/** The results screen: it reads the payload a session handed over, averages
    the per-ball figures, and asks the matcher for the player the user
    plays like. */
module Results {
  import opened Common
  import opened Players
  import Batting
  import Bowling

  // ---------------------------------------------------------------------
  // Averages

  /** `xs.reduce((a, b) => a + b, 0)`: the left-to-right sum. */
  function Sum(xs: seq<real>): real
    decreases |xs|
  {
    if |xs| == 0 then 0.0 else Sum(xs[..|xs| - 1]) + xs[|xs| - 1]
  }

  /** The guarded average: the sum over the length, and 0 for no values. */
  function Mean(xs: seq<real>): (m: real)
    ensures |xs| == 0 ==> m == 0.0
    ensures |xs| > 0 ==> m * |xs| as real == Sum(xs)
  {
    if |xs| == 0 then 0.0 else Sum(xs) / |xs| as real
  }

  /** Values within [lo, hi] sum to between n * lo and n * hi. */
  lemma {:induction false} SumWithin(xs: seq<real>, lo: real, hi: real)
    requires forall i :: 0 <= i < |xs| ==> lo <= xs[i] <= hi
    ensures |xs| as real * lo <= Sum(xs) <= |xs| as real * hi
    decreases |xs|
  {
    if |xs| > 0 {
      var init := xs[..|xs| - 1];
      assert forall i :: 0 <= i < |init| ==> init[i] == xs[i];
      SumWithin(init, lo, hi);
    }
  }

  /** The average of values within [lo, hi] is within [lo, hi]; with no
      values it is 0, which is inside any interval around 0. */
  lemma MeanWithin(xs: seq<real>, lo: real, hi: real)
    requires lo <= 0.0 <= hi
    requires forall i :: 0 <= i < |xs| ==> lo <= xs[i] <= hi
    ensures lo <= Mean(xs) <= hi
  {
    if |xs| > 0 {
      SumWithin(xs, lo, hi);
      var n := |xs| as real;
      var m := Mean(xs);
      assert (m - lo) * n == Sum(xs) - n * lo;
      assert (hi - m) * n == n * hi - Sum(xs);
    }
  }

  function Scores(scores: seq<int>): (xs: seq<real>)
    ensures |xs| == |scores| && forall i :: 0 <= i < |xs| ==> xs[i] == scores[i] as real
  {
    seq(|scores|, i requires 0 <= i < |scores| => scores[i] as real)
  }

  function Speeds(performances: seq<Bowling.Performance>): (xs: seq<real>)
    ensures |xs| == |performances| && forall i :: 0 <= i < |xs| ==> xs[i] == performances[i].speed
  {
    seq(|performances|, i requires 0 <= i < |performances| => performances[i].speed)
  }

  function Accuracies(performances: seq<Bowling.Performance>): (xs: seq<real>)
    ensures |xs| == |performances| && forall i :: 0 <= i < |xs| ==> xs[i] == performances[i].accuracy
  {
    seq(|performances|, i requires 0 <= i < |performances| => performances[i].accuracy)
  }

  /** Runs per ball faced; 0 when no ball was faced. */
  function AverageScore(scores: seq<int>): (avg: real)
    ensures |scores| == 0 ==> avg == 0.0
    ensures |scores| > 0 ==> avg * |scores| as real == Sum(Scores(scores))
  {
    Mean(Scores(scores))
  }

  /** Mean speed per ball bowled; 0 when no ball was bowled. */
  function AverageSpeed(performances: seq<Bowling.Performance>): (avg: real)
    ensures |performances| == 0 ==> avg == 0.0
    ensures |performances| > 0 ==> avg * |performances| as real == Sum(Speeds(performances))
  {
    Mean(Speeds(performances))
  }

  /** Mean accuracy per ball bowled; 0 when no ball was bowled. */
  function AverageAccuracy(performances: seq<Bowling.Performance>): (avg: real)
    ensures |performances| == 0 ==> avg == 0.0
    ensures |performances| > 0 ==> avg * |performances| as real == Sum(Accuracies(performances))
  {
    Mean(Accuracies(performances))
  }

  /** Scores of 0 to 6 runs average to between 0 and 6. */
  lemma AverageScoreInRange(scores: seq<int>)
    requires forall i :: 0 <= i < |scores| ==> 0 <= scores[i] <= 6
    ensures 0.0 <= AverageScore(scores) <= 6.0
  {
    MeanWithin(Scores(scores), 0.0, 6.0);
  }

  /** In-range performances average to a speed and an accuracy in [0, 100]. */
  lemma AveragesInRange(performances: seq<Bowling.Performance>)
    requires forall i :: 0 <= i < |performances| ==> Bowling.InRange(performances[i])
    ensures 0.0 <= AverageSpeed(performances) <= 100.0
    ensures 0.0 <= AverageAccuracy(performances) <= 100.0
  {
    MeanWithin(Speeds(performances), 0.0, 100.0);
    MeanWithin(Accuracies(performances), 0.0, 100.0);
  }

  // ---------------------------------------------------------------------
  // The navigation payload

  /** The router state the screen receives: every field may be missing, and
      the state itself is missing when the screen is opened directly. */
  datatype NavState = NavState(
    difficulty: Option<Difficulty>,
    opponent: Option<Player>,
    scores: Option<seq<int>>,
    performances: Option<seq<Bowling.Performance>>)

  /** The figures the screen works from. */
  datatype ResultsInput = ResultsInput(
    difficulty: Difficulty,
    opponent: Option<Player>,
    scores: seq<int>,
    performances: seq<Bowling.Performance>)

  /** Reading the router state: a missing difficulty is medium, missing
      score or performance lists are empty, a missing opponent stays absent. */
  function ReadState(state: Option<NavState>): (input: ResultsInput)
    ensures state.None? ==> input == ResultsInput(Medium, None, [], [])
    ensures state.Some? ==>
      (state.value.difficulty.Some? ==> input.difficulty == state.value.difficulty.value)
      && (state.value.difficulty.None? ==> input.difficulty == Medium)
      && input.opponent == state.value.opponent
      && (state.value.scores.Some? ==> input.scores == state.value.scores.value)
      && (state.value.scores.None? ==> input.scores == [])
      && (state.value.performances.Some? ==> input.performances == state.value.performances.value)
      && (state.value.performances.None? ==> input.performances == [])
  {
    match state
    case None => ResultsInput(Medium, None, [], [])
    case Some(st) =>
      ResultsInput(
        if st.difficulty.Some? then st.difficulty.value else Medium,
        st.opponent,
        if st.scores.Some? then st.scores.value else [],
        if st.performances.Some? then st.performances.value else [])
  }

  /** The router state the batting session sends, read back: the screen sees
      the session's scores, difficulty and opponent, and no performances. */
  function FromBatting(results: Batting.BattingResults): (state: NavState)
    ensures ReadState(Some(state)) ==
      ResultsInput(results.difficulty, results.opponent, results.scores, [])
  {
    NavState(Some(results.difficulty), results.opponent, Some(results.scores), None)
  }

  /** The router state the bowling session sends, read back: the screen sees
      the session's performances, difficulty and opponent, and no scores. */
  function FromBowling(results: Bowling.BowlingResults): (state: NavState)
    ensures ReadState(Some(state)) ==
      ResultsInput(results.difficulty, results.opponent, [], results.performances)
  {
    NavState(Some(results.difficulty), results.opponent, None, Some(results.performances))
  }

  /** End to end: whatever a valid batting session hands over averages to
      between 0 and 6 runs a ball on the results screen. */
  lemma BattingHandOffAverage(s: Batting.BattingSession)
    requires s.Valid()
    ensures
      var input := ReadState(Some(FromBatting(Batting.BattingResults(s.state.scores, s.difficulty, s.state.opponent))));
      0.0 <= AverageScore(input.scores) <= 6.0 && AverageSpeed(input.performances) == 0.0
  {
    AverageScoreInRange(s.state.scores);
  }

  /** End to end: the six records a valid bowling session hands over
      average to a speed and an accuracy in [0, 100]. */
  lemma BowlingHandOffAverages(s: Bowling.BowlingSession)
    requires s.Valid() && s.HandOff().Some?
    ensures
      var input := ReadState(Some(FromBowling(s.HandOff().value)));
      0.0 <= AverageSpeed(input.performances) <= 100.0
      && 0.0 <= AverageAccuracy(input.performances) <= 100.0
      && AverageScore(input.scores) == 0.0
  {
    AveragesInRange(s.performances);
  }

  // ---------------------------------------------------------------------
  // The matcher call

  /** The route's game mode, `batting` when the route gives none. */
  function GameMode(routeMode: Option<string>): (mode: string)
    ensures routeMode.Some? ==> mode == routeMode.value
    ensures routeMode.None? ==> mode == "batting"
  {
    if routeMode.Some? then routeMode.value else "batting"
  }

  /** The role and metrics handed to the matcher. A batting result asks for
      a batsman with speed 0 and a random reaction time of 150-350 ms; any
      other mode asks for a bowler with the average speed and no reaction
      time. The accuracy is the average accuracy either way. */
  function MatcherRequest(routeMode: Option<string>, input: ResultsInput, rReaction: real): (request: (Role, Metrics))
    requires 0.0 <= rReaction < 1.0
    ensures var batting := GameMode(routeMode) == "batting";
      (request.0 == Batsman <==> batting)
      && (request.0 == Bowler <==> !batting)
      && request.1.accuracy == AverageAccuracy(input.performances)
      && (batting ==> request.1.speed == 0.0 && request.1.reactionTime.Some?
                      && 150.0 <= request.1.reactionTime.value < 350.0)
      && (!batting ==> request.1.speed == AverageSpeed(input.performances) && request.1.reactionTime.None?)
  {
    var batting := GameMode(routeMode) == "batting";
    var metrics := Metrics(
      if batting then 0.0 else AverageSpeed(input.performances),
      AverageAccuracy(input.performances),
      if batting then Some(rReaction * 200.0 + 150.0) else None);
    (if batting then Batsman else Bowler, metrics)
  }

  /** The player shown after the loading delay: a batsman for batting
      results, a bowler for anything else. */
  function MatchedPlayer(routeMode: Option<string>, input: ResultsInput, rReaction: real, rPick: real): (p: Player)
    requires 0.0 <= rReaction < 1.0 && 0.0 <= rPick < 1.0
    ensures p.role == (if GameMode(routeMode) == "batting" then Batsman else Bowler)
    ensures p in Roster(if GameMode(routeMode) == "batting" then Batsman else Bowler)
  {
    var request := MatcherRequest(routeMode, input, rReaction);
    FindMatchingPlayer(request.0, request.1, rPick)
  }

  /** The performance does not decide the match: two result screens of the
      same mode with the same pick show the same player, whatever was
      scored or bowled. */
  lemma MatchIgnoresPerformance(routeMode: Option<string>, a: ResultsInput, b: ResultsInput, rA: real, rB: real, rPick: real)
    requires 0.0 <= rA < 1.0 && 0.0 <= rB < 1.0 && 0.0 <= rPick < 1.0
    ensures MatchedPlayer(routeMode, a, rA, rPick) == MatchedPlayer(routeMode, b, rB, rPick)
  {
  }
}
