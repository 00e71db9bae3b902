/** The batting session: a pre-game countdown, a between-ball timer that
    releases each delivery, the delivery's speed and travel time scaled from
    a real 20.12 m pitch, hit detection between bat and ball, the 0-6 timing
    score, and the completion step that closes each ball of the over. */
module Batting {
  import opened Common
  import opened Players

  const RealPitchLengthMeters: real := 20.12
  const BallsPerOver: int := 6
  const CountdownSeconds: int := 3
  const BallTimerSeconds: int := 5
  /** Bat and ball closer than this (pixels, centre to centre) is a hit. */
  const HitRadius: real := 80.0
  /** The vertical bat-ball offset (pixels) that scores a perfect 6. */
  const PerfectDistance: real := 20.0
  /** Each further `Tolerance` pixels away from the perfect offset costs a run. */
  const Tolerance: real := 35.0
  /** The slowest a delivery may cross the screen, in seconds. */
  const MinTravelTime: real := 3.0

  // ---------------------------------------------------------------------
  // Field measurement

  datatype FieldGeometry = FieldGeometry(fieldSize: real, pitchLength: real, speedRatio: real)

  /** Scale derived from the field's measured box: the pitch is drawn at 70%
      of the field's smaller side, read as centimetres at 10 px per cm, and
      the ratio is real pitch centimetres per drawn centimetre. The source has
      no guard for an empty box, so the smaller side must be positive. */
  function MeasureField(width: real, height: real): (g: FieldGeometry)
    requires Min(width, height) > 0.0
    ensures g.fieldSize == Min(width, height)
    ensures g.pitchLength == 0.7 * g.fieldSize
    ensures g.speedRatio > 0.0
    ensures g.speedRatio * g.pitchLength == 20120.0
  {
    var fieldDiameter := Min(width, height);
    var pitchLengthPx := fieldDiameter * 0.7;
    var pitchLengthCm := pitchLengthPx / 10.0;
    var calculatedRatio := RealPitchLengthMeters * 100.0 / pitchLengthCm;
    FieldGeometry(fieldDiameter, pitchLengthPx, calculatedRatio)
  }

  /** A 1000 px field draws a 700 px pitch. */
  lemma ThousandPixelField()
    ensures MeasureField(1000.0, 1000.0).pitchLength == 700.0
    ensures MeasureField(1000.0, 1000.0).speedRatio * 700.0 == 20120.0
  {
  }

  /** The ratio scales inversely with the field: halving the field's smaller
      side doubles the speed ratio. */
  lemma HalvingFieldDoublesRatio(width: real, height: real)
    requires Min(width, height) > 0.0
    ensures MeasureField(width / 2.0, height / 2.0).speedRatio == 2.0 * MeasureField(width, height).speedRatio
  {
    var g := MeasureField(width, height);
    var h := MeasureField(width / 2.0, height / 2.0);
    assert h.fieldSize == g.fieldSize / 2.0;
    assert h.pitchLength == g.pitchLength / 2.0;
    assert h.speedRatio * g.pitchLength == 2.0 * 20120.0;
    assert (2.0 * g.speedRatio) * g.pitchLength == 2.0 * 20120.0;
  }

  // ---------------------------------------------------------------------
  // Deliveries

  datatype SpeedRange = SpeedRange(min: real, max: real)

  /** Delivery speeds in km/h for each difficulty. */
  function SpeedRangeFor(difficulty: Difficulty): (range: SpeedRange)
    ensures 100.0 <= range.min && range.min + 20.0 == range.max
  {
    match difficulty
    case Easy => SpeedRange(100.0, 120.0)
    case Medium => SpeedRange(125.0, 145.0)
    case Hard => SpeedRange(150.0, 170.0)
  }

  /** Harder difficulties bowl strictly faster: every hard delivery outpaces
      every medium one, and every medium one every easy one. */
  lemma SpeedRangesOrdered()
    ensures SpeedRangeFor(Easy).max < SpeedRangeFor(Medium).min
    ensures SpeedRangeFor(Medium).max < SpeedRangeFor(Hard).min
  {
  }

  /** `min + Math.random() * (max - min)`. */
  function DeliverySpeed(difficulty: Difficulty, r: real): (speedKmh: real)
    requires 0.0 <= r < 1.0
    ensures SpeedRangeFor(difficulty).min <= speedKmh < SpeedRangeFor(difficulty).max
  {
    var range := SpeedRangeFor(difficulty);
    range.min + r * (range.max - range.min)
  }

  /** Seconds a ball at `speedKmh` takes over the real pitch. */
  function RealTravelTime(speedKmh: real): (seconds: real)
    requires speedKmh > 0.0
    ensures seconds > 0.0
    ensures seconds * speedKmh == RealPitchLengthMeters * 3.6
  {
    var speedMs := speedKmh / 3.6;
    RealPitchLengthMeters / speedMs
  }

  /** On-screen travel time: a third of the real time, but never under
      `MinTravelTime` seconds, so always positive. */
  function TravelTime(speedKmh: real): (seconds: real)
    requires speedKmh > 0.0
    ensures seconds >= MinTravelTime > 0.0
    ensures seconds >= RealTravelTime(speedKmh) / 3.0
    ensures seconds == MinTravelTime || seconds == RealTravelTime(speedKmh) / 3.0
  {
    Max(3.0, RealTravelTime(speedKmh) / 3.0)
  }

  /** Every speed any difficulty bowls takes under a second for real, so the
      floor always decides: each delivery crosses the screen in exactly
      `MinTravelTime` seconds, whatever its speed. */
  lemma TravelTimeIsAlwaysFloor(difficulty: Difficulty, r: real)
    requires 0.0 <= r < 1.0
    ensures TravelTime(DeliverySpeed(difficulty, r)) == MinTravelTime
  {
    var s := DeliverySpeed(difficulty, r);
    var t := RealTravelTime(s);
    assert t * s == 72.432;
    assert t * 100.0 <= t * s;
    assert t < 9.0;
  }

  /** `Math.random() * 20 - 10`: the ball's sideways offset in pixels. */
  function HorizontalOffset(r: real): (offset: real)
    requires 0.0 <= r < 1.0
    ensures -10.0 <= offset < 10.0
  {
    r * 20.0 - 10.0
  }

  /** What a released ball is animated with. */
  datatype Delivery = Delivery(speedKmh: real, travelTime: real, horizontalOffset: real)

  function NewDelivery(difficulty: Difficulty, rSpeed: real, rOffset: real): (d: Delivery)
    requires 0.0 <= rSpeed < 1.0 && 0.0 <= rOffset < 1.0
    ensures SpeedRangeFor(difficulty).min <= d.speedKmh < SpeedRangeFor(difficulty).max
    ensures d.travelTime == MinTravelTime
    ensures -10.0 <= d.horizontalOffset < 10.0
  {
    TravelTimeIsAlwaysFloor(difficulty, rSpeed);
    var speed := DeliverySpeed(difficulty, rSpeed);
    Delivery(speed, TravelTime(speed), HorizontalOffset(rOffset))
  }

  // ---------------------------------------------------------------------
  // Hit detection and timing score

  /** The two measured boxes at a drag event: the bat's and the ball's. */
  datatype Contact = Contact(bat: Rect, ball: Rect)
  {
    function Dx(): real { bat.CenterX() - ball.CenterX() }
    function Dy(): real { bat.CenterY() - ball.CenterY() }
    /** `Math.abs(ballCenterY - batCenterY)`. */
    function VerticalDistance(): real { Abs(ball.CenterY() - bat.CenterY()) }
  }

  /** `max(0, 6 - floor(|vertical - 20| / 35))`: six runs within 35 px of
      the perfect offset, one run less for each further 35 px. */
  function TimingScore(verticalDistance: real): (score: int)
    ensures 0 <= score <= 6
    ensures score == 6 <==> Abs(verticalDistance - PerfectDistance) < Tolerance
    ensures verticalDistance == PerfectDistance ==> score == 6
  {
    var steps := (Abs(verticalDistance - PerfectDistance) / Tolerance).Floor;
    if 6 - steps > 0 then 6 - steps else 0
  }

  /** Scores never rise as the offset moves further from the perfect one. */
  lemma TimingScoreFallsOff(v1: real, v2: real)
    requires Abs(v1 - PerfectDistance) <= Abs(v2 - PerfectDistance)
    ensures TimingScore(v2) <= TimingScore(v1)
  {
    var a1 := Abs(v1 - PerfectDistance) / Tolerance;
    var a2 := Abs(v2 - PerfectDistance) / Tolerance;
    assert a1 <= a2;
    assert a1.Floor <= a2.Floor;
  }

  /** A hit needs the centres within 80 px, so the vertical offset is under
      80 px, at most 60 px from the perfect one: every registered hit scores
      5 or 6. */
  lemma HitScoresFiveOrSix(c: Contact, distance: real)
    requires IsLength(distance, c.Dx(), c.Dy()) && distance < HitRadius
    ensures 5 <= TimingScore(c.VerticalDistance()) <= 6
  {
    CoordinateWithinLength(distance, c.Dx(), c.Dy());
    assert c.VerticalDistance() == Abs(c.Dy());
    var off := Abs(c.VerticalDistance() - PerfectDistance);
    assert off < 60.0;
    assert off / Tolerance < 2.0;
  }

  // ---------------------------------------------------------------------
  // Session state

  /** The hook's single state record. `opponent` is the bowler faced;
      `scores` holds one entry per resolved ball. */
  datatype BattingGameState = BattingGameState(
    currentBall: int,
    isPlaying: bool,
    opponent: Option<Player>,
    scores: seq<int>,
    countdown: int,
    gameStarted: bool,
    showBall: bool,
    batSwung: bool,
    ballReleased: bool,
    ballTimer: int,
    fieldSize: real,
    pitchLength: real,
    speedRatio: real,
    ballPosition: Point,
    showBallTrail: bool)

  const InitialState: BattingGameState := BattingGameState(
    0, false, None, [], CountdownSeconds, false, true, false, false, BallTimerSeconds,
    0.0, 0.0, 1.0, Point(0.0, 0.0), false)

  /** What the session hands to the results screen. */
  datatype BattingResults = BattingResults(scores: seq<int>, difficulty: Difficulty, opponent: Option<Player>)

  class BattingSession {
    const difficulty: Difficulty
    var state: BattingGameState
    /** `state.batSwung` as the pending flight-completion callback sees it:
        the value in the render that released the ball, captured when the
        ball was released. */
    var releaseBatSwung: bool

    /** The facts every reachable state keeps. */
    ghost predicate Valid()
      reads this
    {
      var s := state;
      0 <= s.countdown <= CountdownSeconds && (s.gameStarted <==> s.countdown == 0)
      && 1 <= s.ballTimer <= BallTimerSeconds
      && 0 <= s.currentBall <= BallsPerOver
      && (s.isPlaying <==> s.ballReleased)
      && (s.isPlaying ==> s.gameStarted && s.currentBall < BallsPerOver)
      && (forall i :: 0 <= i < |s.scores| ==> 0 <= s.scores[i] <= 6)
      && s.speedRatio > 0.0
    }

    /** The intended bookkeeping: one score per finished ball, plus one for
        the ball in flight once it has been hit. */
    ghost predicate ScoresTrackBalls()
      reads this
    {
      |state.scores| == state.currentBall + (if state.isPlaying && state.batSwung then 1 else 0)
    }

    /** The between-ball timer runs only in this state. */
    predicate BallTimerRunning()
      reads this
    {
      state.gameStarted && !state.isPlaying && state.currentBall < BallsPerOver && !state.ballReleased
    }

    constructor (difficulty: Difficulty)
      ensures this.difficulty == difficulty && state == InitialState && !releaseBatSwung
      ensures Valid() && ScoresTrackBalls()
    {
      this.difficulty := difficulty;
      state := InitialState;
      releaseBatSwung := false;
    }

    /** The mount effect picks the bowler faced for this difficulty. */
    method ChooseOpponent(r: real)
      requires Valid() && 0.0 <= r < 1.0
      modifies this`state
      ensures Valid() && (old(ScoresTrackBalls()) ==> ScoresTrackBalls())
      ensures state == old(state).(opponent := Some(GetRandomPlayers(Bowler, difficulty, 1, r, [])[0]))
      ensures state.opponent.value.role == Bowler
      ensures state.opponent.value in Pool(Bowlers, difficulty)
    {
      var chosen := GetRandomPlayers(Bowler, difficulty, 1, r, []);
      state := state.(opponent := Some(chosen[0]));
    }

    /** Resize handler. `field` is the field element's box, absent while the
        element is not mounted (then nothing changes). */
    method UpdateFieldSize(field: Option<Rect>)
      requires Valid()
      requires field.Some? ==> Min(field.value.width, field.value.height) > 0.0
      modifies this`state
      ensures Valid() && (old(ScoresTrackBalls()) ==> ScoresTrackBalls())
      ensures field.None? ==> state == old(state)
      ensures field.Some? ==>
        var g := MeasureField(field.value.width, field.value.height);
        state == old(state).(fieldSize := g.fieldSize, pitchLength := g.pitchLength, speedRatio := g.speedRatio)
      ensures field.Some? ==> state.speedRatio * state.pitchLength == 20120.0
    {
      if field.Some? {
        var g := MeasureField(field.value.width, field.value.height);
        state := state.(fieldSize := g.fieldSize, pitchLength := g.pitchLength, speedRatio := g.speedRatio);
      }
    }

    /** One second of the pre-game countdown. */
    method CountdownTick()
      requires Valid()
      modifies this`state
      ensures Valid() && (old(ScoresTrackBalls()) ==> ScoresTrackBalls())
      ensures old(state.countdown) <= 1 ==> state == old(state).(countdown := 0, gameStarted := true)
      ensures old(state.countdown) > 1 ==> state == old(state).(countdown := old(state.countdown) - 1)
    {
      if state.countdown <= 1 {
        state := state.(countdown := 0, gameStarted := true);
      } else {
        state := state.(countdown := state.countdown - 1);
      }
    }

    /** `startNewBall`: after the sixth ball it hands the scores over and
        changes nothing; otherwise it releases a ball, whose animation is
        described by `delivery`. It is only reached from the between-ball
        timer, so no ball is in flight. */
    method StartNewBall(rSpeed: real, rOffset: real) returns (handoff: Option<BattingResults>, delivery: Option<Delivery>)
      requires Valid() && state.gameStarted && !state.isPlaying
      requires 0.0 <= rSpeed < 1.0 && 0.0 <= rOffset < 1.0
      modifies this
      ensures Valid() && (old(ScoresTrackBalls()) ==> ScoresTrackBalls())
      ensures old(state.currentBall) >= BallsPerOver ==>
        handoff == Some(BattingResults(old(state.scores), difficulty, old(state.opponent)))
        && delivery.None? && state == old(state) && releaseBatSwung == old(releaseBatSwung)
      ensures old(state.currentBall) < BallsPerOver ==>
        handoff.None? && delivery == Some(NewDelivery(difficulty, rSpeed, rOffset))
        && state == old(state).(isPlaying := true, showBall := true, batSwung := false,
                                ballReleased := true, showBallTrail := true)
        && releaseBatSwung == old(state.batSwung)
    {
      if state.currentBall >= BallsPerOver {
        return Some(BattingResults(state.scores, difficulty, state.opponent)), None;
      }
      releaseBatSwung := state.batSwung;
      state := state.(isPlaying := true, showBall := true, batSwung := false,
                      ballReleased := true, showBallTrail := true);
      handoff, delivery := None, Some(NewDelivery(difficulty, rSpeed, rOffset));
    }

    /** One second of the between-ball timer, as written: the timer only runs
        while fewer than six balls have been played, so the hand-off branch
        of `StartNewBall` is never reached and the session never hands its
        scores over. */
    method BallTimerTick(rSpeed: real, rOffset: real) returns (handoff: Option<BattingResults>, delivery: Option<Delivery>)
      requires Valid() && 0.0 <= rSpeed < 1.0 && 0.0 <= rOffset < 1.0
      modifies this
      ensures Valid() && (old(ScoresTrackBalls()) ==> ScoresTrackBalls())
      ensures handoff.None?
      ensures !old(BallTimerRunning()) ==>
        state == old(state) && delivery.None? && releaseBatSwung == old(releaseBatSwung)
      ensures old(BallTimerRunning()) && old(state.ballTimer) > 1 ==>
        state == old(state).(ballTimer := old(state.ballTimer) - 1)
        && delivery.None? && releaseBatSwung == old(releaseBatSwung)
      ensures old(BallTimerRunning()) && old(state.ballTimer) <= 1 ==>
        state == old(state).(ballTimer := BallTimerSeconds, isPlaying := true, showBall := true,
                             batSwung := false, ballReleased := true, showBallTrail := true)
        && delivery == Some(NewDelivery(difficulty, rSpeed, rOffset))
        && releaseBatSwung == old(state.batSwung)
    {
      handoff, delivery := None, None;
      if !BallTimerRunning() {
        return;
      }
      if state.ballTimer <= 1 {
        handoff, delivery := StartNewBall(rSpeed, rOffset);
        state := state.(ballTimer := BallTimerSeconds);
      } else {
        state := state.(ballTimer := state.ballTimer - 1);
      }
    }

    /** The between-ball timer as evidently intended: it also runs once the
        over is complete, so the expiry after the sixth ball reaches the
        hand-off branch of `StartNewBall`. */
    method BallTimerTickFixed(rSpeed: real, rOffset: real) returns (handoff: Option<BattingResults>, delivery: Option<Delivery>)
      requires Valid() && 0.0 <= rSpeed < 1.0 && 0.0 <= rOffset < 1.0
      modifies this
      ensures Valid() && (old(ScoresTrackBalls()) ==> ScoresTrackBalls())
      ensures handoff.Some? <==>
        old(state.gameStarted && !state.isPlaying && state.ballTimer <= 1 && state.currentBall >= BallsPerOver)
      ensures handoff.Some? ==> handoff.value == BattingResults(old(state.scores), difficulty, old(state.opponent))
      ensures old(state.currentBall) >= BallsPerOver ==> delivery.None? && state.currentBall == old(state.currentBall)
    {
      handoff, delivery := None, None;
      if !(state.gameStarted && !state.isPlaying && !state.ballReleased) {
        return;
      }
      if state.ballTimer <= 1 {
        handoff, delivery := StartNewBall(rSpeed, rOffset);
        state := state.(ballTimer := BallTimerSeconds);
      } else {
        state := state.(ballTimer := state.ballTimer - 1);
      }
    }

    /** The flight animation finished, as written: a 0 is recorded when the
        captured `batSwung` (that of the previous ball) is false, whatever
        happened to this ball; then the ball is closed. */
    method CompleteFlight()
      requires Valid() && state.isPlaying
      modifies this`state
      ensures Valid()
      ensures state == old(state).(
        scores := if releaseBatSwung then old(state.scores) else old(state.scores) + [0],
        showBall := false, isPlaying := false, ballReleased := false, showBallTrail := false,
        currentBall := old(state.currentBall) + 1, ballTimer := BallTimerSeconds)
    {
      if !releaseBatSwung {
        state := state.(scores := state.scores + [0]);
      }
      state := state.(showBall := false, isPlaying := false, ballReleased := false,
                      showBallTrail := false, currentBall := state.currentBall + 1,
                      ballTimer := BallTimerSeconds);
    }

    /** The flight completion as evidently intended: a miss (this ball never
        hit) records 0, a hit has already recorded its score. Keeps one score
        per ball. */
    method CompleteFlightFixed()
      requires Valid() && state.isPlaying
      modifies this`state
      ensures Valid() && (old(ScoresTrackBalls()) ==> ScoresTrackBalls())
      ensures state == old(state).(
        scores := if old(state.batSwung) then old(state.scores) else old(state.scores) + [0],
        showBall := false, isPlaying := false, ballReleased := false, showBallTrail := false,
        currentBall := old(state.currentBall) + 1, ballTimer := BallTimerSeconds)
    {
      if !state.batSwung {
        state := state.(scores := state.scores + [0]);
      }
      state := state.(showBall := false, isPlaying := false, ballReleased := false,
                      showBallTrail := false, currentBall := state.currentBall + 1,
                      ballTimer := BallTimerSeconds);
    }

    /** Bat drag handler. `contact` holds the bat's and ball's boxes (absent
        while either element is not mounted) and `distance` their centres'
        distance. Only a ball in flight that has not been hit can be hit;
        a hit records the timing score once. The shipped bat component does
        not forward drag events, so the game as shipped never calls it. */
    method HandleBatDrag(contact: Option<Contact>, distance: real) returns (score: Option<int>)
      requires Valid()
      requires contact.Some? ==> IsLength(distance, contact.value.Dx(), contact.value.Dy())
      modifies this`state
      ensures Valid() && (old(ScoresTrackBalls()) ==> ScoresTrackBalls())
      ensures score.Some? <==>
        old(state.isPlaying) && !old(state.batSwung) && contact.Some? && distance < HitRadius
      ensures score.None? ==> state == old(state)
      ensures score.Some? ==>
        score.value == TimingScore(contact.value.VerticalDistance()) && 5 <= score.value <= 6
        && state == old(state).(batSwung := true, showBallTrail := false,
                                scores := old(state.scores) + [score.value])
    {
      score := None;
      if !state.isPlaying || state.batSwung {
        return;
      }
      if contact.Some? {
        var c := contact.value;
        if distance < HitRadius && !state.batSwung {
          state := state.(batSwung := true, showBallTrail := false);
          var timingScore := TimingScore(c.VerticalDistance());
          HitScoresFiveOrSix(c, distance);
          state := state.(scores := state.scores + [timingScore]);
          score := Some(timingScore);
        }
      }
    }

    /** The hit animation finished: the ball is hidden. */
    method HitAnimationDone()
      requires Valid()
      modifies this`state
      ensures Valid() && (old(ScoresTrackBalls()) ==> ScoresTrackBalls())
      ensures state == old(state).(showBall := false)
    {
      state := state.(showBall := false);
    }
  }

  /** One second of each timer until the ball is released: the countdown
      has run out and the between-ball timer goes 5, 4, 3, 2, 1. */
  method ReleaseNextBall(s: BattingSession) returns (delivery: Option<Delivery>)
    requires s.Valid() && s.state.gameStarted && !s.state.isPlaying
    requires s.state.ballTimer == BallTimerSeconds && s.state.currentBall < BallsPerOver
    modifies s
    ensures s.Valid() && s.state.isPlaying && !s.state.batSwung
    ensures s.releaseBatSwung == old(s.state.batSwung)
    ensures s.state == old(s.state).(isPlaying := true, showBall := true, batSwung := false,
                                     ballReleased := true, showBallTrail := true)
  {
    var h;
    h, delivery := s.BallTimerTick(0.5, 0.5);
    h, delivery := s.BallTimerTick(0.5, 0.5);
    h, delivery := s.BallTimerTick(0.5, 0.5);
    h, delivery := s.BallTimerTick(0.5, 0.5);
    h, delivery := s.BallTimerTick(0.5, 0.5);
  }

  /** A session ready for a ball: started, nothing in flight, timer full. */
  ghost predicate AwaitingBall(s: BattingSession, balls: int, recorded: int, swung: bool)
    reads s
  {
    s.Valid() && s.state.gameStarted && !s.state.isPlaying && s.state.ballTimer == BallTimerSeconds
    && s.state.currentBall == balls && |s.state.scores| == recorded && s.state.batSwung == swung
  }

  /** A ball released and never reached by the bat, closed by the flight
      completion as written or, when `fixed`, as intended. */
  method PlayMiss(s: BattingSession, fixed: bool)
    requires AwaitingBall(s, s.state.currentBall, |s.state.scores|, s.state.batSwung)
    requires s.state.currentBall < BallsPerOver
    modifies s
    ensures AwaitingBall(s, old(s.state.currentBall) + 1,
                         |old(s.state.scores)| + (if !fixed && old(s.state.batSwung) then 0 else 1), false)
  {
    var d := ReleaseNextBall(s);
    if fixed {
      s.CompleteFlightFixed();
    } else {
      s.CompleteFlight();
    }
  }

  /** A ball released and hit with bat and ball centres together, closed by
      the flight completion as written or, when `fixed`, as intended. */
  method PlayHit(s: BattingSession, fixed: bool)
    requires AwaitingBall(s, s.state.currentBall, |s.state.scores|, s.state.batSwung)
    requires s.state.currentBall < BallsPerOver
    modifies s
    ensures AwaitingBall(s, old(s.state.currentBall) + 1,
                         |old(s.state.scores)| + (if fixed || old(s.state.batSwung) then 1 else 2), true)
  {
    var d := ReleaseNextBall(s);
    var box := Rect(0.0, 0.0, 10.0, 10.0);
    var hit := s.HandleBatDrag(Some(Contact(box, box)), 0.0);
    if fixed {
      s.CompleteFlightFixed();
    } else {
      s.CompleteFlight();
    }
  }

  /** A new session whose pre-game countdown has run out. */
  method StartedSession() returns (s: BattingSession)
    ensures fresh(s) && AwaitingBall(s, 0, 0, false)
  {
    s := new BattingSession(Medium);
    s.CountdownTick();
    s.CountdownTick();
    s.CountdownTick();
  }

  /** A missed first ball followed by a hit second ball, as written: the
      second ball's completion sees the first ball's `batSwung` (false) and
      records a 0 besides the hit's score, so two balls leave three scores. */
  method MissThenHit() returns (ballsPlayed: int, scoresRecorded: int)
    ensures ballsPlayed == 2 && scoresRecorded == 3
  {
    var s := StartedSession();
    PlayMiss(s, false);
    PlayHit(s, false);
    ballsPlayed, scoresRecorded := s.state.currentBall, |s.state.scores|;
  }

  /** The same two balls with the intended flight completion: one score per
      ball. */
  method MissThenHitFixed() returns (ballsPlayed: int, scoresRecorded: int)
    ensures ballsPlayed == 2 && scoresRecorded == 2
  {
    var s := StartedSession();
    PlayMiss(s, true);
    PlayHit(s, true);
    ballsPlayed, scoresRecorded := s.state.currentBall, |s.state.scores|;
  }

  /** A full over alternating misses and hits, as written: every hit follows
      a miss, so each hit's completion records an extra 0 and the over of six
      balls leaves seven scores. */
  method AlternatingOver() returns (ballsPlayed: int, scoresRecorded: int)
    ensures ballsPlayed == BallsPerOver && scoresRecorded == BallsPerOver + 1
  {
    var s := StartedSession();
    PlayMiss(s, false);
    PlayHit(s, false);
    PlayMiss(s, false);
    PlayHit(s, false);
    PlayMiss(s, false);
    PlayHit(s, false);
    ballsPlayed, scoresRecorded := s.state.currentBall, |s.state.scores|;
  }

  /** The same over with the intended flight completion: six scores. */
  method AlternatingOverFixed() returns (ballsPlayed: int, scoresRecorded: int)
    ensures ballsPlayed == BallsPerOver && scoresRecorded == BallsPerOver
  {
    var s := StartedSession();
    PlayMiss(s, true);
    PlayHit(s, true);
    PlayMiss(s, true);
    PlayHit(s, true);
    PlayMiss(s, true);
    PlayHit(s, true);
    ballsPlayed, scoresRecorded := s.state.currentBall, |s.state.scores|;
  }
}
