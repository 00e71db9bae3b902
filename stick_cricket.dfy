/** The stick-cricket session: balls are bowled one at a time; a swing while
    the ball is at the bat scores 0-6 runs at random, 0 being out; a ball not
    swung at is out half the time; the third wicket ends the game. */
module StickCricket {
  import opened Common

  const MaxWickets: int := 3

  /** `Math.floor(Math.random() * 7)`: the runs a swing scores. */
  function Runs(r: real): (runs: int)
    requires 0.0 <= r < 1.0
    ensures 0 <= runs <= 6
  {
    var runs := (r * 7.0).Floor;
    assert r * 7.0 < 7.0;
    runs
  }

  /** Each of 0..6 runs can come up: the draw `r = k / 7` scores `k`. */
  lemma RunsCover(k: nat)
    requires k <= 6
    ensures 0.0 <= k as real / 7.0 < 1.0 && Runs(k as real / 7.0) == k
  {
    assert (k as real / 7.0) * 7.0 == k as real;
  }

  /** `Math.random() > 0.5 ? -1 : 1`: which side the ball is hit to. */
  function HitDirection(r: real): (direction: int)
    requires 0.0 <= r < 1.0
    ensures direction == -1 || direction == 1
    ensures direction == -1 <==> r > 0.5
  {
    if r > 0.5 then -1 else 1
  }

  class StickCricketSession {
    var score: int
    var wickets: int
    var gameOver: bool
    var isPlaying: bool
    var ballPosition: Point
    var showBall: bool
    var isBowling: bool
    var isSwinging: bool
    var canHit: bool
    var hitDirection: int
    /** `wickets` and `canHit` as the current ball's timeout and animation
        callbacks see them: the values in the render that started the ball. */
    var startWickets: int
    var startCanHit: bool

    /** The facts every reachable state keeps: at most three wickets; a ball
        in play was started with a wicket left and loses at most one; a
        hittable ball is in play and unresolved; the captured `canHit` is
        never set; and between balls the game is over exactly when three
        wickets have fallen. */
    ghost predicate Valid()
      reads this
    {
      score >= 0 && 0 <= wickets <= MaxWickets && startWickets >= 0
      && (isPlaying ==> startWickets < MaxWickets && startWickets <= wickets <= startWickets + 1)
      && (canHit ==> isPlaying && wickets == startWickets)
      && !startCanHit
      && (gameOver ==> !isPlaying)
      && (!isPlaying ==> (gameOver <==> wickets >= MaxWickets))
    }

    constructor ()
      ensures Valid()
      ensures score == 0 && wickets == 0 && !gameOver && !isPlaying
      ensures ballPosition == Point(0.0, 0.0) && !showBall && !isBowling && !isSwinging
      ensures !canHit && hitDirection == 0 && startWickets == 0 && !startCanHit
    {
      score, wickets, gameOver, isPlaying := 0, 0, false, false;
      ballPosition, showBall, isBowling, isSwinging := Point(0.0, 0.0), false, false, false;
      canHit, hitDirection := false, 0;
      startWickets, startCanHit := 0, false;
    }

    /** Play button: only with wickets left and no ball in play; it starts
        the bowler's run-up with the ball hidden. */
    method StartGame() returns (started: bool)
      requires Valid()
      modifies this`isPlaying, this`isBowling, this`showBall, this`startWickets, this`startCanHit
      ensures Valid()
      ensures started <==> old(wickets) < MaxWickets && !old(isPlaying)
      ensures !started ==>
        isPlaying == old(isPlaying) && isBowling == old(isBowling) && showBall == old(showBall)
        && startWickets == old(startWickets) && startCanHit == old(startCanHit)
      ensures started ==>
        isPlaying && isBowling && !showBall && startWickets == wickets && startCanHit == old(canHit)
      ensures started ==> !startCanHit
    {
      started := wickets < MaxWickets && !isPlaying;
      if started {
        isPlaying := true;
        startWickets, startCanHit := wickets, canHit;
        isBowling := true;
        showBall := false;
      }
    }

    /** The run-up timeout: the ball appears at the bowler. */
    method BowlerReleases()
      requires Valid()
      modifies this`showBall, this`ballPosition
      ensures Valid()
      ensures showBall && ballPosition == Point(30.0, 50.0)
    {
      showBall := true;
      ballPosition := Point(30.0, 50.0);
    }

    /** The delivery animation ended: the ball is at the bat and can be hit.
        It ends before anything has resolved the ball. */
    method BallReachesBatsman()
      requires Valid() && isPlaying && wickets == startWickets
      modifies this`canHit
      ensures Valid() && canHit
    {
      canHit := true;
    }

    /** A ball not swung at: out when the draw is above one half. It is
        only called for a ball that can still be hit. */
    method BallMissed(rOut: real) returns (isOut: bool)
      requires Valid() && canHit && 0.0 <= rOut < 1.0
      modifies this`canHit, this`wickets
      ensures Valid()
      ensures !canHit && (isOut <==> rOut > 0.5)
      ensures wickets == old(wickets) + (if isOut then 1 else 0)
    {
      canHit := false;
      isOut := rOut > 0.5;
      if isOut {
        wickets := wickets + 1;
      }
    }

    /** Half a second after the ball reached the bat, as written: the check
        reads the captured `canHit`, which was false when the ball started
        (`Valid` keeps it false), so the branch that would call the miss is
        unreachable and an unanswered ball stays live. */
    method MissTimeout(rOut: real) returns (isOut: Option<bool>)
      requires Valid() && 0.0 <= rOut < 1.0
      ensures isOut.None?
    {
      if startCanHit {
        assert false;
      }
      isOut := None;
    }

    /** The miss timeout as evidently intended, reading the live `canHit`: a
        ball still at the bat when it fires is resolved as a miss. */
    method MissTimeoutFixed(rOut: real) returns (isOut: Option<bool>)
      requires Valid() && 0.0 <= rOut < 1.0
      modifies this`canHit, this`wickets
      ensures Valid() && !canHit
      ensures isOut.Some? <==> old(canHit)
      ensures isOut.Some? ==>
        (isOut.value <==> rOut > 0.5) && wickets == old(wickets) + (if isOut.value then 1 else 0)
      ensures isOut.None? ==> wickets == old(wickets)
    {
      isOut := None;
      if canHit {
        var out := BallMissed(rOut);
        isOut := Some(out);
      }
    }

    /** Swing button: ignored unless the ball is at the bat; otherwise the
        ball can no longer be hit and the runs are drawn. They are applied by
        `SwingLands` after a short delay. */
    method SwingBat(rDirection: real, rRuns: real) returns (runs: Option<int>)
      requires Valid() && 0.0 <= rDirection < 1.0 && 0.0 <= rRuns < 1.0
      modifies this`isSwinging, this`canHit, this`hitDirection
      ensures Valid() && !canHit
      ensures runs.Some? <==> old(canHit)
      ensures runs.None? ==> isSwinging == old(isSwinging) && hitDirection == old(hitDirection)
      ensures runs.Some? ==>
        runs.value == Runs(rRuns) && 0 <= runs.value <= 6
        && isSwinging && hitDirection == HitDirection(rDirection)
    {
      if !canHit {
        return None;
      }
      isSwinging := true;
      canHit := false;
      hitDirection := HitDirection(rDirection);
      runs := Some(Runs(rRuns));
    }

    /** The swing's delayed outcome: no runs is out (one more wicket, then the
        ball ends); otherwise the runs are added and the ball ends when the
        hit animation does. The swung ball has not lost a wicket yet. */
    method SwingLands(runs: int) returns (out: bool)
      requires Valid() && isPlaying && !canHit && 0 <= runs <= 6 && wickets == startWickets
      modifies this`wickets, this`score, this`showBall, this`isPlaying, this`gameOver
      ensures Valid()
      ensures out <==> runs == 0
      ensures out ==>
        wickets == old(wickets) + 1 && score == old(score) && !isPlaying && !showBall
        && (gameOver <==> wickets >= MaxWickets)
      ensures !out ==>
        score == old(score) + runs && wickets == old(wickets)
        && isPlaying == old(isPlaying) && showBall == old(showBall) && gameOver == old(gameOver)
    {
      out := runs == 0;
      if out {
        wickets := wickets + 1;
        EndBall(true);
      } else {
        score := score + runs;
      }
    }

    /** The ball in play is over: hidden and no longer in play. An out with
        two wickets already down (as the ball's callbacks saw them) ends the
        game. An out has just added its wicket; any other ball none. */
    method EndBall(wasOut: bool)
      requires Valid() && isPlaying && !canHit
      requires wickets == startWickets + (if wasOut then 1 else 0)
      modifies this`showBall, this`isPlaying, this`gameOver
      ensures Valid()
      ensures !showBall && !isPlaying
      ensures gameOver <==> old(gameOver) || (wasOut && startWickets >= MaxWickets - 1)
      ensures gameOver <==> wickets >= MaxWickets
    {
      showBall := false;
      isPlaying := false;
      if startWickets >= MaxWickets - 1 && wasOut {
        gameOver := true;
      }
    }

    method HandleBowlComplete()
      requires Valid()
      modifies this`isBowling
      ensures Valid() && !isBowling
    {
      isBowling := false;
    }

    method HandleSwingComplete()
      requires Valid()
      modifies this`isSwinging
      ensures Valid() && !isSwinging
    {
      isSwinging := false;
    }

    /** Play again, offered only once the game is over: the only step that
        lowers the score. */
    method ResetGame()
      requires Valid() && gameOver
      modifies this`score, this`wickets, this`gameOver, this`isPlaying, this`showBall, this`canHit
      ensures Valid()
      ensures score == 0 && wickets == 0 && !gameOver && !isPlaying && !showBall && !canHit
    {
      score := 0;
      wickets := 0;
      gameOver := false;
      isPlaying := false;
      showBall := false;
      canHit := false;
    }
  }

  /** A ball the player never swings at, as written: after the miss timeout
      the ball is still live and hittable, and the play button refuses to
      start another ball, so the game cannot go on until the player swings. */
  method UnansweredBall() returns (stillLive: bool, nextStarted: bool)
    ensures stillLive && !nextStarted
  {
    var s := new StickCricketSession();
    var started := s.StartGame();
    s.BowlerReleases();
    s.BallReachesBatsman();
    var missed := s.MissTimeout(0.9);
    stillLive := s.isPlaying && s.canHit;
    nextStarted := s.StartGame();
  }

  /** The same ball with the intended miss timeout: it is resolved, with
      the draw above one half it costs a wicket, and once the miss
      animation ends the ball is over and the next one can be started. */
  method UnansweredBallFixed() returns (stillHittable: bool, wicketsLost: int, canStartNext: bool)
    ensures !stillHittable && wicketsLost == 1 && canStartNext
  {
    var s := new StickCricketSession();
    var started := s.StartGame();
    s.BowlerReleases();
    s.BallReachesBatsman();
    var missed := s.MissTimeoutFixed(0.9);
    s.EndBall(missed.value);
    stillHittable, wicketsLost := s.canHit, s.wickets;
    canStartNext := s.wickets < MaxWickets && !s.isPlaying && !s.gameOver;
  }
}
