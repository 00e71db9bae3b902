/** The bowling session: a pre-game countdown, a drag gesture on the ball
    whose length sets the speed and whose release point sets the accuracy,
    one performance record per ball, and the hand-off after six balls. */
module Bowling {
  import opened Common
  import opened Players

  const BallsPerOver: int := 6
  const CountdownSeconds: int := 3
  /** Drag length (pixels) per point of speed. */
  const PixelsPerSpeedPoint: real := 5.0
  const MaxSpeed: real := 100.0

  /** One bowled ball: speed and accuracy, both on a 0-100 scale. */
  datatype Performance = Performance(speed: real, accuracy: real)

  predicate InRange(p: Performance)
  {
    0.0 <= p.speed <= 100.0 && 0.0 <= p.accuracy <= 100.0
  }

  /** What the session hands to the results screen. */
  datatype BowlingResults = BowlingResults(performances: seq<Performance>, difficulty: Difficulty, opponent: Option<Player>)

  /** `Math.min(100, distance / 5)`: speed grows with the drag length and is
      capped at 100 from 500 px on. */
  function BowlSpeed(distance: real): (speed: real)
    requires distance >= 0.0
    ensures 0.0 <= speed <= MaxSpeed
    ensures distance >= 500.0 ==> speed == MaxSpeed
    ensures distance < 500.0 ==> speed * PixelsPerSpeedPoint == distance
  {
    Min(100.0, distance / 5.0)
  }

  /** A longer drag never bowls slower. */
  lemma BowlSpeedMonotonic(d1: real, d2: real)
    requires 0.0 <= d1 <= d2
    ensures BowlSpeed(d1) <= BowlSpeed(d2)
  {
  }

  /** Accuracy of a ball released at `releaseX`: 100 when the field cannot be
      measured; otherwise 100 at the field's centre, falling linearly to 0 at
      half the field's width from it and staying 0 beyond. */
  function Accuracy(releaseX: real, field: Option<Rect>): (accuracy: real)
    requires field.Some? ==> field.value.width > 0.0
    ensures 0.0 <= accuracy <= 100.0
    ensures field.None? ==> accuracy == 100.0
    ensures field.Some? ==> (accuracy == 100.0 <==> releaseX == field.value.CenterX())
    ensures field.Some? && Abs(releaseX - field.value.CenterX()) >= field.value.width / 2.0 ==> accuracy == 0.0
  {
    if field.None? then 100.0
    else
      var rect := field.value;
      var fieldCenterX := rect.left + rect.width / 2.0;
      var horizontalDeviation := Abs(releaseX - fieldCenterX);
      var falloff := horizontalDeviation / (rect.width / 2.0) * 100.0;
      DivNonnegative(horizontalDeviation, rect.width / 2.0);
      DivAtLeastOne(horizontalDeviation, rect.width / 2.0);
      Max(0.0, 100.0 - falloff)
  }

  /** Releasing further from the centre never scores better accuracy. */
  lemma AccuracyFallsOff(x1: real, x2: real, rect: Rect)
    requires rect.width > 0.0
    requires Abs(x1 - rect.CenterX()) <= Abs(x2 - rect.CenterX())
    ensures Accuracy(x2, Some(rect)) <= Accuracy(x1, Some(rect))
  {
    var half := rect.width / 2.0;
    var d1 := Abs(x1 - rect.CenterX());
    var d2 := Abs(x2 - rect.CenterX());
    DivMonotone(d1, d2, half);
  }

  /** Accuracy depends only on the distance from the centre, not the side. */
  lemma AccuracySymmetric(offset: real, rect: Rect)
    requires rect.width > 0.0
    ensures Accuracy(rect.CenterX() + offset, Some(rect)) == Accuracy(rect.CenterX() - offset, Some(rect))
  {
    assert Abs(rect.CenterX() + offset - rect.CenterX()) == Abs(rect.CenterX() - offset - rect.CenterX());
  }

  class BowlingSession {
    const difficulty: Difficulty
    var currentBall: int
    var isPlaying: bool
    var opponent: Option<Player>
    var performances: seq<Performance>
    var countdown: int
    var gameStarted: bool
    var isDragging: bool
    var ballReleased: bool
    var dragStartPos: Point
    /** The speed and accuracy the throw animation's completion callback
        records, fixed when the ball was released. */
    var thrown: Option<Performance>

    /** The facts every reachable state keeps: at most an over of balls,
        one record per bowled ball, each within range, a drag only on the
        ball of an unfinished over once the countdown is over, and a ball in
        flight exactly while released. */
    ghost predicate Valid()
      reads this
    {
      0 <= currentBall <= BallsPerOver && |performances| == currentBall
      && (forall i :: 0 <= i < |performances| ==> InRange(performances[i]))
      && 0 <= countdown <= CountdownSeconds && (gameStarted <==> countdown == 0)
      && (isPlaying <==> ballReleased)
      && (isDragging ==> !ballReleased && gameStarted && currentBall < BallsPerOver)
      && (isPlaying ==> thrown.Some? && InRange(thrown.value) && gameStarted && currentBall < BallsPerOver)
    }

    constructor (difficulty: Difficulty)
      ensures this.difficulty == difficulty && Valid()
      ensures currentBall == 0 && !isPlaying && opponent.None? && performances == []
      ensures countdown == CountdownSeconds && !gameStarted && !isDragging && !ballReleased
      ensures dragStartPos == Point(0.0, 0.0) && thrown.None?
    {
      this.difficulty := difficulty;
      currentBall, isPlaying, opponent, performances := 0, false, None, [];
      countdown, gameStarted, isDragging, ballReleased := CountdownSeconds, false, false, false;
      dragStartPos, thrown := Point(0.0, 0.0), None;
    }

    /** The mount effect picks the batsman bowled at for this difficulty. */
    method ChooseOpponent(r: real)
      requires Valid() && 0.0 <= r < 1.0
      modifies this`opponent
      ensures Valid()
      ensures opponent == Some(GetRandomPlayers(Batsman, difficulty, 1, r, [])[0])
      ensures opponent.value.role == Batsman && opponent.value in Pool(Batsmen, difficulty)
    {
      var chosen := GetRandomPlayers(Batsman, difficulty, 1, r, []);
      opponent := Some(chosen[0]);
    }

    /** One second of the pre-game countdown. */
    method CountdownTick()
      requires Valid()
      modifies this`countdown, this`gameStarted
      ensures Valid()
      ensures old(countdown) <= 1 ==> countdown == 0 && gameStarted
      ensures old(countdown) > 1 ==> countdown == old(countdown) - 1 && gameStarted == old(gameStarted)
    {
      if countdown <= 1 {
        gameStarted := true;
        countdown := 0;
      } else {
        countdown := countdown - 1;
      }
    }

    /** Pointer down on the ball at (x, y): ignored while a ball is out,
        otherwise the drag starts there. The ball that takes the pointer is
        only shown once the countdown is over, and the screen is left when
        the over is complete. */
    method HandleDragStart(x: real, y: real)
      requires Valid() && gameStarted && currentBall < BallsPerOver
      modifies this`isDragging, this`dragStartPos
      ensures Valid()
      ensures old(isPlaying || ballReleased) ==> isDragging == old(isDragging) && dragStartPos == old(dragStartPos)
      ensures !old(isPlaying || ballReleased) ==> isDragging && dragStartPos == Point(x, y)
    {
      if isPlaying || ballReleased {
        return;
      }
      isDragging := true;
      dragStartPos := Point(x, y);
    }

    /** Pointer up at (x, y), `distance` pixels from where the drag started;
        `field` is the field's box, absent if it is not mounted. Only a drag
        in progress with no ball out releases a ball; its speed and accuracy
        are fixed here and recorded when the throw animation ends. */
    method HandleDragEnd(x: real, y: real, distance: real, field: Option<Rect>) returns (throw: Option<Performance>)
      requires Valid()
      requires IsLength(distance, x - dragStartPos.x, y - dragStartPos.y)
      requires field.Some? ==> field.value.width > 0.0
      modifies this`isDragging, this`ballReleased, this`isPlaying, this`thrown
      ensures Valid()
      ensures throw.Some? <==> old(isDragging && !ballReleased)
      ensures throw.None? ==>
        isDragging == old(isDragging) && ballReleased == old(ballReleased)
        && isPlaying == old(isPlaying) && thrown == old(thrown)
      ensures throw.Some? ==>
        throw.value == Performance(BowlSpeed(distance), Accuracy(x, field)) && InRange(throw.value)
        && !isDragging && ballReleased && isPlaying && thrown == throw
    {
      if !isDragging || ballReleased {
        return None;
      }
      isDragging := false;
      ballReleased := true;
      isPlaying := true;
      var speed := BowlSpeed(distance);
      var accuracy := Accuracy(x, field);
      thrown := Some(Performance(speed, accuracy));
      throw := thrown;
    }

    /** The throw animation ended: its record is appended and the ball is
        closed. */
    method ThrowAnimationDone()
      requires Valid() && isPlaying
      modifies this`performances, this`isPlaying, this`ballReleased, this`currentBall
      ensures Valid()
      ensures performances == old(performances) + [thrown.value]
      ensures currentBall == old(currentBall) + 1 && !isPlaying && !ballReleased
    {
      performances := performances + [thrown.value];
      isPlaying := false;
      ballReleased := false;
      currentBall := currentBall + 1;
    }

    /** The between-ball effect: while the next ball can be bowled it only
        waits; once six balls have been bowled it hands the records over. */
    function HandOff(): (payload: Option<BowlingResults>)
      reads this
      ensures payload.Some? <==> currentBall >= BallsPerOver
      ensures payload.Some? ==>
        payload.value.performances == performances
        && payload.value.difficulty == difficulty && payload.value.opponent == opponent
    {
      if gameStarted && !isPlaying && currentBall < BallsPerOver && !ballReleased then None
      else if currentBall >= BallsPerOver then Some(BowlingResults(performances, difficulty, opponent))
      else None
    }
  }

  /** In a valid session the hand-off, whenever it fires, carries exactly
      the six in-range records of one over: never more. */
  lemma HandOffCarriesOver(s: BowlingSession)
    requires s.Valid() && s.HandOff().Some?
    ensures |s.HandOff().value.performances| == BallsPerOver
    ensures forall i :: 0 <= i < BallsPerOver ==> InRange(s.HandOff().value.performances[i])
  {
  }
}
