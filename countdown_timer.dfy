/** The reusable countdown badge: `timeLeft` counts down once a second
    while `isRunning`, and `onComplete` is called when it reaches zero.
    Durations are whole seconds (the one caller passes 3). */
module Countdown {
  import opened Common

  /** The two state cells of the timer. */
  datatype TimerState = TimerState(timeLeft: int, isRunning: bool)

  /** One run of the ticking effect on `t` followed by the timeout it set,
      if any: the next state and whether `onComplete` was called. A stopped
      timer does nothing; a running one at or below zero completes and sets
      no further timeout; otherwise the timeout takes one second off. */
  function Advance(t: TimerState): (step: (TimerState, bool))
    ensures step.1 <==> t.isRunning && t.timeLeft <= 0
    ensures step.0.isRunning == t.isRunning
    ensures step.0.timeLeft == (if t.isRunning && !step.1 then t.timeLeft - 1 else t.timeLeft)
  {
    if !t.isRunning then (t, false)
    else if t.timeLeft <= 0 then (t, true)
    else (t.(timeLeft := t.timeLeft - 1), false)
  }

  /** The state after `k` runs of the effect. */
  function Run(t: TimerState, k: nat): TimerState
    decreases k
  {
    if k == 0 then t else Run(Advance(t).0, k - 1)
  }

  /** Whether the next run of the effect calls `onComplete`. */
  predicate Fires(t: TimerState)
  {
    Advance(t).1
  }

  /** A running timer loses exactly one second per tick while it has time left. */
  lemma {:induction false} RunCountsDown(t: TimerState, k: nat)
    requires t.isRunning && k <= t.timeLeft
    ensures Run(t, k) == TimerState(t.timeLeft - k, true)
    decreases k
  {
    if k > 0 {
      RunCountsDown(Advance(t).0, k - 1);
    }
  }

  /** Started with `n` seconds, the timer completes on the run after the
      `n`-th tick and not before. */
  lemma CompletesAfterDuration(t: TimerState, n: nat)
    requires t.isRunning && t.timeLeft == n
    ensures Fires(Run(t, n))
    ensures forall k: nat :: k < n ==> !Fires(Run(t, k))
  {
    RunCountsDown(t, n);
    forall k: nat | k < n
      ensures !Fires(Run(t, k))
    {
      RunCountsDown(t, k);
    }
  }

  /** A stopped timer never moves and never completes. */
  lemma {:induction false} StoppedTimerIsFrozen(t: TimerState, k: nat)
    requires !t.isRunning
    ensures Run(t, k) == t && !Fires(Run(t, k))
    decreases k
  {
    if k > 0 {
      StoppedTimerIsFrozen(Advance(t).0, k - 1);
    }
  }

  /** Once a running timer has reached zero it stays there: no further
      second is taken off. */
  lemma {:induction false} CompletionIsFinal(t: TimerState, k: nat)
    requires t.isRunning && t.timeLeft <= 0
    ensures Run(t, k) == t && Fires(Run(t, k))
    decreases k
  {
    if k > 0 {
      CompletionIsFinal(Advance(t).0, k - 1);
    }
  }

  class CountdownTimer {
    /** The current props. */
    var duration: int
    var autoStart: bool
    /** The state cells. */
    var timeLeft: int
    var isRunning: bool

    function State(): TimerState
      reads this
    {
      TimerState(timeLeft, isRunning)
    }

    /** Mounting: `autoStart` defaults to true when the caller omits it. */
    constructor (duration: int, autoStart: Option<bool>)
      ensures this.duration == duration
      ensures this.autoStart == (if autoStart.Some? then autoStart.value else true)
      ensures State() == TimerState(duration, this.autoStart)
    {
      this.duration := duration;
      this.autoStart := if autoStart.Some? then autoStart.value else true;
      timeLeft := duration;
      isRunning := this.autoStart;
    }

    /** The ticking effect runs and, if it set one, its timeout fires. */
    method Tick() returns (completed: bool)
      modifies this`timeLeft
      ensures (State(), completed) == Advance(old(State()))
    {
      if !isRunning {
        return false;
      }
      if timeLeft <= 0 {
        return true;
      }
      timeLeft := timeLeft - 1;
      completed := false;
    }

    /** New props: a change of either prop restarts the timer from the new
        duration in the new running state; the same props leave it alone. */
    method PropsChanged(newDuration: int, newAutoStart: bool)
      modifies this
      ensures duration == newDuration && autoStart == newAutoStart
      ensures newDuration != old(duration) || newAutoStart != old(autoStart) ==>
        State() == TimerState(newDuration, newAutoStart)
      ensures newDuration == old(duration) && newAutoStart == old(autoStart) ==>
        State() == old(State())
    {
      if newDuration != duration || newAutoStart != autoStart {
        timeLeft := newDuration;
        isRunning := newAutoStart;
      }
      duration, autoStart := newDuration, newAutoStart;
    }

    method Start()
      modifies this`isRunning
      ensures isRunning
    {
      isRunning := true;
    }

    method Stop()
      modifies this`isRunning
      ensures !isRunning
    {
      isRunning := false;
    }

    /** Back to the full duration; running or not is kept. */
    method Reset()
      modifies this`timeLeft
      ensures timeLeft == duration
    {
      timeLeft := duration;
    }
  }
}
