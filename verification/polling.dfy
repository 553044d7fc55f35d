/*
 * The status-polling loop shared by the two browser pollers: an `attempts`
 * counter, an interval that fires the tick callback every few seconds until
 * it is cleared, and a limit of 60 attempts. Time is a tick counter: the
 * n-th firing of the interval consumes the n-th tick input.
 */
module Polling {
  import opened Js

  /** `maxAttempts`. */
  const MaxAttempts: nat := 60

  /** `Math.floor(maxAttempts / 2)`: the attempt at which the pending-job fallback runs. */
  const Halfway: nat := MaxAttempts / 2

  /** The poller's state: the `attempts` counter and whether the interval is still set. */
  datatype PollState = PollState(attempts: nat, active: bool)

  /** The counter never passes the limit, and an interval still set is below it. */
  predicate Valid(s: PollState) {
    s.attempts <= MaxAttempts && (s.active ==> s.attempts < MaxAttempts)
  }

  /** How one tick callback ends. */
  datatype Ending =
    /** It reaches `attempts++` (directly or through its `catch`), and clears
        the interval when the counter reaches the limit. */
    | Counted
    /** It clears the interval and returns before `attempts++`. */
    | Stopped
    /** It clears the interval, then still reaches `attempts++`. */
    | StoppedCounted

  /** The output frame when a finished result arrives: the element is missing
      or filling it throws, it has no document, or the result is shown. */
  datatype Frame = FrameMissing | NoDocument | FrameShown

  /** A reply saying the refinement is done, with the refined CV. */
  predicate CompletedReply(data: Record) {
    Field(data, "status") == Str("completed") && Truthy(Field(data, "refinedHTML"))
  }

  /** A reply saying the server has no record of the job yet. */
  predicate PendingReply(data: Record) {
    Field(data, "status") == Str("pending")
  }

  /** What a tick callback did: how it ended and whether it ran the fallback. */
  datatype TickResult = TickResult(ending: Ending, fallback: bool)

  /** The state after a tick that ended with `e`. */
  function After(s: PollState, e: Ending): (t: PollState)
    ensures t.attempts == if e == Stopped then s.attempts else s.attempts + 1
    ensures t.active <==> s.active && e == Counted && s.attempts + 1 < MaxAttempts
    ensures Valid(s) && s.active ==> Valid(t)
  {
    match e
    case Counted => PollState(s.attempts + 1, s.active && s.attempts + 1 < MaxAttempts)
    case Stopped => PollState(s.attempts, false)
    case StoppedCounted => PollState(s.attempts + 1, false)
  }

  /** The tick function runs its fallback only on a tick at the halfway
      attempt, and such a tick goes on to `attempts++`. */
  ghost predicate FallbackAtHalfway<I(!new)>(tick: (nat, I) -> TickResult) {
    forall a: nat, i: I ::
      tick(a, i).fallback ==> a == Halfway && tick(a, i).ending != Stopped
  }

  /** What a run of the interval amounts to: the final state, how many tick
      callbacks ran, and how many of them ran the fallback. */
  datatype RunResult = RunResult(final: PollState, ticks: nat, fallbacks: nat)

  /** The interval fires on each input in turn until it is cleared; inputs
      after that are never consumed. */
  function Run<I>(tick: (nat, I) -> TickResult, s: PollState, inputs: seq<I>): RunResult
    decreases |inputs|
  {
    if inputs == [] || !s.active then RunResult(s, 0, 0)
    else
      var t := tick(s.attempts, inputs[0]);
      var rest := Run(tick, After(s, t.ending), inputs[1..]);
      RunResult(rest.final, rest.ticks + 1, rest.fallbacks + (if t.fallback then 1 else 0))
  }

  /** A run keeps the counter within the limit. */
  lemma {:induction false} RunKeepsValid<I>(tick: (nat, I) -> TickResult, s: PollState, inputs: seq<I>)
    requires Valid(s)
    ensures Valid(Run(tick, s, inputs).final)
    decreases |inputs|
  {
    if inputs != [] && s.active {
      RunKeepsValid(tick, After(s, tick(s.attempts, inputs[0]).ending), inputs[1..]);
    }
  }

  /** Polling stops within the limit: from a fresh poller at most 60 tick
      callbacks ever run, whatever the server answers. */
  lemma {:induction false} RunIsBounded<I>(tick: (nat, I) -> TickResult, s: PollState, inputs: seq<I>)
    requires Valid(s)
    ensures Run(tick, s, inputs).ticks <= |inputs|
    ensures Run(tick, s, inputs).ticks <= MaxAttempts - s.attempts
    ensures Run(tick, s, inputs).final.active ==> Run(tick, s, inputs).ticks == |inputs|
    decreases |inputs|
  {
    if inputs != [] && s.active {
      var t := tick(s.attempts, inputs[0]);
      var s' := After(s, t.ending);
      RunIsBounded(tick, s', inputs[1..]);
      if !s'.active {
        assert Run(tick, s', inputs[1..]).ticks == 0;
      }
    }
  }

  /** Once the counter is past the halfway attempt, the fallback never runs again. */
  lemma {:induction false} NoFallbackAfterHalfway<I(!new)>(tick: (nat, I) -> TickResult, s: PollState, inputs: seq<I>)
    requires FallbackAtHalfway(tick)
    requires s.attempts > Halfway
    ensures Run(tick, s, inputs).fallbacks == 0
    decreases |inputs|
  {
    if inputs != [] && s.active {
      var t := tick(s.attempts, inputs[0]);
      assert !t.fallback;
      NoFallbackAfterHalfway(tick, After(s, t.ending), inputs[1..]);
    }
  }

  /** The fallback runs at most once per poll, and never once the counter
      has passed the halfway attempt. */
  lemma {:induction false} FallbackAtMostOnce<I(!new)>(tick: (nat, I) -> TickResult, s: PollState, inputs: seq<I>)
    requires FallbackAtHalfway(tick)
    ensures Run(tick, s, inputs).fallbacks <= if s.attempts <= Halfway then 1 else 0
    decreases |inputs|
  {
    if inputs != [] && s.active {
      var t := tick(s.attempts, inputs[0]);
      var s' := After(s, t.ending);
      if t.fallback {
        NoFallbackAfterHalfway(tick, s', inputs[1..]);
      } else {
        FallbackAtMostOnce(tick, s', inputs[1..]);
      }
    }
  }

  /** The poller object: `attempts` and the interval handle, shared by the
      tick callback through its closure. */
  class Poller {
    var attempts: nat
    var active: bool

    function State(): PollState
      reads this
    {
      PollState(attempts, active)
    }

    /** `let attempts = 0` followed by `setInterval`. */
    constructor()
      ensures attempts == 0 && active
    {
      attempts := 0;
      active := true;
    }

    /** The end of a tick callback: `attempts++` and the limit check, or
        `clearInterval`, as `e` says. */
    method Finish(e: Ending)
      requires active
      modifies this
      ensures State() == After(old(State()), e)
    {
      match e
      case Counted =>
        attempts := attempts + 1;
        if attempts >= MaxAttempts {
          active := false;
        }
      case Stopped =>
        active := false;
      case StoppedCounted =>
        active := false;
        attempts := attempts + 1;
    }

    /** The interval firing once per input while it is set; returns how
        many callbacks ran and how many of them ran the fallback. */
    method Interval<I>(tick: (nat, I) -> TickResult, inputs: seq<I>) returns (ticks: nat, fallbacks: nat)
      modifies this
      ensures RunResult(State(), ticks, fallbacks) == Run(tick, old(State()), inputs)
    {
      ghost var start := State();
      var i := 0;
      ticks := 0;
      fallbacks := 0;
      while i < |inputs| && active
        invariant 0 <= i <= |inputs| && ticks == i
        invariant Run(tick, start, inputs) ==
          var rest := Run(tick, State(), inputs[i..]);
          RunResult(rest.final, ticks + rest.ticks, fallbacks + rest.fallbacks)
        decreases |inputs| - i
      {
        var t := tick(attempts, inputs[i]);
        assert inputs[i..][1..] == inputs[i + 1..];
        Finish(t.ending);
        if t.fallback {
          fallbacks := fallbacks + 1;
        }
        ticks := ticks + 1;
        i := i + 1;
      }
    }
  }
}
