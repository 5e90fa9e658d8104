/**
 The attempt scheduler (`migration/scheduler.py`): local cadence, server waits that override it, and the
 slow-down ladder entered after a wait.  Times are seconds on one clock.
 */
module Scheduler {
  import opened Core

  datatype Sched = Sched(
    interval: real,
    target: real,
    last: Option<real>,
    serverUntil: real,
    steps: seq<real>)

  predicate InRange(seconds: real) {
    MIN_INTERVAL <= seconds <= MAX_INTERVAL
  }

  /** The constructor refuses an interval outside 3 to 10 seconds. */
  function Create(interval: real): Option<Sched> {
    if InRange(interval) then Some(Sched(interval, interval, None, 0.0, [])) else None
  }

  function Ladder(target: real): seq<real> {
    [RECOVERY_INTERVAL, 8.0, target]
  }

  function ApplyServerWait(s: Sched, now: real, seconds: real): Sched {
    s.(serverUntil := Max(s.serverUntil, now + Max(0.0, seconds)), steps := Ladder(s.target))
  }

  function ServerWaitRemaining(s: Sched, now: real): real {
    Max(0.0, s.serverUntil - now)
  }

  function RemainingDelay(s: Sched, now: real): real {
    var local := if s.last.Some? then s.last.value + s.interval else now;
    Max(0.0, Max(local, s.serverUntil) - now)
  }

  function MarkAttempt(s: Sched, now: real): Sched {
    s.(last := Some(now))
  }

  function MarkStable(s: Sched, now: real): Sched {
    if ServerWaitRemaining(s, now) > 0.0 || s.steps == [] then s
    else s.(interval := s.steps[0], steps := s.steps[1..])
  }

  /** Also refuses a value outside the range, leaving the scheduler as it was. */
  function ResetTarget(s: Sched, seconds: real): Sched {
    if !InRange(seconds) then s
    else if s.steps == [] then s.(target := seconds, interval := seconds)
    else s.(target := seconds)
  }

  ghost predicate Inv(s: Sched) {
    && InRange(s.interval) && InRange(s.target)
    && |s.steps| <= 3
    && forall i :: 0 <= i < |s.steps| ==> InRange(s.steps[i])
  }

  // ------------------------------------------------------------------------------------------
  // Any sequence of calls
  // ------------------------------------------------------------------------------------------

  datatype Call =
    | Wait(now: real, seconds: real)
    | Attempt(now: real)
    | Stable(now: real)
    | Reset(seconds: real)

  function Apply(s: Sched, c: Call): Sched {
    match c
    case Wait(now, seconds) => ApplyServerWait(s, now, seconds)
    case Attempt(now) => MarkAttempt(s, now)
    case Stable(now) => MarkStable(s, now)
    case Reset(seconds) => ResetTarget(s, seconds)
  }

  function ApplyAll(s: Sched, cs: seq<Call>): Sched {
    if cs == [] then s else Apply(ApplyAll(s, cs[..|cs| - 1]), cs[|cs| - 1])
  }

  /** Whatever is called, the cadence stays between 3 and 10 seconds and server deadlines never move earlier. */
  lemma {:induction false} CadenceStaysInRange(s: Sched, cs: seq<Call>)
    requires Inv(s)
    ensures Inv(ApplyAll(s, cs)) && s.serverUntil <= ApplyAll(s, cs).serverUntil
    ensures 3.0 <= ApplyAll(s, cs).interval <= 10.0 && 3.0 <= ApplyAll(s, cs).target <= 10.0
  {
    if cs != [] {
      CadenceStaysInRange(s, cs[..|cs| - 1]);
    }
  }

  /** The delay is zero exactly when both the cadence and the server deadline have passed. */
  lemma DelayMeaning(s: Sched, now: real)
    ensures RemainingDelay(s, now) == 0.0 <==>
      (s.last.Some? ==> s.last.value + s.interval <= now) && s.serverUntil <= now
    ensures forall later :: now + RemainingDelay(s, now) <= later ==> RemainingDelay(s, later) == 0.0
  {
  }

  /** Stable candidates that count: those reported once the server deadline `until` has passed. */
  function Effective(cs: seq<Call>, until: real): nat {
    if cs == [] then 0
    else
      var c := cs[|cs| - 1];
      Effective(cs[..|cs| - 1], until) + (if c.Stable? && c.now >= until then 1 else 0)
  }

  ghost predicate NoWait(cs: seq<Call>) {
    forall i :: 0 <= i < |cs| ==> !cs[i].Wait?
  }

  /**
   After a server wait the first, second and third effective stable candidates move the interval to 10,
   8 and the target that was in force when the wait arrived; attempts, ineffective reports and changes of
   target in between do not move it.
   */
  lemma {:induction false} RecoveryLadder(s: Sched, now: real, seconds: real, cs: seq<Call>)
    requires NoWait(cs)
    requires Effective(cs, ApplyServerWait(s, now, seconds).serverUntil) < 3
    ensures var w := ApplyServerWait(s, now, seconds);
      var k := Effective(cs, w.serverUntil);
      var t := ApplyAll(w, cs);
      && t.serverUntil == w.serverUntil
      && t.steps == [10.0, 8.0, s.target][k..]
      && t.interval == if k == 0 then s.interval else [10.0, 8.0, s.target][k - 1]
  {
    var w := ApplyServerWait(s, now, seconds);
    if cs != [] {
      RecoveryLadder(s, now, seconds, cs[..|cs| - 1]);
      assert Effective(cs[..|cs| - 1], w.serverUntil) <= Effective(cs, w.serverUntil);
    }
  }

  /**
   The third effective stable candidate ends the recovery at the target in force when the wait arrived;
   that is the current target exactly when no reset changed it meanwhile.
   */
  lemma RecoveryEnds(s: Sched, now: real, seconds: real, cs: seq<Call>, at: real)
    requires NoWait(cs)
    requires Effective(cs, ApplyServerWait(s, now, seconds).serverUntil) == 2
    requires at >= ApplyServerWait(s, now, seconds).serverUntil
    ensures var t := ApplyAll(ApplyServerWait(s, now, seconds), cs + [Stable(at)]);
      && t.steps == [] && t.interval == s.target
      && (t.interval == t.target <==> ApplyAll(ApplyServerWait(s, now, seconds), cs).target == s.target)
  {
    RecoveryLadder(s, now, seconds, cs);
    assert (cs + [Stable(at)])[..|cs|] == cs;
  }

  /** Every rung is at least as slow as the target exactly when the target is at most 8 seconds. */
  lemma LadderIsCautious(target: real)
    requires InRange(target)
    ensures Ladder(target) == [10.0, 8.0, target]
    ensures (forall i :: 0 <= i < |Ladder(target)| ==> Ladder(target)[i] >= target) <==> target <= 8.0
  {
    assert Ladder(target)[1] == 8.0;
  }

  /** A wait lasts its seconds from now, unless a longer one is under way, and starts the recovery anew. */
  lemma WaitMeaning(s: Sched, now: real, seconds: real)
    ensures var w := ApplyServerWait(s, now, seconds);
      && s.serverUntil <= w.serverUntil && now + seconds <= w.serverUntil && now <= w.serverUntil
      && (w.serverUntil == s.serverUntil || w.serverUntil == now + seconds || (w.serverUntil == now && seconds < 0.0))
      && w == s.(serverUntil := w.serverUntil, steps := [10.0, 8.0, s.target])
  {
  }

  // ------------------------------------------------------------------------------------------
  // The scheduler object
  // ------------------------------------------------------------------------------------------

  class InviteScheduler {
    var interval: real
    var targetInterval: real
    var lastAttempt: Option<real>
    var serverWaitUntil: real
    var recoverySteps: seq<real>

    ghost function View(): Sched
      reads this
    {
      Sched(interval, targetInterval, lastAttempt, serverWaitUntil, recoverySteps)
    }

    constructor (seconds: real)
      requires InRange(seconds)
      ensures Create(seconds) == Some(View())
      ensures Inv(View())
    {
      interval, targetInterval, lastAttempt, serverWaitUntil, recoverySteps := seconds, seconds, None, 0.0, [];
    }

    method ApplyWait(now: real, seconds: real)
      modifies this
      ensures View() == ApplyServerWait(old(View()), now, seconds)
    {
      var until := now + Max(0.0, seconds);
      if until > serverWaitUntil {
        serverWaitUntil := until;
      }
      recoverySteps := [RECOVERY_INTERVAL, 8.0, targetInterval];
    }

    method Delay(now: real) returns (d: real)
      ensures d == RemainingDelay(View(), now)
    {
      var next := now;
      if lastAttempt.Some? {
        next := lastAttempt.value + interval;
      }
      if serverWaitUntil > next {
        next := serverWaitUntil;
      }
      d := Max(0.0, next - now);
    }

    method Attempted(now: real)
      modifies this`lastAttempt
      ensures View() == MarkAttempt(old(View()), now)
    {
      lastAttempt := Some(now);
    }

    method StableCandidate(now: real)
      modifies this`interval, this`recoverySteps
      ensures View() == MarkStable(old(View()), now)
    {
      if ServerWaitRemaining(Sched(interval, targetInterval, lastAttempt, serverWaitUntil, recoverySteps), now) > 0.0
         || recoverySteps == [] {
        return;
      }
      interval := recoverySteps[0];
      recoverySteps := recoverySteps[1..];
    }

    method Retarget(seconds: real) returns (ok: bool)
      modifies this`interval, this`targetInterval
      ensures ok <==> 3.0 <= seconds <= 10.0
      ensures View() == ResetTarget(old(View()), seconds)
      ensures targetInterval == if ok then seconds else old(targetInterval)
      ensures interval == if ok && recoverySteps == [] then seconds else old(interval)
    {
      ok := InRange(seconds);
      if ok {
        targetInterval := seconds;
        if recoverySteps == [] {
          interval := seconds;
        }
      }
    }
  }
}
