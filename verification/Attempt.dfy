/**
 What one candidate costs: the mapping of exceptions to codes (`telegram/error_mapper.py`), their
 classification (`migration/result_classifier.py`) and the retry loop around the RPC (`_attempt` in
 `migration/executor.py`).
 */
module Attempt {
  import opened Core
  import JobStore
  import Scheduler

  datatype Code =
    | RateLimit | RateLimitIndefinite | Privacy | AlreadyMember | NotEligible | Permission
    | Auth | InvalidUser | NetworkTransient | ServerTransient | Unknown

  /** An exception, reduced to which token lists its lower-cased class name (or text) meets and its wait attributes. */
  datatype Exc = Exc(
    rate: bool, privacy: bool, already: bool, notEligible: bool, permission: bool, auth: bool, invalid: bool,
    connection: bool, server: bool, seconds: Option<int>, value: Option<int>)

  datatype DomainError = DomainError(code: Code, wait: Option<int>)

  /** `ErrorMapper.map`: the first list that matches decides. */
  function MapError(e: Exc): (d: DomainError)
    ensures d.code.RateLimit? <==> d.wait.Some?
    ensures d.code.RateLimit? ==> d.wait.value >= 1
    ensures d.code.RateLimit? || d.code.RateLimitIndefinite? <==> e.rate
  {
    var wait := if e.seconds.Some? then e.seconds else e.value;
    if e.rate then
      if wait.None? || wait.value <= 0 then DomainError(RateLimitIndefinite, None) else DomainError(RateLimit, wait)
    else if e.privacy then DomainError(Privacy, None)
    else if e.already then DomainError(AlreadyMember, None)
    else if e.notEligible then DomainError(NotEligible, None)
    else if e.permission then DomainError(Permission, None)
    else if e.auth then DomainError(Auth, None)
    else if e.invalid then DomainError(InvalidUser, None)
    else if e.connection then DomainError(NetworkTransient, None)
    else if e.server then DomainError(ServerTransient, None)
    else DomainError(Unknown, None)
  }

  datatype Classified = Classified(state: ItemState, retry: bool, pauseJob: bool)

  function Classify(e: Option<DomainError>): Classified {
    match e
    case None => Classified(ItemSuccess, false, false)
    case Some(d) =>
      match d.code
      case AlreadyMember | Privacy | NotEligible | InvalidUser => Classified(ItemSkipped, false, false)
      case Permission | Auth | RateLimitIndefinite => Classified(ItemFailed, false, true)
      case RateLimit | NetworkTransient | ServerTransient => Classified(ItemRetry, true, false)
      case Unknown => Classified(ItemFailed, false, false)
  }

  /** What the loop does next after one RPC. */
  datatype Verdict =
    | Conclude(state: ItemState)
    | WaitFor(seconds: int)
    | HaltIndefinite
    | HaltPaused
    | BackOff

  /** The branches after the RPC, in the order the loop tests them. */
  function Decide(reply: Option<Exc>): (v: Verdict)
    ensures v.Conclude? ==> !Pending(v.state)
    ensures v.WaitFor? ==> v.seconds >= 1
  {
    var error := if reply.None? then None else Some(MapError(reply.value));
    var result := Classify(error);
    if error.None? then Conclude(ItemSuccess)
    else if error.value.code.RateLimit? then WaitFor(error.value.wait.value)
    else if error.value.code.RateLimitIndefinite? then HaltIndefinite
    else if result.pauseJob then HaltPaused
    else if result.retry && (error.value.code.NetworkTransient? || error.value.code.ServerTransient?) then BackOff
    else Conclude(result.state)
  }

  /** The exception says, by one of the lists that come first, that this user cannot be acted on. */
  predicate AboutUser(e: Exc) {
    e.privacy || e.already || e.notEligible || (!e.permission && !e.auth && e.invalid)
  }

  /** Mapping, classification and branches together, stated by what the exception carries. */
  lemma ReplyMeaning(e: Exc)
    ensures Decide(None) == Conclude(ItemSuccess) && Decide(Some(e)) != Conclude(ItemSuccess)
    ensures var wait := if e.seconds.Some? then e.seconds else e.value;
      var v := Decide(Some(e));
      && (v.WaitFor? <==> e.rate && wait.Some? && wait.value > 0) && (v.WaitFor? ==> Some(v.seconds) == wait)
      && (v.HaltIndefinite? <==> e.rate && !v.WaitFor?)
      && (v == Conclude(ItemSkipped) <==> !e.rate && AboutUser(e))
      && (v.HaltPaused? <==> !e.rate && !AboutUser(e) && (e.permission || e.auth))
      && (v.BackOff? <==> !e.rate && !AboutUser(e) && !e.permission && !e.auth && (e.connection || e.server))
      && (v == Conclude(ItemFailed) <==>
            !e.rate && !AboutUser(e) && !e.permission && !e.auth && !e.connection && !e.server)
  {
  }

  // ------------------------------------------------------------------------------------------
  // The retry policy as a function of the server's replies
  // ------------------------------------------------------------------------------------------

  datatype Ending =
    | Concluded(update: JobStore.Update)
    | Halted
    | Interrupted
    | Starved

  /** The verdicts a sequence of replies leads to. */
  function Judge(replies: seq<Option<Exc>>): (vs: seq<Verdict>)
    ensures |vs| == |replies|
    ensures forall i :: 0 <= i < |vs| ==> vs[i] == Decide(replies[i])
  {
    seq(|replies|, i requires 0 <= i < |replies| => Decide(replies[i]))
  }

  /** How many verdicts are rate limits with a duration. */
  function RateLimits(vs: seq<Verdict>): nat {
    if vs == [] then 0
    else RateLimits(vs[..|vs| - 1]) + (if vs[|vs| - 1].WaitFor? then 1 else 0)
  }

  function Transients(vs: seq<Verdict>): nat {
    if vs == [] then 0
    else Transients(vs[..|vs| - 1]) + (if vs[|vs| - 1].BackOff? then 1 else 0)
  }

  ghost predicate Retrying(vs: seq<Verdict>) {
    forall i :: 0 <= i < |vs| ==> vs[i].WaitFor? || vs[i].BackOff?
  }

  /** The candidate is still undecided: only rate limits and fewer than three transient failures so far. */
  ghost predicate Undecided(vs: seq<Verdict>) {
    Retrying(vs) && Transients(vs) < |TRANSIENT_DELAYS|
  }

  lemma {:induction false} UndecidedLength(vs: seq<Verdict>)
    requires Retrying(vs)
    ensures |vs| == RateLimits(vs) + Transients(vs)
  {
    if vs != [] {
      UndecidedLength(vs[..|vs| - 1]);
    }
  }

  lemma {:induction false} RateLimitsOfPrefix(vs: seq<Verdict>, k: nat)
    requires k <= |vs|
    ensures RateLimits(vs[..k]) <= RateLimits(vs)
  {
    if k == |vs| {
      assert vs[..k] == vs;
    } else {
      RateLimitsOfPrefix(vs[..|vs| - 1], k);
      assert vs[..|vs| - 1][..k] == vs[..k];
    }
  }

  lemma RetryingNext(vs: seq<Verdict>)
    requires vs != []
    ensures var k := |vs| - 1; Retrying(vs) <==> Retrying(vs[..k]) && (vs[k].WaitFor? || vs[k].BackOff?)
  {
    var k := |vs| - 1;
    assert vs == vs[..k] + [vs[k]];
  }

  /** What the next verdict does to an undecided candidate, and the budget it is under. */
  lemma NextVerdict(vs: seq<Verdict>, k: nat)
    requires k < |vs| && Undecided(vs[..k])
    ensures k + 1 <= RateLimits(vs) + 3
    ensures Transients(vs[..k + 1]) == Transients(vs[..k]) + (if vs[k].BackOff? then 1 else 0)
    ensures Undecided(vs[..k + 1]) <==>
      vs[k].WaitFor? || (vs[k].BackOff? && Transients(vs[..k]) + 1 < |TRANSIENT_DELAYS|)
  {
    UndecidedLength(vs[..k]);
    RateLimitsOfPrefix(vs, k);
    var next := vs[..k + 1];
    assert next[..k] == vs[..k] && next[k] == vs[k];
    RetryingNext(next);
  }

  /** The state a decisive verdict gives the item: its own, or FAILED for the third transient failure. */
  function FinalState(v: Verdict): ItemState {
    if v.Conclude? then v.state else ItemFailed
  }

  /** The state an item has earned by the last reply it got: a success, a user that cannot be acted on, or a failure. */
  ghost predicate Earned(reply: Option<Exc>, state: ItemState) {
    match reply
    case None => state == ItemSuccess
    case Some(e) => state == if !e.rate && AboutUser(e) then ItemSkipped else ItemFailed
  }

  lemma FinalStateIsEarned(reply: Option<Exc>)
    requires Decide(reply).Conclude? || Decide(reply).BackOff?
    ensures Earned(reply, FinalState(Decide(reply)))
  {
    if reply.Some? {
      ReplyMeaning(reply.value);
    }
  }

  // ------------------------------------------------------------------------------------------
  // The loop
  // ------------------------------------------------------------------------------------------

  /** Sleep out the scheduler's delay, then start an attempt: as soon as server deadline and cadence allow. */
  method Pace(scheduler: Scheduler.InviteScheduler, now: real) returns (at: real)
    requires Scheduler.Inv(scheduler.View())
    modifies scheduler
    ensures Scheduler.Inv(scheduler.View())
    ensures scheduler.View() == old(scheduler.View()).(last := Some(at))
    ensures now <= at && old(scheduler.serverWaitUntil) <= at
    ensures MIN_INTERVAL <= scheduler.interval
    ensures old(scheduler.lastAttempt.Some?) ==> old(scheduler.lastAttempt).value + scheduler.interval <= at
    ensures at == now || at == old(scheduler.serverWaitUntil) || Some(at - scheduler.interval) == old(scheduler.lastAttempt)
  {
    var delay := scheduler.Delay(now);
    at := now + delay;
    scheduler.Attempted(at);
  }

  /** Register a server wait and sleep it out. */
  method HoldOff(scheduler: Scheduler.InviteScheduler, now: real, seconds: int) returns (after: real)
    requires Scheduler.Inv(scheduler.View())
    modifies scheduler
    ensures Scheduler.Inv(scheduler.View())
    ensures scheduler.View() == Scheduler.ApplyServerWait(old(scheduler.View()), now, seconds as real)
    ensures old(scheduler.serverWaitUntil) <= scheduler.serverWaitUntil <= after
    ensures now + seconds as real <= after
    ensures Scheduler.RemainingDelay(scheduler.View(), after) == 0.0
  {
    scheduler.ApplyWait(now, seconds as real);
    var delay := scheduler.Delay(now);
    after := now + delay;
  }

  /** How long the loop backs off after a transient failure when `transient` came before it. */
  function BackOffTime(transient: nat): real
    requires transient < |TRANSIENT_DELAYS|
  {
    TRANSIENT_DELAYS[transient]
  }

  /**
   RPC times: none before `floor`, at least three seconds apart, and none sooner after a rate limit or the first or
   second transient failure than its seconds, one second and two seconds.
   */
  ghost predicate Spaced(sent: seq<real>, floor: real, vs: seq<Verdict>)
    requires |sent| <= |vs|
  {
    && (forall i :: 0 <= i < |sent| ==> floor <= sent[i])
    && (forall i :: 0 < i < |sent| ==> sent[i - 1] + MIN_INTERVAL <= sent[i])
    && (forall i :: 0 < i < |sent| ==> sent[i - 1] + Held(vs, i - 1) <= sent[i])
  }

  /** What the i-th verdict makes the candidate wait at least. */
  ghost function Held(vs: seq<Verdict>, i: nat): real
    requires i < |vs|
  {
    if vs[i].WaitFor? then vs[i].seconds as real
    else if vs[i].BackOff? then (if Transients(vs[..i]) == 0 then 1.0 else 2.0)
    else 0.0
  }

  /** What the loop does after a verdict, with the sleeps taken so far: end the candidate, or go round again. */
  datatype Next = End(ending: Ending, naps: nat) | Again(now: real, transient: nat, naps: nat)

  predicate Sleeps(v: Verdict) {
    v.WaitFor? || v.BackOff?
  }

  /** What a verdict that ends the candidate makes of it. */
  ghost predicate Ends(next: Next, verdict: Verdict, ordinal: nat, attempts: nat, transient: nat, naps: nat,
                       controls: nat -> bool) {
    next.End? && match next.ending
      case Concluded(u) =>
        && (verdict.Conclude? || (verdict.BackOff? && transient + 1 == |TRANSIENT_DELAYS|))
        && u == JobStore.Update(ordinal, FinalState(verdict), attempts) && !Pending(u.state)
      case Halted => verdict.HaltIndefinite? || verdict.HaltPaused?
      case Interrupted => Sleeps(verdict) && controls(naps + 1)
      case Starved => false
  }

  /** The wait is over undisturbed and the candidate is not given up. */
  ghost predicate GoesOn(next: Next, verdict: Verdict, transient: nat, naps: nat, now: real, controls: nat -> bool) {
    && next.Again? && Sleeps(verdict) && !controls(naps + 1)
    && next.transient == transient + (if verdict.BackOff? then 1 else 0) < |TRANSIENT_DELAYS|
    && (verdict.WaitFor? ==> now + verdict.seconds as real <= next.now)
    && (verdict.BackOff? ==> next.now == now + (if transient == 0 then 1.0 else 2.0))
  }

  /** What a verdict does to the scheduler. */
  ghost predicate Scheduled(before: Scheduler.Sched, after: Scheduler.Sched, verdict: Verdict, now: real) {
    match verdict
    case Conclude(_) => after == Scheduler.MarkStable(before, now)
    case WaitFor(seconds) => after == Scheduler.ApplyServerWait(before, now, seconds as real)
    case _ => after == before
  }

  /**
   The branches after the RPC, with their sleeps: `naps` sleeps have been taken, and a control seen during the i-th
   cuts it short and ends the run.
   */
  method Respond(verdict: Verdict, ordinal: nat, attempts: nat, transient: nat, naps: nat, now: real,
                 controls: nat -> bool, scheduler: Scheduler.InviteScheduler)
    returns (next: Next)
    requires Scheduler.Inv(scheduler.View()) && transient < |TRANSIENT_DELAYS|
    requires verdict.Conclude? ==> !Pending(verdict.state)
    modifies scheduler
    ensures Scheduler.Inv(scheduler.View())
    ensures Scheduled(old(scheduler.View()), scheduler.View(), verdict, now)
    ensures Ends(next, verdict, ordinal, attempts, transient, naps, controls)
      || GoesOn(next, verdict, transient, naps, now, controls)
    ensures next.naps == naps + if Sleeps(verdict) then 1 else 0
    ensures next.End? && next.ending.Interrupted? <==> Sleeps(verdict) && controls(naps + 1)
  {
    match verdict
    case Conclude(state) =>
      scheduler.StableCandidate(now);
      return End(Concluded(JobStore.Update(ordinal, state, attempts)), naps);
    case WaitFor(seconds) =>
      var after := HoldOff(scheduler, now, seconds);
      if controls(naps + 1) {
        return End(Interrupted, naps + 1);
      }
      return Again(after, transient, naps + 1);
    case HaltIndefinite =>
      return End(Halted, naps);
    case HaltPaused =>
      return End(Halted, naps);
    case BackOff =>
      if transient < |TRANSIENT_DELAYS| {
        var after := now + BackOffTime(transient);
        if controls(naps + 1) {
          return End(Interrupted, naps + 1);
        }
        if transient + 1 >= |TRANSIENT_DELAYS| {
          return End(Concluded(JobStore.Update(ordinal, ItemFailed, attempts)), naps + 1);
        }
        return Again(after, transient + 1, naps + 1);
      } else {
        assert false;
      }
  }

  /** What each way of ending says about the replies consumed. */
  ghost predicate Explained(r: Ending, ordinal: nat, persisted: nat, vs: seq<Verdict>, rpcs: nat)
    requires rpcs <= |vs|
  {
    match r
    case Concluded(u) =>
      && rpcs > 0 && !Undecided(vs[..rpcs])
      && (vs[rpcs - 1].Conclude? || vs[rpcs - 1].BackOff?)
      && u == JobStore.Update(ordinal, FinalState(vs[rpcs - 1]), persisted + rpcs)
      && !Pending(u.state)
    case Halted => rpcs > 0 && (vs[rpcs - 1].HaltIndefinite? || vs[rpcs - 1].HaltPaused?)
    case Interrupted => Undecided(vs[..rpcs]) || vs[rpcs - 1].BackOff?
    case Starved => rpcs == |vs| && Undecided(vs)
  }

  /** One sleep before every RPC sent, and one after every rate limit and every transient failure. */
  ghost function Naps(vs: seq<Verdict>): nat {
    |vs| + RateLimits(vs) + Transients(vs)
  }

  /**
   `n` sleeps were taken to consume the verdicts `vs`, and one more where the run ends before the next RPC.  The run is
   interrupted exactly when a control is seen in the last of them, and in none before.
   */
  ghost predicate Slept(r: Ending, vs: seq<Verdict>, n: nat, controls: nat -> bool) {
    && (n == Naps(vs) || (n == Naps(vs) + 1 && (r.Starved? || r.Interrupted?)))
    && (r.Starved? ==> n == Naps(vs) + 1)
    && (forall i :: 1 <= i < n ==> !controls(i))
    && (r.Interrupted? <==> n >= 1 && controls(n))
  }

  /** One turn of the loop after its sleep: send, judge the reply, respond. */
  method Turn(verdict: Verdict, ordinal: nat, attempts: nat, transient: nat, naps: nat, now: real,
              controls: nat -> bool, scheduler: Scheduler.InviteScheduler)
    returns (next: Next, at: real)
    requires Scheduler.Inv(scheduler.View()) && transient < |TRANSIENT_DELAYS|
    requires verdict.Conclude? ==> !Pending(verdict.state)
    modifies scheduler
    ensures Scheduler.Inv(scheduler.View())
    ensures now <= at && old(scheduler.serverWaitUntil) <= at
    ensures old(scheduler.serverWaitUntil) <= scheduler.serverWaitUntil
    ensures scheduler.lastAttempt == Some(at)
    ensures old(scheduler.lastAttempt.Some?) ==> old(scheduler.lastAttempt).value + MIN_INTERVAL <= at
    ensures Ends(next, verdict, ordinal, attempts, transient, naps, controls)
      || GoesOn(next, verdict, transient, naps, at, controls)
    ensures next.naps == naps + if Sleeps(verdict) then 1 else 0
    ensures next.End? && next.ending.Interrupted? <==> Sleeps(verdict) && controls(naps + 1)
  {
    at := Pace(scheduler, now);
    next := Respond(verdict, ordinal, attempts, transient, naps, at, controls, scheduler);
  }

  /** A verdict more, and what it costs in sleeps. */
  lemma NapsGrow(vs: seq<Verdict>, k: nat)
    requires k < |vs|
    ensures Naps(vs[..k + 1]) == Naps(vs[..k]) + 1 + if Sleeps(vs[k]) then 1 else 0
  {
    assert vs[..k + 1][..k] == vs[..k];
  }

  /** The loop before a sleep: RPCs sent so far, verdicts so far all retries, no control seen, waits kept. */
  ghost predicate Underway(vs: seq<Verdict>, sent: seq<real>, transient: nat, naps: nat, controls: nat -> bool,
                           now: real, floor: real) {
    && |sent| <= |vs| && Undecided(vs[..|sent|]) && transient == Transients(vs[..|sent|])
    && (sent != [] ==> Undecided(vs[..|sent| - 1]) && sent[|sent| - 1] + Held(vs, |sent| - 1) <= now)
    && naps == Naps(vs[..|sent|]) && (forall i :: 1 <= i <= naps ==> !controls(i))
    && Spaced(sent, floor, vs)
  }

  /** One RPC more at a time that keeps cadence, deadline and waits. */
  lemma OneMoreSent(vs: seq<Verdict>, sent: seq<real>, at: real, floor: real)
    requires |sent| < |vs| && Spaced(sent, floor, vs) && floor <= at
    requires sent != [] ==> sent[|sent| - 1] + MIN_INTERVAL <= at && sent[|sent| - 1] + Held(vs, |sent| - 1) <= at
    ensures Spaced(sent + [at], floor, vs)
  {
  }

  /** The candidate stays undecided after an undisturbed wait. */
  lemma TurnGoesOn(vs: seq<Verdict>, sent: seq<real>, transient: nat, naps: nat, controls: nat -> bool, now: real,
                   floor: real, at: real, next: Next)
    requires Underway(vs, sent, transient, naps, controls, now, floor) && |sent| < |vs| && transient < |TRANSIENT_DELAYS|
    requires !controls(naps + 1) && now <= at && floor <= at
    requires sent != [] ==> sent[|sent| - 1] + MIN_INTERVAL <= at
    requires GoesOn(next, vs[|sent|], transient, naps + 1, at, controls) && next.naps == naps + 2
    ensures Underway(vs, sent + [at], next.transient, next.naps, controls, next.now, floor)
  {
    var k := |sent|;
    NextVerdict(vs, k);
    NapsGrow(vs, k);
    OneMoreSent(vs, sent, at, floor);
    assert vs[..k + 1][..k] == vs[..k];
  }

  /** The candidate is decided, or the wait after the RPC is cut short. */
  lemma TurnEnds(vs: seq<Verdict>, sent: seq<real>, transient: nat, naps: nat, controls: nat -> bool, now: real,
                 floor: real, at: real, next: Next, ordinal: nat, persisted: nat)
    requires Underway(vs, sent, transient, naps, controls, now, floor) && |sent| < |vs| && transient < |TRANSIENT_DELAYS|
    requires !controls(naps + 1) && now <= at && floor <= at
    requires sent != [] ==> sent[|sent| - 1] + MIN_INTERVAL <= at
    requires Ends(next, vs[|sent|], ordinal, persisted + |sent| + 1, transient, naps + 1, controls)
    requires next.naps == naps + 1 + if Sleeps(vs[|sent|]) then 1 else 0
    requires next.ending.Interrupted? <==> Sleeps(vs[|sent|]) && controls(naps + 2)
    ensures var k := |sent| + 1;
      && Explained(next.ending, ordinal, persisted, vs, k) && Undecided(vs[..k - 1])
      && Slept(next.ending, vs[..k], next.naps, controls) && Spaced(sent + [at], floor, vs)
  {
    var k := |sent|;
    NextVerdict(vs, k);
    NapsGrow(vs, k);
    OneMoreSent(vs, sent, at, floor);
  }

  /** The `while True` loop of a usable candidate. */
  method Loop(ordinal: nat, persisted: nat, vs: seq<Verdict>, controls: nat -> bool,
              scheduler: Scheduler.InviteScheduler, start: real)
    returns (r: Ending, sent: seq<real>, naps: nat)
    requires Scheduler.Inv(scheduler.View())
    requires forall i :: 0 <= i < |vs| && vs[i].Conclude? ==> !Pending(vs[i].state)
    modifies scheduler
    ensures Scheduler.Inv(scheduler.View())
    ensures |sent| <= |vs|
    ensures Explained(r, ordinal, persisted, vs, |sent|)
    ensures |sent| > 0 ==> Undecided(vs[..|sent| - 1])
    ensures naps > 0 && Slept(r, vs[..|sent|], naps, controls)
    ensures Spaced(sent, old(scheduler.serverWaitUntil), vs)
  {
    sent := [];
    var now, transient := start, 0;
    naps := 0;
    ghost var floor := scheduler.serverWaitUntil;
    while true
      invariant Scheduler.Inv(scheduler.View())
      invariant Underway(vs, sent, transient, naps, controls, now, floor)
      invariant floor <= scheduler.serverWaitUntil
      invariant sent != [] ==> scheduler.lastAttempt == Some(sent[|sent| - 1])
      decreases |vs| - |sent|
    {
      naps := naps + 1;
      if controls(naps) {
        return Interrupted, sent, naps;
      }
      if |sent| == |vs| {
        assert vs[..|sent|] == vs;
        return Starved, sent, naps;
      }
      var verdict := vs[|sent|];
      var next, at := Turn(verdict, ordinal, persisted + |sent| + 1, transient, naps, now, controls, scheduler);
      if next.End? {
        TurnEnds(vs, sent, transient, naps - 1, controls, now, floor, at, next, ordinal, persisted);
        return next.ending, sent + [at], next.naps;
      }
      TurnGoesOn(vs, sent, transient, naps - 1, controls, now, floor, at, next);
      sent := sent + [at];
      now, transient, naps := next.now, next.transient, next.naps;
    }
  }

  /**
   `_attempt`.  `replies` is what the server answers, `controls(i)` that pause or stop is seen during the i-th sleep.
   The candidate ends on the first decisive reply: every earlier one was a rate limit or one of at most two transient
   failures, so R rate limits allow at most R+3 RPCs; every RPC is counted in the item's attempts; and the last reply
   decides the state.  A control ends it in the very sleep in which it is seen.  RPCs respect the server deadline, the
   waits and the cadence.
   */
  method Run(ordinal: nat, persisted: nat, usable: bool, replies: seq<Option<Exc>>, controls: nat -> bool,
             scheduler: Scheduler.InviteScheduler, start: real)
    returns (r: Ending, sent: seq<real>, naps: nat)
    requires Scheduler.Inv(scheduler.View())
    modifies scheduler
    ensures Scheduler.Inv(scheduler.View())
    ensures !usable ==> sent == [] && naps == 0 && r == Concluded(JobStore.Update(ordinal, ItemFailed, persisted))
    ensures |sent| <= |replies|
    ensures usable ==> Explained(r, ordinal, persisted, Judge(replies), |sent|)
    ensures usable && r.Concluded? ==>
      |sent| > 0 && Earned(replies[|sent| - 1], r.update.state) && r.update.attempts == persisted + |sent|
    ensures |sent| > 0 ==> Undecided(Judge(replies)[..|sent| - 1])
    ensures |sent| <= RateLimits(Judge(replies)) + 3
    ensures usable ==> naps > 0 && Slept(r, Judge(replies)[..|sent|], naps, controls)
    ensures usable && controls(1) ==> r.Interrupted? && sent == []
    ensures Spaced(sent, old(scheduler.serverWaitUntil), Judge(replies))
  {
    if !usable {
      return Concluded(JobStore.Update(ordinal, ItemFailed, persisted)), [], 0;
    }
    r, sent, naps := Loop(ordinal, persisted, Judge(replies), controls, scheduler, start);
    if |sent| > 0 {
      NextVerdict(Judge(replies), |sent| - 1);
      if r.Concluded? {
        FinalStateIsEarned(replies[|sent| - 1]);
      }
    }
  }
}
