/**
 What the job table means outside a run: transitions allowed by `jobs/state_machine.py`, normalisation
 after a restart (`migration/recovery.py`), and the account-wide server gate looked up before a run
 (`account_waiting_until` in `jobs/repository.py` and its override in `jobs/v12_repository.py`).
 A job's id is its index in the table.
 */
module Lifecycle {
  import opened Core
  import opened JobStore

  /** `validate_transition` accepts the change. */
  predicate TransitionAllowed(from: JobState, to: JobState) {
    Terminal(from) ==> to == from
  }

  // ------------------------------------------------------------------------------------------
  // Restart
  // ------------------------------------------------------------------------------------------

  predicate Recoverable(s: JobState) {
    s.Running? || s.WaitingServer? || s.Paused? || s.RateLimited?
  }

  /** The ids `recoverable()` selects, in ascending order. */
  function RecoverableIds(jobs: seq<Row>): seq<nat> {
    if jobs == [] then []
    else
      var k := |jobs| - 1;
      RecoverableIds(jobs[..k]) + if Recoverable(jobs[k].state) then [k] else []
  }

  function NormalizeRow(row: Row, now: real): Row {
    if row.state.WaitingServer? && row.waitingUntil.Some? && row.waitingUntil.value > now then row
    else if row.state.Running? || row.state.WaitingServer? then
      row.(state := Paused, checkpoint := row.checkpoint.(recovered := true))
    else row
  }

  function NormalizeAll(jobs: seq<Row>, now: real): (r: seq<Row>)
    ensures |r| == |jobs|
  {
    seq(|jobs|, i requires 0 <= i < |jobs| => NormalizeRow(jobs[i], now))
  }

  /**
   After normalisation no job claims a running executor, every job still waiting for the server has its
   deadline ahead, nothing but state and checkpoint changed, only allowed transitions happened, the
   planned action survived, and doing it again at the same instant changes nothing.
   */
  lemma NormalizationIsSound(jobs: seq<Row>, now: real)
    ensures var after := NormalizeAll(jobs, now);
      && (forall i :: 0 <= i < |after| ==>
            && !after[i].state.Running?
            && (after[i].state.WaitingServer? ==> after[i].waitingUntil.Some? && after[i].waitingUntil.value > now)
            && TransitionAllowed(jobs[i].state, after[i].state)
            && after[i].checkpoint.action == jobs[i].checkpoint.action
            && after[i].checkpoint.lastOrdinal == jobs[i].checkpoint.lastOrdinal
            && (after[i] != jobs[i] ==> after[i].state == Paused && after[i].checkpoint.recovered)
            && (after[i].state != jobs[i].state <==>
                  jobs[i].state == Running
                  || (jobs[i].state == WaitingServer && !(jobs[i].waitingUntil.Some? && now < jobs[i].waitingUntil.value)))
            && (after[i].state == jobs[i].state ==> after[i] == jobs[i])
            && after[i].waitingUntil == jobs[i].waitingUntil
            && after[i] == jobs[i].(state := after[i].state, checkpoint := after[i].checkpoint)
            && (Recoverable(after[i].state) <==> Recoverable(jobs[i].state)))
      && NormalizeAll(after, now) == after
  {
    var after := NormalizeAll(jobs, now);
    assert forall i :: 0 <= i < |after| ==> NormalizeRow(after[i], now) == after[i];
  }

  lemma {:induction false} RecoverableIdsMeaning(jobs: seq<Row>)
    ensures forall i, j :: 0 <= i < j < |RecoverableIds(jobs)| ==> RecoverableIds(jobs)[i] < RecoverableIds(jobs)[j]
    ensures forall i :: i in RecoverableIds(jobs) <==>
      && 0 <= i < |jobs|
      && (jobs[i].state == Running || jobs[i].state == WaitingServer || jobs[i].state == Paused || jobs[i].state == RateLimited)
  {
    if jobs != [] {
      var k := |jobs| - 1;
      var rest := RecoverableIds(jobs[..k]);
      RecoverableIdsMeaning(jobs[..k]);
      forall i | 0 <= i < |rest|
        ensures rest[i] < k
      {
        assert rest[i] in rest;
      }
      assert forall i :: i in rest ==> i < k && jobs[..k][i] == jobs[i];
      assert RecoverableIds(jobs) == rest + if Recoverable(jobs[k].state) then [k] else [];
    }
  }

  /** The table of job rows at start-up, normalised in place. */
  class RecoveryService {
    var jobs: seq<Row>

    constructor (jobs: seq<Row>)
      ensures this.jobs == jobs
    {
      this.jobs := jobs;
    }

    method FindRecoverable() returns (ids: seq<nat>)
      ensures ids == RecoverableIds(jobs)
    {
      ids := [];
      var i := 0;
      while i < |jobs|
        invariant 0 <= i <= |jobs| && ids == RecoverableIds(jobs[..i])
      {
        assert jobs[..i + 1][..i] == jobs[..i];
        if Recoverable(jobs[i].state) {
          ids := ids + [i];
        }
        i := i + 1;
      }
      assert jobs[..|jobs|] == jobs;
    }

    method NormalizeAfterRestart(now: real) returns (recovered: seq<nat>)
      modifies this
      ensures jobs == NormalizeAll(old(jobs), now)
      ensures recovered == RecoverableIds(old(jobs))
    {
      var ids := FindRecoverable();
      RecoverableIdsMeaning(jobs);
      recovered := [];
      var k := 0;
      while k < |ids|
        invariant 0 <= k <= |ids| && recovered == ids[..k] && |jobs| == |old(jobs)|
        invariant forall i :: 0 <= i < |jobs| ==>
          jobs[i] == if i in ids[..k] then NormalizeRow(old(jobs)[i], now) else old(jobs)[i]
      {
        var id := ids[k];
        assert id in ids && id !in ids[..k];
        var row := jobs[id];
        if row.state.WaitingServer? && row.waitingUntil.Some? && row.waitingUntil.value > now {
          recovered := recovered + [id];
        } else {
          if row.state.Running? || row.state.WaitingServer? {
            jobs := jobs[id := row.(state := Paused, checkpoint := row.checkpoint.(recovered := true))];
          }
          recovered := recovered + [id];
        }
        k := k + 1;
      }
      assert ids[..|ids|] == ids;
    }
  }

  // ------------------------------------------------------------------------------------------
  // The account's server gate
  // ------------------------------------------------------------------------------------------

  /** Which lookup the application uses: the base repository's, or the override. */
  datatype Lookup = Base | V12

  predicate Consulted(lookup: Lookup, s: JobState) {
    s.WaitingServer? || (lookup.Base? && s.Paused?)
  }

  datatype AccountJob = AccountJob(account: nat, row: Row)

  predicate Gates(lookup: Lookup, account: nat, j: AccountJob) {
    j.account == account && Consulted(lookup, j.row.state) && j.row.waitingUntil.Some?
  }

  /** Which rows are consulted: waiting ones, and paused ones by the base lookup only. */
  lemma GatesMeaning(lookup: Lookup, account: nat, j: AccountJob)
    ensures Gates(lookup, account, j) <==>
      && j.account == account && j.row.waitingUntil != None
      && (j.row.state == WaitingServer || (j.row.state == Paused && lookup == Base))
  {
  }

  /** `account_waiting_until`: the latest deadline among the consulted jobs of the account. */
  method AccountWaitingUntil(jobs: seq<AccountJob>, account: nat, lookup: Lookup) returns (until: Option<real>)
    ensures until.None? <==> forall i :: 0 <= i < |jobs| ==> !Gates(lookup, account, jobs[i])
    ensures until.Some? ==>
      && (exists i :: 0 <= i < |jobs| && Gates(lookup, account, jobs[i]) && jobs[i].row.waitingUntil == until)
      && (forall i :: 0 <= i < |jobs| && Gates(lookup, account, jobs[i]) ==> jobs[i].row.waitingUntil.value <= until.value)
  {
    until := None;
    for k := 0 to |jobs|
      invariant until.None? <==> forall i :: 0 <= i < k ==> !Gates(lookup, account, jobs[i])
      invariant until.Some? ==>
        && (exists i :: 0 <= i < k && Gates(lookup, account, jobs[i]) && jobs[i].row.waitingUntil == until)
        && (forall i :: 0 <= i < k && Gates(lookup, account, jobs[i]) ==> jobs[i].row.waitingUntil.value <= until.value)
    {
      if Gates(lookup, account, jobs[k]) {
        if until.None? || jobs[k].row.waitingUntil.value > until.value {
          until := jobs[k].row.waitingUntil;
        }
      }
    }
  }

  /** The gate of a job alone on its account. */
  function OwnGate(lookup: Lookup, row: Row): Option<real> {
    if Consulted(lookup, row.state) then row.waitingUntil else None
  }

  /** ... which is what the lookup finds when there is no other job. */
  lemma OwnGateIsTheLookup(lookup: Lookup, account: nat, row: Row)
    ensures OwnGate(lookup, row).Some? <==> Gates(lookup, account, AccountJob(account, row))
    ensures OwnGate(lookup, row).Some? ==> OwnGate(lookup, row) == row.waitingUntil
  {
  }

  /** `_remaining_wait`. */
  function RemainingWait(until: Option<real>, now: real): real {
    if until.None? then 0.0 else Max(0.0, until.value - now)
  }

  /** Nothing remains without a deadline or once it has come; before, exactly the time to it. */
  lemma RemainingWaitMeaning(until: Option<real>, now: real)
    ensures RemainingWait(until, now) == 0.0 <==> until == None || until.value <= now
    ensures RemainingWait(until, now) != 0.0 ==> until == Some(now + RemainingWait(until, now))
  {
  }
}
