/**
 The commands that start and resume migration runs (`runtime/command_handlers.py`): the dictionary of
 executors and the coroutines behind it.
 */
module Handlers {
  import opened Core
  import S = Scheduler

  /** What the guards read of a job. */
  datatype JobRow = JobRow(migration: bool, state: JobState, account: Option<int>, target: Option<int>)

  datatype Outcome =
    | Launched | AlreadyRunning | AccountDisabled | NotFound | WrongState | WrongAccount | MissingTarget
    | BadInterval | SubmitFailed

  /** What the environment answers: the job's row, the account, the group metadata, the network thread. */
  datatype Env = Env(row: Option<JobRow>, enabled: bool, group: bool, submits: bool)

  datatype Command =
    | Start(job: int, account: int, interval: real, env: Env)
    | Resume(job: int, interval: real, env: Env)
    | Ends(job: int)       // the coroutine of a run returns or raises
    | Finished(job: int)   // its done-callback runs

  /** The dictionary's keys, the coroutines still running, and the callbacks still due. */
  datatype Hub = Hub(executors: set<int>, live: multiset<int>, due: multiset<int>)

  /** Where `start_migration` stops before it creates an executor; None is past every guard. */
  function StartRefusal(executors: set<int>, job: int, account: int, interval: real, env: Env): Option<Outcome> {
    if job in executors then Some(AlreadyRunning)
    else if !env.enabled then Some(AccountDisabled)
    else if env.row.None? || !env.row.value.migration then Some(NotFound)
    else if !env.row.value.state.Ready? then Some(WrongState)
    else if env.row.value.account != Some(account) then Some(WrongAccount)
    else if env.row.value.target.None? || !env.group then Some(MissingTarget)
    else if S.Create(interval).None? then Some(BadInterval)
    else None
  }

  function ResumeRefusal(executors: set<int>, job: int, interval: real, env: Env): Option<Outcome> {
    if job in executors then Some(AlreadyRunning)
    else if env.row.None? || !env.row.value.migration then Some(NotFound)
    else if !env.row.value.state.Paused? && !env.row.value.state.WaitingServer? then Some(WrongState)
    else if env.row.value.account.None? || env.row.value.target.None? then Some(MissingTarget)
    else if !env.enabled then Some(AccountDisabled)
    else if !env.group then Some(MissingTarget)
    else if S.Create(interval).None? then Some(BadInterval)
    else None
  }

  /** What a start and a resume both need of the job, its account and its target. */
  ghost predicate Runnable(executors: set<int>, job: int, interval: real, env: Env) {
    && job !in executors && 3.0 <= interval <= 10.0
    && env.enabled && env.group
    && env.row.Some? && env.row.value.migration && env.row.value.account.Some? && env.row.value.target.Some?
  }

  /** Who is let through, and what each refusal says. */
  lemma StartRefusalMeaning(executors: set<int>, job: int, account: int, interval: real, env: Env)
    ensures var r := StartRefusal(executors, job, account, interval, env);
      && (r.None? <==>
            && Runnable(executors, job, interval, env)
            && env.row.value.state == Ready && env.row.value.account.value == account)
      && (r == Some(AlreadyRunning) <==> job in executors)
      && (r == Some(AccountDisabled) <==> job !in executors && !env.enabled)
      && (r == Some(NotFound) ==> env.row.None? || !env.row.value.migration)
      && (r == Some(WrongState) ==> env.row.Some? && env.row.value.state != Ready)
      && (r == Some(WrongAccount) ==> env.row.Some? && env.row.value.account != Some(account))
      && (r == Some(MissingTarget) ==> env.row.Some? && (env.row.value.target == None || !env.group))
      && (r == Some(BadInterval) ==> !(3.0 <= interval <= 10.0))
  {
  }

  lemma ResumeRefusalMeaning(executors: set<int>, job: int, interval: real, env: Env)
    ensures var r := ResumeRefusal(executors, job, interval, env);
      && (r.None? <==>
            && Runnable(executors, job, interval, env)
            && (env.row.value.state == Paused || env.row.value.state == WaitingServer))
      && (r == Some(AlreadyRunning) <==> job in executors)
      && (r == Some(NotFound) <==> job !in executors && (env.row.None? || !env.row.value.migration))
      && (r == Some(WrongState) ==> env.row.Some? && env.row.value.state != Paused && env.row.value.state != WaitingServer)
      && (r == Some(MissingTarget) ==>
            env.row.Some? && (env.row.value.account == None || env.row.value.target == None || !env.group))
      && (r == Some(AccountDisabled) ==> !env.enabled)
      && (r == Some(BadInterval) ==> !(3.0 <= interval <= 10.0))
  {
  }

  /** `_new_executor` and `_submit_network`; a refused submit runs the finishing callback at once. */
  function Begin(h: Hub, job: int, submits: bool): Hub {
    if submits then h.(executors := h.executors + {job}, live := h.live + multiset{job})
    else h.(executors := h.executors - {job})
  }

  function Next(h: Hub, c: Command): Hub {
    match c
    case Start(job, account, interval, env) =>
      if StartRefusal(h.executors, job, account, interval, env).Some? then h else Begin(h, job, env.submits)
    case Resume(job, interval, env) =>
      if ResumeRefusal(h.executors, job, interval, env).Some? then h else Begin(h, job, env.submits)
    case Ends(job) =>
      if job in h.live then h.(live := h.live - multiset{job}, due := h.due + multiset{job}) else h
    case Finished(job) =>
      if job in h.due then h.(due := h.due - multiset{job}, executors := h.executors - {job}) else h
  }

  function Run(h: Hub, cs: seq<Command>): Hub {
    if cs == [] then h else Next(Run(h, cs[..|cs| - 1]), cs[|cs| - 1])
  }

  const NO_RUNS: Hub := Hub({}, multiset{}, multiset{})

  /** Each entry of the dictionary stands for one coroutine that runs or whose callback is due. */
  ghost predicate Inv(h: Hub) {
    forall j: int :: h.live[j] + h.due[j] == if j in h.executors then 1 else 0
  }

  lemma NextKeeps(h: Hub, c: Command)
    requires Inv(h)
    ensures Inv(Next(h, c))
  {
  }

  lemma {:induction false} RunKeeps(cs: seq<Command>)
    ensures Inv(Run(NO_RUNS, cs))
  {
    if cs != [] {
      RunKeeps(cs[..|cs| - 1]);
      NextKeeps(Run(NO_RUNS, cs[..|cs| - 1]), cs[|cs| - 1]);
    }
  }

  /**
   After any sequence of commands every job has at most one live executor, and a job whose run is live
   cannot be started or resumed again.
   */
  lemma OneExecutorPerJob(cs: seq<Command>, c: Command)
    ensures var h := Run(NO_RUNS, cs);
      && (forall j: int :: h.live[j] <= 1)
      && (forall j: int :: h.live[j] == 1 ==> j in h.executors)
      && ((c.Start? || c.Resume?) && h.live[c.job] == 1 ==> Next(h, c) == h)
  {
    RunKeeps(cs);
    var h := Run(NO_RUNS, cs);
    assert forall j: int :: h.live[j] + h.due[j] <= 1;
  }

  class CommandHandlers {
    var executors: set<int>
    ghost var live: multiset<int>
    ghost var due: multiset<int>

    ghost function View(): Hub
      reads this
    {
      Hub(executors, live, due)
    }

    constructor ()
      ensures View() == NO_RUNS && Inv(View())
    {
      executors, live, due := {}, multiset{}, multiset{};
    }

    method Submit(job: int, submits: bool) returns (r: Outcome)
      requires Inv(View()) && job !in executors
      modifies this
      ensures View() == Begin(old(View()), job, submits) && Inv(View())
      ensures r == if submits then Launched else SubmitFailed
    {
      executors := executors + {job};
      if submits {
        live := live + multiset{job};
        return Launched;
      }
      executors := executors - {job};
      return SubmitFailed;
    }

    method StartMigration(job: int, account: int, interval: real, env: Env) returns (r: Outcome)
      requires Inv(View())
      modifies this
      ensures View() == Next(old(View()), Start(job, account, interval, env)) && Inv(View())
      ensures r.Launched? <==>
        && Runnable(old(executors), job, interval, env) && env.submits
        && env.row.value.state == Ready && env.row.value.account.value == account
      ensures r.Launched? <==> live[job] == old(live[job]) + 1
      ensures r.Launched? ==> old(live[job]) == 0 && live[job] == 1
    {
      NextKeeps(View(), Start(job, account, interval, env));
      var refusal := StartRefusal(executors, job, account, interval, env);
      if refusal.Some? {
        return refusal.value;
      }
      r := Submit(job, env.submits);
    }

    method ResumeMigration(job: int, interval: real, env: Env) returns (r: Outcome)
      requires Inv(View())
      modifies this
      ensures View() == Next(old(View()), Resume(job, interval, env)) && Inv(View())
      ensures r.Launched? <==>
        && Runnable(old(executors), job, interval, env) && env.submits
        && (env.row.value.state == Paused || env.row.value.state == WaitingServer)
      ensures r.Launched? <==> live[job] == old(live[job]) + 1
      ensures r.Launched? ==> old(live[job]) == 0 && live[job] == 1
    {
      NextKeeps(View(), Resume(job, interval, env));
      var refusal := ResumeRefusal(executors, job, interval, env);
      if refusal.Some? {
        return refusal.value;
      }
      r := Submit(job, env.submits);
    }

    /** The `on_finished` callback of a run whose coroutine has ended. */
    method RunFinished(job: int)
      requires Inv(View()) && job in due
      modifies this
      ensures View() == Next(old(View()), Finished(job)) && Inv(View()) && job !in executors
    {
      NextKeeps(View(), Finished(job));
      due := due - multiset{job};
      executors := executors - {job};
    }
  }
}
