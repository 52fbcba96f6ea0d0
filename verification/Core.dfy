/**
 The control plane's job table and its handling of execution reports (src/api/grpc.rs). Execution records,
 the result backend and the task list are the stores it calls; a failed call changes nothing.
 */
module Core {
  import opened Common

  datatype JobState = Accepted | JobRunning | JobSucceeded | JobFailed

  /** The states a report can name; `ExecOther` stands for the ones Core does not support. */
  datatype ExecutionState = ExecAssigned | ExecRunning | ExecSucceeded | ExecFailed | ExecOther {
    predicate Terminal() {
      ExecSucceeded? || ExecFailed?
    }
  }

  datatype Outcome = Outcome(payload: string, failure: Option<string>, executionId: string)

  datatype Job = Job(state: JobState, attempt: nat, result: Option<Outcome>)

  datatype Execution = Execution(jobId: string, assignmentId: string, workerId: string, state: ExecutionState)

  /** What the result backend holds for a job: the placeholder of `accept`, or a reported outcome. */
  datatype Stored = Placeholder | Final(outcome: Outcome)

  datatype CoreState = CoreState(
    jobs: map<string, Job>,
    executions: map<string, Execution>,
    results: map<string, Stored>)

  datatype CoreError =
    | UnknownState
    | UnsupportedState
    | OutcomeRequired
    | FailureRequired
    | ExecutionNotFound
    | JobNotFound
    | ExecutionStoreUnavailable
    | ResultBackendUnavailable
    | BrokerUnavailable

  const NEW_JOB := Job(Accepted, 0, None)

  // ---------------------------------------------------------------------------------------------
  // Updates of one job
  // ---------------------------------------------------------------------------------------------

  function Started(job: Job): Job {
    job.(state := JobRunning, attempt := 1)
  }

  function Settled(job: Job, outcome: Outcome): Job {
    Job(if outcome.failure.Some? then JobFailed else JobSucceeded,
        if job.attempt < 1 then 1 else job.attempt,
        Some(outcome))
  }

  /** The job record that goes with an execution state. */
  predicate Matches(x: ExecutionState, job: Job) {
    match x
    case ExecAssigned => job == NEW_JOB
    case ExecRunning => job == Job(JobRunning, 1, None)
    case ExecSucceeded =>
      job.state == JobSucceeded && job.attempt == 1 && job.result.Some? && job.result.value.failure.None?
    case ExecFailed =>
      job.state == JobFailed && job.attempt == 1 && job.result.Some? && job.result.value.failure.Some?
    case ExecOther => false
  }

  /** The order in which an execution may move; `ExecRunning` may be skipped. */
  predicate Before(x: ExecutionState, y: ExecutionState) {
    match x
    case ExecAssigned => y.ExecRunning? || y.Terminal()
    case ExecRunning => y.Terminal()
    case _ => false
  }

  // ---------------------------------------------------------------------------------------------
  // One report
  // ---------------------------------------------------------------------------------------------

  /** `state` is `None` when the reported number is not an execution state. */
  datatype Request = Request(executionId: string, state: Option<ExecutionState>, outcome: Option<Outcome>)

  /** Which of the store calls made for a report fail. */
  datatype Faults = Faults(get: bool, result: bool, update: bool)

  function Record(core: CoreState, e: string, x: ExecutionState): CoreState
    requires e in core.executions
  {
    core.(executions := core.executions[e := core.executions[e].(state := x)])
  }

  function ReportRunning(core: CoreState, e: string, faults: Faults): (CoreState, Result<(), CoreError>)
    requires e in core.executions
  {
    var j := core.executions[e].jobId;
    if faults.update then (core, Err(ExecutionStoreUnavailable))
    else if j !in core.jobs then (Record(core, e, ExecRunning), Err(JobNotFound))
    else (Record(core, e, ExecRunning).(jobs := core.jobs[j := Started(core.jobs[j])]), Ok(()))
  }

  function ReportTerminal(core: CoreState, e: string, x: ExecutionState, outcome: Outcome, faults: Faults)
    : (CoreState, Result<(), CoreError>)
    requires e in core.executions
  {
    var j := core.executions[e].jobId;
    if x == ExecFailed && outcome.failure.None? then (core, Err(FailureRequired))
    else if faults.result then (core, Err(ResultBackendUnavailable))
    else
      var final := outcome.(executionId := e);
      var stored := core.(results := core.results[j := Final(final)]);
      if faults.update then (stored, Err(ExecutionStoreUnavailable))
      else if j !in core.jobs then (Record(stored, e, x), Err(JobNotFound))
      else (Record(stored, e, x).(jobs := core.jobs[j := Settled(core.jobs[j], final)]), Ok(()))
  }

  function Report(core: CoreState, request: Request, faults: Faults): (CoreState, Result<(), CoreError>) {
    if request.state.None? then (core, Err(UnknownState))
    else if faults.get then (core, Err(ExecutionStoreUnavailable))
    else if request.executionId !in core.executions then (core, Err(ExecutionNotFound))
    else match request.state.value
      case ExecRunning => ReportRunning(core, request.executionId, faults)
      case ExecSucceeded =>
        if request.outcome.None? then (core, Err(OutcomeRequired))
        else ReportTerminal(core, request.executionId, ExecSucceeded, request.outcome.value, faults)
      case ExecFailed =>
        if request.outcome.None? then (core, Err(OutcomeRequired))
        else ReportTerminal(core, request.executionId, ExecFailed, request.outcome.value, faults)
      case _ => (core, Err(UnsupportedState))
  }

  /**
   A report takes effect on the execution and its job together or on neither, whichever store call fails,
   as long as the job is in the table; it never touches another execution or job.
   */
  lemma ReportIsAllOrNothing(core: CoreState, request: Request, faults: Faults)
    ensures var (core', r) := Report(core, request, faults);
      var e := request.executionId;
      && (r.Ok? || r == Err(JobNotFound) ==>
            && e in core.executions && request.state.Some?
            && core'.executions == core.executions[e := core.executions[e].(state := request.state.value)])
      && (r.Ok? ==>
            var j := core.executions[e].jobId;
            && j in core.jobs && core'.jobs == core.jobs[j := core'.jobs[j]]
            && var job, job' := core.jobs[j], core'.jobs[j];
            if request.state.value == ExecRunning then
              job'.state == JobRunning && job'.attempt == 1 && job'.result == job.result
            else
              && request.outcome.Some?
              && job'.state == (if request.outcome.value.failure.Some? then JobFailed else JobSucceeded)
              && job'.attempt >= 1 && (job.attempt >= 1 ==> job'.attempt == job.attempt)
              && (job.attempt == 0 ==> job'.attempt == 1)
              && job'.result == Some(request.outcome.value.(executionId := e)))
      && (r == Err(JobNotFound) ==> core.executions[e].jobId !in core.jobs && core'.jobs == core.jobs)
      && (r.Err? && r != Err(JobNotFound) ==> core'.executions == core.executions && core'.jobs == core.jobs)
  {
  }

  /** The execution is found, and the report is of a kind and shape that Core supports. */
  predicate Processable(core: CoreState, request: Request, faults: Faults) {
    && request.state.Some? && !faults.get && request.executionId in core.executions
    && (request.state.value == ExecRunning || request.state.value.Terminal())
    && (request.state.value.Terminal() ==> request.outcome.Some?)
    && (request.state.value == ExecFailed ==> request.outcome.value.failure.Some?)
  }

  /** The backend is written exactly for a supported terminal report whose write does not fail. */
  lemma ReportStoresExactlyWhen(core: CoreState, request: Request, faults: Faults)
    ensures var core' := Report(core, request, faults).0;
      if Processable(core, request, faults) && request.state.value.Terminal() && !faults.result then
        core'.results == core.results[core.executions[request.executionId].jobId :=
                                        Final(request.outcome.value.(executionId := request.executionId))]
      else core'.results == core.results
  {
  }

  /** Which answer a report gets: the exact condition for each. */
  lemma ReportAnswersExactlyWhen(core: CoreState, request: Request, faults: Faults)
    ensures var r := Report(core, request, faults).1;
      var found := request.state.Some? && !faults.get && request.executionId in core.executions;
      var ready := Processable(core, request, faults);
      var stored := ready && !(request.state.value.Terminal() && faults.result);
      && (r == Err(UnknownState) <==> request.state.None?)
      && (r == Err(ExecutionNotFound) <==>
            request.state.Some? && !faults.get && request.executionId !in core.executions)
      && (r == Err(UnsupportedState) <==>
            found && (request.state.value == ExecAssigned || request.state.value == ExecOther))
      && (r == Err(OutcomeRequired) <==> found && request.state.value.Terminal() && request.outcome.None?)
      && (r == Err(FailureRequired) <==>
            found && request.state.value == ExecFailed && request.outcome.Some? && request.outcome.value.failure.None?)
      && (r == Err(ResultBackendUnavailable) <==> ready && request.state.value.Terminal() && faults.result)
      && (r == Err(ExecutionStoreUnavailable) <==> (request.state.Some? && faults.get) || (stored && faults.update))
      && (r == Err(JobNotFound) <==>
            stored && !faults.update && core.executions[request.executionId].jobId !in core.jobs)
      && (r.Ok? <==> stored && !faults.update && core.executions[request.executionId].jobId in core.jobs)
  {
  }

  /**
   When an accepted report leaves execution and job agreeing: a job reported Running has no result yet, a
   success does not carry a failure, and a finished job was not on a later attempt. Core checks none of these.
   If the two agreed before, it comes down to a finished execution not being reported Running, and the failure.
   */
  lemma ReportAgreesExactlyWhen(core: CoreState, request: Request, faults: Faults)
    requires Report(core, request, faults).1.Ok?
    ensures var core' := Report(core, request, faults).0;
      var x := core.executions[request.executionId];
      var job, state := core.jobs[x.jobId], request.state.value;
      var agree := Matches(core'.executions[request.executionId].state, core'.jobs[x.jobId]);
      && (agree <==>
            && (state == ExecRunning ==> job.result.None?)
            && (state == ExecSucceeded ==> request.outcome.value.failure.None?)
            && (state.Terminal() ==> job.attempt <= 1))
      && (Matches(x.state, job) ==>
            (agree <==>
               && (state == ExecRunning ==> !x.state.Terminal())
               && (state == ExecSucceeded ==> request.outcome.value.failure.None?)))
  {
  }

  /**
   When an accepted report does not move the execution back or sideways: the execution was Assigned or
   Running, or is reported in the state it is in. Core itself does not look at the state it had.
   */
  lemma ReportMovesForwardExactlyWhen(core: CoreState, request: Request, faults: Faults)
    requires Report(core, request, faults).1.Ok?
    ensures
      var x := core.executions[request.executionId].state;
      var x' := Report(core, request, faults).0.executions[request.executionId].state;
      x' == x || Before(x, x') <==> x == ExecAssigned || x == ExecRunning || request.state.value == x
  {
    assert Report(core, request, faults).0.executions[request.executionId].state == request.state.value;
  }

  /** Core on its own with one new job `j` and its execution `e`. */
  function OneExecution(j: string, e: string): CoreState {
    CoreState(map[j := NEW_JOB], map[e := Execution(j, "a", "w", ExecAssigned)], map[])
  }

  /** A late Running report takes a finished execution back to Running, and its job with a result too. */
  lemma LateRunningReportMovesBackward(e: string, j: string, outcome: Outcome)
    requires outcome.failure.None?
    ensures
      var ok := Faults(false, false, false);
      var (core1, r1) := Report(OneExecution(j, e), Request(e, Some(ExecSucceeded), Some(outcome)), ok);
      var (core2, r2) := Report(core1, Request(e, Some(ExecRunning), None), ok);
      && r1.Ok? && r2.Ok?
      && core1.executions[e].state == ExecSucceeded && core2.executions[e].state == ExecRunning
      && core2.jobs[j].state == JobRunning && core2.jobs[j].result.Some?
  {
  }

  /** A second terminal report turns a success into a failure, execution and job agreeing before and after. */
  lemma SecondOutcomeReplacesTheFirst(e: string, j: string, outcome: Outcome, failure: Outcome)
    requires outcome.failure.None? && failure.failure.Some?
    ensures
      var ok := Faults(false, false, false);
      var (core1, r1) := Report(OneExecution(j, e), Request(e, Some(ExecSucceeded), Some(outcome)), ok);
      var (core2, r2) := Report(core1, Request(e, Some(ExecFailed), Some(failure)), ok);
      && r1.Ok? && r2.Ok?
      && core1.executions[e].state == ExecSucceeded && Matches(ExecSucceeded, core1.jobs[j])
      && core2.executions[e].state == ExecFailed && Matches(ExecFailed, core2.jobs[j])
  {
  }

  // ---------------------------------------------------------------------------------------------
  // One accepted task
  // ---------------------------------------------------------------------------------------------

  /** `accept` of job `j`: Core's tables and the task list afterwards, and the answer. */
  function AcceptTask(core: CoreState, tasks: seq<string>, j: string, brokerUp: bool, backendUp: bool)
    : (CoreState, seq<string>, Result<Job, CoreError>)
  {
    if !brokerUp then (core, tasks, Err(BrokerUnavailable))
    else
      var published := core.(jobs := core.jobs[j := NEW_JOB]);
      if !backendUp then (published, tasks + [j], Err(ResultBackendUnavailable))
      else (published.(results := core.results[j := Placeholder]), tasks + [j], Ok(NEW_JOB))
  }

  // ---------------------------------------------------------------------------------------------
  // The service in place
  // ---------------------------------------------------------------------------------------------

  class CoreExecutionService {
    var jobs: map<string, Job>
    var executions: map<string, Execution>
    var results: map<string, Stored>
    var tasks: seq<string>   // the correlation ids on the task list

    ghost function State(): CoreState
      reads this
    {
      CoreState(jobs, executions, results)
    }

    constructor ()
      ensures State() == CoreState(map[], map[], map[]) && tasks == []
    {
      jobs, executions, results, tasks := map[], map[], map[], [];
    }

    /** `jobId` is a fresh UUID; the flags say whether the broker and the result backend answer. */
    method Accept(jobId: string, brokerUp: bool, backendUp: bool) returns (r: Result<Job, CoreError>)
      requires jobId !in jobs
      modifies this
      ensures (State(), tasks, r) == AcceptTask(old(State()), old(tasks), jobId, brokerUp, backendUp)
      ensures executions == old(executions)
      ensures r.Ok? <==> brokerUp && backendUp
      ensures r.Ok? ==>
        && r.value.state == Accepted && r.value.attempt == 0 && r.value.result == None
        && jobs == old(jobs)[jobId := r.value] && tasks == old(tasks) + [jobId]
        && results == old(results)[jobId := Placeholder]
      ensures r == Err(BrokerUnavailable) <==> !brokerUp
      ensures r == Err(BrokerUnavailable) <==> State() == old(State()) && tasks == old(tasks)
      ensures r == Err(ResultBackendUnavailable) <==> brokerUp && !backendUp
      ensures r == Err(ResultBackendUnavailable) ==>
        && jobs.Keys == old(jobs).Keys + {jobId} && jobs[jobId].state == Accepted && jobs[jobId].attempt == 0
        && tasks == old(tasks) + [jobId] && results == old(results)
    {
      jobs := jobs[jobId := NEW_JOB];
      if !brokerUp {
        jobs := jobs - {jobId};
        assert jobs == old(jobs);
        return Err(BrokerUnavailable);
      }
      tasks := tasks + [jobId];
      if !backendUp {
        return Err(ResultBackendUnavailable);
      }
      results := results[jobId := Placeholder];
      r := Ok(NEW_JOB);
    }

    method MarkJobRunning(j: string) returns (r: Result<(), CoreError>)
      modifies this`jobs
      ensures r == if j in old(jobs) then Ok(()) else Err(JobNotFound)
      ensures jobs == if j in old(jobs) then old(jobs)[j := Started(old(jobs)[j])] else old(jobs)
    {
      if j !in jobs {
        return Err(JobNotFound);
      }
      jobs := jobs[j := jobs[j].(state := JobRunning, attempt := 1)];
      r := Ok(());
    }

    method StoreJobResult(j: string, outcome: Outcome) returns (r: Result<(), CoreError>)
      modifies this`jobs
      ensures r == if j in old(jobs) then Ok(()) else Err(JobNotFound)
      ensures jobs == if j in old(jobs) then old(jobs)[j := Settled(old(jobs)[j], outcome)] else old(jobs)
    {
      if j !in jobs {
        return Err(JobNotFound);
      }
      var job := jobs[j];
      var state := if outcome.failure.Some? then JobFailed else JobSucceeded;
      var attempt := if job.attempt < 1 then 1 else job.attempt;
      jobs := jobs[j := Job(state, attempt, Some(outcome))];
      r := Ok(());
    }

    method ReportExecution(request: Request, faults: Faults) returns (r: Result<(), CoreError>)
      modifies this`jobs, this`executions, this`results
      ensures (State(), r) == Report(old(State()), request, faults)
    {
      if request.state.None? {
        return Err(UnknownState);
      }
      if faults.get {
        return Err(ExecutionStoreUnavailable);
      }
      var e := request.executionId;
      if e !in executions {
        return Err(ExecutionNotFound);
      }
      var state := request.state.value;
      var j := executions[e].jobId;
      match state
      case ExecRunning =>
        if faults.update {
          return Err(ExecutionStoreUnavailable);
        }
        executions := executions[e := executions[e].(state := state)];
        r := MarkJobRunning(j);
      case ExecSucceeded | ExecFailed =>
        if request.outcome.None? {
          return Err(OutcomeRequired);
        }
        var outcome := request.outcome.value;
        if state == ExecFailed && outcome.failure.None? {
          return Err(FailureRequired);
        }
        outcome := outcome.(executionId := e);
        if faults.result {
          return Err(ResultBackendUnavailable);
        }
        results := results[j := Final(outcome)];
        if faults.update {
          return Err(ExecutionStoreUnavailable);
        }
        executions := executions[e := executions[e].(state := state)];
        r := StoreJobResult(j, outcome);
      case _ =>
        r := Err(UnsupportedState);
    }
  }
}
