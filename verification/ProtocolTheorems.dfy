/** What every interleaved run of the job protocol guarantees. */
module ProtocolTheorems {
  import opened Common
  import opened Assignments
  import opened Protocol
  import opened ProtocolPlaces
  import opened ProtocolLinks
  import opened ProtocolViews
  import C = Core

  lemma StartIsGood()
    ensures AllInv(START)
  {
    forall j, p ensures !In(START, j, p) {
      assert p.Inbox? || p.WorkerHand? || p.Table? ==> At(START, p.worker) == NEW_NODE;
    }
    forall v ensures NodeInv(At(START, v)) && DistinctJobs(At(START, v).inbox) {
      assert At(START, v) == NEW_NODE;
    }
    forall v, a ensures !Has(At(START, v), a) {
      assert At(START, v) == NEW_NODE;
    }
  }

  lemma StepKeepsAll(w: World, act: Action)
    requires AllInv(w) && Enabled(w, act)
    ensures AllInv(Apply(w, act))
  {
    StepKeepsPlaces(w, act);
    StepKeepsLinks(w, act);
    StepKeepsNodes(w, act);
    StepKeepsViews(w, act);
  }

  lemma {:induction false} RunsKeepAll(acts: seq<Action>)
    requires Legal(acts)
    ensures AllInv(Exec(acts))
    decreases |acts|
  {
    if acts == [] {
      StartIsGood();
    } else {
      var n := |acts| - 1;
      RunsKeepAll(acts[..n]);
      StepKeepsAll(Exec(acts[..n]), acts[n]);
    }
  }

  // ---------------------------------------------------------------------------------------------
  // Conservation
  // ---------------------------------------------------------------------------------------------

  /** Every published job is in exactly one place. */
  lemma Conservation(acts: seq<Action>, j: string) returns (p: Place)
    requires Legal(acts) && j in Exec(acts).published
    ensures In(Exec(acts), j, p)
    ensures forall q :: In(Exec(acts), j, q) ==> q == p
  {
    RunsKeepAll(acts);
    p :| In(Exec(acts), j, p);
  }

  /** A job has at most one execution and at most one assignment, at one worker. */
  lemma NoDuplication(acts: seq<Action>)
    requires Legal(acts)
    ensures var w := Exec(acts);
      && (forall e, f | e in w.core.executions && f in w.core.executions ::
            w.core.executions[e].jobId == w.core.executions[f].jobId ==> e == f)
      && (forall v, a, u, b | Has(At(w, v), a) && Has(At(w, u), b) ::
            a.jobId == b.jobId ==>
              v == u && a.assignmentId == b.assignmentId && a.executionId == b.executionId)
  {
    RunsKeepAll(acts);
    var w := Exec(acts);
    forall v, a, u, b | Has(At(w, v), a) && Has(At(w, u), b) && a.jobId == b.jobId
      ensures v == u && a.assignmentId == b.assignmentId && a.executionId == b.executionId
    {
      OneAssignmentPerJob(w, v, a, u, b);
    }
  }

  /** The hand of a loop that has stopped. */
  predicate StoppedHand(w: World, p: Place) {
    (p.SchedulerHand? && w.schedulerStopped) || (p.WorkerHand? && At(w, p.worker).stopped)
  }

  /** A stopped loop never lets go of the job in its hand and never takes another. */
  lemma StoppedHandIsFrozen(w: World, act: Action, p: Place, j: string, k: string)
    requires Enabled(w, act) && StoppedHand(w, p) && In(w, j, p)
    ensures In(w, k, p) ==> k == j
    ensures StoppedHand(Apply(w, act), p)
    ensures In(Apply(w, act), k, p) <==> k == j
  {
    var w' := Apply(w, act);
    if !IsMove(w, act) {
      OtherStepsMoveNothing(w, act);
      UnmovedPlaces(w, w', k, p);
    }
    if p.WorkerHand? {
      assert At(w', p.worker).hand == At(w, p.worker).hand;
    }
  }

  /** A published job is stranded when its place is the hand of a stopped loop. */
  ghost predicate Stranded(w: World, j: string) {
    j in w.published && exists p :: StoppedHand(w, p) && In(w, j, p)
  }

  ghost function StrandedJobs(w: World): set<string> {
    set j | j in w.published && Stranded(w, j)
  }

  function StoppedWorkers(w: World): set<string> {
    set v | v in w.nodes && w.nodes[v].stopped
  }

  /** The jobs in the hands of these workers. */
  function HandJobs(w: World, workers: set<string>): set<string> {
    set v | v in workers && At(w, v).hand.Some? :: At(w, v).hand.value.jobId
  }

  lemma {:induction false} OneJobPerHand(w: World, workers: set<string>)
    ensures |HandJobs(w, workers)| <= |workers|
  {
    if v :| v in workers {
      OneJobPerHand(w, workers - {v});
      var rest := HandJobs(w, workers - {v});
      var job := if At(w, v).hand.Some? then {At(w, v).hand.value.jobId} else {};
      assert HandJobs(w, workers) <= rest + job;
      SubsetSize(HandJobs(w, workers), rest + job);
    }
  }

  function SchedulerJobs(s: Scheduling): (r: set<string>)
    ensures |r| <= 1
  {
    match s
    case Idle => {}
    case Holding(_, j) => {j}
    case Created(_, a) => {a.jobId}
  }

  /** In every run the stranded jobs number at most one for a stopped scheduler and one per stopped worker. */
  lemma LossIsBounded(acts: seq<Action>)
    requires Legal(acts)
    ensures var w := Exec(acts);
      |StrandedJobs(w)| <= (if w.schedulerStopped then 1 else 0) + |StoppedWorkers(w)|
  {
    var w := Exec(acts);
    var hand := if w.schedulerStopped then SchedulerJobs(w.scheduling) else {};
    var hands := HandJobs(w, StoppedWorkers(w));
    OneJobPerHand(w, StoppedWorkers(w));
    forall j | j in StrandedJobs(w) ensures j in hand + hands {
      var p :| StoppedHand(w, p) && In(w, j, p);
      if p.WorkerHand? {
        assert p.worker in StoppedWorkers(w);
      }
    }
    SubsetSize(StrandedJobs(w), hand + hands);
  }

  /** A job that is stranded at some moment of a run stays where it is. */
  lemma {:induction false} LossIsPermanent(acts: seq<Action>, n: nat, j: string, p: Place)
    requires Legal(acts) && n <= |acts| && Legal(acts[..n])
    requires StoppedHand(Exec(acts[..n]), p) && In(Exec(acts[..n]), j, p)
    ensures StoppedHand(Exec(acts), p) && In(Exec(acts), j, p)
    decreases |acts|
  {
    if n == |acts| {
      assert acts[..n] == acts;
    } else {
      var shorter := acts[..|acts| - 1];
      assert shorter[..n] == acts[..n];
      LossIsPermanent(shorter, n, j, p);
      StoppedHandIsFrozen(Exec(shorter), acts[|acts| - 1], p, j, j);
    }
  }

  /** Enqueueing a consumed assignment is never refused, so a worker's loop does not stop on that account. */
  lemma WorkersNeverRefuse(acts: seq<Action>, v: string)
    requires Legal(acts) && At(Exec(acts), v).hand.Some?
    ensures Enqueue(At(Exec(acts), v).broker, At(Exec(acts), v).hand.value).Ok?
  {
    RunsKeepAll(acts);
    EnqueueNeverFails(Exec(acts), v);
  }

  // ---------------------------------------------------------------------------------------------
  // Referential integrity
  // ---------------------------------------------------------------------------------------------

  /** What envelopes, executions, assignments and reports name is always there. */
  lemma ReferentialIntegrity(acts: seq<Action>)
    requires Legal(acts)
    ensures var w := Exec(acts);
      && (forall j, p :: In(w, j, p) ==> j in w.core.jobs)
      && (forall e :: e in w.core.executions ==> w.core.executions[e].jobId in w.core.jobs)
      && (forall v, a :: Has(At(w, v), a) ==> Linked(w.core, v, a) && a.jobId in w.core.jobs)
      && (forall v, id :: InFlight(w, v, id) ==> Resolves(w, At(w, v).reports[id].executionId))
  {
    RunsKeepAll(acts);
    var w := Exec(acts);
    forall e | e in w.core.executions ensures w.core.executions[e].jobId in w.core.jobs {
      assert ExecutionInv(w, e);
    }
    forall v, id | InFlight(w, v, id) ensures Resolves(w, At(w, v).reports[id].executionId) {
      var e := ReportResolves(w, v, id);
    }
  }

  // ---------------------------------------------------------------------------------------------
  // Views
  // ---------------------------------------------------------------------------------------------

  /**
   While no report of an execution is being processed its state matches its job's, attempt 0 goes exactly
   with an accepted job, and a result exactly with a finished one, whichever store calls failed before.
   */
  lemma ViewAgreement(acts: seq<Action>, e: string)
    requires Legal(acts) && e in Exec(acts).core.executions
    ensures Resolves(Exec(acts), e)
    ensures var w := Exec(acts);
      var x := w.core.executions[e];
      var job := w.core.jobs[x.jobId];
      x.assignmentId !in At(w, x.workerId).reports ==>
        && C.Matches(x.state, job)
        && (job.attempt == 0 <==> job.state == C.Accepted)
        && (job.result.Some? <==> job.state == C.JobSucceeded || job.state == C.JobFailed)
        && (job.result.Some? <==> x.state.Terminal())
  {
    RunsKeepAll(acts);
    var w := Exec(acts);
    assert ExecutionInv(w, e);
    assert Good(ViewOf(w, e));
  }

  lemma AgreementIsNotAhead(v: View)
    requires Agrees(v) && (v.report.Some? ==> v.report.value.state.ExecRunning? || v.report.value.state.Terminal())
    ensures NotAhead(v.execution, v.stage)
  {
  }

  /** Core's execution state is never ahead of the worker's assignment state. */
  lemma CoreIsNeverAhead(acts: seq<Action>, e: string)
    requires Legal(acts) && Resolves(Exec(acts), e)
    ensures NotAhead(ViewOf(Exec(acts), e).execution, ViewOf(Exec(acts), e).stage)
  {
    RunsKeepAll(acts);
    assert Good(ViewOf(Exec(acts), e));
    var x := Exec(acts).core.executions[e];
    if InFlight(Exec(acts), x.workerId, x.assignmentId) {
      var owner := ReportResolves(Exec(acts), x.workerId, x.assignmentId);
    }
    AgreementIsNotAhead(ViewOf(Exec(acts), e));
  }

  /** Only Core's update of an execution changes the state of an existing one. */
  lemma StatesChangeOnlyByRecord(w: World, act: Action, e: string)
    requires LinksInv(w) && Enabled(w, act) && e in w.core.executions && !act.RecordState?
    ensures e in Apply(w, act).core.executions && Apply(w, act).core.executions[e] == w.core.executions[e]
  {
    if act.CreateExecution? {
      assert ExecutionInv(w, e);
    }
  }

  lemma RecordMovesForward(w: World, v: string, id: string, e: string)
    requires LinksInv(w) && NodesInv(w) && AllGood(w) && Enabled(w, RecordState(v, id)) && e in w.core.executions
    ensures var w' := Apply(w, RecordState(v, id));
      e in w'.core.executions &&
      var x, x' := w.core.executions[e].state, w'.core.executions[e].state;
      x' == x || C.Before(x, x')
  {
    var owner := ReportResolves(w, v, id);
    assert Good(ViewOf(w, owner));
  }

  lemma StepMovesStateForward(w: World, act: Action, e: string)
    requires AllInv(w) && Enabled(w, act) && e in w.core.executions
    ensures var w' := Apply(w, act);
      e in w'.core.executions &&
      var x, x' := w.core.executions[e].state, w'.core.executions[e].state;
      x' == x || C.Before(x, x')
  {
    if act.RecordState? {
      RecordMovesForward(w, act.worker, act.id, e);
    } else {
      StatesChangeOnlyByRecord(w, act, e);
    }
  }

  lemma ForwardTwice(x: C.ExecutionState, y: C.ExecutionState, z: C.ExecutionState)
    requires (y == x || C.Before(x, y)) && (z == y || C.Before(y, z))
    ensures (z == x || C.Before(x, z)) && (x.Terminal() ==> z == x)
  {
  }

  lemma LastStepMovesForward(acts: seq<Action>, e: string)
    requires Legal(acts) && acts != [] && e in Exec(acts[..|acts| - 1]).core.executions
    ensures e in Exec(acts).core.executions
    ensures var x, x' := Exec(acts[..|acts| - 1]).core.executions[e].state, Exec(acts).core.executions[e].state;
      x' == x || C.Before(x, x')
  {
    RunsKeepAll(acts[..|acts| - 1]);
    StepMovesStateForward(Exec(acts[..|acts| - 1]), acts[|acts| - 1], e);
  }

  /** Between any two moments of a run an execution stays or moves forward; a finished one stays as it is. */
  lemma {:induction false} NoBackwardMoves(acts: seq<Action>, n: nat, e: string)
    requires Legal(acts) && n <= |acts| && Legal(acts[..n]) && e in Exec(acts[..n]).core.executions
    ensures e in Exec(acts).core.executions
    ensures var x, x' := Exec(acts[..n]).core.executions[e].state, Exec(acts).core.executions[e].state;
      && (x' == x || C.Before(x, x'))
      && (x.Terminal() ==> x' == x)
    decreases |acts|
  {
    if n == |acts| {
      assert acts[..n] == acts;
    } else {
      var shorter := acts[..|acts| - 1];
      assert shorter[..n] == acts[..n];
      NoBackwardMoves(shorter, n, e);
      LastStepMovesForward(acts, e);
      ForwardTwice(Exec(acts[..n]).core.executions[e].state, Exec(shorter).core.executions[e].state,
                   Exec(acts).core.executions[e].state);
    }
  }

  // ---------------------------------------------------------------------------------------------
  // Core's report steps are one `report_execution`
  // ---------------------------------------------------------------------------------------------

  /** The steps of a Running report add up to Core's handler, with and without a failing store call. */
  lemma RunningStepsAreOneReport(w: World, v: string, id: string)
    requires InFlight(w, v, id) && ReportInv(At(w, v), id) && Resolves(w, At(w, v).reports[id].executionId)
    requires At(w, v).reports[id].state == C.ExecRunning && At(w, v).reports[id].phase.Sent?
    ensures
      var request := C.Request(At(w, v).reports[id].executionId, Some(C.ExecRunning), None);
      && Enabled(w, RecordState(v, id))
      && var w1 := Apply(w, RecordState(v, id));
      && Enabled(w1, SettleJob(v, id))
      && Apply(w1, SettleJob(v, id)).core == C.Report(w.core, request, C.Faults(false, false, false)).0
      && Apply(w, LoseReport(v, id)).core == C.Report(w.core, request, C.Faults(false, false, true)).0
  {
    var w1 := Apply(w, RecordState(v, id));
    assert At(w1, v).reports[id] == At(w, v).reports[id].(phase := Recorded);
  }

  /** After the result is persisted, the remaining two steps record the state and settle the job. */
  lemma RecordAndSettle(w: World, v: string, id: string)
    requires InFlight(w, v, id) && Resolves(w, At(w, v).reports[id].executionId)
    requires var r := At(w, v).reports[id]; r.state.Terminal() && r.phase.Persisted? && r.outcome.Some?
    ensures
      var r := At(w, v).reports[id];
      var j := JobOf(w, r.executionId);
      && Enabled(w, RecordState(v, id))
      && var w1 := Apply(w, RecordState(v, id));
      && Enabled(w1, SettleJob(v, id))
      && Apply(w1, SettleJob(v, id)).core ==
           C.Record(w.core, r.executionId, r.state).(jobs := w.core.jobs[j := C.Settled(w.core.jobs[j], Final(r))])
  {
    var w1 := Apply(w, RecordState(v, id));
    assert At(w1, v).reports[id] == At(w, v).reports[id].(phase := Recorded);
  }

  /** Persisting the result is what remains of a terminal report whose state update fails. */
  lemma PersistIsHalfAReport(w: World, v: string, id: string)
    requires InFlight(w, v, id) && ReportInv(At(w, v), id) && Resolves(w, At(w, v).reports[id].executionId)
    requires At(w, v).reports[id].state.Terminal() && At(w, v).reports[id].phase.Sent?
    ensures
      var r := At(w, v).reports[id];
      var request := C.Request(r.executionId, Some(r.state), r.outcome);
      && w.core == C.Report(w.core, request, C.Faults(false, true, false)).0
      && Persist(w, v, id).core == C.Report(w.core, request, C.Faults(false, false, true)).0
      && At(Persist(w, v, id), v).reports[id] == r.(phase := Persisted)
  {
  }

  /** The three steps of a terminal report add up to Core's handler. */
  lemma TerminalStepsAreOneReport(w: World, v: string, id: string, w1: World, w2: World)
    requires InFlight(w, v, id) && ReportInv(At(w, v), id) && Resolves(w, At(w, v).reports[id].executionId)
    requires At(w, v).reports[id].state.Terminal() && At(w, v).reports[id].phase.Sent?
    requires w1 == Persist(w, v, id)
    requires Enabled(w1, RecordState(v, id)) && w2 == Apply(w1, RecordState(v, id))
    ensures
      var r := At(w, v).reports[id];
      var request := C.Request(r.executionId, Some(r.state), r.outcome);
      && Enabled(w2, SettleJob(v, id))
      && Apply(w2, SettleJob(v, id)).core == C.Report(w.core, request, C.Faults(false, false, false)).0
  {
    PersistIsHalfAReport(w, v, id);
    RecordAndSettle(w1, v, id);
  }
}
