/** Referential integrity: what queued envelopes, executions and assignments name is always there. */
module ProtocolLinks {
  import opened Common
  import opened Assignments
  import opened Protocol
  import opened ProtocolPlaces
  import C = Core
  import Text

  predicate JobsInv(w: World) {
    && w.core.jobs.Keys == w.published + w.accepting
    && w.published + w.accepting <= w.issued
  }

  /** An execution belongs to a published job that has left the task list and the scheduler's first hand. */
  predicate ExecutionInv(w: World, e: string)
    requires e in w.core.executions
  {
    var x := w.core.executions[e];
    && x.jobId in w.published && x.jobId !in w.tasks && !(w.scheduling.Holding? && w.scheduling.job == x.jobId)
    && e in w.issued && x.assignmentId in w.issued
    && !Text.Blank(e) && !Text.Blank(x.assignmentId)
  }

  /** At most one execution per job, and one per assignment id. */
  predicate UniqueExecutions(core: C.CoreState) {
    forall e, f :: e in core.executions && f in core.executions
      && (core.executions[e].jobId == core.executions[f].jobId
          || core.executions[e].assignmentId == core.executions[f].assignmentId)
      ==> e == f
  }

  ghost predicate AllLinked(w: World) {
    && (w.scheduling.Created? ==> Linked(w.core, w.scheduling.worker, w.scheduling.assignment))
    && forall v, a :: Has(At(w, v), a) ==> Linked(w.core, v, a)
  }

  ghost predicate LinksInv(w: World) {
    && JobsInv(w)
    && (forall e :: e in w.core.executions ==> ExecutionInv(w, e))
    && UniqueExecutions(w.core)
    && AllLinked(w)
  }

  // ---------------------------------------------------------------------------------------------
  // Brokers and reports in flight
  // ---------------------------------------------------------------------------------------------

  predicate ReportInv(n: Node, id: string)
    requires id in n.reports
  {
    var r := n.reports[id];
    && id in n.broker.assignments
    && n.broker.assignments[id].assignment.executionId == r.executionId
    && (r.state.ExecRunning? || r.state.Terminal())
    && (r.outcome.Some? <==> r.state.Terminal())
    && (r.state.Terminal() ==> (r.outcome.value.failure.Some? <==> r.state == C.ExecFailed))
    && (r.phase.Persisted? ==> r.state.Terminal())
  }

  predicate NodeInv(n: Node) {
    Inv(n.broker) && forall id :: id in n.reports ==> ReportInv(n, id)
  }

  ghost predicate NodesInv(w: World) {
    forall v :: NodeInv(At(w, v))
  }

  lemma OneNode(w: World, w': World, v: string, n: Node)
    requires NodesInv(w) && w'.nodes == w.nodes[v := n] && NodeInv(n)
    ensures NodesInv(w')
  {
    forall u ensures NodeInv(At(w', u)) {
      assert u != v ==> At(w', u) == At(w, u);
    }
  }

  lemma SameNodes(w: World, w': World)
    requires NodesInv(w) && w'.nodes == w.nodes
    ensures NodesInv(w')
  {
    forall u ensures NodeInv(At(w', u)) {
      assert At(w', u) == At(w, u);
    }
  }

  lemma SilentCallKeepsNode(n: Node, call: Call, b: PendingState)
    requires NodeInv(n) && Silent(call) && Step(n.broker, call, b)
    ensures NodeInv(n.(broker := b))
  {
    StepKeepsInv(n.broker, call, b);
    SilentCallKeepsTable(n.broker, call, b);
    forall id | id in n.reports ensures ReportInv(n.(broker := b), id) {
      assert ReportInv(n, id);
    }
  }

  lemma ForwardKeepsNode(n: Node, id: string, e: string, ev: Event, r: Report)
    requires NodeInv(n) && Handle(n.broker, id, e, ev).Ok?
    requires r.executionId == e && r.phase.Sent?
    requires r.state.ExecRunning? || r.state.Terminal()
    requires r.outcome.Some? <==> r.state.Terminal()
    requires r.state.Terminal() ==> (r.outcome.value.failure.Some? <==> r.state == C.ExecFailed)
    ensures NodeInv(n.(broker := Handle(n.broker, id, e, ev).value, reports := n.reports[id := r]))
  {
    HandleKeepsInv(n.broker, id, e, ev);
    HandleKeepsTable(n.broker, id, e, ev);
    var n' := n.(broker := Handle(n.broker, id, e, ev).value, reports := n.reports[id := r]);
    forall x | x in n'.reports ensures ReportInv(n', x) {
      if x != id {
        assert ReportInv(n, x);
      }
    }
  }

  lemma EnqueueKeepsNode(n: Node, a: Assignment)
    requires NodeInv(n) && Enqueue(n.broker, a).Ok?
    ensures NodeInv(n.(broker := Enqueue(n.broker, a).value, hand := None))
  {
    EnqueueKeepsInv(n.broker, a);
    var n' := n.(broker := Enqueue(n.broker, a).value, hand := None);
    forall id | id in n'.reports ensures ReportInv(n', id) {
      assert ReportInv(n, id);
    }
  }

  lemma PhaseKeepsNode(n: Node, id: string, phase: Phase)
    requires NodeInv(n) && id in n.reports && (phase.Persisted? ==> n.reports[id].state.Terminal())
    ensures NodeInv(n.(reports := n.reports[id := n.reports[id].(phase := phase)]))
  {
    var n' := n.(reports := n.reports[id := n.reports[id].(phase := phase)]);
    forall x | x in n'.reports ensures ReportInv(n', x) {
      assert ReportInv(n, x);
    }
  }

  lemma DropKeepsNode(n: Node, id: string)
    requires NodeInv(n)
    ensures NodeInv(n.(reports := n.reports - {id}))
  {
    var n' := n.(reports := n.reports - {id});
    forall x | x in n'.reports ensures ReportInv(n', x) {
      assert ReportInv(n, x);
    }
  }

  lemma EnqueueKeepsNodes(w: World, v: string)
    requires NodesInv(w) && Enabled(w, EnqueueAssignment(v))
    ensures NodesInv(Apply(w, EnqueueAssignment(v)))
  {
    var w' := Apply(w, EnqueueAssignment(v));
    var n := At(w, v);
    assert NodeInv(n);
    if Enqueue(n.broker, n.hand.value).Ok? {
      EnqueueKeepsNode(n, n.hand.value);
    } else {
      SameBrokerKeepsNode(n, At(w', v));
    }
    OneNode(w, w', v, At(w', v));
  }

  lemma SameBrokerKeepsNode(n: Node, n': Node)
    requires NodeInv(n) && n'.broker == n.broker && n'.reports == n.reports
    ensures NodeInv(n')
  {
    forall id | id in n'.reports ensures ReportInv(n', id) {
      assert ReportInv(n, id);
    }
  }

  /** The steps that move an assignment into the broker. */
  lemma InboxStepKeepsNodes(w: World, act: Action)
    requires NodesInv(w) && Enabled(w, act)
    requires act.ConsumeAssignment? || act.EnqueueAssignment? || act.StopWorker?
    ensures NodesInv(Apply(w, act))
  {
    if act.EnqueueAssignment? {
      EnqueueKeepsNodes(w, act.worker);
    } else {
      var w', v := Apply(w, act), act.worker;
      assert NodeInv(At(w, v));
      SameBrokerKeepsNode(At(w, v), At(w', v));
      OneNode(w, w', v, At(w', v));
    }
  }

  /** The steps of runtime sessions. */
  lemma SessionStepKeepsNodes(w: World, act: Action)
    requires NodesInv(w) && Enabled(w, act)
    requires act.SessionCall? || act.ForwardStart? || act.ForwardFinish?
    ensures NodesInv(Apply(w, act))
  {
    var w' := Apply(w, act);
    var v := act.worker;
    var n := At(w, v);
    assert NodeInv(n);
    match act {
      case SessionCall(_, call, b) => SilentCallKeepsNode(n, call, b);
      case ForwardStart(_, id, e, k, now) =>
        ForwardKeepsNode(n, id, e, Started(k, now), At(w', v).reports[id]);
      case ForwardFinish(_, id, e, k, now, outcome) =>
        ForwardKeepsNode(n, id, e, Finished(k, outcome.failure.None?, now), At(w', v).reports[id]);
    }
    OneNode(w, w', v, At(w', v));
  }

  lemma PhaseStepKeepsNodes(w: World, w': World, v: string, id: string, phase: Phase)
    requires NodesInv(w) && InFlight(w, v, id) && w'.nodes == SetPhase(w, v, id, phase).nodes
    requires phase.Persisted? ==> At(w, v).reports[id].state.Terminal()
    ensures NodesInv(w')
  {
    assert NodeInv(At(w, v));
    PhaseKeepsNode(At(w, v), id, phase);
    OneNode(w, w', v, At(w', v));
  }

  lemma DropStepKeepsNodes(w: World, w': World, v: string, id: string)
    requires NodesInv(w) && w'.nodes == DropReport(w, v, id).nodes
    ensures NodesInv(w')
  {
    assert NodeInv(At(w, v));
    DropKeepsNode(At(w, v), id);
    OneNode(w, w', v, At(w', v));
  }

  lemma PersistKeepsNodes(w: World, v: string, id: string)
    requires NodesInv(w) && Enabled(w, PersistResult(v, id))
    ensures NodesInv(Apply(w, PersistResult(v, id)))
  {
    PhaseStepKeepsNodes(w, Apply(w, PersistResult(v, id)), v, id, Persisted);
  }

  lemma RecordKeepsNodes(w: World, v: string, id: string)
    requires NodesInv(w) && Enabled(w, RecordState(v, id))
    ensures NodesInv(Apply(w, RecordState(v, id)))
  {
    PhaseStepKeepsNodes(w, Apply(w, RecordState(v, id)), v, id, Recorded);
  }

  lemma SettleKeepsNodes(w: World, v: string, id: string)
    requires NodesInv(w) && Enabled(w, SettleJob(v, id))
    ensures NodesInv(Apply(w, SettleJob(v, id)))
  {
    DropStepKeepsNodes(w, Apply(w, SettleJob(v, id)), v, id);
  }

  lemma ReportStepKeepsNodes(w: World, act: Action)
    requires NodesInv(w) && Enabled(w, act)
    requires act.PersistResult? || act.RecordState? || act.SettleJob? || act.LoseReport?
    ensures NodesInv(Apply(w, act))
  {
    match act
    case PersistResult(v, id) => PersistKeepsNodes(w, v, id);
    case RecordState(v, id) => RecordKeepsNodes(w, v, id);
    case SettleJob(v, id) => SettleKeepsNodes(w, v, id);
    case LoseReport(v, id) => DropStepKeepsNodes(w, Apply(w, act), v, id);
  }

  lemma StepKeepsNodes(w: World, act: Action)
    requires NodesInv(w) && Enabled(w, act)
    ensures NodesInv(Apply(w, act))
  {
    if act.PublishAssignment? {
      var v := w.scheduling.worker;
      assert NodeInv(At(w, v));
      OneNode(w, Apply(w, act), v, At(Apply(w, act), v));
    } else if act.PersistResult? || act.RecordState? || act.SettleJob? || act.LoseReport? {
      ReportStepKeepsNodes(w, act);
    } else if act.ConsumeAssignment? || act.EnqueueAssignment? || act.StopWorker? {
      InboxStepKeepsNodes(w, act);
    } else if act.SessionCall? || act.ForwardStart? || act.ForwardFinish? {
      SessionStepKeepsNodes(w, act);
    } else {
      SameNodes(w, Apply(w, act));
    }
  }

  // ---------------------------------------------------------------------------------------------
  // Links
  // ---------------------------------------------------------------------------------------------

  /** Executions are only added, and never change what they belong to. */
  predicate ExecutionsKept(core: C.CoreState, core': C.CoreState) {
    forall e :: e in core.executions ==>
      && e in core'.executions
      && core'.executions[e].jobId == core.executions[e].jobId
      && core'.executions[e].assignmentId == core.executions[e].assignmentId
      && core'.executions[e].workerId == core.executions[e].workerId
  }

  /** The steps other than creating and recording do not touch the executions. */
  lemma OtherStepsKeepExecutions(w: World, act: Action)
    requires Enabled(w, act) && !act.CreateExecution? && !act.RecordState?
    ensures Apply(w, act).core.executions == w.core.executions
  {
  }

  lemma StepKeepsExecutions(w: World, act: Action)
    requires LinksInv(w) && Enabled(w, act)
    ensures ExecutionsKept(w.core, Apply(w, act).core)
  {
    if act.CreateExecution? {
      assert act.executionId in w.core.executions ==> ExecutionInv(w, act.executionId);
    } else if !act.RecordState? {
      OtherStepsKeepExecutions(w, act);
    }
  }

  lemma UnmovedHas(n: Node, n': Node, a: Assignment)
    requires SameWork(n, n') && Has(n', a)
    ensures Has(n, a)
  {
  }

  /** Assignments come to a worker from the scheduler's hand only. */
  lemma StepKeepsHas(w: World, act: Action, v: string, a: Assignment)
    requires Enabled(w, act) && Has(At(Apply(w, act), v), a)
    ensures Has(At(w, v), a) || w.scheduling == Created(v, a)
  {
    var w' := Apply(w, act);
    if !IsMove(w, act) {
      OtherStepsMoveNothing(w, act);
      assert SameWork(At(w, v), At(w', v));
      UnmovedHas(At(w, v), At(w', v), a);
    } else if act.PublishAssignment? && v == w.scheduling.worker {
      assert At(w', v).inbox == At(w, v).inbox + [w.scheduling.assignment];
    } else if act.ConsumeAssignment? && v == act.worker {
      assert a in At(w', v).inbox ==> a in At(w, v).inbox;
    } else if act.EnqueueAssignment? && v == act.worker {
      assert Has(At(w, v), a);
    } else {
      assert At(w', v) == At(w, v);
    }
  }

  lemma StepKeepsLinked(w: World, act: Action)
    requires LinksInv(w) && Enabled(w, act)
    ensures AllLinked(Apply(w, act))
  {
    var w' := Apply(w, act);
    StepKeepsExecutions(w, act);
    forall v, a | Has(At(w', v), a) ensures Linked(w'.core, v, a) {
      StepKeepsHas(w, act, v, a);
      assert Linked(w.core, v, a);
    }
  }

  lemma CreateKeepsExecutions(w: World, a: string, e: string, task: string)
    requires PlacesInv(w) && LinksInv(w) && Enabled(w, CreateExecution(a, e, task))
    ensures var w' := Apply(w, CreateExecution(a, e, task));
      UniqueExecutions(w'.core) && forall f :: f in w'.core.executions ==> ExecutionInv(w', f)
  {
    var w' := Apply(w, CreateExecution(a, e, task));
    var j := w.scheduling.job;
    assert In(w, j, SchedulerHand);
    assert !In(w, j, TaskList);
    forall f | f in w'.core.executions ensures ExecutionInv(w', f) {
      if f != e {
        assert ExecutionInv(w, f);
      }
    }
    forall f, g | f in w'.core.executions && g in w'.core.executions
      && (w'.core.executions[f].jobId == w'.core.executions[g].jobId
          || w'.core.executions[f].assignmentId == w'.core.executions[g].assignmentId)
      ensures f == g
    {
      if f != e {
        assert ExecutionInv(w, f);
      }
      if g != e {
        assert ExecutionInv(w, g);
      }
    }
  }

  lemma RecordKeepsUnique(core: C.CoreState, e: string, x: C.ExecutionState)
    requires UniqueExecutions(core) && e in core.executions
    ensures UniqueExecutions(C.Record(core, e, x))
  {
  }

  lemma OneExecutionInv(w: World, act: Action, e: string)
    requires Enabled(w, act) && !act.CreateExecution? && w.published !! w.accepting
    requires e in w.core.executions && ExecutionInv(w, e)
    ensures e in Apply(w, act).core.executions && ExecutionInv(Apply(w, act), e)
  {
    assert act.ConsumeTask? ==> w.tasks[0] in w.tasks;
  }

  lemma SameExecutionIds(w: World, act: Action)
    requires Enabled(w, act) && !act.CreateExecution?
    ensures Apply(w, act).core.executions.Keys == w.core.executions.Keys
  {
  }

  lemma StepKeepsUnique(w: World, act: Action)
    requires UniqueExecutions(w.core) && Enabled(w, act) && !act.CreateExecution?
    ensures UniqueExecutions(Apply(w, act).core)
  {
    if act.RecordState? {
      var r := At(w, act.worker).reports[act.id];
      RecordKeepsUnique(w.core, r.executionId, r.state);
    } else {
      OtherStepsKeepExecutions(w, act);
    }
  }

  lemma StepKeepsExecutionInv(w: World, act: Action)
    requires PlacesInv(w) && LinksInv(w) && Enabled(w, act)
    ensures var w' := Apply(w, act);
      UniqueExecutions(w'.core) && forall e :: e in w'.core.executions ==> ExecutionInv(w', e)
  {
    if act.CreateExecution? {
      CreateKeepsExecutions(w, act.assignmentId, act.executionId, act.task);
    } else {
      StepKeepsUnique(w, act);
      SameExecutionIds(w, act);
      forall e | e in Apply(w, act).core.executions ensures ExecutionInv(Apply(w, act), e) {
        OneExecutionInv(w, act, e);
      }
    }
  }

  lemma StepKeepsJobs(w: World, act: Action)
    requires PlacesInv(w) && LinksInv(w) && Enabled(w, act)
    ensures JobsInv(Apply(w, act))
  {
    var w' := Apply(w, act);
    if act.SettleJob? {
      var r := At(w, act.worker).reports[act.id];
      assert w'.core.jobs.Keys == w.core.jobs.Keys;
    } else if act.FailPublish? {
      assert act.job !in w.published;
    }
  }

  lemma StepKeepsLinks(w: World, act: Action)
    requires PlacesInv(w) && LinksInv(w) && Enabled(w, act)
    ensures LinksInv(Apply(w, act))
  {
    StepKeepsJobs(w, act);
    StepKeepsExecutionInv(w, act);
    StepKeepsLinked(w, act);
  }

  // ---------------------------------------------------------------------------------------------
  // Consequences
  // ---------------------------------------------------------------------------------------------

  /** Two assignments of one job are the same assignment at the same worker. */
  lemma OneAssignmentPerJob(w: World, v: string, a: Assignment, u: string, b: Assignment)
    requires LinksInv(w) && Has(At(w, v), a) && Has(At(w, u), b)
    requires a.jobId == b.jobId || a.assignmentId == b.assignmentId
    ensures v == u && a.assignmentId == b.assignmentId && a.executionId == b.executionId && a.jobId == b.jobId
  {
    assert Linked(w.core, v, a) && Linked(w.core, u, b);
  }

  /** An assignment the worker consumed can always be queued: its ids are set and new to the table. */
  lemma EnqueueNeverFails(w: World, v: string)
    requires PlacesInv(w) && LinksInv(w) && NodesInv(w) && At(w, v).hand.Some?
    ensures Enqueue(At(w, v).broker, At(w, v).hand.value).Ok?
  {
    var n := At(w, v);
    var a := n.hand.value;
    assert Has(n, a);
    assert Linked(w.core, v, a);
    assert ExecutionInv(w, a.executionId);
    if a.assignmentId in n.broker.assignments {
      var b := n.broker.assignments[a.assignmentId].assignment;
      assert NodeInv(n);
      assert Has(n, b);
      OneAssignmentPerJob(w, v, a, v, b);
      assert In(w, a.jobId, WorkerHand(v));
      assert In(w, a.jobId, Table(v));
    }
  }
}
