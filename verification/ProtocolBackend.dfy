/**
 The result backend over whole runs: `accept` stores a placeholder after it has published the task, so the
 placeholder and the result of the job can reach the backend in either order.
 */
module ProtocolBackend {
  import opened Common
  import opened Assignments
  import opened Protocol
  import opened ProtocolLinks
  import opened ProtocolViews
  import opened ProtocolTheorems
  import C = Core
  import Text

  /** The action persists the result of job `j`. */
  ghost predicate Persists(w: World, act: Action, j: string) {
    && act.PersistResult? && Enabled(w, act)
    && JobOf(w, At(w, act.worker).reports[act.id].executionId) == j
  }

  /** Action `i` of the run persists the result of job `j`. */
  ghost predicate PersistedAt(acts: seq<Action>, i: nat, j: string) {
    i < |acts| && Legal(acts[..i]) && Persists(Exec(acts[..i]), acts[i], j)
  }

  ghost function PersistTimes(acts: seq<Action>, j: string): set<nat> {
    set i: nat | i < |acts| && PersistedAt(acts, i, j)
  }

  predicate StoredAfter(acts: seq<Action>, times: set<nat>, j: string) {
    exists i, k :: i in times && i < k < |acts| && acts[k] == StorePlaceholder(j)
  }

  ghost predicate Persisted(acts: seq<Action>, j: string) {
    PersistTimes(acts, j) != {}
  }

  /** The placeholder of job `j` is stored after its result was persisted. */
  ghost predicate Late(acts: seq<Action>, j: string) {
    StoredAfter(acts, PersistTimes(acts, j), j)
  }

  // ---------------------------------------------------------------------------------------------
  // One result per job
  // ---------------------------------------------------------------------------------------------

  /** The assignment has ended and its terminal report has been persisted or lost. */
  ghost predicate Spent(n: Node, id: string) {
    && id in n.broker.assignments && n.broker.assignments[id].state.Terminal()
    && (id in n.reports ==> !n.reports[id].phase.Sent?)
  }

  /** Every execution of the job is spent, and there is one. */
  ghost predicate SpentJob(w: World, j: string) {
    && HasExecution(w, j)
    && forall e :: e in w.core.executions && w.core.executions[e].jobId == j ==>
         Spent(At(w, w.core.executions[e].workerId), w.core.executions[e].assignmentId)
  }

  lemma EndedStaysEnded(st: PendingState, call: Call, st': PendingState, id: string)
    requires Inv(st) && Step(st, call, st') && id in st.assignments && st.assignments[id].state.Terminal()
    ensures id in st'.assignments && st'.assignments[id].state.Terminal()
    ensures call.Handled? ==> call.id != id
  {
    if call.HandedOut? {
      assert call.id in st.queue;
    }
  }

  lemma SilentKeepsSpent(n: Node, call: Call, b: PendingState, id: string)
    requires NodeInv(n) && Step(n.broker, call, b) && Spent(n, id)
    ensures Spent(n.(broker := b), id)
  {
    EndedStaysEnded(n.broker, call, b, id);
  }

  lemma ForwardKeepsSpent(n: Node, x: string, e: string, ev: Event, r: Report, id: string)
    requires NodeInv(n) && Handle(n.broker, x, e, ev).Ok? && Spent(n, id)
    ensures Spent(n.(broker := Handle(n.broker, x, e, ev).value, reports := n.reports[x := r]), id)
  {
    EndedStaysEnded(n.broker, Handled(x, e, ev), Handle(n.broker, x, e, ev).value, id);
  }

  /** Calls and events of runtime sessions. */
  lemma SessionKeepsSpent(w: World, act: Action, id: string)
    requires NodesInv(w) && Enabled(w, act) && (act.SessionCall? || act.ForwardStart? || act.ForwardFinish?)
    requires Spent(At(w, act.worker), id)
    ensures Spent(At(Apply(w, act), act.worker), id)
  {
    var n, n' := At(w, act.worker), At(Apply(w, act), act.worker);
    assert NodeInv(n);
    match act
    case SessionCall(_, call, b) => SilentKeepsSpent(n, call, b, id);
    case ForwardStart(_, x, e, k, now) => ForwardKeepsSpent(n, x, e, Started(k, now), n'.reports[x], id);
    case ForwardFinish(_, x, e, k, now, outcome) =>
      ForwardKeepsSpent(n, x, e, Finished(k, outcome.failure.None?, now), n'.reports[x], id);
  }

  /** The action rewrites the node of worker `v`. */
  predicate Rewrites(w: World, act: Action, v: string) {
    || ((WorkerStep(act) || ReportStep(act)) && act.worker == v)
    || (act.PublishAssignment? && w.scheduling.Created? && w.scheduling.worker == v)
  }

  lemma OtherNodesStay(w: World, act: Action, v: string)
    requires Enabled(w, act) && !Rewrites(w, act, v)
    ensures At(Apply(w, act), v) == At(w, v)
  {
  }

  lemma ReportStepKeepsSpent(w: World, act: Action, id: string)
    requires Enabled(w, act) && ReportStep(act) && Spent(At(w, act.worker), id)
    ensures Spent(At(Apply(w, act), act.worker), id)
  {
  }

  /** Publishing, consuming, enqueueing and stopping. */
  lemma InboxStepKeepsSpent(w: World, act: Action, v: string, id: string)
    requires Enabled(w, act) && Rewrites(w, act, v) && Spent(At(w, v), id)
    requires act.PublishAssignment? || act.ConsumeAssignment? || act.EnqueueAssignment? || act.StopWorker?
    ensures Spent(At(Apply(w, act), v), id)
  {
  }

  lemma StepKeepsSpent(w: World, act: Action, v: string, id: string)
    requires NodesInv(w) && Enabled(w, act) && Spent(At(w, v), id)
    ensures Spent(At(Apply(w, act), v), id)
  {
    if !Rewrites(w, act, v) {
      OtherNodesStay(w, act, v);
    } else if ReportStep(act) {
      ReportStepKeepsSpent(w, act, id);
    } else if act.SessionCall? || act.ForwardStart? || act.ForwardFinish? {
      SessionKeepsSpent(w, act, id);
    } else {
      InboxStepKeepsSpent(w, act, v, id);
    }
  }

  lemma StepKeepsSpentJob(w: World, act: Action, j: string)
    requires LinksInv(w) && NodesInv(w) && Enabled(w, act) && SpentJob(w, j)
    ensures SpentJob(Apply(w, act), j)
  {
    var w' := Apply(w, act);
    StepKeepsExecutions(w, act);
    var f :| f in w.core.executions && w.core.executions[f].jobId == j;
    assert w'.core.executions[f].jobId == j;
    forall e | e in w'.core.executions && w'.core.executions[e].jobId == j
      ensures Spent(At(w', w'.core.executions[e].workerId), w'.core.executions[e].assignmentId)
    {
      OnlyHeldJobsGetExecutions(w, act, e);
      if e in w.core.executions {
        StepKeepsSpent(w, act, w.core.executions[e].workerId, w.core.executions[e].assignmentId);
      } else {
        HeldJobHasNoExecution(w);
      }
    }
  }

  lemma OnlyHeldJobsGetExecutions(w: World, act: Action, e: string)
    requires Enabled(w, act) && e in Apply(w, act).core.executions
    ensures e in w.core.executions ||
      (w.scheduling.Holding? && Apply(w, act).core.executions[e].jobId == w.scheduling.job)
  {
  }

  /** While a terminal report is on its way the assignment has ended. */
  lemma ReportedHasEnded(w: World, v: string, id: string)
    requires AllInv(w) && InFlight(w, v, id) && At(w, v).reports[id].state.Terminal()
    ensures id in At(w, v).broker.assignments && At(w, v).broker.assignments[id].state.Terminal()
  {
    var e := ReportResolves(w, v, id);
    assert Good(ViewOf(w, e));
  }

  lemma PersistSpendsReport(w: World, v: string, id: string)
    requires Enabled(w, PersistResult(v, id))
    requires id in At(w, v).broker.assignments && At(w, v).broker.assignments[id].state.Terminal()
    ensures var w' := Apply(w, PersistResult(v, id)); Spent(At(w', v), id) && w'.core.executions == w.core.executions
  {
  }

  /** Persisting spends the job. */
  lemma PersistSpends(w: World, act: Action, j: string)
    requires AllInv(w) && Persists(w, act, j)
    ensures SpentJob(Apply(w, act), j)
  {
    ReportedHasEnded(w, act.worker, act.id);
    PersistSpendsReport(w, act.worker, act.id);
    var e := ReportResolves(w, act.worker, act.id);
    assert w.core.executions[e].jobId == j;
  }

  /** A spent job is not persisted again. */
  lemma SpentIsNotPersisted(w: World, act: Action, j: string)
    requires LinksInv(w) && NodesInv(w) && SpentJob(w, j)
    ensures !Persists(w, act, j)
  {
    if Persists(w, act, j) {
      var e := ReportResolves(w, act.worker, act.id);
      assert false;
    }
  }

  // ---------------------------------------------------------------------------------------------
  // Where a result comes from
  // ---------------------------------------------------------------------------------------------

  /** A terminal report about job `j` that is past its first phase. */
  ghost predicate PastSent(w: World, v: string, id: string, j: string) {
    && InFlight(w, v, id) && At(w, v).reports[id].state.Terminal() && !At(w, v).reports[id].phase.Sent?
    && At(w, v).reports[id].executionId in w.core.executions && JobOf(w, At(w, v).reports[id].executionId) == j
  }

  ghost predicate ResultSeen(w: World, j: string) {
    (j in w.core.jobs && w.core.jobs[j].result.Some?) || exists v, id :: PastSent(w, v, id, j)
  }

  /** A terminal report gets past its first phase by being persisted, and is otherwise the same report. */
  lemma PhaseStep(w: World, act: Action, v: string, id: string)
    requires Enabled(w, act) && InFlight(Apply(w, act), v, id) && !At(Apply(w, act), v).reports[id].phase.Sent?
    ensures InFlight(w, v, id)
    ensures var r, r' := At(w, v).reports[id], At(Apply(w, act), v).reports[id];
      && r'.state == r.state && r'.executionId == r.executionId
      && (r.phase.Sent? && r.state.Terminal() ==> act == PersistResult(v, id))
  {
    if !Rewrites(w, act, v) {
      OtherNodesStay(w, act, v);
    }
  }

  lemma PastSentStep(w: World, act: Action, v: string, id: string, j: string)
    requires LinksInv(w) && NodesInv(w) && Enabled(w, act) && PastSent(Apply(w, act), v, id, j)
    ensures PastSent(w, v, id, j) || Persists(w, act, j)
  {
    PhaseStep(w, act, v, id);
    StepKeepsExecutions(w, act);
    var e := ReportResolves(w, v, id);
  }

  lemma ResultStep(w: World, act: Action, j: string)
    requires LinksInv(w) && NodesInv(w) && Enabled(w, act)
    requires j in Apply(w, act).core.jobs && Apply(w, act).core.jobs[j].result.Some?
    ensures ResultSeen(w, j)
  {
    if act.SettleJob? && At(w, act.worker).reports[act.id].state.Terminal()
       && JobOf(w, At(w, act.worker).reports[act.id].executionId) == j {
      assert PastSent(w, act.worker, act.id, j);
    }
  }

  lemma ResultSeenStep(w: World, act: Action, j: string)
    requires LinksInv(w) && NodesInv(w) && Enabled(w, act) && ResultSeen(Apply(w, act), j)
    ensures ResultSeen(w, j) || Persists(w, act, j)
  {
    if v, id :| PastSent(Apply(w, act), v, id, j) {
      PastSentStep(w, act, v, id, j);
    } else {
      ResultStep(w, act, j);
    }
  }

  // ---------------------------------------------------------------------------------------------
  // The backend along a run
  // ---------------------------------------------------------------------------------------------

  /** What the world shows of the history: whether the result was persisted, and whether the placeholder came later. */
  ghost predicate Shows(w: World, j: string, persisted: bool, late: bool) {
    && (late ==> persisted)
    && (persisted ==> SpentJob(w, j))
    && (ResultSeen(w, j) ==> persisted)
    && (late ==> Find(w.core.results, j) == Some(C.Placeholder))
    && (persisted && !late ==> j in w.core.results && w.core.results[j].Final?)
  }

  /** Only persisting and storing the placeholder write to the backend. */
  lemma BackendStep(w: World, act: Action, j: string)
    requires Enabled(w, act)
    ensures var results := Apply(w, act).core.results;
      if Persists(w, act, j) then j in results && results[j].Final?
      else if act == StorePlaceholder(j) then Find(results, j) == Some(C.Placeholder)
      else Find(results, j) == Find(w.core.results, j)
  {
  }

  lemma StepShows(w: World, act: Action, j: string, persisted: bool, late: bool)
    requires AllInv(w) && Enabled(w, act) && Shows(w, j, persisted, late)
    ensures Shows(Apply(w, act), j, persisted || Persists(w, act, j), late || (persisted && act == StorePlaceholder(j)))
  {
    BackendStep(w, act, j);
    if persisted {
      StepKeepsSpentJob(w, act, j);
      SpentIsNotPersisted(w, act, j);
    } else if Persists(w, act, j) {
      PersistSpends(w, act, j);
    }
    if ResultSeen(Apply(w, act), j) {
      ResultSeenStep(w, act, j);
    }
  }

  lemma PersistTimesStep(acts: seq<Action>, n: nat, j: string)
    requires n + 1 == |acts| && Legal(acts)
    ensures PersistTimes(acts, j) ==
      PersistTimes(acts[..n], j) + (if Persists(Exec(acts[..n]), acts[n], j) then {n} else {})
  {
    forall i: nat | i < n ensures PersistedAt(acts[..n], i, j) <==> PersistedAt(acts, i, j) {
      assert acts[..n][..i] == acts[..i];
    }
  }

  lemma StoredAfterStep(acts: seq<Action>, n: nat, times: set<nat>, j: string)
    requires n + 1 == |acts| && forall i :: i in times ==> i < n
    ensures StoredAfter(acts, times + {n}, j) == StoredAfter(acts, times, j)
    ensures StoredAfter(acts, times, j) <==>
      StoredAfter(acts[..n], times, j) || (times != {} && acts[n] == StorePlaceholder(j))
  {
    if i, k :| i in times && i < k < n && acts[..n][k] == StorePlaceholder(j) {
      assert acts[k] == StorePlaceholder(j);
    }
  }

  lemma HistoryStep(acts: seq<Action>, n: nat, j: string)
    requires n + 1 == |acts| && Legal(acts)
    ensures Persisted(acts, j) <==> Persisted(acts[..n], j) || Persists(Exec(acts[..n]), acts[n], j)
    ensures Late(acts, j) <==> Late(acts[..n], j) || (Persisted(acts[..n], j) && acts[n] == StorePlaceholder(j))
  {
    PersistTimesStep(acts, n, j);
    StoredAfterStep(acts, n, PersistTimes(acts[..n], j), j);
  }

  lemma StartShows(j: string)
    ensures Shows(START, j, false, false)
  {
    assert forall v, id :: !InFlight(START, v, id);
  }

  lemma {:induction false} RunsShow(acts: seq<Action>, j: string)
    requires Legal(acts)
    ensures Shows(Exec(acts), j, Persisted(acts, j), Late(acts, j))
    decreases |acts|
  {
    if acts == [] {
      StartShows(j);
    } else {
      var n := |acts| - 1;
      var w := Exec(acts[..n]);
      RunsShow(acts[..n], j);
      RunsKeepAll(acts[..n]);
      StepShows(w, acts[n], j, Persisted(acts[..n], j), Late(acts[..n], j));
      HistoryStep(acts, n, j);
    }
  }

  /** A finished job's result is in the backend exactly when its placeholder was not stored after it was persisted. */
  lemma BackendAgreesUnlessLate(acts: seq<Action>, e: string)
    requires Legal(acts) && Resolves(Exec(acts), e)
    ensures var w := Exec(acts);
      var j := w.core.executions[e].jobId;
      w.core.jobs[j].result.Some? ==>
        && Persisted(acts, j) && j in w.core.results
        && (w.core.results[j] == C.Stored.Final(w.core.jobs[j].result.value) <==> !Late(acts, j))
  {
    RunsKeepAll(acts);
    assert Good(ViewOf(Exec(acts), e));
    RunsShow(acts, Exec(acts).core.executions[e].jobId);
  }

  // ---------------------------------------------------------------------------------------------
  // A run in which the placeholder comes too late
  // ---------------------------------------------------------------------------------------------

  ghost predicate Reaches(acts: seq<Action>, w: World) {
    Legal(acts) && Exec(acts) == w
  }

  lemma Push(acts: seq<Action>, w: World, act: Action) returns (acts': seq<Action>, w': World)
    requires Reaches(acts, w) && Enabled(w, act)
    ensures acts' == acts + [act] && w' == Apply(w, act) && Reaches(acts', w')
  {
    acts', w' := acts + [act], Apply(w, act);
    assert acts'[..|acts|] == acts;
  }

  /** The ids of one job's journey, all different and none blank. */
  predicate Journey(j: string, a: Assignment) {
    && a.jobId == j && j != a.assignmentId && j != a.executionId && a.assignmentId != a.executionId
    && !Text.Blank(j) && !Text.Blank(a.assignmentId) && !Text.Blank(a.executionId)
  }

  /** A run that leads to node `n` at worker `v` and to Core's tables `core`, the placeholder still to be stored. */
  ghost predicate Situation(acts: seq<Action>, w: World, j: string, v: string, n: Node, core: C.CoreState) {
    Reaches(acts, w) && At(w, v) == n && w.core == core && j in w.placeholders
  }

  function Scheduled(j: string, a: Assignment, v: string): C.CoreState {
    C.CoreState(map[j := C.NEW_JOB], map[a.executionId := C.Execution(j, a.assignmentId, v, C.ExecAssigned)], map[])
  }

  /** A job is accepted and scheduled before `accept` gets to store its placeholder. */
  lemma Schedule(j: string, a: Assignment, v: string) returns (acts: seq<Action>, w: World)
    requires Journey(j, a)
    ensures Situation(acts, w, j, v, NEW_NODE.(inbox := [a]), Scheduled(j, a, v))
  {
    assert Legal([]) && Exec([]) == START;
    acts, w := Push([], START, BeginAccept(j));
    acts, w := Push(acts, w, PublishTask(j));
    acts, w := Push(acts, w, ConsumeTask(v));
    acts, w := Push(acts, w, CreateExecution(a.assignmentId, a.executionId, a.task));
    acts, w := Push(acts, w, PublishAssignment);
  }

  /** The broker's side of the journey: enqueued, handed out, started, finished. */
  lemma BrokerJourney(a: Assignment, ok: bool) returns (b: seq<PendingState>)
    requires !Text.Blank(a.jobId) && !Text.Blank(a.assignmentId) && !Text.Blank(a.executionId)
    ensures |b| == 4
    ensures Enqueue(EMPTY, a) == Ok(b[0])
    ensures Step(b[0], HandedOut("s", a.assignmentId), b[1])
    ensures Handle(b[1], a.assignmentId, a.executionId, Started(1, 0)) == Ok(b[2])
    ensures Handle(b[2], a.assignmentId, a.executionId, Finished(2, ok, 0)) == Ok(b[3])
  {
    var b0 := Enqueue(EMPTY, a).value;
    var b1 := HandOut(b0, "s");
    var b2 := Handle(b1, a.assignmentId, a.executionId, Started(1, 0)).value;
    var b3 := Handle(b2, a.assignmentId, a.executionId, Finished(2, ok, 0)).value;
    b := [b0, b1, b2, b3];
  }

  /** The assignment is delivered and enqueued. */
  lemma Deliver(j: string, a: Assignment, v: string, b: PendingState) returns (acts: seq<Action>, w: World)
    requires Journey(j, a) && Enqueue(EMPTY, a) == Ok(b)
    ensures Situation(acts, w, j, v, NEW_NODE.(broker := b), Scheduled(j, a, v))
  {
    acts, w := Schedule(j, a, v);
    acts, w := Push(acts, w, ConsumeAssignment(v));
    assert At(w, v) == NEW_NODE.(hand := Some(a));
    acts, w := Push(acts, w, EnqueueAssignment(v));
  }

  /** A session takes it. */
  lemma Take(acts0: seq<Action>, w0: World, j: string, a: Assignment, v: string, b: PendingState, b': PendingState)
    returns (acts: seq<Action>, w: World)
    requires Step(b, HandedOut("s", a.assignmentId), b')
    requires Situation(acts0, w0, j, v, NEW_NODE.(broker := b), Scheduled(j, a, v))
    ensures Situation(acts, w, j, v, NEW_NODE.(broker := b'), Scheduled(j, a, v))
  {
    acts, w := Push(acts0, w0, SessionCall(v, HandedOut("s", a.assignmentId), b'));
  }

  /** The session starts it; the Running report is lost. */
  lemma Launch(acts0: seq<Action>, w0: World, j: string, a: Assignment, v: string, b: PendingState, b': PendingState)
    returns (acts: seq<Action>, w: World)
    requires Handle(b, a.assignmentId, a.executionId, Started(1, 0)) == Ok(b')
    requires Situation(acts0, w0, j, v, NEW_NODE.(broker := b), Scheduled(j, a, v))
    ensures Situation(acts, w, j, v, NEW_NODE.(broker := b'), Scheduled(j, a, v))
  {
    acts, w := Push(acts0, w0, ForwardStart(v, a.assignmentId, a.executionId, 1, 0));
    acts, w := Push(acts, w, LoseReport(v, a.assignmentId));
    assert At(w, v).reports == map[];
  }

  /** The state a finished execution is reported in. */
  function Ended(outcome: C.Outcome): C.ExecutionState {
    if outcome.failure.None? then C.ExecSucceeded else C.ExecFailed
  }

  /** The session reports the outcome and Core persists it. */
  lemma Finish(acts0: seq<Action>, w0: World, j: string, a: Assignment, v: string, b: PendingState, outcome: C.Outcome)
    returns (acts: seq<Action>, w: World)
    requires Journey(j, a)
    requires Handle(b, a.assignmentId, a.executionId, Finished(2, outcome.failure.None?, 0)).Ok?
    requires Situation(acts0, w0, j, v, NEW_NODE.(broker := b), Scheduled(j, a, v))
    ensures Reaches(acts, w) && j in w.placeholders && InFlight(w, v, a.assignmentId)
    ensures At(w, v).reports[a.assignmentId] == Report(a.executionId, Ended(outcome), Some(outcome), Phase.Persisted)
    ensures w.core.jobs == Scheduled(j, a, v).jobs && w.core.executions == Scheduled(j, a, v).executions
  {
    acts, w := Push(acts0, w0, ForwardFinish(v, a.assignmentId, a.executionId, 2, 0, outcome));
    acts, w := Push(acts, w, PersistResult(v, a.assignmentId));
  }

  /** Core records the state and settles the job. */
  lemma Settle(acts0: seq<Action>, w0: World, j: string, a: Assignment, v: string, outcome: C.Outcome)
    returns (acts: seq<Action>, w: World)
    requires Reaches(acts0, w0) && j in w0.placeholders && InFlight(w0, v, a.assignmentId)
    requires At(w0, v).reports[a.assignmentId] == Report(a.executionId, Ended(outcome), Some(outcome), Phase.Persisted)
    requires w0.core.jobs == Scheduled(j, a, v).jobs && w0.core.executions == Scheduled(j, a, v).executions
    ensures Reaches(acts, w) && j in w.placeholders && j in w.core.jobs
    ensures w.core.jobs[j] == C.Settled(C.NEW_JOB, outcome.(executionId := a.executionId))
  {
    RecordAndSettle(w0, v, a.assignmentId);
    acts, w := Push(acts0, w0, RecordState(v, a.assignmentId));
    acts, w := Push(acts, w, SettleJob(v, a.assignmentId));
  }

  /** A run in which the placeholder overwrites a finished job's result in the backend. */
  lemma LatePlaceholderOverwritesResult(j: string, a: Assignment, v: string, outcome: C.Outcome)
    returns (acts: seq<Action>)
    requires Journey(j, a)
    ensures Legal(acts)
    ensures var core := Exec(acts).core;
      && j in core.jobs && core.jobs[j].result == Some(outcome.(executionId := a.executionId))
      && core.jobs[j].state == (if outcome.failure.None? then C.JobSucceeded else C.JobFailed)
      && j in core.results && core.results[j] == C.Placeholder
  {
    var b := BrokerJourney(a, outcome.failure.None?);
    var w: World;
    acts, w := Deliver(j, a, v, b[0]);
    acts, w := Take(acts, w, j, a, v, b[0], b[1]);
    acts, w := Launch(acts, w, j, a, v, b[1], b[2]);
    acts, w := Finish(acts, w, j, a, v, b[2], outcome);
    acts, w := Settle(acts, w, j, a, v, outcome);
    acts, w := Push(acts, w, StorePlaceholder(j));
  }
}
