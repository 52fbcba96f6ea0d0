/**
 Agreement of the three views of an execution: Core's execution record, Core's job record and the worker's
 assignment record, together with the report in flight and the result backend.
 */
module ProtocolViews {
  import opened Common
  import opened Assignments
  import opened Protocol
  import opened ProtocolPlaces
  import opened ProtocolLinks
  import C = Core

  /** How far the worker is, as far as Core could ever notice. */
  datatype Stage = Undelivered | Unstarted | Live | Ended(succeeded: bool)

  function StageOf(s: AssignmentState): Stage {
    match s
    case Pending | Assigned => Unstarted
    case Running => Live
    case Succeeded => Ended(true)
    case Failed => Ended(false)
  }

  /** Everything the system knows about one execution. */
  datatype View = View(
    execution: C.ExecutionState,
    job: C.Job,
    stage: Stage,
    report: Option<Report>,
    stored: Option<C.Stored>)

  function Find<V>(m: map<string, V>, k: string): Option<V> {
    if k in m then Some(m[k]) else None
  }

  function ViewOf(w: World, e: string): View
    requires Resolves(w, e)
  {
    var x := w.core.executions[e];
    var n := At(w, x.workerId);
    var table := n.broker.assignments;
    View(x.state, w.core.jobs[x.jobId],
         if x.assignmentId in table then StageOf(table[x.assignmentId].state) else Undelivered,
         Find(n.reports, x.assignmentId),
         Find(w.core.results, x.jobId))
  }

  /** The stage a worker is in while it forwards a report. */
  function StageFor(x: C.ExecutionState): Stage {
    match x
    case ExecRunning => Live
    case ExecSucceeded => Ended(true)
    case ExecFailed => Ended(false)
    case _ => Unstarted
  }

  /** Core never knows more than the worker. */
  predicate NotAhead(x: C.ExecutionState, stage: Stage) {
    match x
    case ExecAssigned => true
    case ExecRunning => stage.Live? || stage.Ended?
    case ExecSucceeded => stage == Ended(true)
    case ExecFailed => stage == Ended(false)
    case ExecOther => false
  }

  /** The job has not seen the recorded state yet. */
  predicate JobBehind(x: C.ExecutionState, job: C.Job) {
    C.Matches(C.ExecAssigned, job) || (x.Terminal() && C.Matches(C.ExecRunning, job))
  }

  predicate Agrees(v: View) {
    match v.report
    case None => C.Matches(v.execution, v.job) && NotAhead(v.execution, v.stage)
    case Some(r) =>
      && v.stage == StageFor(r.state)
      && if r.phase.Recorded? then v.execution == r.state && JobBehind(r.state, v.job)
         else C.Matches(v.execution, v.job) && C.Before(v.execution, r.state)
  }

  /** The backend holds no outcome. */
  predicate NotYet(v: View) {
    !(v.stored.Some? && v.stored.value.Final?)
  }

  /** The outcome was stored, and a placeholder may have overwritten it since. */
  predicate Written(v: View, outcome: C.Outcome) {
    v.stored == Some(C.Placeholder) || v.stored == Some(C.Stored.Final(outcome))
  }

  predicate BackendOk(v: View) {
    && (!v.stage.Ended? ==> NotYet(v))
    && (v.report.Some? && v.report.value.phase.Sent? ==> NotYet(v))
    && (v.report.Some? && !v.report.value.phase.Sent? && v.report.value.state.Terminal() && v.report.value.outcome.Some?
        ==> Written(v, Final(v.report.value)))
    && (v.job.result.Some? ==> Written(v, v.job.result.value))
  }

  predicate Good(v: View) {
    Agrees(v) && BackendOk(v)
  }

  /** A job without an execution is new, and the backend holds no outcome for it. */
  ghost predicate Untouched(w: World, j: string)
    requires j in w.core.jobs
  {
    w.core.jobs[j] == C.NEW_JOB && !(j in w.core.results && w.core.results[j].Final?)
  }

  ghost predicate HasExecution(w: World, j: string) {
    exists e :: e in w.core.executions && w.core.executions[e].jobId == j
  }

  ghost predicate AllGood(w: World) {
    forall e :: Resolves(w, e) ==> Good(ViewOf(w, e))
  }

  /** What holds outside the executions. */
  ghost predicate RestInv(w: World) {
    && (forall j :: j in w.core.jobs && !HasExecution(w, j) ==> Untouched(w, j))
    && w.core.results.Keys <= w.published
    && w.placeholders <= w.published
  }

  ghost predicate ViewsInv(w: World) {
    AllGood(w) && RestInv(w)
  }

  ghost predicate AllInv(w: World) {
    PlacesInv(w) && LinksInv(w) && NodesInv(w) && ViewsInv(w)
  }

  // ---------------------------------------------------------------------------------------------
  // What a step touches
  // ---------------------------------------------------------------------------------------------

  /** The execution behind an assignment id of worker `v`. */
  lemma Owner(w: World, v: string, id: string) returns (e: string)
    requires LinksInv(w) && NodesInv(w) && id in At(w, v).broker.assignments
    ensures e == At(w, v).broker.assignments[id].assignment.executionId
    ensures Resolves(w, e) && w.core.executions[e].assignmentId == id && w.core.executions[e].workerId == v
    ensures forall f :: f in w.core.executions && w.core.executions[f].assignmentId == id ==> f == e
    ensures forall f :: f in w.core.executions && w.core.executions[f].jobId == w.core.executions[e].jobId ==> f == e
  {
    var a := At(w, v).broker.assignments[id].assignment;
    e := a.executionId;
    assert NodeInv(At(w, v));
    assert Has(At(w, v), a);
    assert Linked(w.core, v, a);
    assert ExecutionInv(w, e);
  }

  lemma ReportsInTable(n: Node)
    requires NodeInv(n)
    ensures forall id :: id in n.reports ==> id in n.broker.assignments
  {
    forall id | id in n.reports ensures id in n.broker.assignments {
      assert ReportInv(n, id);
    }
  }

  lemma TableIdsAreIssued(w: World, v: string)
    requires LinksInv(w) && NodesInv(w)
    ensures forall id :: id in At(w, v).broker.assignments ==> id in w.issued
  {
    forall id | id in At(w, v).broker.assignments ensures id in w.issued {
      var e := Owner(w, v, id);
      assert ExecutionInv(w, e);
    }
  }

  /** The view of every execution other than `e` is unchanged. */
  ghost predicate OnlyTouches(w: World, w': World, e: string) {
    && (forall f :: Resolves(w', f) <==> Resolves(w, f))
    && (forall f :: Resolves(w, f) && f != e ==> ViewOf(w', f) == ViewOf(w, f))
  }

  lemma TouchKeepsGood(w: World, w': World, e: string)
    requires AllGood(w) && OnlyTouches(w, w', e)
    requires Resolves(w', e) ==> Good(ViewOf(w', e))
    ensures AllGood(w')
  {
    forall f | Resolves(w', f) ensures Good(ViewOf(w', f)) {
      if f != e {
        assert Good(ViewOf(w, f));
      }
    }
  }

  // ---------------------------------------------------------------------------------------------
  // Views step by step
  // ---------------------------------------------------------------------------------------------

  lemma StartView(v: View, e: string)
    requires Good(v) && v.report.None? && v.stage == Unstarted
    ensures Good(v.(stage := Live, report := Some(Report(e, C.ExecRunning, None, Sent))))
  {
  }

  lemma FinishView(v: View, e: string, outcome: C.Outcome)
    requires Good(v) && v.report.None? && v.stage == Live
    ensures
      var x := if outcome.failure.None? then C.ExecSucceeded else C.ExecFailed;
      Good(v.(stage := StageFor(x), report := Some(Report(e, x, Some(outcome), Sent))))
  {
  }

  lemma PersistView(v: View, r: Report)
    requires Good(v) && v.report == Some(r) && r.phase.Sent? && r.state.Terminal() && r.outcome.Some?
    ensures Good(v.(report := Some(r.(phase := Persisted)), stored := Some(C.Stored.Final(Final(r)))))
  {
  }

  lemma RecordView(v: View, r: Report)
    requires Good(v) && v.report == Some(r) && !r.phase.Recorded?
    requires r.state.ExecRunning? || (r.state.Terminal() && r.phase.Persisted?)
    requires v.job.result.None?
    ensures Good(v.(report := Some(r.(phase := Recorded)), execution := r.state))
  {
  }

  lemma SettleView(v: View, r: Report)
    requires Good(v) && v.report == Some(r) && r.phase.Recorded?
    requires r.state.ExecRunning? || r.state.Terminal()
    requires r.state.Terminal() ==> r.outcome.Some? && (r.outcome.value.failure.Some? <==> r.state == C.ExecFailed)
    ensures
      var job := if r.state.Terminal() then C.Settled(v.job, Final(r)) else C.Started(v.job);
      Good(v.(report := None, job := job))
  {
  }

  lemma LoseView(v: View, r: Report)
    requires Good(v) && v.report == Some(r) && !r.phase.Recorded?
    requires r.state.ExecRunning? || r.state.Terminal()
    ensures Good(v.(report := None))
  {
  }

  lemma PlaceholderView(v: View)
    requires Good(v)
    ensures Good(v.(stored := Some(C.Placeholder)))
  {
  }

  // ---------------------------------------------------------------------------------------------
  // Steps of a worker's node
  // ---------------------------------------------------------------------------------------------

  /** A step that rewrites one node changes the view of the execution behind `id` at most. */
  lemma NodeStepTouches(w: World, w': World, v: string, n: Node, id: string, e: string)
    requires w' == Put(w, v, n)
    requires forall f :: f in w.core.executions && w.core.executions[f].assignmentId == id ==> f == e
    requires forall x :: x != id ==> Find(n.reports, x) == Find(At(w, v).reports, x)
    requires forall x :: x != id ==>
      && (x in n.broker.assignments <==> x in At(w, v).broker.assignments)
      && (x in n.broker.assignments ==>
            StageOf(n.broker.assignments[x].state) == StageOf(At(w, v).broker.assignments[x].state))
    ensures OnlyTouches(w, w', e)
  {
    forall f | Resolves(w, f) && f != e ensures ViewOf(w', f) == ViewOf(w, f) {
      var x := w.core.executions[f];
      if x.workerId == v {
        assert x.assignmentId != id;
      } else {
        assert At(w', x.workerId) == At(w, x.workerId);
      }
    }
  }

  /** Steps that do not touch Core's tables or the history keep what holds outside the executions. */
  lemma SameCoreKeepsRest(w: World, w': World)
    requires RestInv(w)
    requires w'.core == w.core && w'.published == w.published && w'.placeholders == w.placeholders
    ensures RestInv(w')
  {
    assert forall j :: HasExecution(w', j) <==> HasExecution(w, j);
  }

  lemma SilentCallKeepsStages(st: PendingState, call: Call, st': PendingState, id: string)
    requires Inv(st) && Silent(call) && Step(st, call, st')
    ensures id in st'.assignments <==> id in st.assignments
    ensures id in st.assignments ==> StageOf(st'.assignments[id].state) == StageOf(st.assignments[id].state)
  {
    if call.HandedOut? {
      assert call.id in st.queue;
    }
  }

  lemma SilentCallKeepsViews(w: World, v: string, call: Call, b: PendingState)
    requires NodesInv(w) && ViewsInv(w) && Enabled(w, SessionCall(v, call, b))
    ensures ViewsInv(Apply(w, SessionCall(v, call, b)))
  {
    var w' := Apply(w, SessionCall(v, call, b));
    assert NodeInv(At(w, v));
    forall f | Resolves(w', f) ensures Good(ViewOf(w', f)) {
      var x := w.core.executions[f];
      if x.workerId == v {
        SilentCallKeepsStages(At(w, v).broker, call, b, x.assignmentId);
      } else {
        assert At(w', x.workerId) == At(w, x.workerId);
      }
      assert ViewOf(w', f) == ViewOf(w, f);
      assert Resolves(w, f);
    }
    SameCoreKeepsRest(w, w');
  }

  /** What an accepted start or finish does to the stages of a broker's assignments. */
  lemma HandleStages(st: PendingState, id: string, e: string, ev: Event, x: string)
    requires Handle(st, id, e, ev).Ok? && (ev.Started? || ev.Finished?)
    ensures var st' := Handle(st, id, e, ev).value;
      && id in st.assignments && st.assignments[id].assignment.executionId == e
      && StageOf(st.assignments[id].state) == (if ev.Started? then Unstarted else Live)
      && id in st'.assignments
      && StageOf(st'.assignments[id].state) == (if ev.Started? then Live else Ended(ev.succeeded))
      && (x != id ==> (x in st'.assignments <==> x in st.assignments)
                      && (x in st.assignments ==> st'.assignments[x] == st.assignments[x]))
  {
  }

  lemma ForwardTouches(w: World, v: string, id: string, e: string, ev: Event,
                       x: C.ExecutionState, outcome: Option<C.Outcome>)
    requires LinksInv(w) && NodesInv(w) && Handle(At(w, v).broker, id, e, ev).Ok?
    requires ev.Started? || ev.Finished?
    ensures OnlyTouches(w, Forward(w, v, id, e, ev, x, outcome), e)
    ensures Resolves(w, e) && w.core.executions[e].assignmentId == id && w.core.executions[e].workerId == v
  {
    var w' := Forward(w, v, id, e, ev, x, outcome);
    HandleStages(At(w, v).broker, id, e, ev, id);
    var owner := Owner(w, v, id);
    forall k | k != id
      ensures Find(At(w', v).reports, k) == Find(At(w, v).reports, k)
      ensures k in At(w', v).broker.assignments <==> k in At(w, v).broker.assignments
      ensures k in At(w, v).broker.assignments ==>
        At(w', v).broker.assignments[k] == At(w, v).broker.assignments[k]
    {
      HandleStages(At(w, v).broker, id, e, ev, k);
    }
    NodeStepTouches(w, w', v, At(w', v), id, owner);
  }

  lemma ForwardEffect(w: World, v: string, id: string, e: string, ev: Event,
                      x: C.ExecutionState, outcome: Option<C.Outcome>)
    requires Handle(At(w, v).broker, id, e, ev).Ok? && (ev.Started? || ev.Finished?)
    requires x == if ev.Started? then C.ExecRunning else if ev.succeeded then C.ExecSucceeded else C.ExecFailed
    requires Resolves(w, e) && w.core.executions[e].assignmentId == id && w.core.executions[e].workerId == v
    ensures var w' := Forward(w, v, id, e, ev, x, outcome);
      && Resolves(w', e)
      && ViewOf(w, e).stage == (if ev.Started? then Unstarted else Live)
      && ViewOf(w, e).report == Find(At(w, v).reports, id)
      && ViewOf(w', e) == ViewOf(w, e).(stage := StageFor(x), report := Some(Report(e, x, outcome, Sent)))
  {
    HandleStages(At(w, v).broker, id, e, ev, id);
  }

  lemma ForwardStartKeepsViews(w: World, v: string, id: string, e: string, n: nat, now: nat)
    requires LinksInv(w) && NodesInv(w) && ViewsInv(w) && Enabled(w, ForwardStart(v, id, e, n, now))
    ensures ViewsInv(Apply(w, ForwardStart(v, id, e, n, now)))
  {
    var w' := Apply(w, ForwardStart(v, id, e, n, now));
    ForwardTouches(w, v, id, e, Started(n, now), C.ExecRunning, None);
    ForwardEffect(w, v, id, e, Started(n, now), C.ExecRunning, None);
    StartView(ViewOf(w, e), e);
    TouchKeepsGood(w, w', e);
    SameCoreKeepsRest(w, w');
  }

  lemma ForwardFinishKeepsViews(w: World, v: string, id: string, e: string, n: nat, now: nat, outcome: C.Outcome)
    requires LinksInv(w) && NodesInv(w) && ViewsInv(w) && Enabled(w, ForwardFinish(v, id, e, n, now, outcome))
    ensures ViewsInv(Apply(w, ForwardFinish(v, id, e, n, now, outcome)))
  {
    var w' := Apply(w, ForwardFinish(v, id, e, n, now, outcome));
    var x := if outcome.failure.None? then C.ExecSucceeded else C.ExecFailed;
    ForwardTouches(w, v, id, e, Finished(n, outcome.failure.None?, now), x, Some(outcome));
    ForwardEffect(w, v, id, e, Finished(n, outcome.failure.None?, now), x, Some(outcome));
    FinishView(ViewOf(w, e), e, outcome);
    TouchKeepsGood(w, w', e);
    SameCoreKeepsRest(w, w');
  }

  lemma EnqueueKeepsViews(w: World, v: string)
    requires LinksInv(w) && NodesInv(w) && ViewsInv(w) && Enabled(w, EnqueueAssignment(v))
    requires Enqueue(At(w, v).broker, At(w, v).hand.value).Ok?
    ensures ViewsInv(Apply(w, EnqueueAssignment(v)))
  {
    var w' := Apply(w, EnqueueAssignment(v));
    var a := At(w, v).hand.value;
    var e := a.executionId;
    ReportsInTable(At(w, v));
    assert Has(At(w, v), a);
    assert Linked(w.core, v, a);
    assert ExecutionInv(w, e);
    assert Good(ViewOf(w, e));
    NodeStepTouches(w, w', v, At(w', v), a.assignmentId, e);
    assert ViewOf(w', e) == ViewOf(w, e).(stage := Unstarted);
    TouchKeepsGood(w, w', e);
    SameCoreKeepsRest(w, w');
  }

  lemma InboxStepKeepsViews(w: World, w': World, v: string, n: Node)
    requires ViewsInv(w) && w' == Put(w, v, n).(scheduling := w'.scheduling)
    requires n.broker == At(w, v).broker && n.reports == At(w, v).reports
    ensures ViewsInv(w')
  {
    forall f | Resolves(w', f) ensures Good(ViewOf(w', f)) {
      assert Resolves(w, f) && Good(ViewOf(w, f));
      assert ViewOf(w', f) == ViewOf(w, f);
    }
    SameCoreKeepsRest(w, w');
  }

  // ---------------------------------------------------------------------------------------------
  // Steps of Core
  // ---------------------------------------------------------------------------------------------

  /** A step of Core on behalf of execution `e`: only its state, its job and that job's result may change. */
  ghost predicate CoreStepFor(core: C.CoreState, core': C.CoreState, e: string) {
    && e in core.executions && core'.executions.Keys == core.executions.Keys
    && core'.executions[e] == core.executions[e].(state := core'.executions[e].state)
    && (forall f :: f in core.executions && f != e ==> core'.executions[f] == core.executions[f])
    && var j := core.executions[e].jobId;
    && core'.jobs.Keys == core.jobs.Keys
    && (forall k :: k in core.jobs && k != j ==> core'.jobs[k] == core.jobs[k])
    && (forall k :: k != j ==> Find(core'.results, k) == Find(core.results, k))
  }

  /** A step of Core for report `id` of worker `v`: it may also change or drop that report. */
  ghost predicate ReportFrame(w: World, w': World, v: string, id: string, e: string) {
    && w'.nodes == w.nodes[v := At(w', v)] && At(w', v).broker == At(w, v).broker
    && (forall x :: x != id ==> Find(At(w', v).reports, x) == Find(At(w, v).reports, x))
    && CoreStepFor(w.core, w'.core, e)
  }

  lemma ReportStepTouches(w: World, w': World, v: string, id: string, e: string)
    requires LinksInv(w) && NodesInv(w) && id in At(w, v).broker.assignments
    requires e == At(w, v).broker.assignments[id].assignment.executionId
    requires ReportFrame(w, w', v, id, e)
    ensures OnlyTouches(w, w', e)
  {
    var owner := Owner(w, v, id);
    forall f | Resolves(w, f) && f != e ensures ViewOf(w', f) == ViewOf(w, f) {
      var x := w.core.executions[f];
      assert x.assignmentId != id && x.jobId != w.core.executions[e].jobId;
      if x.workerId != v {
        assert At(w', x.workerId) == At(w, x.workerId);
      }
    }
  }

  /** The report `id` of worker `v` is about execution `e`. */
  ghost predicate Reports(w: World, v: string, id: string, e: string) {
    && InFlight(w, v, id) && e == At(w, v).reports[id].executionId && Resolves(w, e)
    && w.core.executions[e].assignmentId == id && w.core.executions[e].workerId == v
  }

  /** A report in flight always names an execution and a job that exist. */
  lemma ReportResolves(w: World, v: string, id: string) returns (e: string)
    requires LinksInv(w) && NodesInv(w) && InFlight(w, v, id)
    ensures e == At(w, v).reports[id].executionId && Resolves(w, e)
    ensures id in At(w, v).broker.assignments && e == At(w, v).broker.assignments[id].assignment.executionId
    ensures ViewOf(w, e).report == Some(At(w, v).reports[id])
    ensures w.core.executions[e].assignmentId == id && w.core.executions[e].workerId == v
    ensures ReportInv(At(w, v), id)
    ensures w.core.executions[e].jobId in w.published
  {
    assert NodeInv(At(w, v));
    assert ReportInv(At(w, v), id);
    e := Owner(w, v, id);
    assert ExecutionInv(w, e);
  }

  lemma CoreStepKeepsRest(w: World, w': World, e: string)
    requires RestInv(w) && CoreStepFor(w.core, w'.core, e) && w.core.executions[e].jobId in w.published
    requires w'.published == w.published && w'.placeholders == w.placeholders
    ensures RestInv(w')
  {
    var j := w.core.executions[e].jobId;
    forall k | HasExecution(w, k) ensures HasExecution(w', k) {
      var f :| f in w.core.executions && w.core.executions[f].jobId == k;
      assert w'.core.executions[f].jobId == k;
    }
    assert HasExecution(w, j);
    forall k | k in w'.core.jobs && !HasExecution(w', k) ensures Untouched(w', k) {
      assert k != j && Untouched(w, k);
      assert Find(w'.core.results, k) == Find(w.core.results, k);
    }
    forall k | k in w'.core.results ensures k in w.published {
      assert k != j ==> Find(w'.core.results, k) == Find(w.core.results, k);
    }
  }

  /** It is enough to look at the execution that the report is about. */
  lemma ReportStepKeepsViews(w: World, w': World, v: string, id: string, e: string)
    requires LinksInv(w) && NodesInv(w) && ViewsInv(w) && Reports(w, v, id, e) && ReportFrame(w, w', v, id, e)
    requires id in At(w, v).broker.assignments && e == At(w, v).broker.assignments[id].assignment.executionId
    requires w.core.executions[e].jobId in w.published
    requires w'.published == w.published && w'.placeholders == w.placeholders
    requires Resolves(w', e) && Good(ViewOf(w', e))
    ensures ViewsInv(w')
  {
    CoreStepKeepsRest(w, w', e);
    ReportStepTouches(w, w', v, id, e);
    TouchKeepsGood(w, w', e);
  }

  lemma PersistFrame(w: World, v: string, id: string, e: string)
    requires Enabled(w, PersistResult(v, id)) && Reports(w, v, id, e)
    ensures ReportFrame(w, Apply(w, PersistResult(v, id)), v, id, e)
  {
  }

  lemma PersistViewIs(w: World, v: string, id: string, e: string)
    requires Enabled(w, PersistResult(v, id)) && Reports(w, v, id, e)
    ensures var w', r, view := Apply(w, PersistResult(v, id)), At(w, v).reports[id], ViewOf(w, e);
      Resolves(w', e) && ViewOf(w', e) ==
        view.(report := Some(r.(phase := Persisted)), stored := Some(C.Stored.Final(Final(r))))
  {
  }

  lemma PersistKeepsViews(w: World, v: string, id: string)
    requires LinksInv(w) && NodesInv(w) && ViewsInv(w) && Enabled(w, PersistResult(v, id))
    ensures ViewsInv(Apply(w, PersistResult(v, id)))
  {
    var w' := Apply(w, PersistResult(v, id));
    var e := ReportResolves(w, v, id);
    PersistFrame(w, v, id, e);
    PersistViewIs(w, v, id, e);
    PersistView(ViewOf(w, e), At(w, v).reports[id]);
    ReportStepKeepsViews(w, w', v, id, e);
  }

  lemma RecordFrame(w: World, v: string, id: string, e: string)
    requires Enabled(w, RecordState(v, id)) && Reports(w, v, id, e)
    ensures ReportFrame(w, Apply(w, RecordState(v, id)), v, id, e)
  {
  }

  lemma RecordViewIs(w: World, v: string, id: string, e: string)
    requires Enabled(w, RecordState(v, id)) && Reports(w, v, id, e)
    ensures var w', r, view := Apply(w, RecordState(v, id)), At(w, v).reports[id], ViewOf(w, e);
      Resolves(w', e) && ViewOf(w', e) == view.(report := Some(r.(phase := Recorded)), execution := r.state)
  {
  }

  lemma RecordKeepsViews(w: World, v: string, id: string)
    requires LinksInv(w) && NodesInv(w) && ViewsInv(w) && Enabled(w, RecordState(v, id))
    ensures ViewsInv(Apply(w, RecordState(v, id)))
  {
    var w' := Apply(w, RecordState(v, id));
    var e := ReportResolves(w, v, id);
    RecordFrame(w, v, id, e);
    RecordViewIs(w, v, id, e);
    RecordView(ViewOf(w, e), At(w, v).reports[id]);
    ReportStepKeepsViews(w, w', v, id, e);
  }

  lemma SettleFrame(w: World, v: string, id: string, e: string)
    requires Enabled(w, SettleJob(v, id)) && Reports(w, v, id, e)
    ensures ReportFrame(w, Apply(w, SettleJob(v, id)), v, id, e)
  {
  }

  lemma SettleViewIs(w: World, v: string, id: string, e: string)
    requires Enabled(w, SettleJob(v, id)) && Reports(w, v, id, e)
    ensures var w', r, view := Apply(w, SettleJob(v, id)), At(w, v).reports[id], ViewOf(w, e);
      Resolves(w', e) && ViewOf(w', e) == view.(report := None,
        job := if r.state.Terminal() then C.Settled(view.job, Final(r)) else C.Started(view.job))
  {
  }

  lemma SettleKeepsViews(w: World, v: string, id: string)
    requires LinksInv(w) && NodesInv(w) && ViewsInv(w) && Enabled(w, SettleJob(v, id))
    ensures ViewsInv(Apply(w, SettleJob(v, id)))
  {
    var w' := Apply(w, SettleJob(v, id));
    var e := ReportResolves(w, v, id);
    SettleFrame(w, v, id, e);
    SettleViewIs(w, v, id, e);
    SettleView(ViewOf(w, e), At(w, v).reports[id]);
    ReportStepKeepsViews(w, w', v, id, e);
  }

  lemma LoseFrame(w: World, v: string, id: string, e: string)
    requires Enabled(w, LoseReport(v, id)) && Reports(w, v, id, e)
    ensures ReportFrame(w, Apply(w, LoseReport(v, id)), v, id, e)
  {
  }

  lemma LoseViewIs(w: World, v: string, id: string, e: string)
    requires Enabled(w, LoseReport(v, id)) && Reports(w, v, id, e)
    ensures var w', r, view := Apply(w, LoseReport(v, id)), At(w, v).reports[id], ViewOf(w, e);
      Resolves(w', e) && ViewOf(w', e) == view.(report := None)
  {
  }

  lemma LoseKeepsViews(w: World, v: string, id: string)
    requires LinksInv(w) && NodesInv(w) && ViewsInv(w) && Enabled(w, LoseReport(v, id))
    ensures ViewsInv(Apply(w, LoseReport(v, id)))
  {
    var w' := Apply(w, LoseReport(v, id));
    var e := ReportResolves(w, v, id);
    LoseFrame(w, v, id, e);
    LoseViewIs(w, v, id, e);
    LoseView(ViewOf(w, e), At(w, v).reports[id]);
    ReportStepKeepsViews(w, w', v, id, e);
  }

  // ---------------------------------------------------------------------------------------------
  // Steps of accept and of the scheduler
  // ---------------------------------------------------------------------------------------------

  lemma AcceptKeepsRest(w: World, act: Action)
    requires RestInv(w) && Enabled(w, act) && (act.BeginAccept? || act.PublishTask? || act.FailPublish?)
    requires act.job !in w.published
    ensures RestInv(Apply(w, act))
  {
    var w' := Apply(w, act);
    assert forall j :: HasExecution(w', j) <==> HasExecution(w, j);
    forall j | j in w'.core.jobs && !HasExecution(w', j) ensures Untouched(w', j) {
      assert (act.BeginAccept? && j == act.job) || Untouched(w, j);
    }
  }

  lemma AcceptKeepsView(w: World, act: Action, f: string)
    requires Enabled(w, act) && (act.BeginAccept? || act.PublishTask? || act.FailPublish?)
    requires Resolves(Apply(w, act), f) && w.core.executions[f].jobId != act.job
    ensures Resolves(w, f) && ViewOf(Apply(w, act), f) == ViewOf(w, f)
  {
  }

  lemma AcceptKeepsViews(w: World, act: Action)
    requires PlacesInv(w) && LinksInv(w) && ViewsInv(w) && Enabled(w, act)
    requires act.BeginAccept? || act.PublishTask? || act.FailPublish?
    ensures ViewsInv(Apply(w, act))
  {
    var w' := Apply(w, act);
    assert act.job !in w.published;
    AcceptKeepsRest(w, act);
    forall f | Resolves(w', f) ensures Good(ViewOf(w', f)) {
      assert ExecutionInv(w, f);
      AcceptKeepsView(w, act, f);
    }
  }

  lemma PlaceholderKeepsViews(w: World, j: string)
    requires ViewsInv(w) && Enabled(w, StorePlaceholder(j))
    ensures ViewsInv(Apply(w, StorePlaceholder(j)))
  {
    var w' := Apply(w, StorePlaceholder(j));
    forall f | Resolves(w', f) ensures Good(ViewOf(w', f)) {
      assert Resolves(w, f) && Good(ViewOf(w, f));
      PlaceholderView(ViewOf(w, f));
    }
    assert forall k :: HasExecution(w', k) <==> HasExecution(w, k);
    forall k | k in w'.core.jobs && !HasExecution(w', k) ensures Untouched(w', k) {
      assert Untouched(w, k);
    }
  }

  lemma HeldJobHasNoExecution(w: World)
    requires LinksInv(w) && w.scheduling.Holding?
    ensures !HasExecution(w, w.scheduling.job)
  {
    forall f | f in w.core.executions ensures w.core.executions[f].jobId != w.scheduling.job {
      assert ExecutionInv(w, f);
    }
  }

  /** A new execution starts in agreement with its job. */
  lemma CreatedViewIsGood(w: World, a: string, e: string, task: string)
    requires PlacesInv(w) && LinksInv(w) && NodesInv(w) && RestInv(w) && Enabled(w, CreateExecution(a, e, task))
    ensures var w' := Apply(w, CreateExecution(a, e, task)); Resolves(w', e) && Good(ViewOf(w', e))
  {
    var w' := Apply(w, CreateExecution(a, e, task));
    var Holding(v, j) := w.scheduling;
    assert In(w, j, SchedulerHand);
    HeldJobHasNoExecution(w);
    assert Untouched(w, j);
    TableIdsAreIssued(w, v);
    ReportsInTable(At(w, v));
    assert ViewOf(w', e) == View(C.ExecAssigned, C.NEW_JOB, Undelivered, None, Find(w.core.results, j));
  }

  lemma CreateKeepsView(w: World, a: string, e: string, task: string, f: string)
    requires Enabled(w, CreateExecution(a, e, task)) && f != e && Resolves(Apply(w, CreateExecution(a, e, task)), f)
    ensures Resolves(w, f) && ViewOf(Apply(w, CreateExecution(a, e, task)), f) == ViewOf(w, f)
  {
  }

  lemma CreateKeepsViews(w: World, a: string, e: string, task: string)
    requires PlacesInv(w) && LinksInv(w) && NodesInv(w) && ViewsInv(w) && Enabled(w, CreateExecution(a, e, task))
    ensures ViewsInv(Apply(w, CreateExecution(a, e, task)))
  {
    var w' := Apply(w, CreateExecution(a, e, task));
    forall f | Resolves(w', f) ensures Good(ViewOf(w', f)) {
      if f == e {
        CreatedViewIsGood(w, a, e, task);
      } else {
        CreateKeepsView(w, a, e, task, f);
      }
    }
    CreateKeepsRest(w, a, e, task);
  }

  lemma CreateKeepsRest(w: World, a: string, e: string, task: string)
    requires LinksInv(w) && RestInv(w) && Enabled(w, CreateExecution(a, e, task))
    ensures RestInv(Apply(w, CreateExecution(a, e, task)))
  {
    var w' := Apply(w, CreateExecution(a, e, task));
    StepKeepsExecutions(w, CreateExecution(a, e, task));
    forall k | HasExecution(w, k) ensures HasExecution(w', k) {
      var f :| f in w.core.executions && w.core.executions[f].jobId == k;
      assert w'.core.executions[f].jobId == k;
    }
    forall k | k in w'.core.jobs && !HasExecution(w', k) ensures Untouched(w', k) {
      assert Untouched(w, k);
    }
  }

  lemma QuietStepKeepsViews(w: World, w': World)
    requires ViewsInv(w)
    requires w'.core == w.core && w'.nodes == w.nodes
    requires w'.published == w.published && w'.placeholders == w.placeholders
    ensures ViewsInv(w')
  {
    forall f | Resolves(w', f) ensures Good(ViewOf(w', f)) {
      assert Resolves(w, f) && Good(ViewOf(w, f));
      assert ViewOf(w', f) == ViewOf(w, f);
    }
    SameCoreKeepsRest(w, w');
  }

  /** The steps of `accept` and `schedule_one`. */
  lemma SchedulingStepKeepsViews(w: World, act: Action)
    requires AllInv(w) && Enabled(w, act) && !WorkerStep(act) && !ReportStep(act)
    ensures ViewsInv(Apply(w, act))
  {
    match act
    case BeginAccept(_) => AcceptKeepsViews(w, act);
    case PublishTask(_) => AcceptKeepsViews(w, act);
    case FailPublish(_) => AcceptKeepsViews(w, act);
    case StorePlaceholder(j) => PlaceholderKeepsViews(w, j);
    case ConsumeTask(_) => QuietStepKeepsViews(w, Apply(w, act));
    case CreateExecution(a, e, task) => CreateKeepsViews(w, a, e, task);
    case PublishAssignment =>
      InboxStepKeepsViews(w, Apply(w, act), w.scheduling.worker, At(Apply(w, act), w.scheduling.worker));
    case StopScheduler => QuietStepKeepsViews(w, Apply(w, act));
  }

  predicate WorkerStep(act: Action) {
    || act.ConsumeAssignment? || act.EnqueueAssignment? || act.StopWorker?
    || act.SessionCall? || act.ForwardStart? || act.ForwardFinish?
  }

  predicate ReportStep(act: Action) {
    act.PersistResult? || act.RecordState? || act.SettleJob? || act.LoseReport?
  }

  /** The steps of a worker and its sessions. */
  lemma WorkerStepKeepsViews(w: World, act: Action)
    requires AllInv(w) && Enabled(w, act) && WorkerStep(act)
    ensures ViewsInv(Apply(w, act))
  {
    match act
    case ConsumeAssignment(v) => InboxStepKeepsViews(w, Apply(w, act), v, At(Apply(w, act), v));
    case EnqueueAssignment(v) =>
      EnqueueNeverFails(w, v);
      EnqueueKeepsViews(w, v);
    case StopWorker(v) => InboxStepKeepsViews(w, Apply(w, act), v, At(Apply(w, act), v));
    case SessionCall(v, call, b) => SilentCallKeepsViews(w, v, call, b);
    case ForwardStart(v, id, e, n, now) => ForwardStartKeepsViews(w, v, id, e, n, now);
    case ForwardFinish(v, id, e, n, now, outcome) => ForwardFinishKeepsViews(w, v, id, e, n, now, outcome);
  }

  lemma StepKeepsViews(w: World, act: Action)
    requires AllInv(w) && Enabled(w, act)
    ensures ViewsInv(Apply(w, act))
  {
    if WorkerStep(act) {
      WorkerStepKeepsViews(w, act);
    } else if !ReportStep(act) {
      SchedulingStepKeepsViews(w, act);
    } else {
      match act
      case PersistResult(v, id) => PersistKeepsViews(w, v, id);
      case RecordState(v, id) => RecordKeepsViews(w, v, id);
      case SettleJob(v, id) => SettleKeepsViews(w, v, id);
      case LoseReport(v, id) => LoseKeepsViews(w, v, id);
    }
  }
}
