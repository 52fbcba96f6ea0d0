/**
 The end-to-end job protocol as interleaved steps: Core's `accept` and `report_execution`
 (src/api/grpc.rs), the scheduler's `schedule_one` (src/scheduler/scheduler.rs), the worker's `execute_one`
 (src/worker/worker.rs) and the session events of the assignment broker (src/worker/runtime.rs).

 Assumptions: one control plane; UUIDs are fresh; a failed broker or store call changes nothing; codecs are
 lossless; events of one assignment are handled one after another; a failed forward is not processed later.
 */
module Protocol {
  import opened Common
  import opened Assignments
  import C = Core
  import Text

  /** How far Core got with a report: received, result persisted, execution state recorded. */
  datatype Phase = Sent | Persisted | Recorded

  datatype Report = Report(
    executionId: string,
    state: C.ExecutionState,
    outcome: Option<C.Outcome>,
    phase: Phase)

  /** One worker: its broker list, the envelope in its hand, its assignment broker, its reports in flight. */
  datatype Node = Node(
    inbox: seq<Assignment>,
    hand: Option<Assignment>,
    broker: PendingState,
    reports: map<string, Report>,
    stopped: bool)

  const NEW_NODE := Node([], None, EMPTY, map[], false)

  /** What the scheduler has in hand: a consumed task, or an assignment whose execution was recorded. */
  datatype Scheduling =
    | Idle
    | Holding(worker: string, job: string)
    | Created(worker: string, assignment: Assignment)

  /** `published` and `issued` are history: the published jobs and the ids in use. */
  datatype World = World(
    core: C.CoreState,
    accepting: set<string>,
    placeholders: set<string>,
    tasks: seq<string>,
    scheduling: Scheduling,
    schedulerStopped: bool,
    nodes: map<string, Node>,
    published: set<string>,
    issued: set<string>)

  const START :=
    World(C.CoreState(map[], map[], map[]), {}, {}, [], Idle, false, map[], {}, {})

  /** A worker nobody has sent anything to yet is a new node. */
  function At(w: World, v: string): Node {
    if v in w.nodes then w.nodes[v] else NEW_NODE
  }

  function Put(w: World, v: string, n: Node): World {
    w.(nodes := w.nodes[v := n])
  }

  datatype Action =
    // accept
    | BeginAccept(job: string)
    | PublishTask(job: string)
    | FailPublish(job: string)
    | StorePlaceholder(job: string)
    // schedule_one
    | ConsumeTask(worker: string)
    | CreateExecution(assignmentId: string, executionId: string, task: string)
    | PublishAssignment
    | StopScheduler
    // execute_one
    | ConsumeAssignment(worker: string)
    | EnqueueAssignment(worker: string)
    | StopWorker(worker: string)
    // runtime sessions
    | SessionCall(worker: string, call: Call, broker: PendingState)
    | ForwardStart(worker: string, id: string, executionId: string, sequence: nat, now: nat)
    | ForwardFinish(worker: string, id: string, executionId: string, sequence: nat, now: nat, outcome: C.Outcome)
    // report_execution
    | PersistResult(worker: string, id: string)
    | RecordState(worker: string, id: string)
    | SettleJob(worker: string, id: string)
    | LoseReport(worker: string, id: string)

  predicate Fresh(w: World, id: string) {
    id !in w.issued && !Text.Blank(id)
  }

  /** Calls that do not produce a report and are not `enqueue`. */
  predicate Silent(call: Call) {
    match call
    case Enqueued(_) => false
    case Handled(_, _, ev) => ev.Progress? || ev.Metrics?
    case _ => true
  }

  predicate InFlight(w: World, v: string, id: string) {
    id in At(w, v).reports
  }

  /** Core resolves the execution and its job before it changes anything. */
  predicate Resolves(w: World, e: string) {
    e in w.core.executions && w.core.executions[e].jobId in w.core.jobs
  }

  ghost predicate Enabled(w: World, act: Action) {
    match act
    case BeginAccept(j) => Fresh(w, j)
    case PublishTask(j) => j in w.accepting
    case FailPublish(j) => j in w.accepting
    case StorePlaceholder(j) => j in w.placeholders
    case ConsumeTask(_) => !w.schedulerStopped && w.scheduling.Idle? && w.tasks != []
    case CreateExecution(a, e, _) =>
      !w.schedulerStopped && w.scheduling.Holding? && Fresh(w, a) && Fresh(w, e) && a != e
    case PublishAssignment => !w.schedulerStopped && w.scheduling.Created?
    case StopScheduler => !w.schedulerStopped
    case ConsumeAssignment(v) => !At(w, v).stopped && At(w, v).hand.None? && At(w, v).inbox != []
    case EnqueueAssignment(v) => !At(w, v).stopped && At(w, v).hand.Some?
    case StopWorker(v) => !At(w, v).stopped
    case SessionCall(v, call, b) => Silent(call) && Step(At(w, v).broker, call, b)
    case ForwardStart(v, id, e, n, now) =>
      !InFlight(w, v, id) && Handle(At(w, v).broker, id, e, Started(n, now)).Ok?
    case ForwardFinish(v, id, e, n, now, outcome) =>
      !InFlight(w, v, id) && Handle(At(w, v).broker, id, e, Finished(n, outcome.failure.None?, now)).Ok?
    case PersistResult(v, id) =>
      InFlight(w, v, id) && var r := At(w, v).reports[id];
      r.phase.Sent? && r.state.Terminal() && r.outcome.Some? && Resolves(w, r.executionId)
    case RecordState(v, id) =>
      InFlight(w, v, id) && var r := At(w, v).reports[id];
      (if r.state.Terminal() then r.phase.Persisted? else r.phase.Sent?) && Resolves(w, r.executionId)
    case SettleJob(v, id) =>
      InFlight(w, v, id) && var r := At(w, v).reports[id];
      r.phase.Recorded? && Resolves(w, r.executionId) && (r.state.Terminal() ==> r.outcome.Some?)
    case LoseReport(v, id) => InFlight(w, v, id) && !At(w, v).reports[id].phase.Recorded?
  }

  function Final(r: Report): C.Outcome
    requires r.outcome.Some?
  {
    r.outcome.value.(executionId := r.executionId)
  }

  function JobOf(w: World, e: string): string
    requires e in w.core.executions
  {
    w.core.executions[e].jobId
  }

  function SetPhase(w: World, v: string, id: string, phase: Phase): World
    requires InFlight(w, v, id)
  {
    var n := At(w, v);
    Put(w, v, n.(reports := n.reports[id := n.reports[id].(phase := phase)]))
  }

  function DropReport(w: World, v: string, id: string): World {
    var n := At(w, v);
    Put(w, v, n.(reports := n.reports - {id}))
  }

  function SetJob(w: World, j: string, job: C.Job): World {
    w.(core := w.core.(jobs := w.core.jobs[j := job]))
  }

  function EnqueueAt(w: World, v: string): World
    requires At(w, v).hand.Some?
  {
    var n := At(w, v);
    match Enqueue(n.broker, n.hand.value)
    case Ok(b) => Put(w, v, n.(broker := b, hand := None))
    case Err(_) => Put(w, v, n.(stopped := true))
  }

  function Forward(w: World, v: string, id: string, e: string, ev: Event,
                   x: C.ExecutionState, outcome: Option<C.Outcome>): World
    requires Handle(At(w, v).broker, id, e, ev).Ok?
  {
    var n := At(w, v);
    Put(w, v, n.(broker := Handle(n.broker, id, e, ev).value,
                 reports := n.reports[id := Report(e, x, outcome, Sent)]))
  }

  function Persist(w: World, v: string, id: string): World
    requires InFlight(w, v, id)
    requires var r := At(w, v).reports[id]; r.outcome.Some? && r.executionId in w.core.executions
  {
    var r := At(w, v).reports[id];
    var w1 := SetPhase(w, v, id, Persisted);
    w1.(core := w.core.(results := w.core.results[JobOf(w, r.executionId) := C.Stored.Final(Final(r))]))
  }

  function Store(w: World, j: string): World {
    w.(placeholders := w.placeholders - {j},
       core := w.core.(results := w.core.results[j := C.Placeholder]))
  }

  ghost function Apply(w: World, act: Action): World
    requires Enabled(w, act)
  {
    match act
    case BeginAccept(j) =>
      SetJob(w, j, C.NEW_JOB).(accepting := w.accepting + {j}, issued := w.issued + {j})
    case PublishTask(j) =>
      w.(accepting := w.accepting - {j}, tasks := w.tasks + [j],
         published := w.published + {j}, placeholders := w.placeholders + {j})
    case FailPublish(j) =>
      w.(accepting := w.accepting - {j}, core := w.core.(jobs := w.core.jobs - {j}))
    case StorePlaceholder(j) => Store(w, j)
    case ConsumeTask(v) => w.(scheduling := Holding(v, w.tasks[0]), tasks := w.tasks[1..])
    case CreateExecution(a, e, task) =>
      var Holding(v, j) := w.scheduling;
      w.(scheduling := Created(v, Assignment(a, e, j, task)),
         core := w.core.(executions := w.core.executions[e := C.Execution(j, a, v, C.ExecAssigned)]),
         issued := w.issued + {a, e})
    case PublishAssignment =>
      var Created(v, a) := w.scheduling;
      Put(w, v, At(w, v).(inbox := At(w, v).inbox + [a])).(scheduling := Idle)
    case StopScheduler => w.(schedulerStopped := true)
    case ConsumeAssignment(v) =>
      var n := At(w, v);
      Put(w, v, n.(inbox := n.inbox[1..], hand := Some(n.inbox[0])))
    case EnqueueAssignment(v) => EnqueueAt(w, v)
    case StopWorker(v) => Put(w, v, At(w, v).(stopped := true))
    case SessionCall(v, _, b) => Put(w, v, At(w, v).(broker := b))
    case ForwardStart(v, id, e, n, now) => Forward(w, v, id, e, Started(n, now), C.ExecRunning, None)
    case ForwardFinish(v, id, e, n, now, outcome) =>
      Forward(w, v, id, e, Finished(n, outcome.failure.None?, now),
              if outcome.failure.None? then C.ExecSucceeded else C.ExecFailed, Some(outcome))
    case PersistResult(v, id) => Persist(w, v, id)
    case RecordState(v, id) =>
      var r := At(w, v).reports[id];
      SetPhase(w, v, id, Recorded).(core := C.Record(w.core, r.executionId, r.state))
    case SettleJob(v, id) =>
      var r := At(w, v).reports[id];
      var j := JobOf(w, r.executionId);
      var job := w.core.jobs[j];
      SetJob(DropReport(w, v, id), j, if r.state.Terminal() then C.Settled(job, Final(r)) else C.Started(job))
    case LoseReport(v, id) => DropReport(w, v, id)
  }

  // ---------------------------------------------------------------------------------------------
  // Runs
  // ---------------------------------------------------------------------------------------------

  ghost predicate Legal(acts: seq<Action>)
    decreases |acts|, 0
  {
    acts == [] ||
    var n := |acts| - 1;
    Legal(acts[..n]) && Enabled(Exec(acts[..n]), acts[n])
  }

  ghost function Exec(acts: seq<Action>): World
    requires Legal(acts)
    decreases |acts|, 1
  {
    if acts == [] then START
    else Apply(Exec(acts[..|acts| - 1]), acts[|acts| - 1])
  }

  // ---------------------------------------------------------------------------------------------
  // Where a job is
  // ---------------------------------------------------------------------------------------------

  datatype Place =
    | TaskList
    | SchedulerHand
    | Inbox(worker: string)
    | WorkerHand(worker: string)
    | Table(worker: string)

  predicate InboxHas(inbox: seq<Assignment>, j: string) {
    exists i :: 0 <= i < |inbox| && inbox[i].jobId == j
  }

  ghost predicate TableHas(table: map<string, Record>, j: string) {
    exists id :: id in table && table[id].assignment.jobId == j
  }

  predicate SchedulerHas(s: Scheduling, j: string) {
    match s
    case Idle => false
    case Holding(_, k) => k == j
    case Created(_, a) => a.jobId == j
  }

  ghost predicate In(w: World, j: string, p: Place) {
    match p
    case TaskList => j in w.tasks
    case SchedulerHand => SchedulerHas(w.scheduling, j)
    case Inbox(v) => InboxHas(At(w, v).inbox, j)
    case WorkerHand(v) => At(w, v).hand.Some? && At(w, v).hand.value.jobId == j
    case Table(v) => TableHas(At(w, v).broker.assignments, j)
  }

  /** The places in the order a job visits them. */
  predicate Next(p: Place, q: Place) {
    match p
    case TaskList => q.SchedulerHand?
    case SchedulerHand => q.Inbox?
    case Inbox(v) => q == WorkerHand(v)
    case WorkerHand(v) => q == Table(v)
    case Table(_) => false
  }

  /** An assignment that has reached worker `v`, wherever it is there. */
  ghost predicate Has(n: Node, a: Assignment) {
    || a in n.inbox
    || n.hand == Some(a)
    || (a.assignmentId in n.broker.assignments && n.broker.assignments[a.assignmentId].assignment == a)
  }

  /** The execution record an assignment of worker `v` must have. */
  predicate Linked(core: C.CoreState, v: string, a: Assignment) {
    && a.executionId in core.executions
    && core.executions[a.executionId].jobId == a.jobId
    && core.executions[a.executionId].assignmentId == a.assignmentId
    && core.executions[a.executionId].workerId == v
  }
}
