/**
 The steps of the end-to-end machine add up to the handlers: `accept`, `schedule_one`, `execute_one` and
 `handle_event`, with and without failing calls. (Module ProtocolTheorems does the same for `report_execution`.)
 */
module ProtocolHandlers {
  import opened Common
  import opened Assignments
  import opened Protocol
  import opened ProtocolLinks
  import C = Core
  import S = Scheduling
  import L = WorkerLoop
  import R = RuntimeService

  // ---------------------------------------------------------------------------------------------
  // accept
  // ---------------------------------------------------------------------------------------------

  /** Core's tables and the task list are what `accept` of job `j` leaves behind. */
  predicate Accepted(w: World, w': World, j: string, brokerUp: bool, backendUp: bool) {
    var (core, tasks, _) := C.AcceptTask(w.core, w.tasks, j, brokerUp, backendUp);
    w'.core == core && w'.tasks == tasks
  }

  /** Begin and roll back; begin and publish; begin, publish and store the placeholder. */
  lemma AcceptSteps(w: World, j: string)
    requires LinksInv(w) && Fresh(w, j)
    ensures Enabled(w, BeginAccept(j))
    ensures var w1 := Apply(w, BeginAccept(j));
      && Enabled(w1, FailPublish(j)) && Accepted(w, Apply(w1, FailPublish(j)), j, false, true)
      && Enabled(w1, PublishTask(j)) && Accepted(w, Apply(w1, PublishTask(j)), j, true, false)
      && var w2 := Apply(w1, PublishTask(j));
      && Enabled(w2, StorePlaceholder(j)) && Accepted(w, Apply(w2, StorePlaceholder(j)), j, true, true)
  {
    var w1 := Apply(w, BeginAccept(j));
    assert j !in w.core.jobs;
    assert Apply(w1, FailPublish(j)).core.jobs == w.core.jobs;
  }

  // ---------------------------------------------------------------------------------------------
  // schedule_one
  // ---------------------------------------------------------------------------------------------

  /** The scheduler's own state, as the machine has it. */
  predicate Mirrors(st: S.State, w: World) {
    && |st.tasks| == |w.tasks|
    && (forall i :: 0 <= i < |w.tasks| ==> st.tasks[i].correlation == Some(w.tasks[i]))
    && st.executions == w.core.executions
  }

  /** A round in which no task arrives meanwhile and no call before the store fails. */
  predicate Proceeds(st: S.State, round: S.Round) {
    && round.arrivals == [] && round.listing.Some? && round.listing.value != [] && !round.consumeFails
    && st.tasks != [] && st.tasks[0].request.Some?
  }

  /** Rounds that end before a task is consumed change nothing. */
  lemma IdleRounds(w: World, st: S.State, round: S.Round)
    requires Mirrors(st, w) && round.arrivals == []
    requires round.listing.None? || round.listing.value == [] || round.consumeFails || st.tasks == []
    ensures Mirrors(S.ScheduleOne(st, round).0, w)
  {
    assert st.tasks + [] == st.tasks;
  }

  /** Consuming is a round whose store call fails. */
  lemma ConsumeStep(w: World, st: S.State, round: S.Round)
    requires Mirrors(st, w) && Proceeds(st, round) && round.createFails && !w.schedulerStopped && w.scheduling.Idle?
    ensures Enabled(w, ConsumeTask(round.listing.value[0]))
    ensures var w1 := Apply(w, ConsumeTask(round.listing.value[0]));
      && Mirrors(S.ScheduleOne(st, round).0, w1)
      && w1.scheduling == Holding(round.listing.value[0], w.tasks[0])
  {
    assert st.tasks + [] == st.tasks;
  }

  /** What a round makes of the consumed task, without the failures of the store and the broker. */
  function Dispatched(st: S.State, round: S.Round): S.Dispatch
    requires Proceeds(st, round)
  {
    var j := S.JobId(st.tasks[0], round.freshJob);
    S.Dispatch(round.listing.value[0],
               Assignment(round.assignmentId, round.executionId, j, st.tasks[0].request.value), round.listing.value)
  }

  lemma RoundIs(st: S.State, round: S.Round)
    requires Proceeds(st, round) && !round.createFails && round.executionId !in st.executions
    ensures var (st', outcome) := S.ScheduleOne(st, round);
      var d := Dispatched(st, round);
      && st'.tasks == st.tasks[1..]
      && st'.executions == st.executions[round.executionId :=
           C.Execution(d.assignment.jobId, round.assignmentId, d.worker, C.ExecAssigned)]
      && outcome == if round.publishFails then S.Failed(S.PublishFailed) else S.Outcome.Assigned(d)
  {
    assert st.tasks + [] == st.tasks;
  }

  /** Consuming and creating is a round whose publish fails; publishing too is a round that assigns. */
  lemma ScheduleSteps(w: World, st: S.State, round: S.Round, w1: World)
    requires LinksInv(w) && Mirrors(st, w) && Proceeds(st, round) && !round.createFails
    requires !w.schedulerStopped && w.scheduling.Idle? && w1 == Apply(w, ConsumeTask(round.listing.value[0]))
    requires Fresh(w, round.assignmentId) && Fresh(w, round.executionId) && round.assignmentId != round.executionId
    ensures var d := Dispatched(st, round);
      var create := CreateExecution(round.assignmentId, round.executionId, d.assignment.task);
      && Enabled(w1, create)
      && var w2 := Apply(w1, create);
      && Mirrors(S.ScheduleOne(st, round).0, w2) && Enabled(w2, PublishAssignment)
      && var w3 := Apply(w2, PublishAssignment);
      && Mirrors(S.ScheduleOne(st, round).0, w3)
      && At(w3, d.worker) == At(w, d.worker).(inbox := At(w, d.worker).inbox + [d.assignment])
  {
    var e := round.executionId;
    assert e in w.core.executions ==> ExecutionInv(w, e);
    RoundIs(st, round);
  }

  // ---------------------------------------------------------------------------------------------
  // execute_one
  // ---------------------------------------------------------------------------------------------

  /** The machine's envelopes can all be decoded. */
  function Decodable(inbox: seq<Assignment>): seq<Option<Assignment>> {
    seq(|inbox|, i requires 0 <= i < |inbox| => Some(inbox[i]))
  }

  /** Consuming and enqueueing is one pass of the worker's loop; its error stops the loop with the item in hand. */
  lemma ExecuteSteps(w: World, v: string)
    requires Enabled(w, ConsumeAssignment(v))
    ensures var w1 := Apply(w, ConsumeAssignment(v));
      && Enabled(w1, EnqueueAssignment(v))
      && var n, n' := At(w, v), At(Apply(w1, EnqueueAssignment(v)), v);
      && var (inbox, st, r) := L.Execute(Decodable(n.inbox), n.broker, false);
      && Decodable(n'.inbox) == inbox && n'.broker == st
      && (r.Ok? ==> r.value == n.inbox[0] && n'.hand == None && !n'.stopped)
      && (r.Err? ==> n'.hand == Some(n.inbox[0]) && n'.stopped)
  {
    assert Decodable(At(w, v).inbox)[1..] == Decodable(At(w, v).inbox[1..]);
  }

  // ---------------------------------------------------------------------------------------------
  // handle_event
  // ---------------------------------------------------------------------------------------------

  predicate Reporting(ev: R.RuntimeEvent) {
    ev.ExecutionStarted? || ev.ExecutionCompleted? || ev.ExecutionFailed?
  }

  /** The machine's step for a start or finish event. */
  function ForwardFor(v: string, ev: R.RuntimeEvent, now: nat): Action
    requires Reporting(ev) && R.BrokerCall(ev, now).Ok?
  {
    match ev
    case ExecutionStarted(id, e, n, _) => ForwardStart(v, id, e, n, now)
    case ExecutionCompleted(id, e, n, result, _) => ForwardFinish(v, id, e, n, now, result.value)
    case ExecutionFailed(id, e, n, failure, _) => ForwardFinish(v, id, e, n, now, C.Outcome("", failure, ""))
  }

  /** A start or finish: possible exactly when the event is accepted, and it sends the event's report. */
  lemma ForwardIsHandledEvent(w: World, v: string, ev: R.RuntimeEvent, reading: R.Reading)
    requires Reporting(ev) && R.BrokerCall(ev, reading.now).Ok? && !InFlight(w, v, ev.id)
    ensures var (st, handled) := R.Handling(At(w, v).broker, ev, reading);
      var act := ForwardFor(v, ev, reading.now);
      && (Enabled(w, act) <==> handled.Ok?)
      && (handled.Ok? ==>
            && handled.value.Some? && At(Apply(w, act), v).broker == st
            && var request := handled.value.value.request;
            && request.state.Some?
            && At(Apply(w, act), v).reports ==
                 At(w, v).reports[ev.id := Report(request.executionId, request.state.value, request.outcome, Sent)])
  {
  }

  /** Progress and metrics: a silent session call exactly when the event is accepted. */
  lemma SessionCallIsHandledEvent(w: World, v: string, ev: R.RuntimeEvent, reading: R.Reading)
    requires ev.ExecutionProgress? || ev.ExecutionMetrics?
    ensures var (st, handled) := R.Handling(At(w, v).broker, ev, reading);
      var act := SessionCall(v, R.BrokerCall(ev, reading.now).value.value, st);
      && (Enabled(w, act) <==> handled.Ok?)
      && (handled.Ok? ==> handled.value.None? && At(Apply(w, act), v) == At(w, v).(broker := st))
  {
  }
}
