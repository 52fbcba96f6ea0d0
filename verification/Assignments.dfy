/**
 The worker's assignment broker (src/worker/runtime.rs): a FIFO queue of assignment ids, a table of
 assignment records and a table of connected runtime sessions.

 `PendingState` is the value guarded by the broker's mutex, and each function or relation on it is one
 lock-protected section. `PendingBroker.PendingExecutions` performs the same sections in place.
 */
module Assignments {
  import opened Common
  import Text

  datatype AssignmentState = Pending | Assigned | Running | Succeeded | Failed {
    predicate Terminal() {
      Succeeded? || Failed?
    }
  }

  /** The fields of an assignment that the broker reads; `task` stands for all the others. */
  datatype Assignment = Assignment(assignmentId: string, executionId: string, jobId: string, task: string)

  /** A metrics event; `data` stands for the measurements themselves. */
  datatype Sample = Sample(sequence: nat, data: string)

  datatype Record = Record(
    assignment: Assignment,
    state: AssignmentState,
    lastSequence: Option<nat>,
    session: Option<string>,
    startedAt: Option<nat>,
    workerDuration: Option<nat>,
    metrics: seq<Sample>)

  /** A session's sender is identified by the session id, so the session table is a set of ids. */
  datatype PendingState = PendingState(
    queue: seq<string>,
    assignments: map<string, Record>,
    sessions: set<string>)

  /** Lifecycle events of one execution. `now` is the clock reading taken while handling the event. */
  datatype Event =
    | Started(sequence: nat, now: nat)
    | Progress(sequence: nat, inRange: bool)
    | Metrics(sample: Sample)
    | Finished(sequence: nat, succeeded: bool, now: nat)
  {
    function Number(): nat {
      match this
      case Started(n, _) => n
      case Progress(n, _) => n
      case Metrics(sample) => sample.sequence
      case Finished(n, _, _) => n
    }
  }

  datatype Error =
    | BlankIdentifier
    | AlreadyExists
    | AssignmentNotFound
    | ExecutionMismatch
    | StaleEvent
    | InvalidTransition
    | ProgressOutOfRange
    | NotRunning
    | NotStarted
    | NoConnectedRuntime
    | SessionDisconnected

  const EMPTY := PendingState([], map[], {})

  // ---------------------------------------------------------------------------------------------
  // The lock-protected sections
  // ---------------------------------------------------------------------------------------------

  function NewRecord(a: Assignment): Record {
    Record(a, Pending, None, None, None, None, [])
  }

  function Enqueue(st: PendingState, a: Assignment): Result<PendingState, Error> {
    if Text.Blank(a.assignmentId) || Text.Blank(a.executionId) then Err(BlankIdentifier)
    else if a.assignmentId in st.assignments then Err(AlreadyExists)
    else Ok(st.(queue := st.queue + [a.assignmentId],
                assignments := st.assignments[a.assignmentId := NewRecord(a)]))
  }

  function HandOut(st: PendingState, session: string): PendingState
    requires st.queue != [] && st.queue[0] in st.assignments
  {
    var id := st.queue[0];
    st.(queue := st.queue[1..],
        assignments := st.assignments[id := st.assignments[id].(state := Assigned, session := Some(session))])
  }

  /** What a disconnect of `session` does to one record. */
  function Released(r: Record, session: string): Record {
    if r.session != Some(session) then r
    else if r.state == Assigned then r.(state := Pending, session := None)
    else r.(session := None)
  }

  function HeldBy(assignments: map<string, Record>, session: string): set<string> {
    set id | id in assignments && assignments[id].state == Assigned && assignments[id].session == Some(session)
  }

  /** The records are visited in any order, so the requeued ids may be appended in any order. */
  ghost predicate Disconnect(st: PendingState, session: string, st': PendingState) {
    && st'.sessions == st.sessions - {session}
    && st'.assignments == (map id | id in st.assignments :: Released(st.assignments[id], session))
    && IsPrefix(st.queue, st'.queue)
    && var requeued := st'.queue[|st.queue|..];
    && NoDuplicates(requeued)
    && Elements(requeued) == HeldBy(st.assignments, session)
  }

  function Elapsed(start: nat, now: nat): nat {
    if now >= start then now - start else 0
  }

  /** The lifecycle part of an event, after the record was found. */
  function Advance(r: Record, executionId: string, ev: Event): Result<Record, Error> {
    if r.assignment.executionId != executionId then Err(ExecutionMismatch)
    else if r.lastSequence.Some? && ev.Number() <= r.lastSequence.value then Err(StaleEvent)
    else match ev
      case Started(n, now) =>
        if r.state != Assigned then Err(InvalidTransition)
        else Ok(r.(state := Running, lastSequence := Some(n), startedAt := Some(now)))
      case Progress(n, _) =>
        if r.state != Running then Err(NotRunning)
        else Ok(r.(lastSequence := Some(n)))
      case Metrics(sample) =>
        if r.state != Running then Err(NotRunning)
        else Ok(r.(lastSequence := Some(sample.sequence), metrics := r.metrics + [sample]))
      case Finished(n, succeeded, now) =>
        if r.state != Running then Err(InvalidTransition)
        else if r.startedAt.None? then Err(NotStarted)
        else Ok(r.(state := if succeeded then Succeeded else Failed,
                   lastSequence := Some(n),
                   workerDuration := Some(Elapsed(r.startedAt.value, now)),
                   session := None))
  }

  function Handle(st: PendingState, id: string, executionId: string, ev: Event): Result<PendingState, Error> {
    if ev.Progress? && !ev.inRange then Err(ProgressOutOfRange)
    else if id !in st.assignments then Err(AssignmentNotFound)
    else match Advance(st.assignments[id], executionId, ev)
      case Err(e) => Err(e)
      case Ok(r) => Ok(st.(assignments := st.assignments[id := r]))
  }

  // ---------------------------------------------------------------------------------------------
  // The broker as a state machine
  // ---------------------------------------------------------------------------------------------

  /** The accepted calls. A rejected call changes nothing, so it is not a step. */
  datatype Call =
    | Enqueued(assignment: Assignment)
    | Connected(session: string)
    | HandedOut(session: string, id: string)
    | Disconnected(session: string)
    | Handled(id: string, executionId: string, event: Event)

  ghost predicate Step(st: PendingState, call: Call, st': PendingState) {
    match call
    case Enqueued(a) => Enqueue(st, a) == Ok(st')
    case Connected(s) => st' == st.(sessions := st.sessions + {s})
    case HandedOut(s, id) =>
      && st.queue != [] && st.queue[0] == id && id in st.assignments
      && st' == HandOut(st, s)
    case Disconnected(s) => Disconnect(st, s, st')
    case Handled(id, e, ev) => Handle(st, id, e, ev) == Ok(st')
  }

  /** `states` are the successive broker states and `calls` the accepted calls between them. */
  ghost predicate IsRun(states: seq<PendingState>, calls: seq<Call>) {
    && |states| == |calls| + 1
    && states[0] == EMPTY
    && forall i :: 0 <= i < |calls| ==> Step(states[i], calls[i], states[i + 1])
  }

  /** The fields a record may carry in each lifecycle state. */
  predicate RecordInv(r: Record) {
    && (r.state.Pending? ==> r.session.None?)
    && (r.state.Assigned? ==> r.session.Some?)
    && (r.state.Terminal() ==> r.session.None?)
    && (r.lastSequence.Some? <==> r.state.Running? || r.state.Terminal())
    && (r.startedAt.Some? <==> r.state.Running? || r.state.Terminal())
    && (r.workerDuration.Some? <==> r.state.Terminal())
    && (r.metrics != [] ==> r.state.Running? || r.state.Terminal())
  }

  predicate TableInv(assignments: map<string, Record>) {
    forall id :: id in assignments ==>
      && RecordInv(assignments[id])
      && assignments[id].assignment.assignmentId == id
      && !Text.Blank(id)
      && !Text.Blank(assignments[id].assignment.executionId)
  }

  predicate QueueInv(st: PendingState) {
    && NoDuplicates(st.queue)
    && (forall id :: id in st.queue ==> id in st.assignments && st.assignments[id].state == Pending)
    && (forall id :: id in st.assignments && st.assignments[id].state == Pending ==> id in st.queue)
  }

  /** The broker invariant. */
  predicate Inv(st: PendingState) {
    TableInv(st.assignments) && QueueInv(st)
  }

  // ---------------------------------------------------------------------------------------------
  // Every step keeps the invariant
  // ---------------------------------------------------------------------------------------------

  lemma EnqueueKeepsInv(st: PendingState, a: Assignment)
    requires Inv(st) && Enqueue(st, a).Ok?
    ensures Inv(Enqueue(st, a).value)
  {
    var st' := Enqueue(st, a).value;
    assert a.assignmentId !in st.queue;
    NoDuplicatesAppend(st.queue, a.assignmentId);
    forall id | id in st'.assignments && st'.assignments[id].state == Pending
      ensures id in st'.queue
    {
      if id != a.assignmentId {
        assert id in st.queue;
      } else {
        assert st'.queue[|st.queue|] == id;
      }
    }
  }

  lemma HandOutKeepsInv(st: PendingState, s: string)
    requires Inv(st) && st.queue != []
    ensures st.queue[0] in st.assignments && Inv(HandOut(st, s))
  {
    var id := st.queue[0];
    var st' := HandOut(st, s);
    forall x | x in st'.queue
      ensures x in st'.assignments && st'.assignments[x].state == Pending
    {
      var i :| 0 <= i < |st'.queue| && st'.queue[i] == x;
      assert st.queue[i + 1] == x;
    }
    forall x | x in st'.assignments && st'.assignments[x].state == Pending
      ensures x in st'.queue
    {
      assert x in st.queue;
      var i :| 0 <= i < |st.queue| && st.queue[i] == x;
      assert st'.queue[i - 1] == x;
    }
  }

  lemma ReleasedTableInv(table: map<string, Record>, s: string)
    requires TableInv(table)
    ensures TableInv(map id | id in table :: Released(table[id], s))
  {
  }

  lemma DisconnectKeepsInv(st: PendingState, s: string, st': PendingState)
    requires Inv(st) && Disconnect(st, s, st')
    ensures Inv(st')
  {
    ReleasedTableInv(st.assignments, s);
    var requeued := st'.queue[|st.queue|..];
    assert st'.queue == st.queue + requeued;
    forall x ensures x in requeued <==> x in HeldBy(st.assignments, s) {
      assert x in requeued <==> x in Elements(requeued);
    }
    NoDuplicatesConcat(st.queue, requeued);
  }

  lemma AdvanceKeepsRecord(r: Record, e: string, ev: Event)
    requires RecordInv(r) && Advance(r, e, ev).Ok?
    ensures var r' := Advance(r, e, ev).value;
      RecordInv(r') && r'.assignment == r.assignment && !r.state.Pending? && !r'.state.Pending?
  {
  }

  /** Replacing a record that is not queued by another such record. */
  lemma PutKeepsInv(st: PendingState, id: string, r: Record)
    requires Inv(st) && id in st.assignments && RecordInv(r) && r.assignment == st.assignments[id].assignment
    requires !st.assignments[id].state.Pending? && !r.state.Pending?
    ensures Inv(st.(assignments := st.assignments[id := r]))
  {
  }

  lemma HandleKeepsInv(st: PendingState, id: string, e: string, ev: Event)
    requires Inv(st) && Handle(st, id, e, ev).Ok?
    ensures Inv(Handle(st, id, e, ev).value)
  {
    AdvanceKeepsRecord(st.assignments[id], e, ev);
    PutKeepsInv(st, id, Advance(st.assignments[id], e, ev).value);
  }

  lemma StepKeepsInv(st: PendingState, call: Call, st': PendingState)
    requires Inv(st) && Step(st, call, st')
    ensures Inv(st')
  {
    match call
    case Enqueued(a) => EnqueueKeepsInv(st, a);
    case Connected(s) =>
    case HandedOut(s, id) => HandOutKeepsInv(st, s);
    case Disconnected(s) => DisconnectKeepsInv(st, s, st');
    case Handled(id, e, ev) => HandleKeepsInv(st, id, e, ev);
  }

  /** The broker invariant holds in every reachable state. */
  lemma {:induction false} RunsKeepInv(states: seq<PendingState>, calls: seq<Call>, i: nat)
    requires IsRun(states, calls) && i < |states|
    ensures Inv(states[i])
  {
    if i > 0 {
      RunsKeepInv(states, calls, i - 1);
      StepKeepsInv(states[i - 1], calls[i - 1], states[i]);
    }
  }

  /**
   In every reachable state a queued id has a record, so handing out never finds the queue ahead of the
   table, and no event is ever refused because its execution "was not started".
   */
  lemma InternalErrorsAreUnreachable(states: seq<PendingState>, calls: seq<Call>, i: nat)
    requires IsRun(states, calls) && i < |states|
    ensures states[i].queue != [] ==> states[i].queue[0] in states[i].assignments
    ensures forall id, e, ev :: Handle(states[i], id, e, ev) != Err(NotStarted)
  {
    RunsKeepInv(states, calls, i);
  }

  /** Disconnecting never touches running or finished work, and leaves nothing owned by the session. */
  lemma DisconnectConservesWork(st: PendingState, s: string, st': PendingState)
    requires Inv(st) && Disconnect(st, s, st')
    ensures IsPrefix(st.queue, st'.queue)
    ensures forall id :: id in st'.queue[|st.queue|..] <==> id in HeldBy(st.assignments, s)
    ensures |st'.queue| == |st.queue| + |HeldBy(st.assignments, s)|
    ensures st'.assignments.Keys == st.assignments.Keys
    ensures forall id :: id in st.assignments && st.assignments[id].state != Assigned ==>
      st'.assignments[id] == st.assignments[id].(session := st'.assignments[id].session)
    ensures forall id :: id in st'.assignments ==> st'.assignments[id].session != Some(s)
    ensures forall id :: id in st.assignments && st.assignments[id].session != Some(s) ==>
      st'.assignments[id] == st.assignments[id]
  {
    var requeued := st'.queue[|st.queue|..];
    assert forall x :: x in requeued <==> x in Elements(requeued);
    LengthIsCardinality(requeued);
  }

  lemma {:induction false} LengthIsCardinality<T>(s: seq<T>)
    requires NoDuplicates(s)
    ensures |s| == |Elements(s)|
  {
    if s != [] {
      var n := |s| - 1;
      LengthIsCardinality(s[..n]);
      assert Elements(s) == Elements(s[..n]) + {s[n]};
    }
  }
}
