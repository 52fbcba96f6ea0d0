/**
 The assignment records as a function of the accepted calls (src/worker/runtime.rs): every field of a record,
 over every run of the broker, and the exact condition for every answer to an event.
 */
module AssignmentHistory {
  import opened Common
  import opened Assignments
  import Text

  // ---------------------------------------------------------------------------------------------
  // Answers
  // ---------------------------------------------------------------------------------------------

  /** The event names a known assignment and its execution, and is newer than the last one. */
  predicate Current(st: PendingState, id: string, e: string, ev: Event) {
    && (ev.Progress? ==> ev.inRange)
    && id in st.assignments && st.assignments[id].assignment.executionId == e
    && (st.assignments[id].lastSequence.Some? ==> st.assignments[id].lastSequence.value < ev.Number())
  }

  /** Which answer an event gets: the exact condition for each. */
  lemma HandleAnswersExactlyWhen(st: PendingState, id: string, e: string, ev: Event)
    requires Inv(st)
    ensures var r := Handle(st, id, e, ev);
      var offScale := ev.Progress? && !ev.inRange;
      var known := !offScale && id in st.assignments;
      && (r == Err(ProgressOutOfRange) <==> offScale)
      && (r == Err(AssignmentNotFound) <==> !offScale && id !in st.assignments)
      && (r == Err(ExecutionMismatch) <==> known && st.assignments[id].assignment.executionId != e)
      && (r == Err(StaleEvent) <==>
            known && st.assignments[id].assignment.executionId == e && !Current(st, id, e, ev))
      && (r == Err(InvalidTransition) <==>
            && Current(st, id, e, ev)
            && (ev.Started? || ev.Finished?)
            && st.assignments[id].state != if ev.Started? then Assigned else Running)
      && (r == Err(NotRunning) <==>
            Current(st, id, e, ev) && (ev.Progress? || ev.Metrics?) && st.assignments[id].state != Running)
      && (r.Ok? <==> Current(st, id, e, ev) && st.assignments[id].state == if ev.Started? then Assigned else Running)
  {
    if id in st.assignments {
      assert RecordInv(st.assignments[id]);
    }
  }

  /** Which answer an enqueue gets, and that it adds one record and one queue entry. */
  lemma EnqueueAnswersExactlyWhen(st: PendingState, a: Assignment)
    ensures var r := Enqueue(st, a);
      var blank := Text.Blank(a.assignmentId) || Text.Blank(a.executionId);
      && (r == Err(BlankIdentifier) <==> blank)
      && (r == Err(AlreadyExists) <==> !blank && a.assignmentId in st.assignments)
      && (r.Ok? <==> !blank && a.assignmentId !in st.assignments)
      && (r.Ok? ==>
            && r.value.queue == st.queue + [a.assignmentId] && r.value.sessions == st.sessions
            && r.value.assignments.Keys == st.assignments.Keys + {a.assignmentId}
            && r.value.assignments[a.assignmentId].assignment == a
            && forall id :: id in st.assignments ==> r.value.assignments[id] == st.assignments[id])
  {
  }

  // ---------------------------------------------------------------------------------------------
  // What the accepted calls say about an assignment
  // ---------------------------------------------------------------------------------------------

  /** The accepted events on `id` among the first `n` calls, in order. */
  function Events(calls: seq<Call>, id: string, n: nat): seq<Event>
    requires n <= |calls|
  {
    if n == 0 then []
    else
      var before := Events(calls, id, n - 1);
      if calls[n - 1].Handled? && calls[n - 1].id == id then before + [calls[n - 1].event] else before
  }

  /** A hand-out makes its session the holder; its disconnect and the end of the execution end that. */
  function HolderAfter(holder: Option<string>, call: Call, id: string): Option<string> {
    match call
    case HandedOut(s, x) => if x == id then Some(s) else holder
    case Disconnected(s) => if holder == Some(s) then None else holder
    case Handled(x, _, ev) => if x == id && ev.Finished? then None else holder
    case _ => holder
  }

  /** The session that took `id` last and has neither disconnected nor finished it since. */
  function Holder(calls: seq<Call>, id: string, n: nat): Option<string>
    requires n <= |calls|
  {
    if n == 0 then None else HolderAfter(Holder(calls, id, n - 1), calls[n - 1], id)
  }

  /** The call among the first `n` that enqueued the assignment. */
  predicate EnqueuedBy(calls: seq<Call>, a: Assignment, n: nat) {
    exists i :: 0 <= i < n <= |calls| && calls[i] == Enqueued(a)
  }

  function Samples(events: seq<Event>): seq<Sample> {
    if events == [] then []
    else
      var n := |events| - 1;
      Samples(events[..n]) + if events[n].Metrics? then [events[n].sample] else []
  }

  predicate Ended(events: seq<Event>) {
    events != [] && events[|events| - 1].Finished?
  }

  /** The first event starts the execution, no other does, and only the last may end it; progress is in range. */
  predicate Ordered(events: seq<Event>) {
    && (forall i :: 0 <= i < |events| ==> (events[i].Started? <==> i == 0))
    && (forall i :: 0 <= i < |events| - 1 ==> !events[i].Finished?)
    && (forall i :: 0 <= i < |events| ==> events[i].Progress? ==> events[i].inRange)
  }

  function StateAfter(events: seq<Event>, holder: Option<string>): AssignmentState {
    if events == [] then (if holder.Some? then Assigned else Pending)
    else if !Ended(events) then Running
    else if events[|events| - 1].succeeded then Succeeded
    else Failed
  }

  /** Every field of the record but its assignment, from the accepted events and the holder. */
  predicate Tells(r: Record, events: seq<Event>, holder: Option<string>) {
    && Ordered(events)
    && r.state == StateAfter(events, holder)
    && r.session == holder
    && r.metrics == Samples(events)
    && (events == [] ==> r.lastSequence == None && r.startedAt == None && r.workerDuration == None)
    && (events != [] ==>
          var first, last := events[0], events[|events| - 1];
          && r.lastSequence == Some(last.Number())
          && r.startedAt == Some(first.now)
          && (last.Finished? ==> r.workerDuration == Some(if last.now >= first.now then last.now - first.now else 0))
          && (!last.Finished? ==> r.workerDuration == None))
  }

  // ---------------------------------------------------------------------------------------------
  // One call
  // ---------------------------------------------------------------------------------------------

  lemma OrderedAppend(events: seq<Event>, ev: Event)
    requires Ordered(events) && !Ended(events) && (ev.Started? <==> events == []) && (ev.Progress? ==> ev.inRange)
    ensures Ordered(events + [ev])
  {
    var more := events + [ev];
    forall i | 0 <= i < |more| ensures more[i].Started? <==> i == 0 {
      assert i < |events| ==> more[i] == events[i];
    }
  }

  lemma SamplesAppend(events: seq<Event>, ev: Event)
    ensures Samples(events + [ev]) == Samples(events) + if ev.Metrics? then [ev.sample] else []
  {
    assert (events + [ev])[..|events|] == events;
  }

  lemma StartTells(r: Record, holder: Option<string>, e: string, ev: Event)
    requires Tells(r, [], holder) && Advance(r, e, ev).Ok? && ev.Started?
    ensures Tells(Advance(r, e, ev).value, [ev], holder)
  {
    SamplesAppend([], ev);
    assert [] + [ev] == [ev];
  }

  lemma UpdateTells(r: Record, events: seq<Event>, holder: Option<string>, e: string, ev: Event)
    requires Tells(r, events, holder) && Advance(r, e, ev).Ok? && events != [] && !Ended(events)
    requires ev.Metrics? || (ev.Progress? && ev.inRange)
    ensures Tells(Advance(r, e, ev).value, events + [ev], holder)
  {
    OrderedAppend(events, ev);
    SamplesAppend(events, ev);
    Ends(events, ev);
  }

  lemma FinishTells(r: Record, events: seq<Event>, holder: Option<string>, e: string, ev: Event)
    requires Tells(r, events, holder) && Advance(r, e, ev).Ok? && events != [] && !Ended(events) && ev.Finished?
    ensures Tells(Advance(r, e, ev).value, events + [ev], None)
  {
    OrderedAppend(events, ev);
    SamplesAppend(events, ev);
    Ends(events, ev);
  }

  lemma Ends(events: seq<Event>, ev: Event)
    requires events != []
    ensures var more := events + [ev]; more[0] == events[0] && more[|more| - 1] == ev
  {
  }

  /** Which events a record can accept, given the earlier ones. */
  lemma AcceptedWhen(r: Record, events: seq<Event>, holder: Option<string>, e: string, ev: Event)
    requires Tells(r, events, holder) && Advance(r, e, ev).Ok?
    ensures if ev.Started? then events == [] else events != [] && !Ended(events)
  {
  }

  /** An accepted event on the assignment. */
  lemma EventTells(r: Record, events: seq<Event>, holder: Option<string>, e: string, ev: Event)
    requires Tells(r, events, holder) && Advance(r, e, ev).Ok? && (ev.Progress? ==> ev.inRange)
    ensures Tells(Advance(r, e, ev).value, events + [ev], if ev.Finished? then None else holder)
  {
    AcceptedWhen(r, events, holder, e, ev);
    if ev.Started? {
      StartTells(r, holder, e, ev);
      assert events + [ev] == [ev];
    } else if ev.Finished? {
      FinishTells(r, events, holder, e, ev);
    } else {
      UpdateTells(r, events, holder, e, ev);
    }
  }

  /** No call changes what an assignment is about. */
  lemma StepKeepsAssignment(st: PendingState, call: Call, st': PendingState, id: string)
    requires Step(st, call, st') && id in st.assignments
    ensures id in st'.assignments && st'.assignments[id].assignment == st.assignments[id].assignment
  {
  }

  lemma DisconnectTells(r: Record, events: seq<Event>, holder: Option<string>, s: string)
    requires Tells(r, events, holder)
    ensures Tells(Released(r, s), events, if holder == Some(s) then None else holder)
  {
  }

  /** One accepted call, for an assignment that is in the table before. */
  lemma StepTells(st: PendingState, call: Call, st': PendingState, id: string,
                  events: seq<Event>, holder: Option<string>)
    requires Inv(st) && Step(st, call, st') && id in st.assignments && Tells(st.assignments[id], events, holder)
    ensures id in st'.assignments
    ensures Tells(st'.assignments[id],
                  if call.Handled? && call.id == id then events + [call.event] else events,
                  HolderAfter(holder, call, id))
  {
    match call
    case Enqueued(a) =>
    case Connected(_) =>
    case HandedOut(s, x) =>
      if x == id {
        assert id in st.queue;
        assert events == [];
      }
    case Disconnected(s) => DisconnectTells(st.assignments[id], events, holder, s);
    case Handled(x, e, ev) =>
      if x == id {
        EventTells(st.assignments[id], events, holder, e, ev);
      }
  }

  // ---------------------------------------------------------------------------------------------
  // Whole runs
  // ---------------------------------------------------------------------------------------------

  /** An assignment that is not in the table was neither handed out nor reported on. */
  predicate Silence(calls: seq<Call>, id: string, n: nat)
    requires n <= |calls|
  {
    Events(calls, id, n) == [] && Holder(calls, id, n) == None
  }

  lemma NewcomerTells(st: PendingState, call: Call, st': PendingState, id: string)
    requires Inv(st) && Step(st, call, st') && id !in st.assignments
    ensures id in st'.assignments ==>
      call.Enqueued? && st'.assignments[id].assignment == call.assignment && Tells(st'.assignments[id], [], None)
    ensures id !in st'.assignments ==> !(call.Handled? && call.id == id) && !(call.HandedOut? && call.id == id)
  {
  }

  /**
   Over every run of the broker, an assignment is in the table exactly when it was enqueued, and every field of
   its record is what the accepted calls say: its owner, its state, the number of the last event, the time of the
   start, the samples in order, and the time from start to finish.
   */
  lemma {:induction false} RecordIsHistory(states: seq<PendingState>, calls: seq<Call>, id: string, n: nat)
    requires IsRun(states, calls) && n <= |calls|
    ensures id in states[n].assignments ==>
      && EnqueuedBy(calls, states[n].assignments[id].assignment, n)
      && Tells(states[n].assignments[id], Events(calls, id, n), Holder(calls, id, n))
    ensures id !in states[n].assignments ==> Silence(calls, id, n)
  {
    if n > 0 {
      var st, call, st' := states[n - 1], calls[n - 1], states[n];
      RecordIsHistory(states, calls, id, n - 1);
      RunsKeepInv(states, calls, n - 1);
      assert Step(st, call, st');
      if id in st.assignments {
        StepTells(st, call, st', id, Events(calls, id, n - 1), Holder(calls, id, n - 1));
        StepKeepsAssignment(st, call, st', id);
        var i :| 0 <= i < n - 1 && calls[i] == Enqueued(st.assignments[id].assignment);
        assert EnqueuedBy(calls, st'.assignments[id].assignment, n);
      } else {
        NewcomerTells(st, call, st', id);
        assert id in st'.assignments ==> calls[n - 1] == Enqueued(st'.assignments[id].assignment);
      }
    }
  }

  /** Conversely, what was enqueued is in the table. */
  lemma {:induction false} EnqueuedIsKept(states: seq<PendingState>, calls: seq<Call>, a: Assignment, n: nat)
    requires IsRun(states, calls) && n <= |calls| && EnqueuedBy(calls, a, n)
    ensures a.assignmentId in states[n].assignments && states[n].assignments[a.assignmentId].assignment == a
  {
    var i :| 0 <= i < n && calls[i] == Enqueued(a);
    assert Step(states[n - 1], calls[n - 1], states[n]);
    if i < n - 1 {
      EnqueuedIsKept(states, calls, a, n - 1);
      StepKeepsAssignment(states[n - 1], calls[n - 1], states[n], a.assignmentId);
    }
  }
}
