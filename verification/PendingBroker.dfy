/**
 The assignment broker in place: the class whose fields the worker updates under its mutex. Every method is
 proved against the value-level sections of module Assignments.
 */
module PendingBroker {
  import opened Common
  import opened Assignments
  import Text

  datatype CancelCommand = CancelCommand(
    session: string,
    assignmentId: string,
    executionId: string,
    reason: Option<string>)

  /** The table after the loop of `disconnect` has visited the records `done`. */
  ghost function ReleasedSome(table: map<string, Record>, s: string, done: seq<string>): map<string, Record> {
    map id | id in table :: if id in done then Released(table[id], s) else table[id]
  }

  /** `tail` is what that loop has appended to the queue. */
  ghost predicate RequeuedSome(table: map<string, Record>, s: string, done: seq<string>, tail: seq<string>) {
    NoDuplicates(tail) && forall id :: id in tail <==> id in done && id in HeldBy(table, s)
  }

  lemma ReleaseOne(table: map<string, Record>, s: string, done: seq<string>, tail: seq<string>, id: string)
    requires RequeuedSome(table, s, done, tail) && id !in done
    requires id in table && table[id].session == Some(s)
    ensures ReleasedSome(table, s, done)[id] == table[id]
    ensures ReleasedSome(table, s, done + [id]) == ReleasedSome(table, s, done)[id := Released(table[id], s)]
    ensures RequeuedSome(table, s, done + [id], if table[id].state == Assigned then tail + [id] else tail)
  {
  }

  /** The loop meets each owned id once. */
  lemma NextOwned(table: map<string, Record>, s: string, ids: seq<string>, i: nat)
    requires NoDuplicates(ids) && i < |ids|
    requires forall id :: id in ids <==> id in table && table[id].session == Some(s)
    ensures ids[i] in table && table[ids[i]].session == Some(s)
    ensures ids[i] !in ids[..i] && ids[..i + 1] == ids[..i] + [ids[i]]
  {
    assert ids[i] in ids;
  }

  lemma ReleaseDone(before: PendingState, s: string, ids: seq<string>, tail: seq<string>, after: PendingState)
    requires forall id :: id in ids <==> id in before.assignments && before.assignments[id].session == Some(s)
    requires RequeuedSome(before.assignments, s, ids, tail)
    requires after == PendingState(before.queue + tail, ReleasedSome(before.assignments, s, ids), before.sessions - {s})
    ensures Disconnect(before, s, after)
    ensures tail != [] <==> HeldBy(before.assignments, s) != {}
  {
    assert after.queue[|before.queue|..] == tail;
    assert forall id :: id in HeldBy(before.assignments, s) ==> id in tail;
    assert tail != [] ==> tail[0] in HeldBy(before.assignments, s);
  }

  class PendingExecutions {
    var queue: seq<string>
    var assignments: map<string, Record>
    var sessions: set<string>

    ghost function State(): PendingState
      reads this
    {
      PendingState(queue, assignments, sessions)
    }

    ghost predicate Valid()
      reads this
    {
      Inv(State())
    }

    constructor ()
      ensures Valid() && State() == EMPTY
    {
      queue, assignments, sessions := [], map[], {};
    }

    method Enqueue(a: Assignment) returns (r: Result<(), Error>)
      requires Valid()
      modifies this
      ensures Valid()
      ensures match Assignments.Enqueue(old(State()), a)
              case Ok(st) => r == Ok(()) && State() == st
              case Err(e) => r == Err(e) && State() == old(State())
    {
      if Text.Blank(a.assignmentId) || Text.Blank(a.executionId) {
        return Err(BlankIdentifier);
      }
      if a.assignmentId in assignments {
        return Err(AlreadyExists);
      }
      EnqueueKeepsInv(State(), a);
      queue := queue + [a.assignmentId];
      assignments := assignments[a.assignmentId := NewRecord(a)];
      r := Ok(());
    }

    method RegisterSession(s: string)
      requires Valid()
      modifies this`sessions
      ensures Valid() && Step(old(State()), Connected(s), State())
    {
      sessions := sessions + {s};
    }

    /** One pass of the `next_for` loop body: hand out the oldest queued assignment, if any. */
    method TryNext(s: string) returns (r: Option<Assignment>)
      requires Valid()
      modifies this
      ensures Valid()
      ensures r.None? <==> old(queue) == []
      ensures r.None? ==> State() == old(State())
      ensures r.Some? ==> Step(old(State()), HandedOut(s, r.value.assignmentId), State())
      ensures r.Some? ==> r.value == old(assignments)[old(queue)[0]].assignment
    {
      if queue == [] {
        return None;
      }
      HandOutKeepsInv(State(), s);
      var id := queue[0];
      queue := queue[1..];
      var record := assignments[id];
      assignments := assignments[id := record.(state := Assigned, session := Some(s))];
      r := Some(record.assignment);
    }

    /** The ids of the records owned by `s`, in some order. */
    method Owned(s: string) returns (ids: seq<string>)
      ensures NoDuplicates(ids)
      ensures forall id :: id in ids <==> id in assignments && assignments[id].session == Some(s)
    {
      ids := [];
      var rest := set id | id in assignments && assignments[id].session == Some(s);
      while rest != {}
        invariant NoDuplicates(ids)
        invariant forall id :: id in ids ==> id !in rest
        invariant forall id :: (id in ids || id in rest) <==> id in assignments && assignments[id].session == Some(s)
        decreases rest
      {
        var id :| id in rest;
        ids, rest := ids + [id], rest - {id};
      }
    }

    /** One pass of the loop of `disconnect`: put an unstarted assignment back, let go of any other. */
    method Release(id: string, ghost s: string) returns (requeued: bool)
      requires id in assignments && assignments[id].session == Some(s)
      modifies this`assignments, this`queue
      ensures assignments == old(assignments)[id := Released(old(assignments)[id], s)]
      ensures requeued <==> old(assignments)[id].state == Assigned
      ensures queue == if requeued then old(queue) + [id] else old(queue)
    {
      var record := assignments[id];
      requeued := record.state == Assigned;
      if requeued {
        assignments := assignments[id := record.(state := Pending, session := None)];
        queue := queue + [id];
      } else {
        assignments := assignments[id := record.(session := None)];
      }
    }

    /** The loop of `disconnect` over the owned ids. */
    method ReleaseAll(s: string, ids: seq<string>) returns (requeued: bool, ghost tail: seq<string>)
      requires NoDuplicates(ids)
      requires forall id :: id in ids <==> id in assignments && assignments[id].session == Some(s)
      modifies this`assignments, this`queue
      ensures assignments == ReleasedSome(old(assignments), s, ids)
      ensures queue == old(queue) + tail
      ensures RequeuedSome(old(assignments), s, ids, tail)
      ensures requeued <==> tail != []
    {
      ghost var before := assignments;
      requeued, tail := false, [];
      for i := 0 to |ids|
        invariant assignments == ReleasedSome(before, s, ids[..i])
        invariant queue == old(queue) + tail
        invariant RequeuedSome(before, s, ids[..i], tail)
        invariant requeued <==> tail != []
      {
        NextOwned(before, s, ids, i);
        ReleaseOne(before, s, ids[..i], tail, ids[i]);
        var pushed := Release(ids[i], s);
        if pushed {
          requeued := true;
          tail := tail + [ids[i]];
        }
      }
      assert ids[..|ids|] == ids;
    }

    method Disconnect(s: string) returns (requeued: bool)
      requires Valid()
      modifies this
      ensures Valid()
      ensures Assignments.Disconnect(old(State()), s, State())
      ensures requeued <==> HeldBy(old(assignments), s) != {}
    {
      ghost var before := State();
      sessions := sessions - {s};
      var ids := Owned(s);
      ghost var tail;
      requeued, tail := ReleaseAll(s, ids);
      ReleaseDone(before, s, ids, tail, State());
      DisconnectKeepsInv(before, s, State());
    }

    /** `cancel`: whom to send which command; `closed` says whether the session's channel refuses the send. */
    method Cancel(id: string, reason: Option<string>, closed: bool)
      returns (r: Result<(), Error>, sent: Option<CancelCommand>)
      requires Valid()
      ensures sent.Some? <==>
        id in assignments && assignments[id].session.Some? && assignments[id].session.value in sessions && !closed
      ensures r.Ok? <==> sent.Some?
      ensures sent.Some? ==>
        && assignments[id].session == Some(sent.value.session)
        && sent.value.assignmentId == assignments[id].assignment.assignmentId
        && sent.value.executionId == assignments[id].assignment.executionId
        && sent.value.reason == reason
        && (assignments[id].state == Assigned || assignments[id].state == Running)
      ensures r.Err? ==>
        r.error == if id !in assignments then AssignmentNotFound
                   else if assignments[id].session.None? then NoConnectedRuntime
                   else SessionDisconnected
    {
      if id !in assignments {
        return Err(AssignmentNotFound), None;
      }
      var record := assignments[id];
      if record.session.None? {
        return Err(NoConnectedRuntime), None;
      }
      if record.session.value !in sessions {
        return Err(SessionDisconnected), None;
      }
      var command := CancelCommand(record.session.value, id, record.assignment.executionId, reason);
      if closed {
        return Err(SessionDisconnected), None;
      }
      r, sent := Ok(()), Some(command);
    }

    /** `validate`: find the record an event is about, if the event is acceptable so far. */
    method Validate(id: string, executionId: string, sequence: nat) returns (r: Result<Record, Error>)
      ensures r.Ok? <==>
        && id in assignments
        && assignments[id].assignment.executionId == executionId
        && (assignments[id].lastSequence.None? || assignments[id].lastSequence.value < sequence)
      ensures r.Ok? ==> r.value == assignments[id]
      ensures r.Err? ==>
        r.error == if id !in assignments then AssignmentNotFound
                   else if assignments[id].assignment.executionId != executionId then ExecutionMismatch
                   else StaleEvent
    {
      if id !in assignments {
        return Err(AssignmentNotFound);
      }
      var record := assignments[id];
      if record.assignment.executionId != executionId {
        return Err(ExecutionMismatch);
      }
      if record.lastSequence.Some? && sequence <= record.lastSequence.value {
        return Err(StaleEvent);
      }
      r := Ok(record);
    }

    method Started(id: string, executionId: string, sequence: nat, now: nat) returns (r: Result<Assignment, Error>)
      requires Valid()
      modifies this`assignments
      ensures Valid()
      ensures match Handle(old(State()), id, executionId, Event.Started(sequence, now))
              case Ok(st) => State() == st && r == Ok(st.assignments[id].assignment)
              case Err(e) => State() == old(State()) && r == Err(e)
    {
      var found := Validate(id, executionId, sequence);
      if found.Err? {
        return Err(found.error);
      }
      var record := found.value;
      if record.state != Assigned {
        return Err(InvalidTransition);
      }
      assignments := assignments[id :=
        record.(state := Running, lastSequence := Some(sequence), startedAt := Some(now))];
      r := Ok(record.assignment);
    }

    method Progress(id: string, executionId: string, sequence: nat, inRange: bool) returns (r: Result<(), Error>)
      requires Valid()
      modifies this`assignments
      ensures Valid()
      ensures match Handle(old(State()), id, executionId, Event.Progress(sequence, inRange))
              case Ok(st) => State() == st && r == Ok(())
              case Err(e) => State() == old(State()) && r == Err(e)
    {
      if !inRange {
        return Err(ProgressOutOfRange);
      }
      var found := Validate(id, executionId, sequence);
      if found.Err? {
        return Err(found.error);
      }
      if found.value.state != Running {
        return Err(NotRunning);
      }
      assignments := assignments[id := found.value.(lastSequence := Some(sequence))];
      r := Ok(());
    }

    method Metrics(id: string, executionId: string, sample: Sample) returns (r: Result<(), Error>)
      requires Valid()
      modifies this`assignments
      ensures Valid()
      ensures match Handle(old(State()), id, executionId, Event.Metrics(sample))
              case Ok(st) => State() == st && r == Ok(())
              case Err(e) => State() == old(State()) && r == Err(e)
    {
      var found := Validate(id, executionId, sample.sequence);
      if found.Err? {
        return Err(found.error);
      }
      var record := found.value;
      if record.state != Running {
        return Err(NotRunning);
      }
      assignments := assignments[id :=
        record.(lastSequence := Some(sample.sequence), metrics := record.metrics + [sample])];
      r := Ok(());
    }

    method Terminal(id: string, executionId: string, sequence: nat, succeeded: bool, now: nat)
      returns (r: Result<(Assignment, nat), Error>)
      requires Valid()
      modifies this`assignments
      ensures Valid()
      ensures match Handle(old(State()), id, executionId, Finished(sequence, succeeded, now))
              case Ok(st) =>
                && State() == st
                && r == Ok((st.assignments[id].assignment, st.assignments[id].workerDuration.value))
              case Err(e) => State() == old(State()) && r == Err(e)
    {
      var found := Validate(id, executionId, sequence);
      if found.Err? {
        return Err(found.error);
      }
      var record := found.value;
      if record.state != Running {
        return Err(InvalidTransition);
      }
      // The source's "execution was not started" error would be returned here; `RecordInv` excludes it.
      var duration := Elapsed(record.startedAt.value, now);
      assignments := assignments[id :=
        record.(state := if succeeded then Succeeded else Failed,
                lastSequence := Some(sequence),
                workerDuration := Some(duration),
                session := None)];
      r := Ok((record.assignment, duration));
    }
  }
}
