/** The worker's assignment loop (src/worker/worker.rs): from its broker list into its assignment broker. */
module WorkerLoop {
  import opened Common
  import opened Assignments
  import opened PendingBroker

  datatype WorkerError = ConsumeFailed | InvalidAssignment | CannotQueue(error: Error)

  function Ids(inbox: seq<Assignment>): seq<string> {
    seq(|inbox|, i requires 0 <= i < |inbox| => inbox[i].assignmentId)
  }

  /** One envelope of the list into the broker; `None` is a payload that cannot be decoded. */
  function Execute(inbox: seq<Option<Assignment>>, st: PendingState, consumeFails: bool)
    : (seq<Option<Assignment>>, PendingState, Result<Assignment, WorkerError>)
    requires consumeFails || inbox != []
  {
    if consumeFails then (inbox, st, Err(ConsumeFailed))
    else if inbox[0].None? then (inbox[1..], st, Err(InvalidAssignment))
    else match Enqueue(st, inbox[0].value)
      case Ok(st') => (inbox[1..], st', Ok(inbox[0].value))
      case Err(e) => (inbox[1..], st, Err(CannotQueue(e)))
  }

  /** The broker after these assignments were queued one after another. */
  function EnqueueAll(st: PendingState, done: seq<Assignment>): Result<PendingState, Error> {
    if done == [] then Ok(st)
    else match EnqueueAll(st, done[..|done| - 1])
      case Ok(st') => Enqueue(st', done[|done| - 1])
      case Err(e) => Err(e)
  }

  lemma EnqueueNext(st: PendingState, done: seq<Assignment>, a: Assignment, st': PendingState, st'': PendingState)
    requires EnqueueAll(st, done) == Ok(st') && Enqueue(st', a) == Ok(st'')
    ensures EnqueueAll(st, done + [a]) == Ok(st'')
  {
    assert (done + [a])[..|done|] == done;
  }

  /** What a pass of `execute_one` that succeeds does. */
  lemma ExecuteOk(inbox: seq<Option<Assignment>>, st: PendingState, consumeFails: bool, a: Assignment)
    requires (consumeFails || inbox != []) && Execute(inbox, st, consumeFails).2 == Ok(a)
    ensures inbox[0] == Some(a) && Enqueue(st, a) == Ok(Execute(inbox, st, consumeFails).1)
    ensures Execute(inbox, st, consumeFails).0 == inbox[1..]
  {
  }

  /** Queueing in turn puts the ids at the end of the queue, in order. */
  lemma {:induction false} EnqueueAllInOrder(st: PendingState, done: seq<Assignment>)
    requires EnqueueAll(st, done).Ok?
    ensures EnqueueAll(st, done).value.queue == st.queue + Ids(done)
  {
    if done == [] {
      assert st.queue + Ids(done) == st.queue;
    } else {
      var n := |done| - 1;
      EnqueueAllInOrder(st, done[..n]);
      assert Ids(done) == Ids(done[..n]) + [done[n].assignmentId];
    }
  }

  class Worker {
    var inbox: seq<Option<Assignment>>
    const pending: PendingExecutions

    constructor (pending: PendingExecutions)
      ensures this.pending == pending && inbox == []
    {
      this.pending := pending;
      inbox := [];
    }

    /** `execute_one`; a consume returns once the list holds an envelope, or fails. */
    method ExecuteOne(consumeFails: bool) returns (r: Result<Assignment, WorkerError>)
      requires pending.Valid() && (consumeFails || inbox != [])
      modifies this, pending
      ensures pending.Valid()
      ensures (inbox, pending.State(), r) == Execute(old(inbox), old(pending.State()), consumeFails)
      ensures r == Err(ConsumeFailed) <==> consumeFails
      ensures r == Err(InvalidAssignment) <==> !consumeFails && old(inbox)[0].None?
      ensures r.Err? ==> pending.State() == old(pending.State())
      ensures inbox == if consumeFails then old(inbox) else old(inbox)[1..]
      ensures r.Ok? ==>
        && old(inbox)[0] == Some(r.value) && pending.queue == old(pending.queue) + [r.value.assignmentId]
        && pending.assignments.Keys == old(pending.assignments).Keys + {r.value.assignmentId}
      ensures r.Err? && r.error.CannotQueue? ==>
        Enqueue(old(pending.State()), old(inbox)[0].value) == Err(r.error.error)
    {
      if consumeFails {
        return Err(ConsumeFailed);
      }
      var envelope := inbox[0];
      inbox := inbox[1..];
      if envelope.None? {
        return Err(InvalidAssignment);
      }
      var queued := pending.Enqueue(envelope.value);
      if queued.Err? {
        return Err(CannotQueue(queued.error));
      }
      r := Ok(envelope.value);
    }

    /**
     `assignment_loop` over the first `rounds` envelopes: it queues them in list order until the first error,
     which is the one `execute_one` gives there, and then has lost at most the envelope in its hand.
     */
    method AssignmentLoop(rounds: nat, failAt: nat) returns (done: seq<Assignment>, error: Option<WorkerError>)
      requires pending.Valid() && rounds <= |inbox|
      modifies this, pending
      ensures pending.Valid()
      ensures |done| <= rounds && forall i :: 0 <= i < |done| ==> old(inbox)[i] == Some(done[i])
      ensures EnqueueAll(old(pending.State()), done) == Ok(pending.State())
      ensures pending.queue == old(pending.queue) + Ids(done)
      ensures error.None? ==> |done| == rounds && inbox == old(inbox)[rounds..]
      ensures error.Some? ==>
        |done| < rounds && var (rest, st, r) := Execute(old(inbox)[|done|..], pending.State(), |done| == failAt);
        r == Err(error.value) && inbox == rest
    {
      done, error := [], None;
      ghost var start, before := inbox, pending.State();
      for i := 0 to rounds
        invariant pending.Valid() && error.None? && |done| == i
        invariant inbox == start[i..]
        invariant forall k :: 0 <= k < i ==> start[k] == Some(done[k])
        invariant EnqueueAll(before, done) == Ok(pending.State())
      {
        ghost var st := pending.State();
        var r := ExecuteOne(i == failAt);
        if r.Err? {
          error := Some(r.error);
          break;
        }
        ExecuteOk(start[i..], st, i == failAt, r.value);
        EnqueueNext(before, done, r.value, st, pending.State());
        done := done + [r.value];
      }
      EnqueueAllInOrder(before, done);
    }
  }
}
