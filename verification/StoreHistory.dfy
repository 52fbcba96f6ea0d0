/**
 What the execution stores answer, from the calls made before: which calls are accepted, and the record that a
 read returns.
 */
module StoreHistory {
  import opened Common
  import opened Text
  import opened ExecutionStore

  predicate Creates(op: Op, id: string) {
    op.CreateOp? && op.record.executionId == id
  }

  predicate Updates(op: Op, id: string) {
    op.UpdateOp? && op.id == id
  }

  predicate Created(ops: seq<Op>, id: string) {
    exists i :: 0 <= i < |ops| && Creates(ops[i], id)
  }

  /** Call `c` is the first that creates the execution. */
  predicate FirstCreate(ops: seq<Op>, c: nat, id: string) {
    c < |ops| && Creates(ops[c], id) && forall i :: 0 <= i < c ==> !Creates(ops[i], id)
  }

  /** Call `u` is the last update of the execution after call `c`. */
  predicate LastUpdate(ops: seq<Op>, c: nat, u: nat, id: string) {
    c < u < |ops| && Updates(ops[u], id) && forall i :: u < i < |ops| ==> !Updates(ops[i], id)
  }

  predicate NotUpdated(ops: seq<Op>, c: nat, id: string) {
    forall i :: c < i < |ops| ==> !Updates(ops[i], id)
  }

  /** The record of call `c`, with the state and the time of the last update since, if there is one. */
  ghost predicate RecordSince(ops: seq<Op>, c: nat, id: string, r: Record)
    requires FirstCreate(ops, c, id)
  {
    || (NotUpdated(ops, c, id) && r == ops[c].record)
    || exists u: nat :: LastUpdate(ops, c, u, id) && r == ops[c].record.(state := ops[u].state, updatedAt := ops[u].now)
  }

  ghost predicate Recorded(ops: seq<Op>, id: string, r: Record) {
    exists c: nat :: FirstCreate(ops, c, id) && RecordSince(ops, c, id, r)
  }

  // ---------------------------------------------------------------------------------------------
  // One more call
  // ---------------------------------------------------------------------------------------------

  lemma CreatedStep(ops: seq<Op>, op: Op, id: string)
    ensures Created(ops + [op], id) <==> Created(ops, id) || Creates(op, id)
  {
    if i :| 0 <= i < |ops| && Creates(ops[i], id) {
      assert Creates((ops + [op])[i], id);
    }
    assert (ops + [op])[|ops|] == op;
  }

  /** The first create of an execution is the record that is remembered. */
  lemma RecordedByCreate(ops: seq<Op>, op: Op, id: string)
    requires !Created(ops, id) && Creates(op, id)
    ensures Recorded(ops + [op], id, op.record)
  {
    assert FirstCreate(ops + [op], |ops|, id);
    assert RecordSince(ops + [op], |ops|, id, op.record);
  }

  lemma FirstCreateStill(ops: seq<Op>, op: Op, c: nat, id: string)
    requires FirstCreate(ops, c, id)
    ensures FirstCreate(ops + [op], c, id) && (ops + [op])[c] == ops[c]
  {
  }

  lemma RecordedByUpdate(ops: seq<Op>, op: Op, id: string, r: Record)
    requires Recorded(ops, id, r) && Updates(op, id)
    ensures Recorded(ops + [op], id, r.(state := op.state, updatedAt := op.now))
  {
    var c: nat :| FirstCreate(ops, c, id) && RecordSince(ops, c, id, r);
    FirstCreateStill(ops, op, c, id);
    assert (ops + [op])[|ops|] == op;
    assert LastUpdate(ops + [op], c, |ops|, id);
    assert RecordSince(ops + [op], c, id, r.(state := op.state, updatedAt := op.now));
  }

  lemma RecordedStill(ops: seq<Op>, op: Op, id: string, r: Record)
    requires Recorded(ops, id, r) && !Updates(op, id)
    ensures Recorded(ops + [op], id, r)
  {
    var c: nat :| FirstCreate(ops, c, id) && RecordSince(ops, c, id, r);
    FirstCreateStill(ops, op, c, id);
    SinceStill(ops, op, c, id, r);
  }

  lemma SinceStill(ops: seq<Op>, op: Op, c: nat, id: string, r: Record)
    requires FirstCreate(ops, c, id) && FirstCreate(ops + [op], c, id) && (ops + [op])[c] == ops[c]
    requires RecordSince(ops, c, id, r) && !Updates(op, id)
    ensures RecordSince(ops + [op], c, id, r)
  {
    if !NotUpdated(ops, c, id) {
      var u: nat :| LastUpdate(ops, c, u, id) && r == ops[c].record.(state := ops[u].state, updatedAt := ops[u].now);
      assert LastUpdate(ops + [op], c, u, id) && (ops + [op])[u] == ops[u];
    }
  }

  /** The history determines the record. */
  lemma RecordedIsUnique(ops: seq<Op>, id: string, r: Record, r': Record)
    requires Recorded(ops, id, r) && Recorded(ops, id, r')
    ensures r == r'
  {
    var c: nat :| FirstCreate(ops, c, id) && RecordSince(ops, c, id, r);
    var c': nat :| FirstCreate(ops, c', id) && RecordSince(ops, c', id, r');
    assert c == c';
    if !NotUpdated(ops, c, id) {
      var u: nat :| LastUpdate(ops, c, u, id) && r == ops[c].record.(state := ops[u].state, updatedAt := ops[u].now);
      var u': nat :| LastUpdate(ops, c, u', id)
        && r' == ops[c].record.(state := ops[u'].state, updatedAt := ops[u'].now);
      assert u == u';
    }
  }

  // ---------------------------------------------------------------------------------------------
  // Whole histories
  // ---------------------------------------------------------------------------------------------

  /** The memory store holds exactly the executions that were created, each as its history says. */
  lemma {:induction false} StoreIsHistory(ops: seq<Op>, id: string)
    ensures var m := MemoryRun(ops).0;
      (id in m <==> Created(ops, id)) && (id in m ==> Recorded(ops, id, m[id]))
  {
    if ops != [] {
      var n := |ops| - 1;
      var op := ops[n];
      assert ops == ops[..n] + [op];
      StoreIsHistory(ops[..n], id);
      CreatedStep(ops[..n], op, id);
      var m := MemoryRun(ops[..n]).0;
      if id in m {
        if Updates(op, id) {
          RecordedByUpdate(ops[..n], op, id, m[id]);
        } else {
          RecordedStill(ops[..n], op, id, m[id]);
        }
      } else if Creates(op, id) {
        RecordedByCreate(ops[..n], op, id);
      }
    }
  }

  /** What the calls before it say about the answer `a` to call `op`. */
  ghost predicate AnsweredBy(before: seq<Op>, op: Op, a: Answer) {
    match op
    case CreateOp(r) => a == if Created(before, r.executionId) then Refused(AlreadyExists) else Done
    case UpdateOp(id, _, _) => a == if Created(before, id) then Done else Refused(NotFound)
    case GetOp(id) =>
      && a.Found?
      && (a.record.Some? <==> Created(before, id))
      && (a.record.Some? ==> Recorded(before, id, a.record.value))
  }

  lemma {:induction false} AnswerAt(ops: seq<Op>, i: nat)
    requires i < |ops|
    ensures |MemoryRun(ops).1| == |ops|
    ensures MemoryRun(ops).1[i] == MemoryStep(MemoryRun(ops[..i]).0, ops[i]).1
    decreases |ops|
  {
    var n := |ops| - 1;
    if i < n {
      AnswerAt(ops[..n], i);
      assert ops[..n][..i] == ops[..i];
    } else if n > 0 {
      AnswerAt(ops[..n], 0);
    }
  }

  /**
   For every call sequence, every answer of the memory store follows from the calls before it: the first create
   of an id succeeds and no other, updates succeed from then on, and a read returns what the first create
   stored with the state and time of the last update.
   */
  lemma AnswersAreHistory(ops: seq<Op>, i: nat)
    requires i < |ops|
    ensures |MemoryRun(ops).1| == |ops| && AnsweredBy(ops[..i], ops[i], MemoryRun(ops).1[i])
  {
    AnswerAt(ops, i);
    var id := match ops[i] case CreateOp(r) => r.executionId case GetOp(x) => x case UpdateOp(x, _, _) => x;
    StoreIsHistory(ops[..i], id);
  }

  /** `t'` is `t` cut to whole milliseconds, within what a u64 of milliseconds after the epoch can say. */
  predicate CutToMillis(t: int, t': int) {
    if t < 0 then t' == 0
    else if t >= (U64_MAX + 1) * 1_000_000 then t' == U64_MAX * 1_000_000
    else t' % 1_000_000 == 0 && t' <= t < t' + 1_000_000
  }

  /** The same answer but for the times of a record. */
  predicate SameButTimes(a: Answer, a': Answer) {
    if a.Found? && a.record.Some? then
      && a'.Found? && a'.record.Some?
      && var r, r' := a.record.value, a'.record.value;
      && r' == r.(createdAt := r'.createdAt, updatedAt := r'.updatedAt)
      && CutToMillis(r.createdAt, r'.createdAt) && CutToMillis(r.updatedAt, r'.updatedAt)
    else a' == a
  }

  lemma TruncatedIsCut(t: int)
    ensures CutToMillis(t, Truncated(t))
  {
    assert t == t / NANOS_PER_MILLI * NANOS_PER_MILLI + t % NANOS_PER_MILLI;
  }

  lemma TruncatedIsSameButTimes(a: Answer)
    ensures SameButTimes(a, TruncatedAnswer(a))
  {
    if a.Found? && a.record.Some? {
      TruncatedIsCut(a.record.value.createdAt);
      TruncatedIsCut(a.record.value.updatedAt);
    }
  }

  /** The Redis store gives the same answers, with the times of the record cut to milliseconds. */
  lemma RedisAnswersAreHistory(ops: seq<Op>, prefix: string, i: nat)
    requires i < |ops|
    ensures |RedisRun(ops, prefix).1| == |ops|
    ensures exists a :: AnsweredBy(ops[..i], ops[i], a) && SameButTimes(a, RedisRun(ops, prefix).1[i])
  {
    AnswersAreHistory(ops, i);
    StoresAgree(ops, prefix, i);
    TruncatedIsSameButTimes(MemoryRun(ops).1[i]);
  }
}
