/**
 The two execution stores (src/execution_store.rs): records in a map, and Redis hashes whose fields are text
 with timestamps in milliseconds.
 */
module ExecutionStore {
  import opened Common
  import opened Text
  import C = Core

  /** Times are nanoseconds since the Unix epoch. */
  datatype Record = Record(
    executionId: string,
    jobId: string,
    assignmentId: string,
    workerId: string,
    state: C.ExecutionState,
    createdAt: int,
    updatedAt: int)

  datatype StoreError = AlreadyExists | NotFound | MissingField | InvalidState | InvalidTime

  const NANOS_PER_MILLI := 1_000_000

  /** Milliseconds since the epoch, 0 before it, saturating at the largest u64. */
  function UnixMillis(t: int): nat {
    if t < 0 then 0
    else if t / NANOS_PER_MILLI > U64_MAX then U64_MAX
    else t / NANOS_PER_MILLI
  }

  function SystemTime(millis: nat): int {
    millis * NANOS_PER_MILLI
  }

  /** A time after being stored in Redis and read back. */
  function Truncated(t: int): int {
    SystemTime(UnixMillis(t))
  }

  function TruncatedRecord(r: Record): Record {
    r.(createdAt := Truncated(r.createdAt), updatedAt := Truncated(r.updatedAt))
  }

  // ---------------------------------------------------------------------------------------------
  // The memory store
  // ---------------------------------------------------------------------------------------------

  type Records = map<string, Record>

  function Create(m: Records, r: Record): Result<Records, StoreError> {
    if r.executionId in m then Err(AlreadyExists) else Ok(m[r.executionId := r])
  }

  function Update(m: Records, id: string, state: C.ExecutionState, now: int): Result<Records, StoreError> {
    if id !in m then Err(NotFound) else Ok(m[id := m[id].(state := state, updatedAt := now)])
  }

  class MemoryExecutionStore {
    var executions: Records

    constructor ()
      ensures executions == map[]
    {
      executions := map[];
    }

    method CreateExecution(r: Record) returns (result: Result<(), StoreError>)
      modifies this
      ensures match Create(old(executions), r)
              case Ok(m) => executions == m && result == Ok(())
              case Err(e) => executions == old(executions) && result == Err(e)
    {
      if r.executionId in executions {
        return Err(AlreadyExists);
      }
      executions := executions[r.executionId := r];
      result := Ok(());
    }

    method Get(id: string) returns (result: Option<Record>)
      ensures result.Some? <==> id in executions
      ensures result.Some? ==> result.value == executions[id]
    {
      result := if id in executions then Some(executions[id]) else None;
    }

    method UpdateState(id: string, state: C.ExecutionState, now: int) returns (result: Result<(), StoreError>)
      modifies this
      ensures match Update(old(executions), id, state, now)
              case Ok(m) => executions == m && result == Ok(())
              case Err(e) => executions == old(executions) && result == Err(e)
    {
      if id !in executions {
        return Err(NotFound);
      }
      executions := executions[id := executions[id].(state := state, updatedAt := now)];
      result := Ok(());
    }
  }

  // ---------------------------------------------------------------------------------------------
  // The Redis store
  // ---------------------------------------------------------------------------------------------

  /** The fields of a hash; a field that was never set is `None`. */
  datatype Hash = Hash(
    executionId: Option<string>,
    jobId: Option<string>,
    assignmentId: Option<string>,
    workerId: Option<string>,
    state: Option<string>,
    createdAt: Option<string>,
    updatedAt: Option<string>)

  const UNSET := Hash(None, None, None, None, None, None, None)

  type Hashes = map<string, Hash>

  /** Distinct numbers for the states; the protocol's own numbering is not part of this model. */
  function Code(state: C.ExecutionState): nat {
    match state
    case ExecOther => 0
    case ExecAssigned => 1
    case ExecRunning => 2
    case ExecSucceeded => 3
    case ExecFailed => 4
  }

  function FromCode(n: nat): Option<C.ExecutionState> {
    if n == 0 then Some(C.ExecOther)
    else if n == 1 then Some(C.ExecAssigned)
    else if n == 2 then Some(C.ExecRunning)
    else if n == 3 then Some(C.ExecSucceeded)
    else if n == 4 then Some(C.ExecFailed)
    else None
  }

  function Key(prefix: string, id: string): string {
    prefix + ":" + id
  }

  /** The hash that a record is stored as. */
  function Stored(r: Record): Hash {
    Hash(Some(r.executionId), Some(r.jobId), Some(r.assignmentId), Some(r.workerId), Some(Decimal(Code(r.state))),
         Some(Decimal(UnixMillis(r.createdAt))), Some(Decimal(UnixMillis(r.updatedAt))))
  }

  function CreateScript(db: Hashes, key: string, r: Record): (Hashes, int) {
    if key in db then (db, 0)
    else (db[key := Stored(r)], 1)
  }

  function UpdateScript(db: Hashes, key: string, state: C.ExecutionState, now: int): (Hashes, int) {
    if key !in db then (db, 0)
    else (db[key := db[key].(state := Some(Decimal(Code(state))), updatedAt := Some(Decimal(UnixMillis(now))))], 1)
  }

  function ParseState(text: string): Option<C.ExecutionState> {
    match ParseU64(text)
    case None => None
    case Some(n) => FromCode(n)
  }

  /** Decoding the reply of HMGET. */
  function Decode(h: Hash): Result<Option<Record>, StoreError> {
    if h.executionId.None? then Ok(None)
    else if h.state.None? then Err(MissingField)
    else if ParseState(h.state.value).None? then Err(InvalidState)
    else if h.createdAt.None? then Err(MissingField)
    else if ParseU64(h.createdAt.value).None? then Err(InvalidTime)
    else if h.updatedAt.None? then Err(MissingField)
    else if ParseU64(h.updatedAt.value).None? then Err(InvalidTime)
    else if h.jobId.None? || h.assignmentId.None? || h.workerId.None? then Err(MissingField)
    else Ok(Some(Record(h.executionId.value, h.jobId.value, h.assignmentId.value, h.workerId.value,
                        ParseState(h.state.value).value,
                        SystemTime(ParseU64(h.createdAt.value).value),
                        SystemTime(ParseU64(h.updatedAt.value).value))))
  }

  function ReadHash(db: Hashes, key: string): Result<Option<Record>, StoreError> {
    Decode(if key in db then db[key] else UNSET)
  }

  class RedisExecutionStore {
    var hashes: Hashes
    const prefix: string

    constructor (prefix: string)
      ensures this.prefix == prefix && hashes == map[]
    {
      this.prefix := prefix;
      hashes := map[];
    }

    method CreateExecution(r: Record) returns (result: Result<(), StoreError>)
      modifies this
      ensures hashes == CreateScript(old(hashes), Key(prefix, r.executionId), r).0
      ensures result == if Key(prefix, r.executionId) in old(hashes) then Err(AlreadyExists) else Ok(())
    {
      var key := Key(prefix, r.executionId);
      if key in hashes {
        return Err(AlreadyExists);
      }
      hashes := hashes[key := Stored(r)];
      result := Ok(());
    }

    method Get(id: string) returns (result: Result<Option<Record>, StoreError>)
      ensures result == ReadHash(hashes, Key(prefix, id))
    {
      var key := Key(prefix, id);
      var values := if key in hashes then hashes[key] else UNSET;
      result := Decode(values);
    }

    method UpdateState(id: string, state: C.ExecutionState, now: int) returns (result: Result<(), StoreError>)
      modifies this
      ensures hashes == UpdateScript(old(hashes), Key(prefix, id), state, now).0
      ensures result == if Key(prefix, id) in old(hashes) then Ok(()) else Err(NotFound)
    {
      var key := Key(prefix, id);
      if key !in hashes {
        return Err(NotFound);
      }
      hashes := hashes[key := hashes[key].(state := Some(Decimal(Code(state))),
                                           updatedAt := Some(Decimal(UnixMillis(now))))];
      result := Ok(());
    }
  }

  // ---------------------------------------------------------------------------------------------
  // Call sequences
  // ---------------------------------------------------------------------------------------------

  datatype Op =
    | CreateOp(record: Record)
    | GetOp(id: string)
    | UpdateOp(id: string, state: C.ExecutionState, now: int)

  datatype Answer = Done | Refused(error: StoreError) | Found(record: Option<Record>)

  function MemoryStep(m: Records, op: Op): (Records, Answer) {
    match op
    case CreateOp(r) => (match Create(m, r) case Ok(m') => (m', Done) case Err(e) => (m, Refused(e)))
    case GetOp(id) => (m, Found(if id in m then Some(m[id]) else None))
    case UpdateOp(id, s, now) => (match Update(m, id, s, now) case Ok(m') => (m', Done) case Err(e) => (m, Refused(e)))
  }

  function RedisStep(db: Hashes, prefix: string, op: Op): (Hashes, Answer) {
    match op
    case CreateOp(r) =>
      var (db', code) := CreateScript(db, Key(prefix, r.executionId), r);
      (db', if code == 1 then Done else Refused(AlreadyExists))
    case GetOp(id) =>
      (db, match ReadHash(db, Key(prefix, id)) case Ok(r) => Found(r) case Err(e) => Refused(e))
    case UpdateOp(id, s, now) =>
      var (db', code) := UpdateScript(db, Key(prefix, id), s, now);
      (db', if code == 1 then Done else Refused(NotFound))
  }

  function TruncatedAnswer(a: Answer): Answer {
    if a.Found? && a.record.Some? then Found(Some(TruncatedRecord(a.record.value))) else a
  }

  function MemoryRun(ops: seq<Op>): (Records, seq<Answer>) {
    if ops == [] then (map[], [])
    else
      var (m, answers) := MemoryRun(ops[..|ops| - 1]);
      var (m', a) := MemoryStep(m, ops[|ops| - 1]);
      (m', answers + [a])
  }

  function RedisRun(ops: seq<Op>, prefix: string): (Hashes, seq<Answer>) {
    if ops == [] then (map[], [])
    else
      var (db, answers) := RedisRun(ops[..|ops| - 1], prefix);
      var (db', a) := RedisStep(db, prefix, ops[|ops| - 1]);
      (db', answers + [a])
  }

  // ---------------------------------------------------------------------------------------------
  // Refinement
  // ---------------------------------------------------------------------------------------------

  lemma StateRoundTrip(state: C.ExecutionState)
    ensures ParseState(Decimal(Code(state))) == Some(state)
  {
    ParseDecimal(Code(state));
  }

  lemma TimeRoundTrip(t: int)
    ensures ParseU64(Decimal(UnixMillis(t))) == Some(UnixMillis(t))
  {
    ParseDecimal(UnixMillis(t));
  }

  /** A time inside the representable range loses only what is below a millisecond. */
  lemma TruncationIsFloor(t: int)
    requires 0 <= t && t / NANOS_PER_MILLI <= U64_MAX
    ensures Truncated(t) <= t < Truncated(t) + NANOS_PER_MILLI
    ensures Truncated(Truncated(t)) == Truncated(t)
  {
  }

  lemma DecodeStored(r: Record)
    ensures Decode(Stored(r)) == Ok(Some(TruncatedRecord(r)))
  {
    StateRoundTrip(r.state);
    TimeRoundTrip(r.createdAt);
    TimeRoundTrip(r.updatedAt);
  }

  /** The text is a number of milliseconds, and this is the time it stands for. */
  predicate MillisText(text: Option<string>, t: int) {
    text.Some? && ParseU64(text.value).Some? && t == ParseU64(text.value).value * 1_000_000
  }

  predicate Unreadable(text: Option<string>) {
    text.Some? && ParseU64(text.value).None?
  }

  /** What a hash decodes to: the exact condition for each answer. */
  lemma DecodeExactlyWhen(h: Hash, r: Record)
    ensures Decode(h) == Ok(None) <==> h.executionId.None?
    ensures Decode(h) == Ok(Some(r)) <==>
      && h.executionId == Some(r.executionId) && h.jobId == Some(r.jobId)
      && h.assignmentId == Some(r.assignmentId) && h.workerId == Some(r.workerId)
      && h.state.Some? && ParseState(h.state.value) == Some(r.state)
      && MillisText(h.createdAt, r.createdAt) && MillisText(h.updatedAt, r.updatedAt)
    ensures Decode(h) == Err(InvalidState) <==>
      h.executionId.Some? && h.state.Some? && ParseState(h.state.value).None?
    ensures Decode(h) == Err(InvalidTime) <==>
      && h.executionId.Some? && h.state.Some? && ParseState(h.state.value).Some?
      && (Unreadable(h.createdAt) || (h.createdAt.Some? && Unreadable(h.updatedAt)))
    ensures Decode(h).Err? ==> Decode(h).error in {MissingField, InvalidState, InvalidTime}
  {
  }

  lemma KeyIsInjective(prefix: string, a: string, b: string)
    requires Key(prefix, a) == Key(prefix, b)
    ensures a == b
  {
    assert Key(prefix, a)[|prefix| + 1..] == a && Key(prefix, b)[|prefix| + 1..] == b;
  }

  ghost predicate SameRecords(m: Records, db: Hashes, prefix: string) {
    && (forall id :: id in m <==> Key(prefix, id) in db)
    && (forall id :: id in m ==> db[Key(prefix, id)] == Stored(m[id]))
  }

  lemma SameKey(prefix: string, a: string, b: string)
    ensures Key(prefix, a) == Key(prefix, b) <==> a == b
  {
    if Key(prefix, a) == Key(prefix, b) {
      KeyIsInjective(prefix, a, b);
    }
  }

  lemma PutKeepsRecords(m: Records, db: Hashes, prefix: string, id: string, r: Record)
    requires SameRecords(m, db, prefix)
    ensures SameRecords(m[id := r], db[Key(prefix, id) := Stored(r)], prefix)
  {
    var m', db' := m[id := r], db[Key(prefix, id) := Stored(r)];
    forall x ensures x in m' <==> Key(prefix, x) in db' {
      SameKey(prefix, x, id);
      assert x in m <==> Key(prefix, x) in db;
    }
    forall x | x in m' ensures db'[Key(prefix, x)] == Stored(m'[x]) {
      SameKey(prefix, x, id);
    }
  }

  lemma SameStep(m: Records, db: Hashes, prefix: string, op: Op)
    requires SameRecords(m, db, prefix)
    ensures RedisStep(db, prefix, op).1 == TruncatedAnswer(MemoryStep(m, op).1)
    ensures SameRecords(MemoryStep(m, op).0, RedisStep(db, prefix, op).0, prefix)
  {
    match op
    case CreateOp(r) =>
      PutKeepsRecords(m, db, prefix, r.executionId, r);
    case GetOp(id) =>
      if id in m {
        DecodeStored(m[id]);
      }
    case UpdateOp(id, s, now) =>
      if id in m {
        PutKeepsRecords(m, db, prefix, id, m[id].(state := s, updatedAt := now));
      }
  }

  lemma {:induction false} SameRuns(ops: seq<Op>, prefix: string)
    ensures SameRecords(MemoryRun(ops).0, RedisRun(ops, prefix).0, prefix)
    ensures |MemoryRun(ops).1| == |RedisRun(ops, prefix).1| == |ops|
    ensures forall i :: 0 <= i < |ops| ==> RedisRun(ops, prefix).1[i] == TruncatedAnswer(MemoryRun(ops).1[i])
  {
    if ops != [] {
      var n := |ops| - 1;
      SameRuns(ops[..n], prefix);
      SameStep(MemoryRun(ops[..n]).0, RedisRun(ops[..n], prefix).0, prefix, ops[n]);
    }
  }

  /** For every call sequence the two stores give the same answers up to truncated timestamps. */
  lemma StoresAgree(ops: seq<Op>, prefix: string, i: nat)
    requires i < |ops|
    ensures |MemoryRun(ops).1| == |RedisRun(ops, prefix).1| == |ops|
    ensures RedisRun(ops, prefix).1[i] == TruncatedAnswer(MemoryRun(ops).1[i])
    ensures RedisRun(ops, prefix).1[i] !in {Refused(MissingField), Refused(InvalidState), Refused(InvalidTime)}
  {
    SameRuns(ops, prefix);
    AnswersAreClean(ops, i);
  }

  lemma {:induction false} AnswersAreClean(ops: seq<Op>, i: nat)
    requires i < |ops|
    ensures |MemoryRun(ops).1| == |ops|
    ensures MemoryRun(ops).1[i] !in {Refused(MissingField), Refused(InvalidState), Refused(InvalidTime)}
    decreases |ops|
  {
    var n := |ops| - 1;
    if n > 0 {
      AnswersAreClean(ops[..n], if i < n then i else 0);
    }
  }

  /** What an execution belongs to, and when it was created, never changes after `create`. */
  lemma {:induction false} CreationIsPermanent(ops: seq<Op>, n: nat, id: string)
    requires n <= |ops| && id in MemoryRun(ops[..n]).0
    ensures id in MemoryRun(ops).0
    ensures var r, r' := MemoryRun(ops[..n]).0[id], MemoryRun(ops).0[id];
      r' == r.(state := r'.state, updatedAt := r'.updatedAt)
    decreases |ops|
  {
    if n == |ops| {
      assert ops[..n] == ops;
    } else {
      var k := |ops| - 1;
      assert ops[..k][..n] == ops[..n];
      CreationIsPermanent(ops[..k], n, id);
    }
  }
}
