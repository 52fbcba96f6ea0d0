/**
 Worker membership with generations and a time-to-live (src/worker_registry.rs): the process-local registry,
 which notices expiry lazily, and the Redis registry, whose keys expire on their own.

 Clock readings are whole milliseconds and every operation uses one reading.
 */
module WorkerRegistry {
  import opened Common
  import opened Text

  /** `details` stands for the remaining fields of the registration message. */
  datatype Registration = Registration(workerId: string, generation: string, details: string)

  datatype RegistrationOutcome = New | Idempotent | Replaced

  datatype HeartbeatOutcome = Beat | UnknownWorker | StaleGeneration

  datatype Entry = Entry(registration: Registration, registeredAt: nat, lastHeartbeat: Option<nat>, expiresAt: nat)

  type Workers = map<string, Entry>

  // ---------------------------------------------------------------------------------------------
  // The memory registry
  // ---------------------------------------------------------------------------------------------

  predicate Live(m: Workers, w: string, now: nat) {
    w in m && m[w].expiresAt > now
  }

  function Register(m: Workers, reg: Registration, now: nat, ttl: nat): (Workers, RegistrationOutcome) {
    var w := reg.workerId;
    if Live(m, w, now) && m[w].registration.generation == reg.generation then
      (m[w := m[w].(expiresAt := now + ttl)], Idempotent)
    else
      (m[w := Entry(reg, now, None, now + ttl)], if Live(m, w, now) then Replaced else New)
  }

  function Heartbeat(m: Workers, w: string, generation: string, now: nat, ttl: nat): (Workers, HeartbeatOutcome) {
    if !Live(m, w, now) then (m, UnknownWorker)
    else if m[w].registration.generation != generation then (m, StaleGeneration)
    else (m[w := m[w].(lastHeartbeat := Some(now), expiresAt := now + ttl)], Beat)
  }

  function Retained(m: Workers, now: nat): Workers {
    map w | w in m && m[w].expiresAt > now :: m[w]
  }

  class MemoryWorkerRegistry {
    var workers: Workers
    const ttl: nat

    constructor (ttl: nat)
      requires ttl > 0
      ensures this.ttl == ttl && workers == map[]
    {
      this.ttl := ttl;
      workers := map[];
    }

    method RegisterWorker(reg: Registration, now: nat) returns (outcome: RegistrationOutcome)
      modifies this
      ensures (workers, outcome) == Register(old(workers), reg, now, ttl)
    {
      var w := reg.workerId;
      if w in workers && workers[w].expiresAt > now {
        if workers[w].registration.generation == reg.generation {
          workers := workers[w := workers[w].(expiresAt := now + ttl)];
          return Idempotent;
        }
        outcome := Replaced;
      } else {
        outcome := New;
      }
      workers := workers[w := Entry(reg, now, None, now + ttl)];
    }

    method ReportHeartbeat(w: string, generation: string, now: nat) returns (outcome: HeartbeatOutcome)
      modifies this
      ensures (workers, outcome) == Heartbeat(old(workers), w, generation, now, ttl)
    {
      if w !in workers || workers[w].expiresAt <= now {
        return UnknownWorker;
      }
      if workers[w].registration.generation != generation {
        return StaleGeneration;
      }
      workers := workers[w := workers[w].(lastHeartbeat := Some(now), expiresAt := now + ttl)];
      outcome := Beat;
    }

    method AvailableWorkers(now: nat) returns (ids: seq<string>)
      modifies this
      ensures workers == Retained(old(workers), now)
      ensures ids == Sorted(workers.Keys)
    {
      workers := map w | w in workers && workers[w].expiresAt > now :: workers[w];
      ids := SortIds(workers.Keys);
    }
  }

  /** `sort`: the ids in order. */
  method SortIds(all: set<string>) returns (ids: seq<string>)
    ensures ids == Sorted(all)
    ensures StrictlySorted(ids) && Elements(ids) == all
  {
    ids := [];
    var rest := all;
    while rest != {}
      invariant rest <= all
      invariant StrictlySorted(ids) && Elements(ids) == all - rest
      decreases rest
    {
      var x :| x in rest;
      InsertSorted(x, ids);
      ids, rest := Insert(x, ids), rest - {x};
    }
    SortedIsUnique(ids, Sorted(all));
  }

  // ---------------------------------------------------------------------------------------------
  // The Redis registry
  // ---------------------------------------------------------------------------------------------

  /** The fields of a worker's hash and the key's expiry. */
  datatype Hash = Hash(
    generation: string,
    registration: Registration,
    registeredAt: nat,
    lastHeartbeat: Option<nat>,
    deadline: nat)

  type Db = map<string, Hash>

  function WorkerKey(prefix: string, w: string): string {
    prefix + ":worker:" + w
  }

  /** Redis drops a key `lag` milliseconds after its deadline; 0 and 1 are the two conventions. */
  function Purge(db: Db, now: nat, lag: nat): Db {
    map key | key in db && now < db[key].deadline + lag :: db[key]
  }

  /** The registration script, on the keys that are still there. */
  function RegisterScript(db: Db, key: string, reg: Registration, now: nat, ttl: nat): (Db, int) {
    if key in db && db[key].generation == reg.generation then
      (db[key := db[key].(deadline := now + ttl)], 1)
    else
      (db[key := Hash(reg.generation, reg, now, None, now + ttl)], if key in db then 2 else 0)
  }

  function HeartbeatScript(db: Db, key: string, generation: string, now: nat, ttl: nat): (Db, int) {
    if key !in db then (db, 0)
    else if db[key].generation != generation then (db, 1)
    else (db[key := db[key].(lastHeartbeat := Some(now), deadline := now + ttl)], 2)
  }

  /** The worker ids a listing that sees the whole database at once returns. */
  function ListedIds(db: Db, prefix: string): set<string> {
    set key | key in db && IsPrefix(prefix + ":worker:", key) :: db[key].registration.workerId
  }

  /** The hashes of one Redis database; a key past its deadline is gone before any script sees it. */
  class RedisWorkerRegistry {
    var hashes: Db
    const prefix: string
    const ttl: nat
    const lag: nat

    constructor (prefix: string, ttl: nat, lag: nat)
      requires ttl > 0
      ensures this.prefix == prefix && this.ttl == ttl && this.lag == lag && hashes == map[]
    {
      this.prefix, this.ttl, this.lag := prefix, ttl, lag;
      hashes := map[];
    }

    method RegisterWorker(reg: Registration, now: nat) returns (outcome: RegistrationOutcome)
      modifies this
      ensures (hashes, Registered(outcome)) == RedisStep(old(hashes), Timed(RegisterOp(reg), now), prefix, ttl, lag)
    {
      hashes := Purge(hashes, now, lag);
      var key := WorkerKey(prefix, reg.workerId);
      var known := key in hashes;
      if known && hashes[key].generation == reg.generation {
        hashes := hashes[key := hashes[key].(deadline := now + ttl)];
        return Idempotent;
      }
      hashes := hashes[key := Hash(reg.generation, reg, now, None, now + ttl)];
      outcome := if known then Replaced else New;
    }

    method ReportHeartbeat(w: string, generation: string, now: nat) returns (outcome: HeartbeatOutcome)
      modifies this
      ensures (hashes, Answered(outcome)) ==
              RedisStep(old(hashes), Timed(HeartbeatOp(w, generation), now), prefix, ttl, lag)
    {
      hashes := Purge(hashes, now, lag);
      var key := WorkerKey(prefix, w);
      if key !in hashes {
        return UnknownWorker;
      }
      if hashes[key].generation != generation {
        return StaleGeneration;
      }
      hashes := hashes[key := hashes[key].(lastHeartbeat := Some(now), deadline := now + ttl)];
      outcome := Beat;
    }
  }

  // ---------------------------------------------------------------------------------------------
  // Timed traces
  // ---------------------------------------------------------------------------------------------

  datatype Op = RegisterOp(registration: Registration) | HeartbeatOp(worker: string, generation: string) | ListOp

  datatype Timed = Timed(op: Op, now: nat)

  datatype Answer =
    | Registered(outcome: RegistrationOutcome)
    | Answered(beat: HeartbeatOutcome)
    | Listed(ids: seq<string>)

  ghost function MemoryStep(m: Workers, t: Timed, ttl: nat): (Workers, Answer) {
    match t.op
    case RegisterOp(reg) => var (m', o) := Register(m, reg, t.now, ttl); (m', Registered(o))
    case HeartbeatOp(w, g) => var (m', o) := Heartbeat(m, w, g, t.now, ttl); (m', Answered(o))
    case ListOp => (Retained(m, t.now), Listed(Sorted(Retained(m, t.now).Keys)))
  }

  ghost function RedisStep(db: Db, t: Timed, prefix: string, ttl: nat, lag: nat): (Db, Answer) {
    var live := Purge(db, t.now, lag);
    match t.op
    case RegisterOp(reg) =>
      var (db', code) := RegisterScript(live, WorkerKey(prefix, reg.workerId), reg, t.now, ttl);
      (db', Registered(if code == 0 then New else if code == 1 then Idempotent else Replaced))
    case HeartbeatOp(w, g) =>
      var (db', code) := HeartbeatScript(live, WorkerKey(prefix, w), g, t.now, ttl);
      (db', Answered(if code == 0 then UnknownWorker else if code == 1 then StaleGeneration else Beat))
    case ListOp => (live, Listed(Sorted(ListedIds(live, prefix))))
  }

  predicate Monotone(trace: seq<Timed>) {
    forall i, j :: 0 <= i < j < |trace| ==> trace[i].now <= trace[j].now
  }

  ghost function MemoryRun(trace: seq<Timed>, ttl: nat): (Workers, seq<Answer>) {
    if trace == [] then (map[], [])
    else
      var n := |trace| - 1;
      var (m, answers) := MemoryRun(trace[..n], ttl);
      var (m', a) := MemoryStep(m, trace[n], ttl);
      (m', answers + [a])
  }

  ghost function RedisRun(trace: seq<Timed>, prefix: string, ttl: nat, lag: nat): (Db, seq<Answer>) {
    if trace == [] then (map[], [])
    else
      var n := |trace| - 1;
      var (db, answers) := RedisRun(trace[..n], prefix, ttl, lag);
      var (db', a) := RedisStep(db, trace[n], prefix, ttl, lag);
      (db', answers + [a])
  }

  // ---------------------------------------------------------------------------------------------
  // Lazy expiry refines eager expiry
  // ---------------------------------------------------------------------------------------------

  /** One worker's hash and memory entry say the same. */
  predicate Corresponds(e: Entry, h: Hash, w: string, lag: nat) {
    && h.generation == e.registration.generation && h.registration == e.registration
    && h.registeredAt == e.registeredAt && h.lastHeartbeat == e.lastHeartbeat
    && e.expiresAt == h.deadline + lag
    && e.registration.workerId == w
  }

  /** The database holds exactly the memory entries that are live now, with the same contents. */
  ghost predicate SameMembers(m: Workers, db: Db, prefix: string, now: nat, lag: nat) {
    && (forall w :: Live(m, w, now) <==> WorkerKey(prefix, w) in db)
    && (forall w :: Live(m, w, now) ==> Corresponds(m[w], db[WorkerKey(prefix, w)], w, lag))
    && (forall key :: key in db ==> key == WorkerKey(prefix, db[key].registration.workerId))
  }

  lemma KeysAreInjective(prefix: string, v: string, w: string)
    requires WorkerKey(prefix, v) == WorkerKey(prefix, w)
    ensures v == w
  {
    var n := |prefix + ":worker:"|;
    assert WorkerKey(prefix, v)[n..] == v && WorkerKey(prefix, w)[n..] == w;
  }

  lemma TimePasses(m: Workers, db: Db, prefix: string, now: nat, later: nat, lag: nat)
    requires SameMembers(m, db, prefix, now, lag) && now <= later
    ensures SameMembers(m, Purge(db, later, lag), prefix, later, lag)
  {
    var db' := Purge(db, later, lag);
    forall w ensures Live(m, w, later) <==> WorkerKey(prefix, w) in db' {
      assert Live(m, w, later) ==> Live(m, w, now);
      assert WorkerKey(prefix, w) in db' ==> Live(m, w, now);
    }
    forall w | Live(m, w, later)
      ensures Corresponds(m[w], db'[WorkerKey(prefix, w)], w, lag)
    {
      assert Live(m, w, now);
    }
  }

  /** Writing the same live entry on both sides keeps them in step. */
  lemma PutKeepsMembers(m: Workers, db: Db, prefix: string, now: nat, lag: nat, w: string, e: Entry, h: Hash)
    requires SameMembers(m, db, prefix, now, lag)
    requires Corresponds(e, h, w, lag) && e.expiresAt > now
    ensures SameMembers(m[w := e], db[WorkerKey(prefix, w) := h], prefix, now, lag)
  {
    var m', db' := m[w := e], db[WorkerKey(prefix, w) := h];
    forall v ensures Live(m', v, now) <==> WorkerKey(prefix, v) in db' {
      if WorkerKey(prefix, v) == WorkerKey(prefix, w) {
        KeysAreInjective(prefix, v, w);
      }
      assert Live(m, v, now) <==> WorkerKey(prefix, v) in db;
    }
    forall v | Live(m', v, now)
      ensures Corresponds(m'[v], db'[WorkerKey(prefix, v)], v, lag)
    {
      if v != w {
        if WorkerKey(prefix, v) == WorkerKey(prefix, w) {
          KeysAreInjective(prefix, v, w);
        }
        assert Live(m, v, now);
      }
    }
  }

  lemma SameListing(m: Workers, db: Db, prefix: string, now: nat, lag: nat)
    requires SameMembers(m, db, prefix, now, lag)
    ensures ListedIds(db, prefix) == Retained(m, now).Keys
    ensures SameMembers(Retained(m, now), db, prefix, now, lag)
  {
    forall w ensures w in ListedIds(db, prefix) <==> w in Retained(m, now).Keys {
      var key := WorkerKey(prefix, w);
      if Live(m, w, now) {
        assert IsPrefix(prefix + ":worker:", key);
        assert key in db && db[key].registration.workerId == w;
      }
      if w in ListedIds(db, prefix) {
        var k :| k in db && IsPrefix(prefix + ":worker:", k) && db[k].registration.workerId == w;
        assert k == WorkerKey(prefix, w);
        assert Live(m, w, now);
      }
    }
    forall w ensures Live(Retained(m, now), w, now) <==> WorkerKey(prefix, w) in db {
      assert Live(m, w, now) <==> WorkerKey(prefix, w) in db;
    }
    forall w | Live(Retained(m, now), w, now)
      ensures Corresponds(Retained(m, now)[w], db[WorkerKey(prefix, w)], w, lag)
    {
      assert Live(m, w, now);
    }
  }

  lemma SameRegister(m: Workers, db: Db, prefix: string, reg: Registration, now: nat, ttl: nat, lag: nat)
    requires ttl > 0 && SameMembers(m, db, prefix, now, lag)
    ensures var (m', outcome) := Register(m, reg, now, ttl + lag);
      var (db', code) := RegisterScript(db, WorkerKey(prefix, reg.workerId), reg, now, ttl);
      && code == (match outcome case New => 0 case Idempotent => 1 case Replaced => 2)
      && SameMembers(m', db', prefix, now, lag)
  {
    var w := reg.workerId;
    var key := WorkerKey(prefix, w);
    assert Live(m, w, now) <==> key in db;
    var m' := Register(m, reg, now, ttl + lag).0;
    var db' := RegisterScript(db, key, reg, now, ttl).0;
    PutKeepsMembers(m, db, prefix, now, lag, w, m'[w], db'[key]);
  }

  lemma SameHeartbeat(m: Workers, db: Db, prefix: string, w: string, g: string, now: nat, ttl: nat, lag: nat)
    requires ttl > 0 && SameMembers(m, db, prefix, now, lag)
    ensures var (m', outcome) := Heartbeat(m, w, g, now, ttl + lag);
      var (db', code) := HeartbeatScript(db, WorkerKey(prefix, w), g, now, ttl);
      && code == (match outcome case UnknownWorker => 0 case StaleGeneration => 1 case Beat => 2)
      && SameMembers(m', db', prefix, now, lag)
  {
    var key := WorkerKey(prefix, w);
    assert Live(m, w, now) <==> key in db;
    if Live(m, w, now) && m[w].registration.generation == g {
      var m' := Heartbeat(m, w, g, now, ttl + lag).0;
      var db' := HeartbeatScript(db, key, g, now, ttl).0;
      PutKeepsMembers(m, db, prefix, now, lag, w, m'[w], db'[key]);
    }
  }

  /** One operation on registries in step: the same answer, and still in step. */
  lemma SameStep(m: Workers, db: Db, prefix: string, before: nat, t: Timed, ttl: nat, lag: nat)
    requires ttl > 0 && before <= t.now && SameMembers(m, db, prefix, before, lag)
    ensures MemoryStep(m, t, ttl + lag).1 == RedisStep(db, t, prefix, ttl, lag).1
    ensures SameMembers(MemoryStep(m, t, ttl + lag).0, RedisStep(db, t, prefix, ttl, lag).0, prefix, t.now, lag)
  {
    var live := Purge(db, t.now, lag);
    TimePasses(m, db, prefix, before, t.now, lag);
    match t.op
    case RegisterOp(reg) => SameRegister(m, live, prefix, reg, t.now, ttl, lag);
    case HeartbeatOp(w, g) => SameHeartbeat(m, live, prefix, w, g, t.now, ttl, lag);
    case ListOp => SameListing(m, live, prefix, t.now, lag);
  }

  lemma {:induction false} SameRuns(trace: seq<Timed>, prefix: string, ttl: nat, lag: nat)
    requires ttl > 0 && Monotone(trace)
    ensures MemoryRun(trace, ttl + lag).1 == RedisRun(trace, prefix, ttl, lag).1
    ensures SameMembers(MemoryRun(trace, ttl + lag).0, RedisRun(trace, prefix, ttl, lag).0, prefix,
                        if trace == [] then 0 else trace[|trace| - 1].now, lag)
  {
    if trace != [] {
      var n := |trace| - 1;
      SameRuns(trace[..n], prefix, ttl, lag);
      SameStep(MemoryRun(trace[..n], ttl + lag).0, RedisRun(trace[..n], prefix, ttl, lag).0, prefix,
               if n == 0 then 0 else trace[n - 1].now, trace[n], ttl, lag);
    }
  }

  /**
   Over every timed trace the memory registry and the Redis registry give the same answers. If Redis keeps a
   key for `lag` milliseconds past its deadline, it is the memory registry with a TTL longer by `lag`.
   */
  lemma LazyExpiryRefinesEagerExpiry(trace: seq<Timed>, prefix: string, ttl: nat, lag: nat)
    requires ttl > 0 && Monotone(trace)
    ensures MemoryRun(trace, ttl + lag).1 == RedisRun(trace, prefix, ttl, lag).1
  {
    SameRuns(trace, prefix, ttl, lag);
  }
}
