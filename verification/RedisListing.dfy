/**
 The Redis listing (src/worker_registry.rs): a SCAN loop that reads each returned key, while other clients
 add keys and keys expire between the commands.
 */
module RedisListing {
  import opened Common
  import opened Text
  import opened WorkerRegistry
  import GlobPattern

  /** The keys that are live at one moment, with their registrations. */
  type Keyspace = map<string, Registration>

  /** How many commands the loop sends for these SCAN replies: one SCAN each, and one HGET per key. */
  function Commands(batches: seq<seq<string>>): nat {
    if batches == [] then 0
    else Commands(batches[..|batches| - 1]) + 1 + |batches[|batches| - 1]|
  }

  /** Every worker hash is stored under its own key. */
  predicate WellKeyed(keys: Keyspace, prefix: string) {
    forall key :: key in keys && IsPrefix(prefix + GlobPattern.MARK, key) ==>
      key == WorkerKey(prefix, keys[key].workerId)
  }

  predicate InBatches(batches: seq<seq<string>>, key: string) {
    exists i :: 0 <= i < |batches| && key in batches[i]
  }

  /** The key matches the SCAN pattern. */
  predicate Matching(prefix: string, key: string) {
    GlobPattern.Match(Encode(GlobPattern.Pattern(prefix)), Encode(key))
  }

  predicate ThroughoutIn(moments: seq<Keyspace>, key: string) {
    forall i :: 0 <= i < |moments| ==> key in moments[i]
  }

  /** The key is there at every moment and always holds a registration of worker `w`. */
  predicate AlwaysNames(moments: seq<Keyspace>, key: string, w: string) {
    forall i :: 0 <= i < |moments| ==> key in moments[i] && moments[i][key].workerId == w
  }

  /** At some moment a key under the prefix holds a registration of worker `w`. */
  ghost predicate SometimeNames(moments: seq<Keyspace>, prefix: string, w: string) {
    exists i, key :: 0 <= i < |moments| && key in moments[i] && IsPrefix(prefix + GlobPattern.MARK, key)
                     && moments[i][key].workerId == w
  }

  predicate SometimeIn(moments: seq<Keyspace>, key: string) {
    exists i :: 0 <= i < |moments| && key in moments[i]
  }

  /**
   What SCAN promises for a full iteration: only matching keys, and every matching key that is there from
   start to end; repeats and keys that come or go meanwhile are allowed.
   */
  ghost predicate FullScan(batches: seq<seq<string>>, moments: seq<Keyspace>, prefix: string) {
    && (forall i, k :: 0 <= i < |batches| && k in batches[i] ==> Matching(prefix, k))
    && (forall key :: ThroughoutIn(moments, key) && Matching(prefix, key) ==> InBatches(batches, key))
  }

  lemma {:induction false} CommandsSplit(batches: seq<seq<string>>, i: nat)
    requires i < |batches|
    ensures Commands(batches[..i]) + 1 + |batches[i]| == Commands(batches[..i + 1]) <= Commands(batches)
    decreases |batches|
  {
    assert batches[..i + 1][..i] == batches[..i];
    if i + 1 < |batches| {
      var n := |batches| - 1;
      CommandsSplit(batches[..n], i);
      assert batches[..n][..i + 1] == batches[..i + 1];
    } else {
      assert batches[..i + 1] == batches;
    }
  }

  /** The worker ids read so far: sound, and complete for the keys already visited. */
  ghost predicate ReadSoFar(ids: seq<string>, moments: seq<Keyspace>, prefix: string, visited: seq<string>) {
    && (forall w :: w in ids ==> SometimeNames(moments, prefix, w))
    && (forall key, w :: AlwaysNames(moments, key, w) && key in visited ==> w in ids)
  }

  lemma WorkerKeysMatch(prefix: string, key: string)
    ensures Matching(prefix, key) <==> IsPrefix(prefix + GlobPattern.MARK, key)
  {
    GlobPattern.PatternMatchesTextPrefix(prefix, key);
  }

  lemma WorkerKeyHasPrefix(prefix: string, w: string)
    ensures IsPrefix(prefix + GlobPattern.MARK, WorkerKey(prefix, w))
  {
  }

  /** Reading one key extends what was read. */
  lemma ReadKey(ids: seq<string>, moments: seq<Keyspace>, prefix: string, visited: seq<string>, c: nat, key: string)
    requires ReadSoFar(ids, moments, prefix, visited) && c < |moments| && IsPrefix(prefix + GlobPattern.MARK, key)
    ensures ReadSoFar(if key in moments[c] then ids + [moments[c][key].workerId] else ids,
                      moments, prefix, visited + [key])
  {
    assert forall w :: AlwaysNames(moments, key, w) ==> key in moments[c] && moments[c][key].workerId == w;
    if key in moments[c] {
      assert SometimeNames(moments, prefix, moments[c][key].workerId);
    }
  }

  /** `sort` and `dedup`. */
  method SortAndDedup(ids: seq<string>) returns (sorted: seq<string>)
    ensures StrictlySorted(sorted) && Elements(sorted) == Elements(ids)
  {
    sorted := [];
    for i := 0 to |ids|
      invariant StrictlySorted(sorted) && Elements(sorted) == Elements(ids[..i])
    {
      InsertSorted(ids[i], sorted);
      assert ids[..i + 1] == ids[..i] + [ids[i]];
      sorted := Insert(ids[i], sorted);
    }
    assert ids[..|ids|] == ids;
  }

  /** The ids that one HGET for every key returns, the first HGET being command `start`. */
  function Read(keys: seq<string>, moments: seq<Keyspace>, start: nat): seq<string>
    requires start + |keys| <= |moments|
  {
    if keys == [] then []
    else
      var n := |keys| - 1;
      Read(keys[..n], moments, start) +
      if keys[n] in moments[start + n] then [moments[start + n][keys[n]].workerId] else []
  }

  lemma ReadLast(ids: seq<string>, keys: seq<string>, moments: seq<Keyspace>, start: nat)
    requires start + |keys| <= |moments| && keys != []
    ensures var n := |keys| - 1;
      var sofar := ids + Read(keys[..n], moments, start);
      ids + Read(keys, moments, start) ==
        if keys[n] in moments[start + n] then sofar + [moments[start + n][keys[n]].workerId] else sofar
  {
  }

  predicate AllWellKeyed(moments: seq<Keyspace>, prefix: string) {
    forall i :: 0 <= i < |moments| ==> WellKeyed(moments[i], prefix)
  }

  predicate AllWorkerKeys(keys: seq<string>, prefix: string) {
    forall i :: 0 <= i < |keys| ==> IsPrefix(prefix + GlobPattern.MARK, keys[i])
  }

  lemma {:induction false} ReadBatchKeeps(ids: seq<string>, keys: seq<string>, moments: seq<Keyspace>, start: nat,
                                          prefix: string, visited: seq<string>)
    requires start + |keys| <= |moments| && AllWorkerKeys(keys, prefix)
    requires ReadSoFar(ids, moments, prefix, visited)
    ensures ReadSoFar(ids + Read(keys, moments, start), moments, prefix, visited + keys)
  {
    if keys == [] {
      assert ids + Read(keys, moments, start) == ids && visited + keys == visited;
    } else {
      var n := |keys| - 1;
      ReadBatchKeeps(ids, keys[..n], moments, start, prefix, visited);
      ReadLast(ids, keys, moments, start);
      assert visited + keys == (visited + keys[..n]) + [keys[n]];
      ReadKey(ids + Read(keys[..n], moments, start), moments, prefix, visited + keys[..n], start + n, keys[n]);
    }
  }

  /** The inner loop over the keys of one SCAN reply. */
  method ReadBatch(keys: seq<string>, moments: seq<Keyspace>, start: nat) returns (ids: seq<string>)
    requires start + |keys| <= |moments|
    ensures ids == Read(keys, moments, start)
  {
    ids := [];
    for j := 0 to |keys|
      invariant ids == Read(keys[..j], moments, start)
    {
      assert keys[..j + 1][..j] == keys[..j];
      if keys[j] in moments[start + j] {
        ids := ids + [moments[start + j][keys[j]].workerId];
      }
    }
    assert keys[..|keys|] == keys;
  }

  lemma ScannedKeysAreWorkerKeys(batches: seq<seq<string>>, moments: seq<Keyspace>, prefix: string, i: nat)
    requires FullScan(batches, moments, prefix) && i < |batches|
    ensures AllWorkerKeys(batches[i], prefix)
  {
    forall j | 0 <= j < |batches[i]| ensures IsPrefix(prefix + GlobPattern.MARK, batches[i][j]) {
      assert batches[i][j] in batches[i];
      WorkerKeysMatch(prefix, batches[i][j]);
    }
  }

  /** The ids that the whole loop reads, and the keys it asks for. */
  function ReadAll(batches: seq<seq<string>>, moments: seq<Keyspace>): seq<string>
    requires Commands(batches) <= |moments|
  {
    if batches == [] then []
    else
      var n := |batches| - 1;
      ReadAll(batches[..n], moments) + Read(batches[n], moments, Commands(batches[..n]) + 1)
  }

  function Flat(batches: seq<seq<string>>): seq<string> {
    if batches == [] then [] else Flat(batches[..|batches| - 1]) + batches[|batches| - 1]
  }

  lemma {:induction false} FlatHolds(batches: seq<seq<string>>, key: string)
    requires InBatches(batches, key)
    ensures key in Flat(batches)
  {
    var i :| 0 <= i < |batches| && key in batches[i];
    var n := |batches| - 1;
    if i < n {
      assert key in batches[..n][i];
      FlatHolds(batches[..n], key);
    }
  }

  lemma {:induction false} ReadAllKeeps(batches: seq<seq<string>>, moments: seq<Keyspace>, prefix: string)
    requires Commands(batches) <= |moments|
    requires forall i :: 0 <= i < |batches| ==> AllWorkerKeys(batches[i], prefix)
    ensures ReadSoFar(ReadAll(batches, moments), moments, prefix, Flat(batches))
  {
    if batches != [] {
      var n := |batches| - 1;
      ReadAllKeeps(batches[..n], moments, prefix);
      ReadBatchKeeps(ReadAll(batches[..n], moments), batches[n], moments, Commands(batches[..n]) + 1, prefix,
                     Flat(batches[..n]));
    }
  }

  /** What is listed, whatever the keys under the prefix hold. */
  ghost predicate ListsNames(result: seq<string>, moments: seq<Keyspace>, prefix: string) {
    && (forall key, w :: AlwaysNames(moments, key, w) && IsPrefix(prefix + GlobPattern.MARK, key) ==> w in result)
    && (forall w :: w in result ==> SometimeNames(moments, prefix, w))
  }

  /** What is listed, in terms of the workers' own keys. */
  ghost predicate ListsWorkers(result: seq<string>, moments: seq<Keyspace>, prefix: string) {
    && (forall w :: ThroughoutIn(moments, WorkerKey(prefix, w)) ==> w in result)
    && (forall w :: w in result ==> SometimeIn(moments, WorkerKey(prefix, w)))
  }

  /** The listing is sound and complete for what was live while the scan ran. */
  lemma ListingIsRight(result: seq<string>, batches: seq<seq<string>>, moments: seq<Keyspace>, prefix: string)
    requires |moments| == Commands(batches) && FullScan(batches, moments, prefix)
    requires Elements(result) == Elements(ReadAll(batches, moments))
    ensures ListsNames(result, moments, prefix)
    ensures AllWellKeyed(moments, prefix) ==> ListsWorkers(result, moments, prefix)
  {
    forall i | 0 <= i < |batches| ensures AllWorkerKeys(batches[i], prefix) {
      ScannedKeysAreWorkerKeys(batches, moments, prefix, i);
    }
    ReadAllKeeps(batches, moments, prefix);
    var ids := ReadAll(batches, moments);
    forall key, w | AlwaysNames(moments, key, w) && IsPrefix(prefix + GlobPattern.MARK, key) ensures w in result {
      assert ThroughoutIn(moments, key);
      WorkerKeysMatch(prefix, key);
      FlatHolds(batches, key);
      assert w in ids;
      assert w in Elements(ids);
    }
    forall w | w in result ensures SometimeNames(moments, prefix, w) {
      assert w in Elements(result);
    }
    if AllWellKeyed(moments, prefix) {
      NamesAreWorkers(result, moments, prefix);
    }
  }

  /** If every hash is stored under its own key, what is named is what is there. */
  lemma NamesAreWorkers(result: seq<string>, moments: seq<Keyspace>, prefix: string)
    requires AllWellKeyed(moments, prefix) && ListsNames(result, moments, prefix)
    ensures ListsWorkers(result, moments, prefix)
  {
    forall w | ThroughoutIn(moments, WorkerKey(prefix, w)) ensures w in result {
      WorkerKeyHasPrefix(prefix, w);
      forall i | 0 <= i < |moments| ensures moments[i][WorkerKey(prefix, w)].workerId == w {
        KeysAreInjective(prefix, w, moments[i][WorkerKey(prefix, w)].workerId);
      }
      assert AlwaysNames(moments, WorkerKey(prefix, w), w);
    }
    forall w | w in result ensures SometimeIn(moments, WorkerKey(prefix, w)) {
      assert SometimeNames(moments, prefix, w);
    }
  }

  /**
   The loop: `batches` are the SCAN replies up to the one whose cursor is 0, and `moments` the live keys at
   each command it sends.
   */
  method AvailableWorkers(prefix: string, batches: seq<seq<string>>, moments: seq<Keyspace>)
    returns (result: seq<string>)
    requires |moments| == Commands(batches)
    requires FullScan(batches, moments, prefix)
    ensures StrictlySorted(result)
    ensures ListsNames(result, moments, prefix)
    ensures AllWellKeyed(moments, prefix) ==> ListsWorkers(result, moments, prefix)
  {
    var ids := ReadEverything(batches, moments);
    result := SortAndDedup(ids);
    ListingIsRight(result, batches, moments, prefix);
  }

  /** The outer loop, one SCAN per reply. */
  method ReadEverything(batches: seq<seq<string>>, moments: seq<Keyspace>) returns (ids: seq<string>)
    requires |moments| == Commands(batches)
    ensures ids == ReadAll(batches, moments)
  {
    ids := [];
    var c := 0;
    assert batches[..0] == [];
    for i := 0 to |batches|
      invariant c == Commands(batches[..i]) <= |moments|
      invariant ids == ReadAll(batches[..i], moments)
    {
      CommandsSplit(batches, i);
      assert batches[..i + 1][..i] == batches[..i];
      var more := ReadBatch(batches[i], moments, c + 1);
      ids := ids + more;
      c := c + 1 + |batches[i]|;
    }
    assert batches[..|batches|] == batches;
  }

  // ---------------------------------------------------------------------------------------------
  // When every hash is stored under its own key
  // ---------------------------------------------------------------------------------------------

  /** The live keys of a registry's database. */
  function KeysOf(db: Db): Keyspace {
    map key | key in db :: db[key].registration
  }

  /** The registry itself stores every hash under its worker's key, after any timed trace. */
  lemma RegistryIsWellKeyed(trace: seq<Timed>, prefix: string, ttl: nat, lag: nat)
    requires ttl > 0 && Monotone(trace)
    ensures WellKeyed(KeysOf(RedisRun(trace, prefix, ttl, lag).0), prefix)
  {
    SameRuns(trace, prefix, ttl, lag);
  }

  /** Two registries interfere: one's keys can match the other's pattern. */
  predicate Interferes(p: string, q: string) {
    IsPrefix(p + GlobPattern.MARK, q + GlobPattern.MARK) || IsPrefix(q + GlobPattern.MARK, p + GlobPattern.MARK)
  }

  /** Some worker of the registry with prefix `q` shows up in a scan for `p` exactly when they interfere. */
  lemma ForeignKeysMatchExactlyWhen(p: string, q: string)
    ensures (exists w :: Matching(p, WorkerKey(q, w))) <==> Interferes(p, q)
  {
    var a, b := p + GlobPattern.MARK, q + GlobPattern.MARK;
    if w :| Matching(p, WorkerKey(q, w)) {
      WorkerKeysMatch(p, WorkerKey(q, w));
      WorkerKeyHasPrefix(q, w);
      PrefixesAreNested(a, b, WorkerKey(q, w));
    }
    if Interferes(p, q) {
      var w := if IsPrefix(a, b) then "" else a[|b|..];
      assert IsPrefix(a, WorkerKey(q, w)) by {
        assert WorkerKey(q, w) == b + w;
      }
      WorkerKeysMatch(p, WorkerKey(q, w));
    }
  }

  lemma PrefixesAreNested(a: string, b: string, s: string)
    requires IsPrefix(a, s) && IsPrefix(b, s)
    ensures IsPrefix(a, b) || IsPrefix(b, a)
  {
    if |a| <= |b| {
      assert b[..|a|] == s[..|b|][..|a|] == s[..|a|];
    } else {
      assert a[..|b|] == s[..|a|][..|b|] == s[..|b|];
    }
  }

  /** The keyspace holds only hashes that the registries with these two prefixes wrote. */
  predicate SharedBy(keys: Keyspace, p: string, q: string) {
    forall key :: key in keys ==>
      key == WorkerKey(p, keys[key].workerId) || key == WorkerKey(q, keys[key].workerId)
  }

  lemma SharedDatabaseIsWellKeyed(keys: Keyspace, p: string, q: string)
    requires SharedBy(keys, p, q) && (p == q || !Interferes(p, q))
    ensures WellKeyed(keys, p)
  {
    if p != q {
      ForeignKeysMatchExactlyWhen(p, q);
      forall key | key in keys && IsPrefix(p + GlobPattern.MARK, key)
        ensures key == WorkerKey(p, keys[key].workerId)
      {
        WorkerKeysMatch(p, key);
        assert !Matching(p, WorkerKey(q, keys[key].workerId));
      }
    }
  }

  lemma KeyTellsPrefix(p: string, q: string, w: string)
    requires WorkerKey(p, w) == WorkerKey(q, w)
    ensures p == q
  {
    assert |WorkerKey(p, w)| - |w| == |p| + |GlobPattern.MARK|;
    assert p == WorkerKey(p, w)[..|p|] && q == WorkerKey(q, w)[..|q|];
  }

  /** One worker of an interfering registry is enough to break it. */
  lemma InterferingRegistry(p: string, q: string) returns (keys: Keyspace)
    requires p != q && Interferes(p, q)
    ensures SharedBy(keys, p, q) && !WellKeyed(keys, p)
  {
    ForeignKeysMatchExactlyWhen(p, q);
    var w :| Matching(p, WorkerKey(q, w));
    var key := WorkerKey(q, w);
    WorkerKeysMatch(p, key);
    keys := map[key := Registration(w, "", "")];
    if key == WorkerKey(p, w) {
      KeyTellsPrefix(p, q, w);
    }
  }

  /** A database shared by two registries is well keyed, whatever they hold, exactly when they do not interfere. */
  lemma SharedDatabaseIsWellKeyedExactlyWhen(p: string, q: string)
    ensures (forall keys :: SharedBy(keys, p, q) ==> WellKeyed(keys, p)) <==> p == q || !Interferes(p, q)
  {
    if p == q || !Interferes(p, q) {
      forall keys | SharedBy(keys, p, q) ensures WellKeyed(keys, p) {
        SharedDatabaseIsWellKeyed(keys, p, q);
      }
    } else {
      var keys := InterferingRegistry(p, q);
    }
  }
}
