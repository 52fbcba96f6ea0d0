/**
 The memory registry's state as a function of the calls made so far: who is a member, with which generation,
 and which registration is stored for it.
 */
module RegistryHistory {
  import opened Common
  import opened Text
  import opened WorkerRegistry

  predicate Registers(t: Timed, w: string, g: string) {
    t.op.RegisterOp? && t.op.registration.workerId == w && t.op.registration.generation == g
  }

  /** A call that keeps generation `g` of worker `w` alive, if it still is. */
  predicate Refreshes(t: Timed, w: string, g: string) {
    Registers(t, w, g) || (t.op.HeartbeatOp? && t.op.worker == w && t.op.generation == g)
  }

  /** A registration of the worker under another generation. */
  predicate Replaces(t: Timed, w: string, g: string) {
    t.op.RegisterOp? && t.op.registration.workerId == w && t.op.registration.generation != g
  }

  /**
   Call `k` registered generation `g` of worker `w`, no later registration of the worker changed the
   generation, and no gap between successive refreshes, the last one up to `now`, reached the TTL.
   */
  predicate Streak(trace: seq<Timed>, k: nat, w: string, g: string, now: nat, ttl: nat)
    requires k < |trace|
  {
    var n := |trace| - 1;
    if k == n then Registers(trace[n], w, g) && now < trace[n].now + ttl
    else if Replaces(trace[n], w, g) then false
    else if Refreshes(trace[n], w, g) then
      now < trace[n].now + ttl && Streak(trace[..n], k, w, g, trace[n].now, ttl)
    else Streak(trace[..n], k, w, g, now, ttl)
  }

  /** The call that began the current streak: the earliest one that is still unbroken. */
  predicate Began(trace: seq<Timed>, k: nat, w: string, g: string, now: nat, ttl: nat) {
    k < |trace| && Streak(trace, k, w, g, now, ttl)
    && forall i :: 0 <= i < k ==> !Streak(trace, i, w, g, now, ttl)
  }

  ghost predicate Alive(trace: seq<Timed>, w: string, g: string, now: nat, ttl: nat) {
    exists k :: 0 <= k < |trace| && Streak(trace, k, w, g, now, ttl)
  }

  /** By its history the worker is a member at `now`, under some generation. */
  ghost predicate Present(trace: seq<Timed>, w: string, now: nat, ttl: nat) {
    exists g :: Alive(trace, w, g, now, ttl)
  }

  /** Worker `w` is a live member under generation `g`. */
  predicate Member(m: Workers, w: string, g: string, now: nat) {
    Live(m, w, now) && m[w].registration.generation == g
  }

  predicate NotBefore(trace: seq<Timed>, now: nat) {
    forall i :: 0 <= i < |trace| ==> trace[i].now <= now
  }

  // ---------------------------------------------------------------------------------------------
  // One call
  // ---------------------------------------------------------------------------------------------

  /** Membership after a call, from membership before it. */
  lemma MemberStep(m: Workers, t: Timed, ttl: nat, w: string, g: string, now: nat)
    requires t.now <= now
    ensures var m' := MemoryStep(m, t, ttl).0;
      Member(m', w, g, now) <==>
        if Replaces(t, w, g) then false
        else if Registers(t, w, g) then now < t.now + ttl
        else if Refreshes(t, w, g) then now < t.now + ttl && Member(m, w, g, t.now)
        else Member(m, w, g, now)
  {
  }

  predicate Beats(t: Timed, w: string, g: string) {
    t.op.HeartbeatOp? && t.op.worker == w && t.op.generation == g
  }

  /** An entry is new when a registration finds no live entry of its generation; a heartbeat notes its time. */
  lemma EntryStep(m: Workers, t: Timed, ttl: nat, w: string, g: string, now: nat)
    requires t.now <= now && Member(MemoryStep(m, t, ttl).0, w, g, now)
    ensures var novel := Registers(t, w, g) && !Member(m, w, g, t.now);
      var e := MemoryStep(m, t, ttl).0[w];
      && (novel ==> e.registration == t.op.registration && e.registeredAt == t.now && e.lastHeartbeat == None)
      && (!novel ==>
            && w in m && e.registration == m[w].registration && e.registeredAt == m[w].registeredAt
            && e.lastHeartbeat == if Beats(t, w, g) then Some(t.now) else m[w].lastHeartbeat)
  {
  }

  /** Streaks after a call, from streaks before it. */
  lemma StreakStep(trace: seq<Timed>, k: nat, w: string, g: string, now: nat, ttl: nat)
    requires k + 1 < |trace|
    ensures var n := |trace| - 1;
      Streak(trace, k, w, g, now, ttl) <==>
        if Replaces(trace[n], w, g) then false
        else if Refreshes(trace[n], w, g) then
          now < trace[n].now + ttl && Streak(trace[..n], k, w, g, trace[n].now, ttl)
        else Streak(trace[..n], k, w, g, now, ttl)
  {
  }

  lemma AliveStep(trace: seq<Timed>, w: string, g: string, now: nat, ttl: nat)
    requires trace != []
    ensures var n := |trace| - 1;
      var t := trace[n];
      Alive(trace, w, g, now, ttl) <==>
        if Replaces(t, w, g) then false
        else if Registers(t, w, g) then now < t.now + ttl
        else if Refreshes(t, w, g) then now < t.now + ttl && Alive(trace[..n], w, g, t.now, ttl)
        else Alive(trace[..n], w, g, now, ttl)
  {
    var n := |trace| - 1;
    var t := trace[n];
    if Registers(t, w, g) && now < t.now + ttl {
      assert Streak(trace, n, w, g, now, ttl);
    }
    if k :| 0 <= k < |trace| && Streak(trace, k, w, g, now, ttl) {
      if k < n {
        StreakStep(trace, k, w, g, now, ttl);
      }
    }
    var end := if Refreshes(t, w, g) then t.now else now;
    if k :| 0 <= k < n && Streak(trace[..n], k, w, g, end, ttl) {
      StreakStep(trace, k, w, g, now, ttl);
    }
  }

  // ---------------------------------------------------------------------------------------------
  // Whole histories
  // ---------------------------------------------------------------------------------------------

  /** A worker is a member under a generation exactly when some unbroken streak of it reaches to now. */
  lemma {:induction false} MembershipIsHistory(trace: seq<Timed>, w: string, g: string, now: nat, ttl: nat)
    requires Monotone(trace) && NotBefore(trace, now)
    ensures Member(MemoryRun(trace, ttl).0, w, g, now) <==> Alive(trace, w, g, now, ttl)
    decreases |trace|
  {
    if trace != [] {
      var n := |trace| - 1;
      var t := trace[n];
      MembershipIsHistory(trace[..n], w, g, t.now, ttl);
      MembershipIsHistory(trace[..n], w, g, now, ttl);
      MemberStep(MemoryRun(trace[..n], ttl).0, t, ttl, w, g, now);
      AliveStep(trace, w, g, now, ttl);
    }
  }

  /** The time of the last heartbeat of the generation after call `k`. */
  function LastBeat(trace: seq<Timed>, k: nat, w: string, g: string): Option<nat>
    requires k < |trace|
  {
    var n := |trace| - 1;
    if k == n then None
    else if Beats(trace[n], w, g) then Some(trace[n].now)
    else LastBeat(trace[..n], k, w, g)
  }

  /**
   The stored registration and its time are those of the call that began the streak, and the stored heartbeat
   is the last one since.
   */
  lemma {:induction false} EntryIsHistory(trace: seq<Timed>, w: string, g: string, now: nat, ttl: nat)
    returns (k: nat)
    requires Monotone(trace) && NotBefore(trace, now)
    requires Member(MemoryRun(trace, ttl).0, w, g, now)
    ensures Began(trace, k, w, g, now, ttl)
    ensures Registers(trace[k], w, g)
    ensures var e := MemoryRun(trace, ttl).0[w];
      && e.registration == trace[k].op.registration && e.registeredAt == trace[k].now
      && e.lastHeartbeat == LastBeat(trace, k, w, g)
    decreases |trace|
  {
    var n := |trace| - 1;
    var t := trace[n];
    var shorter := trace[..n];
    var m := MemoryRun(shorter, ttl).0;
    MemberStep(m, t, ttl, w, g, now);
    EntryStep(m, t, ttl, w, g, now);
    if Registers(t, w, g) && !Member(m, w, g, t.now) {
      k := n;
      MembershipIsHistory(shorter, w, g, t.now, ttl);
      forall i | 0 <= i < n ensures !Streak(trace, i, w, g, now, ttl) {
        StreakStep(trace, i, w, g, now, ttl);
      }
    } else {
      var when := if Refreshes(t, w, g) then t.now else now;
      k := EntryIsHistory(shorter, w, g, when, ttl);
      StreakStep(trace, k, w, g, now, ttl);
      forall i | 0 <= i < k ensures !Streak(trace, i, w, g, now, ttl) {
        StreakStep(trace, i, w, g, now, ttl);
      }
    }
  }

  /** A heartbeat succeeds exactly when an unbroken streak of its generation reaches to now. */
  lemma HeartbeatExactlyWhenAlive(trace: seq<Timed>, w: string, g: string, now: nat, ttl: nat)
    requires Monotone(trace) && NotBefore(trace, now)
    ensures Heartbeat(MemoryRun(trace, ttl).0, w, g, now, ttl).1 == Beat <==> Alive(trace, w, g, now, ttl)
  {
    MembershipIsHistory(trace, w, g, now, ttl);
  }

  /** At most one generation of a worker is alive at a time, so a stale heartbeat never revives one. */
  lemma OneGenerationAtATime(trace: seq<Timed>, w: string, g: string, g': string, now: nat, ttl: nat)
    requires Monotone(trace) && NotBefore(trace, now)
    requires Alive(trace, w, g, now, ttl) && Alive(trace, w, g', now, ttl)
    ensures g == g'
  {
    MembershipIsHistory(trace, w, g, now, ttl);
    MembershipIsHistory(trace, w, g', now, ttl);
  }

  // ---------------------------------------------------------------------------------------------
  // The answers
  // ---------------------------------------------------------------------------------------------

  /** Liveness of an entry from the call history. */
  lemma LiveIsHistory(trace: seq<Timed>, w: string, now: nat, ttl: nat)
    requires Monotone(trace) && NotBefore(trace, now)
    ensures Live(MemoryRun(trace, ttl).0, w, now) <==> Present(trace, w, now, ttl)
  {
    var m := MemoryRun(trace, ttl).0;
    if Live(m, w, now) {
      MembershipIsHistory(trace, w, m[w].registration.generation, now, ttl);
    }
    forall g | Alive(trace, w, g, now, ttl) ensures Live(m, w, now) {
      MembershipIsHistory(trace, w, g, now, ttl);
    }
  }

  /** A generation of the worker other than `g` is alive. */
  ghost predicate OtherAlive(trace: seq<Timed>, w: string, g: string, now: nat, ttl: nat) {
    exists h :: h != g && Alive(trace, w, h, now, ttl)
  }

  /** What the calls before it say about the answer to a call. */
  ghost predicate AnsweredBy(before: seq<Timed>, t: Timed, ttl: nat, a: Answer) {
    match t.op
    case RegisterOp(reg) =>
      var w, g := reg.workerId, reg.generation;
      && a.Registered?
      && (a.outcome == New <==> !Present(before, w, t.now, ttl))
      && (a.outcome == Idempotent <==> Alive(before, w, g, t.now, ttl))
      && (a.outcome == Replaced <==> OtherAlive(before, w, g, t.now, ttl))
    case HeartbeatOp(w, g) =>
      && a.Answered?
      && (a.beat == UnknownWorker <==> !Present(before, w, t.now, ttl))
      && (a.beat == Beat <==> Alive(before, w, g, t.now, ttl))
      && (a.beat == StaleGeneration <==> OtherAlive(before, w, g, t.now, ttl))
    case ListOp =>
      && a.Listed? && StrictlySorted(a.ids)
      && forall w :: w in a.ids <==> Present(before, w, t.now, ttl)
  }

  /** A live entry stands for the one generation that is alive. */
  lemma OneAlive(trace: seq<Timed>, w: string, g: string, now: nat, ttl: nat)
    requires Monotone(trace) && NotBefore(trace, now)
    ensures var m := MemoryRun(trace, ttl).0;
      && (Live(m, w, now) <==> Present(trace, w, now, ttl))
      && (Live(m, w, now) && m[w].registration.generation == g <==> Alive(trace, w, g, now, ttl))
      && (Live(m, w, now) && m[w].registration.generation != g <==> OtherAlive(trace, w, g, now, ttl))
  {
    var m := MemoryRun(trace, ttl).0;
    LiveIsHistory(trace, w, now, ttl);
    MembershipIsHistory(trace, w, g, now, ttl);
    if Live(m, w, now) {
      MembershipIsHistory(trace, w, m[w].registration.generation, now, ttl);
    }
    forall h | Alive(trace, w, h, now, ttl) ensures Member(m, w, h, now) {
      MembershipIsHistory(trace, w, h, now, ttl);
    }
  }

  /** The next answer of the memory registry, from the history. */
  lemma NextAnswer(before: seq<Timed>, t: Timed, ttl: nat)
    requires Monotone(before) && NotBefore(before, t.now)
    ensures AnsweredBy(before, t, ttl, MemoryStep(MemoryRun(before, ttl).0, t, ttl).1)
  {
    match t.op
    case RegisterOp(reg) => OneAlive(before, reg.workerId, reg.generation, t.now, ttl);
    case HeartbeatOp(w, g) => OneAlive(before, w, g, t.now, ttl);
    case ListOp => ListAnswer(before, t.now, ttl);
  }

  lemma ListAnswer(before: seq<Timed>, now: nat, ttl: nat)
    requires Monotone(before) && NotBefore(before, now)
    ensures forall w :: w in Sorted(Retained(MemoryRun(before, ttl).0, now).Keys) <==> Present(before, w, now, ttl)
  {
    var m := MemoryRun(before, ttl).0;
    var ids := Sorted(Retained(m, now).Keys);
    forall w ensures w in ids <==> Present(before, w, now, ttl) {
      LiveIsHistory(before, w, now, ttl);
      assert w in ids <==> w in Elements(ids);
    }
  }

  lemma {:induction false} AnswerAt(trace: seq<Timed>, i: nat, ttl: nat)
    requires i < |trace|
    ensures |MemoryRun(trace, ttl).1| == |trace|
    ensures MemoryRun(trace, ttl).1[i] == MemoryStep(MemoryRun(trace[..i], ttl).0, trace[i], ttl).1
    decreases |trace|
  {
    var n := |trace| - 1;
    if i < n {
      AnswerAt(trace[..n], i, ttl);
      assert trace[..n][..i] == trace[..i];
    } else if n > 0 {
      AnswerAt(trace[..n], 0, ttl);
    }
  }

  /** Over every timed trace, every answer of the memory registry follows from the calls before it. */
  lemma AnswersAreHistory(trace: seq<Timed>, i: nat, ttl: nat)
    requires Monotone(trace) && i < |trace|
    ensures |MemoryRun(trace, ttl).1| == |trace| && AnsweredBy(trace[..i], trace[i], ttl, MemoryRun(trace, ttl).1[i])
  {
    AnswerAt(trace, i, ttl);
    NextAnswer(trace[..i], trace[i], ttl);
  }

  /** So does every answer of the Redis registry, for the TTL with Redis's lag. */
  lemma RedisAnswersAreHistory(trace: seq<Timed>, i: nat, prefix: string, ttl: nat, lag: nat)
    requires ttl > 0 && Monotone(trace) && i < |trace|
    ensures |RedisRun(trace, prefix, ttl, lag).1| == |trace|
    ensures AnsweredBy(trace[..i], trace[i], ttl + lag, RedisRun(trace, prefix, ttl, lag).1[i])
  {
    AnswersAreHistory(trace, i, ttl + lag);
    LazyExpiryRefinesEagerExpiry(trace, prefix, ttl, lag);
  }
}
