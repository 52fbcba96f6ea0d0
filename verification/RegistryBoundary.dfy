/**
 The memory registry beside a Redis registry with the same TTL that keeps a key `lag` milliseconds past its
 deadline (src/worker_registry.rs): on which timed traces they give the same answers.
 */
module RegistryBoundary {
  import opened Common
  import opened Text
  import opened WorkerRegistry
  import opened RegistryHistory

  /** The call registers or beats worker `w`, or lists all workers. */
  predicate Concerns(t: Timed, w: string) {
    match t.op
    case RegisterOp(reg) => reg.workerId == w
    case HeartbeatOp(v, _) => v == w
    case ListOp => true
  }

  /** Call `j` concerns a worker whose TTL has passed, but by less than `lag`. */
  ghost predicate Noticed(trace: seq<Timed>, j: nat, ttl: nat, lag: nat)
    requires j < |trace|
  {
    exists w ::
      && Concerns(trace[j], w)
      && Present(trace[..j], w, trace[j].now, ttl + lag)
      && !Present(trace[..j], w, trace[j].now, ttl)
  }

  ghost predicate NoneNoticed(trace: seq<Timed>, ttl: nat, lag: nat) {
    forall j :: 0 <= j < |trace| ==> !Noticed(trace, j, ttl, lag)
  }

  // ---------------------------------------------------------------------------------------------
  // One call
  // ---------------------------------------------------------------------------------------------

  /** The same entries, each kept `lag` longer on the right. */
  ghost predicate Shifted(m: Workers, m': Workers, lag: nat) {
    && m'.Keys == m.Keys
    && forall w :: w in m ==> m'[w] == m[w].(expiresAt := m[w].expiresAt + lag)
  }

  /** Only the right side still counts the worker as live. */
  predicate Outlives(m: Workers, m': Workers, w: string, now: nat) {
    Live(m', w, now) && !Live(m, w, now)
  }

  /** Without such workers both sides keep the same entries and list the same ids. */
  lemma UnnoticedListing(m: Workers, m': Workers, now: nat, lag: nat)
    requires Shifted(m, m', lag) && forall w :: !Outlives(m, m', w, now)
    ensures Retained(m, now).Keys == Retained(m', now).Keys
    ensures Shifted(Retained(m, now), Retained(m', now), lag)
  {
    forall w ensures w in Retained(m, now) <==> w in Retained(m', now) {
      assert !Outlives(m, m', w, now);
      assert Live(m, w, now) ==> Live(m', w, now);
    }
  }

  /** A call that meets no such worker is answered alike. */
  lemma UnnoticedStep(m: Workers, m': Workers, t: Timed, ttl: nat, lag: nat)
    requires Shifted(m, m', lag) && forall w :: Concerns(t, w) ==> !Outlives(m, m', w, t.now)
    ensures MemoryStep(m, t, ttl).1 == MemoryStep(m', t, ttl + lag).1
    ensures Shifted(MemoryStep(m, t, ttl).0, MemoryStep(m', t, ttl + lag).0, lag)
  {
    if t.op.ListOp? {
      forall w ensures !Outlives(m, m', w, t.now) {
        assert Concerns(t, w);
      }
      UnnoticedListing(m, m', t.now, lag);
    } else {
      var w := if t.op.RegisterOp? then t.op.registration.workerId else t.op.worker;
      assert Concerns(t, w);
      assert Live(m, w, t.now) <==> Live(m', w, t.now);
    }
  }

  /** A call that meets one is answered differently. */
  lemma NoticedStep(m: Workers, m': Workers, t: Timed, ttl: nat, lag: nat, w: string)
    requires Concerns(t, w) && Outlives(m, m', w, t.now)
    ensures MemoryStep(m, t, ttl).1 != MemoryStep(m', t, ttl + lag).1
  {
    if t.op.ListOp? {
      assert w in Retained(m', t.now).Keys && w !in Retained(m, t.now).Keys;
      assert Elements(Sorted(Retained(m', t.now).Keys)) != Elements(Sorted(Retained(m, t.now).Keys));
    }
  }

  lemma NoticedIsOutlives(trace: seq<Timed>, j: nat, ttl: nat, lag: nat)
    requires Monotone(trace) && j < |trace|
    ensures Noticed(trace, j, ttl, lag) <==>
      exists w :: Concerns(trace[j], w) &&
        Outlives(MemoryRun(trace[..j], ttl).0, MemoryRun(trace[..j], ttl + lag).0, w, trace[j].now)
  {
    var now, m, m' := trace[j].now, MemoryRun(trace[..j], ttl).0, MemoryRun(trace[..j], ttl + lag).0;
    forall w ensures Outlives(m, m', w, now) <==>
                     Present(trace[..j], w, now, ttl + lag) && !Present(trace[..j], w, now, ttl)
    {
      LiveIsHistory(trace[..j], w, now, ttl);
      LiveIsHistory(trace[..j], w, now, ttl + lag);
    }
  }

  // ---------------------------------------------------------------------------------------------
  // Whole traces
  // ---------------------------------------------------------------------------------------------

  lemma NoneNoticedStep(trace: seq<Timed>, ttl: nat, lag: nat)
    requires trace != []
    ensures var n := |trace| - 1;
      NoneNoticed(trace, ttl, lag) <==> NoneNoticed(trace[..n], ttl, lag) && !Noticed(trace, n, ttl, lag)
  {
    var n := |trace| - 1;
    forall j | 0 <= j < n ensures Noticed(trace[..n], j, ttl, lag) <==> Noticed(trace, j, ttl, lag) {
      assert trace[..n][..j] == trace[..j];
    }
  }

  /** The memory registry under two TTLs. */
  lemma {:induction false} LagShowsExactlyWhenNoticed(trace: seq<Timed>, ttl: nat, lag: nat)
    requires Monotone(trace)
    ensures |MemoryRun(trace, ttl).1| == |MemoryRun(trace, ttl + lag).1| == |trace|
    ensures MemoryRun(trace, ttl).1 == MemoryRun(trace, ttl + lag).1 <==> NoneNoticed(trace, ttl, lag)
    ensures NoneNoticed(trace, ttl, lag) ==> Shifted(MemoryRun(trace, ttl).0, MemoryRun(trace, ttl + lag).0, lag)
  {
    if trace != [] {
      var n := |trace| - 1;
      LagShowsExactlyWhenNoticed(trace[..n], ttl, lag);
      NoneNoticedStep(trace, ttl, lag);
      NoticedIsOutlives(trace, n, ttl, lag);
      var m, m' := MemoryRun(trace[..n], ttl).0, MemoryRun(trace[..n], ttl + lag).0;
      LastAnswers(MemoryRun(trace[..n], ttl).1, MemoryStep(m, trace[n], ttl).1,
                  MemoryRun(trace[..n], ttl + lag).1, MemoryStep(m', trace[n], ttl + lag).1);
      if w :| Concerns(trace[n], w) && Outlives(m, m', w, trace[n].now) {
        NoticedStep(m, m', trace[n], ttl, lag, w);
      } else if NoneNoticed(trace[..n], ttl, lag) {
        UnnoticedStep(m, m', trace[n], ttl, lag);
      }
    }
  }

  lemma LastAnswers(s: seq<Answer>, a: Answer, t: seq<Answer>, b: Answer)
    requires |s| == |t|
    ensures s + [a] == t + [b] <==> s == t && a == b
  {
    assert s + [a] == t + [b] ==> (s + [a])[..|s|] == (t + [b])[..|s|] && (s + [a])[|s|] == (t + [b])[|s|];
  }

  /**
   With one and the same TTL the registries give the same answers exactly when no call concerns a worker
   whose TTL has passed by less than `lag`. Without a lag there is no such call.
   */
  lemma RegistriesAgreeExactlyWhen(trace: seq<Timed>, prefix: string, ttl: nat, lag: nat)
    requires ttl > 0 && Monotone(trace)
    ensures MemoryRun(trace, ttl).1 == RedisRun(trace, prefix, ttl, lag).1 <==> NoneNoticed(trace, ttl, lag)
  {
    LazyExpiryRefinesEagerExpiry(trace, prefix, ttl, lag);
    LagShowsExactlyWhenNoticed(trace, ttl, lag);
  }

  // ---------------------------------------------------------------------------------------------
  // Traces that keep clear of the boundary
  // ---------------------------------------------------------------------------------------------

  /** `now` is not in the `lag` milliseconds after the TTL of any call. */
  predicate Clear(trace: seq<Timed>, now: nat, ttl: nat, lag: nat) {
    forall i :: 0 <= i < |trace| ==> now < trace[i].now + ttl || now >= trace[i].now + ttl + lag
  }

  /** No call falls into the `lag` milliseconds after an earlier call's TTL. */
  predicate AvoidsBoundary(trace: seq<Timed>, ttl: nat, lag: nat) {
    forall j :: 0 <= j < |trace| ==> Clear(trace[..j], trace[j].now, ttl, lag)
  }

  lemma {:induction false} StreakShrinks(trace: seq<Timed>, k: nat, w: string, g: string, now: nat, ttl: nat, lag: nat)
    requires k < |trace| && AvoidsBoundary(trace, ttl, lag) && Clear(trace, now, ttl, lag)
    requires Streak(trace, k, w, g, now, ttl + lag)
    ensures Streak(trace, k, w, g, now, ttl)
    decreases |trace|
  {
    var n := |trace| - 1;
    if k < n {
      AvoidingPrefix(trace, ttl, lag);
      StreakShrinks(trace[..n], k, w, g, if Refreshes(trace[n], w, g) then trace[n].now else now, ttl, lag);
    }
  }

  lemma AvoidingPrefix(trace: seq<Timed>, ttl: nat, lag: nat)
    requires trace != [] && AvoidsBoundary(trace, ttl, lag)
    ensures AvoidsBoundary(trace[..|trace| - 1], ttl, lag)
  {
    var n := |trace| - 1;
    forall j | 0 <= j < n ensures Clear(trace[..n][..j], trace[..n][j].now, ttl, lag) {
      assert trace[..n][..j] == trace[..j];
    }
  }

  /** Off the boundary nothing is noticed, whomever the calls concern. */
  lemma RegistriesAgreeOffTheBoundary(trace: seq<Timed>, prefix: string, ttl: nat, lag: nat)
    requires ttl > 0 && Monotone(trace) && AvoidsBoundary(trace, ttl, lag)
    ensures MemoryRun(trace, ttl).1 == RedisRun(trace, prefix, ttl, lag).1
  {
    forall j, w | 0 <= j < |trace| && Present(trace[..j], w, trace[j].now, ttl + lag)
      ensures Present(trace[..j], w, trace[j].now, ttl)
    {
      var g :| Alive(trace[..j], w, g, trace[j].now, ttl + lag);
      var k :| 0 <= k < j && Streak(trace[..j], k, w, g, trace[j].now, ttl + lag);
      assert AvoidsBoundary(trace[..j], ttl, lag) by {
        forall i | 0 <= i < j ensures Clear(trace[..j][..i], trace[..j][i].now, ttl, lag) {
          assert trace[..j][..i] == trace[..i];
        }
      }
      StreakShrinks(trace[..j], k, w, g, trace[j].now, ttl, lag);
      assert Alive(trace[..j], w, g, trace[j].now, ttl);
    }
    RegistriesAgreeExactlyWhen(trace, prefix, ttl, lag);
  }

  function RegisterThenBeat(reg: Registration, at: nat, now: nat): seq<Timed> {
    [Timed(RegisterOp(reg), at), Timed(HeartbeatOp(reg.workerId, reg.generation), now)]
  }

  /** The smallest case: a heartbeat after a registration is answered differently exactly inside the window. */
  lemma RegistriesDifferAtTheBoundary(reg: Registration, at: nat, now: nat, prefix: string, ttl: nat, lag: nat)
    requires ttl > 0 && at <= now
    ensures var trace := RegisterThenBeat(reg, at, now);
      MemoryRun(trace, ttl).1 != RedisRun(trace, prefix, ttl, lag).1 <==> at + ttl <= now < at + ttl + lag
  {
    LazyExpiryRefinesEagerExpiry(RegisterThenBeat(reg, at, now), prefix, ttl, lag);
    BeatAnswer(reg, at, now, ttl);
    BeatAnswer(reg, at, now, ttl + lag);
  }

  lemma BeatAnswer(reg: Registration, at: nat, now: nat, ttl: nat)
    ensures MemoryRun(RegisterThenBeat(reg, at, now), ttl).1 ==
      [Registered(New), Answered(if now < at + ttl then Beat else UnknownWorker)]
  {
    var both := RegisterThenBeat(reg, at, now);
    var one := [both[0]];
    assert both[..1] == one && one[..0] == [];
    assert MemoryRun(one[..0], ttl) == (map[], []);
    var (m, answers) := MemoryRun(one, ttl);
    assert answers == [Registered(New)];
    assert m == map[reg.workerId := Entry(reg, at, None, at + ttl)];
  }
}
