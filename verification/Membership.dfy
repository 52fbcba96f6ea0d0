/** Core's registration and heartbeat handlers (src/api/grpc.rs) over the worker registry. */
module Membership {
  import opened Common
  import opened Text
  import opened WorkerRegistry
  import IncarnationId

  datatype MembershipError =
    | RegistrationRequired
    | WorkerIdRequired
    | GenerationRequired
    | HeartbeatRequired
    | MalformedRuntimeId
    | WorkerNotRegistered
    | StaleWorkerGeneration

  /** Core accepts a registration when neither part of the incarnation is blank. */
  predicate Acceptable(reg: Registration) {
    !Blank(reg.workerId) && !Blank(reg.generation)
  }

  /** `register_worker`; `None` is a request without a registration. */
  method RegisterWorker(registry: MemoryWorkerRegistry, registration: Option<Registration>, now: nat)
    returns (r: Result<RegistrationOutcome, MembershipError>)
    modifies registry
    ensures r.Ok? <==> registration.Some? && Acceptable(registration.value)
    ensures r.Ok? ==>
      (registry.workers, r.value) == Register(old(registry.workers), registration.value, now, registry.ttl)
    ensures r.Err? ==> registry.workers == old(registry.workers)
    ensures r == Err(RegistrationRequired) <==> registration.None?
    ensures r == Err(WorkerIdRequired) <==> registration.Some? && Blank(registration.value.workerId)
    ensures r == Err(GenerationRequired) <==>
      registration.Some? && !Blank(registration.value.workerId) && Blank(registration.value.generation)
  {
    if registration.None? {
      return Err(RegistrationRequired);
    }
    var reg := registration.value;
    if Blank(reg.workerId) {
      return Err(WorkerIdRequired);
    }
    if Blank(reg.generation) {
      return Err(GenerationRequired);
    }
    var outcome := registry.RegisterWorker(reg, now);
    r := Ok(outcome);
  }

  /** What a heartbeat naming `runtimeId` answers on a registry holding `m`. */
  function HeartbeatAnswer(m: Workers, runtimeId: string, now: nat, ttl: nat): (Workers, Result<(), MembershipError>) {
    match IncarnationId.Parse(runtimeId)
    case None => (m, Err(MalformedRuntimeId))
    case Some((w, g)) =>
      var (m', outcome) := Heartbeat(m, w, g, now, ttl);
      (m', match outcome
           case Beat => Ok(())
           case UnknownWorker => Err(WorkerNotRegistered)
           case StaleGeneration => Err(StaleWorkerGeneration))
  }

  /** `report_heartbeat`; `None` is a request without a heartbeat. */
  method ReportHeartbeat(registry: MemoryWorkerRegistry, runtimeId: Option<string>, now: nat)
    returns (r: Result<(), MembershipError>)
    modifies registry
    ensures runtimeId.None? ==> r == Err(HeartbeatRequired) && registry.workers == old(registry.workers)
    ensures runtimeId.Some? ==>
      (registry.workers, r) == HeartbeatAnswer(old(registry.workers), runtimeId.value, now, registry.ttl)
    ensures r == Err(HeartbeatRequired) <==> runtimeId.None?
    ensures r == Err(MalformedRuntimeId) <==> runtimeId.Some? && IncarnationId.Parse(runtimeId.value).None?
    ensures r.Err? ==> registry.workers == old(registry.workers)
    ensures runtimeId.Some? && IncarnationId.Parse(runtimeId.value).Some? ==>
      var (w, g) := IncarnationId.Parse(runtimeId.value).value;
      && (r == Err(WorkerNotRegistered) <==> !Live(old(registry.workers), w, now))
      && (r == Err(StaleWorkerGeneration) <==>
            Live(old(registry.workers), w, now) && old(registry.workers)[w].registration.generation != g)
      && (r.Ok? ==> w in registry.workers && registry.workers[w].expiresAt == now + registry.ttl)
  {
    if runtimeId.None? {
      return Err(HeartbeatRequired);
    }
    var parsed := IncarnationId.Parse(runtimeId.value);
    if parsed.None? {
      return Err(MalformedRuntimeId);
    }
    var (w, g) := parsed.value;
    var outcome := registry.ReportHeartbeat(w, g, now);
    match outcome
    case Beat => r := Ok(());
    case UnknownWorker => r := Err(WorkerNotRegistered);
    case StaleGeneration => r := Err(StaleWorkerGeneration);
  }

  /**
   A worker whose registration Core accepted can heartbeat under its printed incarnation id: accepted until
   the TTL has passed, refused as unknown from then on.
   */
  lemma AcceptedWorkersCanHeartbeat(m: Workers, reg: Registration, at: nat, now: nat, ttl: nat)
    requires Acceptable(reg) && ByteLen(reg.workerId) <= U64_MAX && at <= now
    ensures var m' := Register(m, reg, at, ttl).0;
      var answer := HeartbeatAnswer(m', IncarnationId.Print(reg.workerId, reg.generation), now, ttl).1;
      answer == if now < at + ttl then Ok(()) else Err(WorkerNotRegistered)
  {
    IncarnationId.RoundTrip(reg.workerId, reg.generation);
  }

  /** A heartbeat of an earlier generation is refused and changes nothing once the worker is replaced. */
  lemma ReplacedGenerationIsRefused(m: Workers, reg: Registration, previous: string, at: nat, now: nat, ttl: nat)
    requires Acceptable(reg) && ByteLen(reg.workerId) <= U64_MAX && at <= now < at + ttl
    requires previous != [] && previous != reg.generation
    ensures var m' := Register(m, reg, at, ttl).0;
      HeartbeatAnswer(m', IncarnationId.Print(reg.workerId, previous), now, ttl) == (m', Err(StaleWorkerGeneration))
  {
    IncarnationId.RoundTrip(reg.workerId, previous);
  }
}
