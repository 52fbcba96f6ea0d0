/**
 How a runtime session's events become broker calls and reports to Core (src/worker/runtime.rs, the functions
 `handle_event`, `completed`, `failed` and `forward`).
 */
module RuntimeService {
  import opened Common
  import opened Assignments
  import opened PendingBroker
  import C = Core

  /** The events of a session; optional parts may be missing from the message. */
  datatype RuntimeEvent =
    | NoPayload
    | Ready
    | RuntimeHeartbeat
    | ExecutionStarted(id: string, executionId: string, sequence: nat, observedAt: Option<nat>)
    | ExecutionProgress(id: string, executionId: string, sequence: nat, inRange: bool)
    | ExecutionMetrics(id: string, executionId: string, sample: Sample)
    | ExecutionCompleted(
        id: string, executionId: string, sequence: nat, result: Option<C.Outcome>, observedAt: Option<nat>)
    | ExecutionFailed(
        id: string, executionId: string, sequence: nat, failure: Option<string>, observedAt: Option<nat>)

  datatype ServiceError =
    | PayloadRequired
    | ResultRequired
    | UnexpectedFailure
    | FailureRequired
    | Broker(error: Assignments.Error)
    | CoreRefused
    | CoreUnavailable

  /** A report on its way to Core; `request` holds the fields that Core reads. */
  datatype SessionReport = SessionReport(
    reportId: string,
    assignmentId: string,
    sequence: nat,
    observedAt: nat,
    request: C.Request)

  /** What handling an event takes from outside: the monotonic clock, the wall clock and a drawn UUID. */
  datatype Reading = Reading(now: nat, wall: nat, uuid: string)

  /** Core's reply to a forwarded report. */
  datatype Reply = ReplyAccepted | ReplyRefused | ReplyUnavailable

  /** The broker call an event asks for, if any, or why it is malformed. */
  function BrokerCall(ev: RuntimeEvent, now: nat): (r: Result<Option<Call>, ServiceError>)
    ensures r.Ok? && r.value.Some? ==> r.value.value.Handled?
  {
    match ev
    case NoPayload => Err(PayloadRequired)
    case Ready | RuntimeHeartbeat => Ok(None)
    case ExecutionStarted(id, e, n, _) => Ok(Some(Handled(id, e, Started(n, now))))
    case ExecutionProgress(id, e, n, inRange) => Ok(Some(Handled(id, e, Progress(n, inRange))))
    case ExecutionMetrics(id, e, sample) => Ok(Some(Handled(id, e, Metrics(sample))))
    case ExecutionCompleted(id, e, n, result, _) =>
      if result.None? then Err(ResultRequired)
      else if result.value.failure.Some? then Err(UnexpectedFailure)
      else Ok(Some(Handled(id, e, Finished(n, true, now))))
    case ExecutionFailed(id, e, n, failure, _) =>
      if failure.None? then Err(FailureRequired)
      else Ok(Some(Handled(id, e, Finished(n, false, now))))
  }

  /** `report_for`: the event's own time if it has one, the wall clock otherwise. */
  function MakeReport(id: string, e: string, n: nat, state: C.ExecutionState, outcome: Option<C.Outcome>,
                      observedAt: Option<nat>, reading: Reading): SessionReport {
    SessionReport(reading.uuid, id, n, if observedAt.Some? then observedAt.value else reading.wall,
                  C.Request(e, Some(state), outcome))
  }

  /** The report that follows an accepted call. */
  function ReportFor(ev: RuntimeEvent, reading: Reading): Option<SessionReport> {
    match ev
    case ExecutionStarted(id, e, n, at) => Some(MakeReport(id, e, n, C.ExecRunning, None, at, reading))
    case ExecutionCompleted(id, e, n, result, at) => Some(MakeReport(id, e, n, C.ExecSucceeded, result, at, reading))
    case ExecutionFailed(id, e, n, failure, at) =>
      Some(MakeReport(id, e, n, C.ExecFailed, Some(C.Outcome("", failure, "")), at, reading))
    case _ => None
  }

  /** One event on a broker state: the state afterwards, and the report to forward or the error. */
  function Handling(st: PendingState, ev: RuntimeEvent, reading: Reading)
    : (PendingState, Result<Option<SessionReport>, ServiceError>)
  {
    match BrokerCall(ev, reading.now)
    case Err(e) => (st, Err(e))
    case Ok(None) => (st, Ok(None))
    case Ok(Some(call)) =>
      match Handle(st, call.id, call.executionId, call.event)
      case Err(e) => (st, Err(Broker(e)))
      case Ok(st') => (st', Ok(ReportFor(ev, reading)))
  }

  /**
   A report that leaves a session never fails Core's own checks of the message, a success never carries a
   failure, and the report names the assignment, execution and sequence number of the accepted call.
   */
  lemma SessionReportsAreWellFormed(ev: RuntimeEvent, reading: Reading, core: C.CoreState, faults: C.Faults)
    requires BrokerCall(ev, reading.now).Ok? && ReportFor(ev, reading).Some?
    ensures var r := C.Report(core, ReportFor(ev, reading).value.request, faults).1;
      && r != Err(C.UnknownState) && r != Err(C.UnsupportedState)
      && r != Err(C.OutcomeRequired) && r != Err(C.FailureRequired)
    ensures var request := ReportFor(ev, reading).value.request;
      request.state == Some(C.ExecSucceeded) ==> request.outcome.Some? && request.outcome.value.failure.None?
    ensures var call, report := BrokerCall(ev, reading.now).value, ReportFor(ev, reading).value;
      && call.Some? && call.value.id == report.assignmentId
      && call.value.executionId == report.request.executionId && call.value.event.Number() == report.sequence
  {
  }

  /** `forward`: what the session makes of Core's reply. */
  function ForwardResult(reply: Reply): Result<(), ServiceError> {
    match reply
    case ReplyAccepted => Ok(())
    case ReplyRefused => Err(CoreRefused)
    case ReplyUnavailable => Err(CoreUnavailable)
  }

  /** What a session made of an event: its answer `r` and the report it sent. */
  predicate Concluded(handled: Result<Option<SessionReport>, ServiceError>, reply: Reply,
                      r: Result<(), ServiceError>, sent: Option<SessionReport>) {
    match handled
    case Err(e) => r == Err(e) && sent == None
    case Ok(None) => r == Ok(()) && sent == None
    case Ok(Some(report)) => r == ForwardResult(reply) && sent == Some(report)
  }

  /** A start or finish event, and the state it reports. */
  function Reported(ev: RuntimeEvent): Option<C.ExecutionState> {
    match ev
    case ExecutionStarted(_, _, _, _) => Some(C.ExecRunning)
    case ExecutionCompleted(_, _, _, _, _) => Some(C.ExecSucceeded)
    case ExecutionFailed(_, _, _, _, _) => Some(C.ExecFailed)
    case _ => None
  }

  /** The report is about the event: its ids, number and time, its state, and its result or failure. */
  predicate Conveys(ev: RuntimeEvent, reading: Reading, report: SessionReport) {
    && Reported(ev).Some?
    && report.reportId == reading.uuid && report.assignmentId == ev.id && report.sequence == ev.sequence
    && (ev.observedAt.Some? ==> report.observedAt == ev.observedAt.value)
    && (ev.observedAt.None? ==> report.observedAt == reading.wall)
    && report.request.executionId == ev.executionId && report.request.state == Reported(ev)
    && (ev.ExecutionStarted? ==> report.request.outcome == None)
    && (ev.ExecutionCompleted? ==> report.request.outcome == ev.result)
    && (ev.ExecutionFailed? ==>
          && report.request.outcome.Some? && report.request.outcome.value.failure == ev.failure
          && report.request.outcome.value.payload == "")
  }

  /** Why an event is refused before the broker is asked. */
  function Objection(ev: RuntimeEvent): Option<ServiceError> {
    if ev.NoPayload? then Some(PayloadRequired)
    else if ev.ExecutionCompleted? && ev.result.None? then Some(ResultRequired)
    else if ev.ExecutionCompleted? && ev.result.value.failure.Some? then Some(UnexpectedFailure)
    else if ev.ExecutionFailed? && ev.failure.None? then Some(FailureRequired)
    else None
  }

  /** How an accepted event shows in its assignment's record. */
  predicate Took(ev: RuntimeEvent, reading: Reading, r: Record, r': Record) {
    match ev
    case ExecutionStarted(_, e, n, _) =>
      && r'.assignment.executionId == e && r'.lastSequence == Some(n)
      && r'.state == Running && r'.startedAt == Some(reading.now)
    case ExecutionProgress(_, e, n, inRange) =>
      r'.assignment.executionId == e && r'.lastSequence == Some(n) && inRange && r' == r.(lastSequence := Some(n))
    case ExecutionMetrics(_, e, sample) =>
      && r'.assignment.executionId == e && r'.lastSequence == Some(sample.sequence)
      && r'.metrics == r.metrics + [sample]
    case ExecutionCompleted(_, e, n, _, _) =>
      && r'.assignment.executionId == e && r'.lastSequence == Some(n) && r'.state == Succeeded
      && r.startedAt.Some? && (reading.now >= r.startedAt.value ==>
                                 r'.workerDuration == Some(reading.now - r.startedAt.value))
    case ExecutionFailed(_, e, n, _, _) =>
      && r'.assignment.executionId == e && r'.lastSequence == Some(n) && r'.state == Failed
      && r.startedAt.Some? && (reading.now >= r.startedAt.value ==>
                                 r'.workerDuration == Some(reading.now - r.startedAt.value))
    case _ => false
  }

  /** The event had its effect on its assignment and on nothing else. */
  predicate Effective(st: PendingState, ev: RuntimeEvent, reading: Reading, st': PendingState) {
    && !ev.NoPayload? && !ev.Ready? && !ev.RuntimeHeartbeat?
    && ev.id in st.assignments && ev.id in st'.assignments
    && st' == st.(assignments := st.assignments[ev.id := st'.assignments[ev.id]])
    && Took(ev, reading, st.assignments[ev.id], st'.assignments[ev.id])
  }

  /**
   What a session promises about its answer `r` to an event and the report it sent, `st` and `st'` being the
   broker before and after: the reply decides about `r` exactly when a report was sent, and whatever it says
   the broker keeps the effect of the event.
   */
  predicate Promised(st: PendingState, ev: RuntimeEvent, reading: Reading, reply: Reply,
                     st': PendingState, r: Result<(), ServiceError>, sent: Option<SessionReport>) {
    && (sent.Some? ==>
          && Conveys(ev, reading, sent.value) && Effective(st, ev, reading, st')
          && (r.Ok? <==> reply.ReplyAccepted?)
          && (r == Err(CoreRefused) <==> reply.ReplyRefused?)
          && (r == Err(CoreUnavailable) <==> reply.ReplyUnavailable?))
    && (sent.None? && r.Ok? ==>
          if ev.Ready? || ev.RuntimeHeartbeat? then st' == st
          else (ev.ExecutionProgress? || ev.ExecutionMetrics?) && Effective(st, ev, reading, st'))
    && (sent.None? && r.Err? ==> st' == st && (Objection(ev) == Some(r.error) || Refused(st, ev, reading, r.error)))
    && (Objection(ev).Some? ==> r == Err(Objection(ev).value) && sent.None?)
    && (ev.Ready? || ev.RuntimeHeartbeat? ==> r == Ok(()) && sent.None?)
  }

  /** The broker refused the event's call, with this error. */
  predicate Refused(st: PendingState, ev: RuntimeEvent, reading: Reading, error: ServiceError) {
    && error.Broker? && BrokerCall(ev, reading.now).Ok? && BrokerCall(ev, reading.now).value.Some?
    && var call := BrokerCall(ev, reading.now).value.value;
    Handle(st, call.id, call.executionId, call.event) == Err(error.error)
  }

  lemma HandlingIsPromised(st: PendingState, ev: RuntimeEvent, reading: Reading, reply: Reply,
                           r: Result<(), ServiceError>, sent: Option<SessionReport>)
    requires Concluded(Handling(st, ev, reading).1, reply, r, sent)
    ensures Promised(st, ev, reading, reply, Handling(st, ev, reading).0, r, sent)
  {
  }

  lemma AlwaysPromised(st: PendingState, ev: RuntimeEvent, reading: Reading, reply: Reply)
    ensures forall r, sent :: Concluded(Handling(st, ev, reading).1, reply, r, sent) ==>
      Promised(st, ev, reading, reply, Handling(st, ev, reading).0, r, sent)
  {
    forall r, sent | Concluded(Handling(st, ev, reading).1, reply, r, sent)
      ensures Promised(st, ev, reading, reply, Handling(st, ev, reading).0, r, sent)
    {
      HandlingIsPromised(st, ev, reading, reply, r, sent);
    }
  }

  /** With nothing to send the reply has no influence, and it never has any on the broker or on what is sent. */
  lemma ReplyDecidesOnlyTheAnswer(st: PendingState, ev: RuntimeEvent, reading: Reading, reply: Reply, reply': Reply,
                                  r: Result<(), ServiceError>, sent: Option<SessionReport>,
                                  r': Result<(), ServiceError>, sent': Option<SessionReport>)
    requires Concluded(Handling(st, ev, reading).1, reply, r, sent)
    requires Concluded(Handling(st, ev, reading).1, reply', r', sent')
    ensures sent' == sent && (sent.None? ==> r' == r)
  {
  }

  /** `Handling` once the broker's answer `h` to the event's call is known. */
  lemma HandlingIs(st: PendingState, ev: RuntimeEvent, reading: Reading, call: Call, h: Result<PendingState, Error>)
    requires BrokerCall(ev, reading.now) == Ok(Some(call))
    requires h == Handle(st, call.id, call.executionId, call.event)
    ensures Handling(st, ev, reading) ==
      if h.Ok? then (h.value, Ok(ReportFor(ev, reading))) else (st, Err(Broker(h.error)))
  {
  }

  method Begun(pending: PendingExecutions, ev: RuntimeEvent, reading: Reading, reply: Reply)
    returns (r: Result<(), ServiceError>, sent: Option<SessionReport>)
    requires pending.Valid() && ev.ExecutionStarted?
    modifies pending
    ensures pending.Valid()
    ensures var (st, handled) := Handling(old(pending.State()), ev, reading);
      pending.State() == st && Concluded(handled, reply, r, sent)
    ensures Promised(old(pending.State()), ev, reading, reply, pending.State(), r, sent)
  {
    AlwaysPromised(pending.State(), ev, reading, reply);
    ghost var call := Handled(ev.id, ev.executionId, Started(ev.sequence, reading.now));
    HandlingIs(pending.State(), ev, reading, call, Handle(pending.State(), ev.id, ev.executionId, call.event));
    var started := pending.Started(ev.id, ev.executionId, ev.sequence, reading.now);
    if started.Err? {
      return Err(Broker(started.error)), None;
    }
    sent := Some(MakeReport(ev.id, ev.executionId, ev.sequence, C.ExecRunning, None, ev.observedAt, reading));
    r := ForwardResult(reply);
  }

  method Observed(pending: PendingExecutions, ev: RuntimeEvent, reading: Reading, reply: Reply)
    returns (r: Result<(), ServiceError>)
    requires pending.Valid() && (ev.ExecutionProgress? || ev.ExecutionMetrics?)
    modifies pending
    ensures pending.Valid()
    ensures var (st, handled) := Handling(old(pending.State()), ev, reading);
      pending.State() == st && Concluded(handled, reply, r, None)
  {
    var updated: Result<(), Assignments.Error>;
    if ev.ExecutionProgress? {
      updated := pending.Progress(ev.id, ev.executionId, ev.sequence, ev.inRange);
    } else {
      updated := pending.Metrics(ev.id, ev.executionId, ev.sample);
    }
    r := if updated.Err? then Err(Broker(updated.error)) else Ok(());
  }

  method Completed(pending: PendingExecutions, ev: RuntimeEvent, reading: Reading, reply: Reply)
    returns (r: Result<(), ServiceError>, sent: Option<SessionReport>)
    requires pending.Valid() && ev.ExecutionCompleted?
    modifies pending
    ensures pending.Valid()
    ensures var (st, handled) := Handling(old(pending.State()), ev, reading);
      pending.State() == st && Concluded(handled, reply, r, sent)
    ensures Promised(old(pending.State()), ev, reading, reply, pending.State(), r, sent)
  {
    AlwaysPromised(pending.State(), ev, reading, reply);
    if ev.result.None? {
      return Err(ResultRequired), None;
    }
    if ev.result.value.failure.Some? {
      return Err(UnexpectedFailure), None;
    }
    ghost var call := Handled(ev.id, ev.executionId, Finished(ev.sequence, true, reading.now));
    HandlingIs(pending.State(), ev, reading, call, Handle(pending.State(), ev.id, ev.executionId, call.event));
    var terminal := pending.Terminal(ev.id, ev.executionId, ev.sequence, true, reading.now);
    if terminal.Err? {
      return Err(Broker(terminal.error)), None;
    }
    sent := Some(MakeReport(ev.id, ev.executionId, ev.sequence, C.ExecSucceeded, ev.result, ev.observedAt, reading));
    r := ForwardResult(reply);
  }

  method FailedExecution(pending: PendingExecutions, ev: RuntimeEvent, reading: Reading, reply: Reply)
    returns (r: Result<(), ServiceError>, sent: Option<SessionReport>)
    requires pending.Valid() && ev.ExecutionFailed?
    modifies pending
    ensures pending.Valid()
    ensures var (st, handled) := Handling(old(pending.State()), ev, reading);
      pending.State() == st && Concluded(handled, reply, r, sent)
    ensures Promised(old(pending.State()), ev, reading, reply, pending.State(), r, sent)
  {
    AlwaysPromised(pending.State(), ev, reading, reply);
    if ev.failure.None? {
      return Err(FailureRequired), None;
    }
    ghost var call := Handled(ev.id, ev.executionId, Finished(ev.sequence, false, reading.now));
    HandlingIs(pending.State(), ev, reading, call, Handle(pending.State(), ev.id, ev.executionId, call.event));
    var terminal := pending.Terminal(ev.id, ev.executionId, ev.sequence, false, reading.now);
    if terminal.Err? {
      return Err(Broker(terminal.error)), None;
    }
    var outcome := C.Outcome("", ev.failure, "");
    sent := Some(MakeReport(ev.id, ev.executionId, ev.sequence, C.ExecFailed, Some(outcome), ev.observedAt, reading));
    r := ForwardResult(reply);
  }

  /** One event: the broker decides first, and a report is sent exactly for an accepted start or finish. */
  method HandleEvent(pending: PendingExecutions, ev: RuntimeEvent, reading: Reading, reply: Reply)
    returns (r: Result<(), ServiceError>, sent: Option<SessionReport>)
    requires pending.Valid()
    modifies pending
    ensures pending.Valid()
    ensures var (st, handled) := Handling(old(pending.State()), ev, reading);
      pending.State() == st && Concluded(handled, reply, r, sent)
    ensures Promised(old(pending.State()), ev, reading, reply, pending.State(), r, sent)
  {
    AlwaysPromised(pending.State(), ev, reading, reply);
    match ev
    case NoPayload =>
      r, sent := Err(PayloadRequired), None;
    case Ready | RuntimeHeartbeat =>
      r, sent := Ok(()), None;
    case ExecutionStarted(_, _, _, _) =>
      r, sent := Begun(pending, ev, reading, reply);
    case ExecutionProgress(_, _, _, _) | ExecutionMetrics(_, _, _) =>
      r := Observed(pending, ev, reading, reply);
      sent := None;
    case ExecutionCompleted(_, _, _, _, _) =>
      r, sent := Completed(pending, ev, reading, reply);
    case ExecutionFailed(_, _, _, _, _) =>
      r, sent := FailedExecution(pending, ev, reading, reply);
  }
}
