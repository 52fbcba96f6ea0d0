/**
 The reports that a worker's sessions send for an assignment over a whole run of its broker
 (src/worker/runtime.rs): the handlers of module RuntimeService on the runs of module Assignments.
 */
module SessionReports {
  import opened Common
  import opened Assignments
  import opened RuntimeService
  import T = AssignmentTraces
  import C = Core

  /** Where an accepted broker call came from: an event of a session, or something else. */
  datatype Cause = Other | From(event: RuntimeEvent, reading: Reading)

  predicate Yields(cause: Cause, call: Call) {
    match cause
    case Other => !call.Handled?
    case From(ev, reading) => BrokerCall(ev, reading.now) == Ok(Some(call))
  }

  /** The lifecycle calls of the run are the broker calls of these events. */
  predicate Explains(causes: seq<Cause>, calls: seq<Call>) {
    |causes| == |calls| && forall i :: 0 <= i < |calls| ==> Yields(causes[i], calls[i])
  }

  /** The report sent for one cause, if it is an event of assignment `id`. */
  function SentOnce(cause: Cause, call: Call, id: string): seq<SessionReport> {
    match cause
    case Other => []
    case From(ev, reading) =>
      if call.Handled? && call.id == id && ReportFor(ev, reading).Some? then [ReportFor(ev, reading).value] else []
  }

  /** The reports sent for assignment `id` during the first `n` calls. */
  function Sent(causes: seq<Cause>, calls: seq<Call>, id: string, n: nat): seq<SessionReport>
    requires n <= |calls| == |causes|
  {
    if n == 0 then [] else Sent(causes, calls, id, n - 1) + SentOnce(causes[n - 1], calls[n - 1], id)
  }

  function Requested(r: T.ReportState): C.ExecutionState {
    match r
    case RunningReport => C.ExecRunning
    case SucceededReport => C.ExecSucceeded
    case FailedReport => C.ExecFailed
  }

  /** These reports carry these states, in this order. */
  predicate Carry(sent: seq<SessionReport>, states: seq<T.ReportState>) {
    |sent| == |states| &&
    forall i :: 0 <= i < |sent| ==> sent[i].request.state == Some(Requested(states[i]))
  }

  /** An accepted event's letter stands for exactly the report that the session sends. */
  lemma LetterIsReport(cause: Cause, call: Call, id: string, st: PendingState)
    requires Yields(cause, call)
    ensures Carry(SentOnce(cause, call, id), T.Reports(T.Letters(st, call, id)))
    ensures forall r :: r in SentOnce(cause, call, id) ==> r.assignmentId == id
  {
    var letters := T.Letters(st, call, id);
    if letters != [] {
      assert letters[..0] == [] && letters == [letters[0]];
      assert T.Reports(letters[..0]) == [];
    }
  }

  lemma CarryConcat(sent: seq<SessionReport>, states: seq<T.ReportState>,
                    sent': seq<SessionReport>, states': seq<T.ReportState>)
    requires Carry(sent, states) && Carry(sent', states')
    ensures Carry(sent + sent', states + states')
  {
  }

  /** Over every run the reports sent for an assignment are those of its trace. */
  lemma {:induction false} SentIsTheTrace(states: seq<PendingState>, calls: seq<Call>, causes: seq<Cause>,
                                          id: string, n: nat)
    requires Explains(causes, calls) && n <= |calls| <= |states|
    ensures Carry(Sent(causes, calls, id, n), T.Reports(T.Trace(states, calls, id, n)))
    ensures forall r :: r in Sent(causes, calls, id, n) ==> r.assignmentId == id
  {
    if n > 0 {
      SentIsTheTrace(states, calls, causes, id, n - 1);
      LetterIsReport(causes[n - 1], calls[n - 1], id, states[n - 1]);
      CarryConcat(Sent(causes, calls, id, n - 1), T.Reports(T.Trace(states, calls, id, n - 1)),
                  SentOnce(causes[n - 1], calls[n - 1], id), T.Reports(T.Letters(states[n - 1], calls[n - 1], id)));
      T.ReportsConcat(T.Trace(states, calls, id, n - 1), T.Letters(states[n - 1], calls[n - 1], id));
    }
  }

  /** Sessions send at most one Running report for an assignment, then at most one terminal report. */
  lemma SessionsSendOneRunningThenOneTerminal(states: seq<PendingState>, calls: seq<Call>, causes: seq<Cause>,
                                              id: string)
    requires IsRun(states, calls) && Explains(causes, calls)
    ensures var sent := Sent(causes, calls, id, |calls|);
      && |sent| <= 2
      && (|sent| > 0 ==> sent[0].request.state == Some(C.ExecRunning))
      && (|sent| > 1 ==> sent[1].request.state == Some(C.ExecSucceeded) || sent[1].request.state == Some(C.ExecFailed))
      && (forall r :: r in sent ==> r.assignmentId == id)
  {
    SentIsTheTrace(states, calls, causes, id, |calls|);
    T.ReportsAreOneRunningThenOneTerminal(states, calls, id);
  }
}
