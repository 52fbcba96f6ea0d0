/**
 The language of accepted broker calls on one assignment:

   enqueue (hand-out release)* [ hand-out [ start update* [ finish ] ] ]

 with strictly increasing sequence numbers. Every run of the broker projects into it, and every word of it
 is the projection of some run.
 */
module AssignmentTraces {
  import opened Common
  import opened Assignments
  import Text

  /** `Release` is a disconnect of the session that holds the assignment before it was started. */
  datatype Letter =
    | Enqueue
    | HandOut(session: string)
    | Release(session: string)
    | Start(number: nat)
    | Update(number: nat)
    | Finish(number: nat, succeeded: bool)

  datatype Tail =
    | Queued
    | Held(session: string)
    | Live(session: string, start: nat, updates: seq<nat>)
    | Done(session: string, start: nat, updates: seq<nat>, finish: nat, succeeded: bool)

  /** One word of the language: the sessions that gave the assignment back, then what happened last. */
  datatype Shape = Shape(returned: seq<string>, tail: Tail)

  function Rounds(sessions: seq<string>): seq<Letter> {
    if sessions == [] then []
    else
      var n := |sessions| - 1;
      Rounds(sessions[..n]) + [HandOut(sessions[n]), Release(sessions[n])]
  }

  function Updates(numbers: seq<nat>): seq<Letter> {
    seq(|numbers|, i requires 0 <= i < |numbers| => Update(numbers[i]))
  }

  function TailWord(tail: Tail): seq<Letter> {
    match tail
    case Queued => []
    case Held(s) => [HandOut(s)]
    case Live(s, n, us) => [HandOut(s), Start(n)] + Updates(us)
    case Done(s, n, us, m, ok) => [HandOut(s), Start(n)] + Updates(us) + [Finish(m, ok)]
  }

  function Word(shape: Shape): seq<Letter> {
    [Enqueue] + Rounds(shape.returned) + TailWord(shape.tail)
  }

  /** The sequence numbers a tail carries, in order. */
  function Numbers(tail: Tail): seq<nat> {
    match tail
    case Queued => []
    case Held(_) => []
    case Live(_, n, us) => [n] + us
    case Done(_, n, us, m, _) => [n] + us + [m]
  }

  predicate Increasing(numbers: seq<nat>) {
    forall i, j :: 0 <= i < j < |numbers| ==> numbers[i] < numbers[j]
  }

  predicate InLanguage(shape: Shape) {
    Increasing(Numbers(shape.tail))
  }

  // ---------------------------------------------------------------------------------------------
  // Projection of runs
  // ---------------------------------------------------------------------------------------------

  function EventLetter(ev: Event): Letter {
    match ev
    case Started(n, _) => Start(n)
    case Progress(n, _) => Update(n)
    case Metrics(sample) => Update(sample.sequence)
    case Finished(n, ok, _) => Finish(n, ok)
  }

  /** What an accepted call in state `st` means for assignment `id`. */
  function Letters(st: PendingState, call: Call, id: string): seq<Letter> {
    match call
    case Enqueued(a) => if a.assignmentId == id then [Enqueue] else []
    case Connected(_) => []
    case HandedOut(s, x) => if x == id then [HandOut(s)] else []
    case Disconnected(s) => if id in HeldBy(st.assignments, s) then [Release(s)] else []
    case Handled(x, _, ev) => if x == id then [EventLetter(ev)] else []
  }

  /** The accepted calls on `id` among the first `n` calls of a run. */
  function Trace(states: seq<PendingState>, calls: seq<Call>, id: string, n: nat): seq<Letter>
    requires n <= |calls| && |calls| <= |states|
  {
    if n == 0 then []
    else Trace(states, calls, id, n - 1) + Letters(states[n - 1], calls[n - 1], id)
  }

  /** The record that goes with a tail. */
  predicate Fits(tail: Tail, r: Record) {
    match tail
    case Queued => r.state == Pending
    case Held(s) => r.state == Assigned && r.session == Some(s)
    case Live(_, _, _) => r.state == Running && r.lastSequence == Some(Last(Numbers(tail)))
    case Done(_, _, _, _, ok) => r.state == if ok then Succeeded else Failed
  }

  function Last(s: seq<nat>): nat
    requires s != []
  {
    s[|s| - 1]
  }

  /** Appending a larger number keeps a sequence increasing. */
  lemma IncreasingAppend(s: seq<nat>, n: nat)
    requires Increasing(s) && (s != [] ==> Last(s) < n)
    ensures Increasing(s + [n])
  {
    forall i, j | 0 <= i < j < |s + [n]| ensures (s + [n])[i] < (s + [n])[j] {
      if j == |s| && i < |s| - 1 {
        assert s[i] < s[|s| - 1];
      }
    }
  }

  /** Extending a tail by one event letter. */
  lemma EventExtends(shape: Shape, r: Record, ev: Event, r': Record) returns (shape': Shape)
    requires InLanguage(shape) && Fits(shape.tail, r) && RecordInv(r)
    requires Advance(r, r.assignment.executionId, ev) == Ok(r')
    ensures InLanguage(shape') && Fits(shape'.tail, r')
    ensures Word(shape') == Word(shape) + [EventLetter(ev)]
  {
    IncreasingAppend(Numbers(shape.tail), ev.Number());
    match ev
    case Started(n, _) =>
      shape' := shape.(tail := Live(shape.tail.session, n, []));
      assert Updates([]) == [];
    case Finished(n, ok, _) =>
      var Live(s, start, us) := shape.tail;
      shape' := shape.(tail := Done(s, start, us, n, ok));
    case _ =>
      var Live(s, start, us) := shape.tail;
      var us' := us + [ev.Number()];
      shape' := shape.(tail := Live(s, start, us'));
      assert Numbers(shape'.tail) == Numbers(shape.tail) + [ev.Number()];
      assert Updates(us') == Updates(us) + [Update(ev.Number())];
  }

  /** Giving a held assignment back closes a round. */
  lemma ReleaseExtends(shape: Shape, s: string)
    requires shape.tail == Held(s)
    ensures Word(Shape(shape.returned + [s], Queued)) == Word(shape) + [Release(s)]
  {
    var returned := shape.returned + [s];
    assert returned[..|shape.returned|] == shape.returned;
    calc {
      Word(Shape(returned, Queued));
      [Enqueue] + (Rounds(shape.returned) + [HandOut(s), Release(s)]) + [];
      Word(shape) + [Release(s)];
    }
  }

  /** One accepted call extends the word of `id` by its letters. */
  lemma StepExtends(st: PendingState, call: Call, st': PendingState, id: string, shape: Shape) returns (shape': Shape)
    requires Inv(st) && Step(st, call, st')
    requires id in st.assignments && InLanguage(shape) && Fits(shape.tail, st.assignments[id])
    ensures id in st'.assignments && InLanguage(shape') && Fits(shape'.tail, st'.assignments[id])
    ensures Word(shape') == Word(shape) + Letters(st, call, id)
  {
    shape' := shape;
    if Letters(st, call, id) == [] {
      assert Word(shape) + [] == Word(shape);
      return;
    }
    match call
    case Enqueued(a) =>
    case Connected(s) =>
    case HandedOut(s, x) =>
      assert id in st.queue;
      shape' := shape.(tail := Held(s));
    case Disconnected(s) =>
      ReleaseExtends(shape, s);
      shape' := Shape(shape.returned + [s], Queued);
    case Handled(x, e, ev) =>
      shape' := EventExtends(shape, st.assignments[id], ev, st'.assignments[id]);
  }

  lemma {:induction false} TraceHasShape(states: seq<PendingState>, calls: seq<Call>, id: string, n: nat)
    returns (shape: Shape)
    requires IsRun(states, calls) && n <= |calls|
    ensures id !in states[n].assignments ==> Trace(states, calls, id, n) == []
    ensures id in states[n].assignments ==>
      && InLanguage(shape)
      && Trace(states, calls, id, n) == Word(shape)
      && Fits(shape.tail, states[n].assignments[id])
  {
    shape := Shape([], Queued);
    if n > 0 {
      shape := TraceHasShape(states, calls, id, n - 1);
      RunsKeepInv(states, calls, n - 1);
      assert Step(states[n - 1], calls[n - 1], states[n]);
      if id in states[n - 1].assignments {
        shape := StepExtends(states[n - 1], calls[n - 1], states[n], id, shape);
      } else {
        shape := Shape([], Queued);
      }
    }
  }

  /** For every call history, the accepted calls on an assignment form a word of the language. */
  lemma AcceptedCallsFormAWord(states: seq<PendingState>, calls: seq<Call>, id: string)
    requires IsRun(states, calls) && id in states[|calls|].assignments
    ensures exists shape :: InLanguage(shape) && Trace(states, calls, id, |calls|) == Word(shape)
  {
    var shape := TraceHasShape(states, calls, id, |calls|);
  }

  // ---------------------------------------------------------------------------------------------
  // The reports that leave the worker
  // ---------------------------------------------------------------------------------------------

  datatype ReportState = RunningReport | SucceededReport | FailedReport

  /** A session forwards one report for an accepted start and one for an accepted finish. */
  function Reports(word: seq<Letter>): seq<ReportState> {
    if word == [] then []
    else
      var n := |word| - 1;
      Reports(word[..n]) +
      match word[n]
      case Start(_) => [RunningReport]
      case Finish(_, ok) => [if ok then SucceededReport else FailedReport]
      case _ => []
  }

  lemma {:induction false} ReportsConcat(u: seq<Letter>, v: seq<Letter>)
    ensures Reports(u + v) == Reports(u) + Reports(v)
  {
    if v == [] {
      assert u + v == u;
    } else {
      var n := |v| - 1;
      ReportsConcat(u, v[..n]);
      assert (u + v)[..|u + v| - 1] == u + v[..n];
    }
  }

  lemma {:induction false} SilentLetters(word: seq<Letter>)
    requires forall i :: 0 <= i < |word| ==> !word[i].Start? && !word[i].Finish?
    ensures Reports(word) == []
  {
    if word != [] {
      SilentLetters(word[..|word| - 1]);
    }
  }

  lemma {:induction false} RoundsAreSilent(sessions: seq<string>)
    ensures forall i :: 0 <= i < |Rounds(sessions)| ==> !Rounds(sessions)[i].Start? && !Rounds(sessions)[i].Finish?
  {
    if sessions != [] {
      RoundsAreSilent(sessions[..|sessions| - 1]);
    }
  }

  /** The reports of a word, by how far it got. */
  function ReportsOf(tail: Tail): seq<ReportState> {
    match tail
    case Queued => []
    case Held(_) => []
    case Live(_, _, _) => [RunningReport]
    case Done(_, _, _, _, ok) => [RunningReport, if ok then SucceededReport else FailedReport]
  }

  lemma WordReports(shape: Shape)
    ensures Reports(Word(shape)) == ReportsOf(shape.tail)
  {
    var opening := [Enqueue] + Rounds(shape.returned);
    RoundsAreSilent(shape.returned);
    SilentLetters(opening);
    ReportsConcat(opening, TailWord(shape.tail));
    TailReports(shape.tail);
  }

  /** At most one Running report, followed by at most one terminal report. */
  lemma ReportsAreOneRunningThenOneTerminal(states: seq<PendingState>, calls: seq<Call>, id: string)
    requires IsRun(states, calls)
    ensures var reports := Reports(Trace(states, calls, id, |calls|));
      || reports == []
      || reports == [RunningReport]
      || reports == [RunningReport, SucceededReport]
      || reports == [RunningReport, FailedReport]
  {
    var shape := TraceHasShape(states, calls, id, |calls|);
    if id in states[|calls|].assignments {
      WordReports(shape);
    }
  }

  lemma TailReports(tail: Tail)
    ensures Reports(TailWord(tail)) == ReportsOf(tail)
  {
    match tail
    case Queued =>
    case Held(s) => SilentLetters([HandOut(s)]);
    case Live(s, n, us) => LiveReports(s, n, us);
    case Done(s, n, us, m, ok) =>
      LiveReports(s, n, us);
      var live := TailWord(Live(s, n, us));
      assert TailWord(tail)[..|live|] == live;
  }

  lemma LiveReports(s: string, n: nat, us: seq<nat>)
    ensures Reports(TailWord(Live(s, n, us))) == [RunningReport]
  {
    SilentLetters(Updates(us));
    SilentLetters([HandOut(s)]);
    ReportsConcat([HandOut(s)], [Start(n)]);
    assert [HandOut(s)] + [Start(n)] == [HandOut(s), Start(n)];
    ReportsConcat([HandOut(s), Start(n)], Updates(us));
    assert [Start(n)][..0] == [];
  }

  // ---------------------------------------------------------------------------------------------
  // Every word occurs
  // ---------------------------------------------------------------------------------------------

  /** The state of a broker that holds one assignment only. */
  ghost predicate OnlyHolds(st: PendingState, a: Assignment, tail: Tail) {
    && Inv(st)
    && st.assignments.Keys == {a.assignmentId}
    && st.assignments[a.assignmentId].assignment == a
    && Fits(tail, st.assignments[a.assignmentId])
  }

  lemma Extend(states: seq<PendingState>, calls: seq<Call>, call: Call, st': PendingState, id: string)
    requires IsRun(states, calls) && Step(states[|calls|], call, st')
    ensures IsRun(states + [st'], calls + [call])
    ensures Trace(states + [st'], calls + [call], id, |calls| + 1) ==
            Trace(states, calls, id, |calls|) + Letters(states[|calls|], call, id)
  {
    TracePrefix(states, calls, states + [st'], calls + [call], id, |calls|);
  }

  lemma {:induction false} TracePrefix(states: seq<PendingState>, calls: seq<Call>,
                                       states': seq<PendingState>, calls': seq<Call>, id: string, n: nat)
    requires n <= |calls| <= |states| && |calls'| <= |states'|
    requires IsPrefix(states, states') && IsPrefix(calls, calls')
    ensures Trace(states', calls', id, n) == Trace(states, calls, id, n)
  {
    if n > 0 {
      TracePrefix(states, calls, states', calls', id, n - 1);
      assert states'[n - 1] == states'[..|states|][n - 1] && calls'[n - 1] == calls'[..|calls|][n - 1];
    }
  }

  /** The word without its last letter, the call that produces that letter, and the letter. */
  function Shorter(shape: Shape): Shape
    requires shape != Shape([], Queued)
  {
    match shape.tail
    case Queued =>
      var n := |shape.returned| - 1;
      Shape(shape.returned[..n], Held(shape.returned[n]))
    case Held(_) => shape.(tail := Queued)
    case Live(s, n, us) =>
      shape.(tail := if us == [] then Held(s) else Live(s, n, us[..|us| - 1]))
    case Done(s, n, us, _, _) => shape.(tail := Live(s, n, us))
  }

  function LastCall(shape: Shape, a: Assignment): Call
    requires shape != Shape([], Queued)
  {
    match shape.tail
    case Queued => Disconnected(shape.returned[|shape.returned| - 1])
    case Held(s) => HandedOut(s, a.assignmentId)
    case Live(s, n, us) =>
      Handled(a.assignmentId, a.executionId,
              if us == [] then Started(n, 0) else Progress(us[|us| - 1], true))
    case Done(_, _, _, m, ok) => Handled(a.assignmentId, a.executionId, Finished(m, ok, 0))
  }

  lemma ShorterInLanguage(shape: Shape)
    requires InLanguage(shape) && shape != Shape([], Queued)
    ensures InLanguage(Shorter(shape))
  {
    var numbers, fewer := Numbers(shape.tail), Numbers(Shorter(shape).tail);
    assert forall i :: 0 <= i < |fewer| ==> i < |numbers| && fewer[i] == numbers[i];
  }

  function LastLetter(shape: Shape): Letter
    requires shape != Shape([], Queued)
  {
    match shape.tail
    case Queued => Release(shape.returned[|shape.returned| - 1])
    case Held(s) => HandOut(s)
    case Live(_, n, us) => if us == [] then Start(n) else Update(us[|us| - 1])
    case Done(_, _, _, m, ok) => Finish(m, ok)
  }

  lemma UpdatesLast(us: seq<nat>)
    requires us != []
    ensures Updates(us) == Updates(us[..|us| - 1]) + [Update(us[|us| - 1])]
  {
  }

  lemma LastLetterEndsWord(shape: Shape)
    requires shape != Shape([], Queued)
    ensures Word(shape) == Word(Shorter(shape)) + [LastLetter(shape)]
  {
    match shape.tail
    case Queued =>
      var n := |shape.returned| - 1;
      assert shape.returned == shape.returned[..n] + [shape.returned[n]];
      ReleaseExtends(Shorter(shape), shape.returned[n]);
    case Held(_) =>
    case Live(_, _, us) =>
      if us == [] {
        assert Updates(us) == [];
      } else {
        UpdatesLast(us);
      }
    case Done(_, _, _, _, _) =>
  }

  lemma ReleaseAccepted(st: PendingState, a: Assignment, s: string) returns (st': PendingState)
    requires OnlyHolds(st, a, Held(s))
    ensures Step(st, Disconnected(s), st') && OnlyHolds(st', a, Queued)
    ensures Letters(st, Disconnected(s), a.assignmentId) == [Release(s)]
  {
    var id := a.assignmentId;
    st' := PendingState(st.queue + [id],
                        map x | x in st.assignments :: Released(st.assignments[x], s), st.sessions - {s});
    assert st'.queue[|st.queue|..] == [id];
    assert HeldBy(st.assignments, s) == {id};
    DisconnectKeepsInv(st, s, st');
  }

  lemma HandOutAccepted(st: PendingState, a: Assignment, s: string) returns (st': PendingState)
    requires OnlyHolds(st, a, Queued)
    ensures Step(st, HandedOut(s, a.assignmentId), st') && OnlyHolds(st', a, Held(s))
  {
    assert a.assignmentId in st.queue;
    assert st.queue[0] in st.assignments;
    HandOutKeepsInv(st, s);
    st' := Assignments.HandOut(st, s);
  }

  lemma EventAccepted(st: PendingState, a: Assignment, tail: Tail, ev: Event, tail': Tail) returns (st': PendingState)
    requires OnlyHolds(st, a, tail) && !(ev.Progress? && !ev.inRange)
    requires Advance(st.assignments[a.assignmentId], a.executionId, ev).Ok?
    requires Fits(tail', Advance(st.assignments[a.assignmentId], a.executionId, ev).value)
    ensures Step(st, Handled(a.assignmentId, a.executionId, ev), st') && OnlyHolds(st', a, tail')
  {
    HandleKeepsInv(st, a.assignmentId, a.executionId, ev);
    st' := Handle(st, a.assignmentId, a.executionId, ev).value;
  }

  lemma UpdateAccepted(st: PendingState, a: Assignment, tail: Tail) returns (st': PendingState)
    requires tail.Live? && tail.updates != [] && Increasing(Numbers(tail))
    requires OnlyHolds(st, a, Live(tail.session, tail.start, tail.updates[..|tail.updates| - 1]))
    ensures Step(st, Handled(a.assignmentId, a.executionId, Progress(tail.updates[|tail.updates| - 1], true)), st')
    ensures OnlyHolds(st', a, tail)
  {
    var us := tail.updates;
    var k := |us| - 1;
    assert us == us[..k] + [us[k]];
    assert Last([tail.start] + us[..k]) == ([tail.start] + us)[k] < ([tail.start] + us)[k + 1] == us[k];
    st' := EventAccepted(st, a, Live(tail.session, tail.start, us[..k]), Progress(us[k], true), tail);
  }

  lemma FinishAccepted(st: PendingState, a: Assignment, tail: Tail) returns (st': PendingState)
    requires tail.Done? && Increasing(Numbers(tail))
    requires OnlyHolds(st, a, Live(tail.session, tail.start, tail.updates))
    ensures Step(st, Handled(a.assignmentId, a.executionId, Finished(tail.finish, tail.succeeded, 0)), st')
    ensures OnlyHolds(st', a, tail)
  {
    var Done(s, n, us, m, ok) := tail;
    assert Last([n] + us) == ([n] + us + [m])[|us|] < ([n] + us + [m])[|us| + 1] == m;
    st' := EventAccepted(st, a, Live(s, n, us), Finished(m, ok, 0), tail);
  }

  /** In the state after the shorter word, the last call is accepted and means the last letter. */
  lemma LastCallAccepted(shape: Shape, a: Assignment, st: PendingState) returns (st': PendingState)
    requires InLanguage(shape) && shape != Shape([], Queued)
    requires OnlyHolds(st, a, Shorter(shape).tail)
    ensures Step(st, LastCall(shape, a), st') && OnlyHolds(st', a, shape.tail)
    ensures Letters(st, LastCall(shape, a), a.assignmentId) == [LastLetter(shape)]
  {
    match shape.tail
    case Queued => st' := ReleaseAccepted(st, a, shape.returned[|shape.returned| - 1]);
    case Held(s) => st' := HandOutAccepted(st, a, s);
    case Live(s, n, us) =>
      if us == [] {
        st' := EventAccepted(st, a, Held(s), Started(n, 0), shape.tail);
      } else {
        st' := UpdateAccepted(st, a, shape.tail);
      }
    case Done(_, _, _, _, _) => st' := FinishAccepted(st, a, shape.tail);
  }

  /** Every word of the language is the accepted call history of some assignment. */
  lemma {:induction false} EveryWordOccurs(shape: Shape, a: Assignment)
    returns (states: seq<PendingState>, calls: seq<Call>)
    requires InLanguage(shape) && !Text.Blank(a.assignmentId) && !Text.Blank(a.executionId)
    ensures IsRun(states, calls)
    ensures Trace(states, calls, a.assignmentId, |calls|) == Word(shape)
    ensures OnlyHolds(states[|calls|], a, shape.tail)
    decreases |Word(shape)|
  {
    if shape == Shape([], Queued) {
      var st := Assignments.Enqueue(EMPTY, a).value;
      states, calls := [EMPTY, st], [Enqueued(a)];
      EnqueueKeepsInv(EMPTY, a);
      assert Trace(states, calls, a.assignmentId, 0) == [];
    } else {
      ShorterInLanguage(shape);
      LastLetterEndsWord(shape);
      states, calls := EveryWordOccurs(Shorter(shape), a);
      var st' := LastCallAccepted(shape, a, states[|calls|]);
      Extend(states, calls, LastCall(shape, a), st', a.assignmentId);
      states, calls := states + [st'], calls + [LastCall(shape, a)];
    }
  }
}
