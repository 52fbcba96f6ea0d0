/**
 Runtime sessions sleeping on the broker's `Notify` (src/worker/runtime.rs): who is woken when work arrives.

 `Notify` follows its documented contract: one stored permit; `notify_one` wakes one waiter or stores the
 permit; `notify_waiters` wakes every future already created; dropping a future that received a
 `notify_one` passes that notification on.
 */
module Wakeups {
  import opened Common
  import opened Assignments
  import Text

  /** Where a session's task is in its loop. */
  datatype Phase =
    | Top                     // about to call `next_for`
    | Created(woken: bool)    // `notified()` was called, the queue was not looked at yet
    | Checked(woken: bool)    // the queue was empty, the future was not polled yet
    | Waiting                 // polled and asleep
    | Notified(byOne: bool)   // woken but not running yet
    | Busy                    // sending an assignment or handling an event
    | Ending                  // left the loop, `disconnect` still to run
  {
    predicate Asleep() {
      Waiting? || (Checked? && !woken)
    }
  }

  /** `onesDue` and `allsDue` count notifications owed by callers that have released the lock. */
  datatype System = System(
    broker: PendingState,
    permit: bool,
    sessions: map<string, Phase>,
    onesDue: nat,
    allsDue: nat)

  const INIT := System(EMPTY, false, map[], 0, 0)

  datatype Action =
    | PushWork(assignment: Assignment)                       // the locked part of `enqueue`
    | IssueOne(woken: Option<string>)                        // its `notify_one`
    | IssueAll                                               // the `notify_waiters` of a disconnect
    | Connect(session: string)
    | Begin(session: string)                                 // `available.notified()`
    | Take(session: string)                                  // the queue was not empty
    | SeeEmpty(session: string)
    | Poll(session: string, usePermit: bool)                 // first poll of `notified.await`
    | Resume(session: string)
    | Interrupt(session: string, passedOn: Option<string>)   // an inbound event wins the select
    | Lifecycle(session: string, id: string, executionId: string, event: Event)
    | Continue(session: string)
    | Break(session: string)
    | Leave(session: string, requeued: seq<string>)          // the locked part of `disconnect`

  predicate At(sys: System, s: string, p: Phase) {
    s in sys.sessions && sys.sessions[s] == p
  }

  /** `notify_one`: a waiter is chosen if there is one, and only then. */
  predicate Choice(sessions: map<string, Phase>, woken: Option<string>) {
    match woken
    case Some(s) => s in sessions && sessions[s] == Waiting
    case None => forall s :: s in sessions ==> sessions[s] != Waiting
  }

  function Wake(sys: System, woken: Option<string>): System
    requires Choice(sys.sessions, woken)
  {
    match woken
    case Some(s) => sys.(sessions := sys.sessions[s := Notified(true)])
    case None => sys.(permit := true)
  }

  function Roused(p: Phase): Phase {
    match p
    case Created(_) => Created(true)
    case Checked(_) => Checked(true)
    case Waiting => Notified(false)
    case _ => p
  }

  predicate InSelect(p: Phase) {
    !p.Busy? && !p.Ending?
  }

  /** Dropping the `next_for` future. */
  predicate DropEnabled(sys: System, s: string, passedOn: Option<string>)
    requires s in sys.sessions
  {
    if sys.sessions[s] == Notified(true) then Choice(sys.sessions, passedOn) else passedOn.None?
  }

  ghost predicate Enabled(sys: System, act: Action) {
    match act
    case PushWork(a) => Enqueue(sys.broker, a).Ok?
    case IssueOne(woken) => sys.onesDue > 0 && Choice(sys.sessions, woken)
    case IssueAll => sys.allsDue > 0
    case Connect(s) => s !in sys.sessions
    case Begin(s) => At(sys, s, Top)
    case Take(s) =>
      s in sys.sessions && sys.sessions[s].Created? && sys.broker.queue != []
      && sys.broker.queue[0] in sys.broker.assignments
    case SeeEmpty(s) => s in sys.sessions && sys.sessions[s].Created? && sys.broker.queue == []
    case Poll(s, usePermit) =>
      s in sys.sessions && sys.sessions[s].Checked?
      && (usePermit ==> sys.permit)
      && (sys.permit && !usePermit ==> sys.sessions[s].woken)
    case Resume(s) => s in sys.sessions && sys.sessions[s].Notified?
    case Interrupt(s, passedOn) =>
      s in sys.sessions && InSelect(sys.sessions[s]) && DropEnabled(sys, s, passedOn)
    case Lifecycle(s, id, e, ev) => At(sys, s, Busy) && Handle(sys.broker, id, e, ev).Ok?
    case Continue(s) => At(sys, s, Busy)
    case Break(s) => At(sys, s, Busy)
    case Leave(s, requeued) =>
      && At(sys, s, Ending)
      && NoDuplicates(requeued)
      && Elements(requeued) == HeldBy(sys.broker.assignments, s)
  }

  ghost function Apply(sys: System, act: Action): System
    requires Enabled(sys, act)
  {
    match act
    case PushWork(a) => sys.(broker := Enqueue(sys.broker, a).value, onesDue := sys.onesDue + 1)
    case IssueOne(woken) => Wake(sys.(onesDue := sys.onesDue - 1), woken)
    case IssueAll =>
      sys.(allsDue := sys.allsDue - 1, sessions := map s | s in sys.sessions :: Roused(sys.sessions[s]))
    case Connect(s) =>
      sys.(broker := sys.broker.(sessions := sys.broker.sessions + {s}), sessions := sys.sessions[s := Top])
    case Begin(s) => Go(sys, s, Created(false))
    case Take(s) => Go(sys.(broker := HandOut(sys.broker, s)), s, Busy)
    case SeeEmpty(s) => Go(sys, s, Checked(sys.sessions[s].woken))
    case Poll(s, usePermit) =>
      if usePermit then Go(sys.(permit := false), s, Top)
      else if sys.sessions[s].woken then Go(sys, s, Top)
      else Go(sys, s, Waiting)
    case Resume(s) => Go(sys, s, Top)
    case Interrupt(s, passedOn) =>
      Go(if sys.sessions[s] == Notified(true) then Wake(sys, passedOn) else sys, s, Busy)
    case Lifecycle(s, id, e, ev) => sys.(broker := Handle(sys.broker, id, e, ev).value)
    case Continue(s) => Go(sys, s, Top)
    case Break(s) => Go(sys, s, Ending)
    case Leave(s, requeued) =>
      sys.(broker := AfterLeave(sys.broker, s, requeued),
           sessions := sys.sessions - {s},
           allsDue := sys.allsDue + if requeued != [] then 1 else 0)
  }

  function Go(sys: System, s: string, p: Phase): System {
    sys.(sessions := sys.sessions[s := p])
  }

  ghost function AfterLeave(st: PendingState, s: string, requeued: seq<string>): PendingState {
    PendingState(st.queue + requeued,
                 map id | id in st.assignments :: Released(st.assignments[id], s),
                 st.sessions - {s})
  }

  /** The disconnect of module Assignments, with the visiting order made explicit. */
  lemma LeaveIsDisconnect(st: PendingState, s: string, st': PendingState)
    ensures Disconnect(st, s, st') <==>
      exists requeued :: NoDuplicates(requeued) && Elements(requeued) == HeldBy(st.assignments, s)
                         && st' == AfterLeave(st, s, requeued)
  {
    if Disconnect(st, s, st') {
      var requeued := st'.queue[|st.queue|..];
      assert st'.queue == st.queue + requeued;
      assert st' == AfterLeave(st, s, requeued);
    }
    forall requeued | NoDuplicates(requeued) && Elements(requeued) == HeldBy(st.assignments, s)
                      && st' == AfterLeave(st, s, requeued)
      ensures Disconnect(st, s, st')
    {
      assert st'.queue[|st.queue|..] == requeued;
    }
  }

  // ---------------------------------------------------------------------------------------------
  // Runs
  // ---------------------------------------------------------------------------------------------

  ghost predicate Legal(acts: seq<Action>)
    decreases |acts|, 0
  {
    acts == [] ||
    var n := |acts| - 1;
    Legal(acts[..n]) && Enabled(Exec(acts[..n]), acts[n])
  }

  ghost function Exec(acts: seq<Action>): System
    requires Legal(acts)
    decreases |acts|, 1
  {
    if acts == [] then INIT
    else Apply(Exec(acts[..|acts| - 1]), acts[|acts| - 1])
  }

  /** The session ends although work is queued, and puts nothing back. */
  ghost predicate Abandons(sys: System, act: Action) {
    act.Leave? && sys.broker.queue != [] && HeldBy(sys.broker.assignments, act.session) == {}
  }

  /** No session of the run ends without requeueing while the queue is not empty. */
  ghost predicate NoAbandoning(acts: seq<Action>)
    requires Legal(acts)
    decreases |acts|
  {
    acts == [] ||
    var n := |acts| - 1;
    NoAbandoning(acts[..n]) && !Abandons(Exec(acts[..n]), acts[n])
  }

  ghost predicate SomeoneAsleep(sys: System) {
    exists s :: s in sys.sessions && sys.sessions[s].Asleep()
  }

  ghost predicate SomeoneAwake(sys: System) {
    exists s :: s in sys.sessions && !sys.sessions[s].Asleep()
  }

  /** Queued work with a sleeping session is never forgotten: something is still going to wake it up. */
  ghost predicate Covered(sys: System) {
    sys.broker.queue != [] && SomeoneAsleep(sys) ==>
      sys.permit || sys.onesDue > 0 || sys.allsDue > 0 || SomeoneAwake(sys)
  }

  /** A session that ends now is the last hope of the queued work. */
  ghost predicate LastHope(sys: System, s: string) {
    && !sys.permit && sys.onesDue == 0 && sys.allsDue == 0
    && SomeoneAsleep(sys)
    && forall t :: t in sys.sessions && t != s ==> sys.sessions[t].Asleep()
  }

  /** After an action the session that took it is still there, and awake unless it just went to sleep. */
  lemma AwakeWitness(sys: System, s: string)
    requires s in sys.sessions && !sys.sessions[s].Asleep()
    ensures Covered(sys)
  {
  }

  lemma PollCovered(sys: System, s: string, usePermit: bool)
    requires Covered(sys) && Enabled(sys, Poll(s, usePermit))
    ensures Covered(Apply(sys, Poll(s, usePermit)))
  {
    var sys' := Apply(sys, Poll(s, usePermit));
    if usePermit || sys.sessions[s].woken {
      AwakeWitness(sys', s);
    } else if sys.broker.queue != [] {
      assert sys.sessions[s].Asleep();
      if SomeoneAwake(sys) {
        var t :| t in sys.sessions && !sys.sessions[t].Asleep();
        AwakeWitness(sys', t);
      }
    }
  }

  lemma LeaveCovered(sys: System, s: string, requeued: seq<string>)
    requires Covered(sys) && Enabled(sys, Leave(s, requeued))
    ensures Covered(Apply(sys, Leave(s, requeued))) <==>
      !(Abandons(sys, Leave(s, requeued)) && LastHope(sys, s))
  {
    var sys' := Apply(sys, Leave(s, requeued));
    assert requeued != [] <==> HeldBy(sys.broker.assignments, s) != {} by {
      assert forall x :: x in requeued <==> x in Elements(requeued);
      assert requeued != [] ==> requeued[0] in requeued;
    }
    assert forall t :: t in sys'.sessions <==> t in sys.sessions && t != s;
    if Abandons(sys, Leave(s, requeued)) && LastHope(sys, s) {
      var t :| t in sys.sessions && sys.sessions[t].Asleep();
      assert sys'.sessions[t].Asleep();
    } else if Abandons(sys, Leave(s, requeued)) && SomeoneAsleep(sys') {
      var t :| t in sys'.sessions && sys'.sessions[t].Asleep();
      assert sys.sessions[t].Asleep();
    }
  }

  /**
   One action loses a wake-up exactly when it is the end of a session that requeues nothing although work is
   queued, no notification is stored or due, every other session sleeps, and there is one.
   */
  lemma LostExactlyWhen(sys: System, act: Action)
    requires Covered(sys) && Enabled(sys, act)
    ensures !Covered(Apply(sys, act)) <==> Abandons(sys, act) && LastHope(sys, act.session)
  {
    var sys' := Apply(sys, act);
    match act
    case PushWork(a) =>
    case IssueOne(woken) => if woken.Some? { AwakeWitness(sys', woken.value); }
    case IssueAll => assert forall s :: s in sys'.sessions ==> !sys'.sessions[s].Asleep();
    case Poll(s, usePermit) => PollCovered(sys, s, usePermit);
    case SeeEmpty(s) =>
    case Lifecycle(s, id, e, ev) => AwakeWitness(sys', s);
    case Leave(s, requeued) => LeaveCovered(sys, s, requeued);
    case Connect(s) => AwakeWitness(sys', s);
    case Begin(s) => AwakeWitness(sys', s);
    case Take(s) => AwakeWitness(sys', s);
    case Resume(s) => AwakeWitness(sys', s);
    case Interrupt(s, _) => AwakeWitness(sys', s);
    case Continue(s) => AwakeWitness(sys', s);
    case Break(s) => AwakeWitness(sys', s);
  }

  /** No lost wake-up, in every interleaving in which no session abandons queued work. */
  lemma {:induction false} NoLostWakeup(acts: seq<Action>)
    requires Legal(acts) && NoAbandoning(acts)
    ensures Covered(Exec(acts))
    decreases |acts|
  {
    if acts != [] {
      var n := |acts| - 1;
      NoLostWakeup(acts[..n]);
      LostExactlyWhen(Exec(acts[..n]), acts[n]);
    }
  }

  // ---------------------------------------------------------------------------------------------
  // Help on its way
  // ---------------------------------------------------------------------------------------------

  /** A session that will look at the queue again, or put work back and then wake everyone. */
  ghost predicate Helps(sys: System, s: string) {
    && s in sys.sessions && !sys.sessions[s].Asleep()
    && (sys.sessions[s].Ending? ==> HeldBy(sys.broker.assignments, s) != {})
  }

  /** As `Covered`, but a session that only has to disconnect with nothing to put back is no help. */
  ghost predicate Helped(sys: System) {
    sys.broker.queue != [] && SomeoneAsleep(sys) ==>
      sys.permit || sys.onesDue > 0 || sys.allsDue > 0 || exists s :: Helps(sys, s)
  }

  /** The session leaves its loop with nothing to put back, although work is queued. */
  ghost predicate Quits(sys: System, act: Action) {
    act.Break? && sys.broker.queue != [] && HeldBy(sys.broker.assignments, act.session) == {}
  }

  /** Someone sleeps and nothing but session `s` can help. */
  ghost predicate OnlyHelp(sys: System, s: string) {
    && !sys.permit && sys.onesDue == 0 && sys.allsDue == 0
    && SomeoneAsleep(sys)
    && forall t :: t != s ==> !Helps(sys, t)
  }

  lemma HelpWitness(sys: System, s: string)
    requires Helps(sys, s)
    ensures Helped(sys)
  {
  }

  /** The session that looks at the queue, takes work or handles an event helps afterwards. */
  lemma ActingHelps(sys: System, act: Action, s: string)
    requires Enabled(sys, act)
    requires match act
             case Connect(t) => s == t
             case Begin(t) => s == t
             case Take(t) => s == t
             case Resume(t) => s == t
             case Interrupt(t, _) => s == t
             case Lifecycle(t, _, _, _) => s == t
             case Continue(t) => s == t
             case _ => false
    ensures Helped(Apply(sys, act))
  {
    HelpWitness(Apply(sys, act), s);
  }

  lemma PollHelped(sys: System, s: string, usePermit: bool)
    requires Helped(sys) && Enabled(sys, Poll(s, usePermit))
    ensures Helped(Apply(sys, Poll(s, usePermit)))
  {
    var sys' := Apply(sys, Poll(s, usePermit));
    if usePermit || sys.sessions[s].woken {
      HelpWitness(sys', s);
    } else if sys.broker.queue != [] {
      assert sys.sessions[s].Asleep();
      if t :| Helps(sys, t) {
        HelpWitness(sys', t);
      }
    }
  }

  lemma IssueHelped(sys: System, act: Action)
    requires Enabled(sys, act) && (act.IssueOne? || act.IssueAll?)
    ensures Helped(Apply(sys, act))
  {
    var sys' := Apply(sys, act);
    if act.IssueOne? && act.woken.Some? {
      HelpWitness(sys', act.woken.value);
    } else if act.IssueAll? {
      assert forall s :: s in sys'.sessions ==> !sys'.sessions[s].Asleep();
    }
  }

  /** A session that disconnects takes no help away: it puts its work back or was no help. */
  lemma LeaveHelped(sys: System, s: string, requeued: seq<string>)
    requires Helped(sys) && Enabled(sys, Leave(s, requeued))
    ensures Helped(Apply(sys, Leave(s, requeued)))
  {
    var sys' := Apply(sys, Leave(s, requeued));
    assert forall x :: x in requeued <==> x in Elements(requeued);
    if requeued == [] && SomeoneAsleep(sys') && sys'.broker.queue != [] {
      var t :| t in sys'.sessions && sys'.sessions[t].Asleep();
      assert sys.sessions[t].Asleep();
      if u :| Helps(sys, u) {
        assert u != s;
        LeaveKeepsHeld(sys.broker, s, requeued, u);
        HelpWitness(sys', u);
      }
    }
  }

  lemma LeaveKeepsHeld(st: PendingState, s: string, requeued: seq<string>, u: string)
    requires u != s
    ensures HeldBy(AfterLeave(st, s, requeued).assignments, u) == HeldBy(st.assignments, u)
  {
  }

  lemma BreakHelped(sys: System, s: string)
    requires Helped(sys) && Enabled(sys, Break(s))
    ensures !Helped(Apply(sys, Break(s))) <==> Quits(sys, Break(s)) && OnlyHelp(sys, s)
  {
    var sys' := Apply(sys, Break(s));
    assert SomeoneAsleep(sys') <==> SomeoneAsleep(sys) by {
      assert forall t :: t in sys'.sessions && sys'.sessions[t].Asleep() <==>
                         t in sys.sessions && sys.sessions[t].Asleep();
    }
    forall t | t != s ensures Helps(sys', t) <==> Helps(sys, t) {
    }
    assert Helps(sys', s) <==> HeldBy(sys.broker.assignments, s) != {};
  }

  /**
   One action leaves queued work without help exactly when a session leaves its loop with nothing to put back
   although work is queued, nothing is stored or due, someone sleeps, and no other session can help.
   */
  lemma HelpEndsExactlyWhen(sys: System, act: Action)
    requires Helped(sys) && Enabled(sys, act)
    ensures !Helped(Apply(sys, act)) <==> Quits(sys, act) && OnlyHelp(sys, act.session)
  {
    match act
    case PushWork(_) =>
    case IssueOne(_) => IssueHelped(sys, act);
    case IssueAll => IssueHelped(sys, act);
    case SeeEmpty(_) =>
    case Poll(s, usePermit) => PollHelped(sys, s, usePermit);
    case Break(s) => BreakHelped(sys, s);
    case Leave(s, requeued) => LeaveHelped(sys, s, requeued);
    case Connect(s) => ActingHelps(sys, act, s);
    case Begin(s) => ActingHelps(sys, act, s);
    case Take(s) => ActingHelps(sys, act, s);
    case Resume(s) => ActingHelps(sys, act, s);
    case Interrupt(s, _) => ActingHelps(sys, act, s);
    case Lifecycle(s, _, _, _) => ActingHelps(sys, act, s);
    case Continue(s) => ActingHelps(sys, act, s);
  }

  /** In this run sessions leave their loops only with work to put back or while the queue is empty. */
  ghost predicate NoQuitting(acts: seq<Action>)
    requires Legal(acts)
    decreases |acts|
  {
    acts == [] ||
    var n := |acts| - 1;
    NoQuitting(acts[..n]) && !Quits(Exec(acts[..n]), acts[n])
  }

  /** In such runs help is always on its way, whatever is queued before a session that left has disconnected. */
  lemma {:induction false} HelpIsOnItsWay(acts: seq<Action>)
    requires Legal(acts) && NoQuitting(acts)
    ensures Helped(Exec(acts))
    decreases |acts|
  {
    if acts != [] {
      var n := |acts| - 1;
      HelpIsOnItsWay(acts[..n]);
      HelpEndsExactlyWhen(Exec(acts[..n]), acts[n]);
    }
  }

  // ---------------------------------------------------------------------------------------------
  // The exact conditions over whole runs
  // ---------------------------------------------------------------------------------------------

  ghost predicate CoveredAt(acts: seq<Action>, i: nat) {
    i <= |acts| && Legal(acts[..i]) && Covered(Exec(acts[..i]))
  }

  /** Action `i` is the end of a session that abandons queued work as its last hope. */
  ghost predicate LostAt(acts: seq<Action>, i: nat) {
    i < |acts| && Legal(acts[..i]) && Abandons(Exec(acts[..i]), acts[i]) && LastHope(Exec(acts[..i]), acts[i].session)
  }

  ghost predicate HelpedAt(acts: seq<Action>, i: nat) {
    i <= |acts| && Legal(acts[..i]) && Helped(Exec(acts[..i]))
  }

  /** Action `i` is a session, the only help there is, leaving its loop with nothing to put back. */
  ghost predicate DesertedAt(acts: seq<Action>, i: nat) {
    i < |acts| && Legal(acts[..i]) && Quits(Exec(acts[..i]), acts[i]) && OnlyHelp(Exec(acts[..i]), acts[i].session)
  }

  lemma {:induction false} LegalPrefix(acts: seq<Action>, i: nat)
    requires Legal(acts) && i <= |acts|
    ensures Legal(acts[..i])
    decreases |acts|
  {
    if i == |acts| {
      assert acts[..i] == acts;
    } else {
      LegalPrefix(acts[..|acts| - 1], i);
      assert acts[..|acts| - 1][..i] == acts[..i];
    }
  }

  lemma CoveredStep(acts: seq<Action>, i: nat)
    requires Legal(acts) && i < |acts| && CoveredAt(acts, i)
    ensures CoveredAt(acts, i + 1) <==> !LostAt(acts, i)
  {
    LegalPrefix(acts, i + 1);
    assert acts[..i + 1][..i] == acts[..i];
    LostExactlyWhen(Exec(acts[..i]), acts[i]);
  }

  lemma HelpedStep(acts: seq<Action>, i: nat)
    requires Legal(acts) && i < |acts| && HelpedAt(acts, i)
    ensures HelpedAt(acts, i + 1) <==> !DesertedAt(acts, i)
  {
    LegalPrefix(acts, i + 1);
    assert acts[..i + 1][..i] == acts[..i];
    HelpEndsExactlyWhen(Exec(acts[..i]), acts[i]);
  }

  lemma {:induction false} CoveredUpTo(acts: seq<Action>, i: nat)
    requires Legal(acts) && i <= |acts| && forall k :: 0 <= k < i ==> !LostAt(acts, k)
    ensures CoveredAt(acts, i)
  {
    if i > 0 {
      CoveredUpTo(acts, i - 1);
      CoveredStep(acts, i - 1);
    }
  }

  lemma {:induction false} HelpedUpTo(acts: seq<Action>, i: nat)
    requires Legal(acts) && i <= |acts| && forall k :: 0 <= k < i ==> !DesertedAt(acts, k)
    ensures HelpedAt(acts, i)
  {
    if i > 0 {
      HelpedUpTo(acts, i - 1);
      HelpedStep(acts, i - 1);
    }
  }

  /** A run never loses a wake-up exactly when none of its actions abandons queued work as its last hope. */
  lemma RunsAreCoveredExactlyWhen(acts: seq<Action>)
    requires Legal(acts)
    ensures (forall i :: 0 <= i <= |acts| ==> CoveredAt(acts, i)) <==>
      (forall i :: 0 <= i < |acts| ==> !LostAt(acts, i))
  {
    if forall i :: 0 <= i <= |acts| ==> CoveredAt(acts, i) {
      forall i | 0 <= i < |acts| ensures !LostAt(acts, i) {
        assert CoveredAt(acts, i) && CoveredAt(acts, i + 1);
        CoveredStep(acts, i);
      }
    }
    if forall i :: 0 <= i < |acts| ==> !LostAt(acts, i) {
      forall i | 0 <= i <= |acts| ensures CoveredAt(acts, i) {
        CoveredUpTo(acts, i);
      }
    }
  }

  /** Help is on its way at every moment of a run exactly when the only help there is never leaves empty-handed. */
  lemma RunsAreHelpedExactlyWhen(acts: seq<Action>)
    requires Legal(acts)
    ensures (forall i :: 0 <= i <= |acts| ==> HelpedAt(acts, i)) <==>
      (forall i :: 0 <= i < |acts| ==> !DesertedAt(acts, i))
  {
    if forall i :: 0 <= i <= |acts| ==> HelpedAt(acts, i) {
      forall i | 0 <= i < |acts| ensures !DesertedAt(acts, i) {
        assert HelpedAt(acts, i) && HelpedAt(acts, i + 1);
        HelpedStep(acts, i);
      }
    }
    if forall i :: 0 <= i < |acts| ==> !DesertedAt(acts, i) {
      forall i | 0 <= i <= |acts| ensures HelpedAt(acts, i) {
        HelpedUpTo(acts, i);
      }
    }
  }

  // ---------------------------------------------------------------------------------------------
  // Owners are registered sessions
  // ---------------------------------------------------------------------------------------------

  /** The session loop's discipline: an id is registered before it takes work and leaves at the end. */
  ghost predicate OwnersConnected(sys: System) {
    && sys.broker.sessions == sys.sessions.Keys
    && forall id :: id in sys.broker.assignments && sys.broker.assignments[id].session.Some? ==>
         sys.broker.assignments[id].session.value in sys.broker.sessions
  }

  lemma StepKeepsBrokerInv(sys: System, act: Action)
    requires Inv(sys.broker) && Enabled(sys, act)
    ensures Inv(Apply(sys, act).broker)
  {
    match act
    case PushWork(a) => EnqueueKeepsInv(sys.broker, a);
    case Take(s) => HandOutKeepsInv(sys.broker, s);
    case Lifecycle(s, id, e, ev) => HandleKeepsInv(sys.broker, id, e, ev);
    case Leave(s, requeued) =>
      LeaveIsDisconnect(sys.broker, s, AfterLeave(sys.broker, s, requeued));
      DisconnectKeepsInv(sys.broker, s, AfterLeave(sys.broker, s, requeued));
    case _ =>
  }

  lemma LeaveKeepsOwners(sys: System, s: string, requeued: seq<string>)
    requires OwnersConnected(sys) && Enabled(sys, Leave(s, requeued))
    ensures OwnersConnected(Apply(sys, Leave(s, requeued)))
  {
  }

  lemma StepKeepsOwners(sys: System, act: Action)
    requires OwnersConnected(sys) && Enabled(sys, act)
    ensures OwnersConnected(Apply(sys, act))
  {
    match act
    case Leave(s, requeued) => LeaveKeepsOwners(sys, s, requeued);
    case IssueAll =>
    case PushWork(_) =>
    case Take(_) =>
    case Lifecycle(_, _, _, _) =>
    case Connect(_) =>
    case _ =>
      var sys' := Apply(sys, act);
      assert sys'.broker == sys.broker;
      assert sys'.sessions.Keys == sys.sessions.Keys;
  }

  /** In every interleaving, every stored owner is a registered session, so `cancel` always finds its sender. */
  lemma {:induction false} OwnersAreRegistered(acts: seq<Action>)
    requires Legal(acts)
    ensures Inv(Exec(acts).broker) && OwnersConnected(Exec(acts))
    decreases |acts|
  {
    if acts != [] {
      var n := |acts| - 1;
      OwnersAreRegistered(acts[..n]);
      StepKeepsBrokerInv(Exec(acts[..n]), acts[n]);
      StepKeepsOwners(Exec(acts[..n]), acts[n]);
    }
  }

  // ---------------------------------------------------------------------------------------------
  // The hypothesis is needed
  // ---------------------------------------------------------------------------------------------

  /** Work is queued and everyone sleeps: only a new enqueue, connection or inbound event can help. */
  ghost predicate Stuck(sys: System) {
    && sys.broker.queue != []
    && (forall s :: s in sys.sessions ==> sys.sessions[s] == Waiting)
    && !sys.permit && sys.onesDue == 0 && sys.allsDue == 0
  }

  lemma StuckNeedsOutsideHelp(sys: System, act: Action)
    requires Stuck(sys) && Enabled(sys, act)
    ensures act.PushWork? || act.Connect? || act.Interrupt?
    ensures Apply(sys, act).broker.queue != []
  {
  }

  ghost predicate Reaches(acts: seq<Action>, sys: System) {
    Legal(acts) && Exec(acts) == sys
  }

  lemma Push(acts: seq<Action>, sys: System, act: Action) returns (acts': seq<Action>)
    requires Reaches(acts, sys) && Enabled(sys, act)
    ensures acts' == acts + [act] && Reaches(acts', Apply(sys, act))
  {
    acts' := acts + [act];
    assert acts'[..|acts|] == acts;
  }

  /** Two sessions look at the empty queue before either sleeps. */
  lemma BothLooked(a: string, b: string) returns (acts: seq<Action>)
    requires a != b
    ensures Reaches(acts,
      System(EMPTY.(sessions := {a, b}), false, map[a := Checked(false), b := Checked(false)], 0, 0))
  {
    assert Legal([]) && Exec([]) == INIT;
    acts := Push([], INIT, Connect(a));
    acts := Push(acts, Exec(acts), Connect(b));
    acts := Push(acts, Exec(acts), Begin(a));
    acts := Push(acts, Exec(acts), Begin(b));
    acts := Push(acts, Exec(acts), SeeEmpty(a));
    acts := Push(acts, Exec(acts), SeeEmpty(b));
    assert Exec(acts).sessions == map[a := Checked(false), b := Checked(false)];
    assert Exec(acts).broker.sessions == {a, b};
  }

  /** Two assignments arrive. */
  lemma TwoArrive(a: string, b: string, x: Assignment, y: Assignment) returns (acts: seq<Action>, sys: System)
    requires a != b && x.assignmentId != y.assignmentId
    requires !Text.Blank(x.assignmentId) && !Text.Blank(x.executionId)
    requires !Text.Blank(y.assignmentId) && !Text.Blank(y.executionId)
    ensures Reaches(acts, sys)
    ensures sys.broker.queue == [x.assignmentId, y.assignmentId]
    ensures sys.broker.assignments == map[x.assignmentId := NewRecord(x), y.assignmentId := NewRecord(y)]
    ensures !sys.permit && sys.onesDue == 2 && sys.allsDue == 0
    ensures sys.sessions == map[a := Checked(false), b := Checked(false)]
  {
    acts := BothLooked(a, b);
    acts := Push(acts, Exec(acts), PushWork(x));
    acts := Push(acts, Exec(acts), PushWork(y));
    sys := Exec(acts);
  }

  /** Their notifications merge into one permit, which only one session gets. */
  lemma OnePermitForTwo(a: string, b: string, x: Assignment, y: Assignment) returns (acts: seq<Action>, sys: System)
    requires a != b && x.assignmentId != y.assignmentId
    requires !Text.Blank(x.assignmentId) && !Text.Blank(x.executionId)
    requires !Text.Blank(y.assignmentId) && !Text.Blank(y.executionId)
    ensures Reaches(acts, sys)
    ensures sys.broker.queue == [x.assignmentId, y.assignmentId]
    ensures sys.broker.assignments == map[x.assignmentId := NewRecord(x), y.assignmentId := NewRecord(y)]
    ensures !sys.permit && sys.onesDue == 0 && sys.allsDue == 0
    ensures sys.sessions == map[a := Top, b := Waiting]
  {
    acts, sys := TwoArrive(a, b, x, y);
    acts := Push(acts, Exec(acts), IssueOne(None));
    acts := Push(acts, Exec(acts), IssueOne(None));
    acts := Push(acts, Exec(acts), Poll(a, true));
    acts := Push(acts, Exec(acts), Poll(b, false));
    sys := Exec(acts);
  }

  /** The session that got the permit takes the first assignment. */
  lemma FirstIsTaken(a: string, b: string, x: Assignment, y: Assignment) returns (acts: seq<Action>, sys: System)
    requires a != b && x.assignmentId != y.assignmentId
    requires !Text.Blank(x.assignmentId) && !Text.Blank(x.executionId)
    requires !Text.Blank(y.assignmentId) && !Text.Blank(y.executionId)
    ensures Reaches(acts, sys)
    ensures sys.broker.queue == [y.assignmentId]
    ensures sys.broker.assignments == map[
      x.assignmentId := NewRecord(x).(state := Assigned, session := Some(a)), y.assignmentId := NewRecord(y)]
    ensures !sys.permit && sys.onesDue == 0 && sys.allsDue == 0
    ensures sys.sessions == map[a := Busy, b := Waiting]
  {
    acts, sys := OnePermitForTwo(a, b, x, y);
    var sys1 := Apply(sys, Begin(a));
    acts := Push(acts, sys, Begin(a));
    sys := Apply(sys1, Take(a));
    acts := Push(acts, sys1, Take(a));
  }

  /** It starts it, so it has nothing to put back. */
  lemma FirstIsStarted(a: string, b: string, x: Assignment, y: Assignment) returns (acts: seq<Action>, sys: System)
    requires a != b && x.assignmentId != y.assignmentId
    requires !Text.Blank(x.assignmentId) && !Text.Blank(x.executionId)
    requires !Text.Blank(y.assignmentId) && !Text.Blank(y.executionId)
    ensures Reaches(acts, sys)
    ensures sys.broker.queue == [y.assignmentId] && HeldBy(sys.broker.assignments, a) == {}
    ensures !sys.permit && sys.onesDue == 0 && sys.allsDue == 0
    ensures sys.sessions == map[a := Busy, b := Waiting]
  {
    var before;
    acts, before := FirstIsTaken(a, b, x, y);
    var start := Lifecycle(a, x.assignmentId, x.executionId, Started(1, 0));
    sys := Apply(before, start);
    acts := Push(acts, before, start);
  }

  /**
   A run that loses a wake-up: the session that started the first assignment ends with nothing to requeue,
   while the other session sleeps beside the second one.
   */
  lemma AbandoningCanLoseAWakeup(a: string, b: string, x: Assignment, y: Assignment) returns (acts: seq<Action>)
    requires a != b && x.assignmentId != y.assignmentId
    requires !Text.Blank(x.assignmentId) && !Text.Blank(x.executionId)
    requires !Text.Blank(y.assignmentId) && !Text.Blank(y.executionId)
    ensures Legal(acts) && !Covered(Exec(acts)) && Stuck(Exec(acts))
  {
    var sys;
    acts, sys := FirstIsStarted(a, b, x, y);
    var sys1 := Apply(sys, Break(a));
    acts := Push(acts, sys, Break(a));
    var sys2 := Apply(sys1, Leave(a, []));
    acts := Push(acts, sys1, Leave(a, []));
    assert sys2.sessions == map[b := Waiting];
    assert sys2.sessions[b].Asleep();
  }
}
