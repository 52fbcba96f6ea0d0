/**
 Which published jobs can still be delivered: from every state of every run, exactly those that are not behind
 a loop that has stopped.
 */
module ProtocolReach {
  import opened Common
  import opened Assignments
  import opened Protocol
  import opened ProtocolPlaces
  import opened ProtocolLinks
  import opened ProtocolViews
  import opened ProtocolTheorems
  import Text

  /** The job is in some worker's assignment table. */
  ghost predicate Delivered(w: World, j: string) {
    exists v :: In(w, j, Table(v))
  }

  /** Some continuation of the run delivers the job. */
  ghost predicate CanBeDelivered(acts: seq<Action>, j: string) {
    exists run :: IsPrefix(acts, run) && Legal(run) && Delivered(Exec(run), j)
  }

  /** The loops that have to move a job on from this place are running. */
  predicate Open(w: World, p: Place) {
    match p
    case TaskList => !w.schedulerStopped
    case SchedulerHand => !w.schedulerStopped && !w.scheduling.Idle? && !At(w, w.scheduling.worker).stopped
    case Inbox(v) => !At(w, v).stopped
    case WorkerHand(v) => !At(w, v).stopped
    case Table(_) => true
  }

  ghost predicate Hopeful(w: World, j: string) {
    exists p :: In(w, j, p) && Open(w, p)
  }

  // ---------------------------------------------------------------------------------------------
  // A closed place stays closed
  // ---------------------------------------------------------------------------------------------

  lemma StoppedStays(w: World, act: Action, v: string)
    requires Enabled(w, act)
    ensures w.schedulerStopped ==> Apply(w, act).schedulerStopped
    ensures At(w, v).stopped ==> At(Apply(w, act), v).stopped
  {
  }

  /** The scheduler does not change its mind about the worker. */
  lemma HandKeepsWorker(w: World, act: Action, j: string)
    requires Enabled(w, act) && SchedulerHas(w.scheduling, j) && SchedulerHas(Apply(w, act).scheduling, j)
    ensures Apply(w, act).scheduling.worker == w.scheduling.worker
  {
  }

  lemma OpenIfStayed(w: World, act: Action, j: string, p: Place)
    requires Enabled(w, act) && In(w, j, p) && In(Apply(w, act), j, p) && Open(Apply(w, act), p)
    ensures Open(w, p)
  {
    match p
    case TaskList => StoppedStays(w, act, "");
    case SchedulerHand =>
      HandKeepsWorker(w, act, j);
      StoppedStays(w, act, w.scheduling.worker);
    case Inbox(v) => StoppedStays(w, act, v);
    case WorkerHand(v) => StoppedStays(w, act, v);
    case Table(_) =>
  }

  lemma OpenIfScheduled(w: World, act: Action, j: string, p: Place, q: Place)
    requires PlacesInv(w) && Enabled(w, act) && (act.PublishTask? || act.ConsumeTask? || act.PublishAssignment?)
    requires In(w, j, p) && In(Apply(w, act), j, q) && p != q && Open(Apply(w, act), q)
    ensures Open(w, p)
  {
    match act
    case PublishTask(k) => PublishTaskMoves(w, k);
    case ConsumeTask(v) =>
      ConsumeTaskMoves(w, v);
      assert In(w, w.tasks[0], TaskList);
    case PublishAssignment =>
      PublishAssignmentMoves(w);
      assert In(w, w.scheduling.assignment.jobId, SchedulerHand);
  }

  lemma OpenIfConsumed(w: World, v: string, j: string, p: Place, q: Place)
    requires PlacesInv(w) && Enabled(w, ConsumeAssignment(v))
    requires In(w, j, p) && In(Apply(w, ConsumeAssignment(v)), j, q) && p != q
    ensures Open(w, p)
  {
    ConsumeAssignmentMoves(w, v);
    assert In(w, At(w, v).inbox[0].jobId, Inbox(v));
  }

  lemma OpenIfEnqueued(w: World, v: string, j: string, p: Place, q: Place)
    requires PlacesInv(w) && Enabled(w, EnqueueAssignment(v))
    requires Enqueue(At(w, v).broker, At(w, v).hand.value).Ok?
    requires In(w, j, p) && In(Apply(w, EnqueueAssignment(v)), j, q) && p != q
    ensures Open(w, p)
  {
    EnqueueMoves(w, v);
    assert In(w, At(w, v).hand.value.jobId, WorkerHand(v));
  }

  /** A step brings a job to an open place only from an open place. */
  lemma OpenBefore(w: World, act: Action, j: string, p: Place, q: Place)
    requires PlacesInv(w) && Enabled(w, act)
    requires In(w, j, p) && In(Apply(w, act), j, q) && Open(Apply(w, act), q)
    ensures Open(w, p)
  {
    if p == q {
      OpenIfStayed(w, act, j, p);
    } else if !IsMove(w, act) {
      OtherStepsMoveNothing(w, act);
      UnmovedPlaces(w, Apply(w, act), j, q);
    } else if act.ConsumeAssignment? {
      OpenIfConsumed(w, act.worker, j, p, q);
    } else if act.EnqueueAssignment? {
      OpenIfEnqueued(w, act.worker, j, p, q);
    } else {
      OpenIfScheduled(w, act, j, p, q);
    }
  }

  lemma HopefulStep(w: World, act: Action, j: string)
    requires PlacesInv(w) && Enabled(w, act) && j in w.published && Hopeful(Apply(w, act), j)
    ensures Hopeful(w, j)
  {
    var p :| In(w, j, p);
    var q :| In(Apply(w, act), j, q) && Open(Apply(w, act), q);
    OpenBefore(w, act, j, p, q);
  }

  lemma PublishedStays(w: World, act: Action, j: string)
    requires Enabled(w, act) && j in w.published
    ensures j in Apply(w, act).published
  {
  }

  lemma {:induction false} StillPublished(run: seq<Action>, n: nat, j: string)
    requires Legal(run) && n <= |run| && Legal(run[..n]) && j in Exec(run[..n]).published
    ensures j in Exec(run).published
    decreases |run|
  {
    if n == |run| {
      assert run[..n] == run;
    } else {
      var shorter := run[..|run| - 1];
      assert shorter[..n] == run[..n];
      StillPublished(shorter, n, j);
      PublishedStays(Exec(shorter), run[|run| - 1], j);
    }
  }

  lemma {:induction false} HopefulBefore(run: seq<Action>, n: nat, j: string)
    requires Legal(run) && n <= |run| && Legal(run[..n]) && j in Exec(run[..n]).published
    requires Hopeful(Exec(run), j)
    ensures Hopeful(Exec(run[..n]), j)
    decreases |run|
  {
    if n == |run| {
      assert run[..n] == run;
    } else {
      var shorter := run[..|run| - 1];
      assert shorter[..n] == run[..n];
      RunsKeepAll(shorter);
      StillPublished(shorter, n, j);
      HopefulStep(Exec(shorter), run[|run| - 1], j);
      HopefulBefore(shorter, n, j);
    }
  }

  // ---------------------------------------------------------------------------------------------
  // From an open place the job can be delivered
  // ---------------------------------------------------------------------------------------------

  /** `run` continues `acts` and is legal. */
  ghost predicate Continues(acts: seq<Action>, run: seq<Action>) {
    IsPrefix(acts, run) && Legal(run)
  }

  lemma Extend(acts: seq<Action>, run: seq<Action>, act: Action) returns (run': seq<Action>)
    requires Continues(acts, run) && Enabled(Exec(run), act)
    ensures Continues(acts, run') && Exec(run') == Apply(Exec(run), act)
  {
    run' := run + [act];
    assert run'[..|run|] == run;
    assert run'[..|acts|] == run[..|acts|];
  }

  /** A job in a running worker's hand is enqueued. */
  lemma FromHand(acts: seq<Action>, run: seq<Action>, v: string, j: string) returns (run': seq<Action>)
    requires Continues(acts, run) && In(Exec(run), j, WorkerHand(v)) && !At(Exec(run), v).stopped
    ensures Continues(acts, run') && Delivered(Exec(run'), j)
  {
    RunsKeepAll(run);
    EnqueueNeverFails(Exec(run), v);
    EnqueueMoves(Exec(run), v);
    run' := Extend(acts, run, EnqueueAssignment(v));
    assert In(Exec(run'), j, Table(v));
  }

  /** A running worker can empty its hand without touching its list. */
  lemma EmptyHand(acts: seq<Action>, run: seq<Action>, v: string) returns (run': seq<Action>)
    requires Continues(acts, run) && !At(Exec(run), v).stopped
    ensures Continues(acts, run')
    ensures var n' := At(Exec(run'), v); n'.hand.None? && !n'.stopped && n'.inbox == At(Exec(run), v).inbox
  {
    run' := run;
    if At(Exec(run), v).hand.Some? {
      RunsKeepAll(run);
      EnqueueNeverFails(Exec(run), v);
      run' := Extend(acts, run, EnqueueAssignment(v));
    }
  }

  /** A job in a running worker's list gets its turn. */
  lemma {:induction false} FromInbox(acts: seq<Action>, run: seq<Action>, v: string, j: string)
    returns (run': seq<Action>)
    requires Continues(acts, run) && InboxHas(At(Exec(run), v).inbox, j) && !At(Exec(run), v).stopped
    ensures Continues(acts, run') && Delivered(Exec(run'), j)
    decreases |At(Exec(run), v).inbox|
  {
    var inbox := At(Exec(run), v).inbox;
    run' := EmptyHand(acts, run, v);
    run' := Extend(acts, run', ConsumeAssignment(v));
    if inbox[0].jobId == j {
      run' := FromHand(acts, run', v, j);
    } else {
      var i :| 0 <= i < |inbox| && inbox[i].jobId == j;
      assert inbox[1..][i - 1].jobId == j;
      run' := FromInbox(acts, run', v, j);
    }
  }

  /** A text longer than all of these. */
  lemma {:induction false} Longer(ids: set<string>) returns (n: nat)
    ensures forall s :: s in ids ==> |s| < n
  {
    n := 0;
    if x :| x in ids {
      var m := Longer(ids - {x});
      n := if |x| < m then m else |x| + 1;
    }
  }

  /** There is always another id, and another worker. */
  lemma NewId(ids: set<string>) returns (id: string)
    ensures id !in ids && !Text.Blank(id)
  {
    var n := Longer(ids);
    id := seq(n + 1, _ => 'x');
    assert id[0] == 'x';
  }

  /** A running scheduler can finish the job in its hand: it goes to the end of its worker's list. */
  lemma FinishCreated(acts: seq<Action>, run: seq<Action>) returns (run': seq<Action>)
    requires Continues(acts, run) && !Exec(run).schedulerStopped && Exec(run).scheduling.Created?
    ensures Continues(acts, run')
    ensures var w, w' := Exec(run), Exec(run');
      && w'.scheduling.Idle? && !w'.schedulerStopped && w'.tasks == w.tasks
      && InboxHas(At(w', w.scheduling.worker).inbox, w.scheduling.assignment.jobId)
      && At(w', w.scheduling.worker).stopped == At(w, w.scheduling.worker).stopped
  {
    var w := Exec(run);
    run' := Extend(acts, run, PublishAssignment);
    InboxAppend(At(w, w.scheduling.worker).inbox, w.scheduling.assignment, w.scheduling.assignment.jobId);
  }

  lemma CreateHeld(acts: seq<Action>, run: seq<Action>) returns (run': seq<Action>)
    requires Continues(acts, run) && !Exec(run).schedulerStopped && Exec(run).scheduling.Holding?
    ensures Continues(acts, run')
    ensures var w, w' := Exec(run), Exec(run');
      && !w'.schedulerStopped && w'.tasks == w.tasks && w'.nodes == w.nodes
      && w'.scheduling.Created? && w'.scheduling.worker == w.scheduling.worker
      && w'.scheduling.assignment.jobId == w.scheduling.job
  {
    var a := NewId(Exec(run).issued);
    var e := NewId(Exec(run).issued + {a});
    run' := Extend(acts, run, CreateExecution(a, e, ""));
  }

  lemma EmptySchedulerHand(acts: seq<Action>, run: seq<Action>, j: string) returns (run': seq<Action>)
    requires Continues(acts, run) && !Exec(run).schedulerStopped && !Exec(run).scheduling.Idle?
    ensures Continues(acts, run')
    ensures var w, w' := Exec(run), Exec(run');
      && w'.scheduling.Idle? && !w'.schedulerStopped && w'.tasks == w.tasks
      && At(w', w.scheduling.worker).stopped == At(w, w.scheduling.worker).stopped
      && (SchedulerHas(w.scheduling, j) ==> InboxHas(At(w', w.scheduling.worker).inbox, j))
  {
    run' := run;
    if Exec(run).scheduling.Holding? {
      run' := CreateHeld(acts, run);
    }
    run' := FinishCreated(acts, run');
  }

  /** A job in a running scheduler's hand is published to its worker, and gets its turn there. */
  lemma FromSchedulerHand(acts: seq<Action>, run: seq<Action>, j: string) returns (run': seq<Action>)
    requires Continues(acts, run) && SchedulerHas(Exec(run).scheduling, j) && Open(Exec(run), SchedulerHand)
    ensures Continues(acts, run') && Delivered(Exec(run'), j)
  {
    run' := EmptySchedulerHand(acts, run, j);
    run' := FromInbox(acts, run', Exec(run).scheduling.worker, j);
  }

  /** A task of a running scheduler gets its turn, and can be given to a worker nobody has heard of yet. */
  lemma {:induction false} FromTasks(acts: seq<Action>, run: seq<Action>, j: string) returns (run': seq<Action>)
    requires Continues(acts, run) && j in Exec(run).tasks && !Exec(run).schedulerStopped
    ensures Continues(acts, run') && Delivered(Exec(run'), j)
    decreases |Exec(run).tasks|
  {
    run' := run;
    if !Exec(run).scheduling.Idle? {
      run' := EmptySchedulerHand(acts, run, j);
    }
    var tasks := Exec(run').tasks;
    var v := NewId(Exec(run').nodes.Keys);
    run' := Extend(acts, run', ConsumeTask(v));
    if tasks[0] == j {
      run' := FromSchedulerHand(acts, run', j);
    } else {
      run' := FromTasks(acts, run', j);
    }
  }

  lemma FromOpenPlace(acts: seq<Action>, j: string, p: Place) returns (run: seq<Action>)
    requires Legal(acts) && In(Exec(acts), j, p) && Open(Exec(acts), p)
    ensures Continues(acts, run) && Delivered(Exec(run), j)
  {
    match p
    case TaskList => run := FromTasks(acts, acts, j);
    case SchedulerHand => run := FromSchedulerHand(acts, acts, j);
    case Inbox(v) => run := FromInbox(acts, acts, v, j);
    case WorkerHand(v) => run := FromHand(acts, acts, v, j);
    case Table(_) => run := acts;
  }

  /**
   At every moment of every run, a published job can still be delivered exactly when it has been, or the loops
   it has to pass are running: its worker's, and before that the scheduler's.
   */
  lemma DeliverableExactlyWhen(acts: seq<Action>, j: string)
    requires Legal(acts) && j in Exec(acts).published
    ensures CanBeDelivered(acts, j) <==> Hopeful(Exec(acts), j)
  {
    if run :| IsPrefix(acts, run) && Legal(run) && Delivered(Exec(run), j) {
      var v :| In(Exec(run), j, Table(v));
      assert Open(Exec(run), Table(v));
      HopefulBefore(run, |acts|, j);
    }
    if p :| In(Exec(acts), j, p) && Open(Exec(acts), p) {
      var run := FromOpenPlace(acts, j, p);
    }
  }
}
