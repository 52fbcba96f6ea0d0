/** Conservation of jobs: every published job is in exactly one place, and only moves to the next one. */
module ProtocolPlaces {
  import opened Common
  import opened Assignments
  import opened Protocol

  predicate DistinctJobs(inbox: seq<Assignment>) {
    forall i, k :: 0 <= i < k < |inbox| ==> inbox[i].jobId != inbox[k].jobId
  }

  ghost predicate PlacesInv(w: World) {
    && NoDuplicates(w.tasks)
    && (forall v :: DistinctJobs(At(w, v).inbox))
    && (forall j :: j in w.published ==> exists p :: In(w, j, p))
    && (forall j, p, q :: In(w, j, p) && In(w, j, q) ==> p == q)
    && (forall j, p :: In(w, j, p) ==> j in w.published)
    && w.published !! w.accepting
  }

  /** Everything a place depends on is unchanged at this node. */
  ghost predicate SameWork(n: Node, n': Node) {
    && n'.inbox == n.inbox
    && n'.hand == n.hand
    && SameTable(n.broker.assignments, n'.broker.assignments)
  }

  /** The same assignments; the lifecycle fields may differ. */
  ghost predicate SameTable(t: map<string, Record>, t': map<string, Record>) {
    && t'.Keys == t.Keys
    && forall id :: id in t ==> t'[id].assignment == t[id].assignment
  }

  lemma SilentCallKeepsTable(st: PendingState, call: Call, st': PendingState)
    requires Silent(call) && Step(st, call, st')
    ensures SameTable(st.assignments, st'.assignments)
  {
  }

  lemma HandleKeepsTable(st: PendingState, id: string, e: string, ev: Event)
    requires Handle(st, id, e, ev).Ok?
    ensures SameTable(st.assignments, Handle(st, id, e, ev).value.assignments)
  {
  }

  lemma SameTableHas(t: map<string, Record>, t': map<string, Record>, j: string)
    requires SameTable(t, t')
    ensures TableHas(t, j) <==> TableHas(t', j)
  {
    if TableHas(t, j) {
      var id :| id in t && t[id].assignment.jobId == j;
      assert id in t' && t'[id].assignment.jobId == j;
    }
    if TableHas(t', j) {
      var id :| id in t' && t'[id].assignment.jobId == j;
      assert id in t && t[id].assignment.jobId == j;
    }
  }

  /** Nothing moved. */
  ghost predicate Unmoved(w: World, w': World) {
    && w'.tasks == w.tasks
    && w'.published == w.published
    && (forall j :: SchedulerHas(w'.scheduling, j) <==> SchedulerHas(w.scheduling, j))
    && (forall v :: SameWork(At(w, v), At(w', v)))
  }

  lemma UnmovedPlaces(w: World, w': World, j: string, p: Place)
    requires Unmoved(w, w')
    ensures In(w', j, p) <==> In(w, j, p)
  {
    match p
    case Table(v) =>
      assert SameWork(At(w, v), At(w', v));
      SameTableHas(At(w, v).broker.assignments, At(w', v).broker.assignments, j);
    case Inbox(v) => assert SameWork(At(w, v), At(w', v));
    case WorkerHand(v) => assert SameWork(At(w, v), At(w', v));
    case _ =>
  }

  lemma UnmovedKeepsPlaces(w: World, w': World)
    requires PlacesInv(w) && Unmoved(w, w') && w'.published !! w'.accepting
    ensures PlacesInv(w')
  {
    forall j, p ensures In(w', j, p) <==> In(w, j, p) {
      UnmovedPlaces(w, w', j, p);
    }
    forall v ensures DistinctJobs(At(w', v).inbox) {
      assert SameWork(At(w, v), At(w', v));
    }
    forall j | j in w'.published ensures exists p :: In(w', j, p) {
      var p :| In(w, j, p);
      assert In(w', j, p);
    }
  }

  /** Job `j` is now at `q` only; every other job stayed where it was. */
  ghost predicate MovedTo(w: World, w': World, j: string, q: Place) {
    forall k, r :: In(w', k, r) <==> if k == j then r == q else In(w, k, r)
  }

  lemma MoveKeepsPlaces(w: World, w': World, j: string, q: Place)
    requires PlacesInv(w) && MovedTo(w, w', j, q)
    requires w'.published == w.published + {j} && w'.published !! w'.accepting
    requires NoDuplicates(w'.tasks) && forall v :: DistinctJobs(At(w', v).inbox)
    ensures PlacesInv(w')
  {
    forall k | k in w'.published ensures exists p :: In(w', k, p) {
      if k == j {
        assert In(w', k, q);
      } else {
        var p :| In(w, k, p);
        assert In(w', k, p);
      }
    }
  }

  lemma SameInboxes(w: World, w': World)
    requires PlacesInv(w) && w'.nodes == w.nodes
    ensures forall u :: DistinctJobs(At(w', u).inbox)
  {
    forall u ensures DistinctJobs(At(w', u).inbox) {
      assert At(w', u) == At(w, u);
    }
  }

  lemma OneInbox(w: World, w': World, v: string, n: Node)
    requires PlacesInv(w) && w'.nodes == w.nodes[v := n] && DistinctJobs(n.inbox)
    ensures forall u :: DistinctJobs(At(w', u).inbox)
  {
    forall u ensures DistinctJobs(At(w', u).inbox) {
      assert u != v ==> At(w', u) == At(w, u);
    }
  }

  // ---------------------------------------------------------------------------------------------
  // The five moves
  // ---------------------------------------------------------------------------------------------

  lemma PublishTaskMoves(w: World, j: string)
    requires PlacesInv(w) && j in w.accepting
    ensures var w' := Apply(w, PublishTask(j)); PlacesInv(w') && MovedTo(w, w', j, TaskList)
  {
    var w' := Apply(w, PublishTask(j));
    forall k, r ensures In(w', k, r) <==> if k == j then r == TaskList else In(w, k, r) {
      assert !In(w, j, r);
    }
    assert !In(w, j, TaskList);
    NoDuplicatesAppend(w.tasks, j);
    SameInboxes(w, w');
    MoveKeepsPlaces(w, w', j, TaskList);
  }

  lemma ConsumeTaskMoves(w: World, v: string)
    requires PlacesInv(w) && Enabled(w, ConsumeTask(v))
    ensures var w' := Apply(w, ConsumeTask(v)); PlacesInv(w') && MovedTo(w, w', w.tasks[0], SchedulerHand)
  {
    var w' := Apply(w, ConsumeTask(v));
    var j := w.tasks[0];
    assert In(w, j, TaskList);
    forall k, r ensures In(w', k, r) <==> if k == j then r == SchedulerHand else In(w, k, r) {
      assert k == j && In(w, k, r) ==> r == TaskList;
      assert k in w.tasks <==> k == j || k in w.tasks[1..];
      assert r.Inbox? || r.WorkerHand? || r.Table? ==> At(w', r.worker) == At(w, r.worker);
    }
    SameInboxes(w, w');
    MoveKeepsPlaces(w, w', j, SchedulerHand);
  }

  lemma InboxAppend(inbox: seq<Assignment>, a: Assignment, j: string)
    ensures InboxHas(inbox + [a], j) <==> InboxHas(inbox, j) || a.jobId == j
  {
    if InboxHas(inbox, j) {
      var i :| 0 <= i < |inbox| && inbox[i].jobId == j;
      assert (inbox + [a])[i].jobId == j;
    }
    if a.jobId == j {
      assert (inbox + [a])[|inbox|].jobId == j;
    }
  }

  lemma InboxRest(inbox: seq<Assignment>, j: string)
    requires inbox != [] && DistinctJobs(inbox)
    ensures InboxHas(inbox[1..], j) <==> InboxHas(inbox, j) && j != inbox[0].jobId
    ensures DistinctJobs(inbox[1..])
  {
    if InboxHas(inbox[1..], j) {
      var i :| 0 <= i < |inbox[1..]| && inbox[1..][i].jobId == j;
      assert inbox[i + 1].jobId == j;
    }
    if InboxHas(inbox, j) && j != inbox[0].jobId {
      var i :| 0 <= i < |inbox| && inbox[i].jobId == j;
      assert inbox[1..][i - 1].jobId == j;
    }
  }

  lemma PublishAssignmentMoves(w: World)
    requires PlacesInv(w) && Enabled(w, PublishAssignment)
    ensures var w' := Apply(w, PublishAssignment);
      PlacesInv(w') && MovedTo(w, w', w.scheduling.assignment.jobId, Inbox(w.scheduling.worker))
  {
    var w' := Apply(w, PublishAssignment);
    var Created(v, a) := w.scheduling;
    var j := a.jobId;
    assert In(w, j, SchedulerHand);
    forall k, r ensures In(w', k, r) <==> if k == j then r == Inbox(v) else In(w, k, r) {
      InboxAppend(At(w, v).inbox, a, k);
      assert k == j && In(w, k, r) ==> r == SchedulerHand;
    }
    assert !In(w, j, Inbox(v));
    OneInbox(w, w', v, At(w', v));
    MoveKeepsPlaces(w, w', j, Inbox(v));
  }

  lemma ConsumeAssignmentMoves(w: World, v: string)
    requires PlacesInv(w) && Enabled(w, ConsumeAssignment(v))
    ensures var w' := Apply(w, ConsumeAssignment(v));
      PlacesInv(w') && MovedTo(w, w', At(w, v).inbox[0].jobId, WorkerHand(v))
  {
    var w' := Apply(w, ConsumeAssignment(v));
    var j := At(w, v).inbox[0].jobId;
    assert In(w, j, Inbox(v));
    forall k, r ensures In(w', k, r) <==> if k == j then r == WorkerHand(v) else In(w, k, r) {
      InboxRest(At(w, v).inbox, k);
      assert k == j && In(w, k, r) ==> r == Inbox(v);
    }
    InboxRest(At(w, v).inbox, j);
    OneInbox(w, w', v, At(w', v));
    MoveKeepsPlaces(w, w', j, WorkerHand(v));
  }

  lemma TableAdd(t: map<string, Record>, id: string, r: Record, j: string)
    requires id !in t
    ensures TableHas(t[id := r], j) <==> TableHas(t, j) || r.assignment.jobId == j
  {
    if TableHas(t, j) {
      var x :| x in t && t[x].assignment.jobId == j;
      assert t[id := r][x].assignment.jobId == j;
    }
    if r.assignment.jobId == j {
      assert t[id := r][id].assignment.jobId == j;
    }
  }

  lemma EnqueueMoves(w: World, v: string)
    requires PlacesInv(w) && Enabled(w, EnqueueAssignment(v))
    requires Enqueue(At(w, v).broker, At(w, v).hand.value).Ok?
    ensures var w' := Apply(w, EnqueueAssignment(v));
      PlacesInv(w') && MovedTo(w, w', At(w, v).hand.value.jobId, Table(v))
  {
    var w' := Apply(w, EnqueueAssignment(v));
    var a := At(w, v).hand.value;
    var j := a.jobId;
    assert In(w, j, WorkerHand(v));
    forall k, r ensures In(w', k, r) <==> if k == j then r == Table(v) else In(w, k, r) {
      TableAdd(At(w, v).broker.assignments, a.assignmentId, NewRecord(a), k);
      assert k == j && In(w, k, r) ==> r == WorkerHand(v);
    }
    OneInbox(w, w', v, At(w', v));
    MoveKeepsPlaces(w, w', j, Table(v));
  }

  // ---------------------------------------------------------------------------------------------
  // Every step
  // ---------------------------------------------------------------------------------------------

  /** The job an action moves, and where to. */
  ghost predicate IsMove(w: World, act: Action) {
    || act.PublishTask? || act.ConsumeTask? || act.PublishAssignment? || act.ConsumeAssignment?
    || (act.EnqueueAssignment? && At(w, act.worker).hand.Some?
        && Enqueue(At(w, act.worker).broker, At(w, act.worker).hand.value).Ok?)
  }

  ghost predicate SameElsewhere(w: World, w': World) {
    && w'.tasks == w.tasks
    && w'.published == w.published
    && forall j :: SchedulerHas(w'.scheduling, j) <==> SchedulerHas(w.scheduling, j)
  }

  lemma SameNodesUnmoved(w: World, w': World)
    requires SameElsewhere(w, w') && w'.nodes == w.nodes
    ensures Unmoved(w, w')
  {
    forall u ensures SameWork(At(w, u), At(w', u)) {
      assert At(w', u) == At(w, u);
    }
  }

  lemma OneNodeUnmoved(w: World, w': World, v: string, n: Node)
    requires SameElsewhere(w, w') && w'.nodes == w.nodes[v := n] && SameWork(At(w, v), n)
    ensures Unmoved(w, w')
  {
    forall u ensures SameWork(At(w, u), At(w', u)) {
      assert u != v ==> At(w', u) == At(w, u);
    }
  }

  lemma OtherStepsMoveNothing(w: World, act: Action)
    requires Enabled(w, act) && !IsMove(w, act)
    ensures Unmoved(w, Apply(w, act))
  {
    var w' := Apply(w, act);
    assert SameElsewhere(w, w');
    match act
    case SessionCall(v, call, b) =>
      SilentCallKeepsTable(At(w, v).broker, call, b);
      OneNodeUnmoved(w, w', v, At(w', v));
    case ForwardStart(v, id, e, n, now) =>
      HandleKeepsTable(At(w, v).broker, id, e, Started(n, now));
      OneNodeUnmoved(w, w', v, At(w', v));
    case ForwardFinish(v, id, e, n, now, outcome) =>
      HandleKeepsTable(At(w, v).broker, id, e, Finished(n, outcome.failure.None?, now));
      OneNodeUnmoved(w, w', v, At(w', v));
    case EnqueueAssignment(v) => OneNodeUnmoved(w, w', v, At(w', v));
    case StopWorker(v) => OneNodeUnmoved(w, w', v, At(w', v));
    case PersistResult(v, _) => OneNodeUnmoved(w, w', v, At(w', v));
    case RecordState(v, _) => OneNodeUnmoved(w, w', v, At(w', v));
    case SettleJob(v, _) => OneNodeUnmoved(w, w', v, At(w', v));
    case LoseReport(v, _) => OneNodeUnmoved(w, w', v, At(w', v));
    case _ => SameNodesUnmoved(w, w');
  }

  lemma StepKeepsPlaces(w: World, act: Action)
    requires PlacesInv(w) && Enabled(w, act)
    requires act.BeginAccept? ==> act.job !in w.published
    ensures PlacesInv(Apply(w, act))
  {
    if !IsMove(w, act) {
      OtherStepsMoveNothing(w, act);
      UnmovedKeepsPlaces(w, Apply(w, act));
    } else {
      match act
      case PublishTask(j) => PublishTaskMoves(w, j);
      case ConsumeTask(v) => ConsumeTaskMoves(w, v);
      case PublishAssignment => PublishAssignmentMoves(w);
      case ConsumeAssignment(v) => ConsumeAssignmentMoves(w, v);
      case EnqueueAssignment(v) => EnqueueMoves(w, v);
    }
  }

  /** If one job moves on to the next place and all others stay, every job stays or moves on. */
  lemma OneMovesOn(w: World, w': World, k: string, from: Place, to: Place, j: string, p: Place, q: Place)
    requires PlacesInv(w) && MovedTo(w, w', k, to) && In(w, k, from) && Next(from, to)
    requires In(w, j, p) && In(w', j, q)
    ensures p == q || Next(p, q)
  {
  }

  lemma SchedulerMovesForward(w: World, act: Action, j: string, p: Place, q: Place)
    requires PlacesInv(w) && Enabled(w, act) && (act.PublishTask? || act.ConsumeTask? || act.PublishAssignment?)
    requires In(w, j, p) && In(Apply(w, act), j, q)
    ensures p == q || Next(p, q)
  {
    var w' := Apply(w, act);
    match act
    case PublishTask(k) => PublishTaskMoves(w, k);
    case ConsumeTask(v) =>
      ConsumeTaskMoves(w, v);
      OneMovesOn(w, w', w.tasks[0], TaskList, SchedulerHand, j, p, q);
    case PublishAssignment =>
      PublishAssignmentMoves(w);
      OneMovesOn(w, w', w.scheduling.assignment.jobId, SchedulerHand, Inbox(w.scheduling.worker), j, p, q);
  }

  lemma ConsumeMovesForward(w: World, v: string, j: string, p: Place, q: Place)
    requires PlacesInv(w) && Enabled(w, ConsumeAssignment(v))
    requires In(w, j, p) && In(Apply(w, ConsumeAssignment(v)), j, q)
    ensures p == q || Next(p, q)
  {
    ConsumeAssignmentMoves(w, v);
    var k := At(w, v).inbox[0].jobId;
    assert In(w, k, Inbox(v));
    OneMovesOn(w, Apply(w, ConsumeAssignment(v)), k, Inbox(v), WorkerHand(v), j, p, q);
  }

  lemma EnqueueMovesForward(w: World, v: string, j: string, p: Place, q: Place)
    requires PlacesInv(w) && Enabled(w, EnqueueAssignment(v))
    requires Enqueue(At(w, v).broker, At(w, v).hand.value).Ok?
    requires In(w, j, p) && In(Apply(w, EnqueueAssignment(v)), j, q)
    ensures p == q || Next(p, q)
  {
    EnqueueMoves(w, v);
    OneMovesOn(w, Apply(w, EnqueueAssignment(v)), At(w, v).hand.value.jobId, WorkerHand(v), Table(v), j, p, q);
  }

  /** A step leaves a published job where it was or takes it to the next place. */
  lemma StepMovesForward(w: World, act: Action, j: string, p: Place, q: Place)
    requires PlacesInv(w) && Enabled(w, act)
    requires In(w, j, p) && In(Apply(w, act), j, q)
    ensures p == q || Next(p, q)
  {
    if !IsMove(w, act) {
      OtherStepsMoveNothing(w, act);
      UnmovedPlaces(w, Apply(w, act), j, q);
    } else if act.ConsumeAssignment? {
      ConsumeMovesForward(w, act.worker, j, p, q);
    } else if act.EnqueueAssignment? {
      EnqueueMovesForward(w, act.worker, j, p, q);
    } else {
      SchedulerMovesForward(w, act, j, p, q);
    }
  }
}
