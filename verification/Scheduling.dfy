/**
 The scheduler (src/scheduler/scheduler.rs): choose a worker, consume a task, record the execution, publish
 the assignment; stop at the first error.
 */
module Scheduling {
  import opened Common
  import opened Text
  import A = Assignments
  import C = Core

  /** A task envelope: its correlation id, and its request unless it cannot be decoded. */
  datatype Envelope = Envelope(correlation: Option<string>, request: Option<string>)

  /**
   What the environment does during one round: the directory's answer, tasks arriving before the consume, the
   UUIDs drawn, and which calls fail.
   */
  datatype Round = Round(
    listing: Option<seq<string>>,
    arrivals: seq<Envelope>,
    consumeFails: bool,
    freshJob: string,
    assignmentId: string,
    executionId: string,
    createFails: bool,
    publishFails: bool)

  /** A published assignment, the worker it went to, and the listing that worker was taken from. */
  datatype Dispatch = Dispatch(worker: string, assignment: A.Assignment, listing: seq<string>)

  datatype SchedulerError = DirectoryUnavailable | ConsumeFailed | InvalidRequest | StoreUnavailable | PublishFailed

  /** `Blocked` is a consume that waits for a task that never comes. */
  datatype Outcome = Assigned(dispatch: Dispatch) | Deferred | Blocked | Failed(error: SchedulerError)

  /** `arrived`, `consumed` and `published` are the histories of the two queues. */
  datatype State = State(
    tasks: seq<Envelope>,
    executions: map<string, C.Execution>,
    arrived: seq<Envelope>,
    consumed: seq<Envelope>,
    published: seq<Dispatch>)

  function JobId(envelope: Envelope, freshJob: string): string {
    if envelope.correlation.Some? then envelope.correlation.value else freshJob
  }

  /** The part of a round after a task was consumed for worker `v`. */
  function Place(st: State, round: Round, v: string, envelope: Envelope, listing: seq<string>): (State, Outcome) {
    if envelope.request.None? then (st, Failed(InvalidRequest))
    else
      var j := JobId(envelope, round.freshJob);
      var a := A.Assignment(round.assignmentId, round.executionId, j, envelope.request.value);
      if round.createFails || round.executionId in st.executions then (st, Failed(StoreUnavailable))
      else
        var created := st.(executions := st.executions[round.executionId :=
                             C.Execution(j, round.assignmentId, v, C.ExecAssigned)]);
        if round.publishFails then (created, Failed(PublishFailed))
        else
          var d := Dispatch(v, a, listing);
          (created.(published := st.published + [d]), Assigned(d))
  }

  function ScheduleOne(st0: State, round: Round): (State, Outcome) {
    var st := st0.(tasks := st0.tasks + round.arrivals, arrived := st0.arrived + round.arrivals);
    if round.listing.None? then (st, Failed(DirectoryUnavailable))
    else if round.listing.value == [] then (st, Deferred)
    else if round.consumeFails then (st, Failed(ConsumeFailed))
    else if st.tasks == [] then (st, Blocked)
    else
      var consumed := st.(tasks := st.tasks[1..], consumed := st.consumed + [st.tasks[0]]);
      Place(consumed, round, round.listing.value[0], st.tasks[0], round.listing.value)
  }

  /** Rounds until the first one that does not return a decision. */
  function Run(st: State, rounds: seq<Round>): (State, bool) {
    if rounds == [] then (st, false)
    else
      var n := |rounds| - 1;
      var (st', halted) := Run(st, rounds[..n]);
      if halted then (st', true)
      else
        var (st'', outcome) := ScheduleOne(st', rounds[n]);
        (st'', outcome.Failed? || outcome.Blocked?)
  }

  // ---------------------------------------------------------------------------------------------
  // Order and loss
  // ---------------------------------------------------------------------------------------------

  /** The dispatch is the envelope's job, sent to the first listed worker, with its execution on record. */
  predicate Carries(st: State, envelope: Envelope, d: Dispatch) {
    && (envelope.correlation.Some? ==> d.assignment.jobId == envelope.correlation.value)
    && envelope.request == Some(d.assignment.task)
    && d.listing != [] && d.worker == d.listing[0]
    && d.assignment.executionId in st.executions
    && var x := st.executions[d.assignment.executionId];
    && x == C.Execution(d.assignment.jobId, d.assignment.assignmentId, d.worker, C.ExecAssigned)
  }

  /** Published assignments follow the consumed tasks one for one; only a halted scheduler may owe one. */
  predicate InOrder(st: State, halted: bool) {
    && st.arrived == st.consumed + st.tasks
    && |st.published| <= |st.consumed|
    && |st.consumed| <= |st.published| + (if halted then 1 else 0)
    && forall i :: 0 <= i < |st.published| ==> Carries(st, st.consumed[i], st.published[i])
  }

  /** A consumed task is dispatched in turn, or the scheduler halts with it in hand. */
  lemma PlaceKeepsOrder(st: State, round: Round, v: string, envelope: Envelope, listing: seq<string>)
    requires InOrder(st, true) && |st.consumed| == |st.published| + 1
    requires envelope == st.consumed[|st.published|] && listing != [] && v == listing[0]
    ensures var (st', outcome) := Place(st, round, v, envelope, listing);
      && (outcome.Assigned? || outcome.Failed?)
      && InOrder(st', outcome.Failed?)
      && st'.consumed == st.consumed
      && (outcome.Assigned? ==> st'.published == st.published + [outcome.dispatch])
  {
    var (st', outcome) := Place(st, round, v, envelope, listing);
    forall i | 0 <= i < |st'.published| ensures Carries(st', st'.consumed[i], st'.published[i]) {
      if i < |st.published| {
        assert Carries(st, st.consumed[i], st.published[i]);
      }
    }
  }

  lemma ArrivalsKeepOrder(st: State, arrivals: seq<Envelope>)
    requires InOrder(st, false)
    ensures InOrder(st.(tasks := st.tasks + arrivals, arrived := st.arrived + arrivals), false)
  {
    var st' := st.(tasks := st.tasks + arrivals, arrived := st.arrived + arrivals);
    assert st'.arrived == st'.consumed + st'.tasks;
    forall i | 0 <= i < |st'.published| ensures Carries(st', st'.consumed[i], st'.published[i]) {
      assert Carries(st, st.consumed[i], st.published[i]);
    }
  }

  lemma ConsumeKeepsOrder(st: State)
    requires InOrder(st, false) && st.tasks != []
    ensures InOrder(st.(tasks := st.tasks[1..], consumed := st.consumed + [st.tasks[0]]), true)
  {
    var st' := st.(tasks := st.tasks[1..], consumed := st.consumed + [st.tasks[0]]);
    assert st'.arrived == st'.consumed + st'.tasks;
    forall i | 0 <= i < |st'.published| ensures Carries(st', st'.consumed[i], st'.published[i]) {
      assert Carries(st, st.consumed[i], st.published[i]);
    }
  }

  /** One round: a deferred one consumes nothing, an assigned one consumes and publishes exactly one. */
  lemma RoundKeepsOrder(st: State, round: Round)
    requires InOrder(st, false)
    ensures var (st', outcome) := ScheduleOne(st, round);
      && InOrder(st', outcome.Failed? || outcome.Blocked?)
      && (outcome.Deferred? ==>
            st'.consumed == st.consumed && st'.published == st.published && st'.executions == st.executions)
      && (outcome.Assigned? ==>
            |st'.consumed| == |st.consumed| + 1 && st'.published == st.published + [outcome.dispatch])
  {
    var st1 := st.(tasks := st.tasks + round.arrivals, arrived := st.arrived + round.arrivals);
    ArrivalsKeepOrder(st, round.arrivals);
    if round.listing.Some? && round.listing.value != [] && !round.consumeFails && st1.tasks != [] {
      var st2 := st1.(tasks := st1.tasks[1..], consumed := st1.consumed + [st1.tasks[0]]);
      ConsumeKeepsOrder(st1);
      PlaceKeepsOrder(st2, round, round.listing.value[0], st1.tasks[0], round.listing.value);
    }
  }

  /** In every run: tasks are consumed first in, first out, published in that order, and at most one is lost. */
  lemma {:induction false} RunKeepsOrder(st: State, rounds: seq<Round>)
    requires InOrder(st, false)
    ensures InOrder(Run(st, rounds).0, Run(st, rounds).1)
  {
    if rounds != [] {
      var n := |rounds| - 1;
      RunKeepsOrder(st, rounds[..n]);
      if !Run(st, rounds[..n]).1 {
        RoundKeepsOrder(Run(st, rounds[..n]).0, rounds[n]);
      }
    }
  }

  /** The worker of every published assignment is the least id of the listing it was taken from. */
  lemma ChosenWorkerIsLeast(st: State, rounds: seq<Round>, i: nat, w: string)
    requires InOrder(st, false) && i < |Run(st, rounds).0.published|
    requires var d := Run(st, rounds).0.published[i]; StrictlySorted(d.listing) && w in d.listing
    ensures Leq(Run(st, rounds).0.published[i].worker, w)
  {
    RunKeepsOrder(st, rounds);
    var end := Run(st, rounds).0;
    assert Carries(end, end.consumed[i], end.published[i]);
    var d := end.published[i];
    var k :| 0 <= k < |d.listing| && d.listing[k] == w;
    if k == 0 {
      LeqTotal(w, w);
    }
  }

  // ---------------------------------------------------------------------------------------------
  // Outcomes
  // ---------------------------------------------------------------------------------------------

  /** The directory listed someone and a task was consumed. */
  predicate Consumes(st: State, round: Round) {
    && round.listing.Some? && round.listing.value != [] && !round.consumeFails
    && st.tasks + round.arrivals != []
  }

  function FirstTask(st: State, round: Round): Envelope
    requires Consumes(st, round)
  {
    (st.tasks + round.arrivals)[0]
  }

  /** The consumed task decodes and its execution can be recorded. */
  predicate Records(st: State, round: Round) {
    && Consumes(st, round) && FirstTask(st, round).request.Some?
    && !round.createFails && round.executionId !in st.executions
  }

  /** Which outcome a round has: the exact condition for each. */
  lemma OutcomeExactlyWhen(st: State, round: Round)
    ensures var outcome := ScheduleOne(st, round).1;
      var listed := round.listing.Some? && round.listing.value != [];
      && (outcome == Failed(DirectoryUnavailable) <==> round.listing.None?)
      && (outcome == Deferred <==> round.listing == Some([]))
      && (outcome == Failed(ConsumeFailed) <==> listed && round.consumeFails)
      && (outcome == Blocked <==> listed && !round.consumeFails && st.tasks == [] && round.arrivals == [])
      && (outcome == Failed(InvalidRequest) <==> Consumes(st, round) && FirstTask(st, round).request.None?)
      && (outcome == Failed(StoreUnavailable) <==>
            Consumes(st, round) && FirstTask(st, round).request.Some? && !Records(st, round))
      && (outcome == Failed(PublishFailed) <==> Records(st, round) && round.publishFails)
      && (outcome.Assigned? <==> Records(st, round) && !round.publishFails)
  {
  }

  /** What a round changes, and what an assigning one publishes. */
  lemma EffectExactlyWhen(st: State, round: Round)
    ensures var (st', outcome) := ScheduleOne(st, round);
      && st'.arrived == st.arrived + round.arrivals
      && (if Consumes(st, round) then
            && st'.consumed == st.consumed + [FirstTask(st, round)]
            && [FirstTask(st, round)] + st'.tasks == st.tasks + round.arrivals
          else st'.consumed == st.consumed && st'.tasks == st.tasks + round.arrivals)
      && (if Records(st, round) then
            var task := FirstTask(st, round);
            var job := if task.correlation.Some? then task.correlation.value else round.freshJob;
            var worker := round.listing.value[0];
            && st'.executions ==
                 st.executions[round.executionId := C.Execution(job, round.assignmentId, worker, C.ExecAssigned)]
            && (!round.publishFails ==>
                  && st'.published == st.published + [outcome.dispatch] && outcome.dispatch.worker == worker
                  && outcome.dispatch.assignment ==
                       A.Assignment(round.assignmentId, round.executionId, job, task.request.value))
          else st'.executions == st.executions)
      && (!outcome.Assigned? ==> st'.published == st.published)
  {
    OutcomeExactlyWhen(st, round);
  }

  /** Round `i` is the first that ends with an error or waits for ever. */
  predicate StopsAt(st: State, rounds: seq<Round>, i: nat) {
    && i < |rounds| && !Run(st, rounds[..i]).1
    && var outcome := ScheduleOne(Run(st, rounds[..i]).0, rounds[i]).1;
    outcome.Failed? || outcome.Blocked?
  }

  lemma StopsAtPrefix(st: State, rounds: seq<Round>, n: nat, i: nat)
    requires i < n <= |rounds|
    ensures StopsAt(st, rounds[..n], i) <==> StopsAt(st, rounds, i)
  {
    assert rounds[..n][..i] == rounds[..i];
  }

  lemma StoppedLoopStays(st: State, rounds: seq<Round>)
    requires rounds != [] && Run(st, rounds[..|rounds| - 1]).1
    ensures Run(st, rounds) == (Run(st, rounds[..|rounds| - 1]).0, true)
  {
  }

  lemma StopsNow(st: State, rounds: seq<Round>)
    requires rounds != [] && StopsAt(st, rounds, |rounds| - 1)
    ensures var n := |rounds| - 1;
      Run(st, rounds) == (ScheduleOne(Run(st, rounds[..n]).0, rounds[n]).0, true)
  {
  }

  /** A stopped loop is as the round that stopped it left it. */
  lemma {:induction false} StoppedLoopIsLeft(st: State, rounds: seq<Round>, i: nat)
    requires StopsAt(st, rounds, i)
    ensures Run(st, rounds) == (ScheduleOne(Run(st, rounds[..i]).0, rounds[i]).0, true)
    decreases |rounds|
  {
    var n := |rounds| - 1;
    if i == n {
      StopsNow(st, rounds);
    } else {
      StopsAtPrefix(st, rounds, n, i);
      StoppedLoopIsLeft(st, rounds[..n], i);
      assert rounds[..n][..i] == rounds[..i] && rounds[..n][i] == rounds[i];
      StoppedLoopStays(st, rounds);
    }
  }

  /** The loop has stopped exactly when some round stopped it. */
  lemma {:induction false} RunStopsExactlyWhen(st: State, rounds: seq<Round>)
    ensures Run(st, rounds).1 <==> exists i: nat :: StopsAt(st, rounds, i)
    decreases |rounds|
  {
    if i: nat :| StopsAt(st, rounds, i) {
      StoppedLoopIsLeft(st, rounds, i);
    }
    if rounds != [] && Run(st, rounds).1 {
      var n := |rounds| - 1;
      if Run(st, rounds[..n]).1 {
        RunStopsExactlyWhen(st, rounds[..n]);
        var i: nat :| StopsAt(st, rounds[..n], i);
        StopsAtPrefix(st, rounds, n, i);
      } else {
        assert StopsAt(st, rounds, n);
      }
    }
  }

  /** A round without workers never stops the loop, and leaves every task where it was. */
  lemma EmptyListingNeverStops(st: State, rounds: seq<Round>, i: nat)
    requires i < |rounds| && rounds[i].listing == Some([])
    ensures !StopsAt(st, rounds, i)
    ensures Run(st, rounds[..i + 1]).1 == Run(st, rounds[..i]).1
    ensures var before, after := Run(st, rounds[..i]).0, Run(st, rounds[..i + 1]).0;
      && after.consumed == before.consumed && after.published == before.published
      && after.executions == before.executions && IsPrefix(before.tasks, after.tasks)
  {
    assert rounds[..i + 1][..i] == rounds[..i];
    OutcomeExactlyWhen(Run(st, rounds[..i]).0, rounds[i]);
    EffectExactlyWhen(Run(st, rounds[..i]).0, rounds[i]);
  }

  // ---------------------------------------------------------------------------------------------
  // The scheduler in place
  // ---------------------------------------------------------------------------------------------

  class Scheduler {
    var tasks: seq<Envelope>
    var executions: map<string, C.Execution>
    var arrived: seq<Envelope>
    var consumed: seq<Envelope>
    var published: seq<Dispatch>

    ghost function Snapshot(): State
      reads this
    {
      State(tasks, executions, arrived, consumed, published)
    }

    constructor ()
      ensures Snapshot() == State([], map[], [], [], [])
    {
      tasks, executions, arrived, consumed, published := [], map[], [], [], [];
    }

    method ScheduleRound(round: Round) returns (outcome: Outcome)
      modifies this
      ensures (Snapshot(), outcome) == ScheduleOne(old(Snapshot()), round)
    {
      tasks, arrived := tasks + round.arrivals, arrived + round.arrivals;
      if round.listing.None? {
        return Failed(DirectoryUnavailable);
      }
      var listing := round.listing.value;
      if listing == [] {
        return Deferred;
      }
      var worker := listing[0];
      if round.consumeFails {
        return Failed(ConsumeFailed);
      }
      if tasks == [] {
        return Blocked;
      }
      var submitted := tasks[0];
      tasks, consumed := tasks[1..], consumed + [submitted];
      if submitted.request.None? {
        return Failed(InvalidRequest);
      }
      var jobId := if submitted.correlation.Some? then submitted.correlation.value else round.freshJob;
      var assignment := A.Assignment(round.assignmentId, round.executionId, jobId, submitted.request.value);
      if round.createFails || round.executionId in executions {
        return Failed(StoreUnavailable);
      }
      executions := executions[round.executionId := C.Execution(jobId, round.assignmentId, worker, C.ExecAssigned)];
      if round.publishFails {
        return Failed(PublishFailed);
      }
      var d := Dispatch(worker, assignment, listing);
      published := published + [d];
      outcome := Assigned(d);
    }

    method RunRounds(rounds: seq<Round>) returns (halted: bool)
      requires InOrder(Snapshot(), false)
      modifies this
      ensures (Snapshot(), halted) == Run(old(Snapshot()), rounds)
      ensures InOrder(Snapshot(), halted)
    {
      ghost var start := Snapshot();
      halted := false;
      for i := 0 to |rounds|
        invariant (Snapshot(), halted) == Run(start, rounds[..i])
      {
        assert rounds[..i + 1][..i] == rounds[..i];
        if !halted {
          var outcome := ScheduleRound(rounds[i]);
          halted := outcome.Failed? || outcome.Blocked?;
        }
      }
      assert rounds[..|rounds|] == rounds;
      RunKeepsOrder(start, rounds);
    }
  }
}
