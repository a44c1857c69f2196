/** What every event of the engine keeps: routing, FIFO queues, and the balance of actions. */
module EngineInvariants {
  import opened Counting
  import opened EngineModel

  // ---- measures ----

  function Size(b: Batch): nat { |b.actions| }

  function Remaining(w: Worker): nat {
    if w.Busy? && w.done <= |w.batch.actions| then |w.batch.actions| - w.done else 0
  }

  function SubmittedOf(sh: Shard): nat { sh.submitted }
  function DroppedOf(sh: Shard): nat { sh.dropped }
  function QueuedOf(sh: Shard): nat { Sum(sh.queue, Size) }
  function RemainingOf(sh: Shard): nat { Remaining(sh.worker) }
  function ProcessedOf(sh: Shard): nat { sh.processed }
  function AbandonedOf(sh: Shard): nat { sh.abandoned }

  function UncountedOf(sh: Shard): nat {
    if sh.worker.Busy? && sh.worker.phase == Returned then 1 else 0
  }

  /** Entries of worker w that end up in processedCount: everything but a panic. */
  function CountedBy(w: nat): Entry -> bool {
    (e: Entry) => e.worker == w && e.outcome != Panicked
  }

  /** The same over all workers. */
  function Counted(): Entry -> bool {
    (e: Entry) => e.outcome != Panicked
  }

  function EndedWith(outcome: Outcome): Entry -> bool {
    (e: Entry) => e.outcome == outcome
  }

  function EndedBy(w: nat, outcome: Outcome): Entry -> bool {
    (e: Entry) => e.worker == w && e.outcome == outcome
  }

  function SuccessfulSend(): Entry -> bool {
    (e: Entry) => e.action.kind == Send && e.outcome == Succeeded
  }

  // ---- invariant ----

  predicate Routed(c: Config, i: nat, bs: seq<Batch>)
    requires ValidConfig(c)
  {
    forall k :: 0 <= k < |bs| ==> QueueIndex(c, bs[k].client.id) == i && bs[k].actions != []
  }

  predicate WorkerInv(c: Config, sh: Shard, canceled: bool, closed: bool) {
    match sh.worker
    case Idle => true
    case Exited => closed && sh.queue == []
    case Busy(batch, done, phase) =>
      && done < |batch.actions|
      && sh.dequeued != [] && sh.dequeued[|sh.dequeued| - 1] == batch
      && (phase.Waiting? || phase.Granted? ==> Limited(c, batch.actions[done].kind))
      && (phase == Waiting(false) ==> canceled)
  }

  predicate Balanced(sh: Shard) {
    sh.submitted == sh.dropped + QueuedOf(sh) + RemainingOf(sh) + sh.processed + sh.abandoned
  }

  predicate ShardInv(c: Config, i: nat, sh: Shard, canceled: bool, closed: bool)
    requires ValidConfig(c)
  {
    && |sh.queue| <= c.queueSize
    && sh.accepted == sh.dequeued + sh.queue
    && Routed(c, i, sh.accepted)
    && WorkerInv(c, sh, canceled, closed)
    && Balanced(sh)
  }

  predicate LogInv(s: State, w: nat)
    requires w < |s.shards|
  {
    |Filter(s.log, CountedBy(w))| == s.shards[w].processed + UncountedOf(s.shards[w])
  }

  predicate ShardsInv(c: Config, s: State)
    requires Shaped(c, s)
  {
    forall i :: 0 <= i < c.workers ==> ShardInv(c, i, s.shards[i], s.canceled, s.closed)
  }

  predicate CountersInv(s: State) {
    && (forall i :: 0 <= i < |s.shards| ==> LogInv(s, i))
    && s.processed == Sum(s.shards, ProcessedOf)
    && s.processed + Sum(s.shards, UncountedOf) == |Filter(s.log, Counted())|
    && s.msgCount == |Filter(s.log, SuccessfulSend())|
  }

  predicate FlagsInv(s: State) {
    && (s.closed ==> s.canceled)
    && (s.poolDisconnected ==> s.closed && AllExited(s))
  }

  predicate Inv(c: Config, s: State) {
    Shaped(c, s) && ShardsInv(c, s) && CountersInv(s) && FlagsInv(s)
  }

  // ---- one event ----

  lemma OfferKeepsShard(c: Config, i: nat, sh: Shard, b: Batch, canceled: bool, closed: bool)
    requires ValidConfig(c) && ShardInv(c, i, sh, canceled, closed) && !closed
    requires QueueIndex(c, b.client.id) == i && b.actions != []
    ensures ShardInv(c, i, Offer(c, sh, b), canceled, closed)
  {
    SumSnoc(sh.queue, b, Size);
  }

  lemma StepKeepsShard(c: Config, i: nat, sh: Shard, step: Step, canceled: bool, closed: bool)
    requires ValidConfig(c) && ShardInv(c, i, sh, canceled, closed)
    requires StepEnabled(c, sh, step, canceled, closed)
    ensures ShardInv(c, i, Next(c, sh, step, canceled, closed), canceled, closed)
  {
    if step.Dequeue? {
      assert sh.dequeued + sh.queue == (sh.dequeued + [sh.queue[0]]) + sh.queue[1..];
      assert sh.accepted[|sh.dequeued|] == sh.queue[0];
    }
  }

  /** What a shard must satisfy does not depend on flags that only ever go up. */
  lemma FlagsOnlyHelp(c: Config, i: nat, sh: Shard, canceled: bool, closed: bool, canceled': bool, closed': bool)
    requires ValidConfig(c) && ShardInv(c, i, sh, canceled, closed)
    requires (canceled ==> canceled') && (closed ==> closed')
    ensures ShardInv(c, i, sh, canceled', closed')
  {
  }

  lemma ShardsKept(c: Config, s: State, e: Event)
    requires Enabled(c, s, e) && ShardsInv(c, s)
    ensures ShardsInv(c, Apply(c, s, e))
  {
    var s' := Apply(c, s, e);
    forall i | 0 <= i < c.workers
      ensures ShardInv(c, i, s'.shards[i], s'.canceled, s'.closed)
    {
      match e
      case Work(w, step) =>
        if w == i {
          StepKeepsShard(c, i, s.shards[i], step, s.canceled, s.closed);
        }
      case Submit(client, actions) =>
        if actions != [] && !s.closed && QueueIndex(c, client.id) == i {
          OfferKeepsShard(c, i, s.shards[i], Batch(client, actions), s.canceled, s.closed);
        }
      case _ => FlagsOnlyHelp(c, i, s.shards[i], s.canceled, s.closed, s'.canceled, s'.closed);
    }
  }

  // ---- counters ----

  /** The steps after which an action is waiting to be counted. */
  predicate EndsCounted(step: Step) {
    step.Refuse? || (step.Return? && step.outcome != Panicked)
  }

  lemma TallyAfterStep(c: Config, sh: Shard, step: Step, canceled: bool, closed: bool)
    requires StepEnabled(c, sh, step, canceled, closed)
    ensures var sh' := Next(c, sh, step, canceled, closed);
            && sh'.processed + UncountedOf(sh') == sh.processed + UncountedOf(sh) + (if EndsCounted(step) then 1 else 0)
            && sh'.processed == sh.processed + (if step.Count? then 1 else 0)
  {
  }

  lemma LoggedAfterStep(c: Config, w: nat, sh: Shard, step: Step, canceled: bool, closed: bool, log: seq<Entry>, i: nat)
    requires StepEnabled(c, sh, step, canceled, closed)
    ensures |Filter(log + Logged(c, w, sh, step, canceled, closed), CountedBy(i))|
              == |Filter(log, CountedBy(i))| + if EndsCounted(step) && w == i then 1 else 0
  {
    var more := Logged(c, w, sh, step, canceled, closed);
    if more != [] {
      assert more == [more[0]];
      FilterSnoc(log, more[0], CountedBy(i));
    } else {
      assert log + more == log;
    }
  }

  lemma LogAfterStep(c: Config, s: State, w: nat, step: Step, i: nat)
    requires w < |s.shards| && StepEnabled(c, s.shards[w], step, s.canceled, s.closed)
    requires i < |s.shards| && LogInv(s, i)
    ensures LogInv(WorkStep(c, s, w, step), i)
  {
    TallyAfterStep(c, s.shards[w], step, s.canceled, s.closed);
    LoggedAfterStep(c, w, s.shards[w], step, s.canceled, s.closed, s.log, i);
  }

  lemma SendsAfterStep(c: Config, w: nat, sh: Shard, step: Step, canceled: bool, closed: bool, log: seq<Entry>)
    requires StepEnabled(c, sh, step, canceled, closed)
    ensures |Filter(log + Logged(c, w, sh, step, canceled, closed), SuccessfulSend())|
              == |Filter(log, SuccessfulSend())|
                 + if step == Return(Succeeded) && Current(sh).kind == Send then 1 else 0
  {
    var more := Logged(c, w, sh, step, canceled, closed);
    if more != [] {
      assert more == [more[0]];
      FilterSnoc(log, more[0], SuccessfulSend());
    } else {
      assert log + more == log;
    }
  }

  lemma MsgCountAfterStep(c: Config, s: State, w: nat, step: Step)
    requires w < |s.shards| && StepEnabled(c, s.shards[w], step, s.canceled, s.closed)
    requires s.msgCount == |Filter(s.log, SuccessfulSend())|
    ensures WorkStep(c, s, w, step).msgCount == |Filter(WorkStep(c, s, w, step).log, SuccessfulSend())|
  {
    SendsAfterStep(c, w, s.shards[w], step, s.canceled, s.closed, s.log);
  }

  lemma CountedLogAfterStep(c: Config, w: nat, sh: Shard, step: Step, canceled: bool, closed: bool, log: seq<Entry>)
    requires StepEnabled(c, sh, step, canceled, closed)
    ensures |Filter(log + Logged(c, w, sh, step, canceled, closed), Counted())|
              == |Filter(log, Counted())| + if EndsCounted(step) then 1 else 0
  {
    var more := Logged(c, w, sh, step, canceled, closed);
    if more != [] {
      assert more == [more[0]];
      FilterSnoc(log, more[0], Counted());
    } else {
      assert log + more == log;
    }
  }

  lemma TotalAfterStep(c: Config, s: State, w: nat, step: Step)
    requires w < |s.shards| && StepEnabled(c, s.shards[w], step, s.canceled, s.closed)
    requires s.processed + Sum(s.shards, UncountedOf) == |Filter(s.log, Counted())|
    ensures var s' := WorkStep(c, s, w, step);
            s'.processed + Sum(s'.shards, UncountedOf) == |Filter(s'.log, Counted())|
  {
    var sh := s.shards[w];
    CountedLogAfterStep(c, w, sh, step, s.canceled, s.closed, s.log);
    TallyAfterStep(c, sh, step, s.canceled, s.closed);
    SumUpdate(s.shards, w, Next(c, sh, step, s.canceled, s.closed), UncountedOf);
  }

  lemma ProcessedAfterStep(c: Config, s: State, w: nat, step: Step)
    requires w < |s.shards| && StepEnabled(c, s.shards[w], step, s.canceled, s.closed)
    requires s.processed == Sum(s.shards, ProcessedOf)
    ensures WorkStep(c, s, w, step).processed == Sum(WorkStep(c, s, w, step).shards, ProcessedOf)
  {
    SumUpdate(s.shards, w, Next(c, s.shards[w], step, s.canceled, s.closed), ProcessedOf);
  }

  lemma CountersAfterOffer(c: Config, s: State, b: Batch)
    requires Shaped(c, s) && CountersInv(s)
    ensures CountersInv(Enqueue(c, s, b))
  {
    var i := QueueIndex(c, b.client.id);
    SumUpdate(s.shards, i, Offer(c, s.shards[i], b), ProcessedOf);
    SumUpdate(s.shards, i, Offer(c, s.shards[i], b), UncountedOf);
    var s' := Enqueue(c, s, b);
    forall k | 0 <= k < |s'.shards| ensures LogInv(s', k) {
      assert LogInv(s, k);
    }
  }

  lemma CountersAfterStep(c: Config, s: State, w: nat, step: Step)
    requires w < |s.shards| && StepEnabled(c, s.shards[w], step, s.canceled, s.closed) && CountersInv(s)
    ensures CountersInv(WorkStep(c, s, w, step))
  {
    var s' := WorkStep(c, s, w, step);
    forall i | 0 <= i < |s'.shards| ensures LogInv(s', i) {
      LogAfterStep(c, s, w, step, i);
    }
    MsgCountAfterStep(c, s, w, step);
    ProcessedAfterStep(c, s, w, step);
    TotalAfterStep(c, s, w, step);
  }

  lemma CountersKept(c: Config, s: State, e: Event)
    requires Enabled(c, s, e) && CountersInv(s)
    ensures CountersInv(Apply(c, s, e))
  {
    match e
    case Work(w, step) => CountersAfterStep(c, s, w, step);
    case Submit(client, actions) =>
      CountersAfterOffer(c, s, Batch(client, actions));
      CountersOfSame(s, s.(crashed := true));
    case _ => CountersOfSame(s, Apply(c, s, e));
  }

  lemma CountersOfSame(s: State, s': State)
    requires CountersInv(s)
    requires s'.shards == s.shards && s'.log == s.log && s'.processed == s.processed && s'.msgCount == s.msgCount
    ensures CountersInv(s')
  {
    forall i | 0 <= i < |s'.shards| ensures LogInv(s', i) {
      assert LogInv(s, i);
    }
  }

  lemma ExitedStay(c: Config, s: State, e: Event)
    requires Enabled(c, s, e) && AllExited(s)
    ensures s.closed ==> AllExited(Apply(c, s, e))
  {
  }

  lemma InvKept(c: Config, s: State, e: Event)
    requires Inv(c, s) && Enabled(c, s, e)
    ensures Inv(c, Apply(c, s, e))
  {
    ShardsKept(c, s, e);
    CountersKept(c, s, e);
    if s.poolDisconnected {
      ExitedStay(c, s, e);
    }
  }

  // ---- every run ----

  lemma EmptyShardHolds(c: Config, i: nat, canceled: bool, closed: bool)
    requires ValidConfig(c)
    ensures ShardInv(c, i, EMPTY_SHARD, canceled, closed)
  {
  }

  lemma InitHolds(c: Config)
    requires ValidConfig(c)
    ensures Inv(c, Init(c))
  {
    InitShards(c, Init(c));
    InitCounters(Init(c));
  }

  lemma InitShards(c: Config, s: State)
    requires Shaped(c, s) && forall i :: 0 <= i < |s.shards| ==> s.shards[i] == EMPTY_SHARD
    ensures ShardsInv(c, s)
  {
    forall i | 0 <= i < c.workers
      ensures ShardInv(c, i, s.shards[i], s.canceled, s.closed)
    {
      InitShard(c, s, i);
    }
  }

  lemma InitShard(c: Config, s: State, i: nat)
    requires Shaped(c, s) && i < c.workers && s.shards[i] == EMPTY_SHARD
    ensures ShardInv(c, i, s.shards[i], s.canceled, s.closed)
  {
    EmptyShardHolds(c, i, s.canceled, s.closed);
  }

  lemma InitCounters(s: State)
    requires s.processed == 0 == s.msgCount && s.log == []
    requires forall i :: 0 <= i < |s.shards| ==> s.shards[i] == EMPTY_SHARD
    ensures CountersInv(s)
  {
    SumOfZeros(s.shards, ProcessedOf);
    SumOfZeros(s.shards, UncountedOf);
  }

  lemma {:induction false} InvAlongRun(c: Config, s: State, es: seq<Event>)
    requires Inv(c, s) && Admissible(c, s, es)
    ensures Inv(c, After(c, s, es))
    decreases es
  {
    if es != [] {
      InvKept(c, s, es[0]);
      InvAlongRun(c, Apply(c, s, es[0]), es[1..]);
    }
  }

  lemma InvLeads(c: Config, start: State, s: State)
    requires Inv(c, start) && Leads(c, start, s)
    ensures Inv(c, s)
  {
    var es := RunBetween(c, start, s);
    InvAlongRun(c, start, es);
  }

  lemma ReachedHolds(c: Config, s: State)
    requires ValidConfig(c) && Reached(c, s)
    ensures Inv(c, s)
  {
    InitHolds(c);
    InvLeads(c, Init(c), s);
  }

  // ---- conservation ----

  lemma {:induction false} OutcomesPartition(log: seq<Entry>, w: nat)
    ensures |Filter(log, CountedBy(w))| ==
              |Filter(log, EndedBy(w, Succeeded))| + |Filter(log, EndedBy(w, Failed))|
              + |Filter(log, EndedBy(w, Skipped))|
  {
    if log != [] {
      OutcomesPartition(log[..|log| - 1], w);
    }
  }

  lemma {:induction false} OutcomesPartitionAll(log: seq<Entry>)
    ensures |Filter(log, Counted())| ==
              |Filter(log, EndedWith(Succeeded))| + |Filter(log, EndedWith(Failed))|
              + |Filter(log, EndedWith(Skipped))|
  {
    if log != [] {
      OutcomesPartitionAll(log[..|log| - 1]);
    }
  }

  lemma {:induction false} SumBalance(shards: seq<Shard>)
    requires forall i :: 0 <= i < |shards| ==> Balanced(shards[i])
    ensures Sum(shards, SubmittedOf) ==
              Sum(shards, DroppedOf) + Sum(shards, QueuedOf) + Sum(shards, RemainingOf)
              + Sum(shards, ProcessedOf) + Sum(shards, AbandonedOf)
  {
    if shards != [] {
      SumBalance(shards[1..]);
    }
  }

  ghost predicate QueueConserves(s: State, i: nat)
    requires i < |s.shards|
  {
    var sh := s.shards[i];
    && sh.submitted == sh.dropped + Sum(sh.queue, Size) + Remaining(sh.worker) + sh.processed + sh.abandoned
    && sh.processed + UncountedOf(sh) ==
         |Filter(s.log, EndedBy(i, Succeeded))| + |Filter(s.log, EndedBy(i, Failed))|
         + |Filter(s.log, EndedBy(i, Skipped))|
  }

  /** Per queue: nothing submitted is ever lost or counted twice, and the queue keeps its bound. */
  lemma ConservationPerQueue(c: Config, s: State, i: nat)
    requires ValidConfig(c) && Reached(c, s) && i < |s.shards|
    ensures QueueConserves(s, i) && |s.shards[i].queue| <= c.queueSize
  {
    ReachedHolds(c, s);
    assert ShardInv(c, i, s.shards[i], s.canceled, s.closed) && LogInv(s, i);
    OutcomesPartition(s.log, i);
  }

  /** Over the whole engine, with the counters the source keeps: processedCount and msgCount. */
  lemma ConservationGlobal(c: Config, s: State)
    requires ValidConfig(c) && Reached(c, s)
    ensures Sum(s.shards, SubmittedOf) ==
              Sum(s.shards, DroppedOf) + Sum(s.shards, QueuedOf) + Sum(s.shards, RemainingOf)
              + s.processed + Sum(s.shards, AbandonedOf)
    ensures s.processed + Sum(s.shards, UncountedOf) ==
              |Filter(s.log, EndedWith(Succeeded))| + |Filter(s.log, EndedWith(Failed))|
              + |Filter(s.log, EndedWith(Skipped))|
    ensures s.msgCount == |Filter(s.log, SuccessfulSend())|
  {
    ReachedHolds(c, s);
    forall i | 0 <= i < |s.shards| ensures Balanced(s.shards[i]) {
      assert ShardInv(c, i, s.shards[i], s.canceled, s.closed);
    }
    SumBalance(s.shards);
    OutcomesPartitionAll(s.log);
  }

  /**
    Two workers never hold the same client ID, so no two Execute calls for one ID overlap.
   */
  lemma MutualExclusion(c: Config, s: State, i: nat, j: nat)
    requires ValidConfig(c) && Reached(c, s) && i < |s.shards| && j < |s.shards|
    requires s.shards[i].worker.Busy? && s.shards[j].worker.Busy?
    requires s.shards[i].worker.batch.client.id == s.shards[j].worker.batch.client.id
    ensures i == j
  {
    ReachedHolds(c, s);
    BusyIsRouted(c, s, i);
    BusyIsRouted(c, s, j);
  }

  lemma BusyIsRouted(c: Config, s: State, w: nat)
    requires Inv(c, s) && w < c.workers && s.shards[w].worker.Busy?
    ensures QueueIndex(c, s.shards[w].worker.batch.client.id) == w
  {
    var sh := s.shards[w];
    assert ShardInv(c, w, sh, s.canceled, s.closed);
    assert sh.accepted[|sh.dequeued| - 1] == sh.worker.batch;
  }
}
