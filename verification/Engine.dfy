/**
  The engine object: its queues, counters and flags, changed in place. Each method is tied to the step
  system by the ghost field model, so that what is proved of every run holds of every use of the object.
 */
module EngineObject {
  import opened Wrappers
  import opened Counting
  import opened EngineModel
  import opened EngineInvariants
  import opened EngineShutdown

  const DEFAULT_WORKER_COUNT: nat := 10
  const DEFAULT_QUEUE_SIZE: nat := 1000

  datatype EngineOption = WithWorkerCount(count: int) | WithQueueSize(size: int)

  datatype RateLimit = RateLimit(rate: int, burst: int)

  datatype RateLimits = RateLimits(connect: RateLimit, subscribe: RateLimit, send: RateLimit, disconnect: RateLimit)

  datatype SubmitResult = Ignored | Queued | QueueFull | SendOnClosedChannel

  // ---- construction ----

  /** The last positive setting among the options, else the default. */
  function ChosenWorkers(opts: seq<EngineOption>): nat {
    if opts == [] then DEFAULT_WORKER_COUNT
    else
      var last := opts[|opts| - 1];
      if last.WithWorkerCount? && last.count > 0 then last.count else ChosenWorkers(opts[..|opts| - 1])
  }

  function ChosenSize(opts: seq<EngineOption>): nat {
    if opts == [] then DEFAULT_QUEUE_SIZE
    else
      var last := opts[|opts| - 1];
      if last.WithQueueSize? && last.size > 0 then last.size else ChosenSize(opts[..|opts| - 1])
  }

  predicate SetsWorkers(o: EngineOption, n: nat) {
    o == WithWorkerCount(n) && n > 0
  }

  predicate SetsSize(o: EngineOption, n: nat) {
    o == WithQueueSize(n) && n > 0
  }

  /** The last option that sets the number of workers to something positive decides it; without one it is 10. */
  lemma {:induction false} LastWorkersWin(opts: seq<EngineOption>)
    ensures if exists i, n :: 0 <= i < |opts| && SetsWorkers(opts[i], n)
            then exists i :: 0 <= i < |opts| && SetsWorkers(opts[i], ChosenWorkers(opts))
                   && forall j, n :: i < j < |opts| ==> !SetsWorkers(opts[j], n)
            else ChosenWorkers(opts) == 10
  {
    if opts != [] {
      var k := |opts| - 1;
      LastWorkersWin(opts[..k]);
      if opts[k].WithWorkerCount? && opts[k].count > 0 {
        assert SetsWorkers(opts[k], ChosenWorkers(opts));
      } else {
        assert forall n :: !SetsWorkers(opts[k], n);
        if i, n :| 0 <= i < |opts| && SetsWorkers(opts[i], n) {
          assert SetsWorkers(opts[..k][i], n);
        }
      }
    }
  }

  /** Likewise the queue size, which without an option is 1000. */
  lemma {:induction false} LastSizeWins(opts: seq<EngineOption>)
    ensures if exists i, n :: 0 <= i < |opts| && SetsSize(opts[i], n)
            then exists i :: 0 <= i < |opts| && SetsSize(opts[i], ChosenSize(opts))
                   && forall j, n :: i < j < |opts| ==> !SetsSize(opts[j], n)
            else ChosenSize(opts) == 1000
  {
    if opts != [] {
      var k := |opts| - 1;
      LastSizeWins(opts[..k]);
      if opts[k].WithQueueSize? && opts[k].size > 0 {
        assert SetsSize(opts[k], ChosenSize(opts));
      } else {
        assert forall n :: !SetsSize(opts[k], n);
        if i, n :| 0 <= i < |opts| && SetsSize(opts[i], n) {
          assert SetsSize(opts[..k][i], n);
        }
      }
    }
  }

  method ApplyOptions(opts: seq<EngineOption>) returns (workers: nat, size: nat)
    ensures workers == ChosenWorkers(opts) && size == ChosenSize(opts)
    ensures workers > 0 && size > 0
  {
    workers, size := DEFAULT_WORKER_COUNT, DEFAULT_QUEUE_SIZE;
    for i := 0 to |opts|
      invariant workers == ChosenWorkers(opts[..i]) && size == ChosenSize(opts[..i])
      invariant workers > 0 && size > 0
    {
      assert opts[..i + 1][..i] == opts[..i];
      match opts[i]
      case WithWorkerCount(count) => if count > 0 { workers := count; }
      case WithQueueSize(n) => if n > 0 { size := n; }
    }
    assert opts[..|opts|] == opts;
  }

  /**
    A limiter exists exactly when its rate is positive; its burst is the configured one when that is
    positive, else the fallback, and so never 0: a limiter of burst 0 would refuse every Wait.
   */
  function BuildLimiter(cfg: RateLimit, fallback: int): (l: Option<Limiter>)
    requires cfg.rate > 0 ==> fallback > 0
    ensures l.Some? <==> cfg.rate > 0
    ensures l.Some? ==> l.value.burst >= 1 && l.value.rate == cfg.rate
    ensures l.Some? ==> l.value.burst == if cfg.burst > 0 then cfg.burst else fallback
  {
    if cfg.rate > 0 then Some(Limiter(cfg.rate, if cfg.burst <= 0 then fallback else cfg.burst)) else None
  }

  lemma QueueBounded(c: Config, s: State, i: nat)
    requires Shaped(c, s) && Reached(c, s) && i < c.workers
    ensures |s.shards[i].queue| <= c.queueSize
  {
    ReachedHolds(c, s);
    assert ShardInv(c, i, s.shards[i], s.canceled, s.closed);
  }

  /** The outcome of one action: a limited one is skipped once the context is canceled. */
  function Effective(c: Config, a: Action, canceled: bool, executed: Outcome): (r: Outcome)
    ensures a.kind == Send ==> r == if canceled && c.send.Some? then Skipped else executed
    ensures a.kind == Subscribe ==> r == if canceled && c.subscribe.Some? then Skipped else executed
    ensures a.kind == Unsubscribe ==> r == executed
    ensures a.kind == Disconnect ==> r == if canceled && c.disconnect.Some? then Skipped else executed
  {
    if Limited(c, a.kind) && canceled then Skipped else executed
  }

  /** The entries a worker logs for a batch from its k-th action on, given what each Execute would do. */
  function BatchEntries(c: Config, w: nat, b: Batch, k: nat, canceled: bool, execute: nat -> Outcome): seq<Entry>
    requires k <= |b.actions|
    decreases |b.actions| - k
  {
    if k == |b.actions| then []
    else
      var outcome := Effective(c, b.actions[k], canceled, execute(k));
      [Entry(w, b.client, b.actions[k], outcome)]
      + if outcome == Panicked then [] else BatchEntries(c, w, b, k + 1, canceled, execute)
  }

  /**
    The entries are those of a prefix of the rest of the batch, in order, each with the outcome of its own
    action; the prefix is all of it unless its last entry panicked, and no other entry did.
   */
  lemma {:induction false} EntriesArePrefix(
    c: Config, w: nat, b: Batch, k: nat, canceled: bool, execute: nat -> Outcome)
    requires k <= |b.actions|
    ensures IsPrefixOfRest(c, w, b, k, canceled, execute, BatchEntries(c, w, b, k, canceled, execute))
    decreases |b.actions| - k
  {
    if k < |b.actions| {
      var outcome := Effective(c, b.actions[k], canceled, execute(k));
      var head := Entry(w, b.client, b.actions[k], outcome);
      if outcome == Panicked {
        assert BatchEntries(c, w, b, k, canceled, execute) == [head];
      } else {
        EntriesArePrefix(c, w, b, k + 1, canceled, execute);
        PrefixAhead(c, w, b, k, canceled, execute, BatchEntries(c, w, b, k + 1, canceled, execute));
      }
    }
  }

  predicate IsPrefixOfRest(
    c: Config, w: nat, b: Batch, k: nat, canceled: bool, execute: nat -> Outcome, es: seq<Entry>)
  {
    && k + |es| <= |b.actions|
    && (forall j :: 0 <= j < |es| ==> IsEntryOf(c, w, b, k + j, canceled, execute, es[j]))
    && (forall j :: 0 <= j < |es| - 1 ==> es[j].outcome != Panicked)
    && (k + |es| < |b.actions| ==> es != [] && es[|es| - 1].outcome == Panicked)
  }

  predicate IsEntryOf(c: Config, w: nat, b: Batch, i: nat, canceled: bool, execute: nat -> Outcome, e: Entry)
    requires i < |b.actions|
  {
    e == Entry(w, b.client, b.actions[i], Effective(c, b.actions[i], canceled, execute(i)))
  }

  lemma PrefixAhead(c: Config, w: nat, b: Batch, k: nat, canceled: bool, execute: nat -> Outcome, rest: seq<Entry>)
    requires k < |b.actions| && Effective(c, b.actions[k], canceled, execute(k)) != Panicked
    requires IsPrefixOfRest(c, w, b, k + 1, canceled, execute, rest)
    ensures var head := Entry(w, b.client, b.actions[k], Effective(c, b.actions[k], canceled, execute(k)));
            IsPrefixOfRest(c, w, b, k, canceled, execute, [head] + rest)
  {
    var es := [Entry(w, b.client, b.actions[k], Effective(c, b.actions[k], canceled, execute(k)))] + rest;
    forall j | 0 <= j < |es| ensures IsEntryOf(c, w, b, k + j, canceled, execute, es[j]) {
      if j > 0 {
        assert IsEntryOf(c, w, b, (k + 1) + (j - 1), canceled, execute, rest[j - 1]);
      }
    }
    if rest != [] {
      assert es[|es| - 1] == rest[|rest| - 1];
    }
  }

  /** The entries a worker logs for the batches of its queue, given what each Execute of the n-th batch would do. */
  function QueueEntries(
    c: Config, w: nat, queue: seq<Batch>, canceled: bool, execute: nat -> nat -> Outcome): seq<Entry>
  {
    if queue == [] then []
    else
      var n := |queue| - 1;
      QueueEntries(c, w, queue[..n], canceled, execute)
      + BatchEntries(c, w, queue[n], 0, canceled, execute(n))
  }

  lemma QueueEntriesNext(c: Config, w: nat, queue: seq<Batch>, n: nat, canceled: bool, execute: nat -> nat -> Outcome)
    requires n < |queue|
    ensures QueueEntries(c, w, queue[..n + 1], canceled, execute) ==
              QueueEntries(c, w, queue[..n], canceled, execute)
              + BatchEntries(c, w, queue[n], 0, canceled, execute(n))
  {
    assert queue[..n + 1][..n] == queue[..n];
  }

  /** From one state to a later one: only shard w moved, nothing was accepted, and these entries were logged. */
  predicate Ran(before: State, now: State, w: nat, entries: seq<Entry>) {
    && w < |before.shards| == |now.shards| && KeepsFlags(before, now)
    && now.shards[w].accepted == before.shards[w].accepted
    && (forall j :: 0 <= j < |now.shards| && j != w ==> now.shards[j] == before.shards[j])
    && now.log == before.log + entries
  }

  lemma RanOn(before: State, mid: State, now: State, w: nat, entries: seq<Entry>, more: seq<Entry>)
    requires Ran(before, mid, w, entries) && Ran(mid, now, w, more)
    ensures Ran(before, now, w, entries + more)
  {
    assert before.log + (entries + more) == (before.log + entries) + more;
  }

  /** Only shard w changed, and in it neither the queue nor what went through it. */
  predicate SameButWorker(before: seq<Shard>, now: seq<Shard>, w: nat) {
    && w < |before| == |now|
    && (forall j :: 0 <= j < |now| && j != w ==> now[j] == before[j])
    && now[w].queue == before[w].queue && now[w].accepted == before[w].accepted
    && now[w].dequeued == before[w].dequeued
  }

  lemma QueueFifo(c: Config, s: State, i: nat)
    requires Shaped(c, s) && Reached(c, s) && i < c.workers
    ensures s.shards[i].accepted == s.shards[i].dequeued + s.shards[i].queue
  {
    ReachedHolds(c, s);
    assert ShardInv(c, i, s.shards[i], s.canceled, s.closed);
  }

  lemma QueueRouted(c: Config, s: State, i: nat)
    requires Shaped(c, s) && Reached(c, s) && i < c.workers && s.shards[i].queue != []
    ensures s.shards[i].queue[0].actions != []
  {
    QueueFifo(c, s, i);
    ReachedHolds(c, s);
    assert ShardInv(c, i, s.shards[i], s.canceled, s.closed);
    assert s.shards[i].accepted[|s.shards[i].dequeued|] == s.shards[i].queue[0];
  }

  /** processedCount leaves out an action that panicked, which can only be the last of its batch. */
  function CountedIn(entries: seq<Entry>): nat {
    if entries != [] && entries[|entries| - 1].outcome == Panicked then |entries| - 1 else |entries|
  }

  /** From this log and count, executing the batch from its k-th action on ends in that log and count. */
  predicate EndsIn(log: seq<Entry>, count: nat, rest: seq<Entry>, finalLog: seq<Entry>, finalCount: nat) {
    log + rest == finalLog && count + CountedIn(rest) == finalCount
  }

  /** One turn of the loop moves the head of the remaining entries to the log, and counts it. */
  lemma EntriesUnfold(c: Config, w: nat, b: Batch, k: nat, canceled: bool, execute: nat -> Outcome,
                      log: seq<Entry>, count: nat, finalLog: seq<Entry>, finalCount: nat)
    requires k < |b.actions|
    requires EndsIn(log, count, BatchEntries(c, w, b, k, canceled, execute), finalLog, finalCount)
    ensures var outcome := Effective(c, b.actions[k], canceled, execute(k));
            var log' := log + [Entry(w, b.client, b.actions[k], outcome)];
            if outcome == Panicked then log' == finalLog && count == finalCount
            else EndsIn(log', count + 1, BatchEntries(c, w, b, k + 1, canceled, execute), finalLog, finalCount)
  {
    var head := Entry(w, b.client, b.actions[k], Effective(c, b.actions[k], canceled, execute(k)));
    if head.outcome != Panicked {
      HeadMoves(log, count, head, BatchEntries(c, w, b, k + 1, canceled, execute), finalLog, finalCount);
    }
  }

  lemma HeadMoves(log: seq<Entry>, count: nat, head: Entry, rest: seq<Entry>, finalLog: seq<Entry>, finalCount: nat)
    requires head.outcome != Panicked && EndsIn(log, count, [head] + rest, finalLog, finalCount)
    ensures EndsIn(log + [head], count + 1, rest, finalLog, finalCount)
  {
    assert log + ([head] + rest) == (log + [head]) + rest;
  }

  predicate KeepsFlags(before: State, now: State) {
    now.canceled == before.canceled && now.closed == before.closed && now.poolDisconnected == before.poolDisconnected
  }

  lemma NotClosedNotDisconnected(c: Config, s: State)
    requires Shaped(c, s) && Reached(c, s) && !s.closed
    ensures !s.poolDisconnected
  {
    ReachedHolds(c, s);
  }

  class Engine {
    const workerCount: nat
    const queueSize: nat
    const hash: string -> Word32
    const connectLimiter: Option<Limiter>
    const sendLimiter: Option<Limiter>
    const subscribeLimiter: Option<Limiter>
    const disconnectLimiter: Option<Limiter>
    const actionQueues: array<seq<Batch>>
    var processedCount: nat
    var msgCount: nat
    var canceled: bool
    var closed: bool
    ghost var model: State

    function Settings(): Config {
      Config(workerCount, queueSize, hash, sendLimiter, subscribeLimiter, disconnectLimiter)
    }

    ghost predicate Valid()
      reads this, actionQueues
    {
      && Shaped(Settings(), model) && Reached(Settings(), model) && !model.crashed
      && actionQueues.Length == workerCount
      && (forall i :: 0 <= i < workerCount ==> actionQueues[i] == model.shards[i].queue)
      && processedCount == model.processed && msgCount == model.msgCount
      && canceled == model.canceled && closed == model.closed
    }

    constructor (opts: seq<EngineOption>, limits: RateLimits, hash: string -> Word32)
      ensures Valid() && fresh(actionQueues) && model == Init(Settings())
      ensures workerCount == ChosenWorkers(opts) && queueSize == ChosenSize(opts) && this.hash == hash
      ensures connectLimiter == BuildLimiter(limits.connect, limits.connect.rate)
      ensures sendLimiter == BuildLimiter(limits.send, limits.send.rate)
      ensures subscribeLimiter == BuildLimiter(limits.subscribe, 1)
      ensures disconnectLimiter == BuildLimiter(limits.disconnect, limits.disconnect.rate)
    {
      var workers, size := ApplyOptions(opts);
      workerCount := workers;
      queueSize := size;
      this.hash := hash;
      connectLimiter := BuildLimiter(limits.connect, limits.connect.rate);
      sendLimiter := BuildLimiter(limits.send, limits.send.rate);
      subscribeLimiter := BuildLimiter(limits.subscribe, 1);
      disconnectLimiter := BuildLimiter(limits.disconnect, limits.disconnect.rate);
      actionQueues := new seq<Batch>[workers](_ => []);
      processedCount := 0;
      msgCount := 0;
      canceled := false;
      closed := false;
      new;
      model := Init(Settings());
      LeadsToItself(Settings(), model);
    }

    /** Advances the model by one event; the caller makes the same change to the fields. */
    ghost method Advance(e: Event)
      requires Reached(Settings(), model) && Enabled(Settings(), model, e)
      modifies `model
      ensures model == Apply(Settings(), old(model), e) && Reached(Settings(), model)
    {
      LeadsNext(Settings(), Init(Settings()), model, e);
      model := Apply(Settings(), model, e);
    }

    /** A worker's step, told apart by what it does to the worker's shard and to the counters. */
    ghost method AdvanceWorker(w: nat, step: Step)
      requires Shaped(Settings(), model) && Reached(Settings(), model) && !model.crashed && w < workerCount
      requires StepEnabled(Settings(), model.shards[w], step, model.canceled, model.closed)
      modifies `model
      ensures Shaped(Settings(), model) && Reached(Settings(), model) && !model.crashed
      ensures KeepsFlags(old(model), model)
      ensures model.shards == old(model.shards)[w :=
                Next(Settings(), old(model.shards[w]), step, old(model.canceled), old(model.closed))]
      ensures model.log == old(model.log)
                + Logged(Settings(), w, old(model.shards[w]), step, old(model.canceled), old(model.closed))
      ensures model.processed == if step.Count? then old(model.processed) + 1 else old(model.processed)
      ensures model.msgCount ==
                if step == Return(Succeeded) && Current(old(model.shards[w])).kind == Send
                then old(model.msgCount) + 1 else old(model.msgCount)
    {
      Advance(Work(w, step));
    }

    method SubmitActions(client: Client, actions: seq<Action>) returns (r: SubmitResult)
      requires Valid()
      modifies this, actionQueues
      ensures model == Apply(Settings(), old(model), Submit(client, actions))
      ensures r != SendOnClosedChannel ==> Valid()
      ensures r == SendOnClosedChannel <==> model.crashed
      ensures r == Ignored <==> actions == []
      ensures r == Queued ==>
                exists i: nat :: IsQueueOf(hash(client.id), workerCount, i) && |old(actionQueues[i])| < queueSize
                  && actionQueues[..] == old(actionQueues[..])[i := old(actionQueues[i]) + [Batch(client, actions)]]
      ensures r == QueueFull ==>
                && (exists i: nat :: IsQueueOf(hash(client.id), workerCount, i) && |actionQueues[i]| == queueSize)
                && actionQueues[..] == old(actionQueues[..])
    {
      Advance(Submit(client, actions));
      if actions == [] {
        return Ignored;
      }
      if closed {
        return SendOnClosedChannel;
      }
      var i := QueueIndex(Settings(), client.id);
      QueueBounded(Settings(), old(model), i);
      if |actionQueues[i]| < queueSize {
        actionQueues[i] := actionQueues[i] + [Batch(client, actions)];
        r := Queued;
      } else {
        r := QueueFull;
      }
    }

    /** An action of a limited kind that gets its grant. */
    ghost method Admit(w: nat)
      requires Valid() && w < workerCount && !canceled && InAction(model.shards[w], Ready)
      requires Limited(Settings(), Current(model.shards[w]).kind)
      modifies `model
      ensures Valid() && KeepsFlags(old(model), model)
      ensures model.shards == old(model.shards)[w := MoveTo(old(model.shards[w]), Granted)]
      ensures model.log == old(model.log)
    {
      AdvanceWorker(w, EnterWait);
      AdvanceWorker(w, Grant);
    }

    /** An action of a limited kind whose Wait is entered after the cancellation. */
    ghost method Skip(w: nat)
      requires Valid() && w < workerCount && canceled && InAction(model.shards[w], Ready)
      requires Limited(Settings(), Current(model.shards[w]).kind)
      modifies `model
      ensures Valid() && KeepsFlags(old(model), model)
      ensures model.shards == old(model.shards)[w := MoveTo(old(model.shards[w]), Returned)]
      ensures model.log == old(model.log)
                + [Entry(w, old(model.shards[w]).worker.batch.client, Current(old(model.shards[w])), Skipped)]
    {
      AdvanceWorker(w, EnterWait);
      AdvanceWorker(w, Refuse);
    }

    /** The call of Execute, with the counter of successful sends. */
    method CallExecute(w: nat, act: Action, executed: Outcome)
      requires Valid() && w < workerCount && executed != Skipped
      requires InAction(model.shards[w], Granted)
               || (InAction(model.shards[w], Ready) && !Limited(Settings(), act.kind))
      requires Current(model.shards[w]) == act
      modifies `msgCount, `model
      ensures Valid() && KeepsFlags(old(model), model)
      ensures model.shards == old(model.shards)[w := if executed == Panicked then GaveUp(old(model.shards[w]))
                                                     else MoveTo(old(model.shards[w]), Returned)]
      ensures model.log == old(model.log) + [Entry(w, old(model.shards[w]).worker.batch.client, act, executed)]
    {
      AdvanceWorker(w, Begin);
      AdvanceWorker(w, Return(executed));
      if executed == Succeeded && act.kind == Send {
        msgCount := msgCount + 1;
      }
    }

    /** Runs one action to its end, without interference; true when Execute panicked. */
    method ExecuteAction(w: nat, client: Client, act: Action, executed: Outcome) returns (panicked: bool)
      requires Valid() && w < workerCount && executed != Skipped
      requires InAction(model.shards[w], Ready) && Current(model.shards[w]) == act
      requires model.shards[w].worker.batch.client == client
      modifies `msgCount, `model
      ensures Valid() && KeepsFlags(old(model), model)
      ensures panicked <==> Effective(Settings(), act, canceled, executed) == Panicked
      ensures model.log == old(model.log) + [Entry(w, client, act, Effective(Settings(), act, canceled, executed))]
      ensures act.kind == Send ==>
                model.log[|model.log| - 1].outcome == if canceled && sendLimiter.Some? then Skipped else executed
      ensures act.kind == Subscribe ==>
                model.log[|model.log| - 1].outcome == if canceled && subscribeLimiter.Some? then Skipped else executed
      ensures act.kind == Unsubscribe ==> model.log[|model.log| - 1].outcome == executed
      ensures act.kind == Disconnect ==>
                model.log[|model.log| - 1].outcome == if canceled && disconnectLimiter.Some? then Skipped else executed
      ensures model.shards == old(model.shards)[w := if panicked then GaveUp(old(model.shards[w]))
                                                     else MoveTo(old(model.shards[w]), Returned)]
    {
      if Limited(Settings(), act.kind) {
        if canceled {
          Skip(w);
          return false;
        }
        Admit(w);
      }
      CallExecute(w, act, executed);
      return executed == Panicked;
    }

    /** One turn of the loop over a batch: the action, and its count unless it panicked. */
    method ExecuteNext(w: nat, client: Client, act: Action, executed: Outcome) returns (panicked: bool)
      requires Valid() && w < workerCount && executed != Skipped
      requires InAction(model.shards[w], Ready) && Current(model.shards[w]) == act
      requires model.shards[w].worker.batch.client == client
      modifies `processedCount, `msgCount, `model
      ensures Valid() && KeepsFlags(old(model), model)
      ensures panicked <==> Effective(Settings(), act, canceled, executed) == Panicked
      ensures model.log == old(model.log) + [Entry(w, client, act, Effective(Settings(), act, canceled, executed))]
      ensures processedCount == if panicked then old(processedCount) else old(processedCount) + 1
      ensures SameButWorker(old(model.shards), model.shards, w)
      ensures model.shards[w].worker == if panicked then Idle else AfterAction(old(model.shards[w].worker))
    {
      panicked := ExecuteAction(w, client, act, executed);
      if !panicked {
        AdvanceWorker(w, Count);
        processedCount := processedCount + 1;
      }
    }

    /** One turn, seen from where the loop is going to end. */
    method ExecuteTurn(w: nat, client: Client, actions: seq<Action>, i: nat, execute: nat -> Outcome,
                       ghost before: seq<Shard>, ghost finalLog: seq<Entry>, ghost finalCount: nat)
      returns (panicked: bool)
      requires Valid() && w < workerCount && i < |actions| && execute(i) != Skipped
      requires model.shards[w].worker == Busy(Batch(client, actions), i, Ready)
      requires SameButWorker(before, model.shards, w)
      requires EndsIn(model.log, processedCount,
                      BatchEntries(Settings(), w, Batch(client, actions), i, canceled, execute),
                      finalLog, finalCount)
      modifies `processedCount, `msgCount, `model
      ensures Valid() && KeepsFlags(old(model), model) && SameButWorker(before, model.shards, w)
      ensures panicked ==>
                model.log == finalLog && processedCount == finalCount && model.shards[w].worker == Idle
      ensures !panicked ==>
                && EndsIn(model.log, processedCount,
                          BatchEntries(Settings(), w, Batch(client, actions), i + 1, canceled, execute),
                          finalLog, finalCount)
                && model.shards[w].worker ==
                     if i + 1 < |actions| then Busy(Batch(client, actions), i + 1, Ready) else Idle
    {
      EntriesUnfold(Settings(), w, Batch(client, actions), i, canceled, execute, model.log, processedCount,
                    finalLog, finalCount);
      panicked := ExecuteNext(w, client, actions[i], execute(i));
    }

    /** The loop over a dequeued batch. A panic leaves the rest of the batch unexecuted. */
    method ExecuteActions(w: nat, client: Client, actions: seq<Action>, execute: nat -> Outcome)
      requires Valid() && w < workerCount && forall k :: execute(k) != Skipped
      requires actions != [] && model.shards[w].worker == Busy(Batch(client, actions), 0, Ready)
      modifies `processedCount, `msgCount, `model
      ensures Valid() && KeepsFlags(old(model), model)
      ensures var entries := BatchEntries(Settings(), w, Batch(client, actions), 0, canceled, execute);
              && model.log == old(model.log) + entries
              && processedCount == old(processedCount) + CountedIn(entries)
      ensures SameButWorker(old(model.shards), model.shards, w)
      ensures model.shards[w].worker == Idle
    {
      ghost var c, b := Settings(), Batch(client, actions);
      ghost var all := BatchEntries(c, w, b, 0, canceled, execute);
      ghost var finalLog, finalCount := model.log + all, processedCount + CountedIn(all);
      for i := 0 to |actions|
        invariant Valid() && KeepsFlags(old(model), model)
        invariant EndsIn(model.log, processedCount, BatchEntries(c, w, b, i, canceled, execute), finalLog, finalCount)
        invariant SameButWorker(old(model.shards), model.shards, w)
        invariant model.shards[w].worker == if i < |actions| then Busy(b, i, Ready) else Idle
      {
        var panicked := ExecuteTurn(w, client, actions, i, execute, old(model.shards), finalLog, finalCount);
        if panicked {
          return;
        }
      }
    }

    /** One batch received and executed. */
    method RunItem(w: nat, execute: nat -> Outcome)
      requires Valid() && w < workerCount && forall k :: execute(k) != Skipped
      requires model.shards[w].worker.Idle? && actionQueues[w] != []
      modifies `processedCount, `msgCount, `model, actionQueues
      ensures Valid() && model.shards[w].worker.Idle?
      ensures actionQueues[w] == old(actionQueues[w])[1..]
      ensures Ran(old(model), model, w, BatchEntries(Settings(), w, old(actionQueues[w])[0], 0, canceled, execute))
    {
      var item := actionQueues[w][0];
      QueueRouted(Settings(), model, w);
      AdvanceWorker(w, Dequeue);
      actionQueues[w] := actionQueues[w][1..];
      ExecuteActions(w, item.client, item.actions, execute);
    }

    /** The receive loop of a worker, until its queue has nothing to offer. */
    method DrainQueue(w: nat, execute: nat -> nat -> Outcome)
      requires Valid() && w < workerCount && forall n, k :: execute(n)(k) != Skipped
      requires model.shards[w].worker.Idle?
      modifies `processedCount, `msgCount, `model, actionQueues
      ensures Valid() && model.shards[w].worker.Idle? && actionQueues[w] == []
      ensures Ran(old(model), model, w, QueueEntries(Settings(), w, old(actionQueues[w]), canceled, execute))
    {
      ghost var items := actionQueues[w];
      var n := 0;
      while actionQueues[w] != []
        invariant Valid() && model.shards[w].worker.Idle?
        invariant n <= |items| && actionQueues[w] == items[n..]
        invariant Ran(old(model), model, w, QueueEntries(Settings(), w, items[..n], canceled, execute))
        decreases |actionQueues[w]|
      {
        QueueEntriesNext(Settings(), w, items, n, canceled, execute);
        ghost var mid := model;
        RunItem(w, execute(n));
        RanOn(old(model), mid, model, w, QueueEntries(Settings(), w, items[..n], canceled, execute),
              BatchEntries(Settings(), w, items[n], 0, canceled, execute(n)));
        n := n + 1;
      }
      assert items[..n] == items;
    }

    /** The worker: the loop, and its exit once the queue is closed. */
    method RunWorker(w: nat, execute: nat -> nat -> Outcome)
      requires Valid() && w < workerCount && forall n, k :: execute(n)(k) != Skipped
      requires model.shards[w].worker.Idle?
      modifies `processedCount, `msgCount, `model, actionQueues
      ensures Valid() && KeepsFlags(old(model), model)
      ensures model.shards[w].queue == [] && model.shards[w].dequeued == model.shards[w].accepted
      ensures model.shards[w].worker == if closed then Exited else Idle
      ensures model.shards[w].accepted == old(model.shards[w].accepted)
      ensures model.log == old(model.log) + QueueEntries(Settings(), w, old(actionQueues[w]), canceled, execute)
      ensures |model.shards| == |old(model.shards)|
      ensures forall j :: 0 <= j < workerCount && j != w ==> model.shards[j] == old(model.shards[j])
    {
      DrainQueue(w, execute);
      QueueFifo(Settings(), model, w);
      if closed {
        AdvanceWorker(w, Exit);
      }
    }

    /**
      Stop, with the workers' remaining steps taken in the order of their numbers and no producer
      alive: cancel, close, wait for the workers, disconnect the pool.
     */
    method Stop(execute: nat -> nat -> Outcome)
      requires Valid() && !canceled && !closed && forall n, k :: execute(n)(k) != Skipped
      requires forall w :: 0 <= w < workerCount ==> model.shards[w].worker.Idle?
      modifies this, actionQueues
      ensures Valid() && canceled && closed && model.poolDisconnected
      ensures Drained(model)
      ensures forall w :: 0 <= w < workerCount ==> model.shards[w].accepted == old(model.shards[w].accepted)
    {
      ghost var before := model.shards;
      NotClosedNotDisconnected(Settings(), model);
      canceled := true;
      Advance(Cancel);
      closed := true;
      Advance(Close);
      for w := 0 to workerCount
        invariant Valid() && canceled && closed && !model.poolDisconnected
        invariant forall j :: 0 <= j < w ==> model.shards[j].worker.Exited?
        invariant forall j :: w <= j < workerCount ==> model.shards[j].worker.Idle?
        invariant forall j :: 0 <= j < workerCount ==> model.shards[j].accepted == before[j].accepted
      {
        RunWorker(w, execute);
      }
      Advance(DisconnectPool);
      PoolDisconnectedLast(Settings(), model);
    }

    method QueueLen() returns (total: nat)
      requires Valid()
      ensures total == |Flatten(actionQueues[..])|
    {
      total := 0;
      for i := 0 to actionQueues.Length
        invariant total == |Flatten(actionQueues[..i])|
      {
        assert actionQueues[..i + 1] == actionQueues[..i] + [actionQueues[i]];
        FlattenSnoc(actionQueues[..i], actionQueues[i]);
        total := total + |actionQueues[i]|;
      }
      assert actionQueues[..actionQueues.Length] == actionQueues[..];
    }
  }

  const CONNECTOR_TYPES := ["mqtt", "xmpp"]

  datatype Rejection = InvalidConnector | UnsupportedConnector

  datatype NewResult = Made(engine: Engine) | Rejected(why: Rejection)

  /** An engine for a known connector that the behavior supports; otherwise the first reason against it. */
  method NewEngine(connector: string, supported: seq<string>, opts: seq<EngineOption>, limits: RateLimits,
                   hash: string -> Word32) returns (r: NewResult)
    ensures r.Made? <==> connector in CONNECTOR_TYPES && connector in supported
    ensures r.Rejected? ==> (r.why.InvalidConnector? <==> connector !in CONNECTOR_TYPES)
    ensures r.Made? ==>
              && fresh(r.engine) && r.engine.Valid() && r.engine.model == Init(r.engine.Settings())
              && r.engine.workerCount == ChosenWorkers(opts) && r.engine.queueSize == ChosenSize(opts)
              && r.engine.hash == hash
  {
    if connector !in CONNECTOR_TYPES {
      return Rejected(InvalidConnector);
    }
    if connector !in supported {
      return Rejected(UnsupportedConnector);
    }
    var engine := new Engine(opts, limits, hash);
    return Made(engine);
  }
}
