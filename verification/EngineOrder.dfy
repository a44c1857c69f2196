/**
  The sharded worker pool refines, for every client ID, one sequential first-in-first-out executor,
  whatever the scheduler and the other clients do.
 */
module EngineOrder {
  import opened Wrappers
  import opened Counting
  import opened EngineModel
  import opened EngineInvariants

  // ---- the sequential executor of one client ID ----

  /** The batch being run and how many of its actions have ended. */
  datatype Progress = Progress(batch: Batch, ended: nat)

  datatype Executor = Executor(
    pending: seq<Batch>, started: seq<Batch>, current: Option<Progress>, log: seq<Entry>)

  predicate Accepts(x: Executor, y: Executor, b: Batch) {
    y == x.(pending := x.pending + [b])
  }

  predicate Starts(x: Executor, y: Executor) {
    && x.current.None? && x.pending != []
    && y == x.(pending := x.pending[1..], started := x.started + [x.pending[0]],
               current := Some(Progress(x.pending[0], 0)))
  }

  /** Ends the next action of the current batch, in order; a panic gives up the batch. */
  predicate Ends(x: Executor, y: Executor, e: Entry) {
    && x.current.Some?
    && var p := x.current.value;
    && p.ended < |p.batch.actions|
    && e.client == p.batch.client && e.action == p.batch.actions[p.ended]
    && y == x.(log := x.log + [e],
               current := if e.outcome == Panicked then None else Some(Progress(p.batch, p.ended + 1)))
  }

  predicate Finishes(x: Executor, y: Executor) {
    && x.current.Some?
    && x.current.value.ended == |x.current.value.batch.actions|
    && y == x.(current := None)
  }

  ghost predicate ExecutorStep(x: Executor, y: Executor) {
    || x == y
    || AcceptsSome(x, y)
    || Starts(x, y)
    || EndsSome(x, y)
    || Finishes(x, y)
  }

  ghost predicate AcceptsSome(x: Executor, y: Executor) {
    exists b :: Accepts(x, y, b)
  }

  ghost predicate EndsSome(x: Executor, y: Executor) {
    exists e :: Ends(x, y, e)
  }

  // ---- what the log of a sequential executor looks like ----

  /** The ended part of one batch: a prefix, whole unless its last entry panicked or it still runs. */
  predicate IsSegment(b: Batch, seg: seq<Entry>, running: bool) {
    && |seg| <= |b.actions|
    && (forall j :: 0 <= j < |seg| ==> seg[j].client == b.client && seg[j].action == b.actions[j])
    && (forall j :: 0 <= j < |seg| - 1 ==> seg[j].outcome != Panicked)
    && (running ==> seg == [] || seg[|seg| - 1].outcome != Panicked)
    && (!running ==> |seg| == |b.actions| || (seg != [] && seg[|seg| - 1].outcome == Panicked))
  }

  predicate Decomposes(x: Executor, segs: seq<seq<Entry>>) {
    && |segs| == |x.started|
    && x.log == Flatten(segs)
    && (forall k :: 0 <= k < |segs| ==>
          IsSegment(x.started[k], segs[k], x.current.Some? && k == |segs| - 1))
    && (x.current.Some? ==>
          && segs != []
          && x.started[|segs| - 1] == x.current.value.batch
          && |segs[|segs| - 1]| == x.current.value.ended)
  }

  ghost predicate InOrder(x: Executor) {
    exists segs :: Decomposes(x, segs)
  }

  lemma AcceptDecomposes(x: Executor, y: Executor, segs: seq<seq<Entry>>)
    requires Decomposes(x, segs) && (x == y || AcceptsSome(x, y))
    ensures Decomposes(y, segs)
  {
  }

  lemma StartDecomposes(x: Executor, y: Executor, segs: seq<seq<Entry>>)
    requires Decomposes(x, segs) && Starts(x, y)
    ensures Decomposes(y, segs + [[]])
  {
    FlattenSnoc(segs, []);
    forall k | 0 <= k <= |segs| ensures IsSegment(y.started[k], (segs + [[]])[k], k == |segs|) {
      if k < |segs| {
        assert IsSegment(x.started[k], segs[k], false);
      }
    }
  }

  lemma EndDecomposes(x: Executor, y: Executor, e: Entry, segs: seq<seq<Entry>>)
    requires Decomposes(x, segs) && Ends(x, y, e)
    ensures Decomposes(y, segs[|segs| - 1 := segs[|segs| - 1] + [e]])
  {
    var n := |segs| - 1;
    var segs' := segs[n := segs[n] + [e]];
    assert segs'[..n] == segs[..n];
    assert IsSegment(x.started[n], segs[n], true);
    forall k | 0 <= k <= n ensures IsSegment(y.started[k], segs'[k], y.current.Some? && k == n) {
      if k < n {
        assert IsSegment(x.started[k], segs[k], false);
      }
    }
  }

  lemma FinishDecomposes(x: Executor, y: Executor, segs: seq<seq<Entry>>)
    requires Decomposes(x, segs) && Finishes(x, y)
    ensures Decomposes(y, segs)
  {
    var n := |segs| - 1;
    forall k | 0 <= k <= n ensures IsSegment(y.started[k], segs[k], false) {
      assert IsSegment(x.started[k], segs[k], k == n);
    }
  }

  lemma EndKeepsOrder(x: Executor, y: Executor)
    requires InOrder(x) && EndsSome(x, y)
    ensures InOrder(y)
  {
    var segs :| Decomposes(x, segs);
    var e :| Ends(x, y, e);
    EndDecomposes(x, y, e, segs);
    var n := |segs| - 1;
    InOrderBy(y, segs[n := segs[n] + [e]]);
  }

  lemma InOrderBy(x: Executor, segs: seq<seq<Entry>>)
    requires Decomposes(x, segs)
    ensures InOrder(x)
  {
  }

  lemma StartKeepsOrder(x: Executor, y: Executor)
    requires InOrder(x) && Starts(x, y)
    ensures InOrder(y)
  {
    var segs :| Decomposes(x, segs);
    StartDecomposes(x, y, segs);
  }

  lemma ExecutorKeepsOrder(x: Executor, y: Executor)
    requires InOrder(x) && ExecutorStep(x, y)
    ensures InOrder(y)
  {
    if Starts(x, y) {
      StartKeepsOrder(x, y);
    } else if EndsSome(x, y) {
      EndKeepsOrder(x, y);
    } else {
      var segs :| Decomposes(x, segs);
      if Finishes(x, y) {
        FinishDecomposes(x, y, segs);
      } else {
        AcceptDecomposes(x, y, segs);
      }
    }
  }

  // ---- the abstraction ----

  function BatchOf(id: string): Batch -> bool {
    (b: Batch) => b.client.id == id
  }

  function EntryOf(id: string): Entry -> bool {
    (e: Entry) => e.client.id == id
  }

  function Ended(worker: Worker): nat
    requires worker.Busy?
  {
    if worker.phase == Returned then worker.done + 1 else worker.done
  }

  function Running(worker: Worker, id: string): Option<Progress> {
    if worker.Busy? && worker.batch.client.id == id then Some(Progress(worker.batch, Ended(worker))) else None
  }

  function ShardView(sh: Shard, log: seq<Entry>, id: string): Executor {
    Executor(Filter(sh.queue, BatchOf(id)), Filter(sh.dequeued, BatchOf(id)), Running(sh.worker, id),
             Filter(log, EntryOf(id)))
  }

  function View(c: Config, s: State, id: string): Executor
    requires Shaped(c, s)
  {
    ShardView(s.shards[QueueIndex(c, id)], s.log, id)
  }

  // ---- simulation ----

  lemma OfferSimulates(c: Config, sh: Shard, b: Batch, log: seq<Entry>, id: string)
    ensures ExecutorStep(ShardView(sh, log, id), ShardView(Offer(c, sh, b), log, id))
  {
    FilterSnoc(sh.queue, b, BatchOf(id));
    var x, y := ShardView(sh, log, id), ShardView(Offer(c, sh, b), log, id);
    if |sh.queue| < c.queueSize && b.client.id == id {
      assert Accepts(x, y, b);
    } else {
      assert Filter(sh.queue, BatchOf(id)) + [] == Filter(sh.queue, BatchOf(id));
    }
  }

  lemma DequeueSimulates(sh: Shard, sh': Shard, log: seq<Entry>, id: string)
    requires sh.worker.Idle? && sh.queue != []
    requires sh' == sh.(queue := sh.queue[1..], worker := Busy(sh.queue[0], 0, Ready),
                        dequeued := sh.dequeued + [sh.queue[0]])
    ensures ExecutorStep(ShardView(sh, log, id), ShardView(sh', log, id))
  {
    FilterHead(sh.queue, BatchOf(id));
    FilterSnoc(sh.dequeued, sh.queue[0], BatchOf(id));
    var x, y := ShardView(sh, log, id), ShardView(sh', log, id);
    if sh.queue[0].client.id == id {
      assert x.pending[1..] == y.pending;
      assert Starts(x, y);
    } else {
      assert x.pending == y.pending && x.started == y.started;
    }
  }

  /** Ending the next action, by whichever step, is one step of the client's executor or none. */
  lemma EndSimulates(sh: Shard, sh': Shard, e: Entry, log: seq<Entry>, id: string)
    requires sh.worker.Busy? && sh.worker.phase != Returned && sh.worker.done < |sh.worker.batch.actions|
    requires e.client == sh.worker.batch.client && e.action == Current(sh)
    requires sh' == if e.outcome == Panicked then GaveUp(sh) else MoveTo(sh, Returned)
    ensures var x, y := ShardView(sh, log, id), ShardView(sh', log + [e], id); x == y || Ends(x, y, e)
  {
    FilterSnoc(log, e, EntryOf(id));
    assert Filter(log, EntryOf(id)) + [] == Filter(log, EntryOf(id));
  }

  lemma CountSimulates(sh: Shard, log: seq<Entry>, id: string)
    requires sh.worker.Busy? && sh.worker.phase == Returned && sh.worker.done < |sh.worker.batch.actions|
    ensures var sh' := sh.(processed := sh.processed + 1, worker := AfterAction(sh.worker));
            var x, y := ShardView(sh, log, id), ShardView(sh', log, id); x == y || Finishes(x, y)
  {
  }

  /** The worker that owns the queue of the ID. */
  lemma OwnerSimulates(c: Config, w: nat, sh: Shard, step: Step, canceled: bool, closed: bool,
                       log: seq<Entry>, id: string)
    requires StepEnabled(c, sh, step, canceled, closed)
    ensures ExecutorStep(
              ShardView(sh, log, id),
              ShardView(Next(c, sh, step, canceled, closed), log + Logged(c, w, sh, step, canceled, closed), id))
  {
    var sh' := Next(c, sh, step, canceled, closed);
    var more := Logged(c, w, sh, step, canceled, closed);
    assert log + [] == log;
    match step
    case Dequeue => DequeueSimulates(sh, sh', log, id);
    case Refuse => EndSimulates(sh, sh', more[0], log, id);
    case Return(_) => EndSimulates(sh, sh', more[0], log, id);
    case Count => CountSimulates(sh, log, id);
    case _ => assert ShardView(sh, log, id) == ShardView(sh', log, id);
  }

  /** A worker that does not own the queue of the ID never runs or logs anything of that ID. */
  lemma StrangerIsSilent(c: Config, w: nat, sh: Shard, step: Step, canceled: bool, closed: bool,
                         log: seq<Entry>, id: string)
    requires ValidConfig(c) && ShardInv(c, w, sh, canceled, closed)
    requires StepEnabled(c, sh, step, canceled, closed)
    requires QueueIndex(c, id) != w
    ensures Filter(log + Logged(c, w, sh, step, canceled, closed), EntryOf(id)) == Filter(log, EntryOf(id))
  {
    var more := Logged(c, w, sh, step, canceled, closed);
    if more != [] {
      assert sh.accepted[|sh.dequeued| - 1] == sh.worker.batch;
      FilterSnoc(log, more[0], EntryOf(id));
      assert more == [more[0]];
    } else {
      assert log + more == log;
    }
  }

  lemma StrangerUnseen(c: Config, s: State, w: nat, step: Step, id: string)
    requires Shaped(c, s) && w < c.workers && ShardInv(c, w, s.shards[w], s.canceled, s.closed)
    requires StepEnabled(c, s.shards[w], step, s.canceled, s.closed) && w != QueueIndex(c, id)
    ensures View(c, s, id) == View(c, WorkStep(c, s, w, step), id)
  {
    StrangerIsSilent(c, w, s.shards[w], step, s.canceled, s.closed, s.log, id);
  }

  lemma StepRefines(c: Config, s: State, w: nat, step: Step, id: string)
    requires Shaped(c, s) && w < c.workers && ShardInv(c, w, s.shards[w], s.canceled, s.closed)
    requires StepEnabled(c, s.shards[w], step, s.canceled, s.closed)
    ensures ExecutorStep(View(c, s, id), View(c, WorkStep(c, s, w, step), id))
  {
    if w == QueueIndex(c, id) {
      OwnerSimulates(c, w, s.shards[w], step, s.canceled, s.closed, s.log, id);
    } else {
      StrangerUnseen(c, s, w, step, id);
    }
  }

  lemma SubmitRefines(c: Config, s: State, b: Batch, id: string)
    requires Shaped(c, s)
    ensures ExecutorStep(View(c, s, id), View(c, Enqueue(c, s, b), id))
  {
    if QueueIndex(c, b.client.id) == QueueIndex(c, id) {
      OfferSimulates(c, s.shards[QueueIndex(c, id)], b, s.log, id);
    } else {
      assert View(c, s, id) == View(c, Enqueue(c, s, b), id);
    }
  }

  /** Forward simulation: every event of the engine is one step, or no step, of each client's executor. */
  lemma Refinement(c: Config, s: State, e: Event, id: string)
    requires Inv(c, s) && Enabled(c, s, e)
    ensures ExecutorStep(View(c, s, id), View(c, Apply(c, s, e), id))
  {
    match e
    case Work(w, step) => StepRefines(c, s, w, step, id);
    case Submit(client, actions) => SubmitRefines(c, s, Batch(client, actions), id);
    case _ => assert View(c, s, id) == View(c, Apply(c, s, e), id);
  }

  lemma {:induction false} OrderAlongRun(c: Config, s: State, es: seq<Event>, id: string)
    requires Inv(c, s) && Admissible(c, s, es) && InOrder(View(c, s, id))
    ensures InOrder(View(c, After(c, s, es), id))
    decreases es
  {
    if es != [] {
      Refinement(c, s, es[0], id);
      ExecutorKeepsOrder(View(c, s, id), View(c, Apply(c, s, es[0]), id));
      InvKept(c, s, es[0]);
      OrderAlongRun(c, Apply(c, s, es[0]), es[1..], id);
    }
  }

  /** One prefix per batch, in the given order. */
  ghost predicate RunsInOrder(log: seq<Entry>, batches: seq<Batch>, lastRuns: bool) {
    exists segs: seq<seq<Entry>> ::
      && |segs| == |batches|
      && log == Flatten(segs)
      && forall k :: 0 <= k < |segs| ==> IsSegment(batches[k], segs[k], lastRuns && k == |segs| - 1)
  }

  ghost predicate OrderKept(sh: Shard, log: seq<Entry>, id: string) {
    && RunsInOrder(Filter(log, EntryOf(id)), Filter(sh.dequeued, BatchOf(id)), Running(sh.worker, id).Some?)
    && Filter(sh.accepted, BatchOf(id)) == Filter(sh.dequeued, BatchOf(id)) + Filter(sh.queue, BatchOf(id))
  }

  lemma OrderOfView(sh: Shard, log: seq<Entry>, id: string)
    requires InOrder(ShardView(sh, log, id)) && sh.accepted == sh.dequeued + sh.queue
    ensures OrderKept(sh, log, id)
  {
    var x := ShardView(sh, log, id);
    var segs :| Decomposes(x, segs);
    assert RunsInOrder(x.log, x.started, x.current.Some?);
    FilterAppend(sh.dequeued, sh.queue, BatchOf(id));
  }

  lemma InitInOrder(c: Config, id: string)
    requires ValidConfig(c)
    ensures InOrder(View(c, Init(c), id))
  {
    assert Decomposes(ShardView(EMPTY_SHARD, [], id), []);
  }

  /**
    Main theorem. In every run, the entries of a client ID are the in-order concatenation of one
    prefix per dequeued batch of that ID, the whole batch unless an action in it panicked or it is
    the one still running; and the dequeued batches followed by the queued ones are exactly the
    accepted batches of that ID in the order of acceptance.
   */
  lemma PerClientOrder(c: Config, s: State, id: string)
    requires Shaped(c, s) && Reached(c, s)
    ensures OrderKept(s.shards[QueueIndex(c, id)], s.log, id)
  {
    var es := RunBetween(c, Init(c), s);
    InitHolds(c);
    InitInOrder(c, id);
    OrderAlongRun(c, Init(c), es, id);
    ReachedHolds(c, s);
    assert ShardInv(c, QueueIndex(c, id), s.shards[QueueIndex(c, id)], s.canceled, s.closed);
    OrderOfView(s.shards[QueueIndex(c, id)], s.log, id);
  }
}
