/**
  The action engine as a step system. A state holds one shard per worker: the bounded queue,
  the only worker that reads it, and the history of what went through. An event carries every
  choice of the scheduler and of the environment, so that a run is a list of events and a
  statement about all runs is a statement about all lists.
 */
module EngineModel {
  import opened Wrappers

  datatype Kind = Send | Subscribe | Unsubscribe | Disconnect

  datatype Action = Action(kind: Kind, target: string)

  /** Two client objects may carry the same ID: the ID chooses the queue. */
  datatype Client = Client(id: string, obj: nat)

  datatype Batch = Batch(client: Client, actions: seq<Action>)

  datatype Outcome = Succeeded | Failed | Skipped | Panicked

  /** How far the worker is inside one action. Returned: the outcome is known and not yet counted. */
  datatype Phase = Ready | Waiting(beforeCancel: bool) | Granted | Executing | Returned

  datatype Worker = Idle | Busy(batch: Batch, done: nat, phase: Phase) | Exited

  datatype Shard = Shard(
    queue: seq<Batch>, worker: Worker,
    accepted: seq<Batch>, dequeued: seq<Batch>,
    submitted: nat, dropped: nat, processed: nat, abandoned: nat)

  datatype Entry = Entry(worker: nat, client: Client, action: Action, outcome: Outcome)

  datatype State = State(
    shards: seq<Shard>,
    canceled: bool, closed: bool, crashed: bool, poolDisconnected: bool,
    now: real, processed: nat, msgCount: nat,
    log: seq<Entry>, granted: multiset<Kind>, begun: multiset<Kind>)

  datatype Limiter = Limiter(rate: nat, burst: nat)

  type Word32 = x: nat | x < 0x1_0000_0000

  datatype Config = Config(
    workers: nat, queueSize: nat, hash: string -> Word32,
    send: Option<Limiter>, subscribe: Option<Limiter>, disconnect: Option<Limiter>)

  /** One step of a worker's loop. */
  datatype Step =
    | Dequeue
    | EnterWait
    | Grant
    | Refuse
    | Begin
    | Return(outcome: Outcome)
    | Count
    | Exit

  datatype Event =
    | Submit(client: Client, actions: seq<Action>)
    | Work(w: nat, step: Step)
    | Elapse(dt: real)
    | Cancel
    | Close
    | DisconnectPool

  predicate ValidConfig(c: Config) {
    c.workers > 0 && c.queueSize > 0
  }

  predicate Shaped(c: Config, s: State) {
    ValidConfig(c) && |s.shards| == c.workers
  }

  function LimiterFor(c: Config, k: Kind): Option<Limiter> {
    match k
    case Send => c.send
    case Subscribe => c.subscribe
    case Disconnect => c.disconnect
    case Unsubscribe => None
  }

  predicate Limited(c: Config, k: Kind) {
    LimiterFor(c, k).Some?
  }

  /** The 32-bit hash is converted to a 64-bit int before the remainder, so it is never negative. */
  function QueueIndex(c: Config, id: string): (i: nat)
    requires c.workers > 0
    ensures IsQueueOf(c.hash(id), c.workers, i)
  {
    QueueExists(c.hash(id), c.workers);
    c.hash(id) % c.workers
  }

  /** The queue of a hash: the index below the number of workers that is congruent to it. */
  ghost predicate IsQueueOf(hash: nat, workers: nat, i: nat) {
    i < workers && exists q: nat :: hash == q * workers + i
  }

  lemma QueueExists(hash: nat, workers: nat)
    requires workers > 0
    ensures IsQueueOf(hash, workers, hash % workers)
  {
    assert hash == (hash / workers) * workers + hash % workers;
  }

  lemma Minus(p: int, q: int, n: int)
    ensures (p - q) * n == p * n - q * n
  {
  }

  /** No multiple of n but zero is nearer to zero than n. */
  lemma MultiplesFar(q: int, n: nat)
    requires 0 - n < q * n < n
    ensures q == 0
  {
    if q > 0 {
      Minus(q, 1, n);
    } else if q < 0 {
      Minus(q, -1, n);
    }
  }

  /** Congruent hashes have congruent indices, and below the number of workers that makes them equal. */
  lemma Congruent(hash: nat, other: nat, workers: nat, i: nat, j: nat, d: int)
    requires IsQueueOf(hash, workers, i) && IsQueueOf(other, workers, j)
    requires hash - other == d * workers
    ensures i == j
  {
    var p: nat :| hash == p * workers + i;
    var q: nat :| other == q * workers + j;
    Minus(p, q, workers);
    Minus(p - q, d, workers);
    MultiplesFar(p - q - d, workers);
  }

  /** Two IDs share a queue if and only if the number of workers divides the difference of their hashes. */
  lemma SharedQueue(c: Config, id: string, other: string)
    requires c.workers > 0
    ensures QueueIndex(c, id) == QueueIndex(c, other) <==>
              exists d: int :: c.hash(id) - c.hash(other) == d * c.workers
  {
    var i, j := QueueIndex(c, id), QueueIndex(c, other);
    if i == j {
      var p: nat :| c.hash(id) == p * c.workers + i;
      var q: nat :| c.hash(other) == q * c.workers + j;
      Minus(p, q, c.workers);
    } else if d: int :| c.hash(id) - c.hash(other) == d * c.workers {
      Congruent(c.hash(id), c.hash(other), c.workers, i, j, d);
    }
  }

  const EMPTY_SHARD := Shard([], Idle, [], [], 0, 0, 0, 0)

  function EmptyShards(n: nat): (shards: seq<Shard>)
    ensures |shards| == n && forall i :: 0 <= i < n ==> shards[i] == EMPTY_SHARD
  {
    if n == 0 then [] else EmptyShards(n - 1) + [EMPTY_SHARD]
  }

  function Init(c: Config): State {
    State(EmptyShards(c.workers), false, false, false, false, 0.0, 0, 0, [],
          multiset{}, multiset{})
  }

  // ---- one event ----

  predicate InAction(sh: Shard, p: Phase) {
    sh.worker.Busy? && sh.worker.done < |sh.worker.batch.actions| && sh.worker.phase == p
  }

  function Current(sh: Shard): Action
    requires sh.worker.Busy? && sh.worker.done < |sh.worker.batch.actions|
  {
    sh.worker.batch.actions[sh.worker.done]
  }

  predicate AllExited(s: State) {
    forall i :: 0 <= i < |s.shards| ==> s.shards[i].worker.Exited?
  }

  /** A Wait entered before the cancellation may still be granted; one entered after it fails. */
  predicate StepEnabled(c: Config, sh: Shard, step: Step, canceled: bool, closed: bool) {
    match step
    case Dequeue => sh.worker.Idle? && sh.queue != []
    case EnterWait => InAction(sh, Ready) && Limited(c, Current(sh).kind)
    case Grant => InAction(sh, Waiting(true))
    case Refuse => (InAction(sh, Waiting(true)) || InAction(sh, Waiting(false))) && canceled
    case Begin => InAction(sh, Granted) || (InAction(sh, Ready) && !Limited(c, Current(sh).kind))
    case Return(outcome) => InAction(sh, Executing) && outcome != Skipped
    case Count => InAction(sh, Returned)
    case Exit => sh.worker.Idle? && sh.queue == [] && closed
  }

  predicate Enabled(c: Config, s: State, e: Event) {
    && Shaped(c, s) && !s.crashed
    && match e
       case Submit(_, _) => true
       case Work(w, step) => w < c.workers && StepEnabled(c, s.shards[w], step, s.canceled, s.closed)
       case Elapse(dt) => dt > 0.0
       case Cancel => !s.canceled
       case Close => s.canceled && !s.closed
       case DisconnectPool => s.closed && AllExited(s) && !s.poolDisconnected
  }

  /** The non-blocking send on the queue: the whole batch goes in or the whole batch is dropped. */
  function Offer(c: Config, sh: Shard, b: Batch): Shard {
    if |sh.queue| < c.queueSize then
      sh.(queue := sh.queue + [b], accepted := sh.accepted + [b], submitted := sh.submitted + |b.actions|)
    else
      sh.(dropped := sh.dropped + |b.actions|, submitted := sh.submitted + |b.actions|)
  }

  function MoveTo(sh: Shard, p: Phase): Shard
    requires sh.worker.Busy?
  {
    sh.(worker := sh.worker.(phase := p))
  }

  /**
    What a step does to its own shard. Counting the last action of a batch frees the worker; so does
    a panic, whose deferred recover drops the rest of the batch, the panicking action included.
   */
  function Next(c: Config, sh: Shard, step: Step, canceled: bool, closed: bool): Shard
    requires StepEnabled(c, sh, step, canceled, closed)
  {
    match step
    case Dequeue =>
      sh.(queue := sh.queue[1..], worker := Busy(sh.queue[0], 0, Ready),
          dequeued := sh.dequeued + [sh.queue[0]])
    case EnterWait => MoveTo(sh, Waiting(!canceled))
    case Grant => MoveTo(sh, Granted)
    case Refuse => MoveTo(sh, Returned)
    case Begin => MoveTo(sh, Executing)
    case Return(outcome) => if outcome == Panicked then GaveUp(sh) else MoveTo(sh, Returned)
    case Count => sh.(processed := sh.processed + 1, worker := AfterAction(sh.worker))
    case Exit => sh.(worker := Exited)
  }

  function GaveUp(sh: Shard): Shard
    requires sh.worker.Busy? && sh.worker.done <= |sh.worker.batch.actions|
  {
    sh.(worker := Idle, abandoned := sh.abandoned + (|sh.worker.batch.actions| - sh.worker.done))
  }

  function AfterAction(worker: Worker): Worker
    requires worker.Busy?
  {
    if worker.done + 1 < |worker.batch.actions| then Busy(worker.batch, worker.done + 1, Ready) else Idle
  }

  /** The log entry of a step that ends an action. */
  function Logged(c: Config, w: nat, sh: Shard, step: Step, canceled: bool, closed: bool): seq<Entry>
    requires StepEnabled(c, sh, step, canceled, closed)
  {
    match step
    case Refuse => [Entry(w, sh.worker.batch.client, Current(sh), Skipped)]
    case Return(outcome) => [Entry(w, sh.worker.batch.client, Current(sh), outcome)]
    case _ => []
  }

  function WorkStep(c: Config, s: State, w: nat, step: Step): State
    requires w < |s.shards| && StepEnabled(c, s.shards[w], step, s.canceled, s.closed)
  {
    var sh := s.shards[w];
    s.(shards := s.shards[w := Next(c, sh, step, s.canceled, s.closed)],
       log := s.log + Logged(c, w, sh, step, s.canceled, s.closed),
       processed := if step.Count? then s.processed + 1 else s.processed,
       msgCount := if step == Return(Succeeded) && Current(sh).kind == Send then s.msgCount + 1 else s.msgCount,
       granted := if step.Grant? then s.granted + multiset{Current(sh).kind} else s.granted,
       begun := if step.Begin? then s.begun + multiset{Current(sh).kind} else s.begun)
  }

  function Enqueue(c: Config, s: State, b: Batch): State
    requires Shaped(c, s)
  {
    var i := QueueIndex(c, b.client.id);
    s.(shards := s.shards[i := Offer(c, s.shards[i], b)])
  }

  function Apply(c: Config, s: State, e: Event): (s': State)
    requires Enabled(c, s, e)
    ensures Shaped(c, s')
  {
    match e
    case Submit(client, actions) =>
      if actions == [] then s
      else if s.closed then s.(crashed := true)
      else Enqueue(c, s, Batch(client, actions))
    case Work(w, step) => WorkStep(c, s, w, step)
    case Elapse(dt) => s.(now := s.now + dt)
    case Cancel => s.(canceled := true)
    case Close => s.(closed := true)
    case DisconnectPool => s.(poolDisconnected := true)
  }

  // ---- runs ----

  predicate Admissible(c: Config, s: State, es: seq<Event>)
    decreases es
  {
    es == [] || (Enabled(c, s, es[0]) && Admissible(c, Apply(c, s, es[0]), es[1..]))
  }

  function After(c: Config, s: State, es: seq<Event>): State
    requires Admissible(c, s, es)
    ensures Shaped(c, s) ==> Shaped(c, After(c, s, es))
    decreases es
  {
    if es == [] then s else After(c, Apply(c, s, es[0]), es[1..])
  }

  /** A run with the states in between written out; RunBetween turns it into a list of events. */
  ghost predicate IsRun(c: Config, start: State, states: seq<State>, es: seq<Event>) {
    && |states| == |es| + 1 && states[0] == start
    && forall i {:trigger es[i]} :: 0 <= i < |es| ==>
         Enabled(c, states[i], es[i]) && states[i + 1] == Apply(c, states[i], es[i])
  }

  ghost predicate Leads(c: Config, start: State, s: State) {
    exists states, es :: IsRun(c, start, states, es) && states[|es|] == s
  }

  /** The states that some run from the initial state ends in. */
  ghost predicate Reached(c: Config, s: State) {
    Leads(c, Init(c), s)
  }

  lemma LeadsToItself(c: Config, s: State)
    ensures Leads(c, s, s)
  {
    assert IsRun(c, s, [s], []);
  }

  lemma LeadsNext(c: Config, start: State, s: State, e: Event)
    requires Leads(c, start, s) && Enabled(c, s, e)
    ensures Leads(c, start, Apply(c, s, e))
  {
    var states, es :| IsRun(c, start, states, es) && states[|es|] == s;
    var states', es' := states + [Apply(c, s, e)], es + [e];
    forall i {:trigger es'[i]} | 0 <= i < |es'|
      ensures Enabled(c, states'[i], es'[i]) && states'[i + 1] == Apply(c, states'[i], es'[i])
    {
      if i < |es| {
        assert es'[i] == es[i];
      }
    }
    assert IsRun(c, start, states', es') && states'[|es'|] == Apply(c, s, e);
  }

  /** The events of a run, read from any point on. */
  lemma {:induction false} EventsFrom(c: Config, start: State, states: seq<State>, es: seq<Event>, n: nat)
    requires IsRun(c, start, states, es) && n <= |es|
    ensures Admissible(c, states[n], es[n..]) && After(c, states[n], es[n..]) == states[|es|]
    decreases |es| - n
  {
    if n < |es| {
      EventsFrom(c, start, states, es, n + 1);
      assert es[n..][0] == es[n] && es[n..][1..] == es[n + 1..];
    }
  }

  lemma RunBetween(c: Config, start: State, s: State) returns (es: seq<Event>)
    requires Leads(c, start, s)
    ensures Admissible(c, start, es) && After(c, start, es) == s
  {
    var states, events :| IsRun(c, start, states, events) && states[|events|] == s;
    EventsFrom(c, start, states, events, 0);
    es := events;
    assert events[0..] == events;
  }
}
