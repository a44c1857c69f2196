/** Closing the queues: the drain ends, loses nothing, and precedes the disconnection of the pool. */
module EngineShutdown {
  import opened Counting
  import opened EngineModel
  import opened EngineInvariants

  // ---- producers ----

  predicate SubmitsSomething(e: Event) {
    e.Submit? && e.actions != []
  }

  /** Somebody still submits actions; an empty submission is ignored and makes nobody a producer. */
  predicate LiveProducer(es: seq<Event>) {
    exists i :: 0 <= i < |es| && SubmitsSomething(es[i])
  }

  // ---- the work left ----

  function Rank(p: Phase): nat {
    match p
    case Ready => 0
    case Waiting(_) => 1
    case Granted => 2
    case Executing => 3
    case Returned => 4
  }

  /** Steps a batch can still cost: five per action, and one to dequeue it. */
  function Cost(b: Batch): nat { 5 * |b.actions| + 1 }

  function WorkerWork(w: Worker): nat {
    match w
    case Exited => 0
    case Idle => 1
    case Busy(batch, done, phase) =>
      if done < |batch.actions| then 5 * (|batch.actions| - done) - Rank(phase) + 1 else 1
  }

  function WorkOf(sh: Shard): nat { Sum(sh.queue, Cost) + WorkerWork(sh.worker) }

  function WorkLeft(s: State): nat { Sum(s.shards, WorkOf) }

  lemma StepUsesWork(c: Config, sh: Shard, step: Step, canceled: bool, closed: bool)
    requires StepEnabled(c, sh, step, canceled, closed)
    ensures WorkOf(Next(c, sh, step, canceled, closed)) < WorkOf(sh)
  {
  }

  /** With no submission of actions, each worker step uses up work and nothing adds any. */
  lemma WorkShrinks(c: Config, s: State, e: Event)
    requires Enabled(c, s, e) && !SubmitsSomething(e)
    ensures WorkLeft(Apply(c, s, e)) <= WorkLeft(s)
    ensures e.Work? ==> WorkLeft(Apply(c, s, e)) < WorkLeft(s)
  {
    if e.Work? {
      StepUsesWork(c, s.shards[e.w], e.step, s.canceled, s.closed);
      SumUpdate(s.shards, e.w, Next(c, s.shards[e.w], e.step, s.canceled, s.closed), WorkOf);
    }
  }

  // ---- progress ----

  /** The step a worker that has not exited can always take once the queues are closed. */
  function NextStep(c: Config, sh: Shard): Step
    requires !sh.worker.Exited?
  {
    if sh.worker.Idle? then (if sh.queue == [] then Exit else Dequeue)
    else
      match sh.worker.phase
      case Ready => if sh.worker.done < |sh.worker.batch.actions| && Limited(c, Current(sh).kind)
                    then EnterWait else Begin
      case Waiting(_) => Refuse
      case Granted => Begin
      case Executing => Return(Succeeded)
      case Returned => Count
  }

  lemma ShardCanStep(c: Config, i: nat, sh: Shard)
    requires ValidConfig(c) && ShardInv(c, i, sh, true, true) && !sh.worker.Exited?
    ensures StepEnabled(c, sh, NextStep(c, sh), true, true)
  {
  }

  lemma SomeStepEnabled(c: Config, s: State, w: nat)
    requires Inv(c, s) && s.closed && !s.crashed && w < c.workers && !s.shards[w].worker.Exited?
    ensures Enabled(c, s, Work(w, NextStep(c, s.shards[w])))
  {
    ShardCanStep(c, w, s.shards[w]);
  }

  // ---- runs after the close ----

  function WorkerSteps(es: seq<Event>): nat {
    if es == [] then 0 else (if es[0].Work? then 1 else 0) + WorkerSteps(es[1..])
  }

  lemma LiveHeadOrTail(es: seq<Event>)
    requires es != []
    ensures LiveProducer(es) <==> SubmitsSomething(es[0]) || LiveProducer(es[1..])
  {
    if i :| 0 < i < |es| && SubmitsSomething(es[i]) {
      assert SubmitsSomething(es[1..][i - 1]);
    }
    if i :| 0 <= i < |es[1..]| && SubmitsSomething(es[1..][i]) {
      assert SubmitsSomething(es[i + 1]);
    }
  }

  lemma {:induction false} StepsBounded(c: Config, s: State, es: seq<Event>)
    requires Admissible(c, s, es) && !LiveProducer(es)
    ensures WorkerSteps(es) + WorkLeft(After(c, s, es)) <= WorkLeft(s)
    ensures After(c, s, es).crashed == s.crashed && (s.closed ==> After(c, s, es).closed)
    decreases es
  {
    if es != [] {
      LiveHeadOrTail(es);
      WorkShrinks(c, s, es[0]);
      StepsBounded(c, Apply(c, s, es[0]), es[1..]);
    }
  }

  /** Everything that was accepted was dequeued, once, in order, and nobody works any more. */
  predicate Drained(s: State) {
    && AllExited(s)
    && forall i :: 0 <= i < |s.shards| ==>
         s.shards[i].queue == [] && s.shards[i].dequeued == s.shards[i].accepted
  }

  predicate Stuck(c: Config, s: State) {
    forall w :: 0 <= w < |s.shards| && !s.shards[w].worker.Exited? ==>
      !Enabled(c, s, Work(w, NextStep(c, s.shards[w])))
  }

  lemma ExitedIsDrained(c: Config, s: State)
    requires Inv(c, s) && AllExited(s)
    ensures Drained(s)
  {
    forall i | 0 <= i < |s.shards|
      ensures s.shards[i].queue == [] && s.shards[i].dequeued == s.shards[i].accepted
    {
      assert ShardInv(c, i, s.shards[i], s.canceled, s.closed);
    }
  }

  /**
    Main theorem. From any reachable closed state, every continuation without a live producer has at
    most WorkLeft(s) worker steps; when the workers can take no further step they have all exited, the
    queues are empty and every accepted batch was dequeued exactly once.
   */
  lemma Drain(c: Config, s: State, rest: seq<Event>)
    requires ValidConfig(c) && Reached(c, s) && s.closed && !s.crashed
    requires Admissible(c, s, rest) && !LiveProducer(rest)
    ensures WorkerSteps(rest) + WorkLeft(After(c, s, rest)) <= WorkLeft(s)
    ensures Stuck(c, After(c, s, rest)) ==> Drained(After(c, s, rest))
  {
    ReachedHolds(c, s);
    StepsBounded(c, s, rest);
    InvAlongRun(c, s, rest);
    var t := After(c, s, rest);
    if Stuck(c, t) {
      StuckHasExited(c, t);
      ExitedIsDrained(c, t);
    }
  }

  lemma StuckHasExited(c: Config, t: State)
    requires Inv(c, t) && t.closed && !t.crashed && Stuck(c, t)
    ensures AllExited(t)
  {
    forall w | 0 <= w < |t.shards| ensures t.shards[w].worker.Exited? {
      if !t.shards[w].worker.Exited? {
        SomeStepEnabled(c, t, w);
      }
    }
  }

  /** The drain can always be completed: there is a continuation that empties everything. */
  lemma {:induction false} DrainExists(c: Config, s: State) returns (es: seq<Event>)
    requires Inv(c, s) && s.closed && !s.crashed
    ensures Admissible(c, s, es) && !LiveProducer(es) && Drained(After(c, s, es))
    decreases WorkLeft(s)
  {
    if AllExited(s) {
      ExitedIsDrained(c, s);
      es := [];
    } else {
      var w :| 0 <= w < |s.shards| && !s.shards[w].worker.Exited?;
      var e := Work(w, NextStep(c, s.shards[w]));
      SomeStepEnabled(c, s, w);
      WorkShrinks(c, s, e);
      InvKept(c, s, e);
      var rest := DrainExists(c, Apply(c, s, e));
      es := [e] + rest;
      assert es[1..] == rest;
      LiveHeadOrTail(es);
    }
  }

  /**
    The pool is disconnected only after the drain: in every reachable state in which that has begun,
    no worker is inside an action and no accepted batch is left.
   */
  lemma PoolDisconnectedLast(c: Config, s: State)
    requires ValidConfig(c) && Reached(c, s) && s.poolDisconnected
    ensures Drained(s)
  {
    ReachedHolds(c, s);
    ExitedIsDrained(c, s);
  }

  // ---- the hypothesis about producers ----

  /**
    A submission after the close is a send on a closed channel. The engine survives the rest of a run
    exactly when no producer is still live at the close; without that hypothesis one submission is
    enough to bring the process down.
   */
  lemma {:induction false} CrashesIffLiveProducer(c: Config, s: State, rest: seq<Event>)
    requires s.closed && !s.crashed && Admissible(c, s, rest)
    ensures After(c, s, rest).crashed <==> LiveProducer(rest)
    decreases rest
  {
    if rest != [] {
      var s' := Apply(c, s, rest[0]);
      LiveHeadOrTail(rest);
      if SubmitsSomething(rest[0]) {
        assert s'.crashed;
        assert rest[1..] == [];
      } else {
        CrashesIffLiveProducer(c, s', rest[1..]);
      }
    }
  }
}
