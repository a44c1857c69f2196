/**
  The end of the engine with its clients over every continuation: each step that brings it nearer lowers
  one measure, and where no such step is left everything is over.
 */
module CompositionDrain {
  import opened Wrappers
  import E = EngineModel
  import opened ES = EngineShutdown
  import M = MqttSession
  import opened Composition
  import opened CompositionShutdown

  // ---- the measure ----

  /** Steps left of the operation worker k is inside of. */
  function OpWork(w: World, k: nat): nat {
    if k < |w.engine.shards| && E.InAction(w.engine.shards[k], E.Executing) then StepsOf(w, ClientAt(w, k), k) else 0
  }

  function StepsOf(w: World, client: E.Client, o: nat): nat {
    if client in w.sessions && o in w.sessions[client].ops then StepsLeft(w.sessions[client].ops[o]) else 0
  }

  /** The same over the first n workers. */
  function OpsWork(w: World, n: nat): nat {
    if n == 0 then 0 else OpsWork(w, n - 1) + OpWork(w, n - 1)
  }

  /** Six steps for a client still to stop: the call, at most four of its Disconnect, and the return. */
  function StopWork(c: E.Config, w: World): nat {
    6 * |w.pooled.Values - w.stopped|
    + (if w.stopper.Some? then 1 + StepsOf(w, w.stopper.value, c.workers) else 0)
    + (if w.engine.poolDisconnected then 0 else 1)
  }

  function Measure(c: E.Config, w: World): nat {
    5 * WorkLeft(w.engine) + OpsWork(w, c.workers) + StopWork(c, w)
  }

  // ---- sums ----

  lemma {:induction false} OpsWorkSame(w: World, v: World, n: nat)
    requires forall k :: 0 <= k < n ==> OpWork(v, k) == OpWork(w, k)
    ensures OpsWork(v, n) == OpsWork(w, n)
  {
    if n > 0 {
      OpsWorkSame(w, v, n - 1);
    }
  }

  lemma {:induction false} OpsWorkOne(w: World, v: World, n: nat, j: nat)
    requires j < n && forall k :: 0 <= k < n && k != j ==> OpWork(v, k) == OpWork(w, k)
    ensures OpsWork(v, n) + OpWork(w, j) == OpsWork(w, n) + OpWork(v, j)
  {
    if j == n - 1 {
      OpsWorkSame(w, v, n - 1);
    } else {
      OpsWorkOne(w, v, n - 1, j);
    }
  }

  // ---- which steps count ----

  /** Steps on the way to the end: everything but the network's, the clock's and the producers' doings. */
  predicate Progress(ev: Event) {
    match ev
    case EngineEvent(e) => e.Work? || e.DisconnectPool?
    case ClientEvent(_, e) => !e.Lose? && !e.Reconnect?
    case PoolAdd(_) => false
    case StopCall(_) => true
    case StopReturn => true
  }

  /** No actions are submitted any more, and no client joins the pool. */
  predicate Settled(ev: Event) {
    !ev.PoolAdd? && (ev.EngineEvent? ==> !SubmitsSomething(ev.e))
  }

  /** In a closed world, where nothing else can happen to the engine. */
  predicate Closing(c: E.Config, w: World) {
    E.Shaped(c, w.engine) && w.engine.closed && w.engine.canceled
  }

  // ---- each kind of step ----

  lemma StepsInside(w: World, client: E.Client, e: M.Event, other: E.Client, o: nat)
    requires client in w.sessions && M.Enabled(w.sessions[client], e)
    requires other != client || e.Lose? || e.Reconnect? || e.o != o
    ensures StepsOf(w.(sessions := Inside(w, client, e)), other, o) == StepsOf(w, other, o)
  {
    if other == client && o in w.sessions[client].ops {
      OtherOpKept(w.sessions[client], e, o);
    }
    InsideKeys(w, client, e);
  }

  lemma StepsMove(w: World, client: E.Client, e: M.Event)
    requires client in w.sessions && M.Enabled(w.sessions[client], e)
    requires !e.Call? && !e.Finish? && !e.Lose? && !e.Reconnect?
    ensures StepsOf(w.(sessions := Inside(w, client, e)), client, e.o) < StepsOf(w, client, e.o)
  {
    StepLowers(w.sessions[client], e);
  }

  lemma StepLowers(s: M.Session, e: M.Event)
    requires M.Enabled(s, e) && !e.Call? && !e.Finish? && !e.Lose? && !e.Reconnect?
    ensures e.o in s.ops && e.o in M.Apply(s, e).ops && StepsLeft(M.Apply(s, e).ops[e.o]) < StepsLeft(s.ops[e.o])
  {
    if e.Ack? {
      AckLowers(s, e);
    } else if e.Commit? {
      CommitLowers(s, e);
    }
  }

  lemma AckLowers(s: M.Session, e: M.Event)
    requires M.Enabled(s, e) && e.Ack?
    ensures e.o in s.ops && e.o in M.Apply(s, e).ops && StepsLeft(M.Apply(s, e).ops[e.o]) < StepsLeft(s.ops[e.o])
  {
  }

  lemma CommitLowers(s: M.Session, e: M.Event)
    requires M.Enabled(s, e) && e.Commit?
    ensures e.o in s.ops && e.o in M.Apply(s, e).ops && StepsLeft(M.Apply(s, e).ops[e.o]) < StepsLeft(s.ops[e.o])
  {
  }

  /** A session's own step is the step of the one worker, or of the final disconnection, it belongs to. */
  lemma ClientStepShrinks(c: E.Config, w: World, client: E.Client, e: M.Event)
    requires EndInv(c, w) && Enabled(c, w, ClientEvent(client, e)) && !e.Lose? && !e.Reconnect?
    ensures Measure(c, Apply(c, w, ClientEvent(client, e))) < Measure(c, w)
  {
    var v := Apply(c, w, ClientEvent(client, e));
    assert Executing(w, e.o, client) || (e.o == c.workers && w.stopper == Some(client));
    StepsMove(w, client, e);
    forall k | 0 <= k < c.workers && k != e.o ensures OpWork(v, k) == OpWork(w, k) {
      WorkOfOthers(w, client, e, k);
    }
    if e.o < c.workers {
      OpsWorkOne(w, v, c.workers, e.o);
      StopStepsSame(c, w, client, e);
    } else {
      OpsWorkSame(w, v, c.workers);
    }
  }

  lemma WorkOfOthers(w: World, client: E.Client, e: M.Event, k: nat)
    requires client in w.sessions && M.Enabled(w.sessions[client], e) && (e.Lose? || e.Reconnect? || e.o != k)
    ensures OpWork(w.(sessions := Inside(w, client, e)), k) == OpWork(w, k)
  {
    if k < |w.engine.shards| && E.InAction(w.engine.shards[k], E.Executing) {
      StepsInside(w, client, e, ClientAt(w, k), k);
    }
  }

  lemma StopStepsSame(c: E.Config, w: World, client: E.Client, e: M.Event)
    requires client in w.sessions && M.Enabled(w.sessions[client], e)
    requires e.Lose? || e.Reconnect? || e.o != c.workers
    ensures StopWork(c, w.(sessions := Inside(w, client, e))) == StopWork(c, w)
  {
    if w.stopper.Some? {
      StepsInside(w, client, e, w.stopper.value, c.workers);
    }
  }

  lemma NetworkStepSame(c: E.Config, w: World, client: E.Client, e: M.Event)
    requires EndInv(c, w) && Enabled(c, w, ClientEvent(client, e)) && (e.Lose? || e.Reconnect?)
    ensures Measure(c, Apply(c, w, ClientEvent(client, e))) == Measure(c, w)
  {
    var v := Apply(c, w, ClientEvent(client, e));
    forall k | 0 <= k < c.workers ensures OpWork(v, k) == OpWork(w, k) {
      WorkOfOthers(w, client, e, k);
    }
    OpsWorkSame(w, v, c.workers);
    StopStepsSame(c, w, client, e);
  }

  /** An operation costs less than the engine step that begins it. */
  lemma BeginCosts(op: M.Op)
    ensures StepsLeft(op) <= 4
  {
  }

  lemma OtherWorkersStay(c: E.Config, s: E.State, j: nat, step: E.Step, k: nat)
    requires E.Enabled(c, s, E.Work(j, step)) && k != j && k < c.workers
    ensures E.Apply(c, s, E.Work(j, step)).shards[k] == s.shards[k]
  {
  }

  lemma OthersDuringWork(c: E.Config, w: World, j: nat, step: E.Step, k: nat)
    requires Enabled(c, w, EngineEvent(E.Work(j, step))) && k != j && k < c.workers
    ensures OpWork(Apply(c, w, EngineEvent(E.Work(j, step))), k) == OpWork(w, k)
  {
    var e := E.Work(j, step);
    OtherWorkersStay(c, w.engine, j, step, k);
    if Begins(e) {
      WorkOfOthers(w, ClientAt(w, j), M.Call(j, OperationOf(E.Current(w.engine.shards[j]))), k);
    } else if Returns(e) {
      WorkOfOthers(w, ClientAt(w, j), M.Finish(j), k);
    }
  }

  lemma StopDuringWork(c: E.Config, w: World, j: nat, step: E.Step)
    requires Enabled(c, w, EngineEvent(E.Work(j, step)))
    ensures StopWork(c, Apply(c, w, EngineEvent(E.Work(j, step)))) == StopWork(c, w)
  {
    var v := Apply(c, w, EngineEvent(E.Work(j, step)));
    if w.stopper.Some? {
      StopStepsDuringWork(c, w, j, step, w.stopper.value);
    }
    StopWorkSame(c, w, v);
  }

  lemma StopStepsDuringWork(c: E.Config, w: World, j: nat, step: E.Step, client: E.Client)
    requires Enabled(c, w, EngineEvent(E.Work(j, step)))
    ensures StepsOf(Apply(c, w, EngineEvent(E.Work(j, step))), client, c.workers) == StepsOf(w, client, c.workers)
  {
    var e := E.Work(j, step);
    if Begins(e) {
      StepsInside(w, ClientAt(w, j), M.Call(j, OperationOf(E.Current(w.engine.shards[j]))), client, c.workers);
    } else if Returns(e) {
      StepsInside(w, ClientAt(w, j), M.Finish(j), client, c.workers);
    }
  }

  lemma StopWorkSame(c: E.Config, w: World, v: World)
    requires v.pooled == w.pooled && v.stopped == w.stopped && v.stopper == w.stopper
    requires v.engine.poolDisconnected == w.engine.poolDisconnected
    requires w.stopper.Some? ==> StepsOf(v, w.stopper.value, c.workers) == StepsOf(w, w.stopper.value, c.workers)
    ensures StopWork(c, v) == StopWork(c, w)
  {
  }

  lemma OpWorkBounded(w: World, k: nat)
    ensures OpWork(w, k) <= 4
  {
    if k < |w.engine.shards| && E.InAction(w.engine.shards[k], E.Executing) {
      var client := ClientAt(w, k);
      if client in w.sessions && k in w.sessions[client].ops {
        BeginCosts(w.sessions[client].ops[k]);
      }
    }
  }

  lemma WorkStepShrinks(c: E.Config, w: World, j: nat, step: E.Step)
    requires Enabled(c, w, EngineEvent(E.Work(j, step)))
    ensures Measure(c, Apply(c, w, EngineEvent(E.Work(j, step)))) < Measure(c, w)
  {
    var v := Apply(c, w, EngineEvent(E.Work(j, step)));
    WorkShrinks(c, w.engine, E.Work(j, step));
    forall k | 0 <= k < c.workers && k != j ensures OpWork(v, k) == OpWork(w, k) {
      OthersDuringWork(c, w, j, step, k);
    }
    OpsWorkOne(w, v, c.workers, j);
    OpWorkBounded(v, j);
    StopDuringWork(c, w, j, step);
  }

  lemma PoolStepShrinks(c: E.Config, w: World)
    requires Enabled(c, w, EngineEvent(E.DisconnectPool))
    ensures Measure(c, Apply(c, w, EngineEvent(E.DisconnectPool))) < Measure(c, w)
  {
    OpsWorkSame(w, Apply(c, w, EngineEvent(E.DisconnectPool)), c.workers);
  }

  lemma StopCallShrinks(c: E.Config, w: World, client: E.Client)
    requires EndInv(c, w) && Enabled(c, w, StopCall(client))
    ensures Measure(c, Apply(c, w, StopCall(client))) < Measure(c, w)
  {
    var v := Apply(c, w, StopCall(client));
    forall k | 0 <= k < c.workers ensures OpWork(v, k) == OpWork(w, k) {
      WorkOfOthers(w, client, M.Call(c.workers, M.DiscMark), k);
    }
    OpsWorkSame(w, v, c.workers);
    CallLowersStopWork(c, w, client);
  }

  lemma CallLowersStopWork(c: E.Config, w: World, client: E.Client)
    requires Enabled(c, w, StopCall(client))
    ensures StopWork(c, Apply(c, w, StopCall(client))) < StopWork(c, w)
  {
    var v := Apply(c, w, StopCall(client));
    assert w.pooled.Values - v.stopped == (w.pooled.Values - w.stopped) - {client};
    assert |w.pooled.Values - v.stopped| == |w.pooled.Values - w.stopped| - 1;
    assert StepsOf(v, client, c.workers) == 4;
  }

  lemma StopReturnShrinks(c: E.Config, w: World)
    requires EndInv(c, w) && Enabled(c, w, StopReturn)
    ensures Measure(c, Apply(c, w, StopReturn)) < Measure(c, w)
  {
    var v := Apply(c, w, StopReturn);
    forall k | 0 <= k < c.workers ensures OpWork(v, k) == OpWork(w, k) {
      WorkOfOthers(w, w.stopper.value, M.Finish(c.workers), k);
    }
    OpsWorkSame(w, v, c.workers);
  }

  lemma ProgressShrinks(c: E.Config, w: World, ev: Event)
    requires EndInv(c, w) && Enabled(c, w, ev) && Progress(ev)
    ensures Measure(c, Apply(c, w, ev)) < Measure(c, w)
  {
    match ev
    case EngineEvent(e) => if e.Work? { WorkStepShrinks(c, w, e.w, e.step); } else { PoolStepShrinks(c, w); }
    case ClientEvent(client, e) => ClientStepShrinks(c, w, client, e);
    case StopCall(client) => StopCallShrinks(c, w, client);
    case StopReturn => StopReturnShrinks(c, w);
  }

  /** The other steps of a settled world leave the measure as it is. */
  lemma OthersKeepMeasure(c: E.Config, w: World, ev: Event)
    requires EndInv(c, w) && Closing(c, w) && Enabled(c, w, ev) && !Progress(ev) && Settled(ev)
    ensures Measure(c, Apply(c, w, ev)) == Measure(c, w)
  {
    match ev
    case EngineEvent(e) => OpsWorkSame(w, Apply(c, w, ev), c.workers);
    case ClientEvent(client, e) => NetworkStepSame(c, w, client, e);
  }

  lemma ClosingKept(c: E.Config, w: World, ev: Event)
    requires Closing(c, w) && Enabled(c, w, ev) && Settled(ev)
    ensures Closing(c, Apply(c, w, ev)) && !Apply(c, w, ev).engine.crashed
  {
  }

  // ---- every continuation ----

  function ProgressSteps(es: seq<Event>): nat {
    if es == [] then 0 else (if Progress(es[0]) then 1 else 0) + ProgressSteps(es[1..])
  }

  lemma {:induction false} StepsBoundedBy(c: E.Config, w: World, es: seq<Event>)
    requires EndInv(c, w) && Closing(c, w) && !w.engine.crashed && Admissible(c, w, es)
    requires forall i :: 0 <= i < |es| ==> Settled(es[i])
    ensures ProgressSteps(es) + Measure(c, After(c, w, es)) <= Measure(c, w)
    ensures EndInv(c, After(c, w, es)) && Closing(c, After(c, w, es)) && !After(c, w, es).engine.crashed
    decreases es
  {
    if es != [] {
      var v := Apply(c, w, es[0]);
      if Progress(es[0]) {
        ProgressShrinks(c, w, es[0]);
      } else {
        OthersKeepMeasure(c, w, es[0]);
      }
      EndKept(c, w, es[0]);
      ClosingKept(c, w, es[0]);
      StepsBoundedBy(c, v, es[1..]);
    }
  }

  ghost predicate Stuck(c: E.Config, w: World) {
    forall ev :: Enabled(c, w, ev) ==> !Progress(ev)
  }

  /** A worker that has not exited can step, or its operation can. */
  lemma WorkerNotStuck(c: E.Config, w: World, k: nat) returns (ev: Event)
    requires EndInv(c, w) && Closing(c, w) && !w.engine.crashed
    requires k < c.workers && !w.engine.shards[k].worker.Exited?
    ensures Enabled(c, w, ev) && Progress(ev)
  {
    SomeStepEnabled(c, w.engine, k);
    var e := E.Work(k, NextStep(c, w.engine.shards[k]));
    if Returns(e) {
      ev := OperationNotStuck(c, w, k);
    } else {
      WorkersNotHeldBack(c, w, e);
      ev := EngineEvent(e);
    }
  }

  lemma OperationNotStuck(c: E.Config, w: World, k: nat) returns (ev: Event)
    requires EndInv(c, w) && !w.engine.crashed
    requires k < c.workers && E.InAction(w.engine.shards[k], E.Executing)
    ensures Enabled(c, w, ev) && Progress(ev)
  {
    var client := ClientAt(w, k);
    if StepsLeft(w.sessions[client].ops[k]) > 0 {
      ev := OpNotStuck(c, w, client, k);
    } else {
      NotDead(c, w, client, k);
      var e := ReturnOf(c, w, k);
      ev := EngineEvent(e);
    }
  }

  lemma OpNotStuck(c: E.Config, w: World, client: E.Client, o: nat) returns (ev: Event)
    requires !w.engine.crashed && client in w.sessions && o in w.sessions[client].ops
    requires StepsLeft(w.sessions[client].ops[o]) > 0
    ensures Enabled(c, w, ev) && Progress(ev)
  {
    OpAdvances(w.sessions[client], o);
    ev := ClientEvent(client, NextOf(o, w.sessions[client].ops[o]));
  }

  lemma StopperNotStuck(c: E.Config, w: World) returns (ev: Event)
    requires EndInv(c, w) && !w.engine.crashed && w.stopper.Some?
    ensures Enabled(c, w, ev) && Progress(ev)
  {
    var client := w.stopper.value;
    if StepsLeft(w.sessions[client].ops[c.workers]) > 0 {
      ev := OpNotStuck(c, w, client, c.workers);
    } else {
      NotDead(c, w, client, c.workers);
      ev := StopReturn;
    }
  }

  lemma PoolNotStuck(c: E.Config, w: World, client: E.Client) returns (ev: Event)
    requires EndInv(c, w) && PoolGoing(w) && w.stopper.None?
    requires client in w.pooled.Values && client !in w.stopped
    ensures Enabled(c, w, ev) && Progress(ev)
  {
    NoneInFlightAtStop(c, w, client);
    ev := StopCall(client);
  }

  lemma StuckIsOver(c: E.Config, w: World)
    requires EndInv(c, w) && Closing(c, w) && !w.engine.crashed && Stuck(c, w)
    ensures Over(w)
  {
    forall k | 0 <= k < |w.engine.shards| ensures w.engine.shards[k].worker.Exited? {
      if !w.engine.shards[k].worker.Exited? {
        var ev := WorkerNotStuck(c, w, k);
        assert false;
      }
    }
    assert w.engine.poolDisconnected by {
      assert !Enabled(c, w, EngineEvent(E.DisconnectPool)) by {
        assert Progress(EngineEvent(E.DisconnectPool));
      }
    }
    if w.stopper.Some? {
      var ev := StopperNotStuck(c, w);
      assert false;
    }
    forall client | client in w.pooled.Values ensures client in w.stopped {
      if client !in w.stopped {
        var ev := PoolNotStuck(c, w, client);
        assert false;
      }
    }
    StoppedIsOver(c, w);
  }

  /**
    Main theorem. From any closed world of any run, every continuation in which no actions are submitted and
    no client joins the pool has at most Measure steps other than those of the network and the clock,
    whatever the network does; and where no such step is left everything is over: the engine is drained, no
    operation is in flight, and exactly the pooled clients and those an action disconnected have ended.
   */
  lemma ComposedDrain(c: E.Config, w: World, es: seq<Event>, rest: seq<Event>)
    requires Start(c, w) && Admissible(c, w, es)
    requires After(c, w, es).engine.closed && !After(c, w, es).engine.crashed
    requires Admissible(c, After(c, w, es), rest) && forall i :: 0 <= i < |rest| ==> Settled(rest[i])
    ensures var before := After(c, w, es); var now := After(c, before, rest);
            && ProgressSteps(rest) + Measure(c, now) <= Measure(c, before)
            && (Stuck(c, now) ==> Over(now) && EndedIffCalled(now))
  {
    var before := After(c, w, es);
    StartIsIdle(c, w);
    EndAlongRun(c, w, es);
    StepsBoundedBy(c, before, rest);
    var now := After(c, before, rest);
    if Stuck(c, now) {
      StuckIsOver(c, now);
      OverIsExact(c, now);
    }
  }
}
