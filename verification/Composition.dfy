/**
  The engine together with the MQTT clients it drives. Execute starts an operation on the client and
  returns when the operation is over; nothing in a client refuses a second operation. That there never
  is one, not even against the disconnection of the pool, comes from the engine's sharding.
 */
module Composition {
  import opened Wrappers
  import E = EngineModel
  import opened EI = EngineInvariants
  import M = MqttSession

  /**
    sessions: every client that ever connected. pooled: the pool, one client per ID, the last that was added.
    stopper: the pooled client the final DisconnectAll is disconnecting; stopped: those it has begun.
    asked: the clients on which a worker has begun a Disconnect action.
   */
  datatype World = World(
    engine: E.State, sessions: map<E.Client, M.Session>, pooled: map<string, E.Client>,
    stopper: Option<E.Client>, stopped: set<E.Client>, asked: set<E.Client>)

  datatype Event =
    | EngineEvent(e: E.Event)
    | ClientEvent(client: E.Client, step: M.Event)
    | PoolAdd(client: E.Client)
    | StopCall(client: E.Client)
    | StopReturn

  function OperationOf(a: E.Action): M.Op {
    match a.kind
    case Send => M.Publishing
    case Subscribe => M.SubCheck(a.target, 0)
    case Unsubscribe => M.UnsubSent(a.target)
    case Disconnect => M.DiscMark
  }

  /** Which results of an operation make Execute return this outcome. */
  predicate Yields(op: M.Op, outcome: E.Outcome) {
    match op
    case Done(ok, _) => outcome == if ok then E.Succeeded else E.Failed
    case Dead => outcome == E.Panicked
    case _ => false
  }

  predicate Begins(e: E.Event) { e.Work? && e.step.Begin? }

  predicate Returns(e: E.Event) { e.Work? && e.step.Return? }

  function ClientAt(w: World, k: nat): E.Client
    requires k < |w.engine.shards| && w.engine.shards[k].worker.Busy?
  {
    w.engine.shards[k].worker.batch.client
  }

  predicate Enabled(c: E.Config, w: World, ev: Event) {
    && !w.engine.crashed
    && match ev
       case EngineEvent(e) =>
         && E.Enabled(c, w.engine, e)
         && (e.Submit? ==> e.client in w.sessions)
         && (Begins(e) ==> ClientAt(w, e.w) in w.sessions && e.w !in w.sessions[ClientAt(w, e.w)].ops)
         && (Returns(e) ==>
               && ClientAt(w, e.w) in w.sessions
               && e.w in w.sessions[ClientAt(w, e.w)].ops
               && Yields(w.sessions[ClientAt(w, e.w)].ops[e.w], e.step.outcome))
       case ClientEvent(client, e) =>
         client in w.sessions && !e.Call? && !e.Finish? && M.Enabled(w.sessions[client], e)
       case PoolAdd(client) => client in w.sessions && !w.engine.poolDisconnected
       case StopCall(client) =>
         && w.engine.poolDisconnected && w.stopper.None? && client in w.pooled.Values
         && client in w.sessions && client !in w.stopped && c.workers !in w.sessions[client].ops
       case StopReturn =>
         && w.stopper.Some? && w.stopper.value in w.sessions
         && M.Enabled(w.sessions[w.stopper.value], M.Finish(c.workers))
  }

  function Inside(w: World, client: E.Client, e: M.Event): map<E.Client, M.Session>
    requires client in w.sessions && M.Enabled(w.sessions[client], e)
  {
    w.sessions[client := M.Apply(w.sessions[client], e)]
  }

  function Apply(c: E.Config, w: World, ev: Event): World
    requires Enabled(c, w, ev)
  {
    match ev
    case EngineEvent(e) =>
      var w' := w.(engine := E.Apply(c, w.engine, e));
      if Begins(e) then
        var act := E.Current(w.engine.shards[e.w]);
        w'.(sessions := Inside(w, ClientAt(w, e.w), M.Call(e.w, OperationOf(act))),
            asked := if act.kind.Disconnect? then w.asked + {ClientAt(w, e.w)} else w.asked)
      else if Returns(e) then w'.(sessions := Inside(w, ClientAt(w, e.w), M.Finish(e.w)))
      else w'
    case ClientEvent(client, e) => w.(sessions := Inside(w, client, e))
    case PoolAdd(client) => w.(pooled := w.pooled[client.id := client])
    case StopCall(client) =>
      w.(sessions := Inside(w, client, M.Call(c.workers, M.DiscMark)),
         stopper := Some(client), stopped := w.stopped + {client})
    case StopReturn =>
      w.(sessions := Inside(w, w.stopper.value, M.Finish(c.workers)), stopper := None)
  }

  /** An engine that has accepted nothing yet, clients just connected, and a pool that holds none of them yet. */
  ghost predicate Start(c: E.Config, w: World) {
    && E.ValidConfig(c) && E.Reached(c, w.engine)
    && (forall i :: 0 <= i < |w.engine.shards| ==> w.engine.shards[i].accepted == [])
    && w.pooled == map[] && w.stopper.None? && w.stopped == {} && w.asked == {}
    && forall client :: client in w.sessions ==> w.sessions[client] == M.FRESH
  }

  // ---- invariant ----

  predicate Executing(w: World, k: nat, client: E.Client) {
    && k < |w.engine.shards| && E.InAction(w.engine.shards[k], E.Executing)
    && w.engine.shards[k].worker.batch.client == client
  }

  /** Every operation in flight belongs to a worker executing for this client, or to the stopper. */
  predicate OwnersInv(c: E.Config, w: World) {
    forall client, o :: client in w.sessions && o in w.sessions[client].ops ==>
      Executing(w, o, client) || (o == c.workers && w.stopper == Some(client))
  }

  predicate ClientsKnown(w: World) {
    forall i, k :: 0 <= i < |w.engine.shards| && 0 <= k < |w.engine.shards[i].accepted| ==>
      w.engine.shards[i].accepted[k].client in w.sessions
  }

  ghost predicate WorldInv(c: E.Config, w: World) {
    && Inv(c, w.engine)
    && OwnersInv(c, w)
    && ClientsKnown(w)
    && (w.stopper.Some? ==> w.engine.poolDisconnected)
    && SessionsHold(w.sessions)
  }

  lemma StartSessions(c: E.Config, w: World)
    requires Start(c, w)
    ensures OwnersInv(c, w)
    ensures SessionsHold(w.sessions)
  {
    M.FreshHolds();
  }

  lemma StartHolds(c: E.Config, w: World)
    requires Start(c, w)
    ensures WorldInv(c, w)
  {
    ReachedHolds(c, w.engine);
    StartSessions(c, w);
  }

  /** A worker about to call Execute finds no operation of its client in flight. */
  lemma NoneInFlightAtBegin(c: E.Config, w: World, k: nat)
    requires WorldInv(c, w) && k < c.workers && w.engine.shards[k].worker.Busy?
    requires !E.InAction(w.engine.shards[k], E.Executing)
    requires ClientAt(w, k) in w.sessions
    ensures w.sessions[ClientAt(w, k)].ops == map[]
  {
    var client := ClientAt(w, k);
    forall o | o in w.sessions[client].ops ensures false {
      BusyIsRouted(c, w.engine, k);
      if Executing(w, o, client) {
        BusyIsRouted(c, w.engine, o);
      }
    }
    assert w.sessions[client].ops.Keys == {};
  }

  lemma NoneInFlightAtStop(c: E.Config, w: World, client: E.Client)
    requires WorldInv(c, w) && w.engine.poolDisconnected && w.stopper.None? && client in w.sessions
    ensures w.sessions[client].ops == map[]
  {
    forall o | o in w.sessions[client].ops ensures false {
    }
    assert w.sessions[client].ops.Keys == {};
  }

  lemma BusyIsKnown(c: E.Config, w: World, k: nat)
    requires WorldInv(c, w) && k < c.workers && w.engine.shards[k].worker.Busy?
    ensures ClientAt(w, k) in w.sessions
  {
    var sh := w.engine.shards[k];
    assert ShardInv(c, k, sh, w.engine.canceled, w.engine.closed);
    assert sh.accepted[|sh.dequeued| - 1].client == sh.worker.batch.client;
  }

  /** Beyond waiting for operations to end, the clients never hold a worker back. */
  lemma WorkersNotHeldBack(c: E.Config, w: World, e: E.Event)
    requires WorldInv(c, w) && !w.engine.crashed && E.Enabled(c, w.engine, e)
    requires !e.Submit? && !Returns(e)
    ensures Enabled(c, w, EngineEvent(e))
  {
    if Begins(e) {
      BusyIsKnown(c, w, e.w);
      NoneInFlightAtBegin(c, w, e.w);
    }
  }

  ghost predicate SessionsHold(sessions: map<E.Client, M.Session>) {
    forall client :: client in sessions ==> M.SessionInv(sessions[client])
  }

  /** One session moves, by a step that is a call only when the session has no operation. */
  lemma InsideKept(w: World, client: E.Client, e: M.Event)
    requires SessionsHold(w.sessions) && client in w.sessions && M.Enabled(w.sessions[client], e)
    requires e.Call? ==> w.sessions[client].ops == map[]
    ensures SessionsHold(Inside(w, client, e)) && Inside(w, client, e).Keys == w.sessions.Keys
  {
    M.SessionKept(w.sessions[client], e);
  }

  lemma BeginKept(c: E.Config, w: World, e: E.Event)
    requires WorldInv(c, w) && Enabled(c, w, EngineEvent(e)) && Begins(e)
    ensures SessionsHold(Apply(c, w, EngineEvent(e)).sessions)
    ensures Apply(c, w, EngineEvent(e)).sessions.Keys == w.sessions.Keys
  {
    NoneInFlightAtBegin(c, w, e.w);
    InsideKept(w, ClientAt(w, e.w), M.Call(e.w, OperationOf(E.Current(w.engine.shards[e.w]))));
  }

  lemma ReturnKept(c: E.Config, w: World, e: E.Event)
    requires WorldInv(c, w) && Enabled(c, w, EngineEvent(e)) && Returns(e)
    ensures SessionsHold(Apply(c, w, EngineEvent(e)).sessions)
    ensures Apply(c, w, EngineEvent(e)).sessions.Keys == w.sessions.Keys
  {
    InsideKept(w, ClientAt(w, e.w), M.Finish(e.w));
  }

  lemma SessionsKept(c: E.Config, w: World, ev: Event)
    requires WorldInv(c, w) && Enabled(c, w, ev)
    ensures SessionsHold(Apply(c, w, ev).sessions)
    ensures Apply(c, w, ev).sessions.Keys == w.sessions.Keys
  {
    match ev
    case EngineEvent(e) =>
      if Begins(e) {
        BeginKept(c, w, e);
      } else if Returns(e) {
        ReturnKept(c, w, e);
      }
    case ClientEvent(client, e) => InsideKept(w, client, e);
    case PoolAdd(_) =>
    case StopCall(client) =>
      NoneInFlightAtStop(c, w, client);
      InsideKept(w, client, M.Call(c.workers, M.DiscMark));
    case StopReturn => InsideKept(w, w.stopper.value, M.Finish(c.workers));
  }

  /** A worker inside Execute leaves it only by its own Return. */
  lemma ExecutingStays(c: E.Config, s: E.State, e: E.Event, k: nat)
    requires E.Enabled(c, s, e) && k < c.workers && E.InAction(s.shards[k], E.Executing)
    requires !(Returns(e) && e.w == k)
    ensures E.Apply(c, s, e).shards[k].worker == s.shards[k].worker
  {
  }

  lemma WorkerOwnerKept(c: E.Config, w: World, ev: Event, client: E.Client, o: nat)
    requires Enabled(c, w, ev) && Executing(w, o, client) && o < c.workers
    requires client in Apply(c, w, ev).sessions && o in Apply(c, w, ev).sessions[client].ops
    ensures Executing(Apply(c, w, ev), o, client)
  {
    if ev.EngineEvent? && !(Returns(ev.e) && ev.e.w == o) {
      ExecutingStays(c, w.engine, ev.e, o);
    }
  }

  lemma StopperKept(c: E.Config, w: World, ev: Event, client: E.Client)
    requires Enabled(c, w, ev) && w.stopper == Some(client)
    requires client in Apply(c, w, ev).sessions && c.workers in Apply(c, w, ev).sessions[client].ops
    ensures Apply(c, w, ev).stopper == Some(client)
  {
  }

  /** An operation enters a session only when a worker begins to execute for it, or by the stopper. */
  lemma OwnerAdded(c: E.Config, w: World, ev: Event, client: E.Client, o: nat)
    requires Enabled(c, w, ev)
    requires client in w.sessions && o !in w.sessions[client].ops
    requires client in Apply(c, w, ev).sessions && o in Apply(c, w, ev).sessions[client].ops
    ensures Executing(Apply(c, w, ev), o, client)
            || (o == c.workers && Apply(c, w, ev).stopper == Some(client))
  {
    match ev
    case EngineEvent(e) => WorkerOwnerAdded(c, w, e, client, o);
    case ClientEvent(cl, step) => M.CallersAfter(w.sessions[cl], step);
    case PoolAdd(_) =>
    case StopCall(_) =>
    case StopReturn =>
  }

  lemma WorkerOwnerAdded(c: E.Config, w: World, e: E.Event, client: E.Client, o: nat)
    requires Enabled(c, w, EngineEvent(e))
    requires client in w.sessions && o !in w.sessions[client].ops
    requires client in Apply(c, w, EngineEvent(e)).sessions && o in Apply(c, w, EngineEvent(e)).sessions[client].ops
    ensures Executing(Apply(c, w, EngineEvent(e)), o, client)
  {
    if Begins(e) {
      assert e == E.Work(o, E.Begin) && ClientAt(w, o) == client;
      BeginExecutes(c, w.engine, o);
    }
  }

  lemma BeginExecutes(c: E.Config, s: E.State, k: nat)
    requires E.Enabled(c, s, E.Work(k, E.Begin))
    ensures E.InAction(E.Apply(c, s, E.Work(k, E.Begin)).shards[k], E.Executing)
    ensures E.Apply(c, s, E.Work(k, E.Begin)).shards[k].worker.batch == s.shards[k].worker.batch
  {
  }

  lemma OwnersKept(c: E.Config, w: World, ev: Event)
    requires WorldInv(c, w) && Enabled(c, w, ev)
    ensures OwnersInv(c, Apply(c, w, ev))
  {
    var w' := Apply(c, w, ev);
    SessionsKept(c, w, ev);
    forall client, o | client in w'.sessions && o in w'.sessions[client].ops
      ensures Executing(w', o, client) || (o == c.workers && w'.stopper == Some(client))
    {
      if o in w.sessions[client].ops {
        if Executing(w, o, client) {
          WorkerOwnerKept(c, w, ev, client, o);
        } else {
          StopperKept(c, w, ev, client);
        }
      } else {
        OwnerAdded(c, w, ev, client, o);
      }
    }
  }

  lemma AcceptedGrows(c: E.Config, s: E.State, e: E.Event, i: nat, k: nat)
    requires E.Enabled(c, s, e) && i < c.workers && k < |E.Apply(c, s, e).shards[i].accepted|
    ensures var bs := E.Apply(c, s, e).shards[i].accepted;
            (k < |s.shards[i].accepted| && bs[k] == s.shards[i].accepted[k])
            || (e.Submit? && bs[k].client == e.client)
  {
    if e.Work? {
      WorkAcceptsNothing(c, s, e.w, e.step);
    }
  }

  lemma WorkAcceptsNothing(c: E.Config, s: E.State, w: nat, step: E.Step)
    requires E.Enabled(c, s, E.Work(w, step))
    ensures forall i :: 0 <= i < c.workers ==>
              E.Apply(c, s, E.Work(w, step)).shards[i].accepted == s.shards[i].accepted
  {
  }

  lemma KnownKept(c: E.Config, w: World, ev: Event)
    requires WorldInv(c, w) && Enabled(c, w, ev)
    ensures ClientsKnown(Apply(c, w, ev))
  {
    var w' := Apply(c, w, ev);
    forall i, k | 0 <= i < |w'.engine.shards| && 0 <= k < |w'.engine.shards[i].accepted|
      ensures w'.engine.shards[i].accepted[k].client in w'.sessions
    {
      if ev.EngineEvent? {
        AcceptedGrows(c, w.engine, ev.e, i, k);
      }
    }
  }

  lemma WorldKept(c: E.Config, w: World, ev: Event)
    requires WorldInv(c, w) && Enabled(c, w, ev)
    ensures WorldInv(c, Apply(c, w, ev))
  {
    if ev.EngineEvent? {
      InvKept(c, w.engine, ev.e);
    }
    OwnersKept(c, w, ev);
    KnownKept(c, w, ev);
    SessionsKept(c, w, ev);
  }

  // ---- every run ----

  predicate Admissible(c: E.Config, w: World, es: seq<Event>)
    decreases es
  {
    es == [] || (Enabled(c, w, es[0]) && Admissible(c, Apply(c, w, es[0]), es[1..]))
  }

  function After(c: E.Config, w: World, es: seq<Event>): World
    requires Admissible(c, w, es)
    decreases es
  {
    if es == [] then w else After(c, Apply(c, w, es[0]), es[1..])
  }

  lemma {:induction false} WorldAlongRun(c: E.Config, w: World, es: seq<Event>)
    requires WorldInv(c, w) && Admissible(c, w, es)
    ensures WorldInv(c, After(c, w, es))
    decreases es
  {
    if es != [] {
      WorldKept(c, w, es[0]);
      WorldAlongRun(c, Apply(c, w, es[0]), es[1..]);
    }
  }

  lemma RunHolds(c: E.Config, w: World, es: seq<Event>)
    requires Start(c, w) && Admissible(c, w, es)
    ensures WorldInv(c, After(c, w, es))
  {
    StartHolds(c, w);
    WorldAlongRun(c, w, es);
  }

  /**
    In every run of the engine with its clients, down to the final disconnection of the pool: a client
    has at most one operation in flight, so its stop channel is never closed twice and no operation
    panics; and its local list never holds a topic twice.
   */
  lemma OneOperationPerClient(c: E.Config, w: World, es: seq<Event>, client: E.Client)
    requires Start(c, w) && Admissible(c, w, es) && client in After(c, w, es).sessions
    ensures Serial(After(c, w, es).sessions[client])
  {
    RunHolds(c, w, es);
    SessionIsSerial(After(c, w, es).sessions[client]);
  }

  predicate Serial(s: M.Session) {
    && (forall o, p :: o in s.ops && p in s.ops ==> o == p)
    && !s.doubleClosed && (forall o :: o in s.ops ==> !s.ops[o].Dead?)
    && M.NoDuplicates(s.subs)
  }

  lemma SessionIsSerial(s: M.Session)
    requires M.SessionInv(s)
    ensures Serial(s)
  {
  }

  /**
    In every such run, for a client that is not shutting down and has no Subscribe or Unsubscribe in
    flight: the broker's topics are among the local ones, and a local topic is missing at the broker
    exactly when it was acknowledged before the last connection loss and appended after it; there is
    at most one such topic.
   */
  lemma SubscriptionAgreement(c: E.Config, w: World, es: seq<Event>, client: E.Client)
    requires Start(c, w) && Admissible(c, w, es) && client in After(c, w, es).sessions
    requires M.Quiet(After(c, w, es).sessions[client]) && !After(c, w, es).sessions[client].shuttingDown
    ensures M.Agrees(After(c, w, es).sessions[client])
  {
    RunHolds(c, w, es);
    M.QuietAgrees(After(c, w, es).sessions[client]);
  }

  /** The engine part of a run with clients is a run of the engine: its theorems carry over. */
  lemma EnginePart(c: E.Config, w: World, ev: Event)
    requires Enabled(c, w, ev)
    ensures Apply(c, w, ev).engine == w.engine
            || (ev.EngineEvent? && E.Enabled(c, w.engine, ev.e)
                && Apply(c, w, ev).engine == E.Apply(c, w.engine, ev.e))
  {
  }

  lemma {:induction false} EngineReached(c: E.Config, w: World, es: seq<Event>)
    requires E.Reached(c, w.engine) && Admissible(c, w, es)
    ensures E.Reached(c, After(c, w, es).engine)
    decreases es
  {
    if es != [] {
      EnginePart(c, w, es[0]);
      if es[0].EngineEvent? {
        E.LeadsNext(c, E.Init(c), w.engine, es[0].e);
      }
      EngineReached(c, Apply(c, w, es[0]), es[1..]);
    }
  }
}
