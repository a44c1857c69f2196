/**
  The end of a run of the engine with its clients: what the final disconnection leaves in every client,
  and that from every closed state the whole can come to its end.
 */
module CompositionShutdown {
  import opened Wrappers
  import E = EngineModel
  import opened EI = EngineInvariants
  import opened ES = EngineShutdown
  import M = MqttSession
  import opened Composition

  // ---- what the final disconnection leaves ----

  predicate Ended(s: M.Session) {
    s.shuttingDown && s.stopClosed
  }

  /** How far a Disconnect is, and what it has done by then. */
  predicate Disconnecting(s: M.Session, op: M.Op) {
    match op
    case DiscMark => true
    case DiscLook => s.shuttingDown
    case DiscClose => s.shuttingDown
    case DiscLibrary => Ended(s)
    case Done(_, _) => Ended(s)
    case _ => false
  }

  predicate WorkersHaveOps(w: World) {
    forall k :: 0 <= k < |w.engine.shards| && E.InAction(w.engine.shards[k], E.Executing) ==>
      ClientAt(w, k) in w.sessions && k in w.sessions[ClientAt(w, k)].ops
  }

  predicate StopperInv(c: E.Config, w: World) {
    w.stopper.Some? ==>
      var client := w.stopper.value;
      && client in w.sessions && client in w.stopped && c.workers in w.sessions[client].ops
      && Disconnecting(w.sessions[client], w.sessions[client].ops[c.workers])
  }

  predicate StoppedInv(w: World) {
    forall client :: client in w.stopped ==>
      client in w.sessions && (w.stopper == Some(client) || Ended(w.sessions[client]))
  }

  predicate IsDisconnect(op: M.Op) {
    op.DiscMark? || op.DiscLook? || op.DiscClose? || op.DiscLibrary?
  }

  /** A client Disconnect was called on is at it or has ended; one it was not called on shows no trace of it. */
  ghost predicate Traced(s: M.Session, called: bool) {
    if called then Ended(s) || exists o :: o in s.ops && Disconnecting(s, s.ops[o])
    else !s.shuttingDown && !s.stopClosed && forall o :: o in s.ops ==> !IsDisconnect(s.ops[o])
  }

  /** Disconnect is called by an action or by the final disconnection, and by nothing else. */
  predicate Called(w: World, client: E.Client) {
    client in w.asked || client in w.stopped
  }

  ghost predicate CallsInv(w: World) {
    forall client :: client in w.sessions ==> Traced(w.sessions[client], Called(w, client))
  }

  /** The pool holds connected clients under their own IDs, and only pooled clients are ever stopped. */
  predicate PoolInv(w: World) {
    && (forall id :: id in w.pooled ==> w.pooled[id].id == id && w.pooled[id] in w.sessions)
    && w.stopped <= w.pooled.Values
    && (w.stopped != {} ==> w.engine.poolDisconnected)
  }

  ghost predicate EndInv(c: E.Config, w: World) {
    && WorldInv(c, w) && WorkersHaveOps(w)
    && StopperInv(c, w) && StoppedInv(w) && CallsInv(w) && PoolInv(w)
  }

  // ---- kept by every event ----

  lemma EndedStays(s: M.Session, e: M.Event)
    requires M.Enabled(s, e)
    ensures s.shuttingDown ==> M.Apply(s, e).shuttingDown
    ensures s.stopClosed ==> M.Apply(s, e).stopClosed
  {
  }

  lemma OtherOpKept(s: M.Session, e: M.Event, o: nat)
    requires M.Enabled(s, e) && o in s.ops && (e.Lose? || e.Reconnect? || e.o != o)
    ensures o in M.Apply(s, e).ops && M.Apply(s, e).ops[o] == s.ops[o]
  {
    if e.Ack? || e.Commit? {
      OtherOpRecorded(s, e, o);
    }
  }

  lemma OtherOpRecorded(s: M.Session, e: M.Event, o: nat)
    requires M.Enabled(s, e) && o in s.ops && (e.Ack? || e.Commit?) && e.o != o
    ensures o in M.Apply(s, e).ops && M.Apply(s, e).ops[o] == s.ops[o]
  {
  }

  lemma DisconnectMoves(s: M.Session, e: M.Event, o: nat)
    requires M.Enabled(s, e) && o in s.ops && Disconnecting(s, s.ops[o])
    requires s.ops[o].DiscClose? ==> !s.stopClosed
    requires !e.Call? && !e.Finish? && !e.Lose? && !e.Reconnect? && e.o == o
    ensures o in M.Apply(s, e).ops && Disconnecting(M.Apply(s, e), M.Apply(s, e).ops[o])
  {
  }

  /** One event of the session, whoever it is for, and the Disconnect in it. */
  lemma DisconnectingKept(s: M.Session, e: M.Event, o: nat)
    requires M.Enabled(s, e) && o in s.ops && Disconnecting(s, s.ops[o])
    requires s.ops[o].DiscClose? ==> !s.stopClosed
    requires !(e.Call? && e.o == o) && !(e.Finish? && e.o == o)
    ensures o in M.Apply(s, e).ops && Disconnecting(M.Apply(s, e), M.Apply(s, e).ops[o])
  {
    if e.Lose? || e.Reconnect? || e.o != o {
      OtherOpKept(s, e, o);
      EndedStays(s, e);
    } else {
      DisconnectMoves(s, e, o);
    }
  }

  lemma CloseFindsOpen(s: M.Session, o: nat)
    requires M.SessionInv(s) && o in s.ops
    ensures s.ops[o].DiscClose? ==> !s.stopClosed
    ensures !s.ops[o].Dead?
  {
  }

  /** The worker of a step that is not Begin is inside Execute after it only if it was before. */
  lemma OnlyBeginExecutes(c: E.Config, s: E.State, e: E.Event, k: nat)
    requires E.Enabled(c, s, e) && k < c.workers && E.InAction(E.Apply(c, s, e).shards[k], E.Executing)
    ensures e == E.Work(k, E.Begin) || (E.InAction(s.shards[k], E.Executing)
              && E.Apply(c, s, e).shards[k].worker == s.shards[k].worker && !(Returns(e) && e.w == k))
  {
  }

  lemma InsideKeys(w: World, client: E.Client, e: M.Event)
    requires client in w.sessions && M.Enabled(w.sessions[client], e)
    ensures Inside(w, client, e).Keys == w.sessions.Keys
    ensures Inside(w, client, e)[client].ops.Keys ==
              if e.Call? then w.sessions[client].ops.Keys + {e.o}
              else if e.Finish? then w.sessions[client].ops.Keys - {e.o} else w.sessions[client].ops.Keys
    ensures forall other :: other in w.sessions && other != client ==> Inside(w, client, e)[other] == w.sessions[other]
  {
    M.CallersAfter(w.sessions[client], e);
  }

  lemma OpsAfterBegin(c: E.Config, w: World, k: nat)
    requires WorkersHaveOps(w) && Enabled(c, w, EngineEvent(E.Work(k, E.Begin)))
    ensures WorkersHaveOps(Apply(c, w, EngineEvent(E.Work(k, E.Begin))))
  {
    InsideKeys(w, ClientAt(w, k), M.Call(k, OperationOf(E.Current(w.engine.shards[k]))));
    BeginExecutes(c, w.engine, k);
    OpsCarriedOver(c, w, E.Work(k, E.Begin), Apply(c, w, EngineEvent(E.Work(k, E.Begin))));
  }

  lemma OpsAfterReturn(c: E.Config, w: World, e: E.Event)
    requires WorkersHaveOps(w) && Enabled(c, w, EngineEvent(e)) && Returns(e)
    ensures WorkersHaveOps(Apply(c, w, EngineEvent(e)))
  {
    InsideKeys(w, ClientAt(w, e.w), M.Finish(e.w));
    OpsCarriedOver(c, w, e, Apply(c, w, EngineEvent(e)));
  }

  /** A worker that was inside Execute has its operation still, unless the event is its own Return. */
  lemma OpsCarriedOver(c: E.Config, w: World, e: E.Event, v: World)
    requires WorkersHaveOps(w) && E.Enabled(c, w.engine, e) && v.engine == E.Apply(c, w.engine, e)
    requires v.sessions.Keys == w.sessions.Keys
    requires forall client, o :: client in w.sessions && o in w.sessions[client].ops && !(Returns(e) && o == e.w) ==>
               o in v.sessions[client].ops
    requires Begins(e) ==> ClientAt(w, e.w) in v.sessions && e.w in v.sessions[ClientAt(w, e.w)].ops
    ensures WorkersHaveOps(v)
  {
    forall k | 0 <= k < |v.engine.shards| && E.InAction(v.engine.shards[k], E.Executing)
      ensures ClientAt(v, k) in v.sessions && k in v.sessions[ClientAt(v, k)].ops
    {
      OnlyBeginExecutes(c, w.engine, e, k);
      if e == E.Work(k, E.Begin) {
        BeginExecutes(c, w.engine, k);
      } else {
        assert ClientAt(v, k) == ClientAt(w, k) && k in w.sessions[ClientAt(w, k)].ops;
      }
    }
  }

  lemma OpsInsideEngine(c: E.Config, w: World, e: E.Event)
    requires WorkersHaveOps(w) && Enabled(c, w, EngineEvent(e))
    ensures WorkersHaveOps(Apply(c, w, EngineEvent(e)))
  {
    if Begins(e) {
      OpsAfterBegin(c, w, e.w);
    } else if Returns(e) {
      OpsAfterReturn(c, w, e);
    } else {
      OpsCarriedOver(c, w, e, Apply(c, w, EngineEvent(e)));
    }
  }

  lemma OpsInsideClients(c: E.Config, w: World, ev: Event)
    requires EndInv(c, w) && Enabled(c, w, ev) && !ev.EngineEvent?
    ensures WorkersHaveOps(Apply(c, w, ev))
  {
    match ev
    case ClientEvent(client, e) => InsideKeys(w, client, e);
    case PoolAdd(_) =>
    case StopCall(client) => InsideKeys(w, client, M.Call(c.workers, M.DiscMark));
    case StopReturn => InsideKeys(w, w.stopper.value, M.Finish(c.workers));
  }

  /** An event of one session that is no call, and no return of the final disconnection. */
  lemma StopperInside(c: E.Config, w: World, client: E.Client, e: M.Event)
    requires client in w.sessions && M.Enabled(w.sessions[client], e) && M.SessionInv(w.sessions[client])
    requires StopperInv(c, w) && (e.Call? || e.Finish? ==> e.o != c.workers)
    ensures StopperInv(c, w.(sessions := Inside(w, client, e)))
  {
    if w.stopper == Some(client) {
      CloseFindsOpen(w.sessions[client], c.workers);
      DisconnectingKept(w.sessions[client], e, c.workers);
    }
  }

  lemma StoppedInside(w: World, client: E.Client, e: M.Event)
    requires client in w.sessions && M.Enabled(w.sessions[client], e) && StoppedInv(w)
    ensures StoppedInv(w.(sessions := Inside(w, client, e)))
  {
    EndedStays(w.sessions[client], e);
  }

  lemma StoppersInEngine(c: E.Config, w: World, e: E.Event)
    requires SessionsHold(w.sessions) && StopperInv(c, w) && StoppedInv(w) && Enabled(c, w, EngineEvent(e))
    ensures StopperInv(c, Apply(c, w, EngineEvent(e))) && StoppedInv(Apply(c, w, EngineEvent(e)))
  {
    if Begins(e) {
      StopperInside(c, w, ClientAt(w, e.w), M.Call(e.w, OperationOf(E.Current(w.engine.shards[e.w]))));
      StoppedInside(w, ClientAt(w, e.w), M.Call(e.w, OperationOf(E.Current(w.engine.shards[e.w]))));
    } else if Returns(e) {
      StopperInside(c, w, ClientAt(w, e.w), M.Finish(e.w));
      StoppedInside(w, ClientAt(w, e.w), M.Finish(e.w));
    }
  }

  lemma StoppersKept(c: E.Config, w: World, ev: Event)
    requires EndInv(c, w) && Enabled(c, w, ev)
    ensures StopperInv(c, Apply(c, w, ev)) && StoppedInv(Apply(c, w, ev))
  {
    match ev
    case EngineEvent(e) => StoppersInEngine(c, w, e);
    case ClientEvent(client, e) =>
      StopperInside(c, w, client, e);
      StoppedInside(w, client, e);
    case PoolAdd(_) =>
    case StopCall(client) => InsideKeys(w, client, M.Call(c.workers, M.DiscMark));
    case StopReturn =>
      InsideKeys(w, w.stopper.value, M.Finish(c.workers));
      CloseFindsOpen(w.sessions[w.stopper.value], c.workers);
  }

  lemma TracedKept(s: M.Session, e: M.Event, called: bool)
    requires M.SessionInv(s) && M.Enabled(s, e) && Traced(s, called)
    ensures Traced(M.Apply(s, e), called || (e.Call? && e.op.DiscMark?))
  {
    EndedStays(s, e);
    M.CallersAfter(s, e);
    if called && !Ended(s) {
      var o :| o in s.ops && Disconnecting(s, s.ops[o]);
      CloseFindsOpen(s, o);
      DisconnectingKept(s, e, o);
    } else if e.Call? && e.op.DiscMark? {
      assert Disconnecting(M.Apply(s, e), M.Apply(s, e).ops[e.o]);
    } else if !called {
      UntracedKept(s, e);
    }
  }

  lemma UntracedKept(s: M.Session, e: M.Event)
    requires M.Enabled(s, e) && Traced(s, false) && !(e.Call? && e.op.DiscMark?)
    ensures Traced(M.Apply(s, e), false)
  {
  }

  /** One session moves, and by a call of Disconnect if and only if that is what the world records. */
  lemma CallsInside(w: World, client: E.Client, e: M.Event, v: World)
    requires SessionsHold(w.sessions) && CallsInv(w) && client in w.sessions && M.Enabled(w.sessions[client], e)
    requires v.sessions == Inside(w, client, e)
    requires forall other :: other in w.sessions ==>
               Called(v, other) == (Called(w, other) || (other == client && e.Call? && e.op.DiscMark?))
    ensures CallsInv(v)
  {
    TracedKept(w.sessions[client], e, Called(w, client));
  }

  lemma CallsInEngine(c: E.Config, w: World, e: E.Event)
    requires SessionsHold(w.sessions) && CallsInv(w) && Enabled(c, w, EngineEvent(e))
    ensures CallsInv(Apply(c, w, EngineEvent(e)))
  {
    var v := Apply(c, w, EngineEvent(e));
    if Begins(e) {
      CallsInside(w, ClientAt(w, e.w), M.Call(e.w, OperationOf(E.Current(w.engine.shards[e.w]))), v);
    } else if Returns(e) {
      CallsInside(w, ClientAt(w, e.w), M.Finish(e.w), v);
    }
  }

  lemma CallsKept(c: E.Config, w: World, ev: Event)
    requires SessionsHold(w.sessions) && CallsInv(w) && Enabled(c, w, ev)
    ensures CallsInv(Apply(c, w, ev))
  {
    var v := Apply(c, w, ev);
    match ev
    case EngineEvent(e) => CallsInEngine(c, w, e);
    case ClientEvent(client, e) => CallsInside(w, client, e, v);
    case PoolAdd(_) =>
    case StopCall(client) => CallsInside(w, client, M.Call(c.workers, M.DiscMark), v);
    case StopReturn => CallsInside(w, w.stopper.value, M.Finish(c.workers), v);
  }

  lemma PoolKept(c: E.Config, w: World, ev: Event)
    requires PoolInv(w) && Enabled(c, w, ev)
    ensures PoolInv(Apply(c, w, ev))
  {
  }

  lemma EndKept(c: E.Config, w: World, ev: Event)
    requires EndInv(c, w) && Enabled(c, w, ev)
    ensures EndInv(c, Apply(c, w, ev))
  {
    WorldKept(c, w, ev);
    StoppersKept(c, w, ev);
    CallsKept(c, w, ev);
    PoolKept(c, w, ev);
    if ev.EngineEvent? {
      OpsInsideEngine(c, w, ev.e);
    } else {
      OpsInsideClients(c, w, ev);
    }
  }

  lemma StartIsIdle(c: E.Config, w: World)
    requires Start(c, w)
    ensures EndInv(c, w)
  {
    StartHolds(c, w);
    NothingAccepted(c, w.engine);
    StartTraces(w);
  }

  lemma NothingAccepted(c: E.Config, s: E.State)
    requires Inv(c, s) && forall i :: 0 <= i < |s.shards| ==> s.shards[i].accepted == []
    ensures forall k :: 0 <= k < |s.shards| ==> !s.shards[k].worker.Busy?
  {
    forall k | 0 <= k < |s.shards| ensures !s.shards[k].worker.Busy? {
      assert ShardInv(c, k, s.shards[k], s.canceled, s.closed);
    }
  }

  lemma StartTraces(w: World)
    requires w.pooled == map[] && w.stopped == {} && w.asked == {}
    requires forall client :: client in w.sessions ==> w.sessions[client] == M.FRESH
    ensures CallsInv(w) && PoolInv(w)
  {
  }

  lemma {:induction false} EndAlongRun(c: E.Config, w: World, es: seq<Event>)
    requires EndInv(c, w) && Admissible(c, w, es)
    ensures EndInv(c, After(c, w, es))
    decreases es
  {
    if es != [] {
      EndKept(c, w, es[0]);
      EndAlongRun(c, Apply(c, w, es[0]), es[1..]);
    }
  }

  /** In every run a client whose final Disconnect has returned is shutting down and has its stop channel closed. */
  lemma StoppedHaveEnded(c: E.Config, w: World, es: seq<Event>, client: E.Client)
    requires Start(c, w) && Admissible(c, w, es)
    requires client in After(c, w, es).stopped && After(c, w, es).stopper != Some(client)
    ensures client in After(c, w, es).sessions && Ended(After(c, w, es).sessions[client])
  {
    StartIsIdle(c, w);
    EndAlongRun(c, w, es);
  }

  // ---- the whole can come to its end ----

  predicate Silent(ev: Event) {
    ev.EngineEvent? ==> !ev.e.Submit?
  }

  ghost predicate CanReach(c: E.Config, w: World, v: World) {
    exists es :: Admissible(c, w, es) && After(c, w, es) == v && forall i :: 0 <= i < |es| ==> Silent(es[i])
  }

  lemma {:induction false} OneMore(c: E.Config, w: World, es: seq<Event>, ev: Event)
    requires Admissible(c, w, es) && Enabled(c, After(c, w, es), ev)
    ensures Admissible(c, w, es + [ev]) && After(c, w, es + [ev]) == Apply(c, After(c, w, es), ev)
    decreases es
  {
    if es == [] {
      assert ([ev])[1..] == [];
    } else {
      assert (es + [ev])[1..] == es[1..] + [ev];
      OneMore(c, Apply(c, w, es[0]), es[1..], ev);
    }
  }

  lemma ReachItself(c: E.Config, w: World)
    ensures CanReach(c, w, w)
  {
    assert Admissible(c, w, []) && After(c, w, []) == w;
  }

  /** From start the world v can be reached, and keeps what every reachable world keeps. */
  ghost predicate OnTheWay(c: E.Config, start: World, v: World) {
    CanReach(c, start, v) && EndInv(c, v)
  }

  lemma GoOn(c: E.Config, start: World, v: World, ev: Event) returns (u: World)
    requires OnTheWay(c, start, v) && Enabled(c, v, ev) && Silent(ev)
    ensures u == Apply(c, v, ev) && OnTheWay(c, start, u)
  {
    u := Apply(c, v, ev);
    ReachNext(c, start, v, ev);
    EndKept(c, v, ev);
  }

  lemma ReachNext(c: E.Config, start: World, v: World, ev: Event)
    requires CanReach(c, start, v) && Enabled(c, v, ev) && Silent(ev)
    ensures CanReach(c, start, Apply(c, v, ev))
  {
    var es :| Admissible(c, start, es) && After(c, start, es) == v && forall i :: 0 <= i < |es| ==> Silent(es[i]);
    OneMore(c, start, es, ev);
    assert Admissible(c, start, es + [ev]) && After(c, start, es + [ev]) == Apply(c, v, ev);
  }

  /** Steps an operation can still take. */
  function StepsLeft(op: M.Op): nat {
    match op
    case SubCheck(_, _) => 3
    case SubSent(_, _) => 2
    case SubAcked(_, _, _) => 1
    case UnsubSent(_) => 2
    case UnsubAcked(_) => 1
    case Publishing => 1
    case DiscMark => 4
    case DiscLook => 3
    case DiscClose => 2
    case DiscLibrary => 1
    case Done(_, _) => 0
    case Dead => 0
  }

  function NextOf(o: nat, op: M.Op): M.Event
    requires StepsLeft(op) > 0
  {
    match op
    case SubCheck(_, _) => M.Check(o)
    case SubSent(_, _) => M.Nack(o)
    case SubAcked(_, _, _) => M.Commit(o)
    case UnsubSent(_) => M.Nack(o)
    case UnsubAcked(_) => M.Commit(o)
    case Publishing => M.PublishEnd(o, true)
    case DiscMark => M.Mark(o)
    case DiscLook => M.Look(o)
    case DiscClose => M.CloseStop(o)
    case DiscLibrary => M.LibraryDisconnect(o)
  }

  lemma OpAdvances(s: M.Session, o: nat)
    requires o in s.ops && StepsLeft(s.ops[o]) > 0
    ensures var e := NextOf(o, s.ops[o]);
            && M.Enabled(s, e) && !e.Call? && !e.Finish?
            && o in M.Apply(s, e).ops && StepsLeft(M.Apply(s, e).ops[o]) < StepsLeft(s.ops[o])
  {
    if s.ops[o].DiscMark? || s.ops[o].DiscLook? || s.ops[o].DiscClose? || s.ops[o].DiscLibrary? {
      DisconnectAdvances(s, o);
    } else {
      CallAdvances(s, o);
    }
  }

  lemma CallAdvances(s: M.Session, o: nat)
    requires o in s.ops && StepsLeft(s.ops[o]) > 0
    requires s.ops[o].SubCheck? || s.ops[o].SubSent? || s.ops[o].SubAcked?
             || s.ops[o].UnsubSent? || s.ops[o].UnsubAcked? || s.ops[o].Publishing?
    ensures var e := NextOf(o, s.ops[o]);
            && M.Enabled(s, e)
            && o in M.Apply(s, e).ops && StepsLeft(M.Apply(s, e).ops[o]) < StepsLeft(s.ops[o])
  {
  }

  lemma DisconnectAdvances(s: M.Session, o: nat)
    requires o in s.ops
    requires s.ops[o].DiscMark? || s.ops[o].DiscLook? || s.ops[o].DiscClose? || s.ops[o].DiscLibrary?
    ensures var e := NextOf(o, s.ops[o]);
            && M.Enabled(s, e)
            && o in M.Apply(s, e).ops && StepsLeft(M.Apply(s, e).ops[o]) < StepsLeft(s.ops[o])
  {
  }

  predicate SameOutside(w: World, v: World) {
    && v.engine == w.engine && v.sessions.Keys == w.sessions.Keys
    && v.pooled == w.pooled && v.stopper == w.stopper && v.stopped == w.stopped && v.asked == w.asked
  }

  lemma NotDead(c: E.Config, w: World, client: E.Client, o: nat)
    requires EndInv(c, w) && client in w.sessions && o in w.sessions[client].ops
    ensures !w.sessions[client].ops[o].Dead?
  {
    CloseFindsOpen(w.sessions[client], o);
  }

  lemma OpMoves(c: E.Config, start: World, w: World, client: E.Client, o: nat) returns (v: World)
    requires OnTheWay(c, start, w) && !w.engine.crashed && client in w.sessions && o in w.sessions[client].ops
    requires StepsLeft(w.sessions[client].ops[o]) > 0
    ensures OnTheWay(c, start, v) && SameOutside(w, v)
    ensures o in v.sessions[client].ops
    ensures StepsLeft(v.sessions[client].ops[o]) < StepsLeft(w.sessions[client].ops[o])
  {
    var e := NextOf(o, w.sessions[client].ops[o]);
    OpAdvances(w.sessions[client], o);
    InsideKeys(w, client, e);
    v := GoOn(c, start, w, ClientEvent(client, e));
  }

  /** An operation in flight can always be brought to its end, with the engine standing still. */
  lemma {:induction false} OpEnds(c: E.Config, start: World, w: World, client: E.Client, o: nat) returns (v: World)
    requires OnTheWay(c, start, w) && !w.engine.crashed && client in w.sessions && o in w.sessions[client].ops
    ensures OnTheWay(c, start, v) && SameOutside(w, v)
    ensures o in v.sessions[client].ops && v.sessions[client].ops[o].Done?
    decreases StepsLeft(w.sessions[client].ops[o])
  {
    if StepsLeft(w.sessions[client].ops[o]) == 0 {
      NotDead(c, w, client, o);
      v := w;
    } else {
      v := OpMoves(c, start, w, client, o);
      v := OpEnds(c, start, v, client, o);
    }
  }

  lemma WorkerReturns(c: E.Config, start: World, w: World, k: nat) returns (v: World)
    requires OnTheWay(c, start, w) && w.engine.closed && !w.engine.crashed
    requires k < c.workers && E.InAction(w.engine.shards[k], E.Executing)
    ensures OnTheWay(c, start, v) && v.engine.closed && !v.engine.crashed
    ensures WorkLeft(v.engine) < WorkLeft(w.engine)
  {
    v := OpEnds(c, start, w, ClientAt(w, k), k);
    var e := ReturnOf(c, v, k);
    WorkShrinks(c, v.engine, e);
    v := GoOn(c, start, v, EngineEvent(e));
  }

  /** A worker whose operation has ended can return with the operation's result. */
  lemma ReturnOf(c: E.Config, w: World, k: nat) returns (e: E.Event)
    requires E.Shaped(c, w.engine) && !w.engine.crashed
    requires k < c.workers && E.InAction(w.engine.shards[k], E.Executing)
    requires ClientAt(w, k) in w.sessions && k in w.sessions[ClientAt(w, k)].ops
    requires w.sessions[ClientAt(w, k)].ops[k].Done?
    ensures e.Work? && e.step.Return? && Enabled(c, w, EngineEvent(e))
  {
    e := E.Work(k, E.Return(if w.sessions[ClientAt(w, k)].ops[k].ok then E.Succeeded else E.Failed));
  }

  /** One step of a worker that has not exited, after the end of its operation if it is inside Execute. */
  lemma WorkerMoves(c: E.Config, start: World, w: World, k: nat) returns (v: World)
    requires OnTheWay(c, start, w) && w.engine.closed && !w.engine.crashed
    requires k < c.workers && !w.engine.shards[k].worker.Exited?
    ensures OnTheWay(c, start, v) && v.engine.closed && !v.engine.crashed
    ensures WorkLeft(v.engine) < WorkLeft(w.engine)
  {
    SomeStepEnabled(c, w.engine, k);
    var e := E.Work(k, NextStep(c, w.engine.shards[k]));
    if Returns(e) {
      v := WorkerReturns(c, start, w, k);
    } else {
      WorkersNotHeldBack(c, w, e);
      WorkShrinks(c, w.engine, e);
      v := GoOn(c, start, w, EngineEvent(e));
    }
  }

  lemma {:induction false} WorkersExit(c: E.Config, start: World, w: World) returns (v: World)
    requires OnTheWay(c, start, w) && w.engine.closed && !w.engine.crashed
    ensures OnTheWay(c, start, v) && v.engine.closed && !v.engine.crashed && E.AllExited(v.engine)
    decreases WorkLeft(w.engine)
  {
    if E.AllExited(w.engine) {
      v := w;
    } else {
      var k :| 0 <= k < |w.engine.shards| && !w.engine.shards[k].worker.Exited?;
      v := WorkerMoves(c, start, w, k);
      v := WorkersExit(c, start, v);
    }
  }

  predicate PoolGoing(w: World) {
    w.engine.poolDisconnected && !w.engine.crashed
  }

  lemma PoolStarts(c: E.Config, start: World, w: World) returns (v: World)
    requires OnTheWay(c, start, w) && w.engine.closed && !w.engine.crashed && E.AllExited(w.engine)
    ensures OnTheWay(c, start, v) && PoolGoing(v)
  {
    v := w;
    if !w.engine.poolDisconnected {
      v := GoOn(c, start, w, EngineEvent(E.DisconnectPool));
    }
  }

  /** The Disconnect of the final disconnection that is under way, if any, returns. */
  lemma StopperReturns(c: E.Config, start: World, w: World) returns (v: World)
    requires OnTheWay(c, start, w) && PoolGoing(w)
    ensures OnTheWay(c, start, v) && PoolGoing(v) && v.stopper.None?
    ensures v.stopped == w.stopped && v.pooled == w.pooled
  {
    v := w;
    if w.stopper.Some? {
      v := OpEnds(c, start, w, w.stopper.value, c.workers);
      assert v.engine == w.engine;
      v := StopperReturnsNow(c, start, v);
    }
  }

  lemma StopperReturnsNow(c: E.Config, start: World, w: World) returns (v: World)
    requires OnTheWay(c, start, w) && PoolGoing(w) && w.stopper.Some? && w.stopper.value in w.sessions
    requires c.workers in w.sessions[w.stopper.value].ops && w.sessions[w.stopper.value].ops[c.workers].Done?
    ensures OnTheWay(c, start, v) && PoolGoing(v) && v.stopper.None?
    ensures v.stopped == w.stopped && v.pooled == w.pooled
  {
    StopReturnEffect(c, w);
    v := GoOn(c, start, w, StopReturn);
  }

  lemma StopReturnEffect(c: E.Config, w: World)
    requires !w.engine.crashed && w.stopper.Some? && w.stopper.value in w.sessions
    requires c.workers in w.sessions[w.stopper.value].ops && w.sessions[w.stopper.value].ops[c.workers].Done?
    ensures Enabled(c, w, StopReturn)
    ensures var v := Apply(c, w, StopReturn);
            v.engine == w.engine && v.stopper.None? && v.stopped == w.stopped && v.pooled == w.pooled
  {
  }

  lemma {:induction false} PooledStop(c: E.Config, start: World, w: World) returns (v: World)
    requires OnTheWay(c, start, w) && PoolGoing(w) && w.stopper.None?
    ensures OnTheWay(c, start, v) && PoolGoing(v) && v.stopper.None? && v.stopped == v.pooled.Values
    decreases w.pooled.Values - w.stopped
  {
    if client :| client in w.pooled.Values && client !in w.stopped {
      NoneInFlightAtStop(c, w, client);
      v := GoOn(c, start, w, StopCall(client));
      v := StopperReturns(c, start, v);
      v := PooledStop(c, start, v);
    } else {
      v := w;
    }
  }

  /** The engine is drained, no operation is in flight, and exactly the pooled clients have been stopped. */
  predicate Over(w: World) {
    && Drained(w.engine) && w.engine.poolDisconnected && w.stopper.None? && w.stopped == w.pooled.Values
    && forall client :: client in w.sessions ==> w.sessions[client].ops == map[]
  }

  lemma StoppedIsOver(c: E.Config, w: World)
    requires EndInv(c, w) && w.engine.poolDisconnected && w.stopper.None? && w.stopped == w.pooled.Values
    ensures Over(w)
  {
    ExitedIsDrained(c, w.engine);
    forall client | client in w.sessions ensures w.sessions[client].ops == map[] {
      NoneInFlightAtStop(c, w, client);
    }
  }

  /** A client has ended if and only if the pool held it at the disconnection or an action disconnected it. */
  predicate EndedIffCalled(w: World) {
    forall client :: client in w.sessions ==>
      (Ended(w.sessions[client]) <==> client in w.pooled.Values || client in w.asked)
  }

  lemma OverIsExact(c: E.Config, w: World)
    requires EndInv(c, w) && Over(w)
    ensures EndedIffCalled(w)
  {
    forall client | client in w.sessions
      ensures Ended(w.sessions[client]) <==> client in w.pooled.Values || client in w.asked
    {
      assert Traced(w.sessions[client], Called(w, client));
    }
  }

  /**
    Main theorem. From every closed state of every run, unless the process is down, there is a continuation
    with no further submission in which every operation ends, every worker exits, every accepted batch is
    dequeued and every pooled client is disconnected once. In its end a client is shutting down with its
    stop channel closed if and only if it was pooled or an action disconnected it.
   */
  lemma EverythingCanEnd(c: E.Config, w: World, es: seq<Event>) returns (v: World)
    requires Start(c, w) && Admissible(c, w, es)
    requires After(c, w, es).engine.closed && !After(c, w, es).engine.crashed
    ensures CanReach(c, After(c, w, es), v) && Over(v) && EndedIffCalled(v)
  {
    var start := After(c, w, es);
    StartIsIdle(c, w);
    EndAlongRun(c, w, es);
    ReachItself(c, start);
    v := WorkersExit(c, start, start);
    v := PoolStarts(c, start, v);
    v := StopperReturns(c, start, v);
    v := PooledStop(c, start, v);
    StoppedIsOver(c, v);
    OverIsExact(c, v);
  }

  // ---- which clients are left behind ----

  /** A client added to the pool is in it for good, unless another of its ID is added later. */
  lemma {:induction false} LastAddedStays(c: E.Config, w: World, es: seq<Event>, client: E.Client)
    requires Admissible(c, w, es) && client.id in w.pooled && w.pooled[client.id] == client
    requires forall i :: 0 <= i < |es| && es[i].PoolAdd? ==> es[i].client.id != client.id
    ensures client.id in After(c, w, es).pooled && After(c, w, es).pooled[client.id] == client
    decreases es
  {
    if es != [] {
      LastAddedStays(c, Apply(c, w, es[0]), es[1..], client);
    }
  }

  /** The pool holds, for each ID, the client that was added last under it. */
  lemma PoolHoldsLastAdded(c: E.Config, w: World, client: E.Client, es: seq<Event>)
    requires Enabled(c, w, PoolAdd(client)) && Admissible(c, Apply(c, w, PoolAdd(client)), es)
    requires forall i :: 0 <= i < |es| && es[i].PoolAdd? ==> es[i].client.id != client.id
    ensures client in After(c, Apply(c, w, PoolAdd(client)), es).pooled.Values
  {
    LastAddedStays(c, Apply(c, w, PoolAdd(client)), es, client);
  }

  /** In every run that is over, exactly the clients that were pooled or disconnected by an action have ended. */
  lemma EndedExactly(c: E.Config, w: World, es: seq<Event>)
    requires Start(c, w) && Admissible(c, w, es) && Over(After(c, w, es))
    ensures EndedIffCalled(After(c, w, es))
    ensures var v := After(c, w, es);
            (forall client :: client in v.sessions ==> Ended(v.sessions[client]))
              <==> v.sessions.Keys <= v.pooled.Values + v.asked
  {
    StartIsIdle(c, w);
    EndAlongRun(c, w, es);
    OverIsExact(c, After(c, w, es));
  }

  /**
    Of two clients with one ID, as a static ID gives them, the final disconnection reaches at most one: when
    no action disconnects them, one at least is left running.
   */
  lemma OnePerIDEnds(c: E.Config, w: World, es: seq<Event>, a: E.Client, b: E.Client)
    requires Start(c, w) && Admissible(c, w, es) && Over(After(c, w, es))
    requires a in After(c, w, es).sessions && b in After(c, w, es).sessions && a != b && a.id == b.id
    requires a !in After(c, w, es).asked && b !in After(c, w, es).asked
    ensures !Ended(After(c, w, es).sessions[a]) || !Ended(After(c, w, es).sessions[b])
  {
    StartIsIdle(c, w);
    EndAlongRun(c, w, es);
    OverIsExact(c, After(c, w, es));
  }
}
