/**
  What executing an action does to its client, between the call of Execute and its return, in every run of
  the engine with its clients and with connection losses at any point. Everything is stated by the action,
  and by the topics the broker and the client's list hold.
 */
module CompositionEffects {
  import opened Wrappers
  import E = EngineModel
  import opened EI = EngineInvariants
  import M = MqttSession
  import opened Composition

  // ---- effects ----

  /** From one session to a later one both sides gained at most plus; without a loss they lost at most minus. */
  predicate ChangedBy(before: M.Session, now: M.Session, plus: set<string>, minus: set<string>) {
    && before.losses <= now.losses
    && now.broker <= before.broker + plus && M.TopicsOf(now.subs) <= M.TopicsOf(before.subs) + plus
    && (now.losses == before.losses ==>
          before.broker - minus <= now.broker && M.TopicsOf(before.subs) - minus <= M.TopicsOf(now.subs))
  }

  predicate Unchanged(before: M.Session, now: M.Session) {
    ChangedBy(before, now, {}, {})
  }

  /** Only the broker's side may have shrunk: what a Disconnect does, apart from the flags it raises. */
  predicate ListKept(before: M.Session, now: M.Session) {
    && before.losses <= now.losses
    && now.broker <= before.broker && M.TopicsOf(now.subs) <= M.TopicsOf(before.subs)
    && (now.losses == before.losses ==> M.TopicsOf(now.subs) == M.TopicsOf(before.subs))
  }

  /** What the action may have changed, whether or not it is over. */
  predicate EffectOf(a: E.Action, before: M.Session, now: M.Session) {
    match a.kind
    case Send => Unchanged(before, now)
    case Subscribe => ChangedBy(before, now, {a.target}, {})
    case Unsubscribe => ChangedBy(before, now, {}, {a.target})
    case Disconnect => ListKept(before, now)
  }

  /**
    What the action's result means. A Subscribe that succeeded had its topic listed when it ended, and has it
    still unless a loss came since; if the topic was new and no loss came at all, the broker holds it. An
    Unsubscribe that succeeded has its topic on neither side. One that failed changed nothing.
   */
  predicate ResultOf(a: E.Action, before: M.Session, now: M.Session, outcome: E.Outcome, endedIn: nat) {
    match a.kind
    case Send => outcome == E.Succeeded || outcome == E.Failed
    case Subscribe =>
      && endedIn <= now.losses
      && (outcome == E.Succeeded && endedIn == now.losses ==> a.target in M.TopicsOf(now.subs))
      && (outcome == E.Succeeded && now.losses == before.losses && a.target !in M.TopicsOf(before.subs) ==>
            a.target in now.broker)
      && (outcome == E.Failed ==> Unchanged(before, now))
      && (outcome == E.Succeeded || outcome == E.Failed)
    case Unsubscribe =>
      && (outcome == E.Succeeded ==> a.target !in now.broker && a.target !in M.TopicsOf(now.subs))
      && (outcome == E.Failed ==> Unchanged(before, now))
      && (outcome == E.Succeeded || outcome == E.Failed)
    case Disconnect => outcome == E.Succeeded && now.shuttingDown && now.stopClosed && now.broker == {}
  }

  // ---- how far an action is ----

  /** The operation is one of this action's, and the session is where that operation should have it. */
  predicate Underway(a: E.Action, before: M.Session, now: M.Session, op: M.Op) {
    match a.kind
    case Send => Unchanged(before, now) && (op.Publishing? || op.Done?)
    case Subscribe => SubscribeUnderway(a.target, before, now, op)
    case Unsubscribe => UnsubscribeUnderway(a.target, before, now, op)
    case Disconnect => ListKept(before, now) && DisconnectUnderway(now, op)
  }

  predicate SubscribeUnderway(topic: string, before: M.Session, now: M.Session, op: M.Op) {
    match op
    case SubCheck(t, _) => t == topic && Unchanged(before, now)
    case SubSent(t, _) =>
      t == topic && Unchanged(before, now) && topic !in M.TopicsOf(now.subs)
    case SubAcked(t, _, _) =>
      && t == topic && ChangedBy(before, now, {topic}, {})
      && (now.losses == before.losses ==> topic in now.broker)
    case Done(ok, endedIn) =>
      && ChangedBy(before, now, {topic}, {}) && endedIn <= now.losses
      && (ok && endedIn == now.losses ==> topic in M.TopicsOf(now.subs))
      && (ok && now.losses == before.losses && topic !in M.TopicsOf(before.subs) ==> topic in now.broker)
      && (!ok ==> Unchanged(before, now))
    case _ => false
  }

  predicate UnsubscribeUnderway(topic: string, before: M.Session, now: M.Session, op: M.Op) {
    match op
    case UnsubSent(t) => t == topic && Unchanged(before, now)
    case UnsubAcked(t) => t == topic && ChangedBy(before, now, {}, {topic}) && topic !in now.broker
    case Done(ok, _) =>
      && ChangedBy(before, now, {}, {topic})
      && (ok ==> topic !in now.broker && topic !in M.TopicsOf(now.subs))
      && (!ok ==> Unchanged(before, now))
    case _ => false
  }

  predicate DisconnectUnderway(now: M.Session, op: M.Op) {
    match op
    case DiscMark => true
    case DiscLook => now.shuttingDown
    case DiscClose => now.shuttingDown && !now.stopClosed
    case DiscLibrary => now.shuttingDown && now.stopClosed
    case Done(ok, _) => ok && now.shuttingDown && now.stopClosed && now.broker == {}
    case _ => false
  }

  // ---- one step of the session ----

  /** A step of the operation o itself, or of the network. */
  predicate OwnStep(s: M.Session, e: M.Event, o: nat) {
    M.Enabled(s, e) && !e.Call? && !e.Finish? && (e.Lose? || e.Reconnect? || e.o == o)
  }

  lemma SendKept(before: M.Session, s: M.Session, e: M.Event, o: nat)
    requires M.SoleCaller(s, o) && OwnStep(s, e, o)
    requires Unchanged(before, s) && (s.ops[o].Publishing? || s.ops[o].Done?)
    ensures o in M.Apply(s, e).ops && Unchanged(before, M.Apply(s, e))
    ensures M.Apply(s, e).ops[o].Publishing? || M.Apply(s, e).ops[o].Done?
  {
  }

  lemma SubscribeLoses(topic: string, before: M.Session, s: M.Session, e: M.Event, o: nat)
    requires M.SoleCaller(s, o) && OwnStep(s, e, o) && (e.Lose? || e.Reconnect?)
    requires SubscribeUnderway(topic, before, s, s.ops[o])
    ensures o in M.Apply(s, e).ops && SubscribeUnderway(topic, before, M.Apply(s, e), M.Apply(s, e).ops[o])
  {
  }

  lemma SubscribeAppends(topic: string, before: M.Session, s: M.Session, o: nat)
    requires M.SoleCaller(s, o) && M.Enabled(s, M.Commit(o))
    requires SubscribeUnderway(topic, before, s, s.ops[o])
    ensures SubscribeUnderway(topic, before, M.Apply(s, M.Commit(o)), M.Apply(s, M.Commit(o)).ops[o])
  {
    var op := s.ops[o];
    M.AppendedTopics(s.subs, M.Sub(op.topic, op.qos, op.epoch, s.losses));
  }

  lemma SubscribeMoves(topic: string, before: M.Session, s: M.Session, e: M.Event, o: nat)
    requires M.SoleCaller(s, o) && OwnStep(s, e, o) && !e.Lose? && !e.Reconnect? && !e.Commit?
    requires SubscribeUnderway(topic, before, s, s.ops[o])
    ensures o in M.Apply(s, e).ops && SubscribeUnderway(topic, before, M.Apply(s, e), M.Apply(s, e).ops[o])
  {
    M.FirstMatchFinds(s.subs, topic);
  }

  lemma UnsubscribeRemoves(topic: string, before: M.Session, s: M.Session, o: nat)
    requires M.SoleCaller(s, o) && M.Enabled(s, M.Commit(o)) && M.NoDuplicates(s.subs)
    requires UnsubscribeUnderway(topic, before, s, s.ops[o])
    ensures UnsubscribeUnderway(topic, before, M.Apply(s, M.Commit(o)), M.Apply(s, M.Commit(o)).ops[o])
  {
    M.RemovedTopics(s.subs, topic);
  }

  lemma UnsubscribeMoves(topic: string, before: M.Session, s: M.Session, e: M.Event, o: nat)
    requires M.SoleCaller(s, o) && OwnStep(s, e, o) && !e.Commit?
    requires UnsubscribeUnderway(topic, before, s, s.ops[o])
    ensures o in M.Apply(s, e).ops && UnsubscribeUnderway(topic, before, M.Apply(s, e), M.Apply(s, e).ops[o])
  {
  }

  lemma DisconnectMoves(before: M.Session, s: M.Session, e: M.Event, o: nat)
    requires M.SoleCaller(s, o) && OwnStep(s, e, o)
    requires ListKept(before, s) && DisconnectUnderway(s, s.ops[o])
    ensures o in M.Apply(s, e).ops && ListKept(before, M.Apply(s, e))
    ensures DisconnectUnderway(M.Apply(s, e), M.Apply(s, e).ops[o])
  {
  }

  lemma UnderwayKept(a: E.Action, before: M.Session, s: M.Session, e: M.Event, o: nat)
    requires M.SoleCaller(s, o) && OwnStep(s, e, o) && M.NoDuplicates(s.subs)
    requires Underway(a, before, s, s.ops[o])
    ensures o in M.Apply(s, e).ops && Underway(a, before, M.Apply(s, e), M.Apply(s, e).ops[o])
  {
    match a.kind
    case Send => SendKept(before, s, e, o);
    case Subscribe =>
      if e.Lose? || e.Reconnect? {
        SubscribeLoses(a.target, before, s, e, o);
      } else if e.Commit? {
        SubscribeAppends(a.target, before, s, o);
      } else {
        SubscribeMoves(a.target, before, s, e, o);
      }
    case Unsubscribe =>
      if e.Commit? {
        UnsubscribeRemoves(a.target, before, s, o);
      } else {
        UnsubscribeMoves(a.target, before, s, e, o);
      }
    case Disconnect => DisconnectMoves(before, s, e, o);
  }

  // ---- one step of the world ----

  /** Worker k is inside Execute with this action for this client. */
  predicate IsExecuting(w: World, k: nat, client: E.Client, a: E.Action) {
    Executing(w, k, client) && E.Current(w.engine.shards[k]) == a
  }

  ghost predicate Going(c: E.Config, w: World, k: nat, client: E.Client, a: E.Action, before: M.Session) {
    && WorldInv(c, w) && IsExecuting(w, k, client, a) && k < c.workers
    && client in w.sessions && k in w.sessions[client].ops
    && Underway(a, before, w.sessions[client], w.sessions[client].ops[k])
  }

  predicate ReturnsOf(ev: Event, k: nat) {
    ev.EngineEvent? && Returns(ev.e) && ev.e.w == k
  }

  lemma SoleOwner(s: M.Session, o: nat)
    requires M.SessionInv(s) && o in s.ops
    ensures M.SoleCaller(s, o) && M.NoDuplicates(s.subs)
  {
  }

  /** The world moves the client's session only by steps of its one operation and of the network. */
  lemma OnlyOwnSteps(c: E.Config, w: World, ev: Event, k: nat, client: E.Client)
    requires WorldInv(c, w) && Enabled(c, w, ev) && Executing(w, k, client) && k < c.workers
    requires client in w.sessions && k in w.sessions[client].ops && !ReturnsOf(ev, k)
    ensures client in Apply(c, w, ev).sessions
    ensures Apply(c, w, ev).sessions[client] == w.sessions[client]
            || (ev.ClientEvent? && ev.client == client && OwnStep(w.sessions[client], ev.step, k)
                && Apply(c, w, ev).sessions[client] == M.Apply(w.sessions[client], ev.step))
  {
    SoleOwner(w.sessions[client], k);
    match ev
    case EngineEvent(e) => EngineLeavesAlone(c, w, e, k, client);
    case ClientEvent(other, e) => if other == client { OwnedByCaller(w.sessions[client], e, k); }
    case PoolAdd(_) =>
    case StopCall(other) => NoneInFlightAtStop(c, w, other);
    case StopReturn =>
  }

  /** Another worker neither begins nor returns anything for the client. */
  lemma EngineLeavesAlone(c: E.Config, w: World, e: E.Event, k: nat, client: E.Client)
    requires WorldInv(c, w) && Enabled(c, w, EngineEvent(e)) && client in w.sessions
    requires M.SoleCaller(w.sessions[client], k) && !ReturnsOf(EngineEvent(e), k)
    ensures client in Apply(c, w, EngineEvent(e)).sessions
    ensures Apply(c, w, EngineEvent(e)).sessions[client] == w.sessions[client]
  {
    if Begins(e) {
      NoneInFlightAtBegin(c, w, e.w);
    } else {
      ReturnLeavesAlone(c, w, e, k, client);
    }
  }

  lemma ReturnLeavesAlone(c: E.Config, w: World, e: E.Event, k: nat, client: E.Client)
    requires Enabled(c, w, EngineEvent(e)) && !Begins(e) && client in w.sessions
    requires M.SoleCaller(w.sessions[client], k) && !ReturnsOf(EngineEvent(e), k)
    ensures client in Apply(c, w, EngineEvent(e)).sessions
    ensures Apply(c, w, EngineEvent(e)).sessions[client] == w.sessions[client]
  {
    M.OnlyKey(w.sessions[client].ops, k);
  }

  lemma OwnedByCaller(s: M.Session, e: M.Event, o: nat)
    requires M.SoleCaller(s, o) && M.Enabled(s, e) && !e.Call? && !e.Finish?
    ensures OwnStep(s, e, o)
  {
  }

  lemma StillExecuting(c: E.Config, w: World, ev: Event, k: nat, client: E.Client, a: E.Action)
    requires Enabled(c, w, ev) && IsExecuting(w, k, client, a) && k < c.workers && !ReturnsOf(ev, k)
    ensures IsExecuting(Apply(c, w, ev), k, client, a)
  {
    if ev.EngineEvent? {
      ExecutingStays(c, w.engine, ev.e, k);
    }
  }

  lemma GoesOn(c: E.Config, w: World, ev: Event, k: nat, client: E.Client, a: E.Action, before: M.Session)
    requires Going(c, w, k, client, a, before) && Enabled(c, w, ev) && !ReturnsOf(ev, k)
    ensures Going(c, Apply(c, w, ev), k, client, a, before)
  {
    WorldKept(c, w, ev);
    StillExecuting(c, w, ev, k, client, a);
    OnlyOwnSteps(c, w, ev, k, client);
    if Apply(c, w, ev).sessions[client] != w.sessions[client] {
      SoleOwner(w.sessions[client], k);
      UnderwayKept(a, before, w.sessions[client], ev.step, k);
    }
  }

  lemma {:induction false} GoesOnAlong(
    c: E.Config, w: World, es: seq<Event>, k: nat, client: E.Client, a: E.Action, before: M.Session)
    requires Going(c, w, k, client, a, before) && Admissible(c, w, es)
    requires forall i :: 0 <= i < |es| ==> !ReturnsOf(es[i], k)
    ensures Going(c, After(c, w, es), k, client, a, before)
    decreases es
  {
    if es != [] {
      GoesOn(c, w, es[0], k, client, a, before);
      GoesOnAlong(c, Apply(c, w, es[0]), es[1..], k, client, a, before);
    }
  }

  // ---- from begin to return ----

  function BeginOf(k: nat): Event { EngineEvent(E.Work(k, E.Begin)) }

  /** The call of Execute starts the operation the action names, on a session with none. */
  lemma StartsUnderway(a: E.Action, s: M.Session, k: nat)
    requires s.ops == map[]
    ensures M.Enabled(s, M.Call(k, OperationOf(a)))
    ensures var t := M.Apply(s, M.Call(k, OperationOf(a))); k in t.ops && Underway(a, s, t, t.ops[k])
  {
  }

  lemma BeginGoes(c: E.Config, w: World, k: nat)
    requires WorldInv(c, w) && Enabled(c, w, BeginOf(k))
    ensures var client := ClientAt(w, k);
            Going(c, Apply(c, w, BeginOf(k)), k, client, E.Current(w.engine.shards[k]), w.sessions[client])
  {
    NoneInFlightAtBegin(c, w, k);
    StartsUnderway(E.Current(w.engine.shards[k]), w.sessions[ClientAt(w, k)], k);
    BeginExecutes(c, w.engine, k);
    WorldKept(c, w, BeginOf(k));
    BeginKeepsAction(c, w.engine, k);
  }

  lemma BeginKeepsAction(c: E.Config, s: E.State, k: nat)
    requires E.Enabled(c, s, E.Work(k, E.Begin))
    ensures E.Current(E.Apply(c, s, E.Work(k, E.Begin)).shards[k]) == E.Current(s.shards[k])
  {
  }

  lemma UnderwayHasEffect(a: E.Action, before: M.Session, now: M.Session, op: M.Op)
    requires Underway(a, before, now, op)
    ensures EffectOf(a, before, now)
  {
  }

  lemma ResultFollows(a: E.Action, before: M.Session, now: M.Session, op: M.Op, outcome: E.Outcome)
    requires Underway(a, before, now, op) && Yields(op, outcome)
    ensures op.Done? && ResultOf(a, before, now, outcome, op.endedIn)
  {
  }

  /** From worker k about to begin an action to a later world: its effect so far, and any result it can return. */
  ghost predicate Accounted(c: E.Config, u: World, v: World, k: nat)
    requires k < |u.engine.shards| && u.engine.shards[k].worker.Busy?
    requires u.engine.shards[k].worker.done < |u.engine.shards[k].worker.batch.actions|
  {
    var client, a := ClientAt(u, k), E.Current(u.engine.shards[k]);
    && client in u.sessions && client in v.sessions && k in v.sessions[client].ops
    && EffectOf(a, u.sessions[client], v.sessions[client])
    && MeansResult(c, v, k, a, u.sessions[client], v.sessions[client])
  }

  /** Every outcome worker k can return with means what ResultOf says. */
  ghost predicate MeansResult(c: E.Config, v: World, k: nat, a: E.Action, before: M.Session, now: M.Session) {
    forall outcome :: Enabled(c, v, EngineEvent(E.Work(k, E.Return(outcome)))) ==>
      k in now.ops && now.ops[k].Done? && ResultOf(a, before, now, outcome, now.ops[k].endedIn)
  }

  /**
    Main theorem. In every run, from the call of Execute for an action and up to its return, with anything
    else happening in between: apart from losses, a Subscribe changes what its client holds on either side
    only by adding its topic, an Unsubscribe only by removing it, and a Send not at all. When it can
    return, the outcome it returns with means what ResultOf says.
   */
  lemma ActionEffect(c: E.Config, w: World, es: seq<Event>, k: nat, more: seq<Event>)
    requires Start(c, w) && Admissible(c, w, es) && Enabled(c, After(c, w, es), BeginOf(k))
    requires Admissible(c, Apply(c, After(c, w, es), BeginOf(k)), more)
    requires forall i :: 0 <= i < |more| ==> !ReturnsOf(more[i], k)
    ensures Accounted(c, After(c, w, es), After(c, Apply(c, After(c, w, es), BeginOf(k)), more), k)
  {
    RunHolds(c, w, es);
    EffectFromBegin(c, After(c, w, es), k, more);
  }

  lemma EffectFromBegin(c: E.Config, u: World, k: nat, more: seq<Event>)
    requires WorldInv(c, u) && Enabled(c, u, BeginOf(k)) && Admissible(c, Apply(c, u, BeginOf(k)), more)
    requires forall i :: 0 <= i < |more| ==> !ReturnsOf(more[i], k)
    ensures Accounted(c, u, After(c, Apply(c, u, BeginOf(k)), more), k)
  {
    BeginGoes(c, u, k);
    EffectAlong(c, u, Apply(c, u, BeginOf(k)), k, more);
  }

  /** Since worker k began its action in u, and until v, the action is going on. */
  ghost predicate GoingSince(c: E.Config, u: World, v: World, k: nat) {
    && k < |u.engine.shards| && u.engine.shards[k].worker.Busy?
    && u.engine.shards[k].worker.done < |u.engine.shards[k].worker.batch.actions|
    && ClientAt(u, k) in u.sessions
    && Going(c, v, k, ClientAt(u, k), E.Current(u.engine.shards[k]), u.sessions[ClientAt(u, k)])
  }

  lemma EffectAlong(c: E.Config, u: World, v: World, k: nat, more: seq<Event>)
    requires GoingSince(c, u, v, k) && Admissible(c, v, more)
    requires forall i :: 0 <= i < |more| ==> !ReturnsOf(more[i], k)
    ensures Accounted(c, u, After(c, v, more), k)
  {
    GoesOnAlong(c, v, more, k, ClientAt(u, k), E.Current(u.engine.shards[k]), u.sessions[ClientAt(u, k)]);
    GoingAccounts(c, u, After(c, v, more), k);
  }

  lemma GoingAccounts(c: E.Config, u: World, v: World, k: nat)
    requires GoingSince(c, u, v, k)
    ensures Accounted(c, u, v, k)
  {
    ReturnMeans(c, v, k, ClientAt(u, k), E.Current(u.engine.shards[k]), u.sessions[ClientAt(u, k)]);
  }

  lemma ReturnMeans(c: E.Config, v: World, k: nat, client: E.Client, a: E.Action, before: M.Session)
    requires Going(c, v, k, client, a, before)
    ensures EffectOf(a, before, v.sessions[client]) && MeansResult(c, v, k, a, before, v.sessions[client])
  {
    UnderwayHasEffect(a, before, v.sessions[client], v.sessions[client].ops[k]);
    forall outcome | Enabled(c, v, EngineEvent(E.Work(k, E.Return(outcome))))
      ensures v.sessions[client].ops[k].Done?
              && ResultOf(a, before, v.sessions[client], outcome, v.sessions[client].ops[k].endedIn)
    {
      ResultFollows(a, before, v.sessions[client], v.sessions[client].ops[k], outcome);
    }
  }

  // ---- what is reported ----

  /** The answer the network gives to an operation, when this step is one. */
  predicate Answers(e: M.Event, ok: bool) {
    (e.PublishEnd? && e.ok == ok) || (e.Nack? && !ok)
  }

  /** A Send reports what the library answered, and a refused call of the broker is reported as a failure. */
  lemma AnswerReported(c: E.Config, w: World, k: nat, client: E.Client, e: M.Event, ok: bool, outcome: E.Outcome)
    requires Enabled(c, w, ClientEvent(client, e)) && Answers(e, ok) && e.o == k && outcome != E.Skipped
    requires E.Shaped(c, w.engine) && k < c.workers && Executing(w, k, client)
    ensures Enabled(c, Apply(c, w, ClientEvent(client, e)), EngineEvent(E.Work(k, E.Return(outcome)))) <==>
              outcome == if ok then E.Succeeded else E.Failed
  {
  }

  // ---- the step that ends a Subscribe ----

  lemma SubscribeEnds(topic: string, before: M.Session, s: M.Session, e: M.Event, o: nat)
    requires M.SoleCaller(s, o) && OwnStep(s, e, o) && SubscribeUnderway(topic, before, s, s.ops[o])
    requires !s.ops[o].Done? && o in M.Apply(s, e).ops && M.Apply(s, e).ops[o].Done?
    ensures var now := M.Apply(s, e);
            && now.ops[o].endedIn == now.losses
            && (now.ops[o].ok ==> topic in M.TopicsOf(now.subs))
  {
    if e.Commit? {
      SubscribeAppends(topic, before, s, o);
    } else if !e.Lose? && !e.Reconnect? {
      SubscribeMoves(topic, before, s, e, o);
    }
  }

  /** endedIn is the losses at the very step that ended the operation, and then a Subscribe's topic is listed. */
  lemma EndOfSubscribe(c: E.Config, w: World, ev: Event, k: nat, client: E.Client, a: E.Action, before: M.Session)
    requires Going(c, w, k, client, a, before) && a.kind == E.Subscribe
    requires Enabled(c, w, ev) && !ReturnsOf(ev, k) && client in Apply(c, w, ev).sessions
    requires k in Apply(c, w, ev).sessions[client].ops
    requires !w.sessions[client].ops[k].Done? && Apply(c, w, ev).sessions[client].ops[k].Done?
    ensures var now := Apply(c, w, ev).sessions[client];
            && now.ops[k].endedIn == now.losses
            && (now.ops[k].ok ==> a.target in M.TopicsOf(now.subs))
  {
    OnlyOwnSteps(c, w, ev, k, client);
    SoleOwner(w.sessions[client], k);
    SubscribeEnds(a.target, before, w.sessions[client], ev.step, k);
  }
}
