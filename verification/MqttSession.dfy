/**
  One MQTT client between the engine and the broker. The operations release the client's lock around
  the broker call, so each is a sequence of steps, and a connection loss can fall between any two of
  them. Operations are keyed by their caller: nothing in the client itself stops two callers at once.
 */
module MqttSession {

  /**
    An entry of the local list. The two stamps are history: how many connection losses had happened
    when the broker acknowledged the subscription, and when the entry was appended.
   */
  datatype Sub = Sub(topic: string, qos: nat, ackedIn: nat, appendedIn: nat)

  /** endedIn: how many losses there had been when the operation ended. */
  datatype Op =
    | SubCheck(topic: string, qos: nat)
    | SubSent(topic: string, qos: nat)
    | SubAcked(topic: string, qos: nat, epoch: nat)
    | UnsubSent(topic: string)
    | UnsubAcked(topic: string)
    | Publishing
    | DiscMark
    | DiscLook
    | DiscClose
    | DiscLibrary
    | Done(ok: bool, endedIn: nat)
    | Dead

  /** broker: the topics the broker holds for this client; losses: connection losses so far. */
  datatype Session = Session(
    subs: seq<Sub>, shuttingDown: bool, stopClosed: bool, doubleClosed: bool,
    connected: bool, broker: set<string>, losses: nat, ops: map<nat, Op>)

  datatype Event =
    | Call(o: nat, op: Op)
    | Check(o: nat)
    | Ack(o: nat)
    | Nack(o: nat)
    | Commit(o: nat)
    | PublishEnd(o: nat, ok: bool)
    | Mark(o: nat)
    | Look(o: nat)
    | CloseStop(o: nat)
    | LibraryDisconnect(o: nat)
    | Finish(o: nat)
    | Lose
    | Reconnect

  const FRESH := Session([], false, false, false, true, {}, 0, map[])

  predicate IsEntry(op: Op) {
    op.SubCheck? || op.UnsubSent? || op.Publishing? || op.DiscMark?
  }

  function TopicsOf(subs: seq<Sub>): set<string> {
    set i | 0 <= i < |subs| :: subs[i].topic
  }

  /** Position of the first entry with this topic, the length when there is none. */
  function FirstMatch(subs: seq<Sub>, topic: string): (i: nat)
    ensures i <= |subs|
    ensures i < |subs| ==> subs[i].topic == topic
    ensures forall j :: 0 <= j < i ==> subs[j].topic != topic
  {
    if subs == [] || subs[0].topic == topic then 0 else 1 + FirstMatch(subs[1..], topic)
  }

  function RemoveFirst(subs: seq<Sub>, topic: string): seq<Sub> {
    var i := FirstMatch(subs, topic);
    if i < |subs| then subs[..i] + subs[i + 1..] else subs
  }

  predicate Enabled(s: Session, e: Event) {
    match e
    case Call(o, op) => o !in s.ops && IsEntry(op)
    case Check(o) => o in s.ops && s.ops[o].SubCheck?
    case Ack(o) => o in s.ops && (s.ops[o].SubSent? || s.ops[o].UnsubSent?) && s.connected
    case Nack(o) => o in s.ops && (s.ops[o].SubSent? || s.ops[o].UnsubSent?)
    case Commit(o) => o in s.ops && (s.ops[o].SubAcked? || s.ops[o].UnsubAcked?)
    case PublishEnd(o, _) => o in s.ops && s.ops[o].Publishing?
    case Mark(o) => o in s.ops && s.ops[o].DiscMark?
    case Look(o) => o in s.ops && s.ops[o].DiscLook?
    case CloseStop(o) => o in s.ops && s.ops[o].DiscClose?
    case LibraryDisconnect(o) => o in s.ops && s.ops[o].DiscLibrary?
    case Finish(o) => o in s.ops && (s.ops[o].Done? || s.ops[o].Dead?)
    case Lose => s.connected
    case Reconnect => !s.connected
  }

  function SetOp(s: Session, o: nat, op: Op): Session {
    s.(ops := s.ops[o := op])
  }

  /**
    An acknowledgement is the moment the broker's own set changes. A loss empties the broker's set
    (clean session) and, unless the client is shutting down, the local list, in one step.
   */
  function Apply(s: Session, e: Event): Session
    requires Enabled(s, e)
  {
    match e
    case Call(o, op) => SetOp(s, o, op)
    case Check(o) =>
      var op := s.ops[o];
      if FirstMatch(s.subs, op.topic) < |s.subs| then SetOp(s, o, Done(true, s.losses))
      else SetOp(s, o, SubSent(op.topic, op.qos))
    case Ack(o) =>
      var op := s.ops[o];
      if op.SubSent? then
        SetOp(s, o, SubAcked(op.topic, op.qos, s.losses)).(broker := s.broker + {op.topic})
      else
        SetOp(s, o, UnsubAcked(op.topic)).(broker := s.broker - {op.topic})
    case Nack(o) => SetOp(s, o, Done(false, s.losses))
    case Commit(o) =>
      var op := s.ops[o];
      if op.SubAcked? then
        SetOp(s, o, Done(true, s.losses)).(subs := s.subs + [Sub(op.topic, op.qos, op.epoch, s.losses)])
      else
        SetOp(s, o, Done(true, s.losses)).(subs := RemoveFirst(s.subs, op.topic))
    case PublishEnd(o, ok) => SetOp(s, o, Done(ok, s.losses))
    case Mark(o) => SetOp(s, o, DiscLook).(shuttingDown := true)
    case Look(o) => SetOp(s, o, if s.stopClosed then DiscLibrary else DiscClose)
    case CloseStop(o) =>
      if s.stopClosed then SetOp(s, o, Dead).(doubleClosed := true)
      else SetOp(s, o, DiscLibrary).(stopClosed := true)
    case LibraryDisconnect(o) => SetOp(s, o, Done(true, s.losses)).(connected := false, broker := {})
    case Finish(o) => s.(ops := s.ops - {o})
    case Lose =>
      s.(connected := false, broker := {}, losses := s.losses + 1,
         subs := if s.shuttingDown then s.subs else [])
    case Reconnect => s.(connected := true)
  }

  /** Operations come from Call and go with Finish. */
  lemma CallersAfter(s: Session, e: Event)
    requires Enabled(s, e)
    ensures Apply(s, e).ops.Keys ==
              if e.Call? then s.ops.Keys + {e.o} else if e.Finish? then s.ops.Keys - {e.o} else s.ops.Keys
  {
  }

  // ---- what one caller at a time guarantees ----

  predicate NoDuplicates(subs: seq<Sub>) {
    forall i, j :: 0 <= i < j < |subs| ==> subs[i].topic != subs[j].topic
  }

  /** Acknowledged before the last connection loss and appended after it. */
  predicate Stale(s: Session, sub: Sub) {
    sub.ackedIn < s.losses == sub.appendedIn
  }

  /** The topic whose change at the broker has not reached the local list yet. */
  predicate Pending(op: Op, topic: string) {
    (op.SubAcked? || op.UnsubAcked?) && op.topic == topic
  }

  predicate OpInv(s: Session, op: Op) {
    match op
    case SubSent(topic, _) => topic !in TopicsOf(s.subs)
    case SubAcked(topic, _, epoch) =>
      topic !in TopicsOf(s.subs) && epoch <= s.losses && (topic in s.broker <==> epoch == s.losses)
    case UnsubAcked(topic) => topic !in s.broker
    case DiscLook => s.shuttingDown
    case DiscClose => s.shuttingDown && !s.stopClosed
    case DiscLibrary => s.shuttingDown
    case Dead => false
    case _ => true
  }

  predicate BrokerWithinList(s: Session, op: Op) {
    forall t :: t in s.broker ==> t in TopicsOf(s.subs) || Pending(op, t)
  }

  /** While not shutting down: who may be missing at the broker, and how many. */
  predicate ListWithinBroker(s: Session, op: Op) {
    && (forall i :: 0 <= i < |s.subs| ==>
          && s.subs[i].ackedIn <= s.losses == s.subs[i].appendedIn
          && (s.subs[i].ackedIn < s.losses ==> s.subs[i].topic !in s.broker)
          && (s.subs[i].topic !in s.broker ==> s.subs[i].ackedIn < s.losses || Pending(op, s.subs[i].topic)))
    && (forall i, j :: 0 <= i < j < |s.subs| ==>
          s.subs[i].ackedIn == s.losses || s.subs[j].ackedIn == s.losses)
    && (op.SubAcked? && op.epoch < s.losses ==>
          forall i :: 0 <= i < |s.subs| ==> s.subs[i].ackedIn == s.losses)
  }

  predicate Core(s: Session, op: Op) {
    && NoDuplicates(s.subs) && !s.doubleClosed
    && (!s.connected ==> s.broker == {})
    && OpInv(s, op)
    && BrokerWithinList(s, op)
    && (!s.shuttingDown ==> ListWithinBroker(s, op))
  }

  const NO_OP := Done(true, 0)

  predicate SoleCaller(s: Session, o: nat) {
    o in s.ops && s.ops == map[o := s.ops[o]]
  }

  ghost predicate SessionInv(s: Session) {
    || (s.ops == map[] && Core(s, NO_OP))
    || (exists o :: SoleCaller(s, o) && Core(s, s.ops[o]))
  }

  lemma FreshHolds()
    ensures SessionInv(FRESH)
  {
  }

  // ---- steps ----

  lemma AckKept(s: Session, o: nat)
    requires SoleCaller(s, o) && Core(s, s.ops[o]) && Enabled(s, Ack(o))
    ensures Core(Apply(s, Ack(o)), Apply(s, Ack(o)).ops[o])
  {
  }

  lemma AppendedTopics(subs: seq<Sub>, sub: Sub)
    ensures TopicsOf(subs + [sub]) == TopicsOf(subs) + {sub.topic}
  {
    var more := subs + [sub];
    forall t | t in TopicsOf(subs) + {sub.topic} ensures t in TopicsOf(more) {
      if t == sub.topic {
        assert more[|subs|].topic == t;
      } else {
        var i :| 0 <= i < |subs| && subs[i].topic == t;
        assert more[i].topic == t;
      }
    }
  }

  /** With no duplicates, removing the first match removes the topic. */
  lemma RemovedTopics(subs: seq<Sub>, topic: string)
    requires NoDuplicates(subs)
    ensures TopicsOf(RemoveFirst(subs, topic)) == TopicsOf(subs) - {topic}
    ensures NoDuplicates(RemoveFirst(subs, topic))
    ensures forall i :: 0 <= i < |RemoveFirst(subs, topic)| ==> RemoveFirst(subs, topic)[i].topic != topic
  {
    var k := FirstMatch(subs, topic);
    var rest := RemoveFirst(subs, topic);
    forall t | t in TopicsOf(subs) - {topic} ensures t in TopicsOf(rest) {
      var i :| 0 <= i < |subs| && subs[i].topic == t;
      assert rest[if i < k then i else i - 1].topic == t;
    }
  }

  /** The other entries stay, with all that is recorded of them. */
  lemma RemovedEntries(subs: seq<Sub>, topic: string)
    requires NoDuplicates(subs)
    ensures forall sub :: sub in RemoveFirst(subs, topic) <==> sub in subs && sub.topic != topic
  {
    var k := FirstMatch(subs, topic);
    var rest := RemoveFirst(subs, topic);
    forall sub | sub in subs && sub.topic != topic ensures sub in rest {
      var i :| 0 <= i < |subs| && subs[i] == sub;
      assert rest[if i < k then i else i - 1] == sub;
    }
  }

  lemma AppendKept(s: Session, o: nat)
    requires SoleCaller(s, o) && Core(s, s.ops[o]) && s.ops[o].SubAcked?
    ensures Core(Apply(s, Commit(o)), Apply(s, Commit(o)).ops[o])
  {
    var op := s.ops[o];
    AppendedTopics(s.subs, Sub(op.topic, op.qos, op.epoch, s.losses));
  }

  lemma RemoveKept(s: Session, o: nat)
    requires SoleCaller(s, o) && Core(s, s.ops[o]) && s.ops[o].UnsubAcked?
    ensures Core(Apply(s, Commit(o)), Apply(s, Commit(o)).ops[o])
  {
    RemovedTopics(s.subs, s.ops[o].topic);
    if !s.shuttingDown {
      RemovedWithinBroker(s, s.ops[o]);
    }
  }

  lemma RemovedWithinBroker(s: Session, op: Op)
    requires ListWithinBroker(s, op) && op.UnsubAcked? && NoDuplicates(s.subs)
    ensures ListWithinBroker(s.(subs := RemoveFirst(s.subs, op.topic)), NO_OP)
  {
    RemovedTopics(s.subs, op.topic);
  }

  /** The scan of Subscribe finds a topic exactly when the list holds it. */
  lemma FirstMatchFinds(subs: seq<Sub>, topic: string)
    ensures FirstMatch(subs, topic) < |subs| <==> topic in TopicsOf(subs)
  {
    if topic in TopicsOf(subs) {
      var i :| 0 <= i < |subs| && subs[i].topic == topic;
    }
  }

  lemma CheckKept(s: Session, o: nat)
    requires SoleCaller(s, o) && Core(s, s.ops[o]) && s.ops[o].SubCheck?
    ensures Core(Apply(s, Check(o)), Apply(s, Check(o)).ops[o])
  {
    FirstMatchFinds(s.subs, s.ops[o].topic);
  }

  lemma LoseKept(s: Session, op: Op)
    requires Core(s, op) && s.connected
    ensures Core(Apply(s, Lose), op)
  {
  }

  lemma ReplyKept(s: Session, e: Event, o: nat)
    requires SoleCaller(s, o) && Core(s, s.ops[o]) && Enabled(s, e)
    requires e == Nack(o) || (e.PublishEnd? && e.o == o)
    ensures Core(Apply(s, e), Apply(s, e).ops[o])
  {
  }

  lemma DisconnectKept(s: Session, e: Event, o: nat)
    requires SoleCaller(s, o) && Core(s, s.ops[o]) && Enabled(s, e)
    requires e == Mark(o) || e == Look(o) || e == CloseStop(o) || e == LibraryDisconnect(o)
    ensures Core(Apply(s, e), Apply(s, e).ops[o])
  {
  }

  function OwnerOf(e: Event): nat
    requires !e.Lose? && !e.Reconnect?
  {
    e.o
  }

  lemma OpStepKept(s: Session, e: Event, o: nat)
    requires SoleCaller(s, o) && Core(s, s.ops[o]) && Enabled(s, e)
    requires !e.Call? && !e.Finish? && !e.Lose? && !e.Reconnect?
    ensures Core(Apply(s, e), Apply(s, e).ops[o])
  {
    assert OwnerOf(e) == o;
    match e
    case Ack(_) => AckKept(s, o);
    case Check(_) => CheckKept(s, o);
    case Commit(_) => if s.ops[o].SubAcked? { AppendKept(s, o); } else { RemoveKept(s, o); }
    case Nack(_) => ReplyKept(s, e, o);
    case PublishEnd(_, _) => ReplyKept(s, e, o);
    case _ => DisconnectKept(s, e, o);
  }

  lemma StillSole(s: Session, e: Event, o: nat)
    requires SoleCaller(s, o) && Enabled(s, e) && !e.Call? && !e.Finish?
    ensures SoleCaller(Apply(s, e), o)
  {
    CallersAfter(s, e);
    OnlyKey(s.ops, o);
    OnlyKey(Apply(s, e).ops, o);
  }

  lemma OnlyKey(ops: map<nat, Op>, o: nat)
    ensures ops.Keys == {o} <==> o in ops && ops == map[o := ops[o]]
  {
    if ops.Keys == {o} {
      assert ops == map[o := ops[o]];
    }
  }

  lemma IdleKept(s: Session, e: Event)
    requires s.ops == map[] && Core(s, NO_OP) && Enabled(s, e)
    ensures SessionInv(Apply(s, e))
  {
    match e
    case Call(o, op) => assert SoleCaller(Apply(s, e), o) && Core(Apply(s, e), op);
    case Lose => LoseKept(s, NO_OP);
    case _ =>
  }

  lemma BusyKept(s: Session, e: Event, o: nat)
    requires SoleCaller(s, o) && Core(s, s.ops[o]) && Enabled(s, e) && !e.Call?
    ensures SessionInv(Apply(s, e))
  {
    if e.Finish? {
      assert Apply(s, e).ops == map[];
    } else {
      StillSole(s, e, o);
      if e.Lose? {
        LoseKept(s, s.ops[o]);
      } else if !e.Reconnect? {
        OpStepKept(s, e, o);
      }
    }
  }

  /** The only thing asked of the callers is one operation at a time. */
  lemma SessionKept(s: Session, e: Event)
    requires SessionInv(s) && Enabled(s, e)
    requires e.Call? ==> s.ops == map[]
    ensures SessionInv(Apply(s, e))
  {
    if s.ops == map[] {
      IdleKept(s, e);
    } else {
      var o :| SoleCaller(s, o) && Core(s, s.ops[o]);
      BusyKept(s, e, o);
    }
  }

  // ---- sessions whose operations never overlap ----

  predicate OneAtATime(s: Session, e: Event) {
    Enabled(s, e) && (e.Call? ==> s.ops == map[])
  }

  ghost predicate IsSerialRun(states: seq<Session>, es: seq<Event>) {
    && |states| == |es| + 1 && states[0] == FRESH
    && forall i {:trigger es[i]} :: 0 <= i < |es| ==>
         OneAtATime(states[i], es[i]) && states[i + 1] == Apply(states[i], es[i])
  }

  /** The sessions a single caller can bring about, with losses and reconnections at any point. */
  ghost predicate Serialised(s: Session) {
    exists states, es :: IsSerialRun(states, es) && states[|es|] == s
  }

  lemma FreshIsSerialised()
    ensures Serialised(FRESH)
  {
    assert IsSerialRun([FRESH], []);
  }

  lemma SerialisedNext(s: Session, e: Event)
    requires Serialised(s) && OneAtATime(s, e)
    ensures Serialised(Apply(s, e))
  {
    var states, es :| IsSerialRun(states, es) && states[|es|] == s;
    var states', es' := states + [Apply(s, e)], es + [e];
    forall i {:trigger es'[i]} | 0 <= i < |es'|
      ensures OneAtATime(states'[i], es'[i]) && states'[i + 1] == Apply(states'[i], es'[i])
    {
      if i < |es| {
        assert es'[i] == es[i];
      }
    }
    assert IsSerialRun(states', es') && states'[|es'|] == Apply(s, e);
  }

  lemma {:induction false} SerialRunHolds(states: seq<Session>, es: seq<Event>, n: nat)
    requires IsSerialRun(states, es) && n <= |es|
    ensures SessionInv(states[n])
  {
    if n == 0 {
      FreshHolds();
    } else {
      SerialRunHolds(states, es, n - 1);
      assert OneAtATime(states[n - 1], es[n - 1]);
      SessionKept(states[n - 1], es[n - 1]);
    }
  }

  lemma SerialisedHolds(s: Session)
    requires Serialised(s)
    ensures SessionInv(s)
  {
    var states, es :| IsSerialRun(states, es) && states[|es|] == s;
    SerialRunHolds(states, es, |es|);
  }

  // ---- consequences ----

  predicate SubscriptionInFlight(op: Op) {
    op.SubCheck? || op.SubSent? || op.SubAcked? || op.UnsubSent? || op.UnsubAcked?
  }

  predicate Quiet(s: Session) {
    forall o :: o in s.ops ==> !SubscriptionInFlight(s.ops[o])
  }

  /** Everything the broker holds is listed; what is listed and not held is stale, and at most one. */
  predicate Agrees(s: Session) {
    && s.broker <= TopicsOf(s.subs)
    && (forall i :: 0 <= i < |s.subs| ==> (s.subs[i].topic !in s.broker <==> Stale(s, s.subs[i])))
    && (forall i, j :: 0 <= i < j < |s.subs| ==> s.subs[i].topic in s.broker || s.subs[j].topic in s.broker)
  }

  lemma QuietAgrees(s: Session)
    requires SessionInv(s) && Quiet(s) && !s.shuttingDown
    ensures Agrees(s)
  {
    if s.ops == map[] {
      AgreesUnder(s, NO_OP);
    } else {
      var o :| SoleCaller(s, o) && Core(s, s.ops[o]);
      AgreesUnder(s, s.ops[o]);
    }
  }

  lemma AgreesUnder(s: Session, op: Op)
    requires Core(s, op) && !SubscriptionInFlight(op) && !s.shuttingDown
    ensures Agrees(s)
  {
  }

  // ---- runs that show what can happen ----

  predicate Admissible(s: Session, es: seq<Event>)
    decreases |es|, 0
  {
    es == [] || (Admissible(s, es[..|es| - 1]) && Enabled(After(s, es[..|es| - 1]), es[|es| - 1]))
  }

  function After(s: Session, es: seq<Event>): Session
    requires Admissible(s, es)
    decreases |es|, 1
  {
    if es == [] then s else Apply(After(s, es[..|es| - 1]), es[|es| - 1])
  }

  /** Some run of a fresh client, with any callers, ends in this session. */
  ghost predicate Happens(t: Session) {
    exists es :: Admissible(FRESH, es) && After(FRESH, es) == t
  }

  lemma FreshHappens()
    ensures Happens(FRESH)
  {
    assert Admissible(FRESH, []) && After(FRESH, []) == FRESH;
  }

  lemma Move(t: Session, e: Event, u: Session)
    requires Happens(t) && Enabled(t, e) && Apply(t, e) == u
    ensures Happens(u)
  {
    var es :| Admissible(FRESH, es) && After(FRESH, es) == t;
    var more := es + [e];
    assert more[..|more| - 1] == es;
    assert Admissible(FRESH, more) && After(FRESH, more) == u;
  }

  function One(base: Session, a: Op): Session { base.(ops := map[0 := a]) }

  function Two(base: Session, a: Op, b: Op): Session { base.(ops := map[0 := a, 1 := b]) }

  lemma SetOne(base: Session, a: Op, b: Op)
    ensures SetOp(One(base, a), 0, b) == One(base, b)
  {
    assert map[0 := a][0 := b] == map[0 := b];
  }

  lemma SetTwo(base: Session, a: Op, b: Op, c: Op)
    ensures SetOp(Two(base, a, b), 0, c) == Two(base, c, b)
    ensures SetOp(Two(base, a, b), 1, c) == Two(base, a, c)
  {
    assert map[0 := a, 1 := b][0 := c] == map[0 := c, 1 := b];
    assert map[0 := a, 1 := b][1 := c] == map[0 := a, 1 := c];
  }

  lemma OneCalls(a: Op)
    requires IsEntry(a)
    ensures Happens(One(FRESH, a))
  {
    FreshHappens();
    assert map[][0 := a] == map[0 := a];
    Move(FRESH, Call(0, a), One(FRESH, a));
  }

  lemma TwoCall(a: Op, b: Op)
    requires IsEntry(a) && IsEntry(b)
    ensures Happens(Two(FRESH, a, b))
  {
    OneCalls(a);
    assert map[0 := a][1 := b] == map[0 := a, 1 := b];
    Move(One(FRESH, a), Call(1, b), Two(FRESH, a, b));
  }

  /** The first caller has its acknowledgement, and the connection was lost and is back. */
  lemma AckThenLoss(topic: string, qos: nat)
    ensures Happens(One(FRESH.(losses := 1), SubAcked(topic, qos, 0)))
  {
    var check, sent, acked := SubCheck(topic, qos), SubSent(topic, qos), SubAcked(topic, qos, 0);
    OneCalls(check);
    SetOne(FRESH, check, sent);
    Move(One(FRESH, check), Check(0), One(FRESH, sent));
    var held := FRESH.(broker := {topic});
    SetOne(FRESH, sent, acked);
    Move(One(FRESH, sent), Ack(0), One(held, acked));
    var lost := FRESH.(losses := 1, connected := false);
    Move(One(held, acked), Lose, One(lost, acked));
    Move(One(lost, acked), Reconnect, One(FRESH.(losses := 1), acked));
  }

  /**
    The stale topic is real: a loss between the acknowledgement and the append leaves a topic in the
    list that the broker does not hold, and the next Subscribe of it succeeds without asking the broker.
   */
  lemma StaleTopicHappens(topic: string, qos: nat) returns (t: Session)
    ensures Happens(t)
    ensures t.subs == [Sub(topic, qos, 0, 1)] && t.broker == {} && t.connected
    ensures Enabled(t, Call(0, SubCheck(topic, qos)))
    ensures Apply(Apply(t, Call(0, SubCheck(topic, qos))), Check(0)) == One(t, Done(true, 1))
  {
    AckThenLoss(topic, qos);
    var back, acked := FRESH.(losses := 1), SubAcked(topic, qos, 0);
    t := back.(subs := [Sub(topic, qos, 0, 1)]);
    SetOne(back, acked, Done(true, 1));
    Move(One(back, acked), Commit(0), One(t, Done(true, 1)));
    assert map[0 := Done(true, 1)] - {0} == map[];
    Move(One(t, Done(true, 1)), Finish(0), t);
    assert map[][0 := SubCheck(topic, qos)] == map[0 := SubCheck(topic, qos)];
    SetOne(t, SubCheck(topic, qos), Done(true, 1));
  }

  /** Both callers have looked for the topic before either of them appends it. */
  lemma BothAcked(topic: string, qos: nat)
    ensures Happens(Two(FRESH.(broker := {topic}), SubAcked(topic, qos, 0), SubAcked(topic, qos, 0)))
  {
    var check, sent, acked := SubCheck(topic, qos), SubSent(topic, qos), SubAcked(topic, qos, 0);
    TwoCall(check, check);
    SetTwo(FRESH, check, check, sent);
    Move(Two(FRESH, check, check), Check(0), Two(FRESH, sent, check));
    SetTwo(FRESH, sent, check, sent);
    Move(Two(FRESH, sent, check), Check(1), Two(FRESH, sent, sent));
    var held := FRESH.(broker := {topic});
    SetTwo(FRESH, sent, sent, acked);
    Move(Two(FRESH, sent, sent), Ack(0), Two(held, acked, sent));
    SetTwo(held, acked, sent, acked);
    Move(Two(held, acked, sent), Ack(1), Two(held, acked, acked));
  }

  /** Two callers at once break the client: one topic twice in the list. */
  lemma TwoCallersDuplicate(topic: string, qos: nat) returns (t: Session)
    ensures Happens(t) && !NoDuplicates(t.subs)
  {
    BothAcked(topic, qos);
    var held, acked := FRESH.(broker := {topic}), SubAcked(topic, qos, 0);
    var once := held.(subs := [Sub(topic, qos, 0, 0)]);
    SetTwo(held, acked, acked, Done(true, 0));
    Move(Two(held, acked, acked), Commit(0), Two(once, Done(true, 0), acked));
    t := Two(once.(subs := once.subs + [Sub(topic, qos, 0, 0)]), Done(true, 0), Done(true, 0));
    SetTwo(once, Done(true, 0), acked, Done(true, 0));
    Move(Two(once, Done(true, 0), acked), Commit(1), t);
    assert t.subs[0].topic == t.subs[1].topic;
  }

  /** Both callers have seen the stop channel open before either of them closes it. */
  lemma BothLooked()
    ensures Happens(Two(FRESH.(shuttingDown := true), DiscClose, DiscClose))
  {
    TwoCall(DiscMark, DiscMark);
    var down := FRESH.(shuttingDown := true);
    SetTwo(FRESH, DiscMark, DiscMark, DiscLook);
    Move(Two(FRESH, DiscMark, DiscMark), Mark(0), Two(down, DiscLook, DiscMark));
    SetTwo(down, DiscLook, DiscMark, DiscLook);
    Move(Two(down, DiscLook, DiscMark), Mark(1), Two(down, DiscLook, DiscLook));
    SetTwo(down, DiscLook, DiscLook, DiscClose);
    Move(Two(down, DiscLook, DiscLook), Look(0), Two(down, DiscClose, DiscLook));
    SetTwo(down, DiscClose, DiscLook, DiscClose);
    Move(Two(down, DiscClose, DiscLook), Look(1), Two(down, DiscClose, DiscClose));
  }

  /** Two Disconnect calls at once close the stop channel twice, which panics. */
  lemma TwoCallersDoubleClose() returns (t: Session)
    ensures Happens(t) && t.doubleClosed
  {
    BothLooked();
    var down := FRESH.(shuttingDown := true);
    var closed := down.(stopClosed := true);
    SetTwo(down, DiscClose, DiscClose, DiscLibrary);
    Move(Two(down, DiscClose, DiscClose), CloseStop(0), Two(closed, DiscLibrary, DiscClose));
    t := Two(closed.(doubleClosed := true), DiscLibrary, Dead);
    SetTwo(closed, DiscLibrary, DiscClose, Dead);
    Move(Two(closed, DiscLibrary, DiscClose), CloseStop(1), t);
  }
}
