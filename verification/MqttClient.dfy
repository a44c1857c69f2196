/**
  The MQTT client object. Each critical section changes the fields as the session's step says; the
  operations put the sections together around the broker's reply, with any number of connection losses
  before the reply and after it.
 */
module MqttClientObject {
  import opened MqttSession

  datatype Info = Info(topic: string, qos: nat)

  /** Connection losses with reconnections between them, and whether the connection is back after the last. */
  datatype Outage = Outage(losses: nat, back: bool)

  /** What the broker answers, with what befalls the connection before that and until it is recorded. */
  datatype Reply = Refused(before: Outage) | Acknowledged(before: Outage, after: Outage)

  function InfoOf(sub: Sub): Info { Info(sub.topic, sub.qos) }

  function Interrupted(s: Session, o: Outage): Session {
    if o.losses == 0 then s
    else
      s.(connected := o.back, broker := {}, losses := s.losses + o.losses,
         subs := if s.shuttingDown then s.subs else [])
  }

  /** The session after the broker's reply to a subscription of a topic that was not listed. */
  function Answered(s: Session, topic: string, qos: nat, reply: Reply): Session {
    var asked := Interrupted(s, reply.before);
    match reply
    case Refused(_) => asked
    case Acknowledged(_, after) =>
      var t := Interrupted(asked.(broker := asked.broker + {topic}), after);
      t.(subs := t.subs + [Sub(topic, qos, asked.losses, t.losses)])
  }

  /** The session after the broker's reply to the end of a subscription. */
  function Withdrawn(s: Session, topic: string, reply: Reply): Session {
    var asked := Interrupted(s, reply.before);
    match reply
    case Refused(_) => asked
    case Acknowledged(_, after) =>
      var t := Interrupted(asked.(broker := asked.broker - {topic}), after);
      t.(subs := RemoveFirst(t.subs, topic))
  }

  /** Losses and acknowledgements need a connection. */
  predicate Possible(s: Session, reply: Reply) {
    && (reply.before.losses > 0 ==> s.connected)
    && (reply.Acknowledged? ==> Interrupted(s, reply.before).connected)
  }

  /** A loss and a reconnection, seen from the session without the operation. */
  lemma OutageSteps(base: Session, op: Op)
    requires base.connected
    ensures Apply(SetOp(base, 0, op), Lose) == SetOp(Interrupted(base, Outage(1, false)), 0, op)
    ensures Enabled(SetOp(Interrupted(base, Outage(1, false)), 0, op), Reconnect)
    ensures Apply(SetOp(Interrupted(base, Outage(1, false)), 0, op), Reconnect)
              == SetOp(Interrupted(base, Outage(1, true)), 0, op)
  {
  }

  lemma OneLossMore(s: Session, n: nat, back: bool)
    requires s.connected
    ensures Interrupted(s, Outage(n, true)).connected
    ensures Interrupted(Interrupted(s, Outage(n, true)), Outage(1, back)) == Interrupted(s, Outage(n + 1, back))
  {
  }

  predicate Listed(s: Session, topic: string) {
    FirstMatch(s.subs, topic) < |s.subs|
  }

  lemma SetOpTwice(s: Session, o: nat, first: Op, second: Op)
    ensures SetOp(SetOp(s, o, first), o, second) == SetOp(s, o, second)
  {
    assert s.ops[o := first][o := second] == s.ops[o := second];
  }

  function Ended(s: Session): Session {
    s.(shuttingDown := true, stopClosed := true, connected := false, broker := {})
  }

  class MqttClient {
    var subscriptions: seq<Info>
    var isShuttingDown: bool
    var isReceiving: bool
    var stopClosed: bool
    ghost var session: Session

    ghost predicate Valid()
      reads this
    {
      && Serialised(session)
      && |subscriptions| == |session.subs|
      && (forall i :: 0 <= i < |subscriptions| ==> subscriptions[i] == InfoOf(session.subs[i]))
      && isShuttingDown == session.shuttingDown && stopClosed == session.stopClosed
    }

    constructor ()
      ensures Valid() && session == FRESH && subscriptions == [] && isReceiving
    {
      subscriptions := [];
      isShuttingDown := false;
      isReceiving := true;
      stopClosed := false;
      session := FRESH;
      new;
      FreshIsSerialised();
    }

    /** Advances the session by one step; the caller makes the same change to the fields. */
    ghost method Advance(e: Event)
      requires Serialised(session) && OneAtATime(session, e)
      modifies `session
      ensures session == Apply(old(session), e) && Serialised(session)
    {
      SerialisedNext(session, e);
      session := Apply(session, e);
    }

    ghost method Enter(op: Op)
      requires Serialised(session) && session.ops == map[] && IsEntry(op)
      modifies `session
      ensures session == SetOp(old(session), 0, op) && Serialised(session)
    {
      Advance(Call(0, op));
    }

    ghost method Leave(base: Session, ok: bool)
      requires Serialised(session) && base.ops == map[] && session == SetOp(base, 0, Done(ok, base.losses))
      modifies `session
      ensures session == base && Serialised(session)
    {
      Advance(Finish(0));
      assert session.ops == base.ops;
    }

    /** The broker's acknowledgement, seen from the session without the operation. */
    ghost method Acknowledge(base: Session, sent: Op)
      requires Serialised(session) && session == SetOp(base, 0, sent) && base.connected
      requires sent.SubSent? || sent.UnsubSent?
      modifies `session
      ensures Serialised(session)
      ensures sent.SubSent? ==> session == SetOp(base.(broker := base.broker + {sent.topic}), 0,
                                                 SubAcked(sent.topic, sent.qos, base.losses))
      ensures sent.UnsubSent? ==> session == SetOp(base.(broker := base.broker - {sent.topic}), 0,
                                                   UnsubAcked(sent.topic))
    {
      Advance(Ack(0));
      assert session.ops == base.ops[0 := session.ops[0]];
    }

    ghost method Reject(base: Session, sent: Op)
      requires Serialised(session) && session == SetOp(base, 0, sent)
      requires sent.SubSent? || sent.UnsubSent?
      modifies `session
      ensures Serialised(session) && session == SetOp(base, 0, Done(false, base.losses))
    {
      Advance(Nack(0));
      SetOpTwice(base, 0, sent, Done(false, base.losses));
    }

    /** The scan both sections make under the lock. */
    method IndexOf(target: string) returns (i: nat)
      requires Valid()
      ensures i == FirstMatch(session.subs, target)
    {
      i := 0;
      while i < |subscriptions| && subscriptions[i].topic != target
        invariant 0 <= i <= |subscriptions|
        invariant forall j :: 0 <= j < i ==> session.subs[j].topic != target
      {
        i := i + 1;
      }
      FirstIs(session.subs, target, i);
    }

    /** The first section of Subscribe. */
    method CheckSubscribed(ghost base: Session, target: string, qos: nat) returns (found: bool)
      requires Valid() && session == SetOp(base, 0, SubCheck(target, qos))
      modifies `session
      ensures Valid() && found == Listed(base, target)
      ensures session == SetOp(base, 0, if found then Done(true, base.losses) else SubSent(target, qos))
    {
      var i := IndexOf(target);
      found := i < |subscriptions|;
      Advance(Check(0));
      SetOpTwice(base, 0, SubCheck(target, qos), session.ops[0]);
    }

    /** The second section of Subscribe. */
    method AppendSubscription(ghost base: Session, target: string, qos: nat, ghost epoch: nat)
      requires Valid() && session == SetOp(base, 0, SubAcked(target, qos, epoch))
      modifies `session, `subscriptions
      ensures Valid() && subscriptions == old(subscriptions) + [Info(target, qos)]
      ensures session == SetOp(base.(subs := base.subs + [Sub(target, qos, epoch, base.losses)]), 0,
                               Done(true, base.losses))
    {
      subscriptions := subscriptions + [Info(target, qos)];
      Advance(Commit(0));
      SetOpTwice(base, 0, SubAcked(target, qos, epoch), Done(true, base.losses));
    }

    /** The section of Unsubscribe: the first match goes. */
    method RemoveSubscription(o: nat, target: string)
      requires Valid() && o in session.ops && session.ops[o].UnsubAcked? && session.ops[o].topic == target
      modifies `session, `subscriptions
      ensures Valid() && session == Apply(old(session), Commit(o))
    {
      var i := IndexOf(target);
      if i < |subscriptions| {
        subscriptions := subscriptions[..i] + subscriptions[i + 1..];
      }
      Advance(Commit(o));
    }

    /** The connection-lost handler; it goes on to reconnect unless the client is shutting down. */
    method OnConnectionLost() returns (reconnects: bool)
      requires Valid() && session.connected
      modifies `session, `subscriptions
      ensures Valid() && session == Apply(old(session), Lose)
      ensures reconnects <==> !isShuttingDown
      ensures subscriptions == if isShuttingDown then old(subscriptions) else []
    {
      Advance(Lose);
      if isShuttingDown {
        return false;
      }
      subscriptions := [];
      return true;
    }

    /** A loss, with the reconnection or not, while an operation waits for the broker or the lock. */
    method InterruptOnce(ghost base: Session, ghost op: Op, back: bool)
      requires Valid() && session == SetOp(base, 0, op) && base.connected
      modifies `session, `subscriptions
      ensures Valid() && session == SetOp(Interrupted(base, Outage(1, back)), 0, op)
    {
      OutageSteps(base, op);
      var reconnects := OnConnectionLost();
      if back {
        Advance(Reconnect);
      }
    }

    method Interrupt(o: Outage, ghost base: Session, ghost op: Op)
      requires Valid() && session == SetOp(base, 0, op) && (o.losses > 0 ==> base.connected)
      modifies `session, `subscriptions
      ensures Valid() && session == SetOp(Interrupted(base, o), 0, op)
    {
      for i := 0 to o.losses
        invariant Valid() && session == SetOp(Interrupted(base, Outage(i, i < o.losses || o.back)), 0, op)
      {
        OneLossMore(base, i, i + 1 < o.losses || o.back);
        InterruptOnce(Interrupted(base, Outage(i, true)), op, i + 1 < o.losses || o.back);
      }
    }

    /** The broker's part of Subscribe and the second section, for a topic that is not listed. */
    method SendSubscribe(ghost base: Session, target: string, qos: nat, reply: Reply) returns (ok: bool)
      requires Valid() && session == SetOp(base, 0, SubSent(target, qos)) && Possible(base, reply)
      modifies `session, `subscriptions
      ensures Valid() && ok == reply.Acknowledged?
      ensures session == SetOp(Answered(base, target, qos, reply), 0,
                               Done(ok, Answered(base, target, qos, reply).losses))
    {
      Interrupt(reply.before, base, SubSent(target, qos));
      ghost var asked := Interrupted(base, reply.before);
      if reply.Refused? {
        Reject(asked, SubSent(target, qos));
        return false;
      }
      Acknowledge(asked, SubSent(target, qos));
      ghost var held := asked.(broker := asked.broker + {target});
      Interrupt(reply.after, held, SubAcked(target, qos, asked.losses));
      AppendSubscription(Interrupted(held, reply.after), target, qos, asked.losses);
      return true;
    }

    /** All of Subscribe after its first section, for a topic that is not listed. */
    method SubscribeUnlisted(ghost base: Session, target: string, qos: nat, reply: Reply) returns (ok: bool)
      requires Valid() && session == SetOp(base, 0, SubSent(target, qos)) && Possible(base, reply)
      requires base.ops == map[]
      modifies `session, `subscriptions
      ensures Valid() && ok == reply.Acknowledged? && session == Answered(base, target, qos, reply)
    {
      ok := SendSubscribe(base, target, qos, reply);
      assert Answered(base, target, qos, reply).ops == base.ops;
      Leave(Answered(base, target, qos, reply), ok);
    }

    /** Subscribe: a topic already listed is not asked for again. */
    method Subscribe(target: string, qos: nat, reply: Reply) returns (ok: bool)
      requires Valid() && session.ops == map[] && Possible(session, reply)
      modifies `session, `subscriptions
      ensures Valid()
      ensures ok == (reply.Acknowledged? || Listed(old(session), target))
      ensures session == if Listed(old(session), target) then old(session)
                         else Answered(old(session), target, qos, reply)
    {
      ghost var base := session;
      Enter(SubCheck(target, qos));
      var found := CheckSubscribed(base, target, qos);
      if found {
        Leave(base, true);
        return true;
      }
      ok := SubscribeUnlisted(base, target, qos, reply);
    }

    method CommitUnsubscribe(ghost base: Session, target: string)
      requires Valid() && session == SetOp(base, 0, UnsubAcked(target))
      modifies `session, `subscriptions
      ensures Valid() && session == SetOp(base.(subs := RemoveFirst(base.subs, target)), 0, Done(true, base.losses))
    {
      RemoveSubscription(0, target);
      SetOpTwice(base, 0, UnsubAcked(target), Done(true, base.losses));
    }

    /** The broker's part of Unsubscribe, and its section. */
    method SendUnsubscribe(ghost base: Session, target: string, reply: Reply) returns (ok: bool)
      requires Valid() && session == SetOp(base, 0, UnsubSent(target)) && Possible(base, reply)
      modifies `session, `subscriptions
      ensures Valid() && ok == reply.Acknowledged?
      ensures session == SetOp(Withdrawn(base, target, reply), 0, Done(ok, Withdrawn(base, target, reply).losses))
    {
      Interrupt(reply.before, base, UnsubSent(target));
      ghost var asked := Interrupted(base, reply.before);
      if reply.Refused? {
        Reject(asked, UnsubSent(target));
        return false;
      }
      Acknowledge(asked, UnsubSent(target));
      ghost var held := asked.(broker := asked.broker - {target});
      Interrupt(reply.after, held, UnsubAcked(target));
      CommitUnsubscribe(Interrupted(held, reply.after), target);
      return true;
    }

    method Unsubscribe(target: string, reply: Reply) returns (ok: bool)
      requires Valid() && session.ops == map[] && Possible(session, reply)
      modifies `session, `subscriptions
      ensures Valid() && ok == reply.Acknowledged?
      ensures session == Withdrawn(old(session), target, reply)
    {
      ghost var base := session;
      Enter(UnsubSent(target));
      ok := SendUnsubscribe(base, target, reply);
      Leave(Withdrawn(base, target, reply), ok);
    }

    /** Disconnect: only the first one ever closes the stop channel. */
    method Disconnect()
      requires Valid() && session.ops == map[]
      modifies `session, `isShuttingDown, `stopClosed
      ensures Valid() && session == Ended(old(session))
    {
      ghost var base := session;
      Enter(DiscMark);
      isShuttingDown := true;
      Advance(Mark(0));
      base := base.(shuttingDown := true);
      SetOpTwice(base, 0, DiscMark, DiscLook);
      CloseOnce(base);
      base := base.(stopClosed := true);
      Advance(LibraryDisconnect(0));
      SetOpTwice(base, 0, DiscLibrary, Done(true, base.losses));
      Leave(base.(connected := false, broker := {}), true);
    }

    /** The select on the stop channel: close it unless it is closed. */
    method CloseOnce(ghost base: Session)
      requires Valid() && session == SetOp(base, 0, DiscLook)
      modifies `session, `stopClosed
      ensures Valid() && session == SetOp(base.(stopClosed := true), 0, DiscLibrary)
    {
      var open := !stopClosed;
      Advance(Look(0));
      if open {
        stopClosed := true;
        Advance(CloseStop(0));
      }
      assert session.ops == base.ops[0 := DiscLibrary];
    }

    method StopReceiving()
      requires Valid()
      modifies `isReceiving
      ensures Valid() && !isReceiving
    {
      isReceiving := false;
    }
  }

  lemma {:induction false} FirstIs(subs: seq<Sub>, topic: string, i: nat)
    requires i <= |subs| && forall j :: 0 <= j < i ==> subs[j].topic != topic
    requires i < |subs| ==> subs[i].topic == topic
    ensures FirstMatch(subs, topic) == i
  {
  }

  /**
    An acknowledged Unsubscribe leaves the topic on neither side, whatever losses fall into it, and of the
    other topics all that the losses leave.
   */
  lemma RemovedBothSides(s: Session, topic: string, reply: Reply)
    requires Serialised(s) && reply.Acknowledged?
    ensures topic !in TopicsOf(Withdrawn(s, topic, reply).subs) && topic !in Withdrawn(s, topic, reply).broker
    ensures TopicsOf(Withdrawn(s, topic, reply).subs) ==
              TopicsOf(Interrupted(s, Outage(reply.before.losses + reply.after.losses, true)).subs) - {topic}
  {
    SerialisedHolds(s);
    NoDuplicatesOf(s);
    RemovedTopics(Interrupted(s, Outage(reply.before.losses + reply.after.losses, true)).subs, topic);
  }

  lemma NoDuplicatesOf(s: Session)
    requires SessionInv(s)
    ensures NoDuplicates(s.subs)
  {
  }
}
