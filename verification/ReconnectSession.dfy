/**
  An MQTT client together with its own reconnect loop: the loop starts in the connection-lost handler
  unless the client is shutting down, and it is the only one to reconnect here. What the session's
  theorems allow at any time, a reconnection, is shown to happen at most once after a Disconnect.
 */
module ReconnectSession {
  import opened MqttSession
  import R = Reconnect

  /** A loop at Left is none. */
  datatype Client = Client(session: Session, loop: R.Loop)

  datatype Step = Own(e: Event) | Turn(next: R.Loop)

  const NO_LOOP := R.Loop(R.Left, false, 0, 0, 0)

  const NEW_CLIENT := Client(FRESH, NO_LOOP)

  /** The attempt in progress succeeds: the loop is left, and the client connected. */
  predicate Succeeds(c: Client, next: R.Loop) {
    c.loop.place.Attempting? && next.place.Left?
  }

  /** The loop moves as the loop does; the closing of the channel is the session's step. */
  predicate StepEnabled(c: Client, step: Step) {
    match step
    case Own(e) => !e.Reconnect? && OneAtATime(c.session, e)
    case Turn(next) =>
      && !c.loop.place.Left? && R.LoopStep(c.loop, next) && next.stopClosed == c.loop.stopClosed
      && (Succeeds(c, next) ==> !c.session.connected)
  }

  function LoopAfter(c: Client, e: Event): R.Loop
    requires Enabled(c.session, e)
  {
    if e.Lose? && !c.session.shuttingDown then R.Loop(R.AtSelect, c.session.stopClosed, 0, 0, 0)
    else c.loop.(stopClosed := Apply(c.session, e).stopClosed)
  }

  function Next(c: Client, step: Step): Client
    requires StepEnabled(c, step)
  {
    match step
    case Own(e) => Client(Apply(c.session, e), LoopAfter(c, e))
    case Turn(next) => Client(if Succeeds(c, next) then Apply(c.session, Reconnect) else c.session, next)
  }

  predicate Admissible(c: Client, steps: seq<Step>)
    decreases steps
  {
    steps == [] || (StepEnabled(c, steps[0]) && Admissible(Next(c, steps[0]), steps[1..]))
  }

  function After(c: Client, steps: seq<Step>): Client
    requires Admissible(c, steps)
    decreases steps
  {
    if steps == [] then c else After(Next(c, steps[0]), steps[1..])
  }

  // ---- invariant ----

  ghost predicate ClientInv(c: Client) {
    && Serialised(c.session)
    && c.loop.stopClosed == c.session.stopClosed
    && (c.session.stopClosed ==> c.session.shuttingDown)
    && (c.session.connected ==> c.loop.place.Left?)
    && R.LoopInv(c.loop, false)
  }

  lemma MarkedBeforeClosed(s: Session, e: Event)
    requires SessionInv(s) && Enabled(s, e) && (s.stopClosed ==> s.shuttingDown)
    ensures Apply(s, e).stopClosed ==> Apply(s, e).shuttingDown
  {
  }

  /** A loop the channel is closed under still has its one late attempt at most. */
  lemma LoopUnderSession(c: Client, e: Event)
    requires ClientInv(c) && StepEnabled(c, Own(e))
    ensures R.LoopInv(LoopAfter(c, e), false) && LoopAfter(c, e).stopClosed == Apply(c.session, e).stopClosed
  {
  }

  /** Only a reconnection connects. */
  lemma ConnectedStays(s: Session, e: Event)
    requires Enabled(s, e) && !e.Reconnect? && Apply(s, e).connected
    ensures s.connected && !e.Lose?
  {
  }

  lemma OwnKept(c: Client, e: Event)
    requires ClientInv(c) && StepEnabled(c, Own(e))
    ensures ClientInv(Next(c, Own(e)))
  {
    SerialisedNext(c.session, e);
    SerialisedHolds(c.session);
    MarkedBeforeClosed(c.session, e);
    LoopUnderSession(c, e);
    if Apply(c.session, e).connected {
      ConnectedStays(c.session, e);
    }
  }

  lemma TurnKept(c: Client, next: R.Loop)
    requires ClientInv(c) && StepEnabled(c, Turn(next))
    ensures ClientInv(Next(c, Turn(next)))
  {
    if Succeeds(c, next) {
      SerialisedNext(c.session, Reconnect);
    }
  }

  lemma {:induction false} InvAlong(c: Client, steps: seq<Step>)
    requires ClientInv(c) && Admissible(c, steps)
    ensures ClientInv(After(c, steps))
    decreases steps
  {
    if steps != [] {
      match steps[0] {
        case Own(e) => OwnKept(c, e);
        case Turn(next) => TurnKept(c, next);
      }
      InvAlong(Next(c, steps[0]), steps[1..]);
    }
  }

  lemma NewHolds()
    ensures ClientInv(NEW_CLIENT)
  {
    FreshIsSerialised();
  }

  // ---- every run ----

  /**
    In every run of a client with its loop: the session is one a single caller can bring about, so all that is
    proved of those holds; a loop runs only while the connection is down; and the attempts it started after
    the stop channel was closed are at most one more than its overslept selects.
   */
  lemma LateAttemptsInSession(steps: seq<Step>)
    requires Admissible(NEW_CLIENT, steps)
    ensures var c := After(NEW_CLIENT, steps);
            && Serialised(c.session) && (c.session.connected ==> c.loop.place.Left?)
            && c.loop.late <= c.loop.overslept + 1
            && (!c.session.stopClosed ==> c.loop.late == 0)
  {
    NewHolds();
    InvAlong(NEW_CLIENT, steps);
  }

  /** How often the loop reconnects the client. */
  function Reconnections(c: Client, steps: seq<Step>): nat
    requires Admissible(c, steps)
    decreases steps
  {
    if steps == [] then 0
    else
      (if steps[0].Turn? && Succeeds(c, steps[0].next) then 1 else 0) + Reconnections(Next(c, steps[0]), steps[1..])
  }

  function Looping(c: Client): nat {
    if c.loop.place.Left? then 0 else 1
  }

  lemma StaysDown(c: Client, step: Step)
    requires c.session.shuttingDown && StepEnabled(c, step)
    ensures Next(c, step).session.shuttingDown
    ensures (if step.Turn? && Succeeds(c, step.next) then 1 else 0) + Looping(Next(c, step)) <= Looping(c)
  {
  }

  /**
    Main theorem. From the moment a Disconnect has marked the client, over every continuation and however
    many selects are overslept, the loop reconnects it at most once, and not at all when none is running.
   */
  lemma {:induction false} AtMostOneReconnection(c: Client, steps: seq<Step>)
    requires c.session.shuttingDown && Admissible(c, steps)
    ensures Reconnections(c, steps) + Looping(After(c, steps)) <= Looping(c) <= 1
    decreases steps
  {
    if steps != [] {
      StaysDown(c, steps[0]);
      AtMostOneReconnection(Next(c, steps[0]), steps[1..]);
    }
  }

  // ---- the one reconnection happens ----

  ghost predicate Happening(c: Client) {
    exists steps :: Admissible(NEW_CLIENT, steps) && After(NEW_CLIENT, steps) == c
  }

  lemma {:induction false} OneMore(c: Client, steps: seq<Step>, step: Step)
    requires Admissible(c, steps) && StepEnabled(After(c, steps), step)
    ensures Admissible(c, steps + [step]) && After(c, steps + [step]) == Next(After(c, steps), step)
    decreases steps
  {
    if steps == [] {
      assert [step][1..] == [];
    } else {
      assert (steps + [step])[1..] == steps[1..] + [step];
      OneMore(Next(c, steps[0]), steps[1..], step);
    }
  }

  lemma Go(c: Client, step: Step, d: Client)
    requires Happening(c) && StepEnabled(c, step) && Next(c, step) == d
    ensures Happening(d)
  {
    var steps :| Admissible(NEW_CLIENT, steps) && After(NEW_CLIENT, steps) == c;
    OneMore(NEW_CLIENT, steps, step);
    assert Admissible(NEW_CLIENT, steps + [step]) && After(NEW_CLIENT, steps + [step]) == d;
  }

  const LOST := FRESH.(connected := false, losses := 1)

  /** The connection is lost and the loop has chosen its timer. */
  lemma TimerIsChosen()
    ensures Happening(Client(LOST, R.Loop(R.TimerChosen, false, 0, 0, 0)))
  {
    assert Admissible(NEW_CLIENT, []) && After(NEW_CLIENT, []) == NEW_CLIENT;
    var first := R.Loop(R.AtSelect, false, 0, 0, 0);
    Go(NEW_CLIENT, Own(Lose), Client(LOST, first));
    Go(Client(LOST, first), Turn(first.(place := R.InSelect)), Client(LOST, first.(place := R.InSelect)));
    Go(Client(LOST, first.(place := R.InSelect)), Turn(first.(place := R.TimerChosen)),
       Client(LOST, first.(place := R.TimerChosen)));
  }

  /** Disconnect runs up to the closing of the channel. */
  lemma DisconnectReachesClose()
    ensures Happening(Client(One(LOST.(shuttingDown := true), DiscClose), R.Loop(R.TimerChosen, false, 0, 0, 0)))
  {
    TimerIsChosen();
    var chosen, down := R.Loop(R.TimerChosen, false, 0, 0, 0), LOST.(shuttingDown := true);
    assert map[][0 := DiscMark] == map[0 := DiscMark];
    Go(Client(LOST, chosen), Own(Call(0, DiscMark)), Client(One(LOST, DiscMark), chosen));
    SetOne(LOST, DiscMark, DiscLook);
    Go(Client(One(LOST, DiscMark), chosen), Own(Mark(0)), Client(One(down, DiscLook), chosen));
    SetOne(down, DiscLook, DiscClose);
    Go(Client(One(down, DiscLook), chosen), Own(Look(0)), Client(One(down, DiscClose), chosen));
  }

  const CLOSED := LOST.(shuttingDown := true, stopClosed := true)

  lemma DisconnectCloses()
    ensures Happening(Client(One(CLOSED, DiscLibrary), R.Loop(R.TimerChosen, true, 0, 0, 0)))
  {
    DisconnectReachesClose();
    var open, chosen := R.Loop(R.TimerChosen, false, 0, 0, 0), R.Loop(R.TimerChosen, true, 0, 0, 0);
    var down := LOST.(shuttingDown := true);
    SetOne(down, DiscClose, DiscLibrary);
    Go(Client(One(down, DiscClose), open), Own(CloseStop(0)), Client(One(CLOSED, DiscLibrary), chosen));
  }

  /** Disconnect returns, with the loop about to attempt. */
  lemma DisconnectReturns()
    ensures Happening(Client(CLOSED, R.Loop(R.TimerChosen, true, 0, 0, 0)))
  {
    DisconnectCloses();
    var closed, chosen := CLOSED, R.Loop(R.TimerChosen, true, 0, 0, 0);
    SetOne(closed, DiscLibrary, Done(true, 1));
    Go(Client(One(closed, DiscLibrary), chosen), Own(LibraryDisconnect(0)), Client(One(closed, Done(true, 1)), chosen));
    assert map[0 := Done(true, 1)] - {0} == map[];
    Go(Client(One(closed, Done(true, 1)), chosen), Own(Finish(0)), Client(closed, chosen));
  }

  /** A run after which the client is connected although its Disconnect has returned, and no loop is left to end it. */
  lemma ConnectedAfterDisconnect() returns (c: Client)
    ensures Happening(c) && c.session.shuttingDown && c.session.stopClosed && c.session.ops == map[]
    ensures c.session.connected && c.loop.place.Left? && c.loop.overslept == 0
  {
    DisconnectReturns();
    var closed, chosen := CLOSED, R.Loop(R.TimerChosen, true, 0, 0, 0);
    var attempt := R.Loop(R.Attempting, true, 1, 1, 0);
    Go(Client(closed, chosen), Turn(attempt), Client(closed, attempt));
    c := Client(closed.(connected := true), attempt.(place := R.Left));
    Go(Client(closed, attempt), Turn(attempt.(place := R.Left)), c);
  }
}
