/**
  From an inbound XMPP packet to the reply on the wire: the client's dispatch, the CWMP behavior's
  answer to a ConnectionRequest, and the client's Send. XML parsing is a parameter.
 */
module CwmpReply {
  import opened Wrappers
  import opened Decimal
  import opened Metadata

  datatype Packet =
    | MessagePacket(from: string, to: string, id: string, typ: string, body: string, subject: string,
                    thread: string, lang: string)
    | IQPacket(from: string, to: string, id: string, typ: string, payload: string)
    | PresencePacket(from: string, to: string, id: string, typ: string, show: string, status: string,
                     priority: Int8, json: string)
    | OtherPacket

  datatype Payload = NoPayload | Text(text: string) | IQPayload(xml: string) | OtherPayload

  datatype SendAction = SendAction(payload: Payload, target: string, metadata: AnyMap)

  datatype Request = Request(username: string, password: string)

  datatype Behavior = Behavior(username: string, password: string)

  /** A stanza handed to the XMPP library. */
  datatype Wire =
    | WireMessage(to: string, from: string, typ: string, id: string, body: string, subject: string)
    | WireIQ(to: string, from: string, typ: string, id: string, payload: Payload)

  // ---- recognising a ConnectionRequest ----

  predicate OccursAt(s: string, sub: string, i: nat) {
    i + |sub| <= |s| && s[i..i + |sub|] == sub
  }

  predicate Occurs(s: string, sub: string) {
    exists i :: 0 <= i <= |s| && OccursAt(s, sub, i)
  }

  /** An occurrence is a way to split the text around the substring. */
  lemma OccursIsSplit(s: string, sub: string)
    ensures Occurs(s, sub) <==> exists before, after :: s == before + sub + after
  {
    if i :| 0 <= i <= |s| && OccursAt(s, sub, i) {
      assert s == s[..i] + sub + s[i + |sub|..];
    }
    if before, after :| s == before + sub + after {
      assert OccursAt(s, sub, |before|);
    }
  }

  method ContainsHelper(s: string, sub: string) returns (found: bool)
    ensures found == Occurs(s, sub)
  {
    var i := 0;
    while i <= |s| - |sub|
      invariant 0 <= i
      invariant forall j :: 0 <= j < i ==> !OccursAt(s, sub, j)
      decreases |s| - i
    {
      if s[i..i + |sub|] == sub {
        assert OccursAt(s, sub, i);
        return true;
      }
      i := i + 1;
    }
    return false;
  }

  /** The guards in front of the scan change nothing: it holds exactly when an occurrence exists. */
  method Contains(s: string, sub: string) returns (found: bool)
    ensures found == Occurs(s, sub)
  {
    if |s| < |sub| {
      return false;
    }
    if s == sub {
      assert OccursAt(s, sub, 0);
      return true;
    }
    if |s| == 0 {
      return false;
    }
    found := ContainsHelper(s, sub);
  }

  const ELEMENT := "ConnectionRequest"
  const NAMESPACE := "urn:dslforum-org:cwmp"

  predicate Recognised(payload: string) {
    Occurs(payload, ELEMENT) && Occurs(payload, NAMESPACE)
  }

  method IsConnectionRequest(payload: string) returns (r: bool)
    ensures r == Recognised(payload)
    ensures r <==> Occurs(payload, "ConnectionRequest") && Occurs(payload, "urn:dslforum-org:cwmp")
  {
    if |payload| == 0 {
      return false;
    }
    r := Contains(payload, ELEMENT);
    if r {
      r := Contains(payload, NAMESPACE);
    }
  }

  // ---- the behavior ----

  /** What the behavior does about a message: the actions it returns, and whether it starts an Inform. */
  datatype Answer = Answer(actions: seq<SendAction>, informs: bool)

  const SILENCE := Answer([], false)

  function Reply(id: string, target: string, typ: string): SendAction {
    SendAction(NoPayload, target, ToMap(IQStanza(Base(IQ, "", target, id), typ)))
  }

  predicate CredentialsMatch(b: Behavior, r: Request) {
    r.username == b.username && r.password == b.password
  }

  function HandleConnectionRequest(b: Behavior, parse: string -> Option<Request>, payload: string, m: AnyMap)
    : Answer
  {
    match parse(payload)
    case None => SILENCE
    case Some(r) =>
      var from, id := StringOr(m, FROM, ""), StringOr(m, ID, "");
      if CredentialsMatch(b, r) then Answer([Reply(id, from, "result")], true)
      else Answer([Reply(id, from, "error")], false)
  }

  function OnMessage(b: Behavior, parse: string -> Option<Request>, payload: string, m: AnyMap): Answer {
    if StringAt(m, KIND) != Some(IQ) then SILENCE
    else if StringAt(m, TYPE) == Some("get") && Recognised(payload) then
      HandleConnectionRequest(b, parse, payload, m)
    else SILENCE
  }

  // ---- the client ----

  function MetadataOf(p: Packet): AnyMap
    requires !p.OtherPacket?
  {
    match p
    case MessagePacket(from, to, id, typ, _, subject, thread, lang) =>
      ToMap(MessageStanza(Base(MESSAGE, from, to, id), typ, subject, thread, lang))
    case IQPacket(from, to, id, typ, _) => ToMap(IQStanza(Base(IQ, from, to, id), typ))
    case PresencePacket(from, to, id, typ, show, status, priority, _) =>
      ToMap(PresenceStanza(Base(PRESENCE, from, to, id), typ, show, status, priority))
  }

  function PayloadOf(p: Packet): string
    requires !p.OtherPacket?
  {
    match p
    case MessagePacket(_, _, _, _, body, _, _, _) => body
    case IQPacket(_, _, _, _, payload) => payload
    case PresencePacket(_, _, _, _, _, _, _, json) => json
  }

  /** The packet handler: IQ results and errors end here, the rest goes to the behavior. */
  function Dispatch(b: Behavior, parse: string -> Option<Request>, receiving: bool, p: Packet): Answer {
    if !receiving || p.OtherPacket? || (p.IQPacket? && (p.typ == "result" || p.typ == "error")) then SILENCE
    else OnMessage(b, parse, PayloadOf(p), MetadataOf(p))
  }

  datatype SendError = BadMetadata(e: Metadata.Error) | UnsupportedPayload

  datatype Sent = Sent(wire: Option<Wire>, usedID: bool) | Failed(error: SendError)

  function StanzaID(jid: string, n: nat): string {
    jid + ['-'] + Digits(n)
  }

  /** Send, with the next number of the client's ID counter; presence is accepted and not sent. */
  function SendOut(jid: string, next: nat, a: SendAction): Sent {
    match Parse(a.target, a.metadata)
    case Err(e) => Failed(BadMetadata(e))
    case Ok(MessageStanza(base, typ, subject, _, _)) =>
      if a.payload.Text? then
        var made := base.id == "";
        Sent(Some(WireMessage(a.target, jid, typ, if made then StanzaID(jid, next) else base.id,
                              a.payload.text, subject)), made)
      else Failed(UnsupportedPayload)
    case Ok(IQStanza(base, typ)) =>
      var made := base.id == "";
      Sent(Some(WireIQ(a.target, jid, typ, if made then StanzaID(jid, next) else base.id,
                       if a.payload.IQPayload? then a.payload else NoPayload)), made)
    case Ok(PresenceStanza(_, _, _, _, _)) => Sent(None, false)
  }

  function Wires(jid: string, next: nat, actions: seq<SendAction>): seq<Wire>
    decreases actions
  {
    if actions == [] then []
    else
      var r := SendOut(jid, next, actions[0]);
      (if r.Sent? && r.wire.Some? then [r.wire.value] else [])
      + Wires(jid, if r.Sent? && r.usedID then next + 1 else next, actions[1..])
  }

  // ---- the pipeline ----

  predicate Asks(parse: string -> Option<Request>, receiving: bool, p: Packet) {
    receiving && p.IQPacket? && p.typ == "get" && Recognised(p.payload) && parse(p.payload).Some?
  }

  /** Which packets ask for a reply that can be sent: an IQ without an ID is refused by the metadata parser. */
  predicate Answerable(parse: string -> Option<Request>, receiving: bool, p: Packet) {
    Asks(parse, receiving, p) && p.id != ""
  }

  function TheReply(b: Behavior, parse: string -> Option<Request>, jid: string, p: Packet): Wire
    requires p.IQPacket? && parse(p.payload).Some?
  {
    var r := parse(p.payload).value;
    WireIQ(p.from, jid, if b == Behavior(r.username, r.password) then "result" else "error", p.id, NoPayload)
  }

  lemma ReplySent(jid: string, next: nat, id: string, target: string, typ: string)
    ensures Wires(jid, next, [Reply(id, target, typ)]) ==
              if id != "" then [WireIQ(target, jid, typ, id, NoPayload)] else []
  {
    var s := IQStanza(Base(IQ, "", target, id), typ);
    BaseReadBack(target, s);
    assert ToMap(s)[TYPE] == Str(typ) && ToMap(s)[KIND] == Str(IQ);
    assert [Reply(id, target, typ)][1..] == [];
  }

  /** Every packet reaches the behavior with its own fields under their names. */
  lemma PacketFields(p: Packet)
    requires !p.OtherPacket?
    ensures var m := MetadataOf(p);
            && StringAt(m, "from") == Some(p.from) && StringAt(m, "to") == Some(p.to)
            && StringAt(m, "id") == Some(p.id) && StringAt(m, "type") == Some(p.typ)
            && StringAt(m, "kind") ==
                 Some(if p.MessagePacket? then "message" else if p.IQPacket? then "iq" else "presence")
            && (p.MessagePacket? ==> StringAt(m, "subject") == Some(p.subject)
                                     && StringAt(m, "thread") == Some(p.thread) && StringAt(m, "lang") == Some(p.lang))
            && (p.PresencePacket? ==> StringAt(m, "show") == Some(p.show) && StringAt(m, "status") == Some(p.status)
                                      && "priority" in m && m["priority"] == I8(p.priority))
    ensures PayloadOf(p) == if p.MessagePacket? then p.body else if p.IQPacket? then p.payload else p.json
  {
    FieldsByName(match p
                 case MessagePacket(from, to, id, typ, _, subject, thread, lang) =>
                   MessageStanza(Base(MESSAGE, from, to, id), typ, subject, thread, lang)
                 case IQPacket(from, to, id, typ, _) => IQStanza(Base(IQ, from, to, id), typ)
                 case PresencePacket(from, to, id, typ, show, status, priority, _) =>
                   PresenceStanza(Base(PRESENCE, from, to, id), typ, show, status, priority));
  }

  lemma IQMetadata(p: Packet)
    requires p.IQPacket?
    ensures var m := MetadataOf(p);
            && StringAt(m, KIND) == Some(IQ) && StringAt(m, TYPE) == Some(p.typ)
            && StringOr(m, FROM, "") == p.from && StringOr(m, ID, "") == p.id
  {
    var m := MetadataOf(p);
    assert m[KIND] == Str(IQ) && m[TYPE] == Str(p.typ) && m[FROM] == Str(p.from) && m[ID] == Str(p.id);
  }

  lemma IQDispatched(b: Behavior, parse: string -> Option<Request>, receiving: bool, p: Packet)
    requires p.IQPacket?
    ensures Dispatch(b, parse, receiving, p) ==
              if Asks(parse, receiving, p) then HandleConnectionRequest(b, parse, p.payload, MetadataOf(p)) else SILENCE
    ensures StringOr(MetadataOf(p), FROM, "") == p.from && StringOr(MetadataOf(p), ID, "") == p.id
  {
    IQMetadata(p);
  }

  lemma OthersIgnored(b: Behavior, parse: string -> Option<Request>, receiving: bool, p: Packet)
    requires !p.IQPacket?
    ensures Dispatch(b, parse, receiving, p) == SILENCE
  {
    if !p.OtherPacket? {
      assert MetadataOf(p)[KIND] == Str(if p.MessagePacket? then MESSAGE else PRESENCE);
    }
  }

  /**
    Main theorem. From any packet to the wire: an IQ get that is recognised, parses and has an ID yields
    exactly one stanza, an IQ to the sender with the same ID, of type result when the credentials match
    and error otherwise; every other packet yields nothing. An Inform is started exactly for a request
    with matching credentials, whether or not its reply can be sent.
   */
  lemma ReplyPipeline(b: Behavior, parse: string -> Option<Request>, receiving: bool, jid: string, next: nat, p: Packet)
    ensures Wires(jid, next, Dispatch(b, parse, receiving, p).actions) ==
              if Answerable(parse, receiving, p) then [TheReply(b, parse, jid, p)] else []
    ensures Dispatch(b, parse, receiving, p).informs <==>
              Asks(parse, receiving, p) && parse(p.payload).value == Request(b.username, b.password)
  {
    if p.IQPacket? {
      IQDispatched(b, parse, receiving, p);
      if Asks(parse, receiving, p) {
        ReplySent(jid, next, p.id, p.from, if CredentialsMatch(b, parse(p.payload).value) then "result" else "error");
      }
    } else {
      OthersIgnored(b, parse, receiving, p);
    }
  }

  // ---- stanza IDs ----

  /** The client's name, a dash, and the number in decimal. */
  lemma StanzaIDForm(jid: string, n: nat)
    ensures var id := StanzaID(jid, n);
            && |jid| + 1 < |id| && id[..|jid|] == jid && id[|jid|] == '-'
            && Atoi(id[|jid| + 1..]) == if InRange(n) then Some(n) else None
  {
    assert StanzaID(jid, n)[|jid| + 1..] == Digits(n);
    DigitsValue(n);
    assert IsDigit(Digits(n)[0]);
  }

  /** IDs of distinct clients, or of distinct numbers of one client, are distinct. */
  lemma StanzaIDInjective(jid: string, m: nat, jid': string, n: nat)
    requires StanzaID(jid, m) == StanzaID(jid', n)
    ensures jid == jid' && m == n
  {
    SuffixInjective(jid, jid', '-', m, n);
  }

  /** What reaches the library goes where it was told to, under a non-empty ID, made only when there was none. */
  lemma SentAsAsked(jid: string, next: nat, a: SendAction)
    requires SendOut(jid, next, a).Sent? && SendOut(jid, next, a).wire.Some?
    ensures var w := SendOut(jid, next, a).wire.value;
            && w.to == a.target && w.from == jid && w.id != ""
            && Some(w.typ) == StringAt(a.metadata, "type")
            && (w.WireIQ? <==> StringAt(a.metadata, "kind") == Some("iq"))
            && (w.WireIQ? ==> !SendOut(jid, next, a).usedID)
            && w.id == if SendOut(jid, next, a).usedID then StanzaID(jid, next) else StringOr(a.metadata, "id", "")
  {
  }

  /**
    A message carries the text given as its body and the subject of the metadata, or none; an IQ carries the
    payload given if it is one for an IQ, and otherwise none.
   */
  lemma SentContent(jid: string, next: nat, a: SendAction)
    requires SendOut(jid, next, a).Sent? && SendOut(jid, next, a).wire.Some?
    ensures var w := SendOut(jid, next, a).wire.value;
            && (w.WireMessage? ==> a.payload == Text(w.body) && w.subject == StringOr(a.metadata, "subject", ""))
            && (w.WireIQ? && a.payload.IQPayload? ==> w.payload == a.payload)
            && (w.WireIQ? && !a.payload.IQPayload? ==> w.payload == NoPayload)
  {
    ReadsByName(a.target, a.metadata);
  }

  /** Sending fails exactly for metadata that is refused and for a message without a text; a presence sends nothing. */
  lemma SendOutcomes(jid: string, next: nat, a: SendAction)
    ensures var r := SendOut(jid, next, a); var p := Parse(a.target, a.metadata);
            && (forall e :: r == Failed(BadMetadata(e)) <==> p == Err(e))
            && (r == Failed(UnsupportedPayload) <==> p.Ok? && p.value.base.kind == "message" && !a.payload.Text?)
            && (r.Sent? && r.wire.None? <==> p.Ok? && p.value.base.kind == "presence")
  {
    if Parse(a.target, a.metadata).Ok? {
      ReadsByName(a.target, a.metadata);
      assert "message"[0] != "presence"[0];
    }
  }

  /** The IDs a client makes while it sends these actions one after another. */
  function MadeIDs(jid: string, next: nat, actions: seq<SendAction>): seq<string>
    decreases actions
  {
    if actions == [] then []
    else
      var r := SendOut(jid, next, actions[0]);
      if r.Sent? && r.wire.Some? && r.usedID then [r.wire.value.id] + MadeIDs(jid, next + 1, actions[1..])
      else MadeIDs(jid, next, actions[1..])
  }

  lemma {:induction false} MadeNumbered(jid: string, next: nat, actions: seq<SendAction>, i: nat)
    requires i < |MadeIDs(jid, next, actions)|
    ensures MadeIDs(jid, next, actions)[i] == StanzaID(jid, next + i)
    decreases actions
  {
    var r := SendOut(jid, next, actions[0]);
    if !(r.Sent? && r.wire.Some? && r.usedID) {
      MadeNumbered(jid, next, actions[1..], i);
    } else if i > 0 {
      MadeNumbered(jid, next + 1, actions[1..], i - 1);
      assert MadeIDs(jid, next, actions)[i] == MadeIDs(jid, next + 1, actions[1..])[i - 1];
    } else {
      SentAsAsked(jid, next, actions[0]);
    }
  }

  /** In any run of any clients with distinct names, whatever they send, no ID is made twice. */
  lemma MadeOnce(jid: string, actions: seq<SendAction>, i: nat, jid': string, actions': seq<SendAction>, j: nat)
    requires i < |MadeIDs(jid, 1, actions)| && j < |MadeIDs(jid', 1, actions')|
    requires MadeIDs(jid, 1, actions)[i] == MadeIDs(jid', 1, actions')[j]
    ensures jid == jid' && i == j
  {
    MadeNumbered(jid, 1, actions, i);
    MadeNumbered(jid', 1, actions', j);
    StanzaIDInjective(jid, 1 + i, jid', 1 + j);
  }

  class XmppClient {
    const jid: string
    var isReceiving: bool
    var iqIDCounter: nat

    constructor (jid: string)
      ensures this.jid == jid && isReceiving && iqIDCounter == 0
    {
      this.jid := jid;
      isReceiving := true;
      iqIDCounter := 0;
    }

    method GenerateStanzaID() returns (id: string)
      modifies `iqIDCounter
      ensures iqIDCounter == old(iqIDCounter) + 1 && id == StanzaID(jid, iqIDCounter)
    {
      iqIDCounter := iqIDCounter + 1;
      id := jid + ['-'] + Digits(iqIDCounter);
    }

    /**
      The stanza handed to the library, if any; the counter moves only when an ID had to be made. accepted:
      whether the library's own send succeeds.
     */
    method Send(payload: Payload, target: string, metadata: AnyMap, accepted: bool) returns (r: Sent, ok: bool)
      modifies `iqIDCounter
      ensures ok <==> r.Sent? && (r.wire.None? || accepted)
      ensures r == SendOut(jid, old(iqIDCounter) + 1, SendAction(payload, target, metadata))
      ensures iqIDCounter == old(iqIDCounter) + if r.Sent? && r.usedID then 1 else 0
    {
      var parsed := Parse(target, metadata);
      if parsed.Err? {
        return Failed(BadMetadata(parsed.error)), false;
      }
      match parsed.value
      case MessageStanza(base, typ, subject, _, _) =>
        if !payload.Text? {
          return Failed(UnsupportedPayload), false;
        }
        var id := base.id;
        if id == "" {
          id := GenerateStanzaID();
        }
        r := Sent(Some(WireMessage(target, jid, typ, id, payload.text, subject)), base.id == "");
        ok := accepted;
      case IQStanza(base, typ) =>
        var id := base.id;
        if id == "" {
          id := GenerateStanzaID();
        }
        r := Sent(Some(WireIQ(target, jid, typ, id, if payload.IQPayload? then payload else NoPayload)), base.id == "");
        ok := accepted;
      case PresenceStanza(_, _, _, _, _) =>
        r := Sent(None, false);
        ok := true;
    }

    method StopReceiving()
      modifies `isReceiving
      ensures !isReceiving
    {
      isReceiving := false;
    }

    /** The handler and the behavior, with the substring scans as they run. */
    method HandlePacket(b: Behavior, parse: string -> Option<Request>, p: Packet) returns (answer: Answer)
      ensures answer == Dispatch(b, parse, isReceiving, p)
    {
      if !isReceiving || p.OtherPacket? {
        return SILENCE;
      }
      if p.IQPacket? && (p.typ == "result" || p.typ == "error") {
        return SILENCE;
      }
      var m, payload := MetadataOf(p), PayloadOf(p);
      if StringAt(m, KIND) != Some(IQ) || StringAt(m, TYPE) != Some("get") {
        return SILENCE;
      }
      var asked := IsConnectionRequest(payload);
      answer := if asked then HandleConnectionRequest(b, parse, payload, m) else SILENCE;
    }
  }
}
