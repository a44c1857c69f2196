/** Stanza metadata: typed records, the dynamically typed maps they travel in, and the parsers back. */
module Metadata {
  import opened Wrappers
  import opened Decimal

  const KIND := "kind"
  const FROM := "from"
  const TO := "to"
  const TYPE := "type"
  const ID := "id"
  const SUBJECT := "subject"
  const THREAD := "thread"
  const LANG := "lang"
  const SHOW := "show"
  const STATUS := "status"
  const PRIORITY := "priority"

  const MESSAGE := "message"
  const IQ := "iq"
  const PRESENCE := "presence"

  type Int8 = n: int | -128 <= n <= 127
  type Int64 = n: int | InRange(n)

  datatype Float64 = Finite(value: real) | NaN | Infinite(positive: bool)

  /** The dynamic types the parsers tell apart; Other stands for every other one. */
  datatype Any = Str(s: string) | I8(n8: Int8) | Int(n: Int64) | Float(f: Float64) | Other

  type AnyMap = map<string, Any>

  datatype Result<+T> = Ok(value: T) | Err(error: Error)

  datatype Error =
    | MissingKind
    | UnknownKind(kind: string)
    | MissingType
    | MissingID
    | PriorityOutOfRange
    | PriorityFormat(text: string)

  /** kind, from, to and id of the record, which the source calls the base metadata. */
  datatype Base = Base(kind: string, from: string, to: string, id: string)

  datatype Stanza =
    | MessageStanza(base: Base, typ: string, subject: string, thread: string, lang: string)
    | IQStanza(base: Base, typ: string)
    | PresenceStanza(base: Base, typ: string, show: string, status: string, priority: Int8)

  // ---- parsing ----

  function StringAt(m: AnyMap, key: string): (r: Option<string>)
    ensures r.Some? ==> key in m && m[key] == Str(r.value)
    ensures r.None? ==> key !in m || !m[key].Str?
  {
    if key in m && m[key].Str? then Some(m[key].s) else None
  }

  function StringOr(m: AnyMap, key: string, default: string): (s: string)
    ensures key in m && m[key].Str? ==> m[key] == Str(s)
    ensures key !in m || !m[key].Str? ==> s == default
  {
    match StringAt(m, key)
    case Some(s) => s
    case None => default
  }

  function Parse(target: string, m: AnyMap): Result<Stanza> {
    match StringAt(m, KIND)
    case None => Err(MissingKind)
    case Some(kind) =>
      if kind == MESSAGE then ParseMessage(target, m)
      else if kind == IQ then ParseIQ(target, m)
      else if kind == PRESENCE then ParsePresence(target, m)
      else Err(UnknownKind(kind))
  }

  function ParseBase(target: string, m: AnyMap): Result<Base> {
    match StringAt(m, KIND)
    case None => Err(MissingKind)
    case Some(kind) =>
      var to := StringOr(m, TO, "");
      Ok(Base(kind, StringOr(m, FROM, ""), if to != "" then to else target, StringOr(m, ID, "")))
  }

  function ParseMessage(target: string, m: AnyMap): Result<Stanza> {
    match ParseBase(target, m)
    case Err(e) => Err(e)
    case Ok(base) =>
      match StringAt(m, TYPE)
      case None => Err(MissingType)
      case Some(typ) =>
        Ok(MessageStanza(base, typ, StringOr(m, SUBJECT, ""), StringOr(m, THREAD, ""), StringOr(m, LANG, "")))
  }

  function ParseIQ(target: string, m: AnyMap): Result<Stanza> {
    match ParseBase(target, m)
    case Err(e) => Err(e)
    case Ok(base) =>
      match StringAt(m, TYPE)
      case None => Err(MissingType)
      case Some(typ) => if base.id == "" then Err(MissingID) else Ok(IQStanza(base, typ))
  }

  function Ranged(n: int): Result<Int8> {
    if -128 <= n <= 127 then Ok(n) else Err(PriorityOutOfRange)
  }

  /** The conversion to int8 truncates toward zero. */
  function Truncate(x: real): int {
    if x >= 0.0 then x.Floor else -(-x).Floor
  }

  function ParsePriority(m: AnyMap): Result<Int8> {
    if PRIORITY !in m then Ok(0)
    else
      match m[PRIORITY]
      case I8(n) => Ok(n)
      case Int(n) => Ranged(n)
      case Float(Finite(x)) => if -128.0 <= x <= 127.0 then Ok(Truncate(x)) else Err(PriorityOutOfRange)
      case Float(_) => Err(PriorityOutOfRange)
      case Str(text) =>
        (match Atoi(text)
         case Some(n) => Ranged(n)
         case None => Err(PriorityFormat(text)))
      case Other => Ok(0)
  }

  function ParsePresence(target: string, m: AnyMap): Result<Stanza> {
    match ParseBase(target, m)
    case Err(e) => Err(e)
    case Ok(base) =>
      match ParsePriority(m)
      case Err(e) => Err(e)
      case Ok(priority) =>
        Ok(PresenceStanza(base, StringOr(m, TYPE, ""), StringOr(m, SHOW, ""), StringOr(m, STATUS, ""), priority))
  }

  // ---- encoding ----

  function BaseMap(b: Base): AnyMap {
    map[KIND := Str(b.kind), FROM := Str(b.from), TO := Str(b.to), ID := Str(b.id)]
  }

  function ToMap(s: Stanza): AnyMap {
    match s
    case MessageStanza(base, typ, subject, thread, lang) =>
      BaseMap(base)[TYPE := Str(typ)][SUBJECT := Str(subject)][THREAD := Str(thread)][LANG := Str(lang)]
    case IQStanza(base, typ) => BaseMap(base)[TYPE := Str(typ)]
    case PresenceStanza(base, typ, show, status, priority) =>
      BaseMap(base)[TYPE := Str(typ)][SHOW := Str(show)][STATUS := Str(status)][PRIORITY := I8(priority)]
  }

  // ---- names of the fields ----

  /** Every field travels under its own name, and nothing else does. */
  lemma FieldsByName(s: Stanza)
    ensures var m := ToMap(s);
            && {"kind", "from", "to", "id", "type"} <= m.Keys
            && m["kind"] == Str(s.base.kind) && m["from"] == Str(s.base.from) && m["to"] == Str(s.base.to)
            && m["id"] == Str(s.base.id) && m["type"] == Str(s.typ)
    ensures var m := ToMap(s);
            s.MessageStanza? ==>
              && m.Keys == {"kind", "from", "to", "id", "type", "subject", "thread", "lang"}
              && m["subject"] == Str(s.subject) && m["thread"] == Str(s.thread) && m["lang"] == Str(s.lang)
    ensures s.IQStanza? ==> ToMap(s).Keys == {"kind", "from", "to", "id", "type"}
    ensures var m := ToMap(s);
            s.PresenceStanza? ==>
              && m.Keys == {"kind", "from", "to", "id", "type", "show", "status", "priority"}
              && m["show"] == Str(s.show) && m["status"] == Str(s.status) && m["priority"] == I8(s.priority)
  {
    DistinctNames();
  }

  lemma DistinctNames()
    ensures KIND != FROM && KIND != TO && KIND != ID && KIND != TYPE && FROM != TO && FROM != ID && FROM != TYPE
    ensures TO != ID && TO != TYPE && ID != TYPE && SUBJECT != THREAD && SUBJECT != LANG && THREAD != LANG
    ensures SHOW != STATUS && SHOW != PRIORITY && STATUS != PRIORITY
  {
    assert KIND[0] != FROM[0] && KIND[0] != TO[0] && KIND[0] != ID[0] && KIND[0] != TYPE[0];
    assert TO[1] != TYPE[1] && SHOW[1] != STATUS[1] && |THREAD| != |LANG|;
  }

  /** Whatever map is accepted, each field of the record is the string under its name, or empty. */
  lemma ReadsByName(target: string, m: AnyMap)
    requires Parse(target, m).Ok?
    ensures var s := Parse(target, m).value;
            && Some(s.base.kind) == StringAt(m, "kind") && s.base.from == StringOr(m, "from", "")
            && s.base.id == StringOr(m, "id", "") && s.typ == StringOr(m, "type", "")
            && s.base.to == (if StringOr(m, "to", "") == "" then target else StringOr(m, "to", ""))
            && (s.MessageStanza? <==> s.base.kind == "message") && (s.IQStanza? <==> s.base.kind == "iq")
            && (s.MessageStanza? ==> s.subject == StringOr(m, "subject", "") && s.thread == StringOr(m, "thread", "")
                                     && s.lang == StringOr(m, "lang", ""))
            && (s.PresenceStanza? ==> s.base.kind == "presence" && s.show == StringOr(m, "show", "")
                                      && s.status == StringOr(m, "status", ""))
  {
  }

  predicate Given(m: AnyMap, key: string) {
    StringAt(m, key).Some?
  }

  /** Each refusal has its own cause, and for each cause there is its refusal. */
  lemma RefusedExactly(target: string, m: AnyMap)
    ensures var r := Parse(target, m); var kind := StringOr(m, "kind", "");
            && (r == Err(MissingKind) <==> !Given(m, "kind"))
            && (forall k :: r == Err(UnknownKind(k)) <==>
                  Given(m, "kind") && k == kind && kind != "message" && kind != "iq" && kind != "presence")
            && (r == Err(MissingType) <==> (kind == "message" || kind == "iq") && !Given(m, "type"))
            && (r == Err(MissingID) <==> kind == "iq" && Given(m, "type") && StringOr(m, "id", "") == "")
            && (r.Err? && r.error.PriorityFormat? ==> kind == "presence" && m["priority"] == Str(r.error.text))
  {
    assert MESSAGE[0] != IQ[0] && MESSAGE[0] != PRESENCE[0] && IQ[0] != PRESENCE[0] && |MESSAGE| > 0;
  }

  // ---- round trips ----

  /** The kind that belongs to the record's type. */
  function ProperKind(s: Stanza): string {
    match s
    case MessageStanza(_, _, _, _, _) => MESSAGE
    case IQStanza(_, _) => IQ
    case PresenceStanza(_, _, _, _, _) => PRESENCE
  }

  /**
    A record of its proper kind comes back unchanged exactly when an IQ has an ID and an empty
    destination was not going to be replaced by the target.
   */
  lemma RoundTrip(target: string, s: Stanza)
    requires s.base.kind == ProperKind(s)
    ensures Parse(target, ToMap(s)) == Ok(s) <==>
              (s.base.to != "" || target == "") && (s.IQStanza? ==> s.base.id != "")
  {
    BaseReadBack(target, s);
  }

  lemma BaseReadBack(target: string, s: Stanza)
    ensures ParseBase(target, ToMap(s)) == Ok(s.base.(to := if s.base.to != "" then s.base.to else target))
  {
    var m := ToMap(s);
    assert m[KIND] == Str(s.base.kind) && m[FROM] == Str(s.base.from);
    assert m[TO] == Str(s.base.to) && m[ID] == Str(s.base.id);
  }

  /** Whatever is accepted is stable: encoding it and parsing again gives the same record. */
  lemma ParseIsStable(target: string, m: AnyMap)
    requires Parse(target, m).Ok?
    ensures var s := Parse(target, m).value;
            Parse(target, ToMap(s)) == Ok(s) && s.base.kind == ProperKind(s) && (s.IQStanza? ==> s.base.id != "")
  {
    var s := Parse(target, m).value;
    assert s.base.kind == ProperKind(s);
    RoundTrip(target, s);
  }

  /** The four encodings of a priority mean the same number. */
  lemma PriorityEncodings(m: AnyMap, n: Int8)
    ensures ParsePriority(m[PRIORITY := I8(n)]) == Ok(n)
    ensures ParsePriority(m[PRIORITY := Int(n)]) == Ok(n)
    ensures ParsePriority(m[PRIORITY := Float(Finite(n as real))]) == Ok(n)
    ensures ParsePriority(m[PRIORITY := Str(Itoa(n))]) == Ok(n)
  {
    AtoiOfItoa(n);
  }

  /** A presence is refused exactly for its priority: out of range, not finite, or not a decimal number. */
  lemma PresenceAccepted(target: string, m: AnyMap)
    requires StringAt(m, KIND) == Some(PRESENCE)
    ensures Parse(target, m).Ok? <==>
              PRIORITY !in m ||
              match m[PRIORITY]
              case I8(_) => true
              case Other => true
              case Int(n) => -128 <= n <= 127
              case Float(f) => f.Finite? && -128.0 <= f.value <= 127.0
              case Str(text) => Atoi(text).Some? && -128 <= Atoi(text).value <= 127
    ensures Parse(target, m).Ok? && PRIORITY in m && m[PRIORITY].Float? ==>
              var p := Parse(target, m).value.priority; var x := m[PRIORITY].f.value;
              -1.0 < x - p as real < 1.0 && (x >= 0.0 ==> 0.0 <= p as real <= x) && (x <= 0.0 ==> x <= p as real <= 0.0)
    ensures Parse(target, m).Ok? ==>
              var p := Parse(target, m).value.priority;
              if PRIORITY !in m || m[PRIORITY].Other? then p == 0
              else match m[PRIORITY]
                   case I8(n) => p == n
                   case Int(n) => p == n
                   case Str(text) => Atoi(text) == Some(p)
                   case _ => true
  {
  }
}
