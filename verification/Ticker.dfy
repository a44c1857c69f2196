/** The global tick, its delivery to the connected clients, and how often periodic entries fire. */
module Ticker {
  import opened Counting

  // ---- delivery ----

  /** A goroutine started by a broadcast that has not called OnTick yet. */
  datatype Delivery = Delivery(client: string, tick: nat)

  /** delivered: the OnTick calls in the order they happened, which need not be the order of the ticks. */
  datatype State = State(tick: nat, connected: set<string>, flying: multiset<Delivery>, delivered: seq<Delivery>)

  datatype Event = Tick | Deliver(d: Delivery) | Connect(client: string) | Drop(client: string)

  predicate Enabled(s: State, e: Event) {
    match e
    case Tick => true
    case Deliver(d) => d in s.flying
    case Connect(client) => client !in s.connected
    case Drop(client) => client in s.connected
  }

  function Broadcast(s: State): multiset<Delivery> {
    multiset(set client | client in s.connected :: Delivery(client, s.tick + 1))
  }

  function Apply(s: State, e: Event): State
    requires Enabled(s, e)
  {
    match e
    case Tick => s.(tick := s.tick + 1, flying := s.flying + Broadcast(s))
    case Deliver(d) => s.(flying := s.flying - multiset{d}, delivered := s.delivered + [d])
    case Connect(client) => s.(connected := s.connected + {client})
    case Drop(client) => s.(connected := s.connected - {client})
  }

  predicate Admissible(s: State, es: seq<Event>)
    decreases es
  {
    es == [] || (Enabled(s, es[0]) && Admissible(Apply(s, es[0]), es[1..]))
  }

  function After(s: State, es: seq<Event>): State
    requires Admissible(s, es)
    decreases es
  {
    if es == [] then s else After(Apply(s, es[0]), es[1..])
  }

  /** What a client has been or is being told. */
  function Told(s: State): multiset<Delivery> {
    multiset(s.delivered) + s.flying
  }

  lemma BroadcastCounts(s: State, client: string, t: nat)
    ensures Broadcast(s)[Delivery(client, t)] == if client in s.connected && t == s.tick + 1 then 1 else 0
  {
    var ds := set c | c in s.connected :: Delivery(c, s.tick + 1);
    assert client in s.connected ==> Delivery(client, s.tick + 1) in ds;
  }

  /** Only a tick tells a client anything: its own number, once, when the client is connected then. */
  lemma ToldNext(s: State, e: Event, client: string, t: nat)
    requires Enabled(s, e)
    ensures Told(Apply(s, e))[Delivery(client, t)] ==
              Told(s)[Delivery(client, t)] + multiset(HeardAt(s, e, client))[t]
  {
    if e.Tick? {
      BroadcastCounts(s, client, t);
    }
  }

  /** The ticks that happen while the client is connected. */
  function Heard(s: State, es: seq<Event>, client: string): seq<nat>
    requires Admissible(s, es)
    decreases es
  {
    if es == [] then []
    else HeardAt(s, es[0], client) + Heard(Apply(s, es[0]), es[1..], client)
  }

  function HeardAt(s: State, e: Event, client: string): seq<nat> {
    if e.Tick? && client in s.connected then [s.tick + 1] else []
  }

  lemma HeardCount(s: State, es: seq<Event>, client: string, t: nat)
    requires es != [] && Admissible(s, es)
    ensures multiset(Heard(s, es, client))[t] ==
              multiset(HeardAt(s, es[0], client))[t] + multiset(Heard(Apply(s, es[0]), es[1..], client))[t]
  {
    CountTail(HeardAt(s, es[0], client), Heard(Apply(s, es[0]), es[1..], client), t);
  }

  /** Whenever the client connects and drops, it is told exactly the ticks of its connected times. */
  lemma {:induction false} ToldHeard(s: State, es: seq<Event>, client: string, t: nat)
    requires Admissible(s, es)
    ensures Told(After(s, es))[Delivery(client, t)] ==
              Told(s)[Delivery(client, t)] + multiset(Heard(s, es, client))[t]
    decreases es
  {
    if es != [] {
      ToldNext(s, es[0], client, t);
      ToldHeard(Apply(s, es[0]), es[1..], client, t);
      HeardCount(s, es, client, t);
    }
  }

  predicate Stays(es: seq<Event>, client: string) {
    forall i :: 0 <= i < |es| ==> es[i] != Drop(client)
  }

  /** The tick values the client's OnTick was called with, in the order of the calls. */
  function TicksOf(ds: seq<Delivery>, client: string): seq<nat> {
    if ds == [] then []
    else (if ds[0].client == client then [ds[0].tick] else []) + TicksOf(ds[1..], client)
  }

  lemma {:induction false} TicksCounted(ds: seq<Delivery>, client: string, t: nat)
    ensures multiset(TicksOf(ds, client))[t] == multiset(ds)[Delivery(client, t)]
  {
    if ds != [] {
      TicksCounted(ds[1..], client, t);
      CountHead(ds, Delivery(client, t));
      var own := if ds[0].client == client then [ds[0].tick] else [];
      CountTail(own, TicksOf(ds[1..], client), t);
    }
  }

  lemma CountHead<T>(xs: seq<T>, x: T)
    requires xs != []
    ensures multiset(xs)[x] == multiset(xs[1..])[x] + if xs[0] == x then 1 else 0
  {
    assert xs == [xs[0]] + xs[1..];
  }

  lemma CountTail<T>(xs: seq<T>, ys: seq<T>, x: T)
    ensures multiset(xs + ys)[x] == multiset(xs)[x] + multiset(ys)[x]
  {
  }

  // ---- periodic firing ----

  function UpTo(n: nat): seq<nat> {
    if n == 0 then [] else UpTo(n - 1) + [n]
  }

  lemma {:induction false} UpToCounted(n: nat, t: nat)
    ensures multiset(UpTo(n))[t] == if 1 <= t <= n then 1 else 0
  {
    if n > 0 {
      UpToCounted(n - 1, t);
      CountTail(UpTo(n - 1), [n], t);
    }
  }

  function Fires(k: nat): nat -> nat
    requires k > 0
  {
    (t: nat) => if t % k == 0 then 1 else 0
  }

  lemma NextQuotient(n: nat, k: nat)
    requires n > 0 && k > 0
    ensures n / k == (n - 1) / k + if n % k == 0 then 1 else 0
  {
    var q, r := (n - 1) / k, (n - 1) % k;
    assert n == k * q + (r + 1);
    if r + 1 == k {
      assert n == k * (q + 1);
      QuotientIs(n, k, q + 1, 0);
    } else {
      QuotientIs(n, k, q, r + 1);
    }
  }

  lemma QuotientIs(n: nat, k: nat, q: nat, r: nat)
    requires k > 0 && n == k * q + r && r < k
    ensures n / k == q && n % k == r
  {
    var d := n / k - q;
    assert k * d == r - n % k;
    MultipleFar(k, d);
    assert d == 0;
  }

  lemma MultipleFar(k: nat, d: int)
    requires k > 0
    ensures d >= 1 ==> k * d >= k
    ensures d <= -1 ==> k * d <= 0 - k
  {
  }

  /** Over the ticks 1 to n an interval of k fires n / k times. */
  lemma {:induction false} FiringCount(n: nat, k: nat)
    requires k > 0
    ensures Sum(UpTo(n), Fires(k)) == n / k
  {
    if n > 0 {
      FiringCount(n - 1, k);
      SumSnoc(UpTo(n - 1), n, Fires(k));
      NextQuotient(n, k);
    }
  }

  // ---- connected times ----

  /** The ticks from + 1 to to, one after another. */
  datatype Span = Span(from: nat, to: nat)

  function Extend(tick: nat, spans: seq<Span>): seq<Span> {
    if spans != [] && spans[0].from == tick + 1 then [Span(tick, spans[0].to)] + spans[1..]
    else [Span(tick, tick + 1)] + spans
  }

  /** The longest stretches of ticks the client is connected for. */
  function Spans(s: State, es: seq<Event>, client: string): seq<Span>
    requires Admissible(s, es)
    decreases es
  {
    if es == [] then []
    else
      var spans := Spans(Apply(s, es[0]), es[1..], client);
      if es[0].Tick? && client in s.connected then Extend(s.tick, spans) else spans
  }

  predicate InSpans(spans: seq<Span>, t: nat) {
    exists i :: 0 <= i < |spans| && spans[i].from < t <= spans[i].to
  }

  /** In order, none empty, and at least one tick missed between any two. */
  predicate Separate(spans: seq<Span>, start: nat, end: nat) {
    && (forall i :: 0 <= i < |spans| ==> start <= spans[i].from < spans[i].to <= end)
    && (forall i, j :: 0 <= i < j < |spans| ==> spans[i].to < spans[j].from)
  }

  lemma ExtendSeparate(tick: nat, spans: seq<Span>, end: nat)
    requires Separate(spans, tick + 1, end) && tick < end
    ensures Separate(Extend(tick, spans), tick, end)
  {
    var more := Extend(tick, spans);
    if |more| == |spans| {
      assert forall i :: 0 <= i < |more| ==> more[i].to == spans[i].to && (i > 0 ==> more[i] == spans[i]);
    } else {
      assert forall i :: 0 < i < |more| ==> more[i] == spans[i - 1];
      forall j | 0 < j < |more| ensures tick + 1 < more[j].from {
        assert spans[0].from != tick + 1;
      }
    }
  }

  lemma InSpansHead(spans: seq<Span>, t: nat)
    requires spans != []
    ensures InSpans(spans, t) <==> spans[0].from < t <= spans[0].to || InSpans(spans[1..], t)
  {
    if i :| 0 < i < |spans| && spans[i].from < t <= spans[i].to {
      assert spans[1..][i - 1].from < t <= spans[1..][i - 1].to;
    }
    if i :| 0 <= i < |spans[1..]| && spans[1..][i].from < t <= spans[1..][i].to {
      assert spans[i + 1].from < t <= spans[i + 1].to;
    }
  }

  lemma ExtendCovers(tick: nat, spans: seq<Span>, t: nat)
    requires forall i :: 0 <= i < |spans| ==> spans[i].from < spans[i].to
    ensures InSpans(Extend(tick, spans), t) <==> t == tick + 1 || InSpans(spans, t)
  {
    InSpansHead(Extend(tick, spans), t);
    if spans != [] {
      InSpansHead(spans, t);
    }
    assert Extend(tick, spans)[1..] == if spans != [] && spans[0].from == tick + 1 then spans[1..] else spans;
  }

  lemma {:induction false} TickGrows(s: State, es: seq<Event>)
    requires Admissible(s, es)
    ensures s.tick <= After(s, es).tick
    decreases es
  {
    if es != [] {
      TickGrows(Apply(s, es[0]), es[1..]);
    }
  }

  lemma {:induction false} SpansSeparate(s: State, es: seq<Event>, client: string)
    requires Admissible(s, es)
    ensures Separate(Spans(s, es, client), s.tick, After(s, es).tick)
    decreases es
  {
    if es != [] {
      var s' := Apply(s, es[0]);
      SpansSeparate(s', es[1..], client);
      TickGrows(s', es[1..]);
      if es[0].Tick? && client in s.connected {
        ExtendSeparate(s.tick, Spans(s', es[1..], client), After(s', es[1..]).tick);
      }
    }
  }

  /** What separate spans hold comes after their start. */
  lemma TellApart(spans: seq<Span>, start: nat, end: nat)
    requires Separate(spans, start, end)
    ensures !InSpans(spans, start)
  {
  }

  lemma ExtendAdds(tick: nat, spans: seq<Span>, end: nat, t: nat)
    requires Separate(spans, tick + 1, end)
    ensures InSpans(Extend(tick, spans), t) <==> t == tick + 1 || InSpans(spans, t)
    ensures !InSpans(spans, tick + 1)
  {
    TellApart(spans, tick + 1, end);
    ExtendCovers(tick, spans, t);
  }

  /** An event adds to the spans the tick it is heard as, which they did not hold. */
  lemma SpansNext(s: State, es: seq<Event>, client: string, t: nat)
    requires es != [] && Admissible(s, es)
    ensures var rest := Spans(Apply(s, es[0]), es[1..], client);
            && (InSpans(Spans(s, es, client), t) <==> t in HeardAt(s, es[0], client) || InSpans(rest, t))
            && !(t in HeardAt(s, es[0], client) && InSpans(rest, t))
  {
    if es[0].Tick? && client in s.connected {
      var s' := Apply(s, es[0]);
      SpansSeparate(s', es[1..], client);
      ExtendAdds(s.tick, Spans(s', es[1..], client), After(s', es[1..]).tick, t);
    }
  }

  /** The spans hold exactly the ticks of the client's connected times. */
  lemma {:induction false} SpansHoldHeard(s: State, es: seq<Event>, client: string, t: nat)
    requires Admissible(s, es)
    ensures multiset(Heard(s, es, client))[t] == if InSpans(Spans(s, es, client), t) then 1 else 0
    decreases es
  {
    if es != [] {
      HeardCount(s, es, client, t);
      SpansHoldHeard(Apply(s, es[0]), es[1..], client, t);
      SpansNext(s, es, client, t);
    }
  }

  /** Firings of an interval of k over the spans. */
  function FiringsOf(spans: seq<Span>, k: nat): int
    requires k > 0
  {
    if spans == [] then 0 else spans[0].to / k - spans[0].from / k + FiringsOf(spans[1..], k)
  }

  lemma ExtendFires(tick: nat, spans: seq<Span>, k: nat)
    requires k > 0
    ensures FiringsOf(Extend(tick, spans), k) == Fires(k)(tick + 1) + FiringsOf(spans, k)
  {
    NextQuotient(tick + 1, k);
  }

  lemma {:induction false} HeardFires(s: State, es: seq<Event>, client: string, k: nat)
    requires Admissible(s, es) && k > 0
    ensures Sum(Heard(s, es, client), Fires(k)) == FiringsOf(Spans(s, es, client), k)
    decreases es
  {
    if es != [] {
      var s' := Apply(s, es[0]);
      HeardFires(s', es[1..], client, k);
      SumAppend(HeardAt(s, es[0], client), Heard(s', es[1..], client), Fires(k));
      if es[0].Tick? && client in s.connected {
        ExtendFires(s.tick, Spans(s', es[1..], client), k);
      }
    }
  }

  /** Nothing is in flight to the client. */
  ghost predicate AllDelivered(s: State, client: string) {
    forall t: nat :: s.flying[Delivery(client, t)] == 0
  }

  const START := State(0, {}, multiset{}, [])

  /** In every run each tick is delivered or in flight to a client once if it was connected then, else never. */
  lemma ToldOnce(others: set<string>, es: seq<Event>, client: string, t: nat)
    requires Admissible(START.(connected := others), es)
    ensures var s0 := START.(connected := others);
            Told(After(s0, es))[Delivery(client, t)] == if InSpans(Spans(s0, es, client), t) then 1 else 0
  {
    ToldHeard(START.(connected := others), es, client, t);
    SpansHoldHeard(START.(connected := others), es, client, t);
  }

  lemma TicksAreHeard(others: set<string>, es: seq<Event>, client: string)
    requires Admissible(START.(connected := others), es)
    requires AllDelivered(After(START.(connected := others), es), client)
    ensures var s0 := START.(connected := others);
            multiset(TicksOf(After(s0, es).delivered, client)) == multiset(Heard(s0, es, client))
  {
    var s0 := START.(connected := others);
    var s := After(s0, es);
    forall t: nat ensures multiset(TicksOf(s.delivered, client))[t] == multiset(Heard(s0, es, client))[t] {
      TicksCounted(s.delivered, client, t);
      ToldHeard(s0, es, client, t);
      assert s.flying[Delivery(client, t)] == 0;
    }
  }

  /**
    Main theorem. In every run, whenever the client connects and drops: once its pending deliveries are
    done it has seen exactly the ticks of its connected times, each once, in some order; and an entry of
    interval k fired b / k - a / k times for each stretch a + 1 to b of them, and not otherwise.
   */
  lemma FiringsOfClient(others: set<string>, es: seq<Event>, client: string, k: nat)
    requires k > 0 && Admissible(START.(connected := others), es)
    requires AllDelivered(After(START.(connected := others), es), client)
    ensures var s0 := START.(connected := others); var ticks := TicksOf(After(s0, es).delivered, client);
            && multiset(ticks) == multiset(Heard(s0, es, client))
            && Sum(ticks, Fires(k)) == FiringsOf(Spans(s0, es, client), k)
  {
    var s0 := START.(connected := others);
    TicksAreHeard(others, es, client);
    SumPermutation(TicksOf(After(s0, es).delivered, client), Heard(s0, es, client), Fires(k));
    HeardFires(s0, es, client, k);
  }

  // ---- joining and leaving ----

  /** A client that is not connected hears nothing until it connects. */
  lemma {:induction false} AbsentHearsNothing(s: State, es: seq<Event>, client: string)
    requires Admissible(s, es) && client !in s.connected
    requires forall i :: 0 <= i < |es| ==> es[i] != Connect(client)
    ensures Heard(s, es, client) == [] && Spans(s, es, client) == []
    decreases es
  {
    if es != [] {
      AbsentHearsNothing(Apply(s, es[0]), es[1..], client);
    }
  }

  /** After its drop a client hears nothing, unless it connects again. */
  lemma DroppedHearsNothing(s: State, client: string, es: seq<Event>)
    requires Enabled(s, Drop(client)) && Admissible(Apply(s, Drop(client)), es)
    requires forall i :: 0 <= i < |es| ==> es[i] != Connect(client)
    ensures Heard(Apply(s, Drop(client)), es, client) == []
  {
    AbsentHearsNothing(Apply(s, Drop(client)), es, client);
  }

  /** From its connect on a client that stays hears every tick: they are one span. */
  lemma JoinerHearsOn(s: State, client: string, es: seq<Event>)
    requires Enabled(s, Connect(client)) && Admissible(Apply(s, Connect(client)), es) && Stays(es, client)
    ensures var t := Apply(s, Connect(client)); var end := After(t, es).tick;
            Spans(t, es, client) == if end == s.tick then [] else [Span(s.tick, end)]
  {
    StayerHasOneSpan(Apply(s, Connect(client)), es, client);
  }

  // ---- one stretch ----

  lemma Within(spans: seq<Span>, i: nat, t: nat)
    requires i < |spans| && spans[i].from < t <= spans[i].to
    ensures InSpans(spans, t)
  {
  }

  lemma NextMissed(spans: seq<Span>, start: nat, end: nat, i: nat)
    requires Separate(spans, start, end) && i < |spans|
    ensures !InSpans(spans, spans[i].to + 1)
  {
    forall j | 0 <= j < |spans| ensures !(spans[j].from < spans[i].to + 1 <= spans[j].to) {
    }
  }

  /** Separate spans that hold the ticks a + 1 to b are one span. */
  lemma OneStretch(spans: seq<Span>, start: nat, end: nat, a: nat, b: nat)
    requires Separate(spans, start, end) && a < b
    requires forall t: nat :: InSpans(spans, t) <==> a < t <= b
    ensures spans == [Span(a, b)]
  {
    assert InSpans(spans, a + 1);
    var i :| 0 <= i < |spans| && spans[i].from < a + 1 <= spans[i].to;
    forall j | 0 <= j < |spans| ensures a <= spans[j].from && spans[j].to <= b {
      Within(spans, j, spans[j].from + 1);
      Within(spans, j, spans[j].to);
    }
    NextMissed(spans, start, end, i);
    assert spans[i] == Span(a, b);
    var first, last := spans[0], spans[|spans| - 1];
    assert a <= first.from < first.to;
    assert i == 0;
    assert last.from < last.to <= b;
    assert |spans| == 1;
  }

  /** A client connected for exactly the ticks a + 1 to b: an entry of interval k fires b / k - a / k times. */
  lemma FiringsOfOneStretch(others: set<string>, es: seq<Event>, client: string, k: nat, a: nat, b: nat)
    requires k > 0 && a < b && Admissible(START.(connected := others), es)
    requires AllDelivered(After(START.(connected := others), es), client)
    requires forall t: nat :: t in Heard(START.(connected := others), es, client) <==> a < t <= b
    ensures Sum(TicksOf(After(START.(connected := others), es).delivered, client), Fires(k)) == b / k - a / k
  {
    var s0 := START.(connected := others);
    forall t: nat ensures InSpans(Spans(s0, es, client), t) <==> a < t <= b {
      SpansHoldHeard(s0, es, client, t);
      assert t in Heard(s0, es, client) <==> multiset(Heard(s0, es, client))[t] > 0;
    }
    SpansSeparate(s0, es, client);
    OneStretch(Spans(s0, es, client), 0, After(s0, es).tick, a, b);
    FiringsOfClient(others, es, client, k);
  }

  // ---- clients that stay ----

  lemma Regroup<T>(xs: seq<T>, ys: seq<T>, zs: seq<T>)
    ensures xs + (ys + zs) == (xs + ys) + zs
  {
  }

  lemma {:induction false} StayerHearsAll(s: State, es: seq<Event>, client: string)
    requires Admissible(s, es) && client in s.connected && Stays(es, client)
    ensures UpTo(s.tick) + Heard(s, es, client) == UpTo(After(s, es).tick)
    decreases es
  {
    if es != [] {
      var s' := Apply(s, es[0]);
      StayerHearsAll(s', es[1..], client);
      Regroup(UpTo(s.tick), HeardAt(s, es[0], client), Heard(s', es[1..], client));
      assert UpTo(s.tick) + HeardAt(s, es[0], client) == UpTo(s'.tick);
    }
  }

  /** While a client stays connected its ticks are one span. */
  lemma {:induction false} StayerHasOneSpan(s: State, es: seq<Event>, client: string)
    requires Admissible(s, es) && client in s.connected && Stays(es, client)
    ensures var end := After(s, es).tick;
            s.tick <= end && Spans(s, es, client) == if end == s.tick then [] else [Span(s.tick, end)]
    decreases es
  {
    if es != [] {
      StayerHasOneSpan(Apply(s, es[0]), es[1..], client);
    }
  }

  /** A client that is connected before the first tick and stays: n / k firings in n ticks. */
  lemma FiringsOfConnectedClient(others: set<string>, es: seq<Event>, client: string, k: nat)
    requires k > 0 && client in others && Stays(es, client)
    requires Admissible(START.(connected := others), es)
    requires AllDelivered(After(START.(connected := others), es), client)
    ensures var s := After(START.(connected := others), es);
            && multiset(TicksOf(s.delivered, client)) == multiset(UpTo(s.tick))
            && Sum(TicksOf(s.delivered, client), Fires(k)) == s.tick / k
  {
    var s0 := START.(connected := others);
    FiringsOfClient(others, es, client, k);
    StayerHearsAll(s0, es, client);
    assert UpTo(0) + Heard(s0, es, client) == Heard(s0, es, client);
    StayerHasOneSpan(s0, es, client);
  }
}
