/**
  The shared template cache with double-checked insertion, and the pool of random sources. Parsing and
  rendering are parameters; a cached template object is its parse bound to the source of the caller
  that inserted it.
 */
module TemplateCache {
  import opened Wrappers

  /** A template object: the parse, and the random source its functions are bound to. */
  datatype Template<Tree> = Template(tree: Tree, source: nat)

  datatype Caller<Tree> =
    | Absent
    | Started(key: string, source: nat)
    | Missed(key: string, source: nat)
    | Parsed(key: string, source: nat, own: Template<Tree>)
    | Rendering(key: string, source: nat, bound: Template<Tree>)
    | Finished(key: string, result: Option<Tree>)

  /** minted: how many sources were ever made; free: those in the pool; dropped: those the pool let go. */
  datatype State<Tree> = State(
    cache: map<string, Template<Tree>>, callers: map<nat, Caller<Tree>>,
    free: set<nat>, dropped: set<nat>, minted: nat)

  datatype Event =
    | Arrive(c: nat, key: string, reuse: Option<nat>)
    | Lookup(c: nat)
    | Parse(c: nat)
    | Insert(c: nat)
    | Release(c: nat)
    | Forget(source: nat)

  function CallerAt<Tree>(s: State<Tree>, c: nat): Caller<Tree> {
    if c in s.callers then s.callers[c] else Absent
  }

  function Empty<Tree>(): State<Tree> {
    State(map[], map[], {}, {}, 0)
  }

  /** Pool.Get returns any pooled source or makes a new one; the pool may also drop sources it holds. */
  predicate Enabled<Tree>(s: State<Tree>, e: Event) {
    match e
    case Arrive(c, key, reuse) =>
      (CallerAt(s, c).Absent? || CallerAt(s, c).Finished?) && key != "" && (reuse.Some? ==> reuse.value in s.free)
    case Lookup(c) => CallerAt(s, c).Started?
    case Parse(c) => CallerAt(s, c).Missed?
    case Insert(c) => CallerAt(s, c).Parsed?
    case Release(c) => CallerAt(s, c).Rendering?
    case Forget(source) => source in s.free
  }

  function Put<Tree>(s: State<Tree>, c: nat, caller: Caller<Tree>): State<Tree> {
    s.(callers := s.callers[c := caller])
  }

  /** Cloning keeps the parse and binds the clone's functions to the caller's own source. */
  function CloneFor<Tree>(t: Template<Tree>, source: nat): Template<Tree> {
    t.(source := source)
  }

  function Apply<Tree>(parse: string -> Option<Tree>, s: State<Tree>, e: Event): State<Tree>
    requires Enabled(s, e)
  {
    match e
    case Arrive(c, key, reuse) =>
      if reuse.Some? then Put(s, c, Started(key, reuse.value)).(free := s.free - {reuse.value})
      else Put(s, c, Started(key, s.minted)).(minted := s.minted + 1)
    case Lookup(c) =>
      var me := s.callers[c];
      if me.key in s.cache then Put(s, c, Rendering(me.key, me.source, CloneFor(s.cache[me.key], me.source)))
      else Put(s, c, Missed(me.key, me.source))
    case Parse(c) =>
      var me := s.callers[c];
      var tree := parse(me.key);
      if tree.Some? then Put(s, c, Parsed(me.key, me.source, Template(tree.value, me.source)))
      else Put(s, c, Finished(me.key, None)).(free := s.free + {me.source})
    case Insert(c) =>
      var me := s.callers[c];
      if me.key in s.cache then Put(s, c, Rendering(me.key, me.source, CloneFor(s.cache[me.key], me.source)))
      else Put(s, c, Rendering(me.key, me.source, me.own)).(cache := s.cache[me.key := me.own])
    case Release(c) =>
      var me := s.callers[c];
      Put(s, c, Finished(me.key, Some(me.bound.tree))).(free := s.free + {me.source})
    case Forget(source) => s.(free := s.free - {source}, dropped := s.dropped + {source})
  }

  // ---- invariant ----

  predicate HoldsSource<Tree>(caller: Caller<Tree>) {
    caller.Started? || caller.Missed? || caller.Parsed? || caller.Rendering?
  }

  ghost predicate CallerInv<Tree>(parse: string -> Option<Tree>, s: State<Tree>, caller: Caller<Tree>) {
    && (HoldsSource(caller) ==> caller.source < s.minted && caller.source !in s.free)
    && match caller
       case Parsed(key, source, own) => parse(key) == Some(own.tree) && own.source == source
       case Rendering(key, source, bound) => parse(key) == Some(bound.tree) && bound.source == source
       case Finished(key, result) => result == parse(key)
       case _ => true
  }

  predicate Apart<Tree>(a: Caller<Tree>, b: Caller<Tree>) {
    HoldsSource(a) && HoldsSource(b) ==> a.source != b.source
  }

  ghost predicate Inv<Tree>(parse: string -> Option<Tree>, s: State<Tree>) {
    && (forall key :: key in s.cache ==> parse(key) == Some(s.cache[key].tree))
    && (forall c :: c in s.callers ==> CallerInv(parse, s, s.callers[c]))
    && (forall c, d :: c in s.callers && d in s.callers && c != d ==> Apart(s.callers[c], s.callers[d]))
    && (forall source :: source in s.free ==> source < s.minted)
  }

  lemma ArriveKept<Tree>(parse: string -> Option<Tree>, s: State<Tree>, c: nat, key: string, reuse: Option<nat>)
    requires Inv(parse, s) && Enabled(s, Arrive(c, key, reuse))
    ensures Inv(parse, Apply(parse, s, Arrive(c, key, reuse)))
  {
  }

  lemma LookupKept<Tree>(parse: string -> Option<Tree>, s: State<Tree>, c: nat)
    requires Inv(parse, s) && Enabled(s, Lookup(c))
    ensures Inv(parse, Apply(parse, s, Lookup(c)))
  {
  }

  lemma ParseKept<Tree>(parse: string -> Option<Tree>, s: State<Tree>, c: nat)
    requires Inv(parse, s) && Enabled(s, Parse(c))
    ensures Inv(parse, Apply(parse, s, Parse(c)))
  {
  }

  lemma InsertKept<Tree>(parse: string -> Option<Tree>, s: State<Tree>, c: nat)
    requires Inv(parse, s) && Enabled(s, Insert(c))
    ensures Inv(parse, Apply(parse, s, Insert(c)))
  {
  }

  lemma ReleaseKept<Tree>(parse: string -> Option<Tree>, s: State<Tree>, c: nat)
    requires Inv(parse, s) && Enabled(s, Release(c))
    ensures Inv(parse, Apply(parse, s, Release(c)))
  {
  }

  lemma Kept<Tree>(parse: string -> Option<Tree>, s: State<Tree>, e: Event)
    requires Inv(parse, s) && Enabled(s, e)
    ensures Inv(parse, Apply(parse, s, e))
  {
    match e
    case Arrive(c, key, reuse) => ArriveKept(parse, s, c, key, reuse);
    case Lookup(c) => LookupKept(parse, s, c);
    case Parse(c) => ParseKept(parse, s, c);
    case Insert(c) => InsertKept(parse, s, c);
    case Release(c) => ReleaseKept(parse, s, c);
    case Forget(_) =>
  }

  // ---- every run ----

  predicate Admissible<Tree>(parse: string -> Option<Tree>, s: State<Tree>, es: seq<Event>)
    decreases es
  {
    es == [] || (Enabled(s, es[0]) && Admissible(parse, Apply(parse, s, es[0]), es[1..]))
  }

  function After<Tree>(parse: string -> Option<Tree>, s: State<Tree>, es: seq<Event>): State<Tree>
    requires Admissible(parse, s, es)
    decreases es
  {
    if es == [] then s else After(parse, Apply(parse, s, es[0]), es[1..])
  }

  lemma {:induction false} InvAlongRun<Tree>(parse: string -> Option<Tree>, s: State<Tree>, es: seq<Event>)
    requires Inv(parse, s) && Admissible(parse, s, es)
    ensures Inv(parse, After(parse, s, es))
    decreases es
  {
    if es != [] {
      Kept(parse, s, es[0]);
      InvAlongRun(parse, Apply(parse, s, es[0]), es[1..]);
    }
  }

  /** Every source made is in the pool, dropped by it, or held by a caller that is still at work. */
  ghost predicate SourcesKept<Tree>(s: State<Tree>) {
    forall source :: 0 <= source < s.minted ==> source in s.free || source in s.dropped || Held(s, source)
  }

  ghost predicate Held<Tree>(s: State<Tree>, source: nat) {
    exists c :: c in s.callers && HoldsSource(s.callers[c]) && s.callers[c].source == source
  }

  /** A source that is held stays with its caller, or goes to the pool. */
  lemma HeldNext<Tree>(parse: string -> Option<Tree>, s: State<Tree>, e: Event, source: nat)
    requires Enabled(s, e) && Held(s, source)
    ensures source in Apply(parse, s, e).free || Held(Apply(parse, s, e), source)
  {
    var c :| c in s.callers && HoldsSource(s.callers[c]) && s.callers[c].source == source;
    var s' := Apply(parse, s, e);
    if source !in s'.free {
      assert c in s'.callers && HoldsSource(s'.callers[c]) && s'.callers[c].source == source;
    }
  }

  lemma SourcesNext<Tree>(parse: string -> Option<Tree>, s: State<Tree>, e: Event)
    requires Enabled(s, e) && SourcesKept(s)
    ensures SourcesKept(Apply(parse, s, e))
  {
    var s' := Apply(parse, s, e);
    forall source | 0 <= source < s'.minted ensures source in s'.free || source in s'.dropped || Held(s', source) {
      if source < s.minted && Held(s, source) {
        HeldNext(parse, s, e, source);
      } else if e.Arrive? && s'.callers[e.c].source == source {
        assert HoldsSource(s'.callers[e.c]);
      }
    }
  }

  /** No source is ever lost, on whatever path the callers end. */
  lemma {:induction false} SourcesAlongRun<Tree>(parse: string -> Option<Tree>, s: State<Tree>, es: seq<Event>)
    requires Admissible(parse, s, es) && SourcesKept(s)
    ensures SourcesKept(After(parse, s, es))
    decreases es
  {
    if es != [] {
      SourcesNext(parse, s, es[0]);
      SourcesAlongRun(parse, Apply(parse, s, es[0]), es[1..]);
    }
  }

  /** The first insertion of a key is never replaced and never removed. */
  lemma {:induction false} FirstInsertionStays<Tree>(
    parse: string -> Option<Tree>, s: State<Tree>, es: seq<Event>, key: string)
    requires Admissible(parse, s, es) && key in s.cache
    ensures key in After(parse, s, es).cache && After(parse, s, es).cache[key] == s.cache[key]
    decreases es
  {
    if es != [] {
      FirstInsertionStays(parse, Apply(parse, s, es[0]), es[1..], key);
    }
  }

  /**
    Under every interleaving of callers: a cached entry is the parse of its key, so a failed parse is
    never stored; every caller that finished got what direct parsing gives; and two callers that render
    at the same time are bound to different random sources, each its own.
   */
  lemma Transparent<Tree>(parse: string -> Option<Tree>, es: seq<Event>)
    requires Admissible(parse, Empty(), es)
    ensures var s := After(parse, Empty(), es);
            && (forall key :: key in s.cache ==> parse(key) == Some(s.cache[key].tree))
            && (forall c :: c in s.callers && s.callers[c].Finished? ==> s.callers[c].result == parse(s.callers[c].key))
            && (forall c :: c in s.callers && s.callers[c].Rendering? ==>
                  s.callers[c].bound.source == s.callers[c].source)
            && (forall c, d :: c in s.callers && d in s.callers && c != d
                  && s.callers[c].Rendering? && s.callers[d].Rendering?
                  ==> s.callers[c].bound.source != s.callers[d].bound.source)
  {
    InvAlongRun(parse, Empty(), es);
    var s := After(parse, Empty(), es);
    forall c, d | c in s.callers && d in s.callers && c != d && s.callers[c].Rendering? && s.callers[d].Rendering?
      ensures s.callers[c].bound.source != s.callers[d].bound.source
    {
      assert Apart(s.callers[c], s.callers[d]);
    }
  }

  // ---- the cache object ----

  class Templates<Tree> {
    const parse: string -> Option<Tree>
    var cache: map<string, Template<Tree>>
    var free: set<nat>
    var minted: nat

    ghost predicate Valid()
      reads this
    {
      && (forall key :: key in cache ==> parse(key) == Some(cache[key].tree))
      && (forall source :: source in free ==> source < minted)
    }

    constructor (parse: string -> Option<Tree>)
      ensures Valid() && this.parse == parse && cache == map[] && free == {}
    {
      this.parse := parse;
      cache := map[];
      free := {};
      minted := 0;
    }

    /** Two sections under the lock. rival: what another caller stored for the key between them. */
    method GetOrCreate(key: string, source: nat, rival: Option<Template<Tree>>) returns (r: Option<Template<Tree>>)
      requires Valid() && (rival.Some? ==> parse(key) == Some(rival.value.tree))
      modifies `cache
      ensures Valid()
      ensures r.Some? <==> parse(key).Some?
      ensures r.Some? ==> parse(key) == Some(r.value.tree) && r.value.source == source
      ensures parse(key).None? || key in old(cache) ==> cache == old(cache)
      ensures parse(key).Some? && key !in old(cache) && rival.None? ==> cache == old(cache)[key := r.value]
      ensures forall k :: k in old(cache) ==> k in cache && cache[k] == old(cache)[k]
      ensures key !in old(cache) && rival.Some? ==> cache == old(cache)[key := rival.value]
    {
      if key in cache {
        return Some(CloneFor(cache[key], source));
      }
      var tree := parse(key);
      if tree.None? {
        return None;
      }
      if rival.Some? {
        cache := cache[key := rival.value];
      }
      if key in cache {
        return Some(CloneFor(cache[key], source));
      }
      var own := Template(tree.value, source);
      cache := cache[key := own];
      return Some(own);
    }

    /** Rendering with a source from the pool, which is back in the pool whatever happens. */
    method Execute(key: string, render: (Tree, nat) -> Option<string>, rival: Option<Template<Tree>>)
      returns (r: Option<string>)
      requires Valid() && (rival.Some? ==> parse(key) == Some(rival.value.tree))
      modifies this
      ensures Valid()
      ensures key == "" ==> r == Some("") && cache == old(cache) && free == old(free)
      ensures key != "" ==>
                exists source :: source in free && source <= old(minted)
                  && r == match parse(key) case None => None case Some(tree) => render(tree, source)
      ensures old(free) <= free
      ensures key != "" && parse(key).Some? ==> key in cache
      ensures forall k :: k in old(cache) ==> k in cache && cache[k] == old(cache)[k]
    {
      if key == "" {
        return Some("");
      }
      var source := minted;
      if free != {} {
        source :| source in free;
        free := free - {source};
      } else {
        minted := minted + 1;
      }
      var t := GetOrCreate(key, source, rival);
      r := if t.None? then None else render(t.value.tree, t.value.source);
      free := free + {source};
    }
  }
}
