/** The connection pool, the client IDs, and the size of the pool after concurrent connects. */
module Pool {
  import opened Wrappers
  import opened Decimal
  import EngineModel

  type Client = EngineModel.Client

  /** Lists every pooled client exactly once: no two share an ID, and the IDs are those of the pool. */
  ghost predicate Lists(clients: seq<Client>, m: map<string, Client>) {
    && (forall i :: 0 <= i < |clients| ==> clients[i].id in m && m[clients[i].id] == clients[i])
    && (forall i, j :: 0 <= i < j < |clients| ==> clients[i].id != clients[j].id)
    && (forall id :: id in m ==> m[id] in clients)
  }

  ghost predicate Keyed(m: map<string, Client>) {
    forall id :: id in m ==> m[id].id == id
  }

  class ConnectionPool {
    var connections: map<string, Client>

    ghost predicate Valid()
      reads this
    {
      Keyed(connections)
    }

    constructor ()
      ensures Valid() && connections == map[]
    {
      connections := map[];
    }

    method Add(client: Client)
      requires Valid()
      modifies this
      ensures Valid() && connections == old(connections)[client.id := client]
    {
      connections := connections[client.id := client];
    }

    method Remove(id: string)
      requires Valid()
      modifies this
      ensures Valid() && connections == old(connections) - {id}
    {
      connections := connections - {id};
    }

    /** The one pooled client with this ID. */
    method Get(id: string) returns (r: Option<Client>)
      requires Valid()
      ensures r.Some? ==> r.value.id == id && r.value in connections.Values
      ensures r.Some? ==> forall client :: client in connections.Values && client.id == id ==> client == r.value
      ensures r.None? ==> forall client :: client in connections.Values ==> client.id != id
    {
      r := if id in connections then Some(connections[id]) else None;
    }

    /** A snapshot, in an order the map does not fix. */
    method All() returns (clients: seq<Client>)
      requires Valid()
      ensures Lists(clients, connections) && |clients| == |connections|
    {
      clients := [];
      var rest := connections;
      while rest != map[]
        invariant rest.Keys <= connections.Keys && (forall id :: id in rest ==> rest[id] == connections[id])
        invariant |clients| + |rest| == |connections|
        invariant forall i :: 0 <= i < |clients| ==>
                    && clients[i].id in connections && clients[i].id !in rest
                    && connections[clients[i].id] == clients[i]
        invariant forall i, j :: 0 <= i < j < |clients| ==> clients[i].id != clients[j].id
        invariant ListsBut(connections, rest, clients)
        decreases |rest|
      {
        var id :| id in rest;
        SmallerBy(rest, id);
        ListedNext(connections, rest, clients, id);
        clients := clients + [rest[id]];
        rest := rest - {id};
      }
    }

    /** How many clients any snapshot lists. */
    method Count() returns (n: nat)
      requires Valid()
      ensures n == |connections|
      ensures forall clients :: Lists(clients, connections) ==> |clients| == n
    {
      n := |connections|;
      forall clients | Lists(clients, connections) ensures |clients| == n {
        ListsLength(clients, connections);
      }
    }

    /**
      calls: the clients whose Disconnect was called, in that order. late: the clients others add between
      the snapshot and the reset; they leave the pool without a Disconnect.
     */
    method DisconnectAll(late: seq<Client>) returns (calls: seq<Client>)
      requires Valid()
      modifies this
      ensures Valid() && Lists(calls, old(connections)) && connections == map[]
    {
      var clients := All();
      calls := [];
      for i := 0 to |clients|
        invariant connections == old(connections) && calls == clients[..i]
      {
        calls := calls + [clients[i]];
      }
      for i := 0 to |late|
        invariant Valid()
      {
        Add(late[i]);
      }
      connections := map[];
    }
  }

  /** Every pooled client not left over is in the list. */
  predicate ListsBut(m: map<string, Client>, rest: map<string, Client>, clients: seq<Client>) {
    forall id :: id in m && id !in rest ==> m[id] in clients
  }

  lemma ListedNext(m: map<string, Client>, rest: map<string, Client>, clients: seq<Client>, id: string)
    requires ListsBut(m, rest, clients) && id in rest && id in m && rest[id] == m[id]
    ensures ListsBut(m, rest - {id}, clients + [rest[id]])
  {
  }

  lemma {:induction false} ListsLength(clients: seq<Client>, m: map<string, Client>)
    requires Lists(clients, m) && Keyed(m)
    ensures |clients| == |m|
    decreases |clients|
  {
    if clients == [] {
      assert m.Keys == {};
    } else {
      var n := |clients| - 1;
      var last := clients[n];
      var rest := m - {last.id};
      forall id | id in rest ensures rest[id] in clients[..n] {
        var i :| 0 <= i < |clients| && clients[i] == m[id];
        assert clients[..n][i] == rest[id];
      }
      ListsLength(clients[..n], rest);
      SmallerBy(m, last.id);
    }
  }

  lemma SmallerBy(m: map<string, Client>, id: string)
    requires id in m
    ensures |m - {id}| == |m| - 1
  {
    assert (m - {id}).Keys == m.Keys - {id};
    assert |m| == |m.Keys| && |m - {id}| == |(m - {id}).Keys|;
  }

  // ---- client IDs ----

  datatype Credentials = Credentials(staticID: string, prefix: string)

  function ClientID(g: Credentials, index: nat): string {
    if g.staticID != "" then g.staticID else g.prefix + Digits(index)
  }

  /** A static ID is used as it is; otherwise the ID is the prefix followed by the index in decimal. */
  lemma ClientIDForm(g: Credentials, i: nat)
    ensures g.staticID != "" ==> ClientID(g, i) == g.staticID
    ensures g.staticID == "" ==>
              && |g.prefix| < |ClientID(g, i)| && ClientID(g, i)[..|g.prefix|] == g.prefix
              && Atoi(ClientID(g, i)[|g.prefix|..]) == if InRange(i) then Some(i) else None
  {
    if g.staticID == "" {
      var id := ClientID(g, i);
      assert id[..|g.prefix|] == g.prefix && id[|g.prefix|..] == Digits(i);
      DigitsValue(i);
      assert IsDigit(Digits(i)[0]);
    }
  }

  /** Prefix mode gives distinct IDs to distinct clients; static mode gives one ID to all. */
  lemma ClientIDEqual(g: Credentials, i: nat, j: nat)
    ensures ClientID(g, i) == ClientID(g, j) <==> g.staticID != "" || i == j
  {
    if g.staticID == "" && ClientID(g, i) == ClientID(g, j) {
      assert Digits(i) == ClientID(g, i)[|g.prefix|..] == Digits(j);
      DigitsInjective(i, j);
    }
  }

  // ---- the pool after the connects ----

  function Connected(g: Credentials, index: nat): Client {
    EngineModel.Client(ClientID(g, index), index)
  }

  /** The pool after the successful connects, given by index in the order of their completion. */
  function PoolAfter(g: Credentials, done: seq<nat>): map<string, Client> {
    if done == [] then map[]
    else
      var c := Connected(g, done[|done| - 1]);
      PoolAfter(g, done[..|done| - 1])[c.id := c]
  }

  function IDs(g: Credentials, done: seq<nat>): set<string> {
    set i | 0 <= i < |done| :: ClientID(g, done[i])
  }

  predicate Distinct(done: seq<nat>) {
    forall i, j :: 0 <= i < j < |done| ==> done[i] != done[j]
  }

  lemma IDsSnoc(g: Credentials, done: seq<nat>, n: nat)
    ensures IDs(g, done + [n]) == IDs(g, done) + {ClientID(g, n)}
  {
    var more := done + [n];
    forall id | id in IDs(g, done) + {ClientID(g, n)} ensures id in IDs(g, more) {
      if id == ClientID(g, n) {
        assert ClientID(g, more[|done|]) == id;
      } else {
        var i :| 0 <= i < |done| && ClientID(g, done[i]) == id;
        assert ClientID(g, more[i]) == id;
      }
    }
  }

  lemma {:induction false} PoolKeys(g: Credentials, done: seq<nat>)
    ensures PoolAfter(g, done).Keys == IDs(g, done)
  {
    if done != [] {
      var n := |done| - 1;
      PoolKeys(g, done[..n]);
      IDsSnoc(g, done[..n], done[n]);
      assert done == done[..n] + [done[n]];
    }
  }

  lemma NewID(g: Credentials, done: seq<nat>)
    requires done != [] && Distinct(done) && g.staticID == ""
    ensures ClientID(g, done[|done| - 1]) !in IDs(g, done[..|done| - 1])
  {
    var n := |done| - 1;
    forall i | 0 <= i < n ensures ClientID(g, done[..n][i]) != ClientID(g, done[n]) {
      ClientIDEqual(g, done[i], done[n]);
    }
  }

  lemma AddedSize(m: map<string, Client>, c: Client)
    requires c.id !in m
    ensures |m[c.id := c]| == |m| + 1
  {
    SmallerBy(m[c.id := c], c.id);
    assert m[c.id := c] - {c.id} == m;
  }

  lemma {:induction false} PrefixSize(g: Credentials, done: seq<nat>)
    requires Distinct(done) && g.staticID == ""
    ensures |PoolAfter(g, done)| == |done|
  {
    if done != [] {
      var rest := done[..|done| - 1];
      PrefixSize(g, rest);
      PoolKeys(g, rest);
      NewID(g, done);
      AddedSize(PoolAfter(g, rest), Connected(g, done[|done| - 1]));
    }
  }

  /** In prefix mode each success is held under its own ID, whichever completed after it. */
  lemma {:induction false} PrefixPool(g: Credentials, done: seq<nat>, i: nat)
    requires g.staticID == "" && Distinct(done) && i < |done|
    ensures var id := g.prefix + Digits(done[i]);
            id in PoolAfter(g, done) && PoolAfter(g, done)[id] == EngineModel.Client(id, done[i])
  {
    var n := |done| - 1;
    if i < n {
      PrefixPool(g, done[..n], i);
      ClientIDEqual(g, done[i], done[n]);
    }
  }

  lemma {:induction false} StaticPool(g: Credentials, done: seq<nat>)
    requires g.staticID != "" && done != []
    ensures PoolAfter(g, done) == map[g.staticID := Connected(g, done[|done| - 1])]
  {
    var n := |done| - 1;
    if n > 0 {
      StaticPool(g, done[..n]);
    }
  }

  /**
    Main theorem. For every order in which the connects complete, the pool holds one client per
    distinct ID among the successes: all of them in prefix mode, one (the last to complete) in static
    mode.
   */
  lemma PoolSize(g: Credentials, done: seq<nat>)
    requires Distinct(done)
    ensures PoolAfter(g, done).Keys == IDs(g, done)
    ensures g.staticID == "" ==> |PoolAfter(g, done)| == |done|
    ensures g.staticID != "" && done != [] ==>
              PoolAfter(g, done) == map[g.staticID := Connected(g, done[|done| - 1])]
  {
    PoolKeys(g, done);
    if g.staticID == "" {
      PrefixSize(g, done);
    } else if done != [] {
      StaticPool(g, done);
    }
  }

  // ---- how each connect ends ----

  datatype Ending = Joined | ConnectFailed | LimiterRefused | NoFactory

  /** The goroutine of one index, over. */
  datatype Finish = Finish(index: nat, ending: Ending)

  /** The indices of the successes, in the order of their completion. */
  function Successes(finishes: seq<Finish>): seq<nat> {
    if finishes == [] then []
    else
      var last := finishes[|finishes| - 1];
      Successes(finishes[..|finishes| - 1]) + if last.ending.Joined? then [last.index] else []
  }

  predicate OncePerIndex(finishes: seq<Finish>) {
    forall i, j :: 0 <= i < j < |finishes| ==> finishes[i].index != finishes[j].index
  }

  /** The successes are exactly the connects that joined. */
  lemma {:induction false} SuccessesExact(finishes: seq<Finish>, n: nat)
    ensures n in Successes(finishes) <==> Finish(n, Joined) in finishes
  {
    if finishes != [] {
      var k := |finishes| - 1;
      SuccessesExact(finishes[..k], n);
      assert finishes == finishes[..k] + [finishes[k]];
    }
  }

  lemma {:induction false} SuccessesDistinct(finishes: seq<Finish>)
    requires OncePerIndex(finishes)
    ensures Distinct(Successes(finishes))
  {
    if finishes != [] {
      var k := |finishes| - 1;
      SuccessesDistinct(finishes[..k]);
      var before := Successes(finishes[..k]);
      forall n | 0 <= n < |before| ensures before[n] != finishes[k].index {
        SuccessesExact(finishes[..k], before[n]);
        var i :| 0 <= i < k && finishes[..k][i] == Finish(before[n], Joined);
        assert finishes[i].index == before[n];
      }
    }
  }

  /**
    Whatever connects fail, are refused or have no factory, and in whatever order they all end: the pool
    counts the successes in prefix mode, and in static mode one if there was any.
   */
  lemma PoolOfFinishes(g: Credentials, finishes: seq<Finish>)
    requires OncePerIndex(finishes)
    ensures var pool := PoolAfter(g, Successes(finishes));
            |pool| == if g.staticID == "" then |Successes(finishes)| else if Successes(finishes) == [] then 0 else 1
  {
    SuccessesDistinct(finishes);
    PoolSize(g, Successes(finishes));
  }

  /** The goroutines in the order they end: only a success adds its client to the pool. */
  method ConnectAll(pool: ConnectionPool, g: Credentials, finishes: seq<Finish>)
    requires pool.Valid() && pool.connections == map[]
    modifies pool
    ensures pool.Valid() && pool.connections == PoolAfter(g, Successes(finishes))
  {
    for i := 0 to |finishes|
      invariant pool.Valid() && pool.connections == PoolAfter(g, Successes(finishes[..i]))
    {
      SuccessesNext(finishes, i);
      if finishes[i].ending.Joined? {
        PoolSnoc(g, Successes(finishes[..i]), finishes[i].index);
        pool.Add(Connected(g, finishes[i].index));
      }
    }
    assert finishes[..|finishes|] == finishes;
  }

  lemma SuccessesNext(finishes: seq<Finish>, i: nat)
    requires i < |finishes|
    ensures Successes(finishes[..i + 1]) ==
              if finishes[i].ending.Joined? then Successes(finishes[..i]) + [finishes[i].index]
              else Successes(finishes[..i])
  {
    assert finishes[..i + 1][..i] == finishes[..i];
  }

  lemma PoolSnoc(g: Credentials, done: seq<nat>, n: nat)
    ensures PoolAfter(g, done + [n]) == PoolAfter(g, done)[ClientID(g, n) := Connected(g, n)]
  {
    assert (done + [n])[..|done|] == done;
  }
}
