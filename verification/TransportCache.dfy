/** The HTTP client cache of the proxy doer (go-ingestion/internal/proxy/httpdo/doer.go:271-292, 321-421).
    Clients are numbered as they are built; times are nanoseconds. */
module TransportCache {
  import opened Decimal
  import opened Sequences

  const DIRECT := "__direct__"
  const MAX_CACHE_ENTRIES := 100
  const MAX_IDLE := 600_000_000_000

  datatype Entry = Entry(client: nat, lastUsed: int)

  // ----- The cache as a value -----

  /** closed lists the clients whose idle connections were closed, in no order. */
  datatype Cache = Cache(transports: map<string, Entry>, order: seq<string>, built: nat, closed: multiset<nat>)

  ghost function RemoveFirst<T>(order: seq<T>, key: T): seq<T> {
    if order == [] then [] else if order[0] == key then order[1..] else [order[0]] + RemoveFirst(order[1..], key)
  }

  ghost function Touched(order: seq<string>, key: string): seq<string> {
    RemoveFirst(order, key) + [key]
  }

  ghost function Clients(transports: map<string, Entry>): set<nat> {
    set u | u in transports :: transports[u].client
  }

  ghost predicate DistinctClients(transports: map<string, Entry>) {
    forall u, v :: u in transports && v in transports && u != v ==> transports[u].client != transports[v].client
  }

  ghost function Shrunk(c: Cache): Cache {
    if |c.transports| >= MAX_CACHE_ENTRIES && |c.order| > 0 then
      c.(transports := c.transports - {c.order[0]}, order := c.order[1..],
         closed := if c.order[0] in c.transports
           then c.closed + multiset{c.transports[c.order[0]].client} else c.closed)
    else c
  }

  /** parses: url.Parse accepts the URL; supported: a transport can be built for it. */
  ghost function Got(c: Cache, url: string, parses: bool, supported: bool, now: int): Cache {
    if !parses then c
    else if url in c.transports then
      c.(transports := c.transports[url := c.transports[url].(lastUsed := now)], order := Touched(c.order, url))
    else if !supported then c
    else
      var d := Shrunk(c);
      d.(transports := d.transports[url := Entry(d.built, now)], order := d.order + [url], built := d.built + 1)
  }

  ghost function WentDirect(c: Cache, now: int): Cache {
    if DIRECT in c.transports then c.(transports := c.transports[DIRECT := c.transports[DIRECT].(lastUsed := now)])
    else c.(transports := c.transports[DIRECT := Entry(c.built, now)], built := c.built + 1)
  }

  ghost predicate Idle(transports: map<string, Entry>, url: string, now: int) {
    url in transports && now - transports[url].lastUsed > MAX_IDLE
  }

  ghost function Kept<T>(order: seq<T>, keep: T -> bool): seq<T> {
    if order == [] then []
    else Kept(order[..|order| - 1], keep) + if keep(order[|order| - 1]) then [order[|order| - 1]] else []
  }

  ghost function In(transports: map<string, Entry>): string -> bool {
    u => u in transports
  }

  ghost function IdleKeys(transports: map<string, Entry>, now: int): set<string> {
    set u | u in transports && Idle(transports, u, now)
  }

  ghost function ClientsOf(transports: map<string, Entry>, urls: set<string>): set<nat> {
    set u | u in urls && u in transports :: transports[u].client
  }

  ghost function Evicted(c: Cache, now: int): Cache {
    var left := c.transports - IdleKeys(c.transports, now);
    c.(transports := left, order := Kept(c.order, In(left)),
       closed := c.closed + multiset(ClientsOf(c.transports, IdleKeys(c.transports, now))))
  }

  ghost function Shut(c: Cache): Cache {
    Cache(map[], [], c.built, c.closed + multiset(Clients(c.transports)))
  }

  // ----- The cache as an object -----

  class Doer {
    var transports: map<string, Entry>
    var accessOrder: seq<string>
    var built: nat
    var closed: multiset<nat>

    constructor ()
      ensures Value() == Cache(map[], [], 0, multiset{})
    {
      transports, accessOrder, built, closed := map[], [], 0, multiset{};
    }

    ghost function Value(): Cache
      reads this
    {
      Cache(transports, accessOrder, built, closed)
    }

    method TouchAccessOrder(key: string)
      modifies this`accessOrder
      ensures accessOrder == Touched(old(accessOrder), key)
    {
      var i := 0;
      while i < |accessOrder| && accessOrder[i] != key
        invariant i <= |accessOrder| && forall j :: 0 <= j < i ==> accessOrder[j] != key
      {
        i := i + 1;
      }
      RemoveFirstAt(accessOrder, key, i);
      if i < |accessOrder| {
        accessOrder := accessOrder[..i] + accessOrder[i + 1..];
      }
      accessOrder := accessOrder + [key];
    }

    /** The eviction before a new entry goes in. */
    method Shrink()
      modifies this
      ensures Value() == Shrunk(old(Value()))
    {
      if |transports| >= MAX_CACHE_ENTRIES && |accessOrder| > 0 {
        var evict := accessOrder[0];
        if evict in transports {
          Drop(evict);
        }
        accessOrder := accessOrder[1..];
        assert transports == Shrunk(old(Value())).transports;
      }
    }

    /** The number of the client, or None for an error. */
    method GetClient(url: string, parses: bool, supported: bool, now: int) returns (client: Option<nat>)
      modifies this
      ensures Value() == Got(old(Value()), url, parses, supported, now)
      ensures client.Some? <==> parses && (url in old(transports) || supported)
      ensures client.Some? ==> url in transports && transports[url] == Entry(client.value, now)
      ensures client.Some? ==> accessOrder != [] && accessOrder[|accessOrder| - 1] == url
      ensures client.None? ==> Value() == old(Value())
      ensures url in old(transports) && parses ==>
                client == Some(old(transports)[url].client) && transports.Keys == old(transports.Keys)
                && built == old(built) && closed == old(closed)
      ensures client.Some? && url !in old(transports) ==> client.value == old(built) && built == old(built) + 1
      ensures client.Some? && url !in old(transports) && |old(transports)| < 100 ==>
                transports == old(transports)[url := Entry(old(built), now)] && closed == old(closed)
                && accessOrder == old(accessOrder) + [url]
      ensures client.Some? && url !in old(transports) && |old(transports)| >= 100 && |old(accessOrder)| > 0 ==>
                transports == (old(transports) - {old(accessOrder)[0]})[url := Entry(old(built), now)]
                && accessOrder == old(accessOrder)[1..] + [url]
    {
      if !parses {
        return None;
      }
      if url in transports {
        client := Some(transports[url].client);
        transports := transports[url := transports[url].(lastUsed := now)];
        TouchAccessOrder(url);
        return;
      }
      if !supported {
        return None;
      }
      Shrink();
      client := Some(built);
      transports := transports[url := Entry(built, now)];
      built := built + 1;
      accessOrder := accessOrder + [url];
    }

    /** The part of doDirect under the lock; cloneable says that the default transport can be cloned. */
    method DirectClient(cloneable: bool, now: int) returns (client: Option<nat>)
      modifies this
      ensures client.Some? <==> cloneable || DIRECT in old(transports)
      ensures Value() == if client.Some? then WentDirect(old(Value()), now) else old(Value())
      ensures accessOrder == old(accessOrder) && closed == old(closed)
      ensures client.Some? ==> transports == old(transports)[DIRECT := Entry(client.value, now)]
      ensures client.Some? ==>
                client.value == if DIRECT in old(transports) then old(transports)[DIRECT].client else old(built)
    {
      if DIRECT !in transports {
        if !cloneable {
          return None;
        }
        transports := transports[DIRECT := Entry(built, now)];
        built := built + 1;
      }
      transports := transports[DIRECT := transports[DIRECT].(lastUsed := now)];
      assert transports == WentDirect(old(Value()), now).transports;
      return Some(transports[DIRECT].client);
    }

    /** Closes an entry and deletes it. */
    method Drop(url: string)
      requires url in transports
      modifies this`transports, this`closed
      ensures transports == old(transports) - {url}
      ensures closed == old(closed) + multiset{old(transports)[url].client}
    {
      closed := closed + multiset{transports[url].client};
      transports := transports - {url};
    }

    /** The loop over the map. */
    method CloseIdle(now: int)
      requires DistinctClients(transports)
      modifies this`transports, this`closed
      ensures transports == old(transports) - IdleKeys(old(transports), now)
      ensures closed == old(closed) + multiset(ClientsOf(old(transports), IdleKeys(old(transports), now)))
    {
      hide IdleKeys, ClientsOf, DistinctClients;
      ghost var before := transports;
      ghost var done := IdleKeys(before, now) - before.Keys;
      NoneIdle(before, now);
      var rest := transports.Keys;
      while rest != {}
        invariant rest <= before.Keys && done == IdleKeys(before, now) - rest
        invariant transports == before - done
        invariant closed == old(closed) + multiset(ClientsOf(before, done))
        decreases rest
      {
        var url :| url in rest;
        IdleStep(before, rest, done, url, now);
        if now - transports[url].lastUsed > MAX_IDLE {
          Drop(url);
          done := done + {url};
        }
        rest := rest - {url};
      }
      assert done == IdleKeys(before, now) - {};
    }

    method EvictIdleEntries(now: int)
      requires DistinctClients(transports)
      modifies this
      ensures Value() == Evicted(old(Value()), now)
      ensures forall u :: u in transports <==>
                u in old(transports) && now - old(transports)[u].lastUsed <= 600_000_000_000
      ensures forall u :: u in transports ==> transports[u] == old(transports)[u]
    {
      CloseIdle(now);
      var newOrder := [];
      for i := 0 to |accessOrder|
        invariant newOrder == Kept(accessOrder[..i], In(transports))
      {
        assert accessOrder[..i + 1][..i] == accessOrder[..i];
        if accessOrder[i] in transports {
          newOrder := newOrder + [accessOrder[i]];
        }
      }
      assert accessOrder[..|accessOrder|] == accessOrder;
      accessOrder := newOrder;
    }

    /** Closing a second time panics in the Go code, so it is called once. */
    method Close()
      requires DistinctClients(transports)
      modifies this
      ensures Value() == Shut(old(Value()))
      ensures transports == map[] && accessOrder == [] && |closed| == |old(closed)| + |old(transports)|
    {
      ghost var before := transports;
      ClientCount(before, before.Keys);
      AllClosed(before);
      hide ClientsOf, Clients, DistinctClients;
      var rest := transports.Keys;
      while rest != {}
        invariant rest <= before.Keys && transports == before && accessOrder == old(accessOrder) && built == old(built)
        invariant closed == old(closed) + multiset(ClientsOf(before, before.Keys - rest))
        decreases rest
      {
        var url :| url in rest;
        CloseStep(before, rest, url);
        closed := closed + multiset{transports[url].client};
        rest := rest - {url};
      }
      assert before.Keys - {} == before.Keys;
      transports, accessOrder := map[], [];
    }
  }

  lemma {:induction false} RemoveFirstAt<T>(order: seq<T>, key: T, i: nat)
    requires i <= |order| && (forall j :: 0 <= j < i ==> order[j] != key) && (i < |order| ==> order[i] == key)
    ensures RemoveFirst(order, key) == if i < |order| then order[..i] + order[i + 1..] else order
  {
    if i > 0 {
      RemoveFirstAt(order[1..], key, i - 1);
      assert order == [order[0]] + order[1..];
    }
  }

  lemma NoneIdle(transports: map<string, Entry>, now: int)
    ensures IdleKeys(transports, now) - transports.Keys == {} && ClientsOf(transports, {}) == {}
    ensures transports - {} == transports
  {
  }

  lemma IdleStep(transports: map<string, Entry>, rest: set<string>, done: set<string>, url: string, now: int)
    requires url in rest && rest <= transports.Keys && done == IdleKeys(transports, now) - rest
        && DistinctClients(transports)
    ensures url in transports - done && (transports - done)[url] == transports[url]
    ensures IdleKeys(transports, now) - (rest - {url}) == if Idle(transports, url, now) then done + {url} else done
    ensures multiset(ClientsOf(transports, done + {url})) ==
        multiset(ClientsOf(transports, done)) + multiset{transports[url].client}
    ensures transports - done - {url} == transports - (done + {url})
  {
    OneMoreClosed(transports, done, url);
  }

  lemma CloseStep(transports: map<string, Entry>, rest: set<string>, url: string)
    requires url in rest && rest <= transports.Keys && DistinctClients(transports)
    ensures multiset(ClientsOf(transports, transports.Keys - (rest - {url}))) ==
        multiset(ClientsOf(transports, transports.Keys - rest)) + multiset{transports[url].client}
  {
    OneMoreClosed(transports, transports.Keys - rest, url);
    assert transports.Keys - (rest - {url}) == transports.Keys - rest + {url};
  }

  lemma AllClosed(transports: map<string, Entry>)
    ensures ClientsOf(transports, transports.Keys) == Clients(transports) && ClientsOf(transports, {}) == {}
    ensures transports.Keys - transports.Keys == {}
  {
  }

  lemma {:induction false} ClientCount(transports: map<string, Entry>, urls: set<string>)
    requires DistinctClients(transports) && urls <= transports.Keys
    ensures |ClientsOf(transports, urls)| == |urls|
  {
    if urls != {} {
      var url :| url in urls;
      ClientCount(transports, urls - {url});
      OneMoreClosed(transports, urls - {url}, url);
      assert urls - {url} + {url} == urls;
      assert |multiset(ClientsOf(transports, urls))| == |ClientsOf(transports, urls)|;
      assert |multiset(ClientsOf(transports, urls - {url}))| == |ClientsOf(transports, urls - {url})|;
    } else {
      assert ClientsOf(transports, urls) == {};
    }
  }

  lemma OneMoreClosed(transports: map<string, Entry>, urls: set<string>, url: string)
    requires url in transports && url !in urls && urls <= transports.Keys
    requires DistinctClients(transports)
    ensures multiset(ClientsOf(transports, urls + {url})) ==
        multiset(ClientsOf(transports, urls)) + multiset{transports[url].client}
  {
    assert ClientsOf(transports, urls + {url}) == ClientsOf(transports, urls) + {transports[url].client};
    assert transports[url].client !in ClientsOf(transports, urls);
  }

  // ----- Runs -----

  datatype Op = Get(url: string, parses: bool, supported: bool) | Direct | Evict | Close

  ghost function After(c: Cache, op: Op, now: int): Cache {
    match op
    case Get(url, parses, supported) => Got(c, url, parses, supported, now)
    case Direct => WentDirect(c, now)
    case Evict => Evicted(c, now)
    case Close => Shut(c)
  }

  /** The cache, its clock, and the proxy URLs a client was returned for, in turn. */
  datatype History = History(c: Cache, clock: int, uses: seq<string>)

  ghost predicate Serves(c: Cache, op: Op) {
    op.Get? && op.parses && (op.url in c.transports || op.supported)
  }

  datatype Timed = Timed(op: Op, now: int)

  ghost function Run(ops: seq<Timed>): History {
    if ops == [] then History(Cache(map[], [], 0, multiset{}), 0, [])
    else
      var h := Run(ops[..|ops| - 1]);
      var t := ops[|ops| - 1];
      History(After(h.c, t.op, t.now), t.now, if Serves(h.c, t.op) then h.uses + [t.op.url] else h.uses)
  }

  /** The position after the last use; 0 if there was none. */
  ghost function LastUse(uses: seq<string>, url: string): (n: nat)
    ensures n <= |uses| && (n > 0 ==> uses[n - 1] == url)
    ensures forall i :: n <= i < |uses| ==> uses[i] != url
  {
    if uses == [] then 0
    else if uses[|uses| - 1] == url then |uses|
    else LastUse(uses[..|uses| - 1], url)
  }

  // ----- The invariant -----

  /** The access order lists the cached proxy URLs, each once. */
  ghost predicate OrderFits(c: Cache) {
    && (forall i, j :: 0 <= i < j < |c.order| ==> c.order[i] != c.order[j])
    && (forall u :: u in c.order <==> u in c.transports && u != DIRECT)
  }

  ghost predicate Small(c: Cache) {
    |c.order| <= MAX_CACHE_ENTRIES && |c.transports| <= MAX_CACHE_ENTRIES + 1
  }

  ghost predicate RisingBy<T(!new)>(xs: seq<T>, rank: T -> int) {
    forall i, j :: 0 <= i < j < |xs| ==> rank(xs[i]) < rank(xs[j])
  }

  /** Oldest use first. */
  ghost predicate ByLastUse(order: seq<string>, uses: seq<string>) {
    && (forall u :: u in order ==> LastUse(uses, u) > 0)
    && RisingBy(order, u => LastUse(uses, u))
  }

  /** Every client built is either cached under one URL or closed once. */
  ghost predicate ClientsFit(c: Cache) {
    && DistinctClients(c.transports)
    && (forall u :: u in c.transports ==> c.transports[u].client < c.built && c.closed[c.transports[u].client] == 0)
    && (forall n: nat :: c.closed[n] <= 1)
    && (forall n: nat :: n < c.built ==> n in Clients(c.transports) || c.closed[n] == 1)
    && (forall n: nat :: n >= c.built ==> c.closed[n] == 0)
  }

  // ----- The access order -----

  lemma {:induction false} RemoveFirstRises<T(!new)>(xs: seq<T>, key: T, rank: T -> int)
    requires RisingBy(xs, rank)
    ensures RisingBy(RemoveFirst(xs, key), rank)
    ensures forall x :: x in RemoveFirst(xs, key) <==> x in xs && x != key
    ensures |RemoveFirst(xs, key)| == if key in xs then |xs| - 1 else |xs|
  {
    if xs != [] {
      assert xs == [xs[0]] + xs[1..];
      forall j | 0 < j < |xs|
        ensures rank(xs[0]) < rank(xs[j]) && xs[j] != xs[0]
      {
      }
      RemoveFirstRises(xs[1..], key, rank);
      if xs[0] != key {
        ConsRises(xs[0], RemoveFirst(xs[1..], key), rank, xs[1..]);
      } else {
        assert key !in xs[1..];
      }
    }
  }

  lemma ConsRises<T(!new)>(x: T, xs: seq<T>, rank: T -> int, above: seq<T>)
    requires RisingBy(xs, rank)
    requires forall y :: y in xs ==> y in above
    requires forall i :: 0 <= i < |above| ==> rank(x) < rank(above[i])
    ensures RisingBy([x] + xs, rank)
  {
    forall i | 0 <= i < |xs|
      ensures rank(x) < rank(xs[i])
    {
      assert xs[i] in above;
    }
  }

  lemma SnocRises<T(!new)>(xs: seq<T>, x: T, rank: T -> int)
    requires RisingBy(xs, rank) && forall y :: y in xs ==> rank(y) < rank(x)
    ensures RisingBy(xs + [x], rank)
  {
    forall i | 0 <= i < |xs|
      ensures rank(xs[i]) < rank(x)
    {
      assert xs[i] in xs;
    }
  }

  lemma {:induction false} KeptRises<T(!new)>(xs: seq<T>, keep: T -> bool, rank: T -> int)
    requires RisingBy(xs, rank)
    ensures RisingBy(Kept(xs, keep), rank) && |Kept(xs, keep)| <= |xs|
    ensures forall x :: x in Kept(xs, keep) <==> x in xs && keep(x)
  {
    if xs != [] {
      var init, last := xs[..|xs| - 1], xs[|xs| - 1];
      assert xs == init + [last];
      KeptRises(init, keep, rank);
      forall y | y in init
        ensures rank(y) < rank(last)
      {
        var k :| 0 <= k < |init| && init[k] == y;
        assert xs[k] == y;
      }
      SnocRises(Kept(init, keep), last, rank);
    }
  }

  lemma RerankRises<T(!new)>(xs: seq<T>, rank: T -> int, other: T -> int)
    requires RisingBy(xs, rank) && forall x :: x in xs ==> other(x) == rank(x)
    ensures RisingBy(xs, other)
  {
  }

  lemma LastUseAppend(uses: seq<string>, url: string, u: string)
    ensures LastUse(uses + [url], u) == if u == url then |uses| + 1 else LastUse(uses, u)
  {
    assert (uses + [url])[..|uses|] == uses;
  }

  /** The URL used now goes last, wherever it was. */
  lemma UsedNow(order: seq<string>, uses: seq<string>, url: string)
    requires ByLastUse(order, uses)
    ensures ByLastUse(Touched(order, url), uses + [url])
    ensures forall u :: u in Touched(order, url) <==> u in order || u == url
    ensures |Touched(order, url)| == if url in order then |order| else |order| + 1
  {
    var rank, after := (u: string) => LastUse(uses, u), (u: string) => LastUse(uses + [url], u);
    var rest := RemoveFirst(order, url);
    RemoveFirstRises(order, url, rank);
    forall u
      ensures after(u) == if u == url then |uses| + 1 else rank(u)
    {
      LastUseAppend(uses, url, u);
    }
    RerankRises(rest, rank, after);
    SnocRises(rest, url, after);
  }

  // ----- Sizes -----

  /** One entry per listed URL, and perhaps the direct one. */
  lemma Sizes(c: Cache)
    requires OrderFits(c)
    ensures |c.transports| == |c.order| + if DIRECT in c.transports then 1 else 0
  {
    DistinctSize(c.order, c.transports.Keys - {DIRECT});
    if DIRECT in c.transports {
      assert c.transports.Keys == (c.transports.Keys - {DIRECT}) + {DIRECT};
    } else {
      assert c.transports.Keys == c.transports.Keys - {DIRECT};
    }
    assert |c.transports| == |c.transports.Keys|;
  }

  // ----- Clients -----

  lemma RemovedClients(c: Cache, urls: set<string>, order: seq<string>)
    requires ClientsFit(c)
    ensures ClientsFit(c.(transports := c.transports - urls, order := order,
                          closed := c.closed + multiset(ClientsOf(c.transports, urls))))
  {
    var left := c.transports - urls;
    var out := ClientsOf(c.transports, urls);
    forall n: nat | n in Clients(c.transports)
      ensures n in Clients(left) || n in out
    {
      var u :| u in c.transports && c.transports[u].client == n;
      assert u in left || u in urls;
      assert u in left ==> left[u].client == n;
    }
    var closing: multiset<nat> := multiset(out);
    assert forall n: nat :: closing[n] == if n in out then 1 else 0;
  }

  lemma AddedClient(c: Cache, url: string, now: int, order: seq<string>)
    requires ClientsFit(c) && url !in c.transports
    ensures ClientsFit(c.(transports := c.transports[url := Entry(c.built, now)], order := order, built := c.built + 1))
  {
    var more := c.transports[url := Entry(c.built, now)];
    assert more[url].client == c.built;
    forall n: nat | n in Clients(c.transports)
      ensures n in Clients(more)
    {
      var u :| u in c.transports && c.transports[u].client == n;
      assert more[u].client == n;
    }
  }

  lemma TouchedClient(c: Cache, url: string, now: int, order: seq<string>)
    requires ClientsFit(c) && url in c.transports
    ensures ClientsFit(c.(transports := c.transports[url := c.transports[url].(lastUsed := now)], order := order))
  {
    var same := c.transports[url := c.transports[url].(lastUsed := now)];
    forall n: nat | n in Clients(c.transports)
      ensures n in Clients(same)
    {
      var u :| u in c.transports && c.transports[u].client == n;
      assert same[u].client == n;
    }
  }

  lemma OneClient(c: Cache, url: string)
    requires url in c.transports
    ensures multiset(ClientsOf(c.transports, {url})) == multiset{c.transports[url].client}
  {
    assert ClientsOf(c.transports, {url}) == {c.transports[url].client};
  }

  lemma AllClients(c: Cache)
    ensures ClientsOf(c.transports, c.transports.Keys) == Clients(c.transports)
    ensures c.transports - c.transports.Keys == map[]
  {
  }

  lemma ShrunkClients(c: Cache)
    requires ClientsFit(c) && OrderFits(c)
    ensures ClientsFit(Shrunk(c))
  {
    if Shrunk(c) != c {
      assert c.order[0] in c.order;
      OneClient(c, c.order[0]);
      RemovedClients(c, {c.order[0]}, c.order[1..]);
    }
  }

  lemma StepKeepsClients(c: Cache, op: Op, now: int)
    requires ClientsFit(c) && OrderFits(c) && (op.Get? ==> op.url != DIRECT)
    ensures ClientsFit(After(c, op, now))
  {
    match op
    case Get(url, parses, supported) =>
      if parses && url in c.transports {
        TouchedClient(c, url, now, Touched(c.order, url));
      } else if parses && supported {
        ShrunkClients(c);
        AddedClient(Shrunk(c), url, now, Shrunk(c).order + [url]);
      }
    case Direct =>
      if DIRECT in c.transports {
        TouchedClient(c, DIRECT, now, c.order);
      } else {
        AddedClient(c, DIRECT, now, c.order);
      }
    case Evict =>
      RemovedClients(c, IdleKeys(c.transports, now), After(c, Evict, now).order);
    case Close =>
      RemovedClients(c, c.transports.Keys, []);
      AllClients(c);
  }

  // ----- The order -----

  lemma TouchKeepsOrder(c: Cache, url: string, now: int, uses: seq<string>)
    requires OrderFits(c) && ByLastUse(c.order, uses) && url in c.transports && url != DIRECT
    ensures OrderFits(Got(c, url, true, true, now)) && ByLastUse(Got(c, url, true, true, now).order, uses + [url])
  {
    hide LastUse, Touched;
    UsedNow(c.order, uses, url);
    DistinctByUse(Touched(c.order, url), uses + [url]);
  }

  lemma DistinctByUse(order: seq<string>, uses: seq<string>)
    requires ByLastUse(order, uses)
    ensures forall i, j :: 0 <= i < j < |order| ==> order[i] != order[j]
  {
    hide LastUse;
  }

  lemma AddKeepsOrder(c: Cache, url: string, now: int, uses: seq<string>)
    requires OrderFits(c) && ByLastUse(c.order, uses) && url !in c.transports && url != DIRECT
    ensures OrderFits(Got(c, url, true, true, now)) && ByLastUse(Got(c, url, true, true, now).order, uses + [url])
  {
    hide LastUse, Shrunk;
    ShrunkOrder(c, uses);
    var d := Shrunk(c);
    assert url !in d.order;
    UsedNow(d.order, uses, url);
    AbsentStays(d.order, url);
    DistinctByUse(d.order + [url], uses + [url]);
  }

  lemma EvictKeepsOrder(c: Cache, now: int, uses: seq<string>)
    requires OrderFits(c) && ByLastUse(c.order, uses)
    ensures OrderFits(Evicted(c, now)) && ByLastUse(Evicted(c, now).order, uses) && |Evicted(c, now).order| <= |c.order|
  {
    hide LastUse, Kept;
    var left := c.transports - IdleKeys(c.transports, now);
    KeptRises(c.order, In(left), (u: string) => LastUse(uses, u));
    DistinctByUse(Evicted(c, now).order, uses);
  }

  lemma StepKeepsOrder(c: Cache, op: Op, now: int, uses: seq<string>)
    requires OrderFits(c) && ByLastUse(c.order, uses) && (op.Get? ==> op.url != DIRECT)
    ensures OrderFits(After(c, op, now))
    ensures ByLastUse(After(c, op, now).order, if Serves(c, op) then uses + [op.url] else uses)
  {
    hide LastUse, Kept, Touched, Shrunk, ByLastUse;
    match op
    case Get(url, parses, supported) =>
      if parses && url in c.transports {
        TouchKeepsOrder(c, url, now, uses);
      } else if parses && supported {
        AddKeepsOrder(c, url, now, uses);
      }
    case Direct =>
    case Evict => EvictKeepsOrder(c, now, uses);
    case Close => EmptyOrder(uses);
  }

  lemma EmptyOrder(uses: seq<string>)
    ensures ByLastUse([], uses)
  {
  }

  lemma {:induction false} AbsentStays<T>(xs: seq<T>, x: T)
    requires x !in xs
    ensures RemoveFirst(xs, x) == xs
  {
    if xs != [] {
      assert x !in xs[1..];
      AbsentStays(xs[1..], x);
    }
  }

  lemma TailRises<T(!new)>(xs: seq<T>, rank: T -> int)
    requires xs != [] && RisingBy(xs, rank)
    ensures RisingBy(xs[1..], rank) && xs[0] !in xs[1..]
    ensures forall x :: x in xs <==> x == xs[0] || x in xs[1..]
  {
    assert xs == [xs[0]] + xs[1..];
    forall i | 1 <= i < |xs|
      ensures rank(xs[0]) < rank(xs[i])
    {
    }
  }

  lemma ShrunkOrder(c: Cache, uses: seq<string>)
    requires OrderFits(c) && ByLastUse(c.order, uses)
    ensures OrderFits(Shrunk(c)) && ByLastUse(Shrunk(c).order, uses)
    ensures |Shrunk(c).order| < MAX_CACHE_ENTRIES || |c.order| > MAX_CACHE_ENTRIES
    ensures Shrunk(c).transports.Keys <= c.transports.Keys
  {
    hide LastUse;
    Sizes(c);
    if Shrunk(c) != c {
      TailRises(c.order, u => LastUse(uses, u));
    }
  }

  ghost predicate Inv(h: History) {
    OrderFits(h.c) && ByLastUse(h.c.order, h.uses) && Small(h.c) && ClientsFit(h.c)
  }

  lemma StepKeepsSmall(c: Cache, op: Op, now: int, uses: seq<string>)
    requires OrderFits(c) && ByLastUse(c.order, uses) && Small(c) && (op.Get? ==> op.url != DIRECT)
    ensures Small(After(c, op, now))
  {
    StepKeepsOrder(c, op, now, uses);
    Sizes(After(c, op, now));
    match op
    case Get(url, parses, supported) =>
      if parses && url in c.transports {
        UsedNow(c.order, uses, url);
      } else if parses && supported {
        ShrunkOrder(c, uses);
      }
    case Direct =>
    case Evict => EvictKeepsOrder(c, now, uses);
    case Close =>
  }

  ghost predicate ProxiesOnly(ops: seq<Timed>) {
    forall i :: 0 <= i < |ops| && ops[i].op.Get? ==> ops[i].op.url != DIRECT
  }

  /** Over every run with proxy URLs other than "__direct__": the access order lists the cached proxy URLs, each
      once, oldest use first; at most 101 entries exist; every client built is cached once or closed once. */
  lemma {:induction false} RunInvariant(ops: seq<Timed>)
    requires ProxiesOnly(ops)
    ensures Inv(Run(ops))
  {
    if ops != [] {
      var h := Run(ops[..|ops| - 1]);
      var t := ops[|ops| - 1];
      RunInvariant(ops[..|ops| - 1]);
      StepKeepsOrder(h.c, t.op, t.now, h.uses);
      StepKeepsSmall(h.c, t.op, t.now, h.uses);
      StepKeepsClients(h.c, t.op, t.now);
    }
  }

  /** When a new proxy URL finds the cache full, exactly one proxy URL goes, the one used longest ago. */
  lemma EvictsLeastRecent(ops: seq<Timed>, url: string, now: int) returns (evicted: string)
    requires ProxiesOnly(ops) && url != DIRECT
    requires var c := Run(ops).c; url !in c.transports && |c.transports| >= MAX_CACHE_ENTRIES
    ensures var h := Run(ops);
            && evicted in h.c.transports && evicted != DIRECT
            && Got(h.c, url, true, true, now).transports.Keys == h.c.transports.Keys - {evicted} + {url}
            && forall u :: u in h.c.transports && u != DIRECT && u != evicted ==>
              LastUse(h.uses, evicted) < LastUse(h.uses, u)
  {
    hide LastUse;
    RunInvariant(ops);
    var c := Run(ops).c;
    Sizes(c);
    evicted := c.order[0];
    assert evicted in c.order;
    forall u | u in c.transports && u != DIRECT && u != evicted
      ensures LastUse(Run(ops).uses, evicted) < LastUse(Run(ops).uses, u)
    {
      var i :| 0 <= i < |c.order| && c.order[i] == u;
    }
  }

  // ----- Idle eviction -----

  /** The clock never goes back. */
  ghost predicate Monotone(ops: seq<Timed>) {
    (ops != [] ==> 0 <= ops[0].now) && forall i, j :: 0 <= i < j < |ops| ==> ops[i].now <= ops[j].now
  }

  ghost predicate TimesFit(c: Cache, clock: int) {
    && (forall u :: u in c.transports ==> c.transports[u].lastUsed <= clock)
    && (forall u :: u in c.order ==> u in c.transports)
    && forall i, j :: 0 <= i < j < |c.order| ==> Used(c, c.order[i]) <= Used(c, c.order[j])
  }

  ghost function Used(c: Cache, url: string): int {
    if url in c.transports then c.transports[url].lastUsed else 0
  }

  ghost predicate NonDecreasing<T(!new)>(xs: seq<T>, time: T -> int) {
    forall i, j :: 0 <= i < j < |xs| ==> time(xs[i]) <= time(xs[j])
  }

  lemma {:induction false} RemoveFirstNonDecreasing<T(!new)>(xs: seq<T>, key: T, time: T -> int)
    requires NonDecreasing(xs, time)
    ensures NonDecreasing(RemoveFirst(xs, key), time)
    ensures forall x :: x in RemoveFirst(xs, key) ==> x in xs
  {
    if xs != [] {
      assert xs == [xs[0]] + xs[1..];
      RemoveFirstNonDecreasing(xs[1..], key, time);
      var rest := RemoveFirst(xs[1..], key);
      forall i | 0 <= i < |rest|
        ensures time(xs[0]) <= time(rest[i])
      {
        assert rest[i] in xs[1..];
        var k :| 0 <= k < |xs[1..]| && xs[1..][k] == rest[i];
        assert xs[k + 1] == rest[i];
      }
    }
  }

  lemma {:induction false} KeptSuffix<T(!new)>(xs: seq<T>, keep: T -> bool) returns (k: nat)
    requires forall i, j :: 0 <= i < j < |xs| && keep(xs[i]) ==> keep(xs[j])
    ensures k <= |xs| && Kept(xs, keep) == xs[k..]
    ensures forall i :: 0 <= i < |xs| ==> (keep(xs[i]) <==> k <= i)
  {
    if xs == [] {
      k := 0;
    } else {
      var init := xs[..|xs| - 1];
      assert forall i :: 0 <= i < |init| ==> init[i] == xs[i];
      k := KeptSuffix(init, keep);
      if keep(xs[|xs| - 1]) {
        assert xs[k..] == init[k..] + [xs[|xs| - 1]];
      } else {
        assert forall i :: 0 <= i < |init| ==> !keep(xs[i]);
        assert k == |init|;
        k := |xs|;
      }
    }
  }

  lemma TouchKeepsTimes(c: Cache, url: string, now: int)
    requires TimesFit(c, now) && OrderFits(c) && url in c.transports
    ensures TimesFit(Got(c, url, true, true, now), now)
  {
    var d := Got(c, url, true, true, now);
    var time := (u: string) => Used(c, u);
    RemoveFirstNonDecreasing(c.order, url, time);
    RemoveFirstAbsent(c.order, url);
    var rest := RemoveFirst(c.order, url);
    forall i | 0 <= i < |rest|
      ensures rest[i] in c.order && rest[i] != url && Used(d, rest[i]) == time(rest[i])
    {
      assert rest[i] in rest;
    }
  }

  lemma {:induction false} RemoveFirstAbsent<T>(xs: seq<T>, key: T)
    requires forall i, j :: 0 <= i < j < |xs| ==> xs[i] != xs[j]
    ensures key !in RemoveFirst(xs, key)
  {
    if xs != [] {
      if xs[0] != key {
        RemoveFirstAbsent(xs[1..], key);
      }
    }
  }

  lemma AddKeepsTimes(c: Cache, url: string, now: int)
    requires TimesFit(c, now) && OrderFits(c) && url !in c.transports
    ensures TimesFit(Got(c, url, true, true, now), now)
  {
    var d := Shrunk(c);
    var e := Got(c, url, true, true, now);
    forall i | 0 <= i < |d.order|
      ensures d.order[i] in c.order && d.order[i] != url && d.order[i] in d.transports
          && Used(e, d.order[i]) == Used(c, d.order[i])
    {
      if d != c {
        assert d.order[i] == c.order[i + 1];
      }
      assert d.order[i] in c.order;
    }
  }

  /** Idle eviction removes a prefix of the access order: exactly the URLs idle for too long. */
  lemma IdlePrefix(c: Cache, now: int) returns (k: nat)
    requires TimesFit(c, now)
    ensures k <= |c.order| && Evicted(c, now).order == c.order[k..]
    ensures forall i :: 0 <= i < |c.order| ==> (Idle(c.transports, c.order[i], now) <==> i < k)
  {
    var left := c.transports - IdleKeys(c.transports, now);
    var keep := In(left);
    forall i | 0 <= i < |c.order|
      ensures keep(c.order[i]) <==> now - Used(c, c.order[i]) <= MAX_IDLE
      ensures Idle(c.transports, c.order[i], now) <==> !keep(c.order[i])
    {
      assert c.order[i] in c.order;
    }
    k := KeptSuffix(c.order, keep);
  }

  lemma StepKeepsTimes(c: Cache, op: Op, clock: int, now: int)
    requires TimesFit(c, clock) && clock <= now && OrderFits(c) && (op.Get? ==> op.url != DIRECT)
    ensures TimesFit(After(c, op, now), now)
  {
    match op
    case Get(url, parses, supported) =>
      if parses && url in c.transports {
        TouchKeepsTimes(c, url, now);
      } else if parses && supported {
        AddKeepsTimes(c, url, now);
      }
    case Direct =>
      assert DIRECT !in c.order;
      var d := WentDirect(c, now);
      forall i | 0 <= i < |c.order|
        ensures Used(d, c.order[i]) == Used(c, c.order[i])
      {
        assert c.order[i] in c.order;
      }
    case Evict =>
      var k := IdlePrefix(c, now);
      var d := Evicted(c, now);
      forall i | 0 <= i < |d.order|
        ensures d.order[i] == c.order[k + i] && d.order[i] in d.transports
            && Used(d, d.order[i]) == Used(c, c.order[k + i])
      {
        assert c.order[k + i] in c.order;
      }
    case Close =>
  }

  lemma {:induction false} RunTimes(ops: seq<Timed>)
    requires ProxiesOnly(ops) && Monotone(ops)
    ensures TimesFit(Run(ops).c, Run(ops).clock)
    ensures Run(ops).clock == if ops == [] then 0 else ops[|ops| - 1].now
  {
    if ops != [] {
      var before := ops[..|ops| - 1];
      assert forall i :: 0 <= i < |before| ==> before[i] == ops[i];
      RunTimes(before);
      RunInvariant(before);
      StepKeepsTimes(Run(before).c, ops[|ops| - 1].op, Run(before).clock, ops[|ops| - 1].now);
    }
  }

  /** With a clock that never goes back, idle eviction removes a prefix of the access order after any run. */
  lemma IdleEvictionIsPrefix(ops: seq<Timed>, now: int) returns (k: nat)
    requires ProxiesOnly(ops) && Monotone(ops) && Run(ops).clock <= now
    ensures var c := Run(ops).c;
            && k <= |c.order| && Evicted(c, now).order == c.order[k..]
            && forall i :: 0 <= i < |c.order| ==> (Idle(c.transports, c.order[i], now) <==> i < k)
  {
    RunTimes(ops);
    k := IdlePrefix(Run(ops).c, now);
  }

  // ----- The reserved key -----

  /** A request through the URL "__direct__" is the one that breaks the order, and does so whenever it returns a
      client. */
  lemma OrderKeptExactly(c: Cache, uses: seq<string>, url: string, parses: bool, supported: bool, now: int)
    requires OrderFits(c) && ByLastUse(c.order, uses)
    ensures OrderFits(Got(c, url, parses, supported, now)) <==> url != DIRECT || !Serves(c, Get(url, parses, supported))
  {
    if url != DIRECT {
      StepKeepsOrder(c, Get(url, parses, supported), now, uses);
    } else if Serves(c, Get(url, parses, supported)) {
      var d := Got(c, url, parses, supported, now);
      assert d.order[|d.order| - 1] == DIRECT;
      assert DIRECT in d.order;
    }
  }
}
