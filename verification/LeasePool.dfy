/** The round-robin proxy pool and its leases (go-ingestion/internal/proxy/inmem/pool.go, lease.go). */
module LeasePool {
  import opened Decimal

  // ----- The pool as a value -----

  datatype Proxies = Proxies(urls: seq<string>, cursor: nat, leased: set<string>)

  ghost predicate CursorFits(p: Proxies) {
    p.cursor < |p.urls| || p.cursor == 0
  }

  /** (cursor + i) % n, for i at most n; SlotIsMod says so. */
  function Slot(cursor: nat, i: nat, n: nat): (k: nat)
    requires cursor < n && i <= n
    ensures k < n
  {
    if cursor + i < n then cursor + i else cursor + i - n
  }

  lemma SlotIsMod(cursor: nat, i: nat, n: nat)
    requires cursor < n && i <= n
    ensures Slot(cursor, i, n) == (cursor + i) % n
  {
    if cursor + i >= n {
      assert (cursor + i) / n == 1;
    }
  }

  /** How many places after the cursor the first free URL is, counting from i. */
  ghost function Scan(p: Proxies, i: nat): (r: Option<nat>)
    requires CursorFits(p)
    ensures r.Some? ==> i <= r.value < |p.urls| && p.urls[Slot(p.cursor, r.value, |p.urls|)] !in p.leased
    ensures forall j :: i <= j < (if r.Some? then r.value else |p.urls|) ==>
        p.urls[Slot(p.cursor, j, |p.urls|)] in p.leased
    decreases |p.urls| - i
  {
    if i >= |p.urls| then None
    else if p.urls[Slot(p.cursor, i, |p.urls|)] !in p.leased then Some(i)
    else Scan(p, i + 1)
  }

  /** The URL Acquire hands out; None stands for ErrNoProxy. */
  ghost function Choice(p: Proxies): Option<string>
    requires CursorFits(p)
  {
    match Scan(p, 0)
    case None => None
    case Some(i) => Some(p.urls[Slot(p.cursor, i, |p.urls|)])
  }

  ghost function Acquired(p: Proxies): (q: Proxies)
    requires CursorFits(p)
    ensures CursorFits(q) && q.urls == p.urls
  {
    match Scan(p, 0)
    case None => p
    case Some(i) =>
      var k := Slot(p.cursor, i, |p.urls|);
      p.(leased := p.leased + {p.urls[k]}, cursor := Slot(k, 1, |p.urls|))
  }

  /** The URL d places after the cursor, going round. */
  ghost function Round(p: Proxies, d: nat): string
    requires p.urls != []
  {
    p.urls[(p.cursor + d) % |p.urls|]
  }

  /** The URL is the first free one from the cursor on, and the cursor is then one place after it. */
  ghost predicate TakenAfter(p: Proxies, url: string, cursor: nat) {
    p.urls != []
    && exists d :: 0 <= d < |p.urls| && Round(p, d) == url && url !in p.leased
         && cursor == (p.cursor + d + 1) % |p.urls| && forall j :: 0 <= j < d ==> Round(p, j) in p.leased
  }

  lemma RoundIs(p: Proxies, d: nat)
    requires CursorFits(p) && d < |p.urls|
    ensures Round(p, d) == p.urls[Slot(p.cursor, d, |p.urls|)]
  {
    SlotIsMod(p.cursor, d, |p.urls|);
  }

  lemma NextRound(cursor: nat, d: nat, n: nat)
    requires cursor < n && d < n
    ensures ((cursor + d) % n + 1) % n == (cursor + d + 1) % n
  {
    SlotIsMod(cursor, d, n);
    SlotIsMod(cursor, d + 1, n);
    SlotIsMod(Slot(cursor, d, n), 1, n);
    assert Slot(Slot(cursor, d, n), 1, n) == Slot(cursor, d + 1, n) == (cursor + (d + 1)) % n;
  }

  lemma IsTakenAfter(p: Proxies, d: nat, url: string, cursor: nat)
    requires CursorFits(p) && d < |p.urls| && Scan(p, 0) == Some(d)
    requires url == Round(p, d) && cursor == ((p.cursor + d) % |p.urls| + 1) % |p.urls|
    ensures TakenAfter(p, url, cursor)
  {
    hide Round;
    RoundIs(p, d);
    NextRound(p.cursor, d, |p.urls|);
    forall j | 0 <= j < d
      ensures Round(p, j) in p.leased
    {
      RoundIs(p, j);
    }
  }

  ghost function Released(p: Proxies, url: string): Proxies {
    p.(leased := p.leased - {url})
  }

  ghost function Replaced(p: Proxies, healthy: seq<string>): Proxies {
    Proxies(healthy, 0, set u | u in p.leased && u in healthy)
  }

  ghost function WithNew(urls: seq<string>, healthy: seq<string>): (r: seq<string>)
    ensures urls <= r
    ensures forall u :: u in r <==> u in urls || u in healthy
    ensures forall i, j :: 0 <= i < j < |r| && |urls| <= j ==> r[i] != r[j]
  {
    if healthy == [] then urls
    else
      var before := WithNew(urls, healthy[..|healthy| - 1]);
      var u := healthy[|healthy| - 1];
      assert healthy == healthy[..|healthy| - 1] + [u];
      if u in before then before else before + [u]
  }

  /** The first is in the list before the second is. */
  ghost predicate ComesFirst(a: string, b: string, list: seq<string>) {
    exists p :: 0 <= p < |list| && list[p] == a && b !in list[..p + 1]
  }

  /** New URLs are appended in the order they are first listed in. */
  lemma {:induction false} NewInOrder(urls: seq<string>, healthy: seq<string>, i: nat, j: nat)
    requires |urls| <= i < j < |WithNew(urls, healthy)|
    ensures ComesFirst(WithNew(urls, healthy)[i], WithNew(urls, healthy)[j], healthy)
  {
    var init, u := healthy[..|healthy| - 1], healthy[|healthy| - 1];
    var before := WithNew(urls, init);
    assert healthy == init + [u];
    if j < |before| {
      NewInOrder(urls, init, i, j);
      var p :| 0 <= p < |init| && init[p] == before[i] && before[j] !in init[..p + 1];
      assert healthy[p] == init[p] && healthy[..p + 1] == init[..p + 1];
    } else {
      NewIsNew(urls, init, i);
      assert before[i] in before;
      var p :| 0 <= p < |init| && init[p] == before[i];
      assert healthy[p] == init[p] && healthy[..p + 1] == init[..p + 1];
      assert u !in init[..p + 1];
    }
  }

  lemma NewIsNew(urls: seq<string>, healthy: seq<string>, i: nat)
    requires |urls| <= i < |WithNew(urls, healthy)|
    ensures WithNew(urls, healthy)[i] !in urls
  {
    var r := WithNew(urls, healthy);
    forall k | 0 <= k < |urls|
      ensures urls[k] != r[i]
    {
      assert r[k] == urls[k];
    }
  }

  // ----- The pool and the leases as objects -----

  class Pool {
    var proxies: seq<string>
    var cursor: nat
    var leased: set<string>

    constructor (initial: seq<string>)
      ensures Value() == Proxies(initial, 0, {})
    {
      proxies, cursor, leased := initial, 0, {};
    }

    ghost function Value(): Proxies
      reads this
    {
      Proxies(proxies, cursor, leased)
    }

    method Acquire() returns (l: Option<Lease>)
      requires CursorFits(Value())
      modifies this
      ensures Value() == Acquired(old(Value()))
      ensures l.Some? <==> Choice(old(Value())).Some?
      ensures l.Some? ==> fresh(l.value) && l.value.pool == this && !l.value.released
      ensures l.Some? ==> l.value.url == Choice(old(Value())).value
      ensures proxies == old(proxies)
      ensures l.None? ==> leased == old(leased) && cursor == old(cursor) && forall u :: u in proxies ==> u in leased
      ensures l.Some? ==> leased == old(leased) + {l.value.url} && TakenAfter(old(Value()), l.value.url, cursor)
    {
      if |proxies| == 0 {
        return None;
      }
      for i := 0 to |proxies|
        invariant Value() == old(Value()) && Scan(Value(), 0) == Scan(Value(), i)
      {
        SlotIsMod(cursor, i, |proxies|);
        var idx := (cursor + i) % |proxies|;
        var url := proxies[idx];
        if url in leased {
          continue;
        }
        leased := leased + {url};
        SlotIsMod(idx, 1, |proxies|);
        IsTakenAfter(old(Value()), i, url, (idx + 1) % |proxies|);
        cursor := (idx + 1) % |proxies|;
        var lease := new Lease(this, url);
        return Some(lease);
      }
      FailsExactly(old(Value()));
      return None;
    }

    /** The release callback. */
    method ReleaseUrl(url: string)
      modifies this
      ensures Value() == Released(old(Value()), url)
      ensures leased == old(leased) - {url} && proxies == old(proxies) && cursor == old(cursor)
    {
      leased := leased - {url};
    }

    method Replace(healthy: seq<string>)
      modifies this
      ensures Value() == Replaced(old(Value()), healthy)
      ensures proxies == healthy && cursor == 0
      ensures forall u :: u in leased <==> u in old(leased) && u in healthy
    {
      var newProxies := set u | u in healthy;
      var rest := leased;
      while rest != {}
        invariant rest <= leased && leased == (set u | u in old(leased) && (u in healthy || u in rest))
        invariant proxies == old(proxies) && cursor == old(cursor)
        decreases rest
      {
        var url :| url in rest;
        if url !in newProxies {
          leased := leased - {url};
        }
        rest := rest - {url};
      }
      proxies := healthy;
      cursor := 0;
    }

    method Add(healthy: seq<string>)
      modifies this
      ensures Value() == old(Value()).(urls := WithNew(old(proxies), healthy))
      ensures old(proxies) <= proxies && leased == old(leased) && cursor == old(cursor)
      ensures forall u :: u in proxies <==> u in old(proxies) || u in healthy
      ensures forall i, j :: 0 <= i < j < |proxies| && |old(proxies)| <= j ==> proxies[i] != proxies[j]
      ensures forall i, j :: |old(proxies)| <= i < j < |proxies| ==> ComesFirst(proxies[i], proxies[j], healthy)
    {
      var seen := set u | u in proxies;
      for i := 0 to |healthy|
        invariant proxies == WithNew(old(proxies), healthy[..i])
        invariant seen == set u | u in proxies
        invariant cursor == old(cursor) && leased == old(leased)
      {
        var u := healthy[i];
        assert healthy[..i + 1][..i] == healthy[..i];
        if u in seen {
          continue;
        }
        seen := seen + {u};
        proxies := proxies + [u];
      }
      assert healthy[..|healthy|] == healthy;
      forall i, j | |old(proxies)| <= i < j < |proxies|
        ensures ComesFirst(proxies[i], proxies[j], healthy)
      {
        NewInOrder(old(proxies), healthy, i, j);
      }
    }
  }

  class Lease {
    const pool: Pool
    const url: string
    var released: bool

    constructor (pool: Pool, url: string)
      ensures this.pool == pool && this.url == url && !released
    {
      this.pool, this.url, released := pool, url, false;
    }

    /** Only the first call reaches the pool. */
    method Release()
      modifies this, pool
      ensures released
      ensures pool.Value() == if old(released) then old(pool.Value()) else Released(old(pool.Value()), url)
    {
      if released {
        return;
      }
      released := true;
      pool.ReleaseUrl(url);
    }
  }

  // ----- When Acquire fails -----

  lemma SlotReaches(cursor: nat, k: nat, n: nat) returns (i: nat)
    requires cursor < n && k < n
    ensures i < n && Slot(cursor, i, n) == k
  {
    i := if cursor <= k then k - cursor else k + n - cursor;
  }

  /** Acquire fails exactly when every proxy is leased, and hands out a free proxy otherwise. */
  lemma FailsExactly(p: Proxies)
    requires CursorFits(p)
    ensures Choice(p).None? <==> forall u :: u in p.urls ==> u in p.leased
    ensures Choice(p).Some? ==> Choice(p).value in p.urls && Choice(p).value !in p.leased
  {
    if Scan(p, 0).None? {
      forall u | u in p.urls
        ensures u in p.leased
      {
        var k :| 0 <= k < |p.urls| && p.urls[k] == u;
        var i := SlotReaches(p.cursor, k, |p.urls|);
      }
    } else {
      var i := Scan(p, 0).value;
      assert p.urls[Slot(p.cursor, i, |p.urls|)] in p.urls;
    }
  }

  // ----- Fairness -----

  datatype Op = Take | Free(url: string)

  /** The URLs handed out, while the list of proxies stays as it is. */
  ghost function Handed(p: Proxies, ops: seq<Op>): seq<string>
    requires CursorFits(p)
    decreases |ops|
  {
    if ops == [] then []
    else
      match ops[0]
      case Take => (if Choice(p).Some? then [Choice(p).value] else []) + Handed(Acquired(p), ops[1..])
      case Free(url) => Handed(Released(p, url), ops[1..])
  }

  ghost function Distance(cursor: nat, k: nat, n: nat): nat
    requires cursor < n && k < n
  {
    if cursor <= k then k - cursor else k + n - cursor
  }

  lemma TakeComesCloser(p: Proxies, k: nat)
    requires CursorFits(p) && k < |p.urls| && p.urls[k] !in p.leased
    ensures Choice(p).Some?
    ensures Choice(p).value != p.urls[k] ==> Distance(Acquired(p).cursor, k, |p.urls|) < Distance(p.cursor, k, |p.urls|)
  {
    var d := Distance(p.cursor, k, |p.urls|);
    assert Slot(p.cursor, d, |p.urls|) == k;
    assert Scan(p, 0).Some? && Scan(p, 0).value <= d;
  }

  /** A free proxy that is not handed out comes nearer with every Acquire. */
  lemma {:induction false} HandedBound(p: Proxies, ops: seq<Op>, k: nat)
    requires CursorFits(p) && k < |p.urls| && p.urls[k] !in p.leased
    requires p.urls[k] !in Handed(p, ops)
    ensures |Handed(p, ops)| <= Distance(p.cursor, k, |p.urls|)
    decreases |ops|
  {
    if ops != [] {
      match ops[0]
      case Take =>
        TakeComesCloser(p, k);
        assert Handed(p, ops)[0] == Choice(p).value;
        assert Handed(p, ops)[1..] == Handed(Acquired(p), ops[1..]);
        HandedBound(Acquired(p), ops[1..], k);
      case Free(url) => HandedBound(Released(p, url), ops[1..], k);
    }
  }

  /** Among any n successful Acquires in a row, n being the number of proxies, is every proxy that was free at
      their start. */
  lemma FreeProxyComesRound(p: Proxies, ops: seq<Op>, u: string)
    requires CursorFits(p) && u in p.urls && u !in p.leased
    requires |Handed(p, ops)| >= |p.urls|
    ensures u in Handed(p, ops)
  {
    var k :| 0 <= k < |p.urls| && p.urls[k] == u;
    if u !in Handed(p, ops) {
      HandedBound(p, ops, k);
    }
  }

  // ----- Exclusion -----

  /** A release is two steps: the flag is swapped, then the callback runs. */
  datatype Stage = Held | Swapped | Over

  datatype LeaseState = LeaseState(url: string, stage: Stage)

  datatype World = World(pool: Proxies, leases: seq<LeaseState>)

  datatype Event =
    | Acquire
    | Swap(l: nat)      // the compare-and-swap of some Release call; it fails unless the lease is held
    | CallBack(l: nat)
    | Replace(healthy: seq<string>)
    | Add(healthy: seq<string>)

  ghost predicate Enabled(w: World, e: Event) {
    match e
    case Acquire => true
    case Swap(l) => l < |w.leases|
    case CallBack(l) => l < |w.leases| && w.leases[l].stage == Swapped
    case Replace(_) => true
    case Add(_) => true
  }

  ghost function After(w: World, e: Event): World
    requires Enabled(w, e) && CursorFits(w.pool)
  {
    match e
    case Acquire =>
      World(Acquired(w.pool), if Choice(w.pool).Some?
        then w.leases + [LeaseState(Choice(w.pool).value, Held)] else w.leases)
    case Swap(l) => if w.leases[l].stage == Held then w.(leases := w.leases[l := w.leases[l].(stage := Swapped)]) else w
    case CallBack(l) => World(Released(w.pool, w.leases[l].url), w.leases[l := w.leases[l].(stage := Over)])
    case Replace(healthy) => w.(pool := Replaced(w.pool, healthy))
    case Add(healthy) => w.(pool := w.pool.(urls := WithNew(w.pool.urls, healthy)))
  }

  ghost function Run(initial: seq<string>, es: seq<Event>): (w: Option<World>)
    ensures w.Some? ==> CursorFits(w.value.pool)
  {
    if es == [] then Some(World(Proxies(initial, 0, {}), []))
    else
      match Run(initial, es[..|es| - 1])
      case None => None
      case Some(w) => if Enabled(w, es[|es| - 1]) then Some(After(w, es[|es| - 1])) else None
  }

  /** No two leases that are not over share a URL. */
  ghost predicate Exclusive(w: World) {
    forall i, j :: 0 <= i < j < |w.leases| && w.leases[i].stage != Over && w.leases[j].stage != Over
      ==> w.leases[i].url != w.leases[j].url
  }

  /** The pool holds as leased exactly the URLs of the leases that are not over. */
  ghost predicate Tracked(w: World) {
    && (forall i :: 0 <= i < |w.leases| && w.leases[i].stage != Over ==> w.leases[i].url in w.pool.leased)
    && (forall u :: u in w.pool.leased ==>
      exists i :: 0 <= i < |w.leases| && w.leases[i].stage != Over && w.leases[i].url == u)
  }

  ghost predicate Keeps(w: World, e: Event) {
    e.Replace? ==> forall u :: u in w.pool.leased ==> u in e.healthy
  }

  lemma AcquireKeeps(w: World)
    requires CursorFits(w.pool) && Exclusive(w) && Tracked(w)
    ensures Exclusive(After(w, Acquire)) && Tracked(After(w, Acquire))
  {
    FailsExactly(w.pool);
    var v := After(w, Acquire);
    forall u | u in v.pool.leased
      ensures exists i :: 0 <= i < |v.leases| && v.leases[i].stage != Over && v.leases[i].url == u
    {
      if u in w.pool.leased {
        var i :| 0 <= i < |w.leases| && w.leases[i].stage != Over && w.leases[i].url == u;
        assert v.leases[i] == w.leases[i];
      } else {
        assert v.leases[|w.leases|].url == u;
      }
    }
  }

  lemma ReleaseKeeps(w: World, e: Event)
    requires CursorFits(w.pool) && Exclusive(w) && Tracked(w) && Enabled(w, e) && (e.Swap? || e.CallBack?)
    ensures Exclusive(After(w, e)) && Tracked(After(w, e))
  {
    var v := After(w, e);
    forall u | u in v.pool.leased
      ensures exists i :: 0 <= i < |v.leases| && v.leases[i].stage != Over && v.leases[i].url == u
    {
      var i :| 0 <= i < |w.leases| && w.leases[i].stage != Over && w.leases[i].url == u;
      assert v.leases[i].stage != Over && v.leases[i].url == u;
    }
  }

  lemma StepKeeps(w: World, e: Event)
    requires CursorFits(w.pool) && Exclusive(w) && Tracked(w) && Enabled(w, e) && Keeps(w, e)
    ensures Exclusive(After(w, e)) && Tracked(After(w, e))
  {
    match e
    case Acquire => AcquireKeeps(w);
    case Swap(_) => ReleaseKeeps(w, e);
    case CallBack(_) => ReleaseKeeps(w, e);
    case Replace(healthy) => assert After(w, e).pool.leased == w.pool.leased;
    case Add(_) =>
  }

  /** No Replace on the way drops a URL that is leased at the time. */
  ghost predicate NeverDrops(initial: seq<string>, es: seq<Event>) {
    es == [] || (NeverDrops(initial, es[..|es| - 1])
                 && (Run(initial, es[..|es| - 1]).Some? ==> Keeps(Run(initial, es[..|es| - 1]).value, es[|es| - 1])))
  }

  /** As long as no Replace drops a leased URL, no two unreleased leases share one, however often Release is
      called and wherever a release is between its two steps. */
  lemma {:induction false} ExclusiveAlways(initial: seq<string>, es: seq<Event>)
    requires Run(initial, es).Some? && NeverDrops(initial, es)
    ensures Exclusive(Run(initial, es).value) && Tracked(Run(initial, es).value)
  {
    if es != [] {
      ExclusiveAlways(initial, es[..|es| - 1]);
      StepKeeps(Run(initial, es[..|es| - 1]).value, es[|es| - 1]);
    }
  }

  lemma Extend(initial: seq<string>, es: seq<Event>, e: Event)
    requires Run(initial, es).Some? && Enabled(Run(initial, es).value, e)
    ensures Run(initial, es + [e]) == Some(After(Run(initial, es).value, e))
  {
    assert (es + [e])[..|es|] == es;
  }

  /** A Replace that drops the URL of an unreleased lease always opens the way to a second lease on it: the URL
      need only come back. */
  lemma DroppedIsShared(initial: seq<string>, es: seq<Event>, healthy: seq<string>, u: string)
    requires Run(initial, es).Some? && NeverDrops(initial, es)
    requires u in Run(initial, es).value.pool.leased && u !in healthy
    ensures var run := es + [Replace(healthy)] + [Replace([u])] + [Acquire];
            Run(initial, run).Some? && !Exclusive(Run(initial, run).value)
  {
    ExclusiveAlways(initial, es);
    var w := Run(initial, es).value;
    Extend(initial, es, Replace(healthy));
    Extend(initial, es + [Replace(healthy)], Replace([u]));
    var v := Run(initial, es + [Replace(healthy)] + [Replace([u])]).value;
    assert v.pool == Proxies([u], 0, {});
    Extend(initial, es + [Replace(healthy)] + [Replace([u])], Acquire);
    FailsExactly(v.pool);
    var x := After(v, Acquire);
    var i :| 0 <= i < |w.leases| && w.leases[i].stage != Over && w.leases[i].url == u;
    assert x.leases[i] == w.leases[i] && x.leases[|w.leases|] == LeaseState(u, Held);
  }
}
