/** Ordering of enrichment sources by their declared dependencies, and the run over the ordered list
    (go-ingestion/internal/enrich/runner.go). */
module DependencySort {
  datatype Source = Source(name: string, deps: seq<string>, critical: bool)

  datatype SortError =
    | CycleDetected(name: string)
    | MissingDependency(dep: string, source: string)

  datatype SortResult =
    | Sorted(order: seq<Source>, skipped: seq<string>)
    | Rejected(error: SortError)

  datatype Verdict = Fine | Failed(error: SortError)

  // ----- The dependency graph a list of sources stands for -----

  /** When names repeat, the last source with a name is the one the name stands for. */
  function NameMap(sources: seq<Source>): (m: map<string, nat>)
    ensures forall name :: name in m ==> m[name] < |sources| && sources[m[name]].name == name
  {
    if sources == [] then map[]
    else
      var last := |sources| - 1;
      NameMap(sources[..last])[sources[last].name := last]
  }

  lemma {:induction false} EveryNameIsMapped(sources: seq<Source>, i: nat)
    requires i < |sources|
    ensures sources[i].name in NameMap(sources)
  {
    var last := |sources| - 1;
    if i < last {
      assert sources[..last][i] == sources[i];
      EveryNameIsMapped(sources[..last], i);
    }
  }

  ghost predicate Known(sources: seq<Source>, name: string) {
    name in NameMap(sources)
  }

  ghost function Resolve(sources: seq<Source>, name: string): Source
    requires Known(sources, name)
  {
    sources[NameMap(sources)[name]]
  }

  ghost predicate Edge(sources: seq<Source>, a: string, b: string) {
    Known(sources, a) && b in Resolve(sources, a).deps
  }

  ghost predicate IsPath(sources: seq<Source>, p: seq<string>) {
    forall i :: 0 <= i < |p| - 1 ==> Edge(sources, p[i], p[i + 1])
  }

  ghost predicate IsCycle(sources: seq<Source>, p: seq<string>) {
    |p| >= 2 && p[0] == p[|p| - 1] && IsPath(sources, p)
  }

  ghost predicate Acyclic(sources: seq<Source>) {
    forall p :: !IsCycle(sources, p)
  }

  ghost predicate AllDepsKnown(sources: seq<Source>) {
    forall a, b :: Edge(sources, a, b) ==> Known(sources, b)
  }

  /** The error is backed by a witness: a cycle through the named source, or a dependency nobody provides. */
  ghost predicate Justified(sources: seq<Source>, e: SortError) {
    match e
    case CycleDetected(name) => exists p :: IsCycle(sources, p) && p[0] == name
    case MissingDependency(dep, source) => Edge(sources, source, dep) && !Known(sources, dep)
  }

  ghost predicate DistinctNames(s: seq<Source>) {
    forall i, j :: 0 <= i < j < |s| ==> s[i].name != s[j].name
  }

  ghost function Names(s: seq<Source>): set<string> {
    if s == [] then {} else Names(s[..|s| - 1]) + {s[|s| - 1].name}
  }

  /** Each source comes after everything it depends on. */
  ghost predicate DependenciesFirst(s: seq<Source>) {
    forall i, dep :: 0 <= i < |s| && dep in s[i].deps ==> dep in Names(s[..i])
  }

  /** A list built by appending, one at a time, a source not yet listed whose dependencies are all listed. */
  ghost predicate Buildable(sources: seq<Source>, s: seq<Source>) {
    s == [] ||
    var init, last := s[..|s| - 1], s[|s| - 1];
    && Buildable(sources, init)
    && last.name !in Names(init)
    && Known(sources, last.name) && last == Resolve(sources, last.name)
    && forall dep :: dep in last.deps ==> dep in Names(init)
  }

  // ----- The depth-first closure -----

  class Visitor {
    const sources: seq<Source>
    const nameMap: map<string, nat>
    var sorted: seq<Source>
    var inStack: set<string>  // the names whose inStack entry is true
    var done: set<string>     // the names whose done entry is true

    constructor (sources: seq<Source>)
      ensures this.sources == sources
      ensures Valid() && inStack == {} && sorted == []
    {
      this.sources := sources;
      nameMap := NameMap(sources);
      sorted, inStack, done := [], {}, {};
    }

    ghost predicate Valid()
      reads this
    {
      && nameMap == NameMap(sources)
      && done == Names(sorted)
      && done !! inStack
      && Buildable(sources, sorted)
    }

    /** One call of the visit closure; path is the chain of names being visited. */
    method Visit(name: string, ghost path: seq<string>) returns (v: Verdict)
      requires Valid()
      requires inStack == set x | x in path
      requires IsPath(sources, path + [name])
      modifies this
      ensures v.Failed? ==> Justified(sources, v.error)
      ensures v.Fine? ==> Valid() && inStack == old(inStack)
      ensures v.Fine? ==> old(sorted) <= sorted && (Known(sources, name) ==> name in done)
      ensures name in old(done) ==> v.Fine? && sorted == old(sorted)
      ensures Known(sources, name) && name !in old(done) && name !in old(inStack)
              && (forall dep :: dep in Resolve(sources, name).deps ==> dep in old(done))
              ==> v.Fine? && sorted == old(sorted) + [Resolve(sources, name)]
      decreases nameMap.Keys - inStack
    {
      hide Names, Buildable, IsPath, Justified;
      if name in done {
        return Fine;
      }
      if name in inStack {
        CloseCycle(sources, path, name);
        Reported(sources, CycleDetected(name));
        return Failed(CycleDetected(name));
      }
      inStack := inStack + {name};
      if name in nameMap {
        var source := sources[nameMap[name]];
        for d := 0 to |source.deps|
          invariant Valid() && inStack == old(inStack) + {name}
          invariant old(sorted) <= sorted
          invariant forall k :: 0 <= k < d ==> source.deps[k] in done
          invariant (forall dep :: dep in source.deps ==> dep in old(done)) ==> sorted == old(sorted)
        {
          var dep := source.deps[d];
          if dep !in nameMap {
            assert Edge(sources, name, dep);
            ListedIsKnown(sources, sorted, dep);
            Reported(sources, MissingDependency(dep, name));
            return Failed(MissingDependency(dep, name));
          }
          ExtendPath(sources, path, name, dep);
          assert nameMap.Keys - inStack < nameMap.Keys - old(inStack) by {
            assert name in nameMap.Keys - old(inStack);
            assert name !in nameMap.Keys - inStack;
          }
          ghost var before := sorted;
          var w := Visit(dep, path + [name]);
          if w.Failed? {
            return w;
          }
          NamesGrow(before, sorted);
        }
        if name !in done {
          Listing(sources, sorted, name, source, sorted + [source]);
          sorted := sorted + [source];
          done := done + {name};
        }
      }
      inStack := inStack - {name};
      return Fine;
    }

    /** The loop over all nodes. */
    method VisitAll() returns (v: Verdict)
      requires Valid() && inStack == {} && sorted == []
      modifies this
      ensures v.Failed? ==> Justified(sources, v.error)
      ensures v.Fine? ==> Buildable(sources, sorted)
      ensures v.Fine? ==> forall i :: 0 <= i < |sources| ==> sources[i].name in Names(sorted)
      ensures DistinctNames(sources) && DependenciesFirst(sources) ==> v.Fine? && sorted == sources
    {
      ghost var tidy := DistinctNames(sources) && DependenciesFirst(sources);
      for i := 0 to |sources|
        invariant Valid() && inStack == {}
        invariant forall k :: 0 <= k < i ==> sources[k].name in done
        invariant tidy ==> sorted == sources[..i]
      {
        ghost var before := sorted;
        EveryNameIsMapped(sources, i);
        if tidy {
          TidyNext(sources, i);
        }
        v := Visit(sources[i].name, []);
        if v.Failed? {
          return;
        }
        NamesGrow(before, sorted);
      }
      return Fine;
    }
  }

  lemma CloseCycle(sources: seq<Source>, path: seq<string>, name: string)
    requires name in path
    requires IsPath(sources, path + [name])
    ensures exists p :: IsCycle(sources, p) && p[0] == name
  {
    var k :| 0 <= k < |path| && path[k] == name;
    var whole := path + [name];
    var p := whole[k..];
    forall i | 0 <= i < |p| - 1
      ensures Edge(sources, p[i], p[i + 1])
    {
      assert p[i] == whole[k + i] && p[i + 1] == whole[k + i + 1];
    }
    assert IsCycle(sources, p);
  }

  lemma Reported(sources: seq<Source>, e: SortError)
    requires match e
             case CycleDetected(name) => exists p :: IsCycle(sources, p) && p[0] == name
             case MissingDependency(dep, source) => Edge(sources, source, dep) && !Known(sources, dep)
    ensures Justified(sources, e)
  {
  }

  /** Appending a source whose dependencies are all listed. */
  lemma Listing(sources: seq<Source>, s: seq<Source>, name: string, source: Source, more: seq<Source>)
    requires Buildable(sources, s) && Known(sources, name) && source == Resolve(sources, name) && name !in Names(s)
    requires forall dep :: dep in source.deps ==> dep in Names(s)
    requires more == s + [source]
    ensures Buildable(sources, more) && Names(more) == Names(s) + {name}
  {
    hide NameMap;
    assert more[..|more| - 1] == s && more[|more| - 1] == source;
  }

  lemma ExtendPath(sources: seq<Source>, path: seq<string>, name: string, dep: string)
    requires IsPath(sources, path + [name]) && Edge(sources, name, dep)
    ensures IsPath(sources, path + [name] + [dep])
  {
    var p := path + [name];
    forall i | 0 <= i < |p|
      ensures Edge(sources, (p + [dep])[i], (p + [dep])[i + 1])
    {
      if i < |p| - 1 {
        assert Edge(sources, p[i], p[i + 1]);
      }
    }
  }

  lemma {:induction false} ListedIsKnown(sources: seq<Source>, s: seq<Source>, name: string)
    requires Buildable(sources, s)
    ensures name in Names(s) ==> Known(sources, name)
  {
    if s != [] {
      ListedIsKnown(sources, s[..|s| - 1], name);
    }
  }

  lemma {:induction false} NamesGrow(s: seq<Source>, t: seq<Source>)
    requires s <= t
    ensures Names(s) <= Names(t)
  {
    if |s| < |t| {
      NamesGrow(s, t[..|t| - 1]);
    } else {
      assert s == t;
    }
  }

  // ----- What an ordered list says about the graph -----

  lemma {:induction false} NamesAre(s: seq<Source>, name: string)
    ensures name in Names(s) <==> exists i :: 0 <= i < |s| && s[i].name == name
  {
    if s != [] {
      var init, last := s[..|s| - 1], s[|s| - 1];
      NamesAre(init, name);
      if name in Names(init) {
        var i :| 0 <= i < |init| && init[i].name == name;
        assert s[i].name == name;
      } else if exists i :: 0 <= i < |s| && s[i].name == name {
        var i :| 0 <= i < |s| && s[i].name == name;
        assert i < |init| ==> init[i].name == name;
      }
    }
  }

  /** What Buildable means entry by entry. */
  lemma {:induction false} BuildableEntry(sources: seq<Source>, s: seq<Source>, i: nat)
    requires Buildable(sources, s) && i < |s|
    ensures Known(sources, s[i].name) && s[i] == Resolve(sources, s[i].name)
    ensures s[i].name !in Names(s[..i])
    ensures forall dep :: dep in s[i].deps ==> dep in Names(s[..i])
  {
    if i < |s| - 1 {
      var init := s[..|s| - 1];
      BuildableEntry(sources, init, i);
      assert init[..i] == s[..i];
    }
  }

  lemma BuildableOrder(sources: seq<Source>, s: seq<Source>)
    requires Buildable(sources, s)
    ensures DistinctNames(s) && DependenciesFirst(s)
  {
    forall i, j | 0 <= i < j < |s|
      ensures s[i].name != s[j].name
    {
      BuildableEntry(sources, s, j);
      NamesAre(s[..j], s[i].name);
      assert s[..j][i] == s[i];
    }
    forall i, dep | 0 <= i < |s| && dep in s[i].deps
      ensures dep in Names(s[..i])
    {
      BuildableEntry(sources, s, i);
    }
  }

  /** Along a path the position in an ordered list only goes down. */
  lemma {:induction false} PathDescends(sources: seq<Source>, s: seq<Source>, p: seq<string>, i: nat) returns (j: nat)
    requires Buildable(sources, s)
    requires p != [] && IsPath(sources, p)
    requires i < |s| && s[i].name == p[0]
    ensures j <= i && s[j].name == p[|p| - 1]
    ensures |p| >= 2 ==> j < i
  {
    if |p| == 1 {
      j := i;
    } else {
      assert Edge(sources, p[0], p[1]);
      BuildableEntry(sources, s, i);
      NamesAre(s[..i], p[1]);
      var k :| 0 <= k < i && s[..i][k].name == p[1];
      forall q | 0 <= q < |p[1..]| - 1
        ensures Edge(sources, p[1..][q], p[1..][q + 1])
      {
        assert Edge(sources, p[q + 1], p[q + 2]);
      }
      j := PathDescends(sources, s, p[1..], k);
    }
  }

  /** A complete ordered list rules out cycles. */
  lemma OrderedMeansAcyclic(sources: seq<Source>, s: seq<Source>)
    requires Buildable(sources, s)
    requires forall name :: Known(sources, name) ==> name in Names(s)
    ensures Acyclic(sources)
  {
    forall p
      ensures !IsCycle(sources, p)
    {
      if IsCycle(sources, p) {
        assert Edge(sources, p[0], p[1]);
        NamesAre(s, p[0]);
        var i :| 0 <= i < |s| && s[i].name == p[0];
        var j := PathDescends(sources, s, p, i);
        BuildableOrder(sources, s);
        assert false;
      }
    }
  }

  lemma OrderedMeansDepsKnown(sources: seq<Source>, s: seq<Source>)
    requires Buildable(sources, s)
    requires forall name :: Known(sources, name) ==> name in Names(s)
    ensures AllDepsKnown(sources)
  {
    forall a, b | Edge(sources, a, b)
      ensures Known(sources, b)
    {
      NamesAre(s, a);
      var i :| 0 <= i < |s| && s[i].name == a;
      BuildableEntry(sources, s, i);
      NamesAre(s[..i], b);
      var k :| 0 <= k < i && s[..i][k].name == b;
      BuildableEntry(sources, s, k);
    }
  }

  /** No list can be both rejected with a witness and free of cycles and missing dependencies. */
  lemma JustifiedMeansDefective(sources: seq<Source>, e: SortError)
    requires Justified(sources, e)
    ensures !(Acyclic(sources) && AllDepsKnown(sources))
  {
  }

  lemma DistinctResolvesToItself(sources: seq<Source>, i: nat)
    requires DistinctNames(sources) && i < |sources|
    ensures Known(sources, sources[i].name) && Resolve(sources, sources[i].name) == sources[i]
  {
    EveryNameIsMapped(sources, i);
    var k := NameMap(sources)[sources[i].name];
    assert sources[k].name == sources[i].name;
  }

  lemma {:induction false} CountDistinct(s: seq<Source>, x: Source)
    requires DistinctNames(s)
    ensures multiset(s)[x] == if x in s then 1 else 0
  {
    if s != [] {
      var init, last := s[..|s| - 1], s[|s| - 1];
      assert s == init + [last];
      CountDistinct(init, x);
      if x in init {
        assert x != last;
      }
    }
  }

  /** Without repeated names the ordered list is a permutation of the input. */
  lemma CompleteIsPermutation(sources: seq<Source>, s: seq<Source>)
    requires DistinctNames(sources) && Buildable(sources, s)
    requires forall name :: Known(sources, name) ==> name in Names(s)
    ensures multiset(s) == multiset(sources)
  {
    BuildableOrder(sources, s);
    forall x
      ensures multiset(s)[x] == multiset(sources)[x]
    {
      CountDistinct(s, x);
      CountDistinct(sources, x);
      if x in sources {
        var i :| 0 <= i < |sources| && sources[i] == x;
        DistinctResolvesToItself(sources, i);
        NamesAre(s, x.name);
        var k :| 0 <= k < |s| && s[k].name == x.name;
        BuildableEntry(sources, s, k);
        assert s[k] == x;
      }
      if x in s {
        var k :| 0 <= k < |s| && s[k] == x;
        BuildableEntry(sources, s, k);
      }
    }
  }

  /** Everything a finished sort promises. */
  ghost predicate CorrectOrder(sources: seq<Source>, s: seq<Source>) {
    && DistinctNames(s) && DependenciesFirst(s)
    && (forall name :: name in Names(s) <==> Known(sources, name))
    && (forall i :: 0 <= i < |s| ==> Known(sources, s[i].name) && s[i] == Resolve(sources, s[i].name))
    && (DistinctNames(sources) ==> multiset(s) == multiset(sources))
  }

  lemma CompleteIsCorrect(sources: seq<Source>, s: seq<Source>)
    requires Buildable(sources, s)
    requires forall i :: 0 <= i < |sources| ==> sources[i].name in Names(s)
    ensures Acyclic(sources) && AllDepsKnown(sources) && CorrectOrder(sources, s)
  {
    forall name | Known(sources, name)
      ensures name in Names(s)
    {
      assert sources[NameMap(sources)[name]].name == name;
    }
    forall i | 0 <= i < |s|
      ensures Known(sources, s[i].name) && s[i] == Resolve(sources, s[i].name)
    {
      BuildableEntry(sources, s, i);
    }
    forall name | name in Names(s)
      ensures Known(sources, name)
    {
      NamesAre(s, name);
    }
    BuildableOrder(sources, s);
    OrderedMeansAcyclic(sources, s);
    OrderedMeansDepsKnown(sources, s);
    if DistinctNames(sources) {
      CompleteIsPermutation(sources, s);
    }
  }

  /** A list already in order offers its next source with every dependency listed. */
  lemma TidyNext(sources: seq<Source>, i: nat)
    requires DistinctNames(sources) && DependenciesFirst(sources) && i < |sources|
    ensures Known(sources, sources[i].name) && Resolve(sources, sources[i].name) == sources[i]
    ensures sources[i].name !in Names(sources[..i])
    ensures sources[..i + 1] == sources[..i] + [sources[i]]
    ensures forall dep :: dep in sources[i].deps ==> dep in Names(sources[..i])
  {
    DistinctResolvesToItself(sources, i);
    NamesAre(sources[..i], sources[i].name);
  }

  /** sortByDependencies: succeeds exactly on complete, cycle-free graphs, and then lists each named
      source once, after everything it depends on; a list already in order comes back unchanged. */
  method SortByDependencies(sources: seq<Source>) returns (r: SortResult)
    ensures r.Sorted? <==> Acyclic(sources) && AllDepsKnown(sources)
    ensures r.Rejected? ==> Justified(sources, r.error)
    ensures r.Sorted? ==> CorrectOrder(sources, r.order) && r.skipped == []
    ensures DistinctNames(sources) && DependenciesFirst(sources) ==> r == Sorted(sources, [])
  {
    var visitor := new Visitor(sources);
    var v := visitor.VisitAll();
    if v.Failed? {
      JustifiedMeansDefective(sources, v.error);
      return Rejected(v.error);
    }
    CompleteIsCorrect(sources, visitor.sorted);
    return Sorted(visitor.sorted, []);
  }
}
