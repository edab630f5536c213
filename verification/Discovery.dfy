/** The match discovery cycle (go-ingestion/internal/worker/discovery/matches/cycle.go:94-222) and the in-memory
    dedup set (go-ingestion/internal/dedup/inmem/seen.go). */
module Discovery {
  import opened Decimal
  import Pipeline

  // ----- The dedup set -----

  class Seen {
    var seen: set<string>

    constructor ()
      ensures seen == {}
    {
      seen := {};
    }

    method MarkSeen(key: string) returns (already: bool)
      modifies this
      ensures already <==> key in old(seen)
      ensures seen == old(seen) + {key}
    {
      if key in seen {
        return true;
      }
      seen := seen + {key};
      return false;
    }

    method IsSeen(key: string) returns (r: bool)
      ensures r <==> key in seen
    {
      return key in seen;
    }

    method CheckBatch(keys: seq<string>) returns (r: map<string, bool>)
      ensures forall k :: k in r <==> k in keys
      ensures forall k :: k in r ==> (r[k] <==> k in seen)
    {
      r := map[];
      for i := 0 to |keys|
        invariant forall k :: k in r <==> k in keys[..i]
        invariant forall k :: k in r ==> (r[k] <==> k in seen)
      {
        r := r[keys[i] := keys[i] in seen];
      }
    }
  }

  // ----- The database -----

  /** start 0: the start time is not known. */
  datatype Ref = Ref(matchId: int, start: int)

  datatype Row = Row(matchId: int, start: int, parsed: bool)

  predicate Joins(ref: Ref, row: Row) {
    row.matchId == ref.matchId && (ref.start == 0 || row.start == ref.start)
  }

  /** The LEFT JOIN of the query yields no row for the candidate, or one that is not parsed. */
  ghost predicate Unknown(db: set<Row>, ref: Ref) {
    (forall row :: row in db ==> !Joins(ref, row)) || exists row :: row in db && Joins(ref, row) && !row.parsed
  }

  ghost predicate Committed(db: set<Row>, matchId: int) {
    exists row :: row in db && row.matchId == matchId
  }

  method JoinRows(db: set<Row>, ref: Ref) returns (unknown: bool)
    ensures unknown <==> Unknown(db, ref)
  {
    var joined := set row | row in db && Joins(ref, row);
    if joined == {} {
      forall row | row in db
        ensures !Joins(ref, row)
      {
        assert row !in joined;
      }
      return true;
    }
    var row :| row in joined;
    unknown := exists r :: r in joined && !r.parsed;
  }

  /** The IDs of candidates the database does not know, in the order of the candidates. */
  method UnknownIDs(db: set<Row>, candidates: seq<Ref>) returns (ids: seq<int>)
    ensures forall id :: id in ids <==>
        exists i :: 0 <= i < |candidates| && candidates[i].matchId == id && Unknown(db, candidates[i])
  {
    ids := [];
    for i := 0 to |candidates|
      invariant forall id :: id in ids <==>
          exists j :: 0 <= j < i && candidates[j].matchId == id && Unknown(db, candidates[j])
    {
      var unknown := JoinRows(db, candidates[i]);
      if unknown {
        ids := ids + [candidates[i].matchId];
      }
    }
  }

  // ----- What a cycle should publish -----

  ghost function Filter<T>(xs: seq<T>, keep: T -> bool): seq<T> {
    if xs == [] then []
    else Filter(xs[..|xs| - 1], keep) + if keep(xs[|xs| - 1]) then [xs[|xs| - 1]] else []
  }

  ghost function Ids(refs: seq<Ref>): (ids: seq<int>)
    ensures |ids| == |refs|
  {
    seq(|refs|, i requires 0 <= i < |refs| => refs[i].matchId)
  }

  /** checked: the dedup set answered. */
  ghost function NotSeen(checked: bool, seen: set<string>): Ref -> bool {
    (ref: Ref) => !checked || Itoa(ref.matchId) !in seen
  }

  ghost predicate SomeUnknown(db: set<Row>, candidates: seq<Ref>, id: int) {
    exists i :: 0 <= i < |candidates| && candidates[i].matchId == id && Unknown(db, candidates[i])
  }

  ghost function NotKnown(asked: bool, db: set<Row>, candidates: seq<Ref>): Ref -> bool {
    (ref: Ref) => !asked || SomeUnknown(db, candidates, ref.matchId)
  }

  ghost function Candidates(checked: bool, seen: set<string>, refs: seq<Ref>): seq<Ref> {
    Filter(refs, NotSeen(checked, seen))
  }

  ghost function Wanted(checked: bool, seen: set<string>, asked: bool, db: set<Row>, refs: seq<Ref>): seq<Ref> {
    Filter(Candidates(checked, seen, refs), NotKnown(asked, db, Candidates(checked, seen, refs)))
  }

  // ----- The cycle -----

  /** publishedAt tells which of its publishes the queue accepts. */
  datatype Result = Done(pushed: nat, skipped: nat) | PublishFailed(matchId: int)

  class Cycle {
    const dedup: Seen?
    const reader: bool // a match reader is configured
    var out: seq<int>  // the match IDs published so far

    constructor (dedup: Seen?, reader: bool)
      ensures this.dedup == dedup && this.reader == reader && out == []
    {
      this.dedup, this.reader, out := dedup, reader, [];
    }

    ghost function SeenKeys(): set<string>
      reads this, dedup
    {
      if dedup == null then {} else dedup.seen
    }

    method FirstFilter(refs: seq<Ref>, checkFails: bool) returns (candidates: seq<Ref>, skipped: nat)
      ensures candidates == Candidates(dedup != null && !checkFails, SeenKeys(), refs)
      ensures |candidates| + skipped == |refs|
    {
      hide Itoa;
      candidates, skipped := [], 0;
      if dedup == null || checkFails {
        AllKept(refs, NotSeen(dedup != null && !checkFails, SeenKeys()));
        return refs, 0;
      }
      var keys := [];
      for i := 0 to |refs|
        invariant |keys| == i && forall j :: 0 <= j < i ==> keys[j] == Itoa(refs[j].matchId)
      {
        keys := keys + [Itoa(refs[i].matchId)];
      }
      var seenMap := dedup.CheckBatch(keys);
      assert forall i :: 0 <= i < |keys| ==> keys[i] in seenMap && (seenMap[keys[i]] <==> keys[i] in SeenKeys());
      candidates, skipped := Unseen(refs, keys, seenMap, SeenKeys());
    }

    /** The loop over the answers. */
    static method Unseen(refs: seq<Ref>, keys: seq<string>, seenMap: map<string, bool>, ghost seen: set<string>)
      returns (candidates: seq<Ref>, skipped: nat)
      requires |keys| == |refs| && forall i :: 0 <= i < |refs| ==> keys[i] == Itoa(refs[i].matchId)
      requires forall i :: 0 <= i < |keys| ==> keys[i] in seenMap && (seenMap[keys[i]] <==> keys[i] in seen)
      ensures candidates == Filter(refs, NotSeen(true, seen)) && |candidates| + skipped == |refs|
    {
      hide Itoa;
      candidates, skipped := [], 0;
      for i := 0 to |refs|
        invariant candidates == Filter(refs[..i], NotSeen(true, seen)) && |candidates| + skipped == i
      {
        assert refs[..i + 1][..i] == refs[..i];
        if !seenMap[keys[i]] {
          candidates := candidates + [refs[i]];
        } else {
          skipped := skipped + 1;
        }
      }
      assert refs[..|refs|] == refs;
    }

    method SecondFilter(db: set<Row>, candidates: seq<Ref>, readFails: bool) returns (wanted: seq<Ref>, skipped: nat)
      ensures wanted == Filter(candidates, NotKnown(reader && !readFails, db, candidates))
      ensures |wanted| + skipped == |candidates|
    {
      wanted, skipped := [], 0;
      if !reader || |candidates| == 0 || readFails {
        AllKept(candidates, NotKnown(false, db, candidates));
        if candidates != [] {
          assert !(reader && !readFails);
        }
        return candidates, 0;
      }
      var ids := UnknownIDs(db, candidates);
      var unknown := set id | id in ids;
      for i := 0 to |candidates|
        invariant wanted == Filter(candidates[..i], NotKnown(true, db, candidates)) && |wanted| + skipped == i
      {
        assert candidates[..i + 1][..i] == candidates[..i];
        assert candidates[i].matchId in unknown <==> SomeUnknown(db, candidates, candidates[i].matchId);
        if candidates[i].matchId in unknown {
          wanted := wanted + [candidates[i]];
        } else {
          skipped := skipped + 1;
        }
      }
      assert candidates[..|candidates|] == candidates;
    }

    /** One cycle over the matches the query returned; publishFails says of each publish whether it errors. */
    method RunOnce(refs: seq<Ref>, db: set<Row>, checkFails: bool, readFails: bool, publishFails: nat -> bool)
      returns (r: Result)
      modifies this
      ensures var wanted := Wanted(dedup != null && !checkFails, old(SeenKeys()), reader && !readFails, db, refs);
              match r {
                case Done(pushed, skipped) =>
                  out == old(out) + Ids(wanted) && pushed == |wanted| && pushed + skipped == |refs|
                case PublishFailed(matchId) =>
                  exists k :: 0 <= k < |wanted| && publishFails(k) && wanted[k].matchId == matchId
                    && out == old(out) + Ids(wanted[..k])
              }
      ensures (forall k :: !publishFails(k)) ==> r.Done?
    {
      if |refs| == 0 {
        return Done(0, 0);
      }
      var candidates, skipped := FirstFilter(refs, checkFails);
      var wanted, more := SecondFilter(db, candidates, readFails);
      skipped := skipped + more;
      var pushed := 0;
      for i := 0 to |wanted|
        invariant out == old(out) + Ids(wanted[..i]) && pushed == i
      {
        if publishFails(i) {
          return PublishFailed(wanted[i].matchId);
        }
        assert Ids(wanted[..i + 1]) == Ids(wanted[..i]) + [wanted[i].matchId];
        out := out + [wanted[i].matchId];
        pushed := pushed + 1;
      }
      assert wanted[..|wanted|] == wanted;
      return Done(pushed, skipped);
    }
  }

  // ----- Filters -----

  lemma {:induction false} AllKept<T>(xs: seq<T>, keep: T -> bool)
    requires forall i :: 0 <= i < |xs| ==> keep(xs[i])
    ensures Filter(xs, keep) == xs
  {
    if xs != [] {
      AllKept(xs[..|xs| - 1], keep);
    }
  }

  lemma {:induction false} FilterSame<T>(xs: seq<T>, keep: T -> bool, other: T -> bool)
    requires forall i :: 0 <= i < |xs| ==> (keep(xs[i]) <==> other(xs[i]))
    ensures Filter(xs, keep) == Filter(xs, other)
  {
    if xs != [] {
      FilterSame(xs[..|xs| - 1], keep, other);
    }
  }

  /** A filter that keeps all of some kind leaves those elements, in their order. */
  lemma {:induction false} KindSurvives<T>(xs: seq<T>, keep: T -> bool, kind: T -> bool)
    requires forall i :: 0 <= i < |xs| && kind(xs[i]) ==> keep(xs[i])
    ensures Filter(Filter(xs, keep), kind) == Filter(xs, kind)
  {
    if xs != [] {
      var init, last := xs[..|xs| - 1], xs[|xs| - 1];
      KindSurvives(init, keep, kind);
      var kept := Filter(xs, keep);
      if keep(last) {
        assert kept == Filter(init, keep) + [last];
        assert kept[..|kept| - 1] == Filter(init, keep);
      } else {
        assert kept == Filter(init, keep);
      }
    }
  }

  lemma FilterOne<T>(x: T, keep: T -> bool)
    ensures Filter([x], keep) == if keep(x) then [x] else []
  {
    assert [x][..0] == [];
  }

  lemma {:induction false} FilterMembers<T>(xs: seq<T>, keep: T -> bool)
    ensures forall x :: x in Filter(xs, keep) <==> x in xs && keep(x)
  {
    if xs != [] {
      FilterMembers(xs[..|xs| - 1], keep);
      assert xs == xs[..|xs| - 1] + [xs[|xs| - 1]];
    }
  }

  // ----- What the filters let through -----

  /** Only committed matches are in the dedup set; the pipeline keeps it so. */
  ghost predicate SeenFits(seen: set<string>, db: set<Row>) {
    forall key :: key in seen ==> exists row :: row in db && Itoa(row.matchId) == key
  }

  ghost function Missing(db: set<Row>): Ref -> bool {
    (ref: Ref) => !Committed(db, ref.matchId)
  }

  lemma MissingIsNotSeen(seen: set<string>, db: set<Row>, ref: Ref)
    requires SeenFits(seen, db) && !Committed(db, ref.matchId)
    ensures Itoa(ref.matchId) !in seen
  {
    if Itoa(ref.matchId) in seen {
      var row :| row in db && Itoa(row.matchId) == Itoa(ref.matchId);
      ItoaInjective(row.matchId, ref.matchId);
    }
  }

  /** Whichever filters run or fail, every discovered match that is not in the database is wanted, in the order
      of discovery. With RunOnce: a cycle whose publishes all succeed publishes each of them. */
  lemma UncommittedAreWanted(checked: bool, seen: set<string>, asked: bool, db: set<Row>, refs: seq<Ref>)
    requires SeenFits(seen, db)
    ensures Filter(Wanted(checked, seen, asked, db, refs), Missing(db)) == Filter(refs, Missing(db))
  {
    var candidates := Candidates(checked, seen, refs);
    forall i | 0 <= i < |refs| && Missing(db)(refs[i])
      ensures NotSeen(checked, seen)(refs[i])
    {
      MissingIsNotSeen(seen, db, refs[i]);
    }
    forall i | 0 <= i < |candidates| && Missing(db)(candidates[i])
      ensures NotKnown(asked, db, candidates)(candidates[i])
    {
      assert Unknown(db, candidates[i]);
    }
    KindSurvives(refs, NotSeen(checked, seen), Missing(db));
    KindSurvives(candidates, NotKnown(asked, db, candidates), Missing(db));
  }

  /** When both filters answer, a discovered match is published exactly if it is not in the dedup set and the
      database does not know it under some start time it was discovered with. */
  lemma WantedExactly(seen: set<string>, db: set<Row>, refs: seq<Ref>, ref: Ref)
    requires ref in refs
    ensures ref in Wanted(true, seen, true, db, refs) <==>
              Itoa(ref.matchId) !in seen
              && exists other :: other in refs && other.matchId == ref.matchId && Unknown(db, other)
  {
    var candidates := Candidates(true, seen, refs);
    FilterMembers(refs, NotSeen(true, seen));
    FilterMembers(candidates, NotKnown(true, db, candidates));
    if other :| other in refs && other.matchId == ref.matchId && Unknown(db, other) {
      if Itoa(ref.matchId) !in seen {
        assert other in candidates;
        var i :| 0 <= i < |candidates| && candidates[i] == other;
      }
    }
    if SomeUnknown(db, candidates, ref.matchId) {
      var i :| 0 <= i < |candidates| && candidates[i].matchId == ref.matchId && Unknown(db, candidates[i]);
      assert candidates[i] in candidates;
    }
  }

  /** The match has no row, or none under the start time if that is known; or one that is not parsed. */
  ghost predicate Unsettled(db: set<Row>, matchId: int, start: int) {
    || (forall row :: row in db && row.matchId == matchId ==> start != 0 && row.start != start)
    || exists row :: row in db && row.matchId == matchId && (start == 0 || row.start == start) && !row.parsed
  }

  lemma UnknownIsUnsettled(db: set<Row>, ref: Ref)
    ensures Unknown(db, ref) <==> Unsettled(db, ref.matchId, ref.start)
  {
    if row :| row in db && Joins(ref, row) && !row.parsed {
      assert row.matchId == ref.matchId;
    }
    if row :| row in db && row.matchId == ref.matchId && (ref.start == 0 || row.start == ref.start) && !row.parsed {
      assert Joins(ref, row);
    }
  }

  /** Told by the rows: a discovered match is wanted exactly if the dedup set does not have it and it is unsettled
      under some start time it was discovered with. */
  lemma WantedByRows(seen: set<string>, db: set<Row>, refs: seq<Ref>, ref: Ref)
    requires ref in refs
    ensures ref in Wanted(true, seen, true, db, refs) <==>
              Itoa(ref.matchId) !in seen
              && exists start :: Ref(ref.matchId, start) in refs && Unsettled(db, ref.matchId, start)
  {
    WantedExactly(seen, db, refs, ref);
    forall other | other in refs
      ensures Unknown(db, other) <==> Unsettled(db, other.matchId, other.start)
    {
      UnknownIsUnsettled(db, other);
    }
    if other :| other in refs && other.matchId == ref.matchId && Unknown(db, other) {
      assert Ref(ref.matchId, other.start) == other;
    }
  }

  /** So a match with an unparsed row, and not in the dedup set, is published again. */
  lemma UnparsedIsWanted(seen: set<string>, db: set<Row>, refs: seq<Ref>, ref: Ref, row: Row)
    requires ref in refs && Itoa(ref.matchId) !in seen
    requires row in db && row.matchId == ref.matchId && (ref.start == 0 || row.start == ref.start) && !row.parsed
    ensures ref in Wanted(true, seen, true, db, refs)
  {
    assert Ref(ref.matchId, ref.start) in refs;
    WantedByRows(seen, db, refs, ref);
  }

  /** A match that is committed but not parsed is wanted by the database, yet stays out while the dedup set
      has it: the dedup set is asked first. */
  lemma UnparsedStaysOut(seen: set<string>, db: set<Row>, ref: Ref)
    requires Itoa(ref.matchId) in seen && Unknown(db, ref)
    ensures Wanted(true, seen, true, db, [ref]) == []
    ensures Wanted(false, seen, true, db, [ref]) == [ref]
  {
    FilterOne(ref, NotSeen(true, seen));
    FilterOne(ref, NotSeen(false, seen));
    assert [ref][0] == ref;
    assert SomeUnknown(db, [ref], ref.matchId);
    FilterOne(ref, NotKnown(true, db, [ref]));
  }

  // ----- With the pipeline -----

  /** In every reachable state of the pipeline, with a dedup set of its keys and a table of its committed
      matches, a cycle wants every discovered match that is not committed. */
  lemma ReachableCycleWantsUncommitted(es: seq<Pipeline.Event>, checked: bool, seen: set<string>, asked: bool,
      db: set<Row>, refs: seq<Ref>)
    requires Pipeline.Run(es).Some?
    requires forall key :: key in seen ==> exists m :: m in Pipeline.Run(es).value.seen && Itoa(m) == key
    requires forall m :: m in Pipeline.Run(es).value.db <==> Committed(db, m)
    ensures Filter(Wanted(checked, seen, asked, db, refs), Missing(db)) == Filter(refs, Missing(db))
  {
    hide Itoa;
    Pipeline.SeenIsCommitted(es);
    var w := Pipeline.Run(es).value;
    forall key | key in seen
      ensures exists row :: row in db && Itoa(row.matchId) == key
    {
      var m :| m in w.seen && Itoa(m) == key;
      assert Committed(db, m);
      var row :| row in db && row.matchId == m;
      assert Itoa(row.matchId) == key;
    }
    UncommittedAreWanted(checked, seen, asked, db, refs);
  }
}
