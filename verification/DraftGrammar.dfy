/** Captain's Mode draft patterns and the greedy matcher that allows for declined bans
    (go-ingestion/internal/worker/parser/decode_draft.go). A kind is true for a pick, false for a ban. */
module DraftGrammar {
  datatype PickBan = PickBan(order: int, isPick: bool, heroId: int, team: int)

  datatype Era = Era(name: string, pattern: seq<bool>)

  function Times(kind: bool, n: nat): seq<bool> {
    seq(n, _ => kind)
  }

  const PRE_7_30 := Times(false, 4) + Times(true, 6) + Times(false, 6) + Times(true, 4)
  const FROM_7_30_TO_7_32 :=
    Times(false, 4) + Times(true, 4) + Times(false, 6) + Times(true, 4) + Times(false, 4) + Times(true, 2)
  const FROM_7_33 :=
    Times(false, 7) + Times(true, 2) + Times(false, 3) + Times(true, 6) + Times(false, 4) + Times(true, 2)

  /** Most recent first. */
  const ERAS := [Era("7_33_plus", FROM_7_33), Era("7_30_to_7_32", FROM_7_30_TO_7_32), Era("pre_7_30", PRE_7_30)]

  ghost function Kinds(picksBans: seq<PickBan>): seq<bool> {
    seq(|picksBans|, i requires 0 <= i < |picksBans| => picksBans[i].isPick)
  }

  ghost function Picks(kinds: seq<bool>): nat {
    if kinds == [] then 0 else Picks(kinds[..|kinds| - 1]) + if kinds[|kinds| - 1] then 1 else 0
  }

  /** Every era has ten picks, and ten bans or fourteen. */
  lemma EraShapes()
    ensures |ERAS| == 3
    ensures |PRE_7_30| == 20 && |FROM_7_30_TO_7_32| == |FROM_7_33| == 24
    ensures forall i :: 0 <= i < 20 ==> (PRE_7_30[i] <==> 4 <= i < 10 || 16 <= i)
    ensures forall i :: 0 <= i < 24 ==> (FROM_7_30_TO_7_32[i] <==> 4 <= i < 8 || 14 <= i < 18 || 22 <= i)
    ensures forall i :: 0 <= i < 24 ==> (FROM_7_33[i] <==> 7 <= i < 9 || 12 <= i < 18 || 22 <= i)
  {
  }

  // ----- What deleting bans means -----

  /** The entries whose flag in keep is set, in order. */
  ghost function Kept<T>(s: seq<T>, keep: seq<bool>): seq<T>
    requires |keep| == |s|
  {
    if s == [] then [] else (if keep[0] then [s[0]] else []) + Kept(s[1..], keep[1..])
  }

  ghost predicate OnlyBansDropped(pattern: seq<bool>, keep: seq<bool>) {
    |keep| == |pattern| && forall i :: 0 <= i < |pattern| && pattern[i] ==> keep[i]
  }

  /** observed is pattern with some bans deleted. */
  ghost predicate BanDeletion(observed: seq<bool>, pattern: seq<bool>) {
    exists keep :: OnlyBansDropped(pattern, keep) && observed == Kept(pattern, keep)
  }

  ghost predicate BanDeletionOfPrefix(observed: seq<bool>, pattern: seq<bool>) {
    exists n :: 0 <= n <= |pattern| && BanDeletion(observed, pattern[..n])
  }

  // ----- The greedy matcher -----

  ghost predicate Greedy(observed: seq<bool>, pattern: seq<bool>) {
    if observed == [] then true
    else if pattern == [] then false
    else if observed[0] == pattern[0] then Greedy(observed[1..], pattern[1..])
    else !pattern[0] && Greedy(observed, pattern[1..])
  }

  lemma KeptLength<T>(s: seq<T>, keep: seq<bool>)
    requires |keep| == |s|
    ensures |Kept(s, keep)| <= |s|
    ensures |Kept(s, keep)| == |s| ==> Kept(s, keep) == s
  {
    if s != [] {
      KeptLength(s[1..], keep[1..]);
    }
  }

  lemma {:induction false} GreedyFinds(observed: seq<bool>, pattern: seq<bool>) returns (n: nat, keep: seq<bool>)
    requires Greedy(observed, pattern)
    ensures n <= |pattern| && OnlyBansDropped(pattern[..n], keep) && observed == Kept(pattern[..n], keep)
  {
    n, keep := 0, [];
    if observed != [] {
      var match0 := observed[0] == pattern[0];
      n, keep := GreedyFinds(if match0 then observed[1..] else observed, pattern[1..]);
      n, keep := n + 1, [match0] + keep;
      assert pattern[..n][1..] == pattern[1..][..n - 1];
      assert keep[1..] == keep[1..];
    }
  }

  /** Deleting also the first surviving ban. */
  lemma {:induction false} DropFirstBan(pattern: seq<bool>, keep: seq<bool>) returns (keep': seq<bool>)
    requires OnlyBansDropped(pattern, keep)
    requires Kept(pattern, keep) != [] && !Kept(pattern, keep)[0]
    ensures OnlyBansDropped(pattern, keep') && Kept(pattern, keep') == Kept(pattern, keep)[1..]
  {
    if keep[0] {
      keep' := [false] + keep[1..];
    } else {
      keep' := DropFirstBan(pattern[1..], keep[1..]);
      keep' := [false] + keep';
    }
    assert keep'[1..] == keep'[1..];
  }

  lemma {:induction false} GreedyCatches(observed: seq<bool>, pattern: seq<bool>, keep: seq<bool>, rest: seq<bool>)
    requires OnlyBansDropped(pattern, keep) && observed == Kept(pattern, keep)
    ensures Greedy(observed, pattern + rest)
    decreases |pattern|
  {
    if observed != [] {
      assert (pattern + rest)[1..] == pattern[1..] + rest;
      var keep' := keep[1..];
      if keep[0] {
        GreedyCatches(observed[1..], pattern[1..], keep', rest);
      } else if observed[0] {
        GreedyCatches(observed, pattern[1..], keep', rest);
      } else {
        keep' := DropFirstBan(pattern[1..], keep[1..]);
        GreedyCatches(observed[1..], pattern[1..], keep', rest);
      }
    }
  }

  /** The greedy choice loses nothing: it succeeds exactly on ban deletions of a prefix of the pattern. */
  lemma GreedyExact(observed: seq<bool>, pattern: seq<bool>)
    ensures Greedy(observed, pattern) <==> BanDeletionOfPrefix(observed, pattern)
  {
    if Greedy(observed, pattern) {
      var n, keep := GreedyFinds(observed, pattern);
      assert BanDeletion(observed, pattern[..n]);
    }
    if BanDeletionOfPrefix(observed, pattern) {
      var n :| 0 <= n <= |pattern| && BanDeletion(observed, pattern[..n]);
      var keep :| OnlyBansDropped(pattern[..n], keep) && observed == Kept(pattern[..n], keep);
      assert pattern == pattern[..n] + pattern[n..];
      GreedyCatches(observed, pattern[..n], keep, pattern[n..]);
    }
  }

  /** isSubsequenceRemovesOnlyBans. It stops as soon as observed is used up, so it asks only about a prefix. */
  method IsSubsequenceRemovesOnlyBans(observed: seq<bool>, pattern: seq<bool>) returns (ok: bool)
    ensures ok <==> observed != [] && BanDeletionOfPrefix(observed, pattern)
  {
    if |observed| == 0 {
      return false;
    }
    GreedyExact(observed, pattern);
    var oi := 0;
    for pi := 0 to |pattern|
      invariant 0 <= oi <= |observed|
      invariant Greedy(observed, pattern) == Greedy(observed[oi..], pattern[pi..])
    {
      if oi >= |observed| {
        break;
      }
      if observed[oi] == pattern[pi] {
        oi := oi + 1;
      } else {
        if !pattern[pi] {
          continue;
        }
        return false;
      }
    }
    return oi == |observed|;
  }

  // ----- When the prefix is the whole pattern -----

  lemma {:induction false} PicksConcat(a: seq<bool>, b: seq<bool>)
    ensures Picks(a + b) == Picks(a) + Picks(b)
  {
    if b == [] {
      assert a + b == a;
    } else {
      var init := b[..|b| - 1];
      assert (a + b)[..|a + b| - 1] == a + init;
      PicksConcat(a, init);
    }
  }

  lemma {:induction false} PicksTimes(kind: bool, n: nat)
    ensures Picks(Times(kind, n)) == if kind then n else 0
  {
    if n > 0 {
      assert Times(kind, n)[..n - 1] == Times(kind, n - 1);
      PicksTimes(kind, n - 1);
    }
  }

  lemma {:induction false} NoPicksMeansBans(s: seq<bool>, i: nat)
    requires Picks(s) == 0 && i < |s|
    ensures !s[i]
  {
    if i < |s| - 1 {
      NoPicksMeansBans(s[..|s| - 1], i);
    }
  }

  lemma PicksOne(kind: bool)
    ensures Picks([]) == 0 && Picks([kind]) == if kind then 1 else 0
  {
    assert [kind][..0] == [];
  }

  lemma {:induction false} DeletionKeepsPicks(pattern: seq<bool>, keep: seq<bool>)
    requires OnlyBansDropped(pattern, keep)
    ensures Picks(Kept(pattern, keep)) == Picks(pattern)
  {
    if pattern != [] {
      var first, rest := pattern[0], Kept(pattern[1..], keep[1..]);
      assert Kept(pattern, keep) == (if keep[0] then [first] else []) + rest;
      hide Picks, Kept;
      DeletionKeepsPicks(pattern[1..], keep[1..]);
      PicksOne(first);
      PicksConcat([first], pattern[1..]);
      PicksConcat(if keep[0] then [first] else [], rest);
      assert pattern == [first] + pattern[1..];
    } else {
      assert keep == [];
    }
  }

  lemma KeptFirst<T>(s: seq<T>, keep: seq<bool>, t: seq<T>, rest: seq<bool>)
    requires s != [] && |keep| == |s| && |rest| == |t|
    requires s[1..] == t && keep[1..] == rest
    ensures Kept(s, keep) == (if keep[0] then [s[0]] else []) + Kept(t, rest)
  {
  }

  lemma {:induction false} KeptConcat<T>(a: seq<T>, ka: seq<bool>, b: seq<T>, kb: seq<bool>)
    requires |ka| == |a| && |kb| == |b|
    ensures Kept(a + b, ka + kb) == Kept(a, ka) + Kept(b, kb)
  {
    if a == [] {
      assert a + b == b && ka + kb == kb;
    } else {
      var head := if ka[0] then [a[0]] else [];
      KeptConcat(a[1..], ka[1..], b, kb);
      KeptFirst(a + b, ka + kb, a[1..] + b, ka[1..] + kb);
      assert head + (Kept(a[1..], ka[1..]) + Kept(b, kb)) == (head + Kept(a[1..], ka[1..])) + Kept(b, kb);
    }
  }

  lemma {:induction false} KeptNone<T>(s: seq<T>)
    ensures Kept(s, Times(false, |s|)) == []
  {
    if s != [] {
      assert Times(false, |s|)[1..] == Times(false, |s| - 1);
      KeptNone(s[1..]);
    }
  }

  /** Where the matcher says yes, the whole pattern was matched exactly when the pick counts agree. */
  lemma PrefixIsWholeExactly(observed: seq<bool>, pattern: seq<bool>)
    requires BanDeletionOfPrefix(observed, pattern)
    ensures BanDeletion(observed, pattern) <==> Picks(observed) == Picks(pattern)
  {
    if BanDeletion(observed, pattern) {
      var keep :| OnlyBansDropped(pattern, keep) && observed == Kept(pattern, keep);
      DeletionKeepsPicks(pattern, keep);
    }
    if Picks(observed) == Picks(pattern) {
      var n :| 0 <= n <= |pattern| && BanDeletion(observed, pattern[..n]);
      var keep :| OnlyBansDropped(pattern[..n], keep) && observed == Kept(pattern[..n], keep);
      assert pattern == pattern[..n] + pattern[n..];
      WholeOfPrefix(pattern[..n], pattern[n..], keep);
    }
  }

  /** Where the rest has no picks all of it may be dropped. */
  lemma WholeOfPrefix(a: seq<bool>, b: seq<bool>, keep: seq<bool>)
    requires OnlyBansDropped(a, keep) && Picks(Kept(a, keep)) == Picks(a + b)
    ensures BanDeletion(Kept(a, keep), a + b)
  {
    DeletionKeepsPicks(a, keep);
    PicksConcat(a, b);
    forall i | 0 <= i < |b|
      ensures !b[i]
    {
      NoPicksMeansBans(b, i);
    }
    var none := Times(false, |b|);
    KeptConcat(a, keep, b, none);
    KeptNone(b);
    assert OnlyBansDropped(a + b, keep + none) && Kept(a, keep) == Kept(a + b, keep + none);
  }

  /** The matcher is exact on lists with as many picks as the pattern. */
  lemma MatcherExact(observed: seq<bool>, pattern: seq<bool>)
    requires Picks(observed) == Picks(pattern)
    ensures BanDeletionOfPrefix(observed, pattern) <==> BanDeletion(observed, pattern)
  {
    if BanDeletion(observed, pattern) {
      assert pattern[..|pattern|] == pattern;
    } else if BanDeletionOfPrefix(observed, pattern) {
      PrefixIsWholeExactly(observed, pattern);
    }
  }

  /** Without equal pick counts it accepts a list that is no ban deletion: a lone ban against ban, pick. */
  lemma MatcherStopsEarly()
    ensures BanDeletionOfPrefix([false], [false, true]) && !BanDeletion([false], [false, true])
  {
    assert Greedy([false], [false, true]);
    GreedyExact([false], [false, true]);
    PrefixIsWholeExactly([false], [false, true]);
    assert [false, true][..1] == [false] && [false][..0] == [];
  }

  // ----- Validation -----

  lemma EraPicks(e: Era)
    requires e in ERAS
    ensures Picks(e.pattern) == 10 && 20 <= |e.pattern| <= 24
  {
    forall n: nat | n < 8
      ensures Picks(Times(true, n)) == n && Picks(Times(false, n)) == 0
    {
      PicksTimes(true, n);
      PicksTimes(false, n);
    }
    if e.pattern == PRE_7_30 {
      PicksConcat(Times(false, 4) + Times(true, 6) + Times(false, 6), Times(true, 4));
      PicksConcat(Times(false, 4) + Times(true, 6), Times(false, 6));
      PicksConcat(Times(false, 4), Times(true, 6));
    } else {
      var a, b, c := if e.pattern == FROM_7_33 then 7 else 4, if e.pattern == FROM_7_33 then 2 else 4,
                     if e.pattern == FROM_7_33 then 3 else 6;
      var d := if e.pattern == FROM_7_33 then 6 else 4;
      SixRuns(a, b, c, d);
    }
  }

  lemma SixRuns(a: nat, b: nat, c: nat, d: nat)
    ensures Picks(Times(false, a) + Times(true, b) + Times(false, c) + Times(true, d) + Times(false, 4)
        + Times(true, 2))
            == b + d + 2
  {
    var r1 := Times(false, a) + Times(true, b);
    var r2 := r1 + Times(false, c);
    var r3 := r2 + Times(true, d);
    var r4 := r3 + Times(false, 4);
    PicksConcat(Times(false, a), Times(true, b));
    PicksConcat(r1, Times(false, c));
    PicksConcat(r2, Times(true, d));
    PicksConcat(r3, Times(false, 4));
    PicksConcat(r4, Times(true, 2));
    PicksTimes(false, a);
    PicksTimes(true, b);
    PicksTimes(false, c);
    PicksTimes(true, d);
    PicksTimes(false, 4);
    PicksTimes(true, 2);
  }

  datatype Validation = Valid | BadLength(n: nat) | BadPickCount(n: nat) | NoPattern

  /** A known Captain's Mode draft: some era's pattern with bans declined. */
  ghost predicate KnownDraft(kinds: seq<bool>) {
    exists e :: e in ERAS && BanDeletion(kinds, e.pattern)
  }

  method KindsOf(picksBans: seq<PickBan>) returns (kinds: seq<bool>)
    ensures kinds == Kinds(picksBans)
  {
    kinds := [];
    for i := 0 to |picksBans|
      invariant kinds == Kinds(picksBans[..i])
    {
      kinds := kinds + [picksBans[i].isPick];
    }
    assert picksBans[..|picksBans|] == picksBans;
  }

  method MatchesAnyPattern(kinds: seq<bool>) returns (ok: bool)
    requires kinds != []
    ensures ok <==> exists e :: e in ERAS && BanDeletionOfPrefix(kinds, e.pattern)
  {
    for i := 0 to |ERAS|
      invariant forall k :: 0 <= k < i ==> !BanDeletionOfPrefix(kinds, ERAS[k].pattern)
    {
      ok := IsSubsequenceRemovesOnlyBans(kinds, ERAS[i].pattern);
      if ok {
        return true;
      }
    }
    return false;
  }

  /** ValidateDraft accepts exactly the known drafts of 16 to 24 entries with 10 picks. */
  method ValidateDraft(picksBans: seq<PickBan>) returns (v: Validation)
    ensures var n, kinds := |picksBans|, Kinds(picksBans);
            v == if n < 16 || n > 24 then BadLength(n)
                 else if Picks(kinds) != 10 then BadPickCount(Picks(kinds))
                 else if KnownDraft(kinds) then Valid
                 else NoPattern
  {
    var n := |picksBans|;
    if n < 16 || n > 24 {
      return BadLength(n);
    }
    var pickCount := 0;
    for i := 0 to n
      invariant pickCount == Picks(Kinds(picksBans[..i]))
    {
      assert Kinds(picksBans[..i + 1])[..i] == Kinds(picksBans[..i]);
      if picksBans[i].isPick {
        pickCount := pickCount + 1;
      }
    }
    assert picksBans[..n] == picksBans;
    if pickCount != 10 {
      return BadPickCount(pickCount);
    }
    var kinds := KindsOf(picksBans);
    var ok := MatchesAnyPattern(kinds);
    forall e | e in ERAS
      ensures BanDeletionOfPrefix(kinds, e.pattern) <==> BanDeletion(kinds, e.pattern)
    {
      EraPicks(e);
      MatcherExact(kinds, e.pattern);
    }
    return if ok then Valid else NoPattern;
  }

  // ----- Era detection -----

  lemma PrefixDeletionLength(observed: seq<bool>, pattern: seq<bool>)
    requires BanDeletionOfPrefix(observed, pattern)
    ensures |observed| <= |pattern|
    ensures |observed| == |pattern| ==> observed == pattern
  {
    var n :| 0 <= n <= |pattern| && BanDeletion(observed, pattern[..n]);
    var keep :| OnlyBansDropped(pattern[..n], keep) && observed == Kept(pattern[..n], keep);
    KeptLength(pattern[..n], keep);
  }

  lemma {:induction false} KeptAll<T>(s: seq<T>)
    ensures Kept(s, Times(true, |s|)) == s
  {
    if s != [] {
      assert Times(true, |s|)[1..] == Times(true, |s| - 1);
      KeptAll(s[1..]);
    }
  }

  /** Era k is the first in order among those with the shortest pattern that kinds matches. */
  ghost predicate BestEra(kinds: seq<bool>, k: nat) {
    && k < |ERAS| && BanDeletionOfPrefix(kinds, ERAS[k].pattern)
    && forall j :: 0 <= j < |ERAS| && BanDeletionOfPrefix(kinds, ERAS[j].pattern) ==>
         |ERAS[k].pattern| <= |ERAS[j].pattern| && (j < k ==> |ERAS[k].pattern| < |ERAS[j].pattern|)
  }

  lemma ExactIsBest(kinds: seq<bool>, k: nat)
    requires k < |ERAS| && kinds == ERAS[k].pattern
    requires forall j :: 0 <= j < k ==> kinds != ERAS[j].pattern
    ensures BestEra(kinds, k)
  {
    KeptAll(kinds);
    assert OnlyBansDropped(kinds, Times(true, |kinds|));
    assert kinds[..|kinds|] == kinds;
    forall j | 0 <= j < |ERAS| && BanDeletionOfPrefix(kinds, ERAS[j].pattern)
      ensures |kinds| <= |ERAS[j].pattern| && (j < k ==> |kinds| < |ERAS[j].pattern|)
    {
      PrefixDeletionLength(kinds, ERAS[j].pattern);
    }
  }

  /** The fallback: the matched era with the smallest gap, if that gap is at most the draft's length. */
  method ClosestEra(kinds: seq<bool>) returns (name: string)
    ensures name == "unknown" <==>
            forall e :: e in ERAS && BanDeletionOfPrefix(kinds, e.pattern) ==> |e.pattern| > 2 * |kinds|
    ensures name != "unknown" ==> exists k: nat :: BestEra(kinds, k) && ERAS[k].name == name
  {
    var best := "";
    var bestGap := |kinds| + 1;
    ghost var k := 0;
    for i := 0 to |ERAS|
      invariant best == "" ==> bestGap == |kinds| + 1
      invariant best != "" ==> k < i && best == ERAS[k].name && BanDeletionOfPrefix(kinds, ERAS[k].pattern)
      invariant best != "" ==> bestGap == |ERAS[k].pattern| - |kinds| <= |kinds|
      invariant forall j :: 0 <= j < i && BanDeletionOfPrefix(kinds, ERAS[j].pattern) ==>
                  bestGap <= |ERAS[j].pattern| - |kinds|
                    && (best != "" && j < k ==> bestGap < |ERAS[j].pattern| - |kinds|)
    {
      var ok := IsSubsequenceRemovesOnlyBans(kinds, ERAS[i].pattern);
      if ok {
        var gap := |ERAS[i].pattern| - |kinds|;
        if gap < bestGap {
          best, bestGap, k := ERAS[i].name, gap, i;
        }
      }
    }
    if best != "" {
      assert BestEra(kinds, k);
      return best;
    }
    return "unknown";
  }

  /** DetectDraftEra names the matched era with the fewest declined bans, the most recent on a tie, or
      "unknown" when every matched pattern is more than twice as long as the draft. */
  method DetectDraftEra(picksBans: seq<PickBan>) returns (name: string)
    ensures name == "unknown" <==>
            forall e :: e in ERAS && BanDeletionOfPrefix(Kinds(picksBans), e.pattern) ==> |e.pattern| > 2 * |picksBans|
    ensures name != "unknown" ==> exists k: nat :: BestEra(Kinds(picksBans), k) && ERAS[k].name == name
  {
    var kinds := KindsOf(picksBans);
    for i := 0 to |ERAS|
      invariant forall j :: 0 <= j < i ==> kinds != ERAS[j].pattern
    {
      if kinds == ERAS[i].pattern {
        ExactIsBest(kinds, i);
        return ERAS[i].name;
      }
    }
    name := ClosestEra(kinds);
  }

  /** A validated draft always gets an era, and the era's pattern is one the draft declines bans of. */
  lemma ValidDraftHasEra(picksBans: seq<PickBan>, k: nat)
    requires 16 <= |picksBans| <= 24 && Picks(Kinds(picksBans)) == 10 && KnownDraft(Kinds(picksBans))
    ensures exists e :: e in ERAS && BanDeletionOfPrefix(Kinds(picksBans), e.pattern) && |e.pattern| <= 2 * |picksBans|
    ensures BestEra(Kinds(picksBans), k) ==> BanDeletion(Kinds(picksBans), ERAS[k].pattern)
  {
    var kinds := Kinds(picksBans);
    var e :| e in ERAS && BanDeletion(kinds, e.pattern);
    EraPicks(e);
    MatcherExact(kinds, e.pattern);
    if BestEra(kinds, k) {
      EraPicks(ERAS[k]);
      MatcherExact(kinds, ERAS[k].pattern);
    }
  }
}
