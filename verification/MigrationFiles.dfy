/** Finding and ordering migration files (go-core/migrator/runner.go:38-44, 183-220). */
module MigrationFiles {
  import opened Decimal
  import opened Sequences

  /** A directory entry; content None stands for a read error. */
  datatype DirEntry = DirEntry(name: string, isDir: bool, content: Option<string>)

  datatype Migration = Migration(version: nat, filename: string, sql: string)

  datatype LoadError =
    | BadVersion(name: string)
    | Unreadable(name: string)
    | Duplicate(version: nat, first: string, second: string)

  datatype Loaded = Ok(migs: seq<Migration>) | Err(error: LoadError)

  const MAX_INT := 0x7fff_ffff_ffff_ffff

  // ----- File names -----

  predicate NameChar(c: char) {
    'A' <= c <= 'Z' || 'a' <= c <= 'z' || '0' <= c <= '9' || c == '_' || c == '-'
  }

  function LeadingDigits(s: string): (n: nat)
    ensures n <= |s| && (forall i :: 0 <= i < n ==> s[i] in DIGITS) && (n < |s| ==> s[n] !in DIGITS)
  {
    if s == [] || s[0] !in DIGITS then 0 else 1 + LeadingDigits(s[1..])
  }

  /** The version's digits if the name is of the form the pattern asks for. */
  function VersionText(name: string): (d: Option<string>)
    ensures d.Some? ==> AllDigits(d.value)
  {
    var n := LeadingDigits(name);
    var rest := name[n..];
    if n > 0 && |rest| > 5 && rest[0] == '_' && rest[|rest| - 4..] == ".sql"
       && forall i :: 1 <= i < |rest| - 4 ==> NameChar(rest[i])
    then Some(name[..n]) else None
  }

  /** ^(\d+)_[A-Za-z0-9_\-]+\.sql$ */
  ghost predicate MatchesPattern(name: string, digits: string, middle: string) {
    && AllDigits(digits)
    && middle != [] && (forall i :: 0 <= i < |middle| ==> NameChar(middle[i]))
    && name == digits + "_" + middle + ".sql"
  }

  lemma {:induction false} LeadingDigitsAre(digits: string, rest: string)
    requires forall i :: 0 <= i < |digits| ==> digits[i] in DIGITS
    requires rest != [] && rest[0] !in DIGITS
    ensures LeadingDigits(digits + rest) == |digits|
  {
    if digits == [] {
      assert digits + rest == rest;
    } else {
      assert (digits + rest)[1..] == digits[1..] + rest;
      LeadingDigitsAre(digits[1..], rest);
    }
  }

  lemma MatchHasVersion(name: string, digits: string, middle: string)
    requires MatchesPattern(name, digits, middle)
    ensures VersionText(name) == Some(digits)
  {
    var rest := "_" + middle + ".sql";
    assert name == digits + rest;
    LeadingDigitsAre(digits, rest);
    assert name[|digits|..] == rest && name[..|digits|] == digits;
    assert rest[|rest| - 4..] == ".sql";
    forall i | 1 <= i < |rest| - 4
      ensures NameChar(rest[i])
    {
      assert rest[i] == middle[i - 1];
    }
  }

  /** The digits found are those of the one way the pattern can match. */
  lemma VersionTextExactly(name: string, digits: string)
    ensures VersionText(name) == Some(digits) <==> exists middle :: MatchesPattern(name, digits, middle)
  {
    if middle :| MatchesPattern(name, digits, middle) {
      MatchHasVersion(name, digits, middle);
    }
    if VersionText(name) == Some(digits) {
      var middle := VersionHasMatch(name);
    }
  }

  lemma VersionHasMatch(name: string) returns (middle: string)
    requires VersionText(name).Some?
    ensures MatchesPattern(name, VersionText(name).value, middle)
  {
    var n := LeadingDigits(name);
    var rest := name[n..];
    middle := rest[1..|rest| - 4];
    assert rest == [rest[0]] + middle + rest[|rest| - 4..];
    assert name == name[..n] + rest;
  }

  // ----- What the directory holds -----

  predicate Candidate(e: DirEntry) {
    !e.isDir && VersionText(e.name).Some?
  }

  function VersionOf(e: DirEntry): nat
    requires Candidate(e)
  {
    DigitsValue(VersionText(e.name).value)
  }

  /** A candidate that neither strconv.Atoi nor the read refuses. */
  predicate Good(e: DirEntry) {
    Candidate(e) && VersionOf(e) <= MAX_INT && e.content.Some?
  }

  function MigrationOf(e: DirEntry): Migration
    requires Good(e)
  {
    Migration(VersionOf(e), e.name, e.content.value)
  }

  ghost function Found(entries: seq<DirEntry>): seq<Migration> {
    if entries == [] then []
    else Found(entries[..|entries| - 1]) + if Good(entries[|entries| - 1])
      then [MigrationOf(entries[|entries| - 1])] else []
  }

  /** The migration is that of the file: its name is of the pattern's form, its digits are the version, its text is
      the script. */
  ghost predicate IsOf(m: Migration, e: DirEntry) {
    && !e.isDir && e.content == Some(m.sql) && e.name == m.filename
    && exists digits, middle :: MatchesPattern(e.name, digits, middle) && Atoi(digits) == Some(m.version)
  }

  lemma IsOfExactly(m: Migration, e: DirEntry)
    requires Candidate(e) && e.content.Some?
    ensures IsOf(m, e) <==> m == Migration(VersionOf(e), e.name, e.content.value)
  {
    hide DigitsValue;
    var text := VersionText(e.name).value;
    var middle := VersionHasMatch(e.name);
    AtoiOfDigits(text);
    if digits, other :| MatchesPattern(e.name, digits, other) && Atoi(digits) == Some(m.version) {
      MatchHasVersion(e.name, digits, other);
    }
  }

  lemma AtoiOfDigits(digits: string)
    requires AllDigits(digits)
    ensures Atoi(digits) == Some(DigitsValue(digits))
  {
    assert digits[0] in DIGITS;
  }

  /** What is found is what the files hold, one migration for each good one, in their order. */
  lemma {:induction false} FoundExactly(entries: seq<DirEntry>, m: Migration)
    ensures m in Found(entries) <==> m.version <= MAX_INT && exists e :: e in entries && IsOf(m, e)
  {
    hide IsOf, VersionText;
    if entries != [] {
      var init, last := entries[..|entries| - 1], entries[|entries| - 1];
      assert entries == init + [last];
      FoundExactly(init, m);
      LastFound(init, last, m);
    }
  }

  lemma LastFound(init: seq<DirEntry>, last: DirEntry, m: Migration)
    ensures IsOf(m, last) && m.version <= MAX_INT <==> Good(last) && m == MigrationOf(last)
  {
    if IsOf(m, last) {
      var digits, middle :| MatchesPattern(last.name, digits, middle) && Atoi(digits) == Some(m.version);
      MatchHasVersion(last.name, digits, middle);
    }
    if Candidate(last) && last.content.Some? {
      IsOfExactly(m, last);
    }
  }

  ghost predicate AllGood(entries: seq<DirEntry>) {
    forall i :: 0 <= i < |entries| && Candidate(entries[i]) ==> Good(entries[i])
  }

  ghost predicate DistinctVersions(migs: seq<Migration>) {
    forall i, j :: 0 <= i < j < |migs| ==> migs[i].version != migs[j].version
  }

  ghost predicate Sorted(migs: seq<Migration>) {
    forall i, j :: 0 <= i < j < |migs| ==> migs[i].version <= migs[j].version
  }

  ghost predicate Rising(migs: seq<Migration>) {
    forall i, j :: 0 <= i < j < |migs| ==> migs[i].version < migs[j].version
  }

  // ----- Sorting -----

  lemma InsertedSorted(out: seq<Migration>, p: nat, m: Migration, all: seq<Migration>)
    requires Sorted(out) && p <= |out| && all == out[..p] + [m] + out[p..]
    requires p > 0 ==> out[p - 1].version <= m.version
    requires p < |out| ==> m.version <= out[p].version
    ensures Sorted(all)
  {
    forall i, j | 0 <= i < j < |all|
      ensures all[i].version <= all[j].version
    {
      if j < p {
        assert all[i].version == out[i].version <= out[j].version == all[j].version;
      } else if i > p {
        assert all[i].version == out[i - 1].version <= out[j - 1].version == all[j].version;
      } else {
        if i < p {
          assert all[i].version == out[i].version <= out[p - 1].version;
        }
        assert all[i].version <= m.version;
        if j > p {
          assert out[p].version <= out[j - 1].version == all[j].version;
        }
        assert m.version <= all[j].version;
      }
    }
  }

  lemma Inserted(out: seq<Migration>, p: nat, m: Migration)
    requires Sorted(out) && p <= |out|
    requires p > 0 ==> out[p - 1].version <= m.version
    requires p < |out| ==> m.version <= out[p].version
    ensures Sorted(out[..p] + [m] + out[p..])
    ensures multiset(out[..p] + [m] + out[p..]) == multiset(out) + multiset{m}
  {
    InsertedSorted(out, p, m, out[..p] + [m] + out[p..]);
    InsertedAll(out, p, m);
  }

  /** Stands in for sort.Slice, which promises a sorted permutation, of equal versions in any order. */
  method SortByVersion(migs: seq<Migration>) returns (out: seq<Migration>)
    ensures multiset(out) == multiset(migs) && Sorted(out)
  {
    out := [];
    for i := 0 to |migs|
      invariant multiset(out) == multiset(migs[..i]) && Sorted(out)
    {
      var m := migs[i];
      var p := |out|;
      while p > 0 && m.version < out[p - 1].version
        invariant 0 <= p <= |out| && forall j :: p <= j < |out| ==> m.version < out[j].version
      {
        p := p - 1;
      }
      Inserted(out, p, m);
      assert migs[..i + 1] == migs[..i] + [m];
      out := out[..p] + [m] + out[p..];
    }
    assert migs[..|migs|] == migs;
  }

  lemma {:induction false} TwiceMeansTwoPlaces(migs: seq<Migration>, m: Migration)
    requires multiset(migs)[m] >= 2
    ensures exists i, j :: 0 <= i < j < |migs| && migs[i] == m && migs[j] == m
  {
    var init, last := migs[..|migs| - 1], migs[|migs| - 1];
    assert migs == init + [last];
    if last == m {
      assert m in init;
      var i :| 0 <= i < |init| && init[i] == m;
      assert migs[i] == m && migs[|migs| - 1] == m;
    } else {
      TwiceMeansTwoPlaces(init, m);
      var i, j :| 0 <= i < j < |init| && init[i] == m && init[j] == m;
      assert migs[i] == m && migs[j] == m;
    }
  }

  lemma {:induction false} TwoPlacesMeanTwice(migs: seq<Migration>, i: nat, j: nat)
    requires i < j < |migs| && migs[i] == migs[j]
    ensures multiset(migs)[migs[i]] >= 2
  {
    assert migs == migs[..j] + migs[j..];
    assert migs[i] in migs[..j] && migs[j] in migs[j..];
  }

  /** Whether versions coincide does not depend on the order. */
  lemma DistinctPermuted(migs: seq<Migration>, others: seq<Migration>)
    requires multiset(migs) == multiset(others) && DistinctVersions(migs)
    ensures DistinctVersions(others)
  {
    forall i, j | 0 <= i < j < |others|
      ensures others[i].version != others[j].version
    {
      if others[i] == others[j] {
        TwoPlacesMeanTwice(others, i, j);
        TwiceMeansTwoPlaces(migs, others[i]);
      } else {
        assert others[i] in multiset(migs) && others[j] in multiset(migs);
        var k :| 0 <= k < |migs| && migs[k] == others[i];
        var l :| 0 <= l < |migs| && migs[l] == others[j];
        assert k < l ==> migs[k].version != migs[l].version;
        assert l < k ==> migs[l].version != migs[k].version;
      }
    }
  }

  /** There is only one way to order migrations of distinct versions, so every load of the same files gives
      the same list, although the sort need not be stable. */
  lemma {:induction false} OneOrder(migs: seq<Migration>, others: seq<Migration>)
    requires multiset(migs) == multiset(others) && Rising(migs) && Rising(others)
    ensures migs == others
  {
    if |migs| == 0 {
      assert multiset(others) == multiset{};
    } else {
      assert |migs| == |multiset(migs)|;
      assert |multiset(others)| == |others|;
      LastIsLargest(migs, others);
      LastIsLargest(others, migs);
      var m := migs[|migs| - 1];
      assert m in multiset(others) && others[|others| - 1] in multiset(migs);
      WithoutLast(migs, m);
      WithoutLast(others, m);
      OneOrder(migs[..|migs| - 1], others[..|others| - 1]);
    }
  }

  lemma WithoutLast(migs: seq<Migration>, m: Migration)
    requires migs != [] && migs[|migs| - 1] == m
    ensures migs == migs[..|migs| - 1] + [m] && multiset(migs[..|migs| - 1]) == multiset(migs) - multiset{m}
  {
    assert migs == migs[..|migs| - 1] + [m];
  }

  lemma LastIsLargest(migs: seq<Migration>, others: seq<Migration>)
    requires migs != [] && others != [] && multiset(migs) == multiset(others) && Rising(migs)
    ensures others[|others| - 1].version <= migs[|migs| - 1].version
    ensures others[|others| - 1].version == migs[|migs| - 1].version ==> others[|others| - 1] == migs[|migs| - 1]
  {
    assert others[|others| - 1] in multiset(migs);
    var k :| 0 <= k < |migs| && migs[k] == others[|others| - 1];
  }

  // ----- Loading -----

  predicate HasSqlSuffix(name: string) {
    |name| >= 4 && name[|name| - 4..] == ".sql"
  }

  /** The first loop: directory entries become migrations. */
  method ReadFiles(entries: seq<DirEntry>) returns (r: Loaded)
    ensures r.Ok? <==> AllGood(entries)
    ensures r.Ok? ==> r.migs == Found(entries)
    ensures r.Err? ==> !r.error.Duplicate? && BadEntry(entries, r.error) && FirstBad(entries, r.error)
  {
    hide VersionText, DigitsValue, HasSqlSuffix;
    var out := [];
    for i := 0 to |entries|
      invariant AllGood(entries[..i]) && out == Found(entries[..i])
    {
      var e := entries[i];
      assert entries[..i + 1][..i] == entries[..i];
      if e.isDir {
        continue;
      }
      if !HasSqlSuffix(e.name) {
        NoSuffixNoVersion(e.name);
        continue;
      }
      var digits := VersionText(e.name);
      if digits.None? {
        continue;
      }
      var v := DigitsValue(digits.value);
      if v > MAX_INT {
        return Err(BadVersion(e.name));
      }
      if e.content.None? {
        return Err(Unreadable(e.name));
      }
      out := out + [Migration(v, e.name, e.content.value)];
    }
    assert entries[..|entries|] == entries;
    return Ok(out);
  }

  /** The error is that of the first candidate that is not good; the version is looked at first. */
  ghost predicate FirstBad(entries: seq<DirEntry>, error: LoadError) {
    exists i :: 0 <= i < |entries| && AllGood(entries[..i]) && Candidate(entries[i])
                && if VersionOf(entries[i]) > MAX_INT then error == BadVersion(entries[i].name)
                   else entries[i].content.None? && error == Unreadable(entries[i].name)
  }

  ghost predicate BadEntry(entries: seq<DirEntry>, error: LoadError) {
    match error
    case BadVersion(name) =>
      exists i :: 0 <= i < |entries| && Candidate(entries[i]) && entries[i].name == name
                  && VersionOf(entries[i]) > MAX_INT
    case Unreadable(name) =>
      exists i :: 0 <= i < |entries| && Candidate(entries[i]) && entries[i].name == name
                  && entries[i].content.None?
    case Duplicate(version, first, second) =>
      exists a, b :: a in Found(entries) && b in Found(entries) && a.version == b.version == version
                     && a.filename == first && b.filename == second
  }

  /** The loop over neighbours in the sorted list; the result is where it stops. */
  method FirstDuplicate(migs: seq<Migration>) returns (i: nat)
    requires Sorted(migs)
    ensures i == 0 <==> DistinctVersions(migs)
    ensures i == 0 ==> Rising(migs)
    ensures i != 0 ==> i < |migs| && migs[i - 1].version == migs[i].version
  {
    i := 1;
    while i < |migs|
      invariant 1 <= i && (migs != [] ==> i <= |migs|)
      invariant forall k :: 0 < k < i && k < |migs| ==> migs[k - 1].version < migs[k].version
    {
      if migs[i].version == migs[i - 1].version {
        return;
      }
      i := i + 1;
    }
    AdjacentRising(migs);
    return 0;
  }

  /** Loading succeeds exactly if every candidate has a version in range and can be read, and no two versions
      coincide; the result is then all of them, ordered by version. */
  method LoadMigrations(entries: seq<DirEntry>) returns (r: Loaded)
    ensures r.Ok? <==> AllGood(entries) && DistinctVersions(Found(entries))
    ensures r.Ok? ==> Rising(r.migs) && multiset(r.migs) == multiset(Found(entries))
    ensures r.Err? ==> BadEntry(entries, r.error)
  {
    r := ReadFiles(entries);
    if r.Err? {
      return;
    }
    var out := SortByVersion(r.migs);
    var i := FirstDuplicate(out);
    if i != 0 {
      var a, b := out[i - 1], out[i];
      assert a in multiset(out) && b in multiset(out);
      assert a in Found(entries) && b in Found(entries);
      if DistinctVersions(Found(entries)) {
        DistinctPermuted(Found(entries), out);
      }
      return Err(Duplicate(b.version, a.filename, b.filename));
    }
    DistinctPermuted(out, Found(entries));
    return Ok(out);
  }

  lemma NoSuffixNoVersion(name: string)
    requires !HasSqlSuffix(name)
    ensures VersionText(name).None?
  {
    var n := LeadingDigits(name);
    var rest := name[n..];
    if |rest| > 5 {
      assert rest[|rest| - 4..] == name[|name| - 4..];
    }
  }

  lemma {:induction false} AdjacentRising(migs: seq<Migration>)
    requires forall k :: 0 < k < |migs| ==> migs[k - 1].version < migs[k].version
    ensures Rising(migs) && DistinctVersions(migs)
  {
    if migs != [] {
      var init := migs[..|migs| - 1];
      AdjacentRising(init);
      forall i | 0 <= i < |init|
        ensures migs[i].version < migs[|migs| - 1].version
      {
        assert init[i] == migs[i];
        if i < |init| - 1 {
          assert init[i].version < init[|init| - 1].version;
        }
      }
    }
  }
}
