/** Phase numbers and names: AssignPhases and PhaseNames of
    go-ingestion/internal/worker/parser/decode_draft.go, and the phase tables of
    go-analysis/internal/domain/phase_table.go. A kind is true for a pick, false for a ban. */
module DraftPhases {
  import opened Decimal
  import opened DraftGrammar

  datatype DraftTeam = Radiant | Dire

  /** A phase name; Text spells it. */
  datatype PhaseLabel = PhaseLabel(isPick: bool, cycle: nat)

  function Text(name: PhaseLabel): string {
    (if name.isPick then "pick_" else "ban_") + Itoa(name.cycle)
  }

  datatype Phase = Phase(name: PhaseLabel, isBan: bool, actingTeam: DraftTeam)

  // ----- Numbering by switches between picks and bans -----

  /** prev is the kind of the entry before s and cur its number. */
  ghost function Numbers(s: seq<bool>, prev: bool, cur: nat): (ns: seq<nat>)
    ensures |ns| == |s|
  {
    if s == [] then []
    else
      var c := if s[0] != prev then cur + 1 else cur;
      [c] + Numbers(s[1..], s[0], c)
  }

  /** The ingestion side starts at 0 whatever comes first. */
  ghost function AssignedNumbers(s: seq<bool>): seq<nat> {
    if s == [] then [] else Numbers(s, s[0], 0)
  }

  /** The analysis side starts at 0 for a ban and at 1 for a pick: as if a ban came before. */
  ghost function DerivedNumbers(s: seq<bool>): seq<nat> {
    Numbers(s, false, 0)
  }

  function PhaseName(number: nat, isPick: bool): PhaseLabel {
    PhaseLabel(isPick, number / 2 + 1)
  }

  ghost function NamesOf(numbers: seq<nat>, kinds: seq<bool>): (names: seq<PhaseLabel>)
    requires |numbers| == |kinds|
    ensures |names| == |kinds|
  {
    seq(|kinds|, i requires 0 <= i < |kinds| => PhaseName(numbers[i], kinds[i]))
  }

  ghost function DerivedNames(s: seq<bool>): seq<PhaseLabel> {
    NamesOf(DerivedNumbers(s), s)
  }

  ghost function AssignedNames(s: seq<bool>): (names: seq<PhaseLabel>)
    ensures |names| == |s|
  {
    if s == [] then [] else NamesOf(AssignedNumbers(s), s)
  }

  lemma {:induction false} NumbersStep(s: seq<bool>, prev: bool, cur: nat, i: nat)
    requires i < |s|
    ensures var ns := Numbers(s, prev, cur);
            ns[i] == if i == 0 then (if s[0] != prev then cur + 1 else cur)
                     else if s[i] != s[i - 1] then ns[i - 1] + 1 else ns[i - 1]
  {
    if i > 0 {
      var c := if s[0] != prev then cur + 1 else cur;
      NumbersStep(s[1..], s[0], c, i - 1);
    }
  }

  method AssignPhases(picksBans: seq<PickBan>) returns (phases: seq<nat>)
    ensures phases == AssignedNumbers(Kinds(picksBans))
  {
    if |picksBans| == 0 {
      return [];
    }
    ghost var kinds := Kinds(picksBans);
    ghost var numbers := AssignedNumbers(kinds);
    var current := 0;
    phases := [current];
    NumbersStep(kinds, kinds[0], 0, 0);
    for i := 1 to |picksBans|
      invariant |phases| == i && phases == numbers[..i] && current == numbers[i - 1]
    {
      NumbersStep(kinds, kinds[0], 0, i);
      if picksBans[i].isPick != picksBans[i - 1].isPick {
        current := current + 1;
      }
      phases := phases + [current];
    }
  }

  method PhaseNames(picksBans: seq<PickBan>) returns (names: seq<PhaseLabel>)
    ensures names == AssignedNames(Kinds(picksBans))
  {
    var phases := AssignPhases(picksBans);
    names := [];
    for i := 0 to |phases|
      invariant |names| == i
      invariant forall k :: 0 <= k < i ==> names[k] == PhaseName(phases[k], picksBans[k].isPick)
    {
      names := names + [PhaseName(phases[i], picksBans[i].isPick)];
    }
  }

  function ActingTeam(slot: nat): DraftTeam {
    if slot % 2 == 0 then Radiant else Dire
  }

  /** The table slot by slot: names from the derived numbers, teams in strict alternation. */
  method DerivePhaseTable(isPick: seq<bool>) returns (table: seq<Phase>)
    ensures |table| == |isPick|
    ensures forall i :: 0 <= i < |table| ==>
              table[i] == Phase(DerivedNames(isPick)[i], !isPick[i], if i % 2 == 0 then Radiant else Dire)
  {
    var n := |isPick|;
    if n == 0 {
      return [];
    }
    ghost var numbers := DerivedNumbers(isPick);
    var current := 0;
    if isPick[0] {
      current := 1;
    }
    NumbersStep(isPick, false, 0, 0);
    table := [Phase(PhaseName(current, isPick[0]), !isPick[0], ActingTeam(0))];
    for i := 1 to n
      invariant |table| == i && current == numbers[i - 1]
      invariant forall k :: 0 <= k < i ==>
                  table[k] == Phase(PhaseName(numbers[k], isPick[k]), !isPick[k], ActingTeam(k))
    {
      NumbersStep(isPick, false, 0, i);
      if isPick[i] != isPick[i - 1] {
        current := current + 1;
      }
      table := table + [Phase(PhaseName(current, isPick[i]), !isPick[i], ActingTeam(i))];
    }
  }

  /** The fixed 24-slot table. */
  const CM_PHASE_TABLE := [
    Phase(PhaseLabel(false, 1), true, Radiant), Phase(PhaseLabel(false, 1), true, Dire),
    Phase(PhaseLabel(false, 2), true, Radiant), Phase(PhaseLabel(false, 2), true, Dire),
    Phase(PhaseLabel(false, 3), true, Radiant), Phase(PhaseLabel(false, 3), true, Dire),
    Phase(PhaseLabel(false, 4), true, Radiant),
    Phase(PhaseLabel(true, 1), false, Dire), Phase(PhaseLabel(true, 1), false, Radiant),
    Phase(PhaseLabel(false, 5), true, Dire), Phase(PhaseLabel(false, 5), true, Radiant),
    Phase(PhaseLabel(false, 6), true, Dire),
    Phase(PhaseLabel(true, 2), false, Radiant), Phase(PhaseLabel(true, 2), false, Dire),
    Phase(PhaseLabel(true, 3), false, Radiant), Phase(PhaseLabel(true, 3), false, Dire),
    Phase(PhaseLabel(true, 4), false, Radiant), Phase(PhaseLabel(true, 4), false, Dire),
    Phase(PhaseLabel(false, 7), true, Radiant), Phase(PhaseLabel(false, 7), true, Dire),
    Phase(PhaseLabel(false, 8), true, Radiant), Phase(PhaseLabel(false, 8), true, Dire),
    Phase(PhaseLabel(true, 5), false, Radiant), Phase(PhaseLabel(true, 5), false, Dire)]

  // ----- What a name tells -----

  lemma {:induction false} SameNumberSameRun(s: seq<bool>, prev: bool, cur: nat, i: nat, j: nat)
    requires i <= j < |s|
    ensures Numbers(s, prev, cur)[i] <= Numbers(s, prev, cur)[j]
    ensures Numbers(s, prev, cur)[i] == Numbers(s, prev, cur)[j] <==> forall k :: i <= k <= j ==> s[k] == s[i]
  {
    if i < j {
      SameNumberSameRun(s, prev, cur, i, j - 1);
      NumbersStep(s, prev, cur, j);
    }
  }

  /** On the analysis side a slot is a ban exactly when its number is even. */
  lemma {:induction false} BanIffEven(s: seq<bool>, prev: bool, cur: nat, i: nat)
    requires i < |s| && (prev <==> cur % 2 == 1)
    ensures s[i] <==> Numbers(s, prev, cur)[i] % 2 == 1
  {
    NumbersStep(s, prev, cur, i);
    if i > 0 {
      BanIffEven(s, prev, cur, i - 1);
    }
  }

  /** The runs of a kind that start up to slot i. */
  ghost function RunStarts(s: seq<bool>, kind: bool, i: nat): set<nat>
    requires i < |s|
  {
    set k | 0 <= k <= i && StartsRun(s, kind, k)
  }

  ghost predicate StartsRun(s: seq<bool>, kind: bool, k: nat)
    requires k < |s|
  {
    s[k] == kind && (k == 0 || s[k - 1] != kind)
  }

  lemma RunStartsNext(s: seq<bool>, kind: bool, i: nat)
    requires 0 < i < |s|
    ensures |RunStarts(s, kind, i)| ==
              |RunStarts(s, kind, i - 1)| + if s[i] == kind && s[i - 1] != kind then 1 else 0
  {
    assert RunStarts(s, kind, i) ==
      RunStarts(s, kind, i - 1) + if s[i] == kind && s[i - 1] != kind then {i} else {};
  }

  lemma {:induction false} RunsCounted(s: seq<bool>, i: nat)
    requires i < |s|
    ensures |RunStarts(s, s[i], i)| == AssignedNumbers(s)[i] / 2 + 1
    ensures |RunStarts(s, !s[i], i)| == (AssignedNumbers(s)[i] + 1) / 2
  {
    NumbersStep(s, s[0], 0, i);
    if i == 0 {
      assert RunStarts(s, s[0], 0) == {0} && RunStarts(s, !s[0], 0) == {};
    } else {
      RunsCounted(s, i - 1);
      RunStartsNext(s, true, i);
      RunStartsNext(s, false, i);
    }
  }

  /** The ingestion side names a slot by its kind, and counts the runs of that kind from 1. */
  lemma AssignedLabelExactly(s: seq<bool>, i: nat)
    requires i < |s|
    ensures AssignedNames(s)[i] == PhaseLabel(s[i], |RunStarts(s, s[i], i)|)
  {
    RunsCounted(s, i);
  }

  /** So does the analysis side, but in a draft that starts with a pick it counts the runs of bans from 2. */
  lemma DerivedLabelExactly(s: seq<bool>, i: nat)
    requires i < |s|
    ensures DerivedNames(s)[i] == PhaseLabel(s[i], |RunStarts(s, s[i], i)| + if s[0] && !s[i] then 1 else 0)
  {
    RunsCounted(s, i);
    AssignedVersusDerived(s, i);
    BanIffEven(s, false, 0, i);
  }

  /** A label is spelled "pick_" or "ban_" and then its number. */
  lemma TextSpells(name: PhaseLabel)
    ensures name.isPick ==>
              |Text(name)| >= 5 && Text(name)[..5] == "pick_" && Atoi(Text(name)[5..]) == Some(name.cycle)
    ensures !name.isPick ==>
              |Text(name)| >= 4 && Text(name)[..4] == "ban_" && Atoi(Text(name)[4..]) == Some(name.cycle)
  {
    hide Atoi, Itoa;
    AtoiOfItoa(name.cycle);
    assert Text(name)[if name.isPick then 5 else 4..] == Itoa(name.cycle);
  }

  /** Different labels are spelled differently. */
  lemma TextInjective(a: PhaseLabel, b: PhaseLabel)
    requires Text(a) == Text(b)
    ensures a == b
  {
    assert Text(a)[0] == (if a.isPick then 'p' else 'b');
    assert Text(b)[0] == (if b.isPick then 'p' else 'b');
    var head := if a.isPick then "pick_" else "ban_";
    assert Text(a)[|head|..] == Itoa(a.cycle) && Text(b)[|head|..] == Itoa(b.cycle);
    ItoaInjective(a.cycle, b.cycle);
  }

  /** In a derived table two slots share a name exactly when they lie in the same run of picks or bans. */
  lemma SameNameSameRun(s: seq<bool>, i: nat, j: nat)
    requires i <= j < |s|
    ensures Text(DerivedNames(s)[i]) == Text(DerivedNames(s)[j]) <==> forall k :: i <= k <= j ==> s[k] == s[i]
  {
    SameNumberSameRun(s, false, 0, i, j);
    BanIffEven(s, false, 0, i);
    BanIffEven(s, false, 0, j);
    if Text(DerivedNames(s)[i]) == Text(DerivedNames(s)[j]) {
      TextInjective(DerivedNames(s)[i], DerivedNames(s)[j]);
    }
  }

  lemma {:induction false} NumbersShift(s: seq<bool>, prev: bool, cur: nat, i: nat)
    requires i < |s|
    ensures Numbers(s, prev, cur + 1)[i] == Numbers(s, prev, cur)[i] + 1
  {
    NumbersStep(s, prev, cur, i);
    NumbersStep(s, prev, cur + 1, i);
    if i > 0 {
      NumbersShift(s, prev, cur, i - 1);
    }
  }

  /** How the two sides' numbers compare. */
  lemma AssignedVersusDerived(s: seq<bool>, i: nat)
    requires i < |s|
    ensures DerivedNumbers(s)[i] == AssignedNumbers(s)[i] + if s[0] then 1 else 0
  {
    if s[0] {
      assert Numbers(s, false, 0) == Numbers(s, true, 1);
      NumbersShift(s, true, 0, i);
    }
  }

  /** Both sides give the same names exactly to drafts that start with a ban or have no ban at all. */
  lemma NamesAgreeExactly(s: seq<bool>)
    requires s != []
    ensures AssignedNames(s) == DerivedNames(s) <==> !s[0] || forall i :: 0 <= i < |s| ==> s[i]
  {
    forall i | 0 <= i < |s|
      ensures AssignedNames(s)[i] == DerivedNames(s)[i] <==> !s[0] || s[i]
    {
      AssignedVersusDerived(s, i);
      BanIffEven(s, false, 0, i);
    }
    if AssignedNames(s) == DerivedNames(s) && s[0] {
      forall i | 0 <= i < |s|
        ensures s[i]
      {
        assert AssignedNames(s)[i] == DerivedNames(s)[i];
      }
    }
  }

  // ----- Declined bans -----

  /** Where a run of bans separates two picks, at least one of those bans is kept. */
  ghost predicate InnerRunsKept(pattern: seq<bool>, keep: seq<bool>)
    requires |keep| == |pattern|
  {
    forall i, j :: 0 <= i && i + 1 < j < |pattern| && pattern[i] && pattern[j]
                   && (forall k :: i < k < j ==> !pattern[k])
                   ==> exists k :: i < k < j && keep[k]
  }

  /** The bans before the first pick, if that is not sooner than entry from, keep one. */
  ghost predicate FirstRunKept(pattern: seq<bool>, keep: seq<bool>, from: nat)
    requires |keep| == |pattern|
  {
    forall j :: from <= j < |pattern| && pattern[j] && (forall k :: 0 <= k < j ==> !pattern[k])
                ==> exists k :: 0 <= k < j && keep[k]
  }

  /** Position in a simultaneous walk over the pattern and the kept entries. */
  datatype Walk = AfterBan | AfterPick | BansDropped

  ghost predicate InStep(pattern: seq<bool>, keep: seq<bool>, w: Walk)
    requires |keep| == |pattern|
  {
    if pattern == [] then true
    else if pattern[0] then !w.BansDropped? && InStep(pattern[1..], keep[1..], AfterPick)
    else if keep[0] || w.AfterBan? then InStep(pattern[1..], keep[1..], AfterBan)
    else InStep(pattern[1..], keep[1..], BansDropped)
  }

  lemma InnerRunsShift(pattern: seq<bool>, keep: seq<bool>)
    requires pattern != [] && |keep| == |pattern|
    ensures InnerRunsKept(pattern, keep) <==>
            InnerRunsKept(pattern[1..], keep[1..]) && (pattern[0] ==> FirstRunKept(pattern[1..], keep[1..], 1))
  {
    var p, q := pattern[1..], keep[1..];
    if InnerRunsKept(pattern, keep) {
      forall i, j | 0 <= i && i + 1 < j < |p| && p[i] && p[j] && (forall k :: i < k < j ==> !p[k])
        ensures exists k :: i < k < j && q[k]
      {
        assert pattern[i + 1] && pattern[j + 1];
        assert forall k :: i + 1 < k < j + 1 ==> !pattern[k] by {
          forall k | i + 1 < k < j + 1
            ensures !pattern[k]
          {
            assert !p[k - 1];
          }
        }
        var k :| i + 1 < k < j + 1 && keep[k];
        assert q[k - 1];
      }
      if pattern[0] {
        forall j | 1 <= j < |p| && p[j] && (forall k :: 0 <= k < j ==> !p[k])
          ensures exists k :: 0 <= k < j && q[k]
        {
          assert pattern[j + 1];
          assert forall k :: 0 < k < j + 1 ==> !pattern[k] by {
            forall k | 0 < k < j + 1
              ensures !pattern[k]
            {
              assert !p[k - 1];
            }
          }
          var k :| 0 < k < j + 1 && keep[k];
          assert q[k - 1];
        }
      }
    }
    if InnerRunsKept(p, q) && (pattern[0] ==> FirstRunKept(p, q, 1)) {
      InnerRunsUnshift(pattern, keep);
    }
  }

  lemma InnerRunsUnshift(pattern: seq<bool>, keep: seq<bool>)
    requires pattern != [] && |keep| == |pattern|
    requires InnerRunsKept(pattern[1..], keep[1..]) && (pattern[0] ==> FirstRunKept(pattern[1..], keep[1..], 1))
    ensures InnerRunsKept(pattern, keep)
  {
    var p, q := pattern[1..], keep[1..];
    forall i, j | 0 <= i && i + 1 < j < |pattern| && pattern[i] && pattern[j] && (forall k :: i < k < j ==> !pattern[k])
      ensures exists k :: i < k < j && keep[k]
    {
      assert p[j - 1];
      assert forall k :: i - 1 < k < j - 1 ==> !p[k] by {
        forall k | i - 1 < k < j - 1
          ensures !p[k]
        {
          assert !pattern[k + 1];
        }
      }
      if i > 0 {
        assert p[i - 1];
      }
      var k :| i - 1 < k < j - 1 && q[k];
      assert keep[k + 1];
    }
  }

  lemma FirstRunShift(pattern: seq<bool>, keep: seq<bool>, from: nat)
    requires pattern != [] && |keep| == |pattern| && from <= 1
    ensures FirstRunKept(pattern, keep, from) <==>
            if pattern[0] then from == 1 else keep[0] || FirstRunKept(pattern[1..], keep[1..], 0)
  {
    var p, q := pattern[1..], keep[1..];
    if !pattern[0] && !keep[0] {
      if FirstRunKept(pattern, keep, from) {
        forall j | 0 <= j < |p| && p[j] && (forall k :: 0 <= k < j ==> !p[k])
          ensures exists k :: 0 <= k < j && q[k]
        {
          assert pattern[j + 1];
          assert forall k :: 0 <= k < j + 1 ==> !pattern[k] by {
            forall k | 0 <= k < j + 1
              ensures !pattern[k]
            {
              assert k > 0 ==> !p[k - 1];
            }
          }
          var k :| 0 <= k < j + 1 && keep[k];
          assert q[k - 1];
        }
      }
      if FirstRunKept(p, q, 0) {
        forall j | from <= j < |pattern| && pattern[j] && (forall k :: 0 <= k < j ==> !pattern[k])
          ensures exists k :: 0 <= k < j && keep[k]
        {
          assert p[j - 1];
          assert forall k :: 0 <= k < j - 1 ==> !p[k] by {
            forall k | 0 <= k < j - 1
              ensures !p[k]
            {
              assert !pattern[k + 1];
            }
          }
          var k :| 0 <= k < j - 1 && q[k];
          assert keep[k + 1];
        }
      }
    }
  }

  lemma {:induction false} InStepMeans(pattern: seq<bool>, keep: seq<bool>, w: Walk)
    requires |keep| == |pattern|
    ensures InStep(pattern, keep, w) <==>
            InnerRunsKept(pattern, keep)
            && (w.AfterPick? ==> FirstRunKept(pattern, keep, 1)) && (w.BansDropped? ==> FirstRunKept(pattern, keep, 0))
  {
    if pattern != [] {
      InnerRunsShift(pattern, keep);
      FirstRunShift(pattern, keep, 0);
      FirstRunShift(pattern, keep, 1);
      var next := if pattern[0] then AfterPick else if keep[0] || w.AfterBan? then AfterBan else BansDropped;
      InStepMeans(pattern[1..], keep[1..], next);
    }
  }

  /** The numbers of the pattern's entries, and of the kept entries, when the walk stands at w. */
  ghost function PatternNumbers(pattern: seq<bool>, w: Walk, cur: nat): (ns: seq<nat>)
    ensures |ns| == |pattern|
  {
    Numbers(pattern, w.AfterPick?, if w.BansDropped? then cur + 1 else cur)
  }

  ghost function ObservedNumbers(observed: seq<bool>, w: Walk, cur: nat): seq<nat> {
    Numbers(observed, !w.AfterBan?, cur)
  }

  lemma {:induction false} InStepNumbers(pattern: seq<bool>, keep: seq<bool>, w: Walk, cur: nat)
    requires OnlyBansDropped(pattern, keep)
    ensures ObservedNumbers(Kept(pattern, keep), w, cur) == Kept(PatternNumbers(pattern, w, cur), keep)
            <==> InStep(pattern, keep, w)
  {
    if pattern != [] {
      var p, q := pattern[1..], keep[1..];
      var c := PatternNumbers(pattern, w, cur)[0];
      if pattern[0] && w.BansDropped? {
        assert Kept(pattern, keep)[0];
        assert ObservedNumbers(Kept(pattern, keep), w, cur)[0] == cur;
        assert Kept(PatternNumbers(pattern, w, cur), keep)[0] == cur + 2;
      } else {
        var next := if pattern[0] then AfterPick else if keep[0] || w.AfterBan? then AfterBan else BansDropped;
        var cur' := if keep[0] then c else cur;
        InStepNumbers(p, q, next, cur');
        assert PatternNumbers(pattern, w, cur) == [c] + PatternNumbers(p, next, cur');
        if keep[0] {
          assert Kept(pattern, keep) == [pattern[0]] + Kept(p, q);
          var a, b := ObservedNumbers(Kept(p, q), next, cur'), Kept(PatternNumbers(p, next, cur'), q);
          assert ObservedNumbers(Kept(pattern, keep), w, cur) == [c] + a;
          assert Kept(PatternNumbers(pattern, w, cur), keep) == [c] + b;
          assert [c] + a == [c] + b <==> a == b by {
            if [c] + a == [c] + b {
              assert a == ([c] + a)[1..] && b == ([c] + b)[1..];
            }
          }
        } else {
          assert Kept(pattern, keep) == Kept(p, q);
          assert Kept(PatternNumbers(pattern, w, cur), keep) == Kept(PatternNumbers(p, next, cur'), q);
        }
      }
    }
  }

  /** Deleting bans keeps every surviving entry's number on the analysis side exactly when each run of bans
      between two picks keeps at least one: bans before the first or after the last pick do not matter. */
  lemma DerivedStableExactly(pattern: seq<bool>, keep: seq<bool>)
    requires OnlyBansDropped(pattern, keep)
    ensures DerivedNumbers(Kept(pattern, keep)) == Kept(DerivedNumbers(pattern), keep)
            <==> InnerRunsKept(pattern, keep)
  {
    InStepNumbers(pattern, keep, AfterBan, 0);
    InStepMeans(pattern, keep, AfterBan);
  }

  /** On the ingestion side the draft must also still start with the same kind. */
  lemma AssignedStableExactly(pattern: seq<bool>, keep: seq<bool>)
    requires OnlyBansDropped(pattern, keep) && Kept(pattern, keep) != []
    ensures AssignedNumbers(Kept(pattern, keep)) == Kept(AssignedNumbers(pattern), keep)
            <==> InnerRunsKept(pattern, keep) && Kept(pattern, keep)[0] == pattern[0]
  {
    var observed := Kept(pattern, keep);
    DerivedStableExactly(pattern, keep);
    ShiftKept(pattern, keep);
  }

  /** Both numberings at once, by the fixed offset between them. */
  lemma ShiftKept(pattern: seq<bool>, keep: seq<bool>)
    requires OnlyBansDropped(pattern, keep) && Kept(pattern, keep) != []
    ensures AssignedNumbers(Kept(pattern, keep)) == Kept(AssignedNumbers(pattern), keep)
            <==> DerivedNumbers(Kept(pattern, keep)) == Kept(DerivedNumbers(pattern), keep)
                 && Kept(pattern, keep)[0] == pattern[0]
  {
    var observed := Kept(pattern, keep);
    var a, d := AssignedNumbers(pattern), DerivedNumbers(pattern);
    KeptSameLength(pattern, a, keep);
    KeptSameLength(pattern, d, keep);
    forall i | 0 <= i < |pattern|
      ensures d[i] == a[i] + if pattern[0] then 1 else 0
    {
      AssignedVersusDerived(pattern, i);
    }
    KeptOffset(a, d, keep, if pattern[0] then 1 else 0);
    forall i | 0 <= i < |observed|
      ensures DerivedNumbers(observed)[i] == AssignedNumbers(observed)[i] + if observed[0] then 1 else 0
    {
      AssignedVersusDerived(observed, i);
    }
    assert AssignedNumbers(observed)[0] == 0;
    if observed[0] != pattern[0] {
      assert observed[0] by {
        if !observed[0] {
          FirstPickSurvives(pattern, keep);
          assert false;
        }
      }
      FirstKeptNumber(pattern, keep);
    }
  }

  lemma KeptSameLength<S, T>(s: seq<S>, t: seq<T>, keep: seq<bool>)
    requires |s| == |t| == |keep|
    ensures |Kept(s, keep)| == |Kept(t, keep)|
  {
    if s != [] {
      KeptSameLength(s[1..], t[1..], keep[1..]);
    }
  }

  lemma {:induction false} KeptOffset(a: seq<nat>, d: seq<nat>, keep: seq<bool>, offset: nat)
    requires |a| == |d| == |keep|
    requires forall i :: 0 <= i < |a| ==> d[i] == a[i] + offset
    ensures |Kept(a, keep)| == |Kept(d, keep)|
    ensures forall i :: 0 <= i < |Kept(a, keep)| ==> Kept(d, keep)[i] == Kept(a, keep)[i] + offset
  {
    if a != [] {
      KeptOffset(a[1..], d[1..], keep[1..], offset);
    }
  }

  lemma FirstPickSurvives(pattern: seq<bool>, keep: seq<bool>)
    requires OnlyBansDropped(pattern, keep) && pattern != [] && pattern[0]
    ensures Kept(pattern, keep)[0]
  {
  }

  /** If the kept entries start with a pick and the pattern with a ban, that pick had number 1 or more. */
  lemma FirstKeptNumber(pattern: seq<bool>, keep: seq<bool>)
    requires OnlyBansDropped(pattern, keep) && Kept(pattern, keep) != []
    requires !pattern[0] && Kept(pattern, keep)[0]
    ensures |Kept(AssignedNumbers(pattern), keep)| > 0 && Kept(AssignedNumbers(pattern), keep)[0] > 0
  {
    var i := FirstKept(pattern, AssignedNumbers(pattern), keep);
    SameNumberSameRun(pattern, false, 0, 0, i);
    NumbersStep(pattern, false, 0, 0);
  }

  lemma {:induction false} FirstKept<S, T>(s: seq<S>, t: seq<T>, keep: seq<bool>) returns (i: nat)
    requires |s| == |t| == |keep| && Kept(s, keep) != []
    ensures i < |s| && keep[i] && Kept(s, keep)[0] == s[i]
    ensures Kept(t, keep) != [] && Kept(t, keep)[0] == t[i]
  {
    if keep[0] {
      i := 0;
    } else {
      i := FirstKept(s[1..], t[1..], keep[1..]);
      i := i + 1;
    }
  }

  lemma {:induction false} NamesOfKept(numbers: seq<nat>, kinds: seq<bool>, keep: seq<bool>)
    requires |numbers| == |kinds| == |keep|
    ensures |Kept(numbers, keep)| == |Kept(kinds, keep)|
    ensures NamesOf(Kept(numbers, keep), Kept(kinds, keep)) == Kept(NamesOf(numbers, kinds), keep)
  {
    if kinds != [] {
      NamesOfKept(numbers[1..], kinds[1..], keep[1..]);
      assert NamesOf(numbers, kinds)[1..] == NamesOf(numbers[1..], kinds[1..]);
    }
  }

  /** What is kept of two lists comes from the same places. */
  lemma {:induction false} KeptFrom<T, U>(a: seq<T>, b: seq<U>, keep: seq<bool>, i: nat) returns (j: nat)
    requires |a| == |b| == |keep| && (i < |Kept(a, keep)| || i < |Kept(b, keep)|)
    ensures |Kept(a, keep)| == |Kept(b, keep)| && j < |a|
    ensures Kept(a, keep)[i] == a[j] && Kept(b, keep)[i] == b[j]
  {
    if keep[0] && i == 0 {
      SameKept(a, b, keep);
      j := 0;
    } else {
      j := KeptFrom(a[1..], b[1..], keep[1..], if keep[0] then i - 1 else i);
      j := j + 1;
    }
  }

  lemma {:induction false} SameKept<T, U>(a: seq<T>, b: seq<U>, keep: seq<bool>)
    requires |a| == |b| == |keep|
    ensures |Kept(a, keep)| == |Kept(b, keep)|
  {
    if a != [] {
      SameKept(a[1..], b[1..], keep[1..]);
    }
  }

  lemma KeptParity(numbers: seq<nat>, kinds: seq<bool>, keep: seq<bool>)
    requires |numbers| == |kinds| == |keep|
    requires forall i :: 0 <= i < |kinds| ==> (kinds[i] <==> numbers[i] % 2 == 1)
    ensures |Kept(numbers, keep)| == |Kept(kinds, keep)|
    ensures forall i :: 0 <= i < |Kept(kinds, keep)| ==> (Kept(kinds, keep)[i] <==> Kept(numbers, keep)[i] % 2 == 1)
  {
    SameKept(numbers, kinds, keep);
    forall i | 0 <= i < |Kept(kinds, keep)|
      ensures Kept(kinds, keep)[i] <==> Kept(numbers, keep)[i] % 2 == 1
    {
      var j := KeptFrom(numbers, kinds, keep, i);
    }
  }

  /** Numbers of the right parity are determined by the names they give. */
  lemma NamesDetermineNumbers(a: seq<nat>, b: seq<nat>, kinds: seq<bool>)
    requires |a| == |b| == |kinds| && NamesOf(a, kinds) == NamesOf(b, kinds)
    requires forall i :: 0 <= i < |kinds| ==> (kinds[i] <==> a[i] % 2 == 1) && (kinds[i] <==> b[i] % 2 == 1)
    ensures a == b
  {
    forall i | 0 <= i < |kinds|
      ensures a[i] == b[i]
    {
      assert NamesOf(a, kinds)[i] == NamesOf(b, kinds)[i];
    }
  }

  /** The surviving entries keep their derived names exactly when every run of bans between picks keeps one. */
  lemma DerivedNamesStableExactly(pattern: seq<bool>, keep: seq<bool>)
    requires OnlyBansDropped(pattern, keep)
    ensures DerivedNames(Kept(pattern, keep)) == Kept(DerivedNames(pattern), keep) <==> InnerRunsKept(pattern, keep)
  {
    var observed, numbers := Kept(pattern, keep), DerivedNumbers(pattern);
    DerivedStableExactly(pattern, keep);
    NamesOfKept(numbers, pattern, keep);
    if DerivedNames(observed) == Kept(DerivedNames(pattern), keep) {
      forall i | 0 <= i < |pattern|
        ensures pattern[i] <==> numbers[i] % 2 == 1
      {
        BanIffEven(pattern, false, 0, i);
      }
      KeptParity(numbers, pattern, keep);
      forall i | 0 <= i < |observed|
        ensures observed[i] <==> DerivedNumbers(observed)[i] % 2 == 1
      {
        BanIffEven(observed, false, 0, i);
      }
      NamesDetermineNumbers(DerivedNumbers(observed), Kept(numbers, keep), observed);
    }
  }

  /** The ingestion side's names in terms of the analysis side's numbers: off says that the draft starts with a
      pick, which puts its bans one cycle back. */
  ghost function NamesWith(numbers: seq<nat>, kinds: seq<bool>, off: bool): (names: seq<PhaseLabel>)
    requires |numbers| == |kinds|
    ensures |names| == |kinds|
  {
    seq(|kinds|, i requires 0 <= i < |kinds| =>
      PhaseLabel(kinds[i], numbers[i] / 2 + if off && !kinds[i] then 0 else 1))
  }

  lemma AssignedNamesAre(s: seq<bool>)
    requires s != []
    ensures AssignedNames(s) == NamesWith(DerivedNumbers(s), s, s[0])
  {
    forall i | 0 <= i < |s|
      ensures AssignedNames(s)[i] == NamesWith(DerivedNumbers(s), s, s[0])[i]
    {
      AssignedVersusDerived(s, i);
      BanIffEven(s, false, 0, i);
    }
  }

  lemma {:induction false} NamesWithKept(numbers: seq<nat>, kinds: seq<bool>, keep: seq<bool>, off: bool)
    requires |numbers| == |kinds| == |keep|
    ensures |Kept(numbers, keep)| == |Kept(kinds, keep)|
    ensures NamesWith(Kept(numbers, keep), Kept(kinds, keep), off) == Kept(NamesWith(numbers, kinds, off), keep)
  {
    if kinds != [] {
      hide NamesWith;
      NamesWithKept(numbers[1..], kinds[1..], keep[1..], off);
      NamesWithCons(numbers[0], numbers[1..], kinds[0], kinds[1..], off);
      assert [numbers[0]] + numbers[1..] == numbers && [kinds[0]] + kinds[1..] == kinds;
      assert NamesWith(numbers, kinds, off)[1..] == NamesWith(numbers[1..], kinds[1..], off);
      assert NamesWith(numbers, kinds, off)[..1] == NamesWith([numbers[0]], [kinds[0]], off);
      NamesWithCons(numbers[0], Kept(numbers[1..], keep[1..]), kinds[0], Kept(kinds[1..], keep[1..]), off);
    }
  }

  lemma NamesWithCons(n: nat, ns: seq<nat>, k: bool, ks: seq<bool>, off: bool)
    requires |ns| == |ks|
    ensures NamesWith([n] + ns, [k] + ks, off) == NamesWith([n], [k], off) + NamesWith(ns, ks, off)
  {
  }

  lemma {:induction false} KeptRises(ns: seq<nat>, keep: seq<bool>)
    requires |ns| == |keep| && forall i, j :: 0 <= i <= j < |ns| ==> ns[i] <= ns[j]
    ensures forall i :: 0 <= i < |Kept(ns, keep)| ==> ns[0] <= Kept(ns, keep)[i]
    ensures forall i :: 0 < i < |Kept(ns, keep)| ==> Kept(ns, keep)[i - 1] <= Kept(ns, keep)[i]
  {
    if ns != [] {
      KeptRises(ns[1..], keep[1..]);
    }
  }

  /** Numbers of the right parity and the names they give. */
  lemma NamesWithDetermine(a: seq<nat>, b: seq<nat>, kinds: seq<bool>, off: bool, i: nat)
    requires |a| == |b| == |kinds| && i < |kinds|
    requires (kinds[i] <==> a[i] % 2 == 1) && (kinds[i] <==> b[i] % 2 == 1)
    ensures NamesWith(a, kinds, off)[i] == NamesWith(b, kinds, off)[i] <==> a[i] == b[i]
  {
  }

  /** The numbers on both sides of the comparison have their entries' parity. */
  lemma ParityOfKept(pattern: seq<bool>, keep: seq<bool>)
    requires OnlyBansDropped(pattern, keep)
    ensures var observed := Kept(pattern, keep);
            var a, b := DerivedNumbers(observed), Kept(DerivedNumbers(pattern), keep);
            |a| == |b| == |observed|
            && forall i :: 0 <= i < |observed| ==> (observed[i] <==> a[i] % 2 == 1) && (observed[i] <==> b[i] % 2 == 1)
  {
    forall i | 0 <= i < |pattern|
      ensures pattern[i] <==> DerivedNumbers(pattern)[i] % 2 == 1
    {
      BanIffEven(pattern, false, 0, i);
    }
    KeptParity(DerivedNumbers(pattern), pattern, keep);
    var observed := Kept(pattern, keep);
    forall i | 0 <= i < |observed|
      ensures observed[i] <==> DerivedNumbers(observed)[i] % 2 == 1
    {
      BanIffEven(observed, false, 0, i);
    }
  }

  /** If the pattern starts with a ban and what is kept with a pick, a kept ban does not keep its name. */
  lemma KeptBanRenamed(pattern: seq<bool>, keep: seq<bool>, k: nat)
    requires OnlyBansDropped(pattern, keep) && k < |Kept(pattern, keep)|
    requires !pattern[0] && Kept(pattern, keep)[0] && !Kept(pattern, keep)[k]
    requires forall i :: 0 <= i < k ==> Kept(pattern, keep)[i]
    ensures |Kept(DerivedNumbers(pattern), keep)| == |Kept(pattern, keep)|
    ensures NamesWith(DerivedNumbers(Kept(pattern, keep)), Kept(pattern, keep), true)
            != NamesWith(Kept(DerivedNumbers(pattern), keep), Kept(pattern, keep), false)
  {
    var observed := Kept(pattern, keep);
    var a, b := DerivedNumbers(observed), Kept(DerivedNumbers(pattern), keep);
    ParityOfKept(pattern, keep);
    var x, y := NamesWith(a, observed, true), NamesWith(b, observed, false);
    NumbersStep(observed, false, 0, k);
    forall i, j | 0 <= i <= j < |pattern|
      ensures DerivedNumbers(pattern)[i] <= DerivedNumbers(pattern)[j]
    {
      SameNumberSameRun(pattern, false, 0, i, j);
    }
    KeptRises(DerivedNumbers(pattern), keep);
    if x[k] == y[k] {
      assert a[k] == b[k] + 2;
      assert x[k - 1] != y[k - 1];
    }
  }

  /** Dropping bans keeps the ingestion side's names exactly when every run of bans between picks keeps one, and
      either the draft starts with the same kind or no ban is left at all. */
  lemma AssignedNamesStableExactly(pattern: seq<bool>, keep: seq<bool>)
    requires OnlyBansDropped(pattern, keep) && Kept(pattern, keep) != []
    ensures var observed := Kept(pattern, keep);
            AssignedNames(observed) == Kept(AssignedNames(pattern), keep)
            <==> InnerRunsKept(pattern, keep)
                 && (observed[0] == pattern[0] || forall i :: 0 <= i < |observed| ==> observed[i])
  {
    var observed := Kept(pattern, keep);
    var a, b := DerivedNumbers(observed), Kept(DerivedNumbers(pattern), keep);
    AssignedNamesAre(observed);
    AssignedNamesAre(pattern);
    NamesWithKept(DerivedNumbers(pattern), pattern, keep, pattern[0]);
    ParityOfKept(pattern, keep);
    DerivedStableExactly(pattern, keep);
    var x, y := NamesWith(a, observed, observed[0]), NamesWith(b, observed, pattern[0]);
    if observed[0] == pattern[0] || forall i :: 0 <= i < |observed| ==> observed[i] {
      assert y == NamesWith(b, observed, observed[0]);
      forall i | 0 <= i < |observed|
        ensures x[i] == y[i] <==> a[i] == b[i]
      {
        NamesWithDetermine(a, b, observed, observed[0], i);
      }
      assert x == y <==> a == b;
    } else {
      if pattern[0] {
        FirstPickSurvives(pattern, keep);
      }
      var k := FirstBan(observed);
      KeptBanRenamed(pattern, keep, k);
    }
  }

  lemma {:induction false} FirstBan(s: seq<bool>) returns (k: nat)
    requires exists i :: 0 <= i < |s| && !s[i]
    ensures k < |s| && !s[k] && forall i :: 0 <= i < k ==> s[i]
  {
    if !s[0] {
      k := 0;
    } else {
      k := FirstBan(s[1..]);
      k := k + 1;
    }
  }
}
