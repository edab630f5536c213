/** Simulating a whole Captain's Mode draft (go-analysis/internal/api/handlers_draft.go:143-213,
    go-analysis/internal/domain/draft.go:71-185). */
module DraftSimulation {
  import opened Decimal
  import opened DraftPhases
  import opened Recommender
  import opened Sequences

  const NO_HERO := 0

  // ----- The draft state -----

  datatype TeamSlot = TeamSlot(teamId: int, roster: seq<int>, picks: seq<int>, bans: seq<int>)

  /** What a request says of the two teams. */
  datatype Teams = Teams(patch: int, radiantId: int, direId: int, radiantRoster: seq<int>, direRoster: seq<int>)

  /** What both sides have picked and banned so far. */
  datatype Lists = Lists(radiantPicks: seq<int>, direPicks: seq<int>, radiantBans: seq<int>, direBans: seq<int>)

  datatype DraftState = DraftState(patch: int, us: TeamSlot, them: TeamSlot, slot: nat, drafted: set<int>)

  function Elements(xs: seq<int>): set<int> {
    set x | x in xs
  }

  function Drafted(l: Lists): set<int> {
    Elements(l.radiantPicks) + Elements(l.direPicks) + Elements(l.radiantBans) + Elements(l.direBans)
  }

  method Mark(drafted: set<int>, heroes: seq<int>) returns (out: set<int>)
    ensures out == drafted + Elements(heroes)
  {
    out := drafted;
    for i := 0 to |heroes|
      invariant out == drafted + Elements(heroes[..i])
    {
      assert heroes[..i + 1] == heroes[..i] + [heroes[i]];
      out := out + {heroes[i]};
    }
    assert heroes[..|heroes|] == heroes;
  }

  /** forRadiant: the user's side is the Radiant one. */
  method NewDraftState(forRadiant: bool, t: Teams, l: Lists, slot: nat) returns (st: DraftState)
    ensures st.drafted == Drafted(l) && st.slot == slot && st.patch == t.patch
    ensures (if forRadiant then st.us else st.them) ==
              TeamSlot(t.radiantId, t.radiantRoster, l.radiantPicks, l.radiantBans)
    ensures (if forRadiant then st.them else st.us) == TeamSlot(t.direId, t.direRoster, l.direPicks, l.direBans)
  {
    var radiant := TeamSlot(t.radiantId, t.radiantRoster, l.radiantPicks, l.radiantBans);
    var dire := TeamSlot(t.direId, t.direRoster, l.direPicks, l.direBans);
    var us, them := if forRadiant then radiant else dire, if forRadiant then dire else radiant;
    var drafted := Mark({}, us.picks);
    drafted := Mark(drafted, them.picks);
    drafted := Mark(drafted, us.bans);
    drafted := Mark(drafted, them.bans);
    return DraftState(t.patch, us, them, slot, drafted);
  }

  ghost function Legal(catalog: seq<int>, drafted: set<int>): seq<int> {
    if catalog == [] then []
    else
      var h := catalog[|catalog| - 1];
      Legal(catalog[..|catalog| - 1], drafted) + if h != NO_HERO && h !in drafted then [h] else []
  }

  method LegalHeroes(st: DraftState, catalog: seq<int>) returns (legal: seq<int>)
    ensures legal == Legal(catalog, st.drafted)
  {
    legal := [];
    for i := 0 to |catalog|
      invariant legal == Legal(catalog[..i], st.drafted)
    {
      assert catalog[..i + 1][..i] == catalog[..i];
      if catalog[i] != NO_HERO && catalog[i] !in st.drafted {
        legal := legal + [catalog[i]];
      }
    }
    assert catalog[..|catalog|] == catalog;
  }

  /** The legal heroes are those of the catalog that are real and not drafted, in the catalog's order. */
  lemma {:induction false} LegalExactly(catalog: seq<int>, drafted: set<int>)
    ensures forall h :: h in Legal(catalog, drafted) <==> h in catalog && h != NO_HERO && h !in drafted
  {
    if catalog != [] {
      LegalExactly(catalog[..|catalog| - 1], drafted);
      assert catalog == catalog[..|catalog| - 1] + [catalog[|catalog| - 1]];
    }
  }

  // ----- Lists of heroes -----

  ghost predicate Distinct(xs: seq<int>) {
    forall i, j :: 0 <= i < j < |xs| ==> xs[i] != xs[j]
  }

  ghost function All(l: Lists): seq<int> {
    l.radiantPicks + l.direPicks + l.radiantBans + l.direBans
  }

  function Added(l: Lists, phase: Phase, hero: int): Lists {
    if phase.isBan then
      if phase.actingTeam == Radiant
        then l.(radiantBans := l.radiantBans + [hero]) else l.(direBans := l.direBans + [hero])
    else if phase.actingTeam == Radiant then l.(radiantPicks := l.radiantPicks + [hero])
    else l.(direPicks := l.direPicks + [hero])
  }

  lemma DraftedIsAll(l: Lists, h: int)
    ensures h in Drafted(l) <==> h in All(l)
  {
  }

  lemma InsertDistinct(a: seq<int>, h: int, b: seq<int>)
    ensures Distinct(a + [h] + b) <==> Distinct(a + b) && h !in a && h !in b
  {
    var all, xs, p := a + b, a + [h] + b, |a|;
    assert forall i :: 0 <= i < |all| ==> all[i] == xs[if i < p then i else i + 1];
    if Distinct(a + b) && h !in a && h !in b {
      forall i, j | 0 <= i < j < |xs|
        ensures xs[i] != xs[j]
      {
        if i == p {
          assert xs[j] == b[j - p - 1];
        } else if j == p {
          assert xs[i] == a[i];
        } else {
          assert xs[i] == all[if i < p then i else i - 1] && xs[j] == all[if j < p then j else j - 1];
        }
      }
    }
    if Distinct(xs) {
      forall k | 0 <= k < |a|
        ensures a[k] != h
      {
        assert xs[k] == a[k] && xs[p] == h;
      }
      forall k | 0 <= k < |b|
        ensures b[k] != h
      {
        assert xs[p + 1 + k] == b[k] && xs[p] == h;
      }
    }
  }

  /** Adding a hero keeps the lists without repetition exactly if it was not drafted. */
  lemma AddedDistinctExactly(l: Lists, phase: Phase, h: int)
    ensures Distinct(All(Added(l, phase, h))) <==> Distinct(All(l)) && h !in Drafted(l)
    ensures Drafted(Added(l, phase, h)) == Drafted(l) + {h}
    ensures |All(Added(l, phase, h))| == |All(l)| + 1
  {
    var rp, dp, rb, db := l.radiantPicks, l.direPicks, l.radiantBans, l.direBans;
    var a, b;
    if phase.isBan {
      if phase.actingTeam == Radiant { a, b := rp + dp + rb, db; } else { a, b := rp + dp + rb + db, []; }
    } else {
      if phase.actingTeam == Radiant { a, b := rp, dp + rb + db; } else { a, b := rp + dp, rb + db; }
    }
    assert a + b == All(l);
    DraftedIsAll(l, h);
    assert h in All(l) <==> h in a || h in b;
    InsertDistinct(a, h, b);
    assert a + [h] + b == All(Added(l, phase, h));
    AddedElements(l, phase, h);
  }

  lemma AddedElements(l: Lists, phase: Phase, h: int)
    ensures Drafted(Added(l, phase, h)) == Drafted(l) + {h}
  {
    assert Elements(l.radiantPicks + [h]) == Elements(l.radiantPicks) + {h};
    assert Elements(l.direPicks + [h]) == Elements(l.direPicks) + {h};
    assert Elements(l.radiantBans + [h]) == Elements(l.radiantBans) + {h};
    assert Elements(l.direBans + [h]) == Elements(l.direBans) + {h};
  }

  // ----- The models -----

  /** What the feature builder and the scorers answer for a draft state and the candidates there. */
  datatype Models = Models(
    built: (DraftState, seq<int>) -> bool,
    imitation: (DraftState, seq<int>) -> Answer,
    value: Option<(DraftState, seq<int>) -> Answer>,
    ensemble: Ensemble)

  ghost function ValueAnswer(m: Models, st: DraftState, candidates: seq<int>): Option<Answer> {
    if m.value.Some? then Some(m.value.value(st, candidates)) else None
  }

  /** The imitation scorer names only heroes it was asked about. */
  ghost predicate ScoresOnly(m: Models, st: DraftState, candidates: seq<int>) {
    m.imitation(st, candidates).Scores? ==>
      var scores := m.imitation(st, candidates).scores;
      forall i :: 0 <= i < |scores| ==> scores[i].hero in candidates
  }

  ghost predicate WellBehaved(m: Models) {
    forall st, candidates :: ScoresOnly(m, st, candidates)
  }

  /** The models answer, with at least one score where there is a candidate. */
  ghost predicate Answers(m: Models, st: DraftState, candidates: seq<int>) {
    m.built(st, candidates) && m.imitation(st, candidates).Scores?
    && (candidates != [] ==> m.imitation(st, candidates).scores != [])
  }

  ghost predicate NeverErrs(m: Models) {
    forall st, candidates :: Answers(m, st, candidates)
  }

  /** The scores ranked in a state. */
  ghost function Ranked(m: Models, st: DraftState, candidates: seq<int>): seq<Score>
    requires m.imitation(st, candidates).Scores?
  {
    FinalScores(m.ensemble, m.imitation(st, candidates).scores, ValueAnswer(m, st, candidates))
  }

  // ----- The simulation -----

  datatype Step = Step(slot: nat, phase: Phase, recs: seq<Recommendation>, usedValueModel: bool)

  /** The heroes chosen in some steps. */
  ghost function Chosen(steps: seq<Step>): set<int> {
    set i | 0 <= i < |steps| && steps[i].recs != [] :: steps[i].recs[0].hero
  }

  /** The heroes chosen for one side and kind, in order. */
  ghost function HeroesOf(steps: seq<Step>, isBan: bool, team: DraftTeam): seq<int> {
    if steps == [] then []
    else
      var step := steps[|steps| - 1];
      HeroesOf(steps[..|steps| - 1], isBan, team)
        + if step.recs != [] && step.phase.isBan == isBan && step.phase.actingTeam == team
          then [step.recs[0].hero] else []
  }

  ghost function ListsOf(steps: seq<Step>): Lists {
    Lists(HeroesOf(steps, false, Radiant), HeroesOf(steps, false, Dire),
          HeroesOf(steps, true, Radiant), HeroesOf(steps, true, Dire))
  }

  lemma ListsNext(steps: seq<Step>, step: Step)
    ensures ListsOf(steps + [step]) ==
              if step.recs != [] then Added(ListsOf(steps), step.phase, step.recs[0].hero) else ListsOf(steps)
  {
    assert (steps + [step])[..|steps|] == steps;
  }

  /** The state the models see: the acting side is us. */
  ghost function StateAt(t: Teams, l: Lists, slot: nat): DraftState
    requires slot < |CM_PHASE_TABLE|
  {
    var radiant := TeamSlot(t.radiantId, t.radiantRoster, l.radiantPicks, l.radiantBans);
    var dire := TeamSlot(t.direId, t.direRoster, l.direPicks, l.direBans);
    if CM_PHASE_TABLE[slot].actingTeam == Radiant then DraftState(t.patch, radiant, dire, slot, Drafted(l))
    else DraftState(t.patch, dire, radiant, slot, Drafted(l))
  }

  /** The step's choice is a scored hero of maximal combined score. */
  ghost predicate BestChoice(m: Models, t: Teams, catalog: seq<int>, l: Lists, step: Step) {
    var candidates := Legal(catalog, Drafted(l));
    step.recs != [] ==>
      && step.slot < |CM_PHASE_TABLE| && step.phase == CM_PHASE_TABLE[step.slot]
      && var st := StateAt(t, l, step.slot);
         && m.imitation(st, candidates).Scores?
         && Score(step.recs[0].hero, step.recs[0].score) in Ranked(m, st, candidates)
         && forall s :: s in Ranked(m, st, candidates) ==> s.value <= step.recs[0].score
  }

  /** The step's choice is in the catalog, a real hero, and not drafted before. */
  ghost predicate LegalChoice(catalog: seq<int>, before: set<int>, step: Step) {
    step.recs != [] ==>
      step.recs[0].hero in catalog && step.recs[0].hero != NO_HERO && step.recs[0].hero !in before
  }

  ghost predicate AllBest(m: Models, t: Teams, catalog: seq<int>, steps: seq<Step>) {
    forall i :: 0 <= i < |steps| ==> BestChoice(m, t, catalog, ListsOf(steps[..i]), steps[i])
  }

  ghost predicate AllLegal(catalog: seq<int>, steps: seq<Step>) {
    forall i :: 0 <= i < |steps| ==> LegalChoice(catalog, Chosen(steps[..i]), steps[i])
  }

  /** All heroes picked and banned are distinct, real and in the catalog. */
  ghost predicate Sound(catalog: seq<int>, l: Lists) {
    Distinct(All(l)) && forall h :: h in Drafted(l) ==> h in catalog && h != NO_HERO
  }

  /** The slots of a kind among the first n. */
  ghost function SlotsOf(isBan: bool, team: DraftTeam, n: nat): set<nat>
    requires n <= |CM_PHASE_TABLE|
  {
    set k: nat | k < n && CM_PHASE_TABLE[k].isBan == isBan && CM_PHASE_TABLE[k].actingTeam == team
  }

  lemma NextSlot(isBan: bool, team: DraftTeam, n: nat)
    requires n < |CM_PHASE_TABLE|
    ensures SlotsOf(isBan, team, n + 1) ==
              SlotsOf(isBan, team, n) + if CM_PHASE_TABLE[n].isBan == isBan
                && CM_PHASE_TABLE[n].actingTeam == team then {n} else {}
    ensures n !in SlotsOf(isBan, team, n)
  {
    hide CM_PHASE_TABLE;
  }

  /** Each side has five picks and seven bans. */
  lemma CmSlots()
    ensures SlotsOf(false, Radiant, 24) == {8, 12, 14, 16, 22}
    ensures SlotsOf(false, Dire, 24) == {7, 13, 15, 17, 23}
    ensures SlotsOf(true, Radiant, 24) == {0, 2, 4, 6, 10, 18, 20}
    ensures SlotsOf(true, Dire, 24) == {1, 3, 5, 9, 11, 19, 21}
  {
  }

  /** All lists have the length the first n slots give them. */
  ghost predicate Full(l: Lists, n: nat)
    requires n <= |CM_PHASE_TABLE|
  {
    && |l.radiantPicks| == |SlotsOf(false, Radiant, n)| && |l.direPicks| == |SlotsOf(false, Dire, n)|
    && |l.radiantBans| == |SlotsOf(true, Radiant, n)| && |l.direBans| == |SlotsOf(true, Dire, n)|
  }

  lemma CountNext(isBan: bool, team: DraftTeam, n: nat)
    requires n < |CM_PHASE_TABLE|
    ensures |SlotsOf(isBan, team, n + 1)| ==
              |SlotsOf(isBan, team, n)| + if CM_PHASE_TABLE[n].isBan == isBan
                && CM_PHASE_TABLE[n].actingTeam == team then 1 else 0
  {
    hide SlotsOf, CM_PHASE_TABLE;
    NextSlot(isBan, team, n);
  }

  lemma AddedFull(l: Lists, n: nat, phase: Phase, h: int)
    requires n < |CM_PHASE_TABLE| && phase == CM_PHASE_TABLE[n] && Full(l, n)
    ensures Full(Added(l, phase, h), n + 1)
  {
    hide SlotsOf, CM_PHASE_TABLE;
    CountNext(false, Radiant, n);
    CountNext(false, Dire, n);
    CountNext(true, Radiant, n);
    CountNext(true, Dire, n);
  }

  /** As long as fewer heroes are drafted than the catalog has, some hero is legal. */
  lemma SomeLegal(catalog: seq<int>, l: Lists, heroes: set<int>)
    requires |All(l)| < |heroes|
    requires forall h :: h in heroes ==> h in catalog && h != NO_HERO
    ensures Legal(catalog, Drafted(l)) != []
  {
    LegalExactly(catalog, Drafted(l));
    if Legal(catalog, Drafted(l)) == [] {
      forall h | h in heroes
        ensures h in All(l)
      {
        DraftedIsAll(l, h);
      }
      ListedSize(All(l), heroes);
      assert false;
    }
  }

  // ----- When the choice is legal -----

  /** The ranking may put any hero of maximal score first. So whatever ranking comes out, the first hero is a
      candidate exactly if all heroes of maximal score are. */
  lemma ChoiceLegalExactly(scores: seq<Score>, candidates: seq<int>)
    ensures (forall recs: seq<Recommendation> :: TopOf(recs, scores) && recs != [] ==> recs[0].hero in candidates)
            <==> forall s :: s in scores && (forall t :: t in scores ==> t.value <= s.value) ==> s.hero in candidates
  {
    if forall s :: s in scores && (forall t :: t in scores ==> t.value <= s.value) ==> s.hero in candidates {
      forall recs: seq<Recommendation> | TopOf(recs, scores) && recs != []
        ensures recs[0].hero in candidates
      {
        FirstIsMaximal(recs, scores);
        assert Score(recs[0].hero, recs[0].score).hero in candidates;
      }
    } else {
      var s :| s in scores && (forall t :: t in scores ==> t.value <= s.value) && s.hero !in candidates;
      var recs := [Recommendation(s.hero, s.value, 1)];
      MaximalFirst(scores, s);
      assert TopOf(recs, scores) && recs[0].hero !in candidates;
    }
  }

  lemma MaximalFirst(scores: seq<Score>, s: Score)
    requires s in scores && forall t :: t in scores ==> t.value <= s.value
    ensures TopOf([Recommendation(s.hero, s.value, 1)], scores)
  {
    var k :| 0 <= k < |scores| && scores[k] == s;
    var recs := [Recommendation(s.hero, s.value, 1)];
    var rest := scores[..k] + scores[k + 1..];
    assert ScoresOf(recs) == [s];
    WithoutOne(scores, k);
    forall j | 0 <= j < |rest|
      ensures recs[0].score >= rest[j].value
    {
      assert rest[j] in scores;
    }
  }

  lemma WithoutOne(scores: seq<Score>, k: nat)
    requires k < |scores|
    ensures multiset([scores[k]]) + multiset(scores[..k] + scores[k + 1..]) == multiset(scores)
    ensures forall s :: s in scores[..k] + scores[k + 1..] ==> s in scores
  {
    assert scores == scores[..k] + [scores[k]] + scores[k + 1..];
  }

  lemma RankedHero(m: Models, st: DraftState, candidates: seq<int>, hero: int, score: real)
    requires ScoresOnly(m, st, candidates) && m.imitation(st, candidates).Scores?
    requires Score(hero, score) in Ranked(m, st, candidates)
    ensures hero in candidates
  {
    var scores := Ranked(m, st, candidates);
    var i :| 0 <= i < |scores| && scores[i] == Score(hero, score);
    assert scores[i].hero == m.imitation(st, candidates).scores[i].hero;
  }

  // ----- One turn -----

  lemma ChosenNext(steps: seq<Step>, step: Step)
    ensures Chosen(steps + [step]) == Chosen(steps) + if step.recs != [] then {step.recs[0].hero} else {}
  {
    var all := steps + [step];
    assert all[|steps|] == step;
    forall h | h in Chosen(steps)
      ensures h in Chosen(all)
    {
      var i :| 0 <= i < |steps| && steps[i].recs != [] && steps[i].recs[0].hero == h;
      assert all[i] == steps[i];
    }
  }

  lemma BestNext(m: Models, t: Teams, catalog: seq<int>, steps: seq<Step>, step: Step)
    requires AllBest(m, t, catalog, steps) && BestChoice(m, t, catalog, ListsOf(steps), step)
    ensures AllBest(m, t, catalog, steps + [step])
  {
    hide BestChoice, ListsOf;
    var all := steps + [step];
    forall i | 0 <= i < |all|
      ensures BestChoice(m, t, catalog, ListsOf(all[..i]), all[i])
    {
      assert all[..i] == if i < |steps| then steps[..i] else steps;
    }
  }

  lemma LegalNext(catalog: seq<int>, steps: seq<Step>, step: Step)
    ensures AllLegal(catalog, steps + [step]) <==> AllLegal(catalog, steps) && LegalChoice(catalog, Chosen(steps), step)
  {
    hide LegalChoice, Chosen;
    var all := steps + [step];
    forall i | 0 <= i < |steps|
      ensures all[..i] == steps[..i] && all[i] == steps[i]
    {
    }
    assert all[..|steps|] == steps && all[|steps|] == step;
  }

  lemma TopIsBest(m: Models, t: Teams, catalog: seq<int>, l: Lists, step: Step)
    requires step.slot < |CM_PHASE_TABLE| && step.phase == CM_PHASE_TABLE[step.slot]
    requires var st, legal := StateAt(t, l, step.slot), Legal(catalog, Drafted(l));
             step.recs != [] ==> m.imitation(st, legal).Scores? && TopOf(step.recs, Ranked(m, st, legal))
    ensures BestChoice(m, t, catalog, l, step)
  {
    hide TopOf;
    if step.recs != [] {
      FirstIsMaximal(step.recs, Ranked(m, StateAt(t, l, step.slot), Legal(catalog, Drafted(l))));
    }
  }

  lemma BestIsLegal(m: Models, t: Teams, catalog: seq<int>, l: Lists, step: Step)
    requires BestChoice(m, t, catalog, l, step) && WellBehaved(m)
    ensures LegalChoice(catalog, Drafted(l), step)
  {
    if step.recs != [] {
      var st, candidates := StateAt(t, l, step.slot), Legal(catalog, Drafted(l));
      assert ScoresOnly(m, st, candidates);
      RankedHero(m, st, candidates, step.recs[0].hero, step.recs[0].score);
      LegalExactly(catalog, Drafted(l));
    }
  }

  lemma SoundNext(catalog: seq<int>, l: Lists, before: set<int>, step: Step)
    requires before == Drafted(l) && step.recs != []
    ensures Sound(catalog, Added(l, step.phase, step.recs[0].hero)) <==>
        Sound(catalog, l) && LegalChoice(catalog, before, step)
  {
    hide Distinct;
    AddedDistinctExactly(l, step.phase, step.recs[0].hero);
  }

  /** What every turn of the loop keeps. */
  ghost predicate Kept(m: Models, t: Teams, catalog: seq<int>, steps: seq<Step>, l: Lists) {
    && AllBest(m, t, catalog, steps) && l == ListsOf(steps) && Drafted(l) == Chosen(steps)
    && (Sound(catalog, l) <==> AllLegal(catalog, steps)) && (WellBehaved(m) ==> AllLegal(catalog, steps))
  }

  lemma TurnKept(m: Models, t: Teams, catalog: seq<int>, steps: seq<Step>, l: Lists, step: Step)
    requires Kept(m, t, catalog, steps, l) && BestChoice(m, t, catalog, l, step)
    ensures Kept(m, t, catalog, steps + [step], if step.recs != [] then Added(l, step.phase, step.recs[0].hero) else l)
  {
    hide AllBest, AllLegal, BestChoice, WellBehaved, Sound, Drafted, Added, Chosen, ListsOf;
    ChosenNext(steps, step);
    BestNext(m, t, catalog, steps, step);
    LegalNext(catalog, steps, step);
    ListsNext(steps, step);
    if WellBehaved(m) {
      BestIsLegal(m, t, catalog, l, step);
    }
    if step.recs != [] {
      SoundNext(catalog, l, Drafted(l), step);
      AddedElements(l, step.phase, step.recs[0].hero);
    }
  }

  lemma NothingYet(m: Models, t: Teams, catalog: seq<int>)
    ensures Kept(m, t, catalog, [], Lists([], [], [], [])) && OnTrack([], Lists([], [], [], []), 0)
  {
    assert Chosen([]) == {};
  }

  // ----- Which slots get a step -----

  /** The steps of earlier slots, where the slots rise. */
  ghost function Earlier(steps: seq<Step>, slot: nat): seq<Step> {
    if steps == [] || steps[|steps| - 1].slot < slot then steps else Earlier(steps[..|steps| - 1], slot)
  }

  ghost function ListsBefore(steps: seq<Step>, slot: nat): Lists {
    ListsOf(Earlier(steps, slot))
  }

  /** For the heroes legal at the slot the features cannot be built or the imitation scorer fails. */
  ghost predicate ErrsAt(m: Models, t: Teams, catalog: seq<int>, l: Lists, slot: nat)
    requires slot < |CM_PHASE_TABLE|
  {
    var st, legal := StateAt(t, l, slot), Legal(catalog, Drafted(l));
    legal != [] && (!m.built(st, legal) || m.imitation(st, legal).Fails?)
  }

  ghost predicate HasStep(steps: seq<Step>, slot: nat) {
    exists i :: 0 <= i < |steps| && steps[i].slot == slot
  }

  /** The steps of the first n slots: in order, one for each slot that does not err, with as many recommendations as
      asked for and there are. */
  ghost predicate StepsFit(m: Models, t: Teams, catalog: seq<int>, limit: nat, steps: seq<Step>, n: nat) {
    && n <= |CM_PHASE_TABLE|
    && (forall i :: 0 <= i < |steps| ==> steps[i].slot < n)
    && (forall i, j :: 0 <= i < j < |steps| ==> steps[i].slot < steps[j].slot)
    && (forall s :: 0 <= s < n ==> (HasStep(steps, s) <==> !ErrsAt(m, t, catalog, ListsBefore(steps, s), s)))
    && forall i :: 0 <= i < |steps| ==> StepFits(m, t, catalog, limit, ListsBefore(steps, steps[i].slot), steps[i])
  }

  ghost predicate StepFits(m: Models, t: Teams, catalog: seq<int>, limit: nat, l: Lists, step: Step) {
    var legal := Legal(catalog, Drafted(l));
    && step.slot < |CM_PHASE_TABLE| && step.phase == CM_PHASE_TABLE[step.slot]
    && if legal == [] then step.recs == [] && !step.usedValueModel
       else
         var st := StateAt(t, l, step.slot);
         && m.imitation(st, legal).Scores? && TopOf(step.recs, Ranked(m, st, legal))
         && (step.usedValueModel <==> m.value.Some?)
         && |step.recs| == var k := |m.imitation(st, legal).scores|; if limit < k then limit else k
  }

  /** Only the last step may have nothing to recommend. */
  ghost predicate NonemptyBut(steps: seq<Step>, going: bool) {
    forall i :: 0 <= i < |steps| ==> steps[i].recs != [] || (!going && i == |steps| - 1)
  }

  lemma BeforeNext(steps: seq<Step>, step: Step, slot: nat)
    requires slot <= step.slot
    ensures Earlier(steps + [step], slot) == Earlier(steps, slot)
  {
    assert (steps + [step])[..|steps|] == steps;
  }

  lemma HasStepNext(steps: seq<Step>, step: Step, slot: nat)
    ensures HasStep(steps + [step], slot) <==> HasStep(steps, slot) || step.slot == slot
  {
    var all := steps + [step];
    assert all[|steps|] == step;
    if i :| 0 <= i < |steps| && steps[i].slot == slot {
      assert all[i].slot == slot;
    }
  }

  lemma StepsFitNext(m: Models, t: Teams, catalog: seq<int>, limit: nat, steps: seq<Step>, n: nat, step: Step)
    requires StepsFit(m, t, catalog, limit, steps, n) && step.slot == n < |CM_PHASE_TABLE|
    requires !ErrsAt(m, t, catalog, ListsOf(steps), n) && StepFits(m, t, catalog, limit, ListsOf(steps), step)
    ensures StepsFit(m, t, catalog, limit, steps + [step], n + 1)
  {
    hide ErrsAt, StepFits, ListsOf, HasStep, CM_PHASE_TABLE;
    var all := steps + [step];
    assert Earlier(steps, n) == steps;
    forall s | 0 <= s < n + 1
      ensures HasStep(all, s) <==> !ErrsAt(m, t, catalog, ListsBefore(all, s), s)
    {
      BeforeNext(steps, step, s);
      HasStepNext(steps, step, s);
      NoStepYet(steps, n);
    }
    forall i | 0 <= i < |all|
      ensures StepFits(m, t, catalog, limit, ListsBefore(all, all[i].slot), all[i])
    {
      BeforeNext(steps, step, all[i].slot);
    }
  }

  lemma NoStepYet(steps: seq<Step>, n: nat)
    requires forall i :: 0 <= i < |steps| ==> steps[i].slot < n
    ensures !HasStep(steps, n)
  {
  }

  lemma StepsFitSkip(m: Models, t: Teams, catalog: seq<int>, limit: nat, steps: seq<Step>, n: nat)
    requires StepsFit(m, t, catalog, limit, steps, n) && n < |CM_PHASE_TABLE|
    requires ErrsAt(m, t, catalog, ListsOf(steps), n)
    ensures StepsFit(m, t, catalog, limit, steps, n + 1)
  {
    hide ErrsAt, StepFits, ListsOf, HasStep;
    assert Earlier(steps, n) == steps;
    NoStepYet(steps, n);
  }

  lemma KeptLists(m: Models, t: Teams, catalog: seq<int>, steps: seq<Step>, l: Lists)
    requires Kept(m, t, catalog, steps, l)
    ensures l == ListsOf(steps)
  {
  }

  lemma StepFitsMeans(m: Models, t: Teams, catalog: seq<int>, limit: nat, l: Lists, step: Step)
    requires step.slot < |CM_PHASE_TABLE| && limit > 0
    requires IsTurn(m, limit, StateAt(t, l, step.slot), Legal(catalog, Drafted(l)), step)
    ensures StepFits(m, t, catalog, limit, l, step) && !ErrsAt(m, t, catalog, l, step.slot)
  {
    hide TopOf, Ranked;
  }

  ghost function ErringSlots(m: Models, t: Teams, catalog: seq<int>, steps: seq<Step>, n: nat): set<nat>
    requires n <= |CM_PHASE_TABLE|
  {
    set s: nat | s < n && ErrsAt(m, t, catalog, ListsBefore(steps, s), s)
  }

  /** So the steps and the erring slots are as many as the slots gone through. */
  lemma StepsAndErrors(m: Models, t: Teams, catalog: seq<int>, limit: nat, steps: seq<Step>, n: nat)
    requires StepsFit(m, t, catalog, limit, steps, n)
    ensures |steps| + |ErringSlots(m, t, catalog, steps, n)| == n
  {
    hide ErrsAt, StepFits, ListsBefore;
    var slots := seq(|steps|, i requires 0 <= i < |steps| => steps[i].slot);
    var taken := set s: nat | s < n && HasStep(steps, s);
    forall s: nat
      ensures s in slots <==> s in taken
    {
      if HasStep(steps, s) {
        var i :| 0 <= i < |steps| && steps[i].slot == s;
        assert slots[i] == s;
      }
    }
    DistinctSize(slots, taken);
    var erring := ErringSlots(m, t, catalog, steps, n);
    assert taken !! erring;
    var all: seq<nat> := seq(n, i => i);
    forall s: nat
      ensures s in all <==> s in taken + erring
    {
      if s < n {
        assert all[s] == s;
      }
    }
    DistinctSize(all, taken + erring);
  }

  /** Nothing has gone wrong so far. */
  ghost predicate OnTrack(steps: seq<Step>, l: Lists, slot: nat) {
    slot <= |CM_PHASE_TABLE| && |steps| == |All(l)| == slot && Full(l, slot)
  }

  ghost predicate Enough(m: Models, catalog: seq<int>) {
    NeverErrs(m) && |Elements(catalog) - {NO_HERO}| >= |CM_PHASE_TABLE|
  }

  lemma TurnOnTrack(steps: seq<Step>, l: Lists, slot: nat, step: Step)
    requires slot < |CM_PHASE_TABLE| && OnTrack(steps, l, slot)
    requires step.recs != [] && step.phase == CM_PHASE_TABLE[slot]
    ensures OnTrack(steps + [step], Added(l, step.phase, step.recs[0].hero), slot + 1)
  {
    hide Distinct, Drafted, Full, Added;
    AddedDistinctExactly(l, step.phase, step.recs[0].hero);
    AddedFull(l, slot, step.phase, step.recs[0].hero);
  }

  /** With enough heroes and no errors there is something to recommend. */
  lemma SomethingToRecommend(m: Models, catalog: seq<int>, steps: seq<Step>, l: Lists, slot: nat, st: DraftState)
    requires Enough(m, catalog) && OnTrack(steps, l, slot) && slot < |CM_PHASE_TABLE|
    ensures var legal := Legal(catalog, Drafted(l));
            |legal| > 0 && m.built(st, legal) && m.imitation(st, legal).Scores? && |m.imitation(st, legal).scores| > 0
  {
    SomeLegal(catalog, l, Elements(catalog) - {NO_HERO});
    assert Answers(m, st, Legal(catalog, Drafted(l)));
  }

  /** What the loop keeps. */
  ghost predicate LoopInv(m: Models, t: Teams, catalog: seq<int>, limit: nat, steps: seq<Step>, l: Lists, slot: nat,
      going: bool) {
    && slot <= |CM_PHASE_TABLE| && Kept(m, t, catalog, steps, l)
    && StepsFit(m, t, catalog, limit, steps, slot) && NonemptyBut(steps, going)
    && (!going ==> steps != [] && steps[|steps| - 1].recs == [] && slot == steps[|steps| - 1].slot + 1)
    && (Enough(m, catalog) ==> going && OnTrack(steps, l, slot))
  }

  lemma LoopStart(m: Models, t: Teams, catalog: seq<int>, limit: nat)
    ensures LoopInv(m, t, catalog, limit, [], Lists([], [], [], []), 0, true)
  {
    NothingYet(m, t, catalog);
  }

  lemma LoopSkip(m: Models, t: Teams, catalog: seq<int>, limit: nat, steps: seq<Step>, l: Lists, slot: nat,
      st: DraftState, legal: seq<int>)
    requires LoopInv(m, t, catalog, limit, steps, l, slot, true) && slot < |CM_PHASE_TABLE|
    requires st == StateAt(t, l, slot) && legal == Legal(catalog, Drafted(l))
    requires |legal| > 0 && (!m.built(st, legal) || m.imitation(st, legal).Fails?)
    ensures LoopInv(m, t, catalog, limit, steps, l, slot + 1, true)
  {
    hide Kept, StepsFit, OnTrack, Enough, NonemptyBut, Legal, ListsOf, Drafted;
    KeptLists(m, t, catalog, steps, l);
    StepsFitSkip(m, t, catalog, limit, steps, slot);
    if Enough(m, catalog) {
      SomethingToRecommend(m, catalog, steps, l, slot, st);
    }
  }

  /** A step of the draft: the answer for the heroes legal in the state. */
  ghost predicate IsTurn(m: Models, limit: nat, st: DraftState, legal: seq<int>, step: Step) {
    && step.slot < |CM_PHASE_TABLE| && step.phase == CM_PHASE_TABLE[step.slot]
    && (legal == [] ==> step.recs == [] && !step.usedValueModel)
    && (legal != [] ==>
          && m.built(st, legal) && m.imitation(st, legal).Scores? && (step.usedValueModel <==> m.value.Some?)
          && TopOf(step.recs, Ranked(m, st, legal))
          && var n := |m.imitation(st, legal).scores|; |step.recs| == if limit > n then n else limit)
  }

  lemma LoopTurn(m: Models, t: Teams, catalog: seq<int>, limit: nat, steps: seq<Step>, l: Lists, st: DraftState,
      legal: seq<int>, step: Step)
    requires LoopInv(m, t, catalog, limit, steps, l, step.slot, true) && limit > 0 && step.slot < |CM_PHASE_TABLE|
    requires st == StateAt(t, l, step.slot) && legal == Legal(catalog, Drafted(l)) && IsTurn(m, limit, st, legal, step)
    ensures LoopInv(m, t, catalog, limit, steps + [step],
              if step.recs != [] then Added(l, step.phase, step.recs[0].hero) else l, step.slot + 1, step.recs != [])
  {
    hide Kept, StepsFit, OnTrack, Enough, Legal, ListsOf, Drafted, TopOf, Ranked, ErrsAt, StepFits, Added, BestChoice;
    hide StateAt;
    KeptLists(m, t, catalog, steps, l);
    StepFitsMeans(m, t, catalog, limit, l, step);
    StepsFitNext(m, t, catalog, limit, steps, step.slot, step);
    TopIsBest(m, t, catalog, l, step);
    TurnKept(m, t, catalog, steps, l, step);
    if Enough(m, catalog) {
      SomethingToRecommend(m, catalog, steps, l, step.slot, st);
      TurnOnTrack(steps, l, step.slot, step);
    }
  }

  lemma LoopEnd(m: Models, t: Teams, catalog: seq<int>, limit: nat, steps: seq<Step>, l: Lists, slot: nat, going: bool)
    requires LoopInv(m, t, catalog, limit, steps, l, slot, going) && (slot == |CM_PHASE_TABLE| || !going)
    ensures slot == if steps != [] && steps[|steps| - 1].recs == [] then steps[|steps| - 1].slot + 1 else 24
    ensures StepsFit(m, t, catalog, limit, steps, slot) && |steps| + |ErringSlots(m, t, catalog, steps, slot)| == slot
    ensures forall i :: 0 <= i < |steps| - 1 ==> steps[i].recs != []
    ensures AllBest(m, t, catalog, steps) && l == ListsOf(steps) && Drafted(l) == Chosen(steps)
    ensures (Sound(catalog, l) <==> AllLegal(catalog, steps)) && (WellBehaved(m) ==> AllLegal(catalog, steps))
    ensures Enough(m, catalog) ==>
              |steps| == 24 && |l.radiantPicks| == |l.direPicks| == 5 && |l.radiantBans| == |l.direBans| == 7
  {
    hide StepsFit, OnTrack, Enough, ErringSlots, AllBest, AllLegal, Sound, Chosen, WellBehaved, Drafted, ListsOf;
    StepsAndErrors(m, t, catalog, limit, steps, slot);
    if Enough(m, catalog) {
      Complete(steps, l);
    }
  }

  lemma Complete(steps: seq<Step>, l: Lists)
    requires OnTrack(steps, l, |CM_PHASE_TABLE|)
    ensures |steps| == 24 && |l.radiantPicks| == |l.direPicks| == 5 && |l.radiantBans| == |l.direBans| == 7
  {
    hide SlotsOf;
    CmSlots();
  }

  // ----- The simulation -----

  /** For any catalog and any models, each choice is a scored hero of maximal combined score in the state that the
      acting side is in then, and goes to that side's list. All heroes picked and banned are distinct, real and in
      the catalog exactly if each choice is legal at its slot, as it is whenever the imitation scorer names only
      heroes it was asked about. A slot is left out exactly if the features or the imitation scorer err at it; only a
      step without a recommendation ends the draft early. Without errors and with enough heroes the draft is
      complete. */
  method SimulateDraft(catalog: seq<int>, m: Models, k: int, t: Teams) returns (steps: seq<Step>, l: Lists)
    ensures var slots := if steps != [] && steps[|steps| - 1].recs == [] then steps[|steps| - 1].slot + 1 else 24;
            && StepsFit(m, t, catalog, if k <= 0 then 5 else k, steps, slots)
            && |steps| + |ErringSlots(m, t, catalog, steps, slots)| == slots
    ensures forall i :: 0 <= i < |steps| - 1 ==> steps[i].recs != []
    ensures AllBest(m, t, catalog, steps) && l == ListsOf(steps) && Drafted(l) == Chosen(steps)
    ensures Sound(catalog, l) <==> AllLegal(catalog, steps)
    ensures WellBehaved(m) ==> Sound(catalog, l)
    ensures Enough(m, catalog) ==>
              |steps| == 24 && |l.radiantPicks| == |l.direPicks| == 5 && |l.radiantBans| == |l.direBans| == 7
  {
    hide LoopInv, IsTurn, StepsFit, Legal, Enough, Drafted, AllBest, AllLegal, Sound, ListsOf, WellBehaved, Added;
    hide Chosen;
    hide TopOf, FinalScores, ErringSlots, StateAt;
    var limit := if k <= 0 then 5 else k;
    steps, l := [], Lists([], [], [], []);
    LoopStart(m, t, catalog, limit);
    var slot := 0;
    var going := true;
    while slot < |CM_PHASE_TABLE| && going
      invariant slot <= |CM_PHASE_TABLE| && LoopInv(m, t, catalog, limit, steps, l, slot, going)
      decreases |CM_PHASE_TABLE| - slot, going
    {
      hide CM_PHASE_TABLE;
      var phase := CM_PHASE_TABLE[slot];
      var st := NewDraftState(phase.actingTeam == Radiant, t, l, slot);
      IsStateAt(t, l, slot, st);
      var candidates := LegalHeroes(st, catalog);
      var value := if m.value.Some? then Some(m.value.value(st, candidates)) else None;
      var result := Recommend(candidates, m.built(st, candidates), m.imitation(st, candidates), value,
          m.ensemble, limit);
      if result.Error? {
        LoopSkip(m, t, catalog, limit, steps, l, slot, st, candidates);
        slot := slot + 1;
        continue;
      }
      var step := Step(slot, phase, result.recs, result.usedValueModel);
      IsTurnMeans(m, limit, st, candidates, step);
      LoopTurn(m, t, catalog, limit, steps, l, st, candidates, step);
      if |result.recs| == 0 {
        going := false;
      } else {
        l := Added(l, phase, result.recs[0].hero);
      }
      steps := steps + [step];
      slot := slot + 1;
    }
    LoopEnd(m, t, catalog, limit, steps, l, slot, going);
  }

  lemma IsStateAt(t: Teams, l: Lists, slot: nat, st: DraftState)
    requires slot < |CM_PHASE_TABLE| && st.drafted == Drafted(l) && st.slot == slot && st.patch == t.patch
    requires var radiant := CM_PHASE_TABLE[slot].actingTeam == Radiant;
             && (if radiant then st.us else st.them) ==
                  TeamSlot(t.radiantId, t.radiantRoster, l.radiantPicks, l.radiantBans)
             && (if radiant then st.them else st.us) == TeamSlot(t.direId, t.direRoster, l.direPicks, l.direBans)
    ensures st == StateAt(t, l, slot)
  {
    hide Drafted, CM_PHASE_TABLE;
  }

  lemma IsTurnMeans(m: Models, limit: nat, st: DraftState, legal: seq<int>, step: Step)
    requires step.slot < |CM_PHASE_TABLE| && step.phase == CM_PHASE_TABLE[step.slot]
    requires |legal| == 0 ==> step.recs == [] && !step.usedValueModel
    requires |legal| > 0 ==>
               && m.built(st, legal) && m.imitation(st, legal).Scores? && (step.usedValueModel <==> m.value.Some?)
               && TopOf(step.recs, FinalScores(m.ensemble, m.imitation(st, legal).scores, ValueAnswer(m, st, legal)))
               && var n := |m.imitation(st, legal).scores|; |step.recs| == if limit > n then n else limit
    ensures IsTurn(m, limit, st, legal, step)
  {
    hide TopOf, FinalScores, CM_PHASE_TABLE;
  }
}
