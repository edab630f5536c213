/** Ranking heroes for a draft (go-analysis/internal/recommend/recommender.go:62-131, ensemble.go:31-54).
    Scores are real numbers; NaN and rounding are not part of this model. */
module Recommender {
  import opened Decimal
  import opened Sequences

  datatype Score = Score(hero: int, value: real)

  datatype Ensemble = Ensemble(imitationWeight: real, valueWeight: real)

  const BALANCED_ENSEMBLE := Ensemble(0.7, 0.3)

  // ----- Combining -----

  /** The value model's score of a hero; if it gives several, the last one. */
  ghost function ValueOf(value: seq<Score>, hero: int): Option<real> {
    if value == [] then None
    else if value[|value| - 1].hero == hero then Some(value[|value| - 1].value)
    else ValueOf(value[..|value| - 1], hero)
  }

  ghost predicate PassedThrough(e: Ensemble, value: seq<Score>) {
    e.valueWeight == 0.0 || |value| == 0
  }

  ghost function CombinedValue(e: Ensemble, s: Score, value: seq<Score>): real {
    e.imitationWeight * s.value
      + e.valueWeight * match ValueOf(value, s.hero) { case Some(v) => v case None => s.value }
  }

  ghost function Combined(e: Ensemble, imitation: seq<Score>, value: seq<Score>): (out: seq<Score>)
    ensures |out| == |imitation|
    ensures forall i :: 0 <= i < |out| ==> out[i].hero == imitation[i].hero
  {
    if PassedThrough(e, value) then imitation
    else
      seq(|imitation|, i requires 0 <= i < |imitation| =>
        Score(imitation[i].hero, CombinedValue(e, imitation[i], value)))
  }

  method Combine(e: Ensemble, imitation: seq<Score>, value: seq<Score>) returns (out: seq<Score>)
    ensures out == Combined(e, imitation, value)
    ensures |out| == |imitation| && forall i :: 0 <= i < |out| ==> out[i].hero == imitation[i].hero
    ensures e.valueWeight == 0.0 || |value| == 0 ==> out == imitation
  {
    if e.valueWeight == 0.0 || |value| == 0 {
      return imitation;
    }
    var valueMap: map<int, real> := map[];
    for i := 0 to |value|
      invariant forall h :: h in valueMap <==> ValueOf(value[..i], h).Some?
      invariant forall h :: h in valueMap ==> valueMap[h] == ValueOf(value[..i], h).value
    {
      assert value[..i + 1][..i] == value[..i];
      valueMap := valueMap[value[i].hero := value[i].value];
    }
    assert value[..|value|] == value;
    out := [];
    for i := 0 to |imitation|
      invariant |out| == i && forall j :: 0 <= j < i ==>
          out[j] == Score(imitation[j].hero, CombinedValue(e, imitation[j], value))
    {
      var s := imitation[i];
      var v := if s.hero in valueMap then valueMap[s.hero] else s.value;
      out := out + [Score(s.hero, e.imitationWeight * s.value + e.valueWeight * v)];
    }
  }

  /** A hero the value model does not score keeps its imitation score exactly if the weights add up to one (or
      the score is zero); the balanced weights do. */
  lemma UnscoredKeptExactly(e: Ensemble, s: Score, value: seq<Score>)
    requires ValueOf(value, s.hero).None?
    ensures CombinedValue(e, s, value) == s.value <==> e.imitationWeight + e.valueWeight == 1.0 || s.value == 0.0
    ensures CombinedValue(BALANCED_ENSEMBLE, s, value) == s.value
  {
    var total := e.imitationWeight + e.valueWeight;
    assert CombinedValue(e, s, value) == total * s.value;
    if s.value != 0.0 && total * s.value == s.value {
      assert (total - 1.0) * s.value == 0.0;
    }
  }

  lemma Scaled(w: real, x: real, y: real)
    requires w >= 0.0 && x <= y
    ensures w * x <= w * y
  {
  }

  lemma Weighted(e: Ensemble, x: real, u: real, y: real, v: real)
    requires e.imitationWeight >= 0.0 && e.valueWeight >= 0.0 && x <= y && u <= v
    ensures e.imitationWeight * x + e.valueWeight * u <= e.imitationWeight * y + e.valueWeight * v
  {
    Scaled(e.imitationWeight, x, y);
    Scaled(e.valueWeight, u, v);
  }

  /** A hero that both models put at least as high as another is combined at least as high. */
  lemma AgreementKept(e: Ensemble, s: Score, t: Score, value: seq<Score>)
    requires e.imitationWeight >= 0.0 && e.valueWeight >= 0.0
    requires ValueOf(value, s.hero).Some? && ValueOf(value, t.hero).Some?
    requires s.value <= t.value && ValueOf(value, s.hero).value <= ValueOf(value, t.hero).value
    ensures CombinedValue(e, s, value) <= CombinedValue(e, t, value)
  {
    Weighted(e, s.value, ValueOf(value, s.hero).value, t.value, ValueOf(value, t.hero).value);
  }

  /** A hero's combined score rises with its imitation score by that model's weight, if the value model scores it. */
  lemma ImitationWeighs(e: Ensemble, imitation: seq<Score>, value: seq<Score>, i: nat, d: real)
    requires i < |imitation| && ValueOf(value, imitation[i].hero).Some? && e.valueWeight != 0.0
    ensures var s := imitation[i];
            Combined(e, imitation[i := Score(s.hero, s.value + d)], value)[i].value ==
              Combined(e, imitation, value)[i].value + e.imitationWeight * d
  {
    var s := imitation[i];
    Distribute(e.imitationWeight, s.value, d);
    var v := ValueOf(value, s.hero).value;
    var more := Score(s.hero, s.value + d);
    assert CombinedValue(e, more, value) == e.imitationWeight * more.value + e.valueWeight * v;
    assert CombinedValue(e, s, value) == e.imitationWeight * s.value + e.valueWeight * v;
  }

  /** It rises with its value score by the value model's weight; that is the score the model gives it last. */
  lemma ValueWeighs(e: Ensemble, imitation: seq<Score>, value: seq<Score>, i: nat, v: real, d: real)
    requires i < |imitation| && e.valueWeight != 0.0
    ensures var h := imitation[i].hero;
            Combined(e, imitation, value + [Score(h, v + d)])[i].value ==
              Combined(e, imitation, value + [Score(h, v)])[i].value + e.valueWeight * d
  {
    var s := imitation[i];
    Distribute(e.valueWeight, v, d);
    var more, less := value + [Score(s.hero, v + d)], value + [Score(s.hero, v)];
    assert ValueOf(more, s.hero) == Some(v + d) && ValueOf(less, s.hero) == Some(v);
    assert CombinedValue(e, s, more) == e.imitationWeight * s.value + e.valueWeight * (v + d);
    assert CombinedValue(e, s, less) == e.imitationWeight * s.value + e.valueWeight * v;
  }

  /** Scores of other heroes do not count. */
  lemma OthersDoNotWeigh(e: Ensemble, s: Score, value: seq<Score>, other: Score)
    requires other.hero != s.hero
    ensures CombinedValue(e, s, value + [other]) == CombinedValue(e, s, value)
  {
    assert (value + [other])[..|value|] == value;
  }

  lemma Distribute(w: real, x: real, d: real)
    ensures w * (x + d) == w * x + w * d
  {
  }

  /** The balanced weights give the imitation model seven parts and the value model three: of two heroes both score,
      the first is put at least as high exactly if its lead with the one outweighs its lag with the other so. */
  lemma BalancedExactly(s: Score, t: Score, value: seq<Score>)
    requires ValueOf(value, s.hero).Some? && ValueOf(value, t.hero).Some?
    ensures CombinedValue(BALANCED_ENSEMBLE, s, value) >= CombinedValue(BALANCED_ENSEMBLE, t, value) <==>
              7.0 * (s.value - t.value) >= 3.0 * (ValueOf(value, t.hero).value - ValueOf(value, s.hero).value)
  {
    var u, v := ValueOf(value, s.hero).value, ValueOf(value, t.hero).value;
    assert CombinedValue(BALANCED_ENSEMBLE, s, value) == 0.7 * s.value + 0.3 * u;
    assert CombinedValue(BALANCED_ENSEMBLE, t, value) == 0.7 * t.value + 0.3 * v;
  }

  /** So where the models disagree by as much, the imitation model decides. */
  lemma ImitationDecides(s: Score, t: Score, value: seq<Score>)
    requires ValueOf(value, s.hero).Some? && ValueOf(value, t.hero).Some?
    requires s.value > t.value
    requires s.value - t.value >= ValueOf(value, t.hero).value - ValueOf(value, s.hero).value
    ensures CombinedValue(BALANCED_ENSEMBLE, s, value) > CombinedValue(BALANCED_ENSEMBLE, t, value)
  {
    BalancedExactly(t, s, value);
  }

  // ----- Sorting -----

  ghost predicate Descending(scores: seq<Score>) {
    forall i, j :: 0 <= i < j < |scores| ==> scores[i].value >= scores[j].value
  }

  lemma InsertedDescending(out: seq<Score>, p: nat, s: Score)
    requires Descending(out) && p <= |out|
    requires p > 0 ==> out[p - 1].value >= s.value
    requires p < |out| ==> s.value >= out[p].value
    ensures Descending(out[..p] + [s] + out[p..])
  {
    var all := out[..p] + [s] + out[p..];
    forall i, j | 0 <= i < j < |all|
      ensures all[i].value >= all[j].value
    {
      if j < p {
        assert all[i].value == out[i].value >= out[j].value == all[j].value;
      } else if i > p {
        assert all[i].value == out[i - 1].value >= out[j - 1].value == all[j].value;
      } else {
        if i < p {
          assert all[i].value == out[i].value >= out[p - 1].value;
        }
        assert all[i].value >= s.value;
        if j > p {
          assert out[p].value >= out[j - 1].value == all[j].value;
        }
      }
    }
  }

  /** Stands in for sort.Slice, which promises a sorted permutation, of equal scores in any order. */
  method SortByValue(scores: seq<Score>) returns (out: seq<Score>)
    ensures multiset(out) == multiset(scores) && Descending(out)
  {
    out := [];
    for i := 0 to |scores|
      invariant multiset(out) == multiset(scores[..i]) && Descending(out)
    {
      var s := scores[i];
      var p := |out|;
      while p > 0 && s.value > out[p - 1].value
        invariant 0 <= p <= |out| && (p < |out| ==> s.value >= out[p].value)
      {
        p := p - 1;
      }
      InsertedDescending(out, p, s);
      InsertedAll(out, p, s);
      assert scores[..i + 1] == scores[..i] + [s];
      out := out[..p] + [s] + out[p..];
    }
    assert scores[..|scores|] == scores;
  }

  // ----- Recommending -----

  /** What a scorer answers for the feature vectors of some candidates. */
  datatype Answer = Scores(scores: seq<Score>) | Fails

  datatype Recommendation = Recommendation(hero: int, score: real, rank: nat)

  datatype Result = Error | Ok(recs: seq<Recommendation>, usedValueModel: bool, warned: bool)

  /** The scores that are ranked; a value model that fails is left out. */
  ghost function FinalScores(e: Ensemble, imitation: seq<Score>, value: Option<Answer>): seq<Score> {
    Combined(e, imitation, if value.Some? && value.value.Scores? then value.value.scores else [])
  }

  /** The k best: ranked from 1 and by score, each a scored hero as often as it is scored, and nothing left out
      scores higher. */
  ghost predicate TopOf(recs: seq<Recommendation>, scores: seq<Score>) {
    && |recs| <= |scores|
    && (forall i :: 0 <= i < |recs| ==> recs[i].rank == i + 1)
    && (forall i, j :: 0 <= i < j < |recs| ==> recs[i].score >= recs[j].score)
    && exists rest: seq<Score> ::
         && multiset(ScoresOf(recs)) + multiset(rest) == multiset(scores)
         && forall i, j :: 0 <= i < |recs| && 0 <= j < |rest| ==> recs[i].score >= rest[j].value
  }

  ghost function ScoresOf(recs: seq<Recommendation>): (scores: seq<Score>)
    ensures |scores| == |recs|
  {
    seq(|recs|, i requires 0 <= i < |recs| => Score(recs[i].hero, recs[i].score))
  }

  /** candidates: the legal heroes; built: whether their feature vectors could be built. */
  method Recommend(candidates: seq<int>, built: bool, imitation: Answer, value: Option<Answer>, e: Ensemble, k: int)
    returns (r: Result)
    ensures r.Error? <==> |candidates| > 0 && (!built || imitation.Fails?)
    ensures |candidates| == 0 ==> r == Ok([], false, false)
    ensures r.Ok? && |candidates| > 0 ==>
              && TopOf(r.recs, FinalScores(e, imitation.scores, value))
              && |r.recs| == (if k <= 0 || k > |imitation.scores| then |imitation.scores| else k)
              && (r.usedValueModel <==> value.Some?) && (r.warned <==> value == Some(Fails))
  {
    if |candidates| == 0 {
      return Ok([], false, false);
    }
    if !built {
      return Error;
    }
    if imitation.Fails? {
      return Error;
    }
    var valueScores: seq<Score>, warned := [], false;
    if value.Some? {
      if value.value.Fails? {
        warned := true;
      } else {
        valueScores := value.value.scores;
      }
    }
    var combined := Combine(e, imitation.scores, valueScores);
    var final := SortByValue(combined);
    assert |final| == |multiset(final)| == |multiset(combined)| == |combined|;
    var n := if k <= 0 || k > |final| then |final| else k;
    var recs := [];
    for i := 0 to n
      invariant |recs| == i && forall j :: 0 <= j < i ==>
          recs[j] == Recommendation(final[j].hero, final[j].value, j + 1)
    {
      recs := recs + [Recommendation(final[i].hero, final[i].value, i + 1)];
    }
    IsTop(recs, final, n, combined);
    return Ok(recs, value.Some?, warned);
  }

  lemma IsTop(recs: seq<Recommendation>, final: seq<Score>, n: nat, combined: seq<Score>)
    requires Descending(final) && multiset(final) == multiset(combined) && n == |recs| <= |final| == |combined|
    requires forall j :: 0 <= j < n ==> recs[j] == Recommendation(final[j].hero, final[j].value, j + 1)
    ensures TopOf(recs, combined)
  {
    assert ScoresOf(recs) == final[..n];
    assert final == final[..n] + final[n..];
    var rest := final[n..];
    assert multiset(ScoresOf(recs)) + multiset(rest) == multiset(combined);
    forall i, j | 0 <= i < |recs| && 0 <= j < |rest|
      ensures recs[i].score >= rest[j].value
    {
      assert rest[j] == final[n + j];
    }
  }

  /** The first recommendation is a scored hero of maximal combined score. */
  lemma FirstIsMaximal(recs: seq<Recommendation>, scores: seq<Score>)
    requires TopOf(recs, scores) && recs != []
    ensures Score(recs[0].hero, recs[0].score) in scores
    ensures forall s :: s in scores ==> s.value <= recs[0].score
  {
    var rest: seq<Score> :|
      && multiset(ScoresOf(recs)) + multiset(rest) == multiset(scores)
      && forall i, j :: 0 <= i < |recs| && 0 <= j < |rest| ==> recs[i].score >= rest[j].value;
    assert ScoresOf(recs)[0] in multiset(scores);
    forall s | s in scores
      ensures s.value <= recs[0].score
    {
      assert s in multiset(scores);
      assert s in multiset(ScoresOf(recs)) || s in multiset(rest);
      if s in ScoresOf(recs) {
        var i :| 0 <= i < |recs| && ScoresOf(recs)[i] == s;
      } else {
        var j :| 0 <= j < |rest| && rest[j] == s;
      }
    }
  }
}
