/** Model evaluation over attacked texts, the max-score ensemble, and what the reports
    promise about each other. */
module ModelEvaluation {
  import opened Characters
  import opened Sequences
  import opened Normalization
  import opened EvaluationMetrics
  import opened Wrappers

  type Model = Text -> real

  type Attack = Text -> Text

  datatype EvaluationCase = EvaluationCase(caseId: string, text: Text, truth: int, category: string)

  datatype NamedAttack = NamedAttack(name: string, apply: Attack)

  // ---------------------------------------------------------------- evaluate_model

  function Score(model: Model, c: EvaluationCase, a: NamedAttack): real {
    model(NormalizeText(a.apply(c.text)))
  }

  function ScoreOne(model: Model, c: EvaluationCase, a: NamedAttack): ScoredCase {
    ScoredCase(c.caseId, c.truth, c.category, a.name, Score(model, c, a))
  }

  /** All attacks of one case. */
  function ScoreCase(model: Model, c: EvaluationCase, attacks: seq<NamedAttack>): (r: seq<ScoredCase>)
    ensures |r| == |attacks|
  {
    seq(|attacks|, i requires 0 <= i < |attacks| => ScoreOne(model, c, attacks[i]))
  }

  function ScoreAll(model: Model, cases: seq<EvaluationCase>, attacks: seq<NamedAttack>): seq<ScoredCase> {
    if cases == [] then []
    else ScoreAll(model, cases[..|cases| - 1], attacks) + ScoreCase(model, cases[|cases| - 1], attacks)
  }

  predicate InRange(scored: seq<ScoredCase>) {
    forall x :: x in scored ==> 0.0 <= x.score <= 1.0
  }

  /** One item for each case and attack, case by case: the label and category of the case, and
      the model's score of the normalised attacked text. */
  predicate AreScores(scored: seq<ScoredCase>, model: Model, cases: seq<EvaluationCase>, attacks: seq<NamedAttack>) {
    && |scored| == |cases| * |attacks|
    && forall i, j :: 0 <= i < |cases| && 0 <= j < |attacks| ==> IsScoreAt(scored, model, cases, attacks, i, j)
  }

  predicate IsScoreAt(scored: seq<ScoredCase>, model: Model, cases: seq<EvaluationCase>, attacks: seq<NamedAttack>,
                      i: nat, j: nat)
    requires i < |cases| && j < |attacks|
  {
    && i * |attacks| + j < |scored|
    && scored[i * |attacks| + j] == ScoredCase(cases[i].caseId, cases[i].truth, cases[i].category, attacks[j].name,
                                               model(NormalizeText(attacks[j].apply(cases[i].text))))
  }

  lemma {:induction false} ScoresByPlace(model: Model, cases: seq<EvaluationCase>, attacks: seq<NamedAttack>)
    ensures AreScores(ScoreAll(model, cases, attacks), model, cases, attacks)
    decreases |cases|
  {
    if cases == [] {
    } else {
      ScoresByPlace(model, cases[..|cases| - 1], attacks);
      LastCasePlaces(model, cases, attacks, ScoreAll(model, cases[..|cases| - 1], attacks));
    }
  }

  lemma LastCasePlaces(model: Model, cases: seq<EvaluationCase>, attacks: seq<NamedAttack>, before: seq<ScoredCase>)
    requires cases != [] && AreScores(before, model, cases[..|cases| - 1], attacks)
    ensures AreScores(before + ScoreCase(model, cases[|cases| - 1], attacks), model, cases, attacks)
  {
    var n, m := |cases| - 1, |attacks|;
    var last := ScoreCase(model, cases[n], attacks);
    assert |before + last| == |cases| * m by { assert |cases| * m == n * m + m; }
    forall i, j | 0 <= i < |cases| && 0 <= j < m ensures IsScoreAt(before + last, model, cases, attacks, i, j) {
      if i < n {
        assert IsScoreAt(before, model, cases[..n], attacks, i, j);
      } else {
        assert (before + last)[|before| + j] == last[j];
      }
    }
  }

  /** An ensemble adds the versions of its members to the report. */
  method EvaluateModel(version: string, memberVersions: Option<seq<string>>, model: Model, cases: seq<EvaluationCase>,
                       threshold: real, attacks: seq<NamedAttack>, candidates: seq<real>)
    returns (r: Result<Report, Error>)
    ensures !InRange(ScoreAll(model, cases, attacks)) ==> r.Err? && r.error.ScoreOutOfRange?
    ensures InRange(ScoreAll(model, cases, attacks)) ==>
      && (r.Ok? <==> CLEAN in Names(ScoreAll(model, cases, attacks), ByAttack))
      && (r.Err? ==> r.error == MissingCleanSlice)
    ensures r.Ok? ==>
      && IsReport(r.value, ScoreAll(model, cases, attacks), threshold)
      && r.value.modelVersion == version && r.value.memberVersions == memberVersions
      && |r.value.thresholdAnalysis| == |candidates|
      && forall i :: 0 <= i < |candidates| ==>
           r.value.thresholdAnalysis[i] == MetricsOf(ScoreAll(model, cases, attacks), candidates[i])
    ensures r.Ok? ==>
      && ReportCounts(r.value, r.value.predictions, threshold, candidates)
      && AreScores(r.value.predictions, model, cases, attacks)
      && forall x :: x in r.value.predictions ==> 0.0 <= x.score <= 1.0
    ensures r.Err? && r.error.ScoreOutOfRange? ==>
      !(0.0 <= r.error.score <= 1.0)
      && exists i, j :: 0 <= i < |cases| && 0 <= j < |attacks| && r.error.score == Score(model, cases[i], attacks[j])
  {
    var scored: seq<ScoredCase> := [];
    for i := 0 to |cases|
      invariant scored == ScoreAll(model, cases[..i], attacks) && InRange(scored)
    {
      ghost var before := scored;
      assert cases[..i + 1][..i] == cases[..i];
      for j := 0 to |attacks|
        invariant scored == before + ScoreCase(model, cases[i], attacks)[..j] && InRange(scored)
      {
        var item := ScoreOne(model, cases[i], attacks[j]);
        if !(0.0 <= item.score <= 1.0) {
          OneOutOfRange(model, cases, i, attacks, j);
          return Err(ScoreOutOfRange(item.score));
        }
        scored := scored + [item];
      }
    }
    assert cases[..|cases|] == cases;
    ScoresByPlace(model, cases, attacks);
    r := EvaluateScores(version, scored, threshold, candidates);
    if r.Ok? && memberVersions.Some? {
      r := Ok(r.value.(memberVersions := memberVersions));
    }
  }

  lemma {:induction false} PrefixInAll(model: Model, cases: seq<EvaluationCase>, i: nat, attacks: seq<NamedAttack>)
    requires i < |cases|
    ensures forall x :: x in ScoreCase(model, cases[i], attacks) ==> x in ScoreAll(model, cases, attacks)
    decreases |cases|
  {
    var n := |cases| - 1;
    if i < n { PrefixInAll(model, cases[..n], i, attacks); }
  }

  lemma OneOutOfRange(model: Model, cases: seq<EvaluationCase>, i: nat, attacks: seq<NamedAttack>, j: nat)
    requires i < |cases| && j < |attacks| && !(0.0 <= ScoreOne(model, cases[i], attacks[j]).score <= 1.0)
    ensures !InRange(ScoreAll(model, cases, attacks))
  {
    PrefixInAll(model, cases, i, attacks);
    assert ScoreCase(model, cases[i], attacks)[j] == ScoreOne(model, cases[i], attacks[j]);
  }

  // ---------------------------------------------------------------- the ensemble

  /** The largest member score. */
  function MaxScore(models: seq<Model>, text: Text): (r: real)
    requires models != []
    ensures forall i :: 0 <= i < |models| ==> models[i](text) <= r
    ensures exists i :: 0 <= i < |models| && models[i](text) == r
  {
    if |models| == 1 then models[0](text)
    else
      var rest := MaxScore(models[1..], text);
      if models[0](text) >= rest then models[0](text) else rest
  }

  /** Two models at least, or the constructor refuses. */
  function Ensemble(models: seq<Model>): Result<Model, Error> {
    if |models| < 2 then Err(TooFewModels) else Ok(text => MaxScore(models, text))
  }

  // ---------------------------------------------------------------- domination

  predicate Raised(low: ScoredCase, high: ScoredCase) {
    low.score <= high.score && high == low.(score := high.score)
  }

  /** The same items with scores that are at least as high. */
  predicate Dominated(low: seq<ScoredCase>, high: seq<ScoredCase>) {
    |low| == |high| && forall i :: 0 <= i < |low| ==> Raised(low[i], high[i])
  }

  /** No fewer positive predictions in either class, and the classes are the same. */
  predicate MorePositive(a: Confusion, b: Confusion) {
    && a.tp <= b.tp && a.fp <= b.fp
    && a.tp + a.fn == b.tp + b.fn && a.fp + a.tn == b.fp + b.tn
  }

  lemma {:induction false} TallyMonotone(truths: seq<int>, low: seq<real>, high: seq<real>, threshold: real)
    requires |truths| == |low| == |high|
    requires forall i :: 0 <= i < |low| ==> low[i] <= high[i]
    ensures MorePositive(Tally(truths, low, threshold), Tally(truths, high, threshold))
  {
    if truths == [] {
    } else {
      var n := |truths| - 1;
      TallyMonotone(truths[..n], low[..n], high[..n], threshold);
    }
  }

  lemma RatioMonotone(a: nat, b: nat, n: nat)
    requires a <= b <= n
    ensures Ratio(a, n) <= Ratio(b, n)
  {
    if n > 0 {
      var x, y := a as real / n as real, b as real / n as real;
      assert x * n as real <= y * n as real;
    }
  }

  predicate AtLeastAsAlert(a: Metrics, b: Metrics) {
    a.recall <= b.recall && a.falsePositiveRate <= b.falsePositiveRate
  }

  lemma MetricsMonotone(low: seq<ScoredCase>, high: seq<ScoredCase>, threshold: real)
    requires low != [] && Dominated(low, high)
    ensures AtLeastAsAlert(MetricsOf(low, threshold), MetricsOf(high, threshold))
  {
    assert Labels(low) == Labels(high);
    TallyMonotone(Labels(low), Scores(low), Scores(high), threshold);
    var a, b := TallyCases(low, threshold), TallyCases(high, threshold);
    RatioMonotone(a.tp, b.tp, b.tp + b.fn);
    RatioMonotone(a.fp, b.fp, b.fp + b.tn);
  }

  lemma RaisedAppend(low: seq<ScoredCase>, high: seq<ScoredCase>, x: ScoredCase, y: ScoredCase)
    requires Dominated(low, high) && Raised(x, y)
    ensures Dominated(low + [x], high + [y])
  {
  }

  lemma {:induction false} SliceDominated(low: seq<ScoredCase>, high: seq<ScoredCase>, attribute: Attribute, name: string)
    requires Dominated(low, high)
    ensures Dominated(Slice(low, attribute, name), Slice(high, attribute, name))
  {
    if low == [] {
    } else {
      var n := |low| - 1;
      SliceDominated(low[..n], high[..n], attribute, name);
      RaisedAppend(Slice(low[..n], attribute, name), Slice(high[..n], attribute, name), low[n], high[n]);
    }
  }

  lemma SameNames(low: seq<ScoredCase>, high: seq<ScoredCase>, attribute: Attribute)
    requires Dominated(low, high)
    ensures Names(low, attribute) == Names(high, attribute)
  {
    forall i | 0 <= i < |low| ensures Name(low[i], attribute) == Name(high[i], attribute) {
      assert Raised(low[i], high[i]);
    }
    forall name | name in Names(low, attribute) ensures name in Names(high, attribute) {
      var i :| 0 <= i < |low| && Name(low[i], attribute) == name;
      assert high[i] in high;
    }
    forall name | name in Names(high, attribute) ensures name in Names(low, attribute) {
      var i :| 0 <= i < |high| && Name(high[i], attribute) == name;
      assert low[i] in low;
    }
  }

  lemma SlicesMonotone(low: seq<ScoredCase>, high: seq<ScoredCase>, attribute: Attribute, threshold: real,
                       a: map<string, Metrics>, b: map<string, Metrics>)
    requires Dominated(low, high)
    requires AreSlices(a, low, attribute, threshold) && AreSlices(b, high, attribute, threshold)
    ensures a.Keys == b.Keys && forall name :: name in a ==> AtLeastAsAlert(a[name], b[name])
  {
    SameNames(low, high, attribute);
    forall name | name in a ensures AtLeastAsAlert(a[name], b[name]) {
      SliceDominated(low, high, attribute, name);
      MetricsMonotone(Slice(low, attribute, name), Slice(high, attribute, name), threshold);
    }
  }

  lemma WorstMonotone(a: map<string, Metrics>, b: map<string, Metrics>, low: real, high: real)
    requires CLEAN in a && CLEAN in b && a.Keys == b.Keys
    requires forall name :: name in a ==> a[name].recall <= b[name].recall
    requires IsWorst(low, a) && IsWorst(high, b)
    ensures low <= high
  {
  }

  /** Higher scores on the same items: no recall falls, overall, in a slice or in the
      worst attack, and no false-positive rate falls. */
  lemma ReportsMonotone(low: seq<ScoredCase>, high: seq<ScoredCase>, threshold: real, a: Report, b: Report)
    requires Dominated(low, high)
    requires IsReport(a, low, threshold) && IsReport(b, high, threshold)
    ensures AtLeastAsAlert(a.overall, b.overall)
    ensures a.byAttack.Keys == b.byAttack.Keys && a.byCategory.Keys == b.byCategory.Keys
    ensures forall name :: name in a.byAttack ==> AtLeastAsAlert(a.byAttack[name], b.byAttack[name])
    ensures forall name :: name in a.byCategory ==> AtLeastAsAlert(a.byCategory[name], b.byCategory[name])
    ensures a.worstAttackRecall <= b.worstAttackRecall
  {
    MetricsMonotone(low, high, threshold);
    SlicesMonotone(low, high, ByAttack, threshold, a.byAttack, b.byAttack);
    SlicesMonotone(low, high, ByCategory, threshold, a.byCategory, b.byCategory);
    WorstMonotone(a.byAttack, b.byAttack, a.worstAttackRecall, b.worstAttackRecall);
  }

  lemma {:induction false} EnsembleDominates(models: seq<Model>, member: nat, cases: seq<EvaluationCase>, attacks: seq<NamedAttack>)
    requires member < |models|
    ensures Dominated(ScoreAll(models[member], cases, attacks), ScoreAll(text => MaxScore(models, text), cases, attacks))
    decreases |cases|
  {
    if cases == [] {
    } else {
      EnsembleDominates(models, member, cases[..|cases| - 1], attacks);
    }
  }

  /** On the same cases, attacks and threshold, an ensemble is at least as alert as each
      of its members, in every slice and at its worst. */
  lemma EnsembleAtLeastAsAlert(models: seq<Model>, member: nat, cases: seq<EvaluationCase>, attacks: seq<NamedAttack>,
                               threshold: real, a: Report, b: Report)
    requires Ensemble(models).Ok? && member < |models|
    requires IsReport(a, ScoreAll(models[member], cases, attacks), threshold)
    requires IsReport(b, ScoreAll(Ensemble(models).value, cases, attacks), threshold)
    ensures AtLeastAsAlert(a.overall, b.overall)
    ensures a.byAttack.Keys == b.byAttack.Keys && a.byCategory.Keys == b.byCategory.Keys
    ensures forall name :: name in a.byAttack ==> AtLeastAsAlert(a.byAttack[name], b.byAttack[name])
    ensures forall name :: name in a.byCategory ==> AtLeastAsAlert(a.byCategory[name], b.byCategory[name])
    ensures a.worstAttackRecall <= b.worstAttackRecall
  {
    EnsembleDominates(models, member, cases, attacks);
    SameModel(models, cases, attacks);
    ReportsMonotone(ScoreAll(models[member], cases, attacks), ScoreAll(Ensemble(models).value, cases, attacks), threshold, a, b);
  }

  lemma {:induction false} SameModel(models: seq<Model>, cases: seq<EvaluationCase>, attacks: seq<NamedAttack>)
    requires |models| >= 2
    ensures ScoreAll(Ensemble(models).value, cases, attacks) == ScoreAll(text => MaxScore(models, text), cases, attacks)
    decreases |cases|
  {
    if cases == [] {
    } else {
      SameModel(models, cases[..|cases| - 1], attacks);
    }
  }

  // ---------------------------------------------------------------- conservation

  /** The confusion cells of the named slices, added up. */
  function SumSlices(scored: seq<ScoredCase>, attribute: Attribute, names: seq<string>, threshold: real): Confusion {
    if names == [] then Confusion(0, 0, 0, 0)
    else TallyCases(Slice(scored, attribute, names[0]), threshold).Plus(SumSlices(scored, attribute, names[1..], threshold))
  }

  /** One more item adds its cell once if its slice is among the names. */
  lemma {:induction false} SumSlicesAppend(s: seq<ScoredCase>, item: ScoredCase, attribute: Attribute, names: seq<string>, threshold: real)
    requires Distinct(names)
    ensures SumSlices(s + [item], attribute, names, threshold)
         == if Name(item, attribute) in names
            then SumSlices(s, attribute, names, threshold).Plus(TallyOne(item.truth, Predicted(item.score, threshold)))
            else SumSlices(s, attribute, names, threshold)
  {
    if names == [] {
    } else {
      var one := TallyOne(item.truth, Predicted(item.score, threshold));
      var first, rest := names[0], names[1..];
      SumSlicesAppend(s, item, attribute, rest, threshold);
      FirstSliceAppend(s, item, attribute, first, threshold);
      PlusSwaps(TallyCases(Slice(s, attribute, first), threshold), SumSlices(s, attribute, rest, threshold), one);
      assert first !in rest;
      assert forall n :: n in names <==> n == first || n in rest;
    }
  }

  lemma FirstSliceAppend(s: seq<ScoredCase>, item: ScoredCase, attribute: Attribute, name: string, threshold: real)
    ensures TallyCases(Slice(s + [item], attribute, name), threshold)
         == if Name(item, attribute) == name
            then TallyCases(Slice(s, attribute, name), threshold).Plus(TallyOne(item.truth, Predicted(item.score, threshold)))
            else TallyCases(Slice(s, attribute, name), threshold)
  {
    SliceAppend(s, item, attribute, name);
    TallyAppend(Slice(s, attribute, name), item, threshold);
  }

  lemma PlusSwaps(a: Confusion, b: Confusion, x: Confusion)
    ensures a.Plus(x).Plus(b) == a.Plus(b).Plus(x) == a.Plus(b.Plus(x))
  {
  }

  /** The cells of all slices add up to the overall cells. */
  lemma {:induction false} SliceCellsSumToOverall(scored: seq<ScoredCase>, attribute: Attribute, names: seq<string>, threshold: real)
    requires Distinct(names) && Names(scored, attribute) <= set n | n in names
    ensures SumSlices(scored, attribute, names, threshold) == TallyCases(scored, threshold)
    decreases |scored|
  {
    if scored == [] {
      NothingToSum(attribute, names, threshold);
    } else {
      var n := |scored| - 1;
      assert scored == scored[..n] + [scored[n]];
      SliceCellsSumToOverall(scored[..n], attribute, names, threshold);
      SumSlicesAppend(scored[..n], scored[n], attribute, names, threshold);
      TallyAppend(scored[..n], scored[n], threshold);
      assert Name(scored[n], attribute) in Names(scored, attribute);
    }
  }

  lemma {:induction false} NothingToSum(attribute: Attribute, names: seq<string>, threshold: real)
    ensures SumSlices([], attribute, names, threshold) == Confusion(0, 0, 0, 0)
  {
    if names == [] {
    } else {
      NothingToSum(attribute, names[1..], threshold);
    }
  }

  // ---------------------------------------------------------------- robustness summary

  predicate RecallAtLeast(c: Confusion, rate: real) {
    && rate * (c.tp + c.fn) as real <= c.tp as real
    && (c.tp + c.fn == 0 ==> rate <= 0.0)
  }

  lemma RecallOfPlus(c: Confusion, d: Confusion, rate: real)
    requires RecallAtLeast(c, rate) && RecallAtLeast(d, rate)
    ensures RecallAtLeast(c.Plus(d), rate)
  {
    var x, y := (c.tp + c.fn) as real, (d.tp + d.fn) as real;
    assert rate * (x + y) == rate * x + rate * y;
    assert (c.Plus(d).tp + c.Plus(d).fn) as real == x + y;
  }

  lemma {:induction false} RecallOfSum(scored: seq<ScoredCase>, attribute: Attribute, names: seq<string>, threshold: real, rate: real)
    requires names != []
    requires forall n :: n in names ==> RecallAtLeast(TallyCases(Slice(scored, attribute, n), threshold), rate)
    ensures RecallAtLeast(SumSlices(scored, attribute, names, threshold), rate)
  {
    var first := TallyCases(Slice(scored, attribute, names[0]), threshold);
    if |names| > 1 {
      RecallOfSum(scored, attribute, names[1..], threshold, rate);
      RecallOfPlus(first, SumSlices(scored, attribute, names[1..], threshold), rate);
    } else {
      assert SumSlices(scored, attribute, names, threshold) == first;
    }
  }

  /** `RecallAtLeast` is the recall of the report. */
  lemma RecallMeans(c: Confusion, rate: real)
    ensures rate <= Recall(c) <==> RecallAtLeast(c, rate)
  {
    if c.tp + c.fn > 0 {
      var q, n := Recall(c), (c.tp + c.fn) as real;
      assert q * n == c.tp as real;
      assert (q - rate) * n >= 0.0 <==> q >= rate;
    }
  }

  lemma {:induction false} ListOf(names: set<string>) returns (list: seq<string>)
    ensures Distinct(list) && forall n :: n in list <==> n in names
    decreases |names|
  {
    if names == {} {
      list := [];
    } else {
      var name :| name in names;
      var rest := ListOf(names - {name});
      list := [name] + rest;
    }
  }

  /** A recall that every slice reaches is reached overall. */
  lemma OverallReaches(scored: seq<ScoredCase>, attribute: Attribute, names: set<string>, threshold: real, rate: real)
    requires Names(scored, attribute) <= names && names != {}
    requires forall n :: n in names ==>
      rate <= Recall(TallyCases(Slice(scored, attribute, n), threshold))
    ensures rate <= Recall(TallyCases(scored, threshold))
  {
    var list := ListOf(names);
    forall n | n in list ensures RecallAtLeast(TallyCases(Slice(scored, attribute, n), threshold), rate) {
      RecallMeans(TallyCases(Slice(scored, attribute, n), threshold), rate);
    }
    var n :| n in names;
    assert n in list;
    RecallOfSum(scored, attribute, list, threshold, rate);
    SliceCellsSumToOverall(scored, attribute, list, threshold);
    RecallMeans(TallyCases(scored, threshold), rate);
  }

  /** Overall recall is at least the lower of clean and worst-attack recall. */
  lemma OverallAtLeastWorst(scored: seq<ScoredCase>, threshold: real, r: Report)
    requires IsReport(r, scored, threshold)
    ensures r.overall.recall >= r.cleanRecall || r.overall.recall >= r.worstAttackRecall
  {
    var rate := if r.cleanRecall <= r.worstAttackRecall then r.cleanRecall else r.worstAttackRecall;
    forall n | n in r.byAttack.Keys
      ensures rate <= Recall(TallyCases(Slice(scored, ByAttack, n), threshold))
    {
      assert rate <= r.byAttack[n].recall;
    }
    OverallReaches(scored, ByAttack, r.byAttack.Keys, threshold, rate);
  }

  lemma DropOf(byAttack: map<string, Metrics>, worst: real, drop: real)
    requires CLEAN in byAttack && IsWorst(worst, byAttack) && IsMaximumDrop(drop, byAttack)
    ensures drop == byAttack[CLEAN].recall - worst
  {
    if byAttack.Keys != {CLEAN} {
      var n :| n in byAttack && n != CLEAN && worst == byAttack[n].recall;
      assert byAttack[CLEAN].recall - byAttack[n].recall <= drop;
    }
  }

  /** The maximum drop is the clean recall minus the worst one. */
  lemma DropIsCleanMinusWorst(scored: seq<ScoredCase>, threshold: real, r: Report)
    requires IsReport(r, scored, threshold)
    ensures r.maximumDrop == r.cleanRecall - r.worstAttackRecall
  {
    DropOf(r.byAttack, r.worstAttackRecall, r.maximumDrop);
  }
}
