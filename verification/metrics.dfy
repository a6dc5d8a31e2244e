/** Safety metrics over labelled scores, overall and per slice.  Rates are reals. */
module EvaluationMetrics {
  import opened Wrappers
  import opened Sequences

  datatype Error =
    | UnequalOrEmpty
    | MissingCleanSlice
    | ScoreOutOfRange(score: real)
    | TooFewModels

  /** `truth` is the label of the case. */
  datatype ScoredCase = ScoredCase(caseId: string, truth: int, category: string, attack: string, score: real)

  datatype Confusion = Confusion(tn: nat, fp: nat, fn: nat, tp: nat) {
    function Plus(other: Confusion): Confusion {
      Confusion(tn + other.tn, fp + other.fp, fn + other.fn, tp + other.tp)
    }
  }

  datatype Metrics = Metrics(
    examples: nat, threshold: real, accuracy: real, precision: real, recall: real, f1: real,
    falsePositiveRate: real, falseNegativeRate: real, confusion: Confusion)

  datatype Attribute = ByAttack | ByCategory

  const CLEAN := "clean"

  /** `a / b if b else 0.0`. */
  function Ratio(a: nat, b: nat): real {
    if b == 0 then 0.0 else a as real / b as real
  }

  // ---------------------------------------------------------------- binary_metrics

  function Recall(c: Confusion): real {
    Ratio(c.tp, c.tp + c.fn)
  }

  function Predicted(score: real, threshold: real): int {
    if score >= threshold then 1 else 0
  }

  function TallyOne(truth: int, prediction: int): Confusion {
    Confusion(
      if truth == 0 && prediction == 0 then 1 else 0,
      if truth == 0 && prediction == 1 then 1 else 0,
      if truth == 1 && prediction == 0 then 1 else 0,
      if truth == 1 && prediction == 1 then 1 else 0)
  }

  function Tally(labels: seq<int>, scores: seq<real>, threshold: real): Confusion
    requires |labels| == |scores|
  {
    if labels == [] then Confusion(0, 0, 0, 0)
    else
      var n := |labels| - 1;
      Tally(labels[..n], scores[..n], threshold).Plus(TallyOne(labels[n], Predicted(scores[n], threshold)))
  }

  function FromConfusion(c: Confusion, examples: nat, threshold: real): Metrics
    requires examples > 0
  {
    var precision := Ratio(c.tp, c.tp + c.fp);
    var recall := Recall(c);
    var f1 := if precision + recall != 0.0 then 2.0 * precision * recall / (precision + recall) else 0.0;
    Metrics(examples, threshold, (c.tp + c.tn) as real / examples as real, precision, recall, f1,
            Ratio(c.fp, c.fp + c.tn), Ratio(c.fn, c.fn + c.tp), c)
  }

  function BinaryMetrics(labels: seq<int>, scores: seq<real>, threshold: real): Result<Metrics, Error> {
    if |labels| != |scores| || labels == [] then Err(UnequalOrEmpty)
    else Ok(FromConfusion(Tally(labels, scores, threshold), |labels|, threshold))
  }

  // ---------------------------------------------------------------- slices

  function Labels(scored: seq<ScoredCase>): (r: seq<int>)
    ensures |r| == |scored|
  {
    seq(|scored|, i requires 0 <= i < |scored| => scored[i].truth)
  }

  function Scores(scored: seq<ScoredCase>): (r: seq<real>)
    ensures |r| == |scored|
  {
    seq(|scored|, i requires 0 <= i < |scored| => scored[i].score)
  }

  function TallyCases(scored: seq<ScoredCase>, threshold: real): Confusion {
    Tally(Labels(scored), Scores(scored), threshold)
  }

  function MetricsOf(scored: seq<ScoredCase>, threshold: real): Metrics
    requires scored != []
  {
    BinaryMetrics(Labels(scored), Scores(scored), threshold).value
  }

  function Name(item: ScoredCase, attribute: Attribute): string {
    match attribute
    case ByAttack => item.attack
    case ByCategory => item.category
  }

  /** The items of one slice, in order. */
  function Slice(scored: seq<ScoredCase>, attribute: Attribute, name: string): seq<ScoredCase> {
    if scored == [] then []
    else
      var rest := Slice(scored[..|scored| - 1], attribute, name);
      var last := scored[|scored| - 1];
      if Name(last, attribute) == name then rest + [last] else rest
  }

  function Names(scored: seq<ScoredCase>, attribute: Attribute): set<string> {
    set x | x in scored :: Name(x, attribute)
  }

  /** `slices` has one entry for each value of the attribute: its metrics. */
  ghost predicate AreSlices(slices: map<string, Metrics>, scored: seq<ScoredCase>, attribute: Attribute, threshold: real) {
    && slices.Keys == Names(scored, attribute)
    && forall name :: name in slices ==>
         Slice(scored, attribute, name) != [] && slices[name] == MetricsOf(Slice(scored, attribute, name), threshold)
  }

  /** The group of a name is its slice, and is there unless that is empty. */
  predicate GroupIs(groups: map<string, seq<ScoredCase>>, name: string, slice: seq<ScoredCase>) {
    if slice == [] then name !in groups else name in groups && groups[name] == slice
  }

  ghost predicate Grouped(groups: map<string, seq<ScoredCase>>, scored: seq<ScoredCase>, attribute: Attribute) {
    forall name :: GroupIs(groups, name, Slice(scored, attribute, name))
  }

  /** One more item extends its own group only. */
  lemma GroupNext(groups: map<string, seq<ScoredCase>>, scored: seq<ScoredCase>, attribute: Attribute, item: ScoredCase)
    requires Grouped(groups, scored, attribute)
    ensures var name := Name(item, attribute);
            Grouped(groups[name := (if name in groups then groups[name] else []) + [item]], scored + [item], attribute)
  {
    var name := Name(item, attribute);
    var next := groups[name := (if name in groups then groups[name] else []) + [item]];
    assert (scored + [item])[..|scored|] == scored;
    forall n ensures GroupIs(next, n, Slice(scored + [item], attribute, n)) {
      assert GroupIs(groups, n, Slice(scored, attribute, n));
    }
  }

  /** A name has a slice exactly when it is the name of an item. */
  lemma {:induction false} SliceOfName(scored: seq<ScoredCase>, attribute: Attribute, name: string)
    ensures name in Names(scored, attribute) <==> Slice(scored, attribute, name) != []
  {
    if scored == [] {
    } else {
      var n := |scored| - 1;
      SliceOfName(scored[..n], attribute, name);
      assert scored == scored[..n] + [scored[n]];
    }
  }

  method SliceMetrics(scored: seq<ScoredCase>, attribute: Attribute, threshold: real) returns (slices: map<string, Metrics>)
    ensures AreSlices(slices, scored, attribute, threshold)
    ensures forall name :: name in slices ==> Describes(slices[name], scored, PartNamed(attribute, name), threshold)
  {
    var groups: map<string, seq<ScoredCase>> := map[];
    for i := 0 to |scored|
      invariant Grouped(groups, scored[..i], attribute)
    {
      var name := Name(scored[i], attribute);
      GroupNext(groups, scored[..i], attribute, scored[i]);
      assert scored[..i + 1] == scored[..i] + [scored[i]];
      groups := groups[name := (if name in groups then groups[name] else []) + [scored[i]]];
    }
    assert scored[..|scored|] == scored;
    GroupsAreSlices(groups, scored, attribute);
    slices := map name | name in groups :: MetricsOf(groups[name], threshold);
    SlicesDescribe(slices, scored, attribute, threshold);
  }

  /** Each slice has the figures of its part. */
  lemma SlicesDescribe(slices: map<string, Metrics>, scored: seq<ScoredCase>, attribute: Attribute, threshold: real)
    requires AreSlices(slices, scored, attribute, threshold)
    ensures forall name :: name in slices ==> Describes(slices[name], scored, PartNamed(attribute, name), threshold)
  {
    forall name | name in slices ensures Describes(slices[name], scored, PartNamed(attribute, name), threshold) {
      MetricsDescribe(scored, PartNamed(attribute, name), threshold);
    }
  }

  lemma GroupsAreSlices(groups: map<string, seq<ScoredCase>>, scored: seq<ScoredCase>, attribute: Attribute)
    requires Grouped(groups, scored, attribute)
    ensures groups.Keys == Names(scored, attribute)
    ensures forall name :: name in groups ==> groups[name] != [] && groups[name] == Slice(scored, attribute, name)
  {
    forall name ensures name in groups <==> name in Names(scored, attribute) {
      SliceOfName(scored, attribute, name);
      assert GroupIs(groups, name, Slice(scored, attribute, name));
    }
    forall name | name in groups ensures groups[name] != [] && groups[name] == Slice(scored, attribute, name) {
      assert GroupIs(groups, name, Slice(scored, attribute, name));
    }
  }

  // ---------------------------------------------------------------- what the figures count

  lemma TallyAppend(s: seq<ScoredCase>, item: ScoredCase, threshold: real)
    ensures TallyCases(s + [item], threshold)
         == TallyCases(s, threshold).Plus(TallyOne(item.truth, Predicted(item.score, threshold)))
  {
    var t := s + [item];
    assert Labels(t)[..|s|] == Labels(s) && Scores(t)[..|s|] == Scores(s);
  }

  lemma SliceAppend(s: seq<ScoredCase>, item: ScoredCase, attribute: Attribute, name: string)
    ensures Slice(s + [item], attribute, name)
         == if Name(item, attribute) == name then Slice(s, attribute, name) + [item] else Slice(s, attribute, name)
  {
    assert (s + [item])[..|s|] == s;
  }

  /** All items, or those of one attack or category. */
  datatype Part = Whole | OfAttack(name: string) | OfCategory(name: string)

  predicate IsIn(x: ScoredCase, part: Part) {
    match part
    case Whole => true
    case OfAttack(name) => x.attack == name
    case OfCategory(name) => x.category == name
  }

  /** The positions of the items of a part. */
  function Members(scored: seq<ScoredCase>, part: Part): set<nat> {
    set i: nat | i < |scored| && IsIn(scored[i], part)
  }

  /** Those with this label that are detected, or that are not. */
  function Cell(scored: seq<ScoredCase>, part: Part, truth: int, detected: bool, threshold: real): set<nat> {
    set i: nat | i < |scored| && IsIn(scored[i], part) && scored[i].truth == truth
                 && (scored[i].score >= threshold) == detected
  }

  /** `rate` is `part` of `whole`, or zero of nothing. */
  predicate IsShare(rate: real, part: nat, whole: nat) {
    if whole == 0 then rate == 0.0 else rate * whole as real == part as real
  }

  /** The figures are those of the items of the part, counted. */
  ghost predicate Describes(m: Metrics, scored: seq<ScoredCase>, part: Part, threshold: real) {
    && m.examples == |Members(scored, part)| && m.threshold == threshold
    && m.confusion.tn == |Cell(scored, part, 0, false, threshold)|
    && m.confusion.fp == |Cell(scored, part, 0, true, threshold)|
    && m.confusion.fn == |Cell(scored, part, 1, false, threshold)|
    && m.confusion.tp == |Cell(scored, part, 1, true, threshold)|
    && FiguresOf(m, m.confusion, m.examples)
  }

  function ItemsOf(scored: seq<ScoredCase>, part: Part): seq<ScoredCase> {
    match part
    case Whole => scored
    case OfAttack(name) => Slice(scored, ByAttack, name)
    case OfCategory(name) => Slice(scored, ByCategory, name)
  }

  function PartNamed(attribute: Attribute, name: string): Part {
    match attribute
    case ByAttack => OfAttack(name)
    case ByCategory => OfCategory(name)
  }

  lemma ItemsAppend(scored: seq<ScoredCase>, x: ScoredCase, part: Part)
    ensures ItemsOf(scored + [x], part) == if IsIn(x, part) then ItemsOf(scored, part) + [x] else ItemsOf(scored, part)
  {
    match part
    case Whole =>
    case OfAttack(name) => SliceAppend(scored, x, ByAttack, name);
    case OfCategory(name) => SliceAppend(scored, x, ByCategory, name);
  }

  lemma CellAppend(scored: seq<ScoredCase>, x: ScoredCase, part: Part, truth: int, detected: bool, threshold: real)
    ensures |Cell(scored + [x], part, truth, detected, threshold)|
         == |Cell(scored, part, truth, detected, threshold)|
            + if IsIn(x, part) && x.truth == truth && (x.score >= threshold) == detected then 1 else 0
  {
    var longer, shorter := Cell(scored + [x], part, truth, detected, threshold), Cell(scored, part, truth, detected, threshold);
    if IsIn(x, part) && x.truth == truth && (x.score >= threshold) == detected {
      assert longer == shorter + {|scored|};
    } else {
      assert longer == shorter;
    }
  }

  lemma MembersAppend(scored: seq<ScoredCase>, x: ScoredCase, part: Part)
    ensures |Members(scored + [x], part)| == |Members(scored, part)| + if IsIn(x, part) then 1 else 0
  {
    if IsIn(x, part) {
      assert Members(scored + [x], part) == Members(scored, part) + {|scored|};
    } else {
      assert Members(scored + [x], part) == Members(scored, part);
    }
  }

  /** The sizes of the four cells of a part. */
  function Counted(scored: seq<ScoredCase>, part: Part, threshold: real): Confusion {
    Confusion(|Cell(scored, part, 0, false, threshold)|, |Cell(scored, part, 0, true, threshold)|,
              |Cell(scored, part, 1, false, threshold)|, |Cell(scored, part, 1, true, threshold)|)
  }

  lemma CountedAppend(scored: seq<ScoredCase>, x: ScoredCase, part: Part, threshold: real)
    ensures Counted(scored + [x], part, threshold)
         == if IsIn(x, part) then Counted(scored, part, threshold).Plus(TallyOne(x.truth, Predicted(x.score, threshold)))
            else Counted(scored, part, threshold)
  {
    CellAppend(scored, x, part, 0, false, threshold);
    CellAppend(scored, x, part, 0, true, threshold);
    CellAppend(scored, x, part, 1, false, threshold);
    CellAppend(scored, x, part, 1, true, threshold);
  }

  predicate TallyAgrees(scored: seq<ScoredCase>, part: Part, threshold: real) {
    && |ItemsOf(scored, part)| == |Members(scored, part)|
    && TallyCases(ItemsOf(scored, part), threshold) == Counted(scored, part, threshold)
  }

  /** The tally of a part counts its cells. */
  lemma {:induction false} TallyCounts(scored: seq<ScoredCase>, part: Part, threshold: real)
    ensures TallyAgrees(scored, part, threshold)
  {
    if scored == [] {
      NothingCounted(scored, part, threshold);
    } else {
      var n := |scored| - 1;
      SplitLast(scored);
      TallyCounts(scored[..n], part, threshold);
      TallyCountsNext(scored[..n], scored[n], scored, part, threshold);
    }
  }

  lemma NothingCounted(scored: seq<ScoredCase>, part: Part, threshold: real)
    requires scored == []
    ensures TallyAgrees(scored, part, threshold)
  {
    assert Members(scored, part) == {};
    forall truth, detected ensures Cell(scored, part, truth, detected, threshold) == {} {
    }
  }

  lemma TallyCountsNext(scored: seq<ScoredCase>, x: ScoredCase, longer: seq<ScoredCase>, part: Part, threshold: real)
    requires longer == scored + [x] && TallyAgrees(scored, part, threshold)
    ensures TallyAgrees(longer, part, threshold)
  {
    ItemsAppend(scored, x, part);
    MembersAppend(scored, x, part);
    CountedAppend(scored, x, part, threshold);
    if IsIn(x, part) { TallyAppend(ItemsOf(scored, part), x, threshold); }
  }

  lemma RatioIsShare(part: nat, whole: nat)
    ensures IsShare(Ratio(part, whole), part, whole)
  {
  }

  /** The harmonic mean of precision and recall, as a share. */
  lemma HarmonicMean(p: real, r: real, f: real, t: real, a: real, b: real)
    requires t > 0.0 && p * a == t && r * b == t && f * (p + r) == 2.0 * p * r
    ensures f * (a + b) == 2.0 * t
  {
    var x := f * (a + b);
    assert t * x == 2.0 * t * t by {
      assert f * ((p + r) * (a * b)) == 2.0 * ((p * a) * (r * b)) by { assert f * (p + r) * (a * b) == 2.0 * p * r * (a * b); }
      assert (p + r) * (a * b) == (p * a) * b + (r * b) * a == t * (a + b);
    }
  }

  lemma F1IsShare(c: Confusion, examples: nat, threshold: real)
    requires examples > 0
    ensures var m := FromConfusion(c, examples, threshold);
            if c.tp == 0 then m.f1 == 0.0 else IsShare(m.f1, 2 * c.tp, 2 * c.tp + c.fp + c.fn)
  {
    var m := FromConfusion(c, examples, threshold);
    if c.tp > 0 {
      var t, a, b := c.tp as real, (c.tp + c.fp) as real, (c.tp + c.fn) as real;
      assert m.precision * a == t && m.recall * b == t;
      assert m.precision > 0.0 && m.recall > 0.0;
      assert m.f1 * (m.precision + m.recall) == 2.0 * m.precision * m.recall;
      HarmonicMean(m.precision, m.recall, m.f1, t, a, b);
    }
  }

  /** The figures, from the cells. */
  ghost predicate FiguresOf(m: Metrics, c: Confusion, examples: nat) {
    && IsShare(m.accuracy, c.tp + c.tn, examples)
    && IsShare(m.precision, c.tp, c.tp + c.fp) && IsShare(m.recall, c.tp, c.tp + c.fn)
    && IsShare(m.falsePositiveRate, c.fp, c.fp + c.tn) && IsShare(m.falseNegativeRate, c.fn, c.fn + c.tp)
    && (if c.tp == 0 then m.f1 == 0.0 else IsShare(m.f1, 2 * c.tp, 2 * c.tp + c.fp + c.fn))
  }

  lemma FiguresAreShares(c: Confusion, examples: nat, threshold: real)
    requires examples > 0
    ensures FiguresOf(FromConfusion(c, examples, threshold), c, examples)
  {
    F1IsShare(c, examples, threshold);
    RatioIsShare(c.tp + c.tn, examples);
    RatioIsShare(c.tp, c.tp + c.fp);
    RatioIsShare(c.tp, c.tp + c.fn);
    RatioIsShare(c.fp, c.fp + c.tn);
    RatioIsShare(c.fn, c.fn + c.tp);
  }

  lemma MetricsDescribe(scored: seq<ScoredCase>, part: Part, threshold: real)
    requires ItemsOf(scored, part) != []
    ensures Describes(MetricsOf(ItemsOf(scored, part), threshold), scored, part, threshold)
  {
    TallyCounts(scored, part, threshold);
    FiguresAreShares(Counted(scored, part, threshold), |Members(scored, part)|, threshold);
  }

  // ---------------------------------------------------------------- evaluate_scores

  datatype Report = Report(
    modelVersion: string, threshold: real, overall: Metrics,
    byAttack: map<string, Metrics>, byCategory: map<string, Metrics>,
    cleanRecall: real, worstAttackRecall: real, maximumDrop: real,
    thresholdAnalysis: seq<Metrics>, predictions: seq<ScoredCase>, memberVersions: Option<seq<string>>)

  /** The least recall of the attacked slices, or the clean one when there are none. */
  ghost predicate IsWorst(worst: real, byAttack: map<string, Metrics>)
    requires CLEAN in byAttack
  {
    && (forall name :: name in byAttack && name != CLEAN ==> worst <= byAttack[name].recall)
    && (if byAttack.Keys == {CLEAN} then worst == byAttack[CLEAN].recall
        else exists name :: name in byAttack && name != CLEAN && worst == byAttack[name].recall)
  }

  /** The greatest loss against the clean slice, or zero when nothing is attacked. */
  ghost predicate IsMaximumDrop(drop: real, byAttack: map<string, Metrics>)
    requires CLEAN in byAttack
  {
    && (forall name :: name in byAttack && name != CLEAN ==> byAttack[CLEAN].recall - byAttack[name].recall <= drop)
    && (if byAttack.Keys == {CLEAN} then drop == 0.0
        else exists name :: name in byAttack && name != CLEAN && drop == byAttack[CLEAN].recall - byAttack[name].recall)
  }

  ghost predicate IsReport(report: Report, scored: seq<ScoredCase>, threshold: real) {
    && scored != []
    && report.threshold == threshold
    && report.overall == MetricsOf(scored, threshold)
    && AreSlices(report.byAttack, scored, ByAttack, threshold)
    && AreSlices(report.byCategory, scored, ByCategory, threshold)
    && CLEAN in report.byAttack
    && report.cleanRecall == report.byAttack[CLEAN].recall
    && IsWorst(report.worstAttackRecall, report.byAttack)
    && IsMaximumDrop(report.maximumDrop, report.byAttack)
    && report.predictions == scored
  }

  /** The slices have an entry for each attack, with the figures of its items. */
  ghost predicate CountsByAttack(slices: map<string, Metrics>, scored: seq<ScoredCase>, threshold: real) {
    && (forall name :: name in slices <==> exists x :: x in scored && x.attack == name)
    && (forall name :: name in slices ==> Describes(slices[name], scored, OfAttack(name), threshold))
  }

  ghost predicate CountsByCategory(slices: map<string, Metrics>, scored: seq<ScoredCase>, threshold: real) {
    && (forall name :: name in slices <==> exists x :: x in scored && x.category == name)
    && (forall name :: name in slices ==> Describes(slices[name], scored, OfCategory(name), threshold))
  }

  /** The figures of the report, counted: overall, by attack and by category, and overall at
      each candidate threshold. */
  ghost predicate ReportCounts(report: Report, scored: seq<ScoredCase>, threshold: real, candidates: seq<real>) {
    && Describes(report.overall, scored, Whole, threshold)
    && CountsByAttack(report.byAttack, scored, threshold)
    && CountsByCategory(report.byCategory, scored, threshold)
    && "clean" in report.byAttack && report.cleanRecall == report.byAttack["clean"].recall
    && |report.thresholdAnalysis| == |candidates|
    && (forall i :: 0 <= i < |candidates| ==> Describes(report.thresholdAnalysis[i], scored, Whole, candidates[i]))
  }

  lemma AttacksCount(slices: map<string, Metrics>, scored: seq<ScoredCase>, threshold: real)
    requires AreSlices(slices, scored, ByAttack, threshold)
    ensures CountsByAttack(slices, scored, threshold)
  {
    SlicesDescribe(slices, scored, ByAttack, threshold);
    forall name | name in slices ensures Describes(slices[name], scored, OfAttack(name), threshold) {
      assert PartNamed(ByAttack, name) == OfAttack(name);
    }
  }

  lemma CategoriesCount(slices: map<string, Metrics>, scored: seq<ScoredCase>, threshold: real)
    requires AreSlices(slices, scored, ByCategory, threshold)
    ensures CountsByCategory(slices, scored, threshold)
  {
    SlicesDescribe(slices, scored, ByCategory, threshold);
    forall name | name in slices ensures Describes(slices[name], scored, OfCategory(name), threshold) {
      assert PartNamed(ByCategory, name) == OfCategory(name);
    }
  }

  lemma CountsOfReport(report: Report, scored: seq<ScoredCase>, threshold: real, candidates: seq<real>)
    requires IsReport(report, scored, threshold) && |report.thresholdAnalysis| == |candidates|
    requires forall i :: 0 <= i < |candidates| ==> report.thresholdAnalysis[i] == MetricsOf(scored, candidates[i])
    ensures ReportCounts(report, scored, threshold, candidates)
  {
    MetricsDescribe(scored, Whole, threshold);
    AttacksCount(report.byAttack, scored, threshold);
    CategoriesCount(report.byCategory, scored, threshold);
    forall i | 0 <= i < |candidates| ensures Describes(report.thresholdAnalysis[i], scored, Whole, candidates[i]) {
      MetricsDescribe(scored, Whole, candidates[i]);
    }
  }

  method EvaluateScores(modelVersion: string, scored: seq<ScoredCase>, threshold: real, candidates: seq<real>)
    returns (r: Result<Report, Error>)
    ensures r.Ok? <==> CLEAN in Names(scored, ByAttack)
    ensures r.Err? ==> r.error == MissingCleanSlice
    ensures r.Ok? ==>
      && IsReport(r.value, scored, threshold) && r.value.modelVersion == modelVersion && r.value.memberVersions.None?
      && |r.value.thresholdAnalysis| == |candidates|
      && forall i :: 0 <= i < |candidates| ==> r.value.thresholdAnalysis[i] == MetricsOf(scored, candidates[i])
    ensures r.Ok? ==> ReportCounts(r.value, scored, threshold, candidates)
  {
    var attackSlices := SliceMetrics(scored, ByAttack, threshold);
    if CLEAN !in attackSlices { return Err(MissingCleanSlice); }
    assert scored != [];
    var cleanRecall := attackSlices[CLEAN].recall;
    var worst, drop := WorstAndDrop(attackSlices);
    var categorySlices := SliceMetrics(scored, ByCategory, threshold);
    var analysis := seq(|candidates|, i requires 0 <= i < |candidates| => MetricsOf(scored, candidates[i]));
    r := Ok(Report(modelVersion, threshold, MetricsOf(scored, threshold), attackSlices, categorySlices,
                   cleanRecall, worst, drop, analysis, scored, None));
    CountsOfReport(r.value, scored, threshold, candidates);
  }

  /** The minimum and the maximum over the attacked slices. */
  method WorstAndDrop(byAttack: map<string, Metrics>) returns (worst: real, drop: real)
    requires CLEAN in byAttack
    ensures IsWorst(worst, byAttack) && IsMaximumDrop(drop, byAttack)
  {
    var cleanRecall := byAttack[CLEAN].recall;
    worst, drop := cleanRecall, 0.0;
    var todo := byAttack.Keys - {CLEAN};
    ghost var done: set<string> := {};
    while todo != {}
      invariant done !! todo && done + todo == byAttack.Keys - {CLEAN}
      invariant forall name :: name in done ==>
        worst <= byAttack[name].recall && cleanRecall - byAttack[name].recall <= drop
      invariant if done == {} then worst == cleanRecall && drop == 0.0
        else (exists name :: name in done && worst == byAttack[name].recall)
             && (exists name :: name in done && drop == cleanRecall - byAttack[name].recall)
    {
      var name :| name in todo;
      var recall := byAttack[name].recall;
      var first := todo == byAttack.Keys - {CLEAN};
      if first || recall < worst { worst := recall; }
      if first || cleanRecall - recall > drop { drop := cleanRecall - recall; }
      todo := todo - {name};
      done := done + {name};
    }
  }
}
