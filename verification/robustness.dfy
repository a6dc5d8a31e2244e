/** What the cancellation laws mean for the shipped evaluation: four of the five attack
    slices repeat the clean slice, so only character flooding can cost recall. */
module ShippedRobustness {
  import opened Characters
  import opened Normalization
  import opened Attacks
  import opened AttackLaws
  import opened Flooding
  import opened EvaluationMetrics
  import opened ModelEvaluation

  const FLOODING := "character_flooding"

  /** The attack table, in its order. */
  function ShippedAttacks(): (r: seq<NamedAttack>)
    ensures |r| == 6
    ensures forall i, j :: 0 <= i < j < 6 ==> r[i].name != r[j].name
  {
    [NamedAttack(CLEAN, (s: Text) => s), NamedAttack("uppercase", s => Uppercase(s)),
     NamedAttack("zero_width", s => ZeroWidth(s)), NamedAttack("leetspeak", s => Leetspeak(s)),
     NamedAttack("punctuation", s => PunctuationInjection(s)), NamedAttack(FLOODING, s => CharacterFlooding(s))]
  }

  /** The items of one attack, one per case. */
  function Column(model: Model, cases: seq<EvaluationCase>, a: NamedAttack): (r: seq<ScoredCase>)
    ensures |r| == |cases|
  {
    seq(|cases|, i requires 0 <= i < |cases| => ScoreOne(model, cases[i], a))
  }

  lemma {:induction false} SliceConcat(s: seq<ScoredCase>, t: seq<ScoredCase>, name: string)
    ensures Slice(s + t, ByAttack, name) == Slice(s, ByAttack, name) + Slice(t, ByAttack, name)
  {
    if t == [] {
      assert s + t == s;
    } else {
      var n := |t| - 1;
      SliceConcat(s, t[..n], name);
      assert s + t == (s + t[..n]) + [t[n]] && t == t[..n] + [t[n]];
      SliceAppend(s + t[..n], t[n], ByAttack, name);
      SliceAppend(t[..n], t[n], ByAttack, name);
      var a, b := Slice(s, ByAttack, name), Slice(t[..n], ByAttack, name);
      assert (a + b) + [t[n]] == a + (b + [t[n]]);
    }
  }

  predicate DistinctNames(attacks: seq<NamedAttack>) {
    forall i, j :: 0 <= i < j < |attacks| ==> attacks[i].name != attacks[j].name
  }

  /** The items of one case before its last attack. */
  lemma ScoreCaseSplits(model: Model, c: EvaluationCase, attacks: seq<NamedAttack>)
    requires attacks != []
    ensures var n := |attacks| - 1;
            ScoreCase(model, c, attacks) == ScoreCase(model, c, attacks[..n]) + [ScoreOne(model, c, attacks[n])]
  {
  }

  lemma {:induction false} NoSliceOfCase(model: Model, c: EvaluationCase, attacks: seq<NamedAttack>, name: string)
    requires forall i :: 0 <= i < |attacks| ==> attacks[i].name != name
    ensures Slice(ScoreCase(model, c, attacks), ByAttack, name) == []
    decreases |attacks|
  {
    if attacks == [] {
    } else {
      var n := |attacks| - 1;
      NoSliceOfCase(model, c, attacks[..n], name);
      ScoreCaseSplits(model, c, attacks);
      SliceAppend(ScoreCase(model, c, attacks[..n]), ScoreOne(model, c, attacks[n]), ByAttack, name);
    }
  }

  lemma {:induction false} SliceOfCase(model: Model, c: EvaluationCase, attacks: seq<NamedAttack>, k: nat)
    requires DistinctNames(attacks) && k < |attacks|
    ensures Slice(ScoreCase(model, c, attacks), ByAttack, attacks[k].name) == [ScoreOne(model, c, attacks[k])]
    decreases |attacks|
  {
    var n := |attacks| - 1;
    if k < n { SliceOfCase(model, c, attacks[..n], k); } else { NoSliceOfCase(model, c, attacks[..n], attacks[k].name); }
    ScoreCaseSplits(model, c, attacks);
    SliceAppend(ScoreCase(model, c, attacks[..n]), ScoreOne(model, c, attacks[n]), ByAttack, attacks[k].name);
  }

  lemma ColumnAppend(model: Model, cases: seq<EvaluationCase>, a: NamedAttack)
    requires cases != []
    ensures Column(model, cases, a)
         == Column(model, cases[..|cases| - 1], a) + [ScoreOne(model, cases[|cases| - 1], a)]
  {
  }

  /** A slice of the full evaluation is the column of its attack. */
  lemma {:induction false} SliceIsColumn(model: Model, cases: seq<EvaluationCase>, attacks: seq<NamedAttack>, k: nat)
    requires DistinctNames(attacks) && k < |attacks|
    ensures Slice(ScoreAll(model, cases, attacks), ByAttack, attacks[k].name) == Column(model, cases, attacks[k])
    decreases |cases|
  {
    if cases == [] {
    } else {
      var n := |cases| - 1;
      SliceIsColumn(model, cases[..n], attacks, k);
      SliceConcat(ScoreAll(model, cases[..n], attacks), ScoreCase(model, cases[n], attacks), attacks[k].name);
      SliceOfCase(model, cases[n], attacks, k);
      ColumnAppend(model, cases, attacks[k]);
    }
  }

  /** The attack cannot be seen after normalisation in any of the cases. */
  ghost predicate Cancelled(a: NamedAttack, cases: seq<EvaluationCase>) {
    forall i :: 0 <= i < |cases| ==> NormalizeText(a.apply(cases[i].text)) == NormalizeText(cases[i].text)
  }

  /** Columns of attacks that cannot be seen have the same metrics. */
  lemma SameColumns(model: Model, cases: seq<EvaluationCase>, a: NamedAttack, b: NamedAttack, threshold: real)
    requires Cancelled(a, cases) && Cancelled(b, cases) && cases != []
    ensures MetricsOf(Column(model, cases, a), threshold) == MetricsOf(Column(model, cases, b), threshold)
  {
    assert Labels(Column(model, cases, a)) == Labels(Column(model, cases, b));
    assert Scores(Column(model, cases, a)) == Scores(Column(model, cases, b));
  }

  /** The slice of an attack in a report is its column. */
  lemma SliceInReport(model: Model, cases: seq<EvaluationCase>, attacks: seq<NamedAttack>, threshold: real,
                                         slices: map<string, Metrics>, k: nat)
    requires cases != [] && DistinctNames(attacks) && k < |attacks|
    requires AreSlices(slices, ScoreAll(model, cases, attacks), ByAttack, threshold)
    ensures attacks[k].name in slices && slices[attacks[k].name] == MetricsOf(Column(model, cases, attacks[k]), threshold)
  {
    SliceIsColumn(model, cases, attacks, k);
    SliceOfName(ScoreAll(model, cases, attacks), ByAttack, attacks[k].name);
  }

  /** Two cancelled attacks of an evaluation have equal slices. */
  lemma CancelledSlices(model: Model, cases: seq<EvaluationCase>, attacks: seq<NamedAttack>, threshold: real,
                                           slices: map<string, Metrics>, j: nat, k: nat)
    requires cases != [] && DistinctNames(attacks) && j < |attacks| && k < |attacks|
    requires AreSlices(slices, ScoreAll(model, cases, attacks), ByAttack, threshold)
    requires Cancelled(attacks[j], cases) && Cancelled(attacks[k], cases)
    ensures attacks[j].name in slices && attacks[k].name in slices && slices[attacks[j].name] == slices[attacks[k].name]
  {
    SliceInReport(model, cases, attacks, threshold, slices, j);
    SliceInReport(model, cases, attacks, threshold, slices, k);
    SameColumns(model, cases, attacks[j], attacks[k], threshold);
  }

  lemma ShippedDistinct()
    ensures DistinctNames(ShippedAttacks())
  {
  }

  /** The attack of each name. */
  lemma ShippedTable(text: Text)
    ensures var table := ShippedAttacks();
            && table[0].name == "clean" && table[0].apply(text) == text
            && table[1].name == "uppercase" && table[1].apply(text) == Uppercase(text)
            && table[2].name == "zero_width" && table[2].apply(text) == ZeroWidth(text)
            && table[3].name == "leetspeak" && table[3].apply(text) == Leetspeak(text)
            && table[4].name == "punctuation" && table[4].apply(text) == PunctuationInjection(text)
            && table[5].name == "character_flooding" && table[5].apply(text) == CharacterFlooding(text)
  {
  }

  lemma ShippedCancels(k: nat, text: Text)
    requires k < 5
    ensures NormalizeText(ShippedAttacks()[k].apply(text)) == NormalizeText(text)
  {
    match k
    case 1 => UppercaseCancelled(text);
    case 2 => ZeroWidthCancelled(text);
    case 3 => LeetspeakCancelled(text);
    case 4 => PunctuationCancelled(text);
    case _ =>
  }

  lemma ShippedCancelled(k: nat, cases: seq<EvaluationCase>)
    requires k < 5
    ensures Cancelled(ShippedAttacks()[k], cases)
  {
    forall i | 0 <= i < |cases|
      ensures NormalizeText(ShippedAttacks()[k].apply(cases[i].text)) == NormalizeText(cases[i].text)
    {
      ShippedCancels(k, cases[i].text);
    }
  }

  /** In the shipped evaluation the slices of uppercase, zero-width, leetspeak and
      punctuation repeat the clean slice in every metric, whatever the model. */
  lemma OnlyFloodingDiffers(model: Model, cases: seq<EvaluationCase>, threshold: real,
                                               slices: map<string, Metrics>, k: nat)
    requires cases != [] && k < 5
    requires AreSlices(slices, ScoreAll(model, cases, ShippedAttacks()), ByAttack, threshold)
    ensures CLEAN in slices && ShippedAttacks()[k].name in slices && slices[ShippedAttacks()[k].name] == slices[CLEAN]
  {
    ShippedDistinct();
    ShippedCancelled(0, cases);
    ShippedCancelled(k, cases);
    CancelledSlices(model, cases, ShippedAttacks(), threshold, slices, k, 0);
  }

  lemma FloodingCancelledIn(cases: seq<EvaluationCase>)
    requires forall i :: 0 <= i < |cases| ==> !HasFloodedPair(JoinedCells(cases[i].text))
    ensures Cancelled(ShippedAttacks()[5], cases)
  {
    forall i | 0 <= i < |cases|
      ensures NormalizeText(ShippedAttacks()[5].apply(cases[i].text)) == NormalizeText(cases[i].text)
    {
      FloodingCancelledExactly(cases[i].text);
    }
  }

  lemma {:induction false} NamesAreShipped(model: Model, cases: seq<EvaluationCase>, attacks: seq<NamedAttack>, name: string)
    requires name in Names(ScoreAll(model, cases, attacks), ByAttack)
    ensures exists k :: 0 <= k < |attacks| && attacks[k].name == name
    decreases |cases|
  {
    var scored := ScoreAll(model, cases, attacks);
    var x :| x in scored && Name(x, ByAttack) == name;
    if cases == [] {
    } else {
      var n := |cases| - 1;
      if x in ScoreAll(model, cases[..n], attacks) {
        NamesAreShipped(model, cases[..n], attacks, name);
      } else {
        var k :| 0 <= k < |attacks| && ScoreCase(model, cases[n], attacks)[k] == x;
        assert attacks[k].name == name;
      }
    }
  }

  /** Where no case has a flooded pair, no attack changes any metric. */
  lemma NoFloodedPairsNoLoss(model: Model, cases: seq<EvaluationCase>, threshold: real,
                                                slices: map<string, Metrics>, name: string)
    requires cases != [] && name in slices
    requires AreSlices(slices, ScoreAll(model, cases, ShippedAttacks()), ByAttack, threshold)
    requires forall i :: 0 <= i < |cases| ==> !HasFloodedPair(JoinedCells(cases[i].text))
    ensures CLEAN in slices && slices[name] == slices[CLEAN]
  {
    NamesAreShipped(model, cases, ShippedAttacks(), name);
    var k :| 0 <= k < |ShippedAttacks()| && ShippedAttacks()[k].name == name;
    ShippedDistinct();
    ShippedCancelled(0, cases);
    if k == 5 { FloodingCancelledIn(cases); } else { ShippedCancelled(k, cases); }
    CancelledSlices(model, cases, ShippedAttacks(), threshold, slices, k, 0);
  }

  lemma NothingLost(model: Model, cases: seq<EvaluationCase>, threshold: real, slices: map<string, Metrics>)
    requires cases != [] && CLEAN in slices
    requires AreSlices(slices, ScoreAll(model, cases, ShippedAttacks()), ByAttack, threshold)
    requires forall i :: 0 <= i < |cases| ==> !HasFloodedPair(JoinedCells(cases[i].text))
    ensures forall name :: name in slices ==> slices[name] == slices[CLEAN]
  {
    forall name | name in slices ensures slices[name] == slices[CLEAN] {
      NoFloodedPairsNoLoss(model, cases, threshold, slices, name);
    }
  }

  lemma EqualSlices(byAttack: map<string, Metrics>, worst: real, drop: real)
    requires CLEAN in byAttack && IsWorst(worst, byAttack) && IsMaximumDrop(drop, byAttack)
    requires forall name :: name in byAttack ==> byAttack[name] == byAttack[CLEAN]
    ensures worst == byAttack[CLEAN].recall && drop == 0.0
  {
  }

  /** So the report of such an evaluation has no recall drop at all. */
  lemma {:induction false} NoFloodedPairsNoDrop(model: Model, cases: seq<EvaluationCase>, threshold: real, r: Report)
    requires IsReport(r, ScoreAll(model, cases, ShippedAttacks()), threshold)
    requires forall i :: 0 <= i < |cases| ==> !HasFloodedPair(JoinedCells(cases[i].text))
    ensures r.maximumDrop == 0.0 && r.worstAttackRecall == r.cleanRecall
  {
    NothingLost(model, cases, threshold, r.byAttack);
    EqualSlices(r.byAttack, r.worstAttackRecall, r.maximumDrop);
  }
}
