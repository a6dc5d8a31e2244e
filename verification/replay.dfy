/** When the reported match count of a request is exact, and when a replay changes it. */
module CampaignReplay {
  import opened Sequences
  import opened ThreatIntelligence

  // ---------------------------------------------------------------- histories

  datatype Call = Call(requestId: string, vector: Vector)

  /** The index after a history of calls. */
  function IndexAfter(calls: seq<Call>): Index {
    if calls == [] then NOTHING
    else
      var last := calls[|calls| - 1];
      After(IndexAfter(calls[..|calls| - 1]), last.requestId, last.vector)
  }

  lemma {:induction false} HistoryCoherent(calls: seq<Call>)
    ensures IndexAfter(calls).Coherent()
  {
    if calls == [] {
    } else {
      var n := |calls| - 1;
      HistoryCoherent(calls[..n]);
      AfterCoherent(IndexAfter(calls[..n]), calls[n].requestId, calls[n].vector);
    }
  }

  // ---------------------------------------------------------------- the own point

  /** Request `q` ranks ahead of the point of `requestId` if that scores `own`: it scores
      higher, or as high and arrived earlier. */
  predicate Ahead(x: Index, g: Setting, requestId: string, vector: Vector, own: real, q: string)
    requires q in x.latest
  {
    var score := g.similarity(vector, x.latest[q]);
    score > own || (score == own && (requestId !in x.latest || Before(x.arrived, q, requestId)))
  }

  /** The other close requests that rank ahead. */
  function Rivals(x: Index, g: Setting, requestId: string, vector: Vector, own: real): set<string> {
    set q | q in x.latest && q != requestId && g.similarity(vector, x.latest[q]) >= g.threshold
            && Ahead(x, g, requestId, vector, own, q)
  }

  /** A point of the request that scores `own` is among the results. */
  predicate TakesSlot(x: Index, g: Setting, requestId: string, vector: Vector, own: real) {
    own >= g.threshold && |Rivals(x, g, requestId, vector, own)| < g.limit
  }

  /** The request has an earlier point, and that takes one of the results. */
  predicate EarlierTakesSlot(x: Index, g: Setting, requestId: string, vector: Vector) {
    requestId in x.latest && TakesSlot(x, g, requestId, vector, g.similarity(vector, x.latest[requestId]))
  }

  /** What ranks ahead of the own point are its rivals. */
  lemma RivalsAhead(x: Index, g: Setting, requestId: string, vector: Vector, k: nat)
    requires x.Coherent() && k < |Full(x, g, vector)| && Full(x, g, vector)[k].requestId == requestId
    ensures requestId in x.latest
    ensures RequestIds(Full(x, g, vector)[..k])
         == Rivals(x, g, requestId, vector, g.similarity(vector, x.latest[requestId]))
  {
    var full := Full(x, g, vector);
    FullFacts(x, g, vector);
    assert full[k] in full;
    var own := g.similarity(vector, x.latest[requestId]);
    forall q | q in RequestIds(full[..k]) ensures q in Rivals(x, g, requestId, vector, own) {
      var y :| y in full[..k] && y.requestId == q;
      var i :| 0 <= i < k && full[i] == y;
      assert y in full;
    }
    forall q | q in Rivals(x, g, requestId, vector, own) ensures q in RequestIds(full[..k]) {
      RivalIsAhead(x, g, requestId, vector, k, q);
    }
  }

  lemma RivalIsAhead(x: Index, g: Setting, requestId: string, vector: Vector, k: nat, q: string)
    requires x.Coherent() && IsRanking(Full(x, g, vector), x.latest, g, vector) && Stable(Full(x, g, vector), x.arrived)
    requires k < |Full(x, g, vector)| && requestId in x.latest
    requires Full(x, g, vector)[k] == Match(requestId, g.similarity(vector, x.latest[requestId]))
    requires q in Rivals(x, g, requestId, vector, g.similarity(vector, x.latest[requestId]))
    ensures q in RequestIds(Full(x, g, vector)[..k])
  {
    var full := Full(x, g, vector);
    var y := Match(q, g.similarity(vector, x.latest[q]));
    assert y in full;
    var i :| 0 <= i < |full| && full[i] == y;
    AheadIsEarlier(full, x.arrived, i, k);
    assert full[..k][i] == y;
  }

  lemma AheadIsEarlier(full: seq<Match>, arrived: seq<string>, i: nat, k: nat)
    requires Stable(full, arrived) && Distinct(arrived) && i < |full| && k < |full|
    requires full[i].requestId != full[k].requestId
    requires full[i].score > full[k].score
             || (full[i].score == full[k].score && Before(arrived, full[i].requestId, full[k].requestId))
    ensures i < k
  {
    NotBoth(arrived, full[k].requestId, full[i].requestId);
  }

  lemma OwnPlace(x: Index, g: Setting, requestId: string, vector: Vector) returns (k: nat)
    requires x.Coherent() && requestId in x.latest
    requires g.similarity(vector, x.latest[requestId]) >= g.threshold
    ensures k < |Full(x, g, vector)| && Full(x, g, vector)[k].requestId == requestId
  {
    var full := Full(x, g, vector);
    FullFacts(x, g, vector);
    var y := Match(requestId, g.similarity(vector, x.latest[requestId]));
    assert y in full;
    k :| 0 <= k < |full| && full[k] == y;
  }

  /** The own point survives the cut exactly when it takes one of the results. */
  lemma OwnSurvives(x: Index, g: Setting, requestId: string, vector: Vector)
    requires x.Coherent()
    ensures var full := Full(x, g, vector);
            Mentions(full[..Min(g.limit, |full|)], requestId) <==> EarlierTakesSlot(x, g, requestId, vector)
  {
    var full := Full(x, g, vector);
    FullFacts(x, g, vector);
    if requestId in x.latest && g.similarity(vector, x.latest[requestId]) >= g.threshold {
      var k := OwnPlace(x, g, requestId, vector);
      RivalsAhead(x, g, requestId, vector, k);
      CountRequests(full[..k]);
      MentionedBefore(full, Min(g.limit, |full|), k);
    } else {
      forall i | 0 <= i < |full| ensures full[i].requestId != requestId { assert full[i] in full; }
    }
  }

  lemma MentionedBefore(full: seq<Match>, cut: nat, k: nat)
    requires OnePerRequest(full) && k < |full| && cut <= |full|
    ensures Mentions(full[..cut], full[k].requestId) <==> k < cut
  {
    if k < cut { assert full[..cut][k].requestId == full[k].requestId; }
  }

  /** The reported count in every case: all close others while these are fewer than the
      limit, else the limit, less the result that the own earlier point takes. */
  lemma MatchCountExact(x: Index, g: Setting, requestId: string, vector: Vector)
    requires x.Coherent()
    ensures var others := |Similar(x.latest, g, requestId, vector)|;
            Answer(x, g, requestId, vector).matchCount
              == if others < g.limit then others
                 else if EarlierTakesSlot(x, g, requestId, vector) then g.limit - 1 else g.limit
  {
    FullFacts(x, g, vector);
    KeptCount(Full(x, g, vector), g.limit, requestId);
    SimilarAreOthers(Full(x, g, vector), x.latest, g, requestId, vector);
    OwnSurvives(x, g, requestId, vector);
  }

  /** Where equal scores may be ranked in any order, the own point is kept if fewer than
      the limit score as high, and cut if the limit score higher. */
  lemma OwnSurvivesAnyOrder(full: seq<Match>, latest: map<string, Vector>, g: Setting, requestId: string, vector: Vector)
    requires IsRanking(full, latest, g, vector) && requestId in latest
    requires g.similarity(vector, latest[requestId]) >= g.threshold
    ensures var own := g.similarity(vector, latest[requestId]);
            var kept := full[..Min(g.limit, |full|)];
            var others := Similar(latest, g, requestId, vector);
            && (|set q | q in others && g.similarity(vector, latest[q]) >= own| < g.limit ==> Mentions(kept, requestId))
            && (|set q | q in others && g.similarity(vector, latest[q]) > own| >= g.limit ==> !Mentions(kept, requestId))
  {
    var own := g.similarity(vector, latest[requestId]);
    assert Match(requestId, own) in full;
    var k :| 0 <= k < |full| && full[k] == Match(requestId, own);
    AheadBetween(full, latest, g, requestId, vector, k);
    var kept := full[..Min(g.limit, |full|)];
    if k < g.limit { assert kept[k].requestId == requestId; }
  }

  /** Those ahead of the own point score as high, and those that score higher are ahead. */
  lemma AheadBetween(full: seq<Match>, latest: map<string, Vector>, g: Setting, requestId: string, vector: Vector, k: nat)
    requires IsRanking(full, latest, g, vector) && requestId in latest && k < |full|
    requires full[k] == Match(requestId, g.similarity(vector, latest[requestId]))
    ensures var own := full[k].score; var others := Similar(latest, g, requestId, vector);
            && |set q | q in others && g.similarity(vector, latest[q]) > own| <= k
            && k <= |set q | q in others && g.similarity(vector, latest[q]) >= own|
  {
    var own, others := full[k].score, Similar(latest, g, requestId, vector);
    var ahead := RequestIds(full[..k]);
    CountRequests(full[..k]);
    var asHigh := set q | q in others && g.similarity(vector, latest[q]) >= own;
    var higher := set q | q in others && g.similarity(vector, latest[q]) > own;
    forall q | q in ahead ensures q in asHigh {
      var i :| 0 <= i < k && full[..k][i].requestId == q;
      assert full[i] in full;
    }
    forall q | q in higher ensures q in ahead { HigherIsAhead(full, latest, g, vector, k, q); }
    SubsetSize(ahead, asHigh);
    SubsetSize(higher, ahead);
  }

  lemma HigherIsAhead(full: seq<Match>, latest: map<string, Vector>, g: Setting, vector: Vector, k: nat, q: string)
    requires IsRanking(full, latest, g, vector) && k < |full| && q in latest
    requires g.similarity(vector, latest[q]) >= g.threshold && g.similarity(vector, latest[q]) > full[k].score
    ensures q in RequestIds(full[..k])
  {
    var y := Match(q, g.similarity(vector, latest[q]));
    assert y in full;
    var i :| 0 <= i < |full| && full[i] == y;
    assert full[..k][i] == y;
  }

  // ---------------------------------------------------------------- replay

  /** Two assessments of a request, before and after it is stored, whatever the order of
      equal scores: same risk, maximum and campaign flag, and the same count when fewer
      than `limit` requests are similar. */
  lemma SameAssessment(first: Assessment, second: Assessment, latest: map<string, Vector>, g: Setting, requestId: string, vector: Vector)
    requires IsAssessment(first, latest, g, requestId, vector)
    requires IsAssessment(second, latest[requestId := vector], g, requestId, vector)
    ensures first.riskScore == second.riskScore
    ensures first.maximumSimilarity == second.maximumSimilarity
    ensures first.Coordinated() <==> second.Coordinated()
    ensures |Similar(latest, g, requestId, vector)| < g.limit ==> first == second
  {
    var similar := Similar(latest, g, requestId, vector);
    assert similar == Similar(latest[requestId := vector], g, requestId, vector);
    if similar != {} {
      var q :| q in similar && first.maximumSimilarity == g.similarity(vector, latest[q]);
      var p :| p in similar && second.maximumSimilarity == g.similarity(vector, latest[requestId := vector][p]);
      assert g.similarity(vector, latest[p]) <= first.maximumSimilarity;
      assert g.similarity(vector, latest[requestId := vector][q]) <= second.maximumSimilarity;
    }
  }

  /** Replaying a request leaves risk, maximum and campaign flag unchanged, and the
      whole assessment when fewer than `limit` requests are similar. */
  lemma ReplayUnchanged(calls: seq<Call>, g: Setting, requestId: string, vector: Vector)
    requires g.limit >= 6
    ensures var x := IndexAfter(calls); var y := After(x, requestId, vector);
            && x.Coherent() && y.Coherent()
            && var first, second := Answer(x, g, requestId, vector), Answer(y, g, requestId, vector);
            && first.riskScore == second.riskScore && first.maximumSimilarity == second.maximumSimilarity
            && (first.Coordinated() <==> second.Coordinated())
            && (|Similar(x.latest, g, requestId, vector)| < g.limit ==> first == second)
  {
    var x := IndexAfter(calls);
    HistoryCoherent(calls);
    AfterCoherent(x, requestId, vector);
    var y := After(x, requestId, vector);
    TruncationInvisible(x, g, requestId, vector);
    TruncationInvisible(y, g, requestId, vector);
    SameAssessment(Answer(x, g, requestId, vector), Answer(y, g, requestId, vector), x.latest, g, requestId, vector);
  }

  /** The rivals of a point are the same once the request is stored. */
  lemma SameRivals(x: Index, g: Setting, requestId: string, vector: Vector, own: real)
    requires x.Coherent()
    ensures Rivals(After(x, requestId, vector), g, requestId, vector, own) == Rivals(x, g, requestId, vector, own)
  {
    if requestId !in x.latest {
      forall q | q in x.latest && q != requestId ensures Before(x.arrived + [requestId], q, requestId) {
        BeforeLast(x.arrived, requestId, q);
      }
    }
  }

  /** Replaying a request leaves its reported count unchanged exactly when fewer others
      than the limit are close, or its earlier point and its new one both take a result or
      both take none.  All of this can be told before the calls. */
  lemma ReplayCountExactly(calls: seq<Call>, g: Setting, requestId: string, vector: Vector)
    ensures var x := IndexAfter(calls); var y := After(x, requestId, vector);
            && x.Coherent() && y.Coherent()
            && (Answer(x, g, requestId, vector).matchCount == Answer(y, g, requestId, vector).matchCount
                <==> (|Similar(x.latest, g, requestId, vector)| < g.limit
                      || (EarlierTakesSlot(x, g, requestId, vector)
                          <==> TakesSlot(x, g, requestId, vector, g.similarity(vector, vector)))))
  {
    var x := IndexAfter(calls);
    HistoryCoherent(calls);
    AfterCoherent(x, requestId, vector);
    var y := After(x, requestId, vector);
    MatchCountExact(x, g, requestId, vector);
    MatchCountExact(y, g, requestId, vector);
    assert Similar(y.latest, g, requestId, vector) == Similar(x.latest, g, requestId, vector);
    SameRivals(x, g, requestId, vector, g.similarity(vector, vector));
  }

  /** In particular a request seen for the first time keeps its count when the limit is
      filled by others that score as high as it scores itself. */
  lemma FirstReplayKeepsCount(calls: seq<Call>, g: Setting, requestId: string, vector: Vector)
    requires requestId !in IndexAfter(calls).latest
    requires var x := IndexAfter(calls); var own := g.similarity(vector, vector);
             |set q | q in Similar(x.latest, g, requestId, vector) && g.similarity(vector, x.latest[q]) >= own| >= g.limit
    ensures var x := IndexAfter(calls); var y := After(x, requestId, vector);
            x.Coherent() && y.Coherent()
            && Answer(x, g, requestId, vector).matchCount == Answer(y, g, requestId, vector).matchCount
  {
    var x, own := IndexAfter(calls), g.similarity(vector, vector);
    ReplayCountExactly(calls, g, requestId, vector);
    if own >= g.threshold { NewcomerRivals(x, g, requestId, vector, own); }
  }

  /** Everyone who scores as high is ahead of a request that has not arrived. */
  lemma NewcomerRivals(x: Index, g: Setting, requestId: string, vector: Vector, own: real)
    requires requestId !in x.latest && own >= g.threshold
    ensures Rivals(x, g, requestId, vector, own)
         == set q | q in Similar(x.latest, g, requestId, vector) && g.similarity(vector, x.latest[q]) >= own
  {
  }

  // ---------------------------------------------------------------- witnesses

  /** The name of the `i`-th request of a crowd. */
  function NameOf(i: nat): string {
    seq(i, _ => 'x')
  }

  /** A first request with vector `u`, then `n` others with vector `v`. */
  function Crowd(u: Vector, v: Vector, n: nat): seq<Call> {
    if n == 0 then [Call("", u)] else Crowd(u, v, n - 1) + [Call(NameOf(n), v)]
  }

  /** The index of a crowd: the first request, then `n` others with vector `v`. */
  predicate IsCrowd(x: Index, u: Vector, v: Vector, n: nat) {
    && x.arrived != [] && x.arrived[0] == "" && "" in x.latest && x.latest[""] == u
    && |x.latest.Keys - {""}| == n
    && (forall q :: q in x.latest && q != "" ==> x.latest[q] == v)
    && (forall q :: q in x.latest ==> |q| <= n)
  }

  lemma CrowdGrows(x: Index, u: Vector, v: Vector, n: nat)
    requires IsCrowd(x, u, v, n)
    ensures IsCrowd(After(x, NameOf(n + 1), v), u, v, n + 1)
  {
    var name := NameOf(n + 1);
    assert |name| == n + 1 && name !in x.latest;
    assert After(x, name, v).latest.Keys - {""} == (x.latest.Keys - {""}) + {name};
  }

  lemma {:induction false} CrowdFacts(u: Vector, v: Vector, n: nat)
    ensures IsCrowd(IndexAfter(Crowd(u, v, n)), u, v, n)
  {
    var calls := Crowd(u, v, n);
    if n == 0 {
      assert calls[..0] == [];
      assert IndexAfter(calls) == After(NOTHING, "", u);
      assert IndexAfter(calls).latest.Keys - {""} == {};
    } else {
      CrowdFacts(u, v, n - 1);
      assert calls[..|calls| - 1] == Crowd(u, v, n - 1);
      CrowdGrows(IndexAfter(Crowd(u, v, n - 1)), u, v, n - 1);
    }
  }

  /** In a crowd the others are close, and none is ahead of the first point by arrival. */
  lemma CrowdRivals(u: Vector, v: Vector, n: nat, g: Setting)
    requires g.similarity(v, v) >= g.threshold
    ensures var x := IndexAfter(Crowd(u, v, n));
            && x.Coherent()
            && |Similar(x.latest, g, "", v)| == n && |x.latest.Keys - {""}| == n
            && Rivals(x, g, "", v, g.similarity(v, v)) == {}
            && (g.similarity(v, u) < g.similarity(v, v) ==>
                  Rivals(x, g, "", v, g.similarity(v, u)) == x.latest.Keys - {""})
  {
    var x := IndexAfter(Crowd(u, v, n));
    CrowdFacts(u, v, n);
    HistoryCoherent(Crowd(u, v, n));
    assert Similar(x.latest, g, "", v) == x.latest.Keys - {""};
    forall q | q in x.latest && q != "" ensures !Before(x.arrived, q, "") {
      FirstIsFirst(x.arrived, q);
    }
  }

  lemma FirstIsFirst(arrived: seq<string>, q: string)
    requires Distinct(arrived) && arrived != [] && q != arrived[0]
    ensures !Before(arrived, q, arrived[0])
  {
  }

  /** Six is the least limit that works: with any smaller one, the first of six or more
      requests with one vector misses the block risk on its next call, because its own
      earlier point takes a result. */
  lemma SmallerLimitFails(g: Setting, v: Vector, others: nat) returns (calls: seq<Call>, requestId: string)
    requires g.limit < 6 && others >= 5 && g.similarity(v, v) >= g.threshold
    ensures var x := IndexAfter(calls);
            && x.Coherent() && |Similar(x.latest, g, requestId, v)| == others
            && Answer(x, g, requestId, v).riskScore < RiskTable(others)
  {
    calls, requestId := Crowd(v, v, others), "";
    CrowdCount(g, v, others);
    FewerThanFive(if g.limit == 0 then 0 else g.limit - 1, others);
  }

  /** The first of a crowd with one vector is told of one other less than the limit. */
  lemma CrowdCount(g: Setting, v: Vector, n: nat)
    requires g.limit <= n && g.similarity(v, v) >= g.threshold
    ensures var x := IndexAfter(Crowd(v, v, n));
            && x.Coherent() && |Similar(x.latest, g, "", v)| == n
            && var told := if g.limit == 0 then 0 else g.limit - 1;
            && Answer(x, g, "", v).matchCount == told && Answer(x, g, "", v).riskScore == RiskTable(told)
  {
    CrowdFacts(v, v, n);
    CrowdRivals(v, v, n, g);
    MatchCountExact(IndexAfter(Crowd(v, v, n)), g, "", v);
  }

  lemma FewerThanFive(told: nat, others: nat)
    requires told < 5 <= others
    ensures RiskTable(told) < RiskTable(others)
  {
  }

  /** The count does change: a request with an earlier, less similar point and `limit`
      others at its new vector reports one match less when it is replayed. */
  lemma ReplayCountChanges(g: Setting, u: Vector, v: Vector) returns (calls: seq<Call>, requestId: string)
    requires g.limit > 0 && g.similarity(v, v) >= g.threshold && g.similarity(v, u) < g.similarity(v, v)
    ensures var x := IndexAfter(calls); var y := After(x, requestId, v);
            && x.Coherent() && y.Coherent()
            && Answer(x, g, requestId, v).matchCount == g.limit
            && Answer(y, g, requestId, v).matchCount == g.limit - 1
  {
    calls, requestId := Crowd(u, v, g.limit), "";
    CrowdCall(g, u, v);
    CrowdReplay(g, u, v);
  }

  lemma CrowdCall(g: Setting, u: Vector, v: Vector)
    requires g.similarity(v, v) >= g.threshold && g.similarity(v, u) < g.similarity(v, v)
    ensures var x := IndexAfter(Crowd(u, v, g.limit));
            x.Coherent() && Answer(x, g, "", v).matchCount == g.limit
  {
    CrowdFacts(u, v, g.limit);
    CrowdRivals(u, v, g.limit, g);
    MatchCountExact(IndexAfter(Crowd(u, v, g.limit)), g, "", v);
  }

  lemma CrowdReplay(g: Setting, u: Vector, v: Vector)
    requires g.limit > 0 && g.similarity(v, v) >= g.threshold
    ensures var y := After(IndexAfter(Crowd(u, v, g.limit)), "", v);
            y.Coherent() && Answer(y, g, "", v).matchCount == g.limit - 1
  {
    var x := IndexAfter(Crowd(u, v, g.limit));
    CrowdRivals(u, v, g.limit, g);
    AfterCoherent(x, "", v);
    ReplayedPoint(x, g, "", v);
    MatchCountExact(After(x, "", v), g, "", v);
  }

  /** A stored request with no rivals takes a result when it is replayed. */
  lemma ReplayedPoint(x: Index, g: Setting, requestId: string, v: Vector)
    requires x.Coherent() && g.limit > 0 && g.similarity(v, v) >= g.threshold
    requires Rivals(x, g, requestId, v, g.similarity(v, v)) == {}
    ensures var y := After(x, requestId, v);
            EarlierTakesSlot(y, g, requestId, v) && Similar(y.latest, g, requestId, v) == Similar(x.latest, g, requestId, v)
  {
    SameRivals(x, g, requestId, v, g.similarity(v, v));
    assert After(x, requestId, v).latest[requestId] == v;
  }
}
