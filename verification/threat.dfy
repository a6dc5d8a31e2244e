/** Campaign detection: a truncated similarity search decides the risk as if every
    stored request had been counted. */
module ThreatIntelligence {
  import opened Wrappers
  import opened Sequences
  import opened StableSorting

  type Vector = seq<real>

  datatype Point = Point(vector: Vector, requestId: string)

  datatype Match = Match(requestId: string, score: real)

  datatype Assessment = Assessment(matchCount: nat, maximumSimilarity: real, riskScore: real) {
    predicate Coordinated() {
      matchCount >= 2
    }
  }

  /** What a deployment fixes of the search. */
  datatype Setting = Setting(similarity: (Vector, Vector) -> real, threshold: real, limit: nat)

  function Min(a: nat, b: nat): nat { if a <= b then a else b }

  // ---------------------------------------------------------------- ranking

  /** The match of a point that meets the threshold. */
  function CloseMatch(similarity: (Vector, Vector) -> real, vector: Vector, threshold: real): Point -> Option<Match> {
    (point: Point) => if similarity(vector, point.vector) >= threshold then Some(Match(point.requestId, similarity(vector, point.vector)))
             else None
  }

  function Descending(m: Match): real {
    -m.score
  }

  function RequestOf(m: Match): string {
    m.requestId
  }

  /** The close points of the rows, best first; equal scores stay in order. */
  function Ranked(rows: seq<Point>, similarity: (Vector, Vector) -> real, vector: Vector, threshold: real): seq<Match> {
    StableSort(Selected(rows, CloseMatch(similarity, vector, threshold)), Descending)
  }

  // ---------------------------------------------------------------- the store

  /** A dictionary of points; `ids` are its keys in order of insertion. */
  class InMemoryThreatVectorStore {
    const similarity: (Vector, Vector) -> real
    var points: map<string, Point>
    var ids: seq<string>

    constructor (similarity: (Vector, Vector) -> real)
      ensures Valid() && this.similarity == similarity && ids == []
    {
      this.similarity := similarity;
      points, ids := map[], [];
    }

    ghost predicate Valid()
      reads this
    {
      Distinct(ids) && (forall id :: id in points <==> id in ids)
    }

    function Rows(): (r: seq<Point>)
      requires Valid()
      reads this
      ensures |r| == |ids|
    {
      seq(|ids|, i requires 0 <= i < |ids| && Valid() reads this => assert ids[i] in ids; points[ids[i]])
    }

    /** The points that meet the threshold, best first, cut off at the limit. */
    method Search(vector: Vector, limit: nat, threshold: real) returns (matches: seq<Match>)
      requires Valid()
      ensures var full := Ranked(Rows(), similarity, vector, threshold);
              matches == full[..Min(limit, |full|)]
    {
      matches := [];
      for i := 0 to |ids|
        invariant matches == Selected(Rows()[..i], CloseMatch(similarity, vector, threshold))
      {
        assert Rows()[..i + 1][..i] == Rows()[..i];
        assert ids[i] in ids;
        var point := points[ids[i]];
        var score := similarity(vector, point.vector);
        if score >= threshold {
          matches := matches + [Match(point.requestId, score)];
        }
      }
      assert Rows()[..|ids|] == Rows();
      matches := StableSort(matches, Descending);
      matches := matches[..Min(limit, |matches|)];
    }

    /** A new key goes to the end; a known one keeps its place. */
    method Upsert(pointId: string, vector: Vector, requestId: string)
      requires Valid()
      modifies this
      ensures Valid() && points == old(points)[pointId := Point(vector, requestId)]
      ensures ids == if pointId in old(points) then old(ids) else old(ids) + [pointId]
    {
      if pointId !in points {
        ids := ids + [pointId];
      }
      points := points[pointId := Point(vector, requestId)];
    }
  }

  // ---------------------------------------------------------------- the service

  /** The matches of other requests, in order. */
  function Others(matches: seq<Match>, requestId: string): seq<Match> {
    if matches == [] then []
    else
      var rest := Others(matches[..|matches| - 1], requestId);
      var last := matches[|matches| - 1];
      if last.requestId != requestId then rest + [last] else rest
  }

  /** `max(..., default=0.0)`. */
  function Highest(matches: seq<Match>): real {
    if matches == [] then 0.0
    else if |matches| == 1 then matches[0].score
    else
      var rest := Highest(matches[..|matches| - 1]);
      var last := matches[|matches| - 1].score;
      if rest >= last then rest else last
  }

  /** The documented table: none, review at 0.65, 0.70 and 0.75, block at 0.90. */
  function RiskTable(count: nat): real {
    if count < 2 then 0.0
    else if count == 2 then 0.65
    else if count == 3 then 0.70
    else if count == 4 then 0.75
    else 0.90
  }

  /** The risk as the code computes it, which agrees with the table. */
  function RiskScore(count: nat): (r: real)
    ensures r == RiskTable(count)
  {
    if count >= 5 then 0.90
    else if count >= 2 then
      var linear := 0.55 + 0.05 * count as real;
      if linear <= 0.84 then linear else 0.84
    else 0.0
  }

  /** The answer from the full list of matches, cut off at the limit. */
  function Assess(full: seq<Match>, limit: nat, requestId: string): Assessment {
    var kept := Others(full[..Min(limit, |full|)], requestId);
    Assessment(|kept|, Highest(kept), RiskTable(|kept|))
  }

  /** The requests in order of arrival, and the last vector of each. */
  datatype Index = Index(arrived: seq<string>, latest: map<string, Vector>) {
    ghost predicate Coherent() {
      Distinct(arrived) && (forall r :: r in latest <==> r in arrived)
    }
  }

  const NOTHING := Index([], map[])

  /** One row for each request. */
  function RowsOf(x: Index): (r: seq<Point>)
    requires x.Coherent()
    ensures |r| == |x.arrived|
  {
    seq(|x.arrived|, i requires 0 <= i < |x.arrived| && x.Coherent() =>
      assert x.arrived[i] in x.arrived; Point(x.latest[x.arrived[i]], x.arrived[i]))
  }

  function Full(x: Index, g: Setting, vector: Vector): seq<Match>
    requires x.Coherent()
  {
    Ranked(RowsOf(x), g.similarity, vector, g.threshold)
  }

  /** The assessment of a request, and the index once it is stored. */
  function Answer(x: Index, g: Setting, requestId: string, vector: Vector): Assessment
    requires x.Coherent()
  {
    Assess(Full(x, g, vector), g.limit, requestId)
  }

  function After(x: Index, requestId: string, vector: Vector): Index {
    Index(if requestId in x.latest then x.arrived else x.arrived + [requestId], x.latest[requestId := vector])
  }

  ghost predicate Injective(pointId: string -> string) {
    forall r, q :: pointId(r) == pointId(q) ==> r == q
  }

  /** The dictionary holds the point of each request, in order of arrival. */
  ghost predicate Represents(ids: seq<string>, points: map<string, Point>, x: Index, pointId: string -> string) {
    && |ids| == |x.arrived|
    && (forall i :: 0 <= i < |ids| ==> ids[i] == pointId(x.arrived[i]))
    && (forall r :: r in x.latest ==> pointId(r) in points && points[pointId(r)] == Point(x.latest[r], r))
  }

  lemma KnownPoint(ids: seq<string>, points: map<string, Point>, x: Index, pointId: string -> string, r: string)
    requires Injective(pointId) && x.Coherent() && Represents(ids, points, x, pointId)
    requires forall id :: id in points <==> id in ids
    ensures pointId(r) in points <==> r in x.latest
  {
    if pointId(r) in points {
      var i :| 0 <= i < |ids| && ids[i] == pointId(r);
      assert x.arrived[i] in x.arrived;
    }
  }

  lemma UpsertRepresents(ids: seq<string>, points: map<string, Point>, x: Index, pointId: string -> string,
                         r: string, vector: Vector)
    requires Injective(pointId) && Represents(ids, points, x, pointId)
    ensures Represents(if r in x.latest then ids else ids + [pointId(r)], points[pointId(r) := Point(vector, r)],
                       After(x, r, vector), pointId)
  {
  }

  lemma AfterCoherent(x: Index, requestId: string, vector: Vector)
    requires x.Coherent()
    ensures After(x, requestId, vector).Coherent()
  {
  }

  class ThreatIntelligenceService {
    const encode: string -> Vector
    const pointId: string -> string
    const store: InMemoryThreatVectorStore
    const threshold: real
    const searchLimit: nat
    ghost var index: Index

    /** Every request has one point, which holds its last vector. */
    ghost predicate Valid()
      reads this, store
    {
      Injective(pointId) && store.Valid() && index.Coherent() && Represents(store.ids, store.points, index, pointId)
    }

    ghost function Configuration(): Setting {
      Setting(store.similarity, threshold, searchLimit)
    }

    constructor (encode: string -> Vector, pointId: string -> string, similarity: (Vector, Vector) -> real,
                 threshold: real, searchLimit: nat)
      requires Injective(pointId)
      ensures Valid() && index == NOTHING && fresh(store)
      ensures this.encode == encode && this.pointId == pointId && Configuration() == Setting(similarity, threshold, searchLimit)
    {
      this.encode := encode;
      this.pointId := pointId;
      this.threshold := threshold;
      this.searchLimit := searchLimit;
      store := new InMemoryThreatVectorStore(similarity);
      index := NOTHING;
    }

    /** With a limit of at least six the answer is that of the untruncated count over
        the last vectors of all other requests. */
    method AssessAndIndex(requestId: string, text: string) returns (a: Assessment)
      requires Valid()
      modifies this, store
      ensures Valid() && index == After(old(index), requestId, encode(text))
      ensures index.latest == old(index.latest)[requestId := encode(text)]
      ensures index.arrived == if requestId in old(index.latest) then old(index.arrived) else old(index.arrived) + [requestId]
      ensures a == Answer(old(index), Configuration(), requestId, encode(text))
      ensures searchLimit >= 6 ==> IsAssessment(a, old(index.latest), Configuration(), requestId, encode(text))
    {
      var vector := encode(text);
      var distinctMatches := FindOthers(requestId, vector);
      if searchLimit >= 6 { TruncationInvisible(index, Configuration(), requestId, vector); }
      Remember(requestId, vector);
      a := Assessment(|distinctMatches|, Highest(distinctMatches), RiskScore(|distinctMatches|));
    }

    method FindOthers(requestId: string, vector: Vector) returns (distinctMatches: seq<Match>)
      requires Valid()
      ensures var full := Full(index, Configuration(), vector);
              distinctMatches == Others(full[..Min(searchLimit, |full|)], requestId)
    {
      SameRows();
      var matches := store.Search(vector, searchLimit, threshold);
      distinctMatches := Others(matches, requestId);
    }

    method Remember(requestId: string, vector: Vector)
      requires Valid()
      modifies this`index, store
      ensures Valid() && index == After(old(index), requestId, vector)
    {
      KnownPoint(store.ids, store.points, index, pointId, requestId);
      UpsertRepresents(store.ids, store.points, index, pointId, requestId, vector);
      AfterCoherent(index, requestId, vector);
      store.Upsert(pointId(requestId), vector, requestId);
      index := After(index, requestId, vector);
    }

    lemma SameRows()
      requires Valid()
      ensures store.Rows() == RowsOf(index)
    {
      forall i | 0 <= i < |store.ids| ensures store.Rows()[i] == RowsOf(index)[i] {
        assert index.arrived[i] in index.arrived;
      }
    }
  }

  // ---------------------------------------------------------------- what it means

  /** The other requests whose last vector is close enough. */
  function Similar(latest: map<string, Vector>, g: Setting, requestId: string, vector: Vector): set<string> {
    set q | q in latest && q != requestId && g.similarity(vector, latest[q]) >= g.threshold
  }

  ghost predicate IsAssessment(a: Assessment, latest: map<string, Vector>, g: Setting, requestId: string, vector: Vector) {
    var similar := Similar(latest, g, requestId, vector);
    && a.riskScore == RiskTable(|similar|)
    && (a.Coordinated() <==> |similar| >= 2)
    && (if similar == {} then a.maximumSimilarity == 0.0
        else (exists q :: q in similar && a.maximumSimilarity == g.similarity(vector, latest[q]))
             && (forall q :: q in similar ==> g.similarity(vector, latest[q]) <= a.maximumSimilarity))
    && (|similar| < g.limit ==> a.matchCount == |similar|)
    && (|similar| >= g.limit ==> g.limit - 1 <= a.matchCount <= g.limit)
  }

  // ---------------------------------------------------------------- truncation

  predicate Falling(m: seq<Match>) {
    forall i, j :: 0 <= i < j < |m| ==> m[i].score >= m[j].score
  }

  predicate OnePerRequest(m: seq<Match>) {
    forall i, j :: 0 <= i < j < |m| ==> m[i].requestId != m[j].requestId
  }

  predicate Mentions(m: seq<Match>, requestId: string) {
    exists i :: 0 <= i < |m| && m[i].requestId == requestId
  }

  lemma {:induction false} OthersMembers(m: seq<Match>, requestId: string)
    ensures forall x :: x in Others(m, requestId) <==> x in m && x.requestId != requestId
  {
    if m == [] {
    } else {
      var n := |m| - 1;
      OthersMembers(m[..n], requestId);
      assert forall x :: x in m <==> x in m[..n] || x == m[n];
    }
  }

  lemma {:induction false} OthersOrder(m: seq<Match>, requestId: string)
    requires Falling(m) && OnePerRequest(m)
    ensures Falling(Others(m, requestId)) && OnePerRequest(Others(m, requestId))
  {
    if m == [] {
    } else {
      var n := |m| - 1;
      var rest := Others(m[..n], requestId);
      OthersOrder(m[..n], requestId);
      forall i | 0 <= i < |rest| ensures rest[i].score >= m[n].score && rest[i].requestId != m[n].requestId {
        OthersMembers(m[..n], requestId);
        assert rest[i] in rest;
        var k :| 0 <= k < n && m[k] == rest[i];
      }
      OneMoreInOrder(rest, m[n]);
    }
  }

  lemma OneMoreInOrder(m: seq<Match>, x: Match)
    requires Falling(m) && OnePerRequest(m)
    requires forall i :: 0 <= i < |m| ==> m[i].score >= x.score && m[i].requestId != x.requestId
    ensures Falling(m + [x]) && OnePerRequest(m + [x])
  {
  }

  lemma {:induction false} OthersCount(m: seq<Match>, requestId: string)
    requires OnePerRequest(m)
    ensures |Others(m, requestId)| + (if Mentions(m, requestId) then 1 else 0) == |m|
  {
    if m == [] {
    } else {
      var n := |m| - 1;
      OthersCount(m[..n], requestId);
      if m[n].requestId == requestId {
        assert forall i :: 0 <= i < n ==> m[i].requestId != m[n].requestId;
      } else {
        assert Mentions(m, requestId) ==> Mentions(m[..n], requestId);
      }
    }
  }

  /** Cutting the list off cuts the list of others off. */
  lemma {:induction false} OthersOfPrefix(m: seq<Match>, k: nat, requestId: string)
    requires k <= |m|
    ensures Others(m[..k], requestId) <= Others(m, requestId)
  {
    if k == |m| {
      assert m[..k] == m;
    } else {
      OthersOfPrefix(m[..|m| - 1], k, requestId);
      assert m[..|m| - 1][..k] == m[..k];
    }
  }

  lemma {:induction false} HighestIsFirst(m: seq<Match>)
    requires Falling(m) && m != []
    ensures Highest(m) == m[0].score
  {
    if |m| > 1 { HighestIsFirst(m[..|m| - 1]); }
  }

  function RequestIds(m: seq<Match>): set<string> {
    set x | x in m :: x.requestId
  }

  lemma {:induction false} CountRequests(m: seq<Match>)
    requires OnePerRequest(m)
    ensures |RequestIds(m)| == |m|
  {
    if m == [] {
    } else {
      var n := |m| - 1;
      CountRequests(m[..n]);
      assert RequestIds(m) == RequestIds(m[..n]) + {m[n].requestId} by {
        assert forall x :: x in m <==> x in m[..n] || x == m[n];
      }
      assert m[n].requestId !in RequestIds(m[..n]);
    }
  }

  /** How many others survive the cut. */
  lemma KeptCount(full: seq<Match>, limit: nat, requestId: string)
    requires OnePerRequest(full)
    ensures var kept := full[..Min(limit, |full|)];
            |Others(kept, requestId)|
              == if |Others(full, requestId)| < limit then |Others(full, requestId)|
                 else if Mentions(kept, requestId) then limit - 1 else limit
  {
    OthersCount(full, requestId);
    OthersCount(full[..Min(limit, |full|)], requestId);
    if limit >= |full| { assert full[..|full|] == full; }
  }

  lemma KeptHighest(full: seq<Match>, cut: nat, requestId: string)
    requires Falling(full) && OnePerRequest(full) && cut <= |full|
    requires Others(full[..cut], requestId) != []
    ensures Highest(Others(full[..cut], requestId)) == Highest(Others(full, requestId))
  {
    OthersOfPrefix(full, cut, requestId);
    OthersOrder(full, requestId);
    OthersOrder(full[..cut], requestId);
    HighestIsFirst(Others(full[..cut], requestId));
    HighestIsFirst(Others(full, requestId));
  }

  /** With a limit of six or more, the others that survive the cut decide the table and
      the maximum as all others do. */
  lemma CutOthers(full: seq<Match>, limit: nat, requestId: string)
    requires Falling(full) && OnePerRequest(full) && limit >= 6
    ensures var kept := Others(full[..Min(limit, |full|)], requestId);
            var all := Others(full, requestId);
            && RiskTable(|kept|) == RiskTable(|all|)
            && (|kept| >= 2 <==> |all| >= 2)
            && Highest(kept) == Highest(all)
            && (|all| < limit ==> |kept| == |all|)
            && (|all| >= limit ==> limit - 1 <= |kept| <= limit)
  {
    KeptCount(full, limit, requestId);
    if Others(full[..Min(limit, |full|)], requestId) != [] {
      KeptHighest(full, Min(limit, |full|), requestId);
    }
  }

  // ---------------------------------------------------------------- the full list

  /** The match that a close request makes. */
  predicate IsMatchOf(y: Match, latest: map<string, Vector>, g: Setting, vector: Vector) {
    y.requestId in latest && y.score == g.similarity(vector, latest[y.requestId]) && y.score >= g.threshold
  }

  /** `full` holds each close request with the similarity of its last vector. */
  ghost predicate Lists(full: seq<Match>, latest: map<string, Vector>, g: Setting, vector: Vector) {
    forall y :: y in full <==> IsMatchOf(y, latest, g, vector)
  }

  /** A full list in falling order, however equal scores are ordered. */
  ghost predicate IsRanking(full: seq<Match>, latest: map<string, Vector>, g: Setting, vector: Vector) {
    Falling(full) && OnePerRequest(full) && Lists(full, latest, g, vector)
  }

  /** Higher scores first, equal ones by arrival. */
  predicate Stable(full: seq<Match>, arrived: seq<string>) {
    forall i, j :: 0 <= i < j < |full| ==>
      full[i].score > full[j].score || (full[i].score == full[j].score && Before(arrived, full[i].requestId, full[j].requestId))
  }

  lemma CloseIsMatch(x: Index, g: Setting, vector: Vector, y: Match)
    requires x.Coherent()
    ensures IsSelected(y, RowsOf(x), CloseMatch(g.similarity, vector, g.threshold)) <==> IsMatchOf(y, x.latest, g, vector)
  {
    var rows, pick := RowsOf(x), CloseMatch(g.similarity, vector, g.threshold);
    forall i | 0 <= i < |rows| ensures x.arrived[i] in x.latest && rows[i] == Point(x.latest[x.arrived[i]], x.arrived[i]) {
      assert x.arrived[i] in x.arrived;
    }
    if IsMatchOf(y, x.latest, g, vector) {
      var i :| 0 <= i < |x.arrived| && x.arrived[i] == y.requestId;
      assert pick(rows[i]) == Some(y);
    }
  }

  /** The full list of an index: every close request once, best first, ties by arrival. */
  lemma FullFacts(x: Index, g: Setting, vector: Vector)
    requires x.Coherent()
    ensures IsRanking(Full(x, g, vector), x.latest, g, vector) && Stable(Full(x, g, vector), x.arrived)
  {
    var full, pick := Full(x, g, vector), CloseMatch(g.similarity, vector, g.threshold);
    assert forall i :: 0 <= i < |x.arrived| ==> x.arrived[i] in x.arrived;
    SelectionSorted(RowsOf(x), x.arrived, pick, Descending, RequestOf);
    forall y ensures y in full <==> IsMatchOf(y, x.latest, g, vector) {
      CloseIsMatch(x, g, vector, y);
    }
    forall i, j | 0 <= i < j < |full|
      ensures full[i].requestId != full[j].requestId && full[i].score >= full[j].score
      ensures full[i].score == full[j].score ==> Before(x.arrived, full[i].requestId, full[j].requestId)
    {
      assert Precedes(full[i], full[j], Descending, RequestOf, x.arrived);
      DistinctMatches(x, g, vector, full[i], full[j]);
    }
  }

  lemma DistinctMatches(x: Index, g: Setting, vector: Vector, a: Match, b: Match)
    requires Distinct(x.arrived) && IsMatchOf(a, x.latest, g, vector) && IsMatchOf(b, x.latest, g, vector)
    requires Precedes(a, b, Descending, RequestOf, x.arrived)
    ensures a.requestId != b.requestId
  {
    NotBeforeItself(x.arrived, a.requestId);
  }

  /** With a limit of six or more the cut changes nothing that matters, however equal
      scores are ordered. */
  lemma AnyRankingAssesses(full: seq<Match>, latest: map<string, Vector>, g: Setting, requestId: string, vector: Vector)
    requires g.limit >= 6 && IsRanking(full, latest, g, vector)
    ensures IsAssessment(Assess(full, g.limit, requestId), latest, g, requestId, vector)
  {
    CutOthers(full, g.limit, requestId);
    SimilarAreOthers(full, latest, g, requestId, vector);
    HighestOfOthers(full, latest, g, requestId, vector);
  }

  lemma TruncationInvisible(x: Index, g: Setting, requestId: string, vector: Vector)
    requires g.limit >= 6 && x.Coherent()
    ensures IsAssessment(Answer(x, g, requestId, vector), x.latest, g, requestId, vector)
  {
    FullFacts(x, g, vector);
    AnyRankingAssesses(Full(x, g, vector), x.latest, g, requestId, vector);
  }

  lemma SimilarAreOthers(full: seq<Match>, latest: map<string, Vector>, g: Setting, requestId: string, vector: Vector)
    requires IsRanking(full, latest, g, vector)
    ensures |Similar(latest, g, requestId, vector)| == |Others(full, requestId)|
  {
    OthersMembers(full, requestId);
    OthersOrder(full, requestId);
    var similar := Similar(latest, g, requestId, vector);
    forall q | q in similar ensures q in RequestIds(Others(full, requestId)) {
      assert Match(q, g.similarity(vector, latest[q])) in Others(full, requestId);
    }
    assert RequestIds(Others(full, requestId)) == similar;
    CountRequests(Others(full, requestId));
  }

  lemma HighestOfOthers(full: seq<Match>, latest: map<string, Vector>, g: Setting, requestId: string, vector: Vector)
    requires IsRanking(full, latest, g, vector)
    ensures var similar := Similar(latest, g, requestId, vector);
            var highest := Highest(Others(full, requestId));
            if similar == {} then highest == 0.0
            else (exists q :: q in similar && highest == g.similarity(vector, latest[q]))
                 && (forall q :: q in similar ==> g.similarity(vector, latest[q]) <= highest)
  {
    var similar, all := Similar(latest, g, requestId, vector), Others(full, requestId);
    OthersMembers(full, requestId);
    OthersOrder(full, requestId);
    forall q | q in similar ensures Match(q, g.similarity(vector, latest[q])) in all {}
    if all != [] {
      HighestIsFirst(all);
      assert all[0] in all && all[0].requestId in similar;
    }
  }
}
