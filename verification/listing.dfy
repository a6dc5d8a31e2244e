/** Listing the review cases: oldest first, and in order of insertion when they were
    created at the same time. */
module CaseListings {
  import opened Wrappers
  import opened Sequences
  import opened StableSorting
  import opened ReviewModel

  predicate InState(c: Case, state: Option<State>) {
    state.None? || c.state == state.value
  }

  /** Every case is stored under its own id, and `order` lists the ids. */
  ghost predicate IsDictionary(p: Projection) {
    && Distinct(p.order)
    && (forall id :: id in p.cases <==> id in p.order)
    && (forall id :: id in p.cases ==> p.cases[id].caseId == id)
  }

  lemma CommitKeepsDictionary(p: Projection, r: Record)
    requires IsDictionary(p)
    ensures IsDictionary(CommitTo(p, r))
  {
  }

  predicate Older(a: Case, b: Case, order: seq<string>) {
    a.createdAt < b.createdAt || (a.createdAt == b.createdAt && Before(order, a.caseId, b.caseId))
  }

  predicate OldestFirst(r: seq<Case>, order: seq<string>) {
    forall i, j :: 0 <= i < j < |r| ==> Older(r[i], r[j], order)
  }

  predicate IsCaseIn(c: Case, p: Projection, state: Option<State>) {
    c.caseId in p.cases && p.cases[c.caseId] == c && InState(c, state)
  }

  /** Each case of the state exactly once, in order. */
  ghost predicate IsListing(r: seq<Case>, p: Projection, state: Option<State>) {
    && OldestFirst(r, p.order)
    && (forall i, j :: 0 <= i < j < |r| ==> r[i].caseId != r[j].caseId)
    && (forall c :: c in r <==> IsCaseIn(c, p, state))
  }

  // ---------------------------------------------------------------- filter and sort

  /** The case of an id, if it is in the state. */
  function CaseIn(cases: map<string, Case>, state: Option<State>): string -> Option<Case> {
    id => if id in cases && InState(cases[id], state) then Some(cases[id]) else None
  }

  function CreatedAt(c: Case): real {
    c.createdAt as real
  }

  function IdOf(c: Case): string {
    c.caseId
  }

  function Listing(p: Projection, state: Option<State>): seq<Case> {
    StableSort(Selected(p.order, CaseIn(p.cases, state)), CreatedAt)
  }

  lemma NextListed(order: seq<string>, i: nat, cases: map<string, Case>, state: Option<State>)
    requires i < |order| && order[i] in cases
    ensures Selected(order[..i + 1], CaseIn(cases, state))
         == Selected(order[..i], CaseIn(cases, state))
            + if InState(cases[order[i]], state) then [cases[order[i]]] else []
  {
    assert order[..i + 1][..i] == order[..i];
  }

  lemma DistinctCases(p: Projection, state: Option<State>, a: Case, b: Case)
    requires IsDictionary(p) && IsCaseIn(a, p, state) && IsCaseIn(b, p, state)
    requires Precedes(a, b, CreatedAt, IdOf, p.order)
    ensures a.caseId != b.caseId && Older(a, b, p.order)
  {
    NotBeforeItself(p.order, a.caseId);
  }

  lemma ListingFacts(p: Projection, state: Option<State>)
    requires IsDictionary(p)
    ensures IsListing(Listing(p, state), p, state)
  {
    var r, pick := Listing(p, state), CaseIn(p.cases, state);
    SelectionSorted(p.order, p.order, pick, CreatedAt, IdOf);
    forall c ensures c in r <==> IsCaseIn(c, p, state) {
      assert c in r <==> IsSelected(c, p.order, pick);
      if IsCaseIn(c, p, state) {
        var i :| 0 <= i < |p.order| && p.order[i] == c.caseId;
        assert pick(p.order[i]) == Some(c);
      }
    }
    forall i, j | 0 <= i < j < |r| ensures Older(r[i], r[j], p.order) && r[i].caseId != r[j].caseId {
      assert Precedes(r[i], r[j], CreatedAt, IdOf, p.order);
      assert r[i] in r && r[j] in r;
      DistinctCases(p, state, r[i], r[j]);
    }
  }
}
