/** The running review service: the repositories that keep the projection and the file, and
    the service methods on top of them. */
module ReviewComponents {
  import opened Wrappers
  import opened ReviewModel
  import opened ReviewLaws
  import opened StableSorting
  import opened CaseListings
  import opened ReviewOutcomes

  // ---------------------------------------------------------------- repositories

  class InMemoryReviewRepository {
    var cases: map<string, Case>
    var requestIndex: map<string, string>
    var events: map<string, seq<Event>>
    /** The keys of `cases` in order of insertion. */
    var order: seq<string>

    constructor ()
      ensures View() == EMPTY && Valid()
    {
      cases, requestIndex, events, order := map[], map[], map[], [];
    }

    ghost function View(): Projection
      reads this
    {
      Projection(cases, requestIndex, events, order)
    }

    ghost predicate Valid()
      reads this
    {
      IsDictionary(View())
    }

    method Get(caseId: string) returns (found: Option<Case>)
      ensures found == if caseId in cases then Some(cases[caseId]) else None
    {
      if caseId !in cases {
        return None;
      }
      return Some(cases[caseId]);
    }

    method FindByRequestId(requestId: string) returns (found: Option<Case>)
      ensures found == FindByRequest(View(), requestId)
    {
      if requestId !in requestIndex || requestIndex[requestId] == "" {
        return None;
      }
      found := Get(requestIndex[requestId]);
    }

    method ListCases(state: Option<State>) returns (ordered: seq<Case>)
      requires Valid()
      ensures ordered == Listing(View(), state)
      ensures IsListing(ordered, View(), state)
    {
      ListingFacts(View(), state);
      var found: seq<Case> := [];
      for i := 0 to |order|
        invariant found == Selected(order[..i], CaseIn(cases, state))
      {
        assert order[i] in order;
        NextListed(order, i, cases, state);
        var c := cases[order[i]];
        if state.None? || c.state == state.value {
          found := found + [c];
        }
      }
      assert order[..|order|] == order;
      return StableSort(found, CreatedAt);
    }

    method Audit(caseId: string) returns (found: seq<Event>)
      ensures found == View().Audit(caseId)
    {
      return if caseId in events then events[caseId] else [];
    }

    method Commit(c: Case, event: Event)
      modifies this
      ensures View() == CommitTo(old(View()), Record(c, event))
      ensures old(Valid()) ==> Valid()
    {
      ghost var before' := View();
      if c.caseId !in cases {
        order := order + [c.caseId];
      }
      cases := cases[c.caseId := c];
      requestIndex := requestIndex[c.requestId := c.caseId];
      var before := if c.caseId in events then events[c.caseId] else [];
      events := events[c.caseId := before + [event]];
      if IsDictionary(before') { CommitKeepsDictionary(before', Record(c, event)); }
    }
  }

  class JsonlReviewRepository {
    const scheme: Scheme
    const memory: InMemoryReviewRepository
    var file: seq<Line>

    /** Opens the file; `Load` replays it. */
    constructor (scheme: Scheme, file: seq<Line>)
      ensures this.scheme == scheme && this.file == file && fresh(memory) && memory.View() == EMPTY && memory.Valid()
    {
      this.scheme := scheme;
      this.file := file;
      memory := new InMemoryReviewRepository();
    }

    ghost function View(): Projection
      reads memory
    {
      memory.View()
    }

    /** Rebuild the projection line by line, or stop at the first fault. */
    method Load() returns (fault: Option<Fault>)
      requires View() == EMPTY && memory.Valid()
      modifies memory
      ensures memory.Valid()
      ensures match Replay(scheme, file)
              case Ok(p) => fault == None && View() == p
              case Err(f) => fault == Some(f)
    {
      var n := 0;
      fault := None;
      while n < |file|
        invariant n <= |file| && fault == None && Replay(scheme, file[..n]) == Ok(View()) && memory.Valid()
      {
        ReplayNext(scheme, file, n);
        match file[n] {
          case Blank =>
          case Malformed =>
            fault := Some(InvalidRecord(n + 1));
          case Written(r) =>
            fault := LoadRecord(r, n + 1);
        }
        if fault.Some? {
          FaultStays(scheme, file, n + 1);
          return;
        }
        n := n + 1;
      }
      assert file[..n] == file;
    }

    /** Check a record against the chain of its case and commit it to the projection. */
    method LoadRecord(r: Record, number: nat) returns (fault: Option<Fault>)
      requires memory.Valid()
      modifies memory
      ensures memory.Valid()
      ensures fault.None? ==> ReplayLine(scheme, old(View()), Written(r), number) == Ok(View())
      ensures fault.Some? ==> ReplayLine(scheme, old(View()), Written(r), number) == Err(fault.value)
    {
      var previous := memory.Audit(r.subject.caseId);
      var expected := if previous != [] then previous[|previous| - 1].hash else GENESIS;
      var hashIsValid := r.event.hash == scheme.digest(r.event.payload);
      if r.event.payload.previousHash != expected || !hashIsValid {
        return Some(IntegrityFailure(number));
      }
      if r.event.payload.sequence != |previous| + 1 {
        return Some(SequenceFailure(number));
      }
      memory.Commit(r.subject, r.event);
      return None;
    }

    /** First the file, then the projection. */
    method Commit(c: Case, event: Event)
      modifies this`file, memory
      ensures file == old(file) + [Written(Record(c, event))]
      ensures View() == CommitTo(old(View()), Record(c, event))
      ensures old(memory.Valid()) ==> memory.Valid()
    {
      file := file + [Written(Record(c, event))];
      memory.Commit(c, event);
    }
  }

  lemma ReplayNext(d: Scheme, file: seq<Line>, n: nat)
    requires n < |file| && Replay(d, file[..n]).Ok?
    ensures Replay(d, file[..n + 1]) == ReplayLine(d, Replay(d, file[..n]).value, file[n], n + 1)
  {
    assert file[..n + 1][..n] == file[..n];
  }

  /** A fault in a part of the file is the fault of the file. */
  lemma {:induction false} FaultStays(d: Scheme, file: seq<Line>, n: nat)
    requires n <= |file| && Replay(d, file[..n]).Err?
    ensures Replay(d, file) == Replay(d, file[..n])
  {
    if n == |file| {
      assert file[..n] == file;
    } else {
      assert file[..|file| - 1][..n] == file[..n];
      FaultStays(d, file[..|file| - 1], n);
    }
  }

  // ---------------------------------------------------------------- the service

  datatype FeedbackRecord = FeedbackRecord(
    caseId: string, requestId: string, automatedDecision: Decision, automatedRiskScore: real,
    signalCategories: set<string>, policyVersion: string, humanDecision: Decision, decisionReason: string,
    resolvedAt: int, appealed: bool)

  /** A resolved case with all its decision fields. */
  predicate Reportable(c: Case) {
    c.state.Resolved? && c.finalDecision.Some? && c.decisionReason.Some? && c.resolvedAt.Some?
  }

  /** The record of a case, and whether its history holds an appeal. */
  function ReportOf(c: Case, history: seq<Event>): FeedbackRecord
    requires Reportable(c)
  {
    FeedbackRecord(
      c.caseId, c.requestId, c.automatedDecision, c.automatedRiskScore, c.signalCategories, c.policyVersion,
      c.finalDecision.value, c.decisionReason.value, c.resolvedAt.value, HasAppeal(history))
  }

  predicate Reports(r: FeedbackRecord, p: Projection) {
    r.caseId in p.cases && Reportable(p.cases[r.caseId]) && r == ReportOf(p.cases[r.caseId], p.Audit(r.caseId))
  }

  predicate Exported(r: seq<FeedbackRecord>, id: string) {
    exists i :: 0 <= i < |r| && r[i].caseId == id
  }

  /** Exactly one record for each reportable case, in the order of the listing. */
  ghost predicate IsExport(r: seq<FeedbackRecord>, p: Projection) {
    && (forall i :: 0 <= i < |r| ==> Reports(r[i], p))
    && (forall i, j :: 0 <= i < j < |r| ==> r[i].caseId != r[j].caseId)
    && (forall i, j :: 0 <= i < j < |r| ==> Older(p.cases[r[i].caseId], p.cases[r[j].caseId], p.order))
    && (forall id :: id in p.cases && Reportable(p.cases[id]) ==> Exported(r, id))
  }

  /** The records of the first `n` listed cases. */
  function RecordsOf(listed: seq<Case>, p: Projection): seq<FeedbackRecord> {
    if listed == [] then []
    else
      var c := listed[|listed| - 1];
      RecordsOf(listed[..|listed| - 1], p) + if Reportable(c) then [ReportOf(c, p.Audit(c.caseId))] else []
  }

  lemma NextRecord(listed: seq<Case>, k: nat, p: Projection)
    requires k < |listed| && IsListing(listed, p, Some(Resolved))
    ensures listed[k].state.Resolved?
    ensures RecordsOf(listed[..k + 1], p)
         == RecordsOf(listed[..k], p)
            + if Reportable(listed[k]) then [ReportOf(listed[k], p.Audit(listed[k].caseId))] else []
  {
    assert listed[k] in listed && IsCaseIn(listed[k], p, Some(Resolved));
    assert listed[..k + 1][..k] == listed[..k];
  }

  /** The records are of listed cases, in the order of the listing. */
  predicate Follow(r: seq<FeedbackRecord>, listed: seq<Case>, p: Projection) {
    && (forall i :: 0 <= i < |r| ==> Reports(r[i], p) && p.cases[r[i].caseId] in listed)
    && (forall i, j :: 0 <= i < j < |r| ==> r[i].caseId != r[j].caseId)
    && (forall i, j :: 0 <= i < j < |r| ==> Older(p.cases[r[i].caseId], p.cases[r[j].caseId], p.order))
  }

  /** Stored cases, each once, in order. */
  predicate KnownInOrder(listed: seq<Case>, p: Projection) {
    && OldestFirst(listed, p.order)
    && (forall i, j :: 0 <= i < j < |listed| ==> listed[i].caseId != listed[j].caseId)
    && (forall i :: 0 <= i < |listed| ==> listed[i].caseId in p.cases && p.cases[listed[i].caseId] == listed[i])
  }

  lemma {:induction false} RecordsFollow(listed: seq<Case>, p: Projection)
    requires KnownInOrder(listed, p)
    ensures Follow(RecordsOf(listed, p), listed, p)
  {
    if listed == [] {
    } else {
      var n := |listed| - 1;
      RecordsFollow(listed[..n], p);
      FollowNext(RecordsOf(listed[..n], p), listed, p);
    }
  }

  lemma FollowNext(r: seq<FeedbackRecord>, listed: seq<Case>, p: Projection)
    requires listed != [] && KnownInOrder(listed, p)
    requires Follow(r, listed[..|listed| - 1], p)
    ensures Follow(r, listed, p)
    ensures var c := listed[|listed| - 1]; Reportable(c) ==> Follow(r + [ReportOf(c, p.Audit(c.caseId))], listed, p)
  {
    var n := |listed| - 1;
    forall i | 0 <= i < |r|
      ensures p.cases[r[i].caseId] in listed && r[i].caseId != listed[n].caseId
      ensures Older(p.cases[r[i].caseId], listed[n], p.order)
    {
      assert Reports(r[i], p);
      var k :| 0 <= k < n && listed[..n][k] == p.cases[r[i].caseId];
      assert listed[k] == listed[..n][k];
    }
  }

  /** No reportable case of the listing is passed over. */
  lemma {:induction false} RecordsCover(listed: seq<Case>, p: Projection, k: nat)
    requires k < |listed| && Reportable(listed[k])
    ensures Exported(RecordsOf(listed, p), listed[k].caseId)
  {
    var n := |listed| - 1;
    var shorter, r := RecordsOf(listed[..n], p), RecordsOf(listed, p);
    if k == n {
      assert r[|shorter|].caseId == listed[k].caseId;
    } else {
      RecordsCover(listed[..n], p, k);
      var i :| 0 <= i < |shorter| && shorter[i].caseId == listed[k].caseId;
      assert r[i] == shorter[i];
    }
  }

  lemma ExportComplete(listed: seq<Case>, p: Projection)
    requires IsListing(listed, p, Some(Resolved)) && IsDictionary(p)
    ensures IsExport(RecordsOf(listed, p), p)
  {
    assert forall i :: 0 <= i < |listed| ==> listed[i] in listed;
    RecordsFollow(listed, p);
    forall id | id in p.cases && Reportable(p.cases[id]) ensures Exported(RecordsOf(listed, p), id) {
      assert IsCaseIn(p.cases[id], p, Some(Resolved));
      var k :| 0 <= k < |listed| && listed[k] == p.cases[id];
      RecordsCover(listed, p, k);
    }
  }

  /** The record has the fields of the case, and the ruling's decision, reason and time. */
  predicate IsReportOf(record: FeedbackRecord, c: Case, ruling: Operation, appealed: bool)
    requires ruling.Deciding?
  {
    record == FeedbackRecord(c.caseId, c.requestId, c.automatedDecision, c.automatedRiskScore, c.signalCategories,
                             c.policyVersion, ruling.decision, ruling.reason, ruling.stamp.updatedAt, appealed)
  }

  /** In every projection the service builds, the export has exactly one record for each
      resolved case: with the decision and the reason of the last ruling on it, which is allow
      or block, and told to be appealed when it was. */
  lemma ExportOfRun(d: Scheme, happenings: seq<Happening>, r: seq<FeedbackRecord>, id: string)
    requires InjectiveIds(d) && Run(d, happenings).memory.Serving?
    requires var p := Run(d, happenings).memory.projection; IsExport(r, p) && id in p.cases && p.cases[id].state.Resolved?
    ensures var p := Run(d, happenings).memory.projection; var ruling := LastRuling(d, happenings, id);
            && ruling.Some? && ruling.value.Deciding? && (ruling.value.decision == Allow || ruling.value.decision == Block)
            && exists i :: 0 <= i < |r| && IsReportOf(r[i], p.cases[id], ruling.value, |p.Audit(id)| >= 4)
  {
    LedgerRebuilds(d, happenings);
    RulingsAreGiven(d, happenings);
    var p := Run(d, happenings).memory.projection;
    assert CaseFits(d, id, p.cases[id], p.Audit(id));
    AppealMeansFour(p.Audit(id));
    assert Exported(r, id);
    var i :| 0 <= i < |r| && r[i].caseId == id;
    assert Reports(r[i], p);
  }

  class ReviewService {
    const repository: JsonlReviewRepository

    constructor (repository: JsonlReviewRepository)
      ensures this.repository == repository
    {
      this.repository := repository;
    }

    ghost function View(): Projection
      reads repository.memory
    {
      repository.View()
    }

    /** The file and the projection moved by the operation, and by nothing else. */
    twostate predicate Did(operation: Operation)
      reads repository, repository.memory
    {
      var effect := Perform(repository.scheme, old(View()), operation);
      if effect.Commits? then
        repository.file == old(repository.file) + [Written(effect.record)] && View() == CommitTo(old(View()), effect.record)
      else
        repository.file == old(repository.file) && View() == old(View())
    }

    method Enqueue(response: Response, stamp: Stamp) returns (answer: Option<Case>)
      modifies repository`file, repository.memory
      ensures Did(Enqueueing(response, stamp))
      ensures IsEnqueued(repository.scheme, old(View()), response, stamp, View(), answer)
      ensures Ok(answer) == AnswerOf(Perform(repository.scheme, old(View()), Enqueueing(response, stamp)))
    {
      EnqueueOutcome(repository.scheme, View(), response, stamp);
      var requiresReview := response.decision == Review || CROSS_MODAL_DISAGREEMENT in response.categories;
      if !requiresReview {
        return None;
      }
      var existing := repository.memory.FindByRequestId(response.requestId);
      if existing.Some? {
        return existing;
      }
      var created := NewCase(repository.scheme, response, stamp);
      var event := NewEvent(created, Creation, "system", None, None, "automated_review_required", stamp);
      repository.Commit(created, event);
      return Some(created);
    }

    method ClaimOne(caseId: string, who: Principal, stamp: Stamp) returns (answer: Result<Option<Case>, Refusal>)
      modifies repository`file, repository.memory
      ensures Did(Claiming(caseId, who, stamp))
      ensures old(KeyedCase(View(), caseId)) ==>
        IsClaimed(repository.scheme, old(View()), caseId, who, stamp, View(), answer)
      ensures answer == AnswerOf(Perform(repository.scheme, old(View()), Claiming(caseId, who, stamp)))
    {
      if KeyedCase(View(), caseId) { ClaimOutcome(repository.scheme, View(), caseId, who, stamp); }
      if !CanReview(who.role) {
        return Err(RoleNotAuthorized);
      }
      var found := repository.memory.Get(caseId);
      if found.None? {
        return Err(NotFound);
      }
      var c := found.value;
      if c.state == Appealed && who.role != SeniorReviewer {
        return Err(SeniorMustClaim);
      }
      if c.state !in {Pending, Appealed} {
        return Err(WrongState(c.state));
      }
      var previous := c.state;
      c := c.(state := Claimed);
      c := c.(assignedReviewer := Some(who.reviewerId));
      c := c.(updatedAt := stamp.updatedAt);
      var event := NewEvent(c, Claim, who.reviewerId, Some(who.role), Some(previous), "reviewer_claimed", stamp);
      repository.Commit(c, event);
      return Ok(Some(c));
    }

    method DecideOne(caseId: string, who: Principal, decision: Decision, reason: string, stamp: Stamp)
      returns (answer: Result<Option<Case>, Refusal>)
      modifies repository`file, repository.memory
      ensures Did(Deciding(caseId, who, decision, reason, stamp))
      ensures old(KeyedCase(View(), caseId)) ==>
        IsDecided(repository.scheme, old(View()), caseId, who, decision, reason, stamp, View(), answer)
      ensures answer == AnswerOf(Perform(repository.scheme, old(View()), Deciding(caseId, who, decision, reason, stamp)))
    {
      if KeyedCase(View(), caseId) { DecideOutcome(repository.scheme, View(), caseId, who, decision, reason, stamp); }
      if !CanReview(who.role) {
        return Err(RoleNotAuthorized);
      }
      if decision == Review {
        return Err(NotAllowOrBlock);
      }
      var found := repository.memory.Get(caseId);
      if found.None? {
        return Err(NotFound);
      }
      var c := found.value;
      if c.state != Claimed {
        return Err(WrongState(c.state));
      }
      if c.assignedReviewer != Some(who.reviewerId) {
        return Err(AssignedToAnother);
      }
      var events := repository.memory.Audit(caseId);
      var isAppeal := AnyAppeal(events);
      if isAppeal && who.role != SeniorReviewer {
        return Err(SeniorMustDecide);
      }
      c := c.(state := Resolved);
      c := c.(finalDecision := Some(decision));
      c := c.(decisionReason := Some(reason));
      c := c.(updatedAt := stamp.updatedAt);
      c := c.(resolvedAt := Some(stamp.updatedAt));
      var event := NewEvent(c, if isAppeal then AppealRuling else Ruling, who.reviewerId, Some(who.role), Some(Claimed),
                            reason, stamp);
      repository.Commit(c, event);
      return Ok(Some(c));
    }

    method AppealOne(caseId: string, who: Principal, reason: string, stamp: Stamp)
      returns (answer: Result<Option<Case>, Refusal>)
      modifies repository`file, repository.memory
      ensures Did(Appealing(caseId, who, reason, stamp))
      ensures old(KeyedCase(View(), caseId)) ==>
        IsAppealed(repository.scheme, old(View()), caseId, who, reason, stamp, View(), answer)
      ensures answer == AnswerOf(Perform(repository.scheme, old(View()), Appealing(caseId, who, reason, stamp)))
    {
      if KeyedCase(View(), caseId) { AppealOutcome(repository.scheme, View(), caseId, who, reason, stamp); }
      if !CanReview(who.role) {
        return Err(RoleNotAuthorized);
      }
      var found := repository.memory.Get(caseId);
      if found.None? {
        return Err(NotFound);
      }
      var c := found.value;
      if c.state != Resolved {
        return Err(WrongState(c.state));
      }
      c := c.(state := Appealed);
      c := c.(assignedReviewer := None);
      c := c.(appealReason := Some(reason));
      c := c.(updatedAt := stamp.updatedAt);
      var event := NewEvent(c, Appeal, who.reviewerId, Some(who.role), Some(Resolved), reason, stamp);
      repository.Commit(c, event);
      return Ok(Some(c));
    }

    method AnyAppeal(events: seq<Event>) returns (found: bool)
      ensures found == HasAppeal(events)
    {
      for k := 0 to |events|
        invariant forall n :: 0 <= n < k ==> !events[n].payload.action.Appeal?
      {
        if events[k].payload.action == Appeal {
          return true;
        }
      }
      return false;
    }

    /** For auditors only. */
    method ExportFeedback(who: Principal) returns (answer: Result<seq<FeedbackRecord>, Refusal>)
      requires repository.memory.Valid()
      ensures who.role != Auditor ==> answer == Err(RoleNotAuthorized)
      ensures who.role == Auditor ==> answer.Ok? && IsExport(answer.value, View())
      ensures who.role == Auditor ==> answer == Ok(RecordsOf(Listing(View(), Some(Resolved)), View()))
    {
      ListingFacts(View(), Some(Resolved));
      if who.role != Auditor {
        return Err(RoleNotAuthorized);
      }
      var resolved := repository.memory.ListCases(Some(Resolved));
      var records := [];
      for k := 0 to |resolved|
        invariant records == RecordsOf(resolved[..k], View())
      {
        NextRecord(resolved, k, View());
        var record := FeedbackOf(resolved[k]);
        if record.Some? {
          records := records + [record.value];
        }
      }
      assert resolved[..|resolved|] == resolved;
      ExportComplete(resolved, View());
      return Ok(records);
    }

    /** The record of a case, unless one of its decision fields is missing. */
    method FeedbackOf(c: Case) returns (record: Option<FeedbackRecord>)
      ensures c.state.Resolved? ==> record == if Reportable(c) then Some(ReportOf(c, View().Audit(c.caseId))) else None
    {
      if c.finalDecision.None? || c.decisionReason.None? {
        return None;
      }
      if c.resolvedAt.None? {
        return None;
      }
      var events := repository.memory.Audit(c.caseId);
      var appealed := AnyAppeal(events);
      return Some(FeedbackRecord(
        c.caseId, c.requestId, c.automatedDecision, c.automatedRiskScore, c.signalCategories, c.policyVersion,
        c.finalDecision.value, c.decisionReason.value, c.resolvedAt.value, appealed));
    }

    /** Build the next event of the case's chain. */
    method NewEvent(c: Case, action: Action, actorId: string, role: Option<Role>, from: Option<State>, reason: string,
                    stamp: Stamp) returns (event: Event)
      ensures event == MakeEvent(repository.scheme, View(), c, action, actorId, role, from, reason, stamp)
    {
      var existing := repository.memory.Audit(c.caseId);
      var previousHash := if existing != [] then existing[|existing| - 1].hash else GENESIS;
      var payload := Payload(stamp.eventId, c.caseId, |existing| + 1, action, actorId, role, from, c.state, reason,
                             stamp.occurredAt, previousHash);
      return Event(payload, repository.scheme.digest(payload));
    }
  }
}
