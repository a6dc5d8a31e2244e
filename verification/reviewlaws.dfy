/** The review workflow over whole runs: the ledger always rebuilds the projection, and
    every case has a history of the one allowed shape. */
module ReviewLaws {
  import opened Wrappers
  import opened ReviewModel
  import opened LedgerLaws

  /** The process: down, serving, or between the append to the file and the projection. */
  datatype Memory =
    | Down
    | Serving(projection: Projection)
    | Appended(projection: Projection, record: Record)

  datatype System = System(ledger: seq<Line>, memory: Memory)

  datatype Happening = Operates(operation: Operation) | Projects | Crashes | Restarts

  function Next(d: Scheme, s: System, e: Happening): System {
    match e
    case Operates(o) =>
      if !s.memory.Serving? then s
      else
        var effect := Perform(d, s.memory.projection, o);
        if effect.Commits? then
          System(s.ledger + [Written(effect.record)], Appended(s.memory.projection, effect.record))
        else s
    case Projects =>
      if s.memory.Appended? then s.(memory := Serving(CommitTo(s.memory.projection, s.memory.record))) else s
    case Crashes => s.(memory := Down)
    case Restarts =>
      if s.memory.Down? && Replay(d, s.ledger).Ok? then s.(memory := Serving(Replay(d, s.ledger).value)) else s
  }

  function Run(d: Scheme, events: seq<Happening>): System {
    if events == [] then System([], Serving(EMPTY))
    else Next(d, Run(d, events[..|events| - 1]), events[|events| - 1])
  }

  // ---------------------------------------------------------------- the shape of a history

  /** The action at place `k`: Creation, Claim, Ruling, then Appeal, Claim, AppealRuling over
      and over. */
  function ActionAt(k: nat): Action {
    if k % 3 == 0 then (if k == 0 then Creation else Appeal)
    else if k % 3 == 1 then Claim
    else if k == 2 then Ruling else AppealRuling
  }

  /** The state that place `k` of a history leads to. */
  function StateAt(k: nat): State {
    if k % 3 == 0 then (if k == 0 then Pending else Appealed)
    else if k % 3 == 1 then Claimed
    else Resolved
  }

  /** One place of the history, seen from the places before it. */
  predicate PlaceOk(events: seq<Event>, k: nat)
    requires k < |events|
  {
    var p := events[k].payload;
    && p.action == ActionAt(k) && p.toState == StateAt(k)
    && p.fromState == (if k == 0 then None else Some(StateAt(k - 1)))
    && (if k == 0 then p.actorId == "system" && p.actorRole.None?
        else p.actorRole.Some? && CanReview(p.actorRole.value))
    && (k % 3 == 2 ==> p.actorId == events[k - 1].payload.actorId)
    && (k >= 4 && k % 3 != 0 ==> p.actorRole == Some(SeniorReviewer))
  }

  predicate HistoryOk(events: seq<Event>) {
    forall k :: 0 <= k < |events| ==> PlaceOk(events, k)
  }

  /** The case stands where its history ends. */
  predicate CaseFits(d: Scheme, id: string, c: Case, events: seq<Event>) {
    && c.caseId == id && id == d.caseId(c.requestId, c.policyVersion)
    && events != [] && HistoryOk(events) && c.state == StateAt(|events| - 1)
    && (c.state.Claimed? ==> c.assignedReviewer == Some(events[|events| - 1].payload.actorId))
    && (c.state.Resolved? ==> RulingRecorded(c))
  }

  predicate RulingRecorded(c: Case) {
    && c.finalDecision.Some? && c.finalDecision.value != Review
    && c.decisionReason.Some? && c.resolvedAt.Some?
  }

  ghost predicate Coherent(d: Scheme, p: Projection) {
    && p.events.Keys == p.cases.Keys
    && (forall id :: id in p.cases ==> CaseFits(d, id, p.cases[id], p.Audit(id)))
    && (forall id :: id in p.cases ==> Indexed(p, p.cases[id].requestId, id))
    && (forall r :: r in p.requestIndex ==> p.requestIndex[r] in p.cases && p.cases[p.requestIndex[r]].requestId == r)
  }

  predicate Indexed(p: Projection, requestId: string, id: string) {
    requestId in p.requestIndex && p.requestIndex[requestId] == id
  }

  ghost predicate InjectiveIds(d: Scheme) {
    && (forall r, v, r', v' :: d.caseId(r, v) == d.caseId(r', v') ==> r == r' && v == v')
    && (forall r, v :: d.caseId(r, v) != "")
  }

  // ---------------------------------------------------------------- one operation

  lemma HistoryGrows(events: seq<Event>, e: Event)
    requires HistoryOk(events) && PlaceOk(events + [e], |events|)
    ensures HistoryOk(events + [e])
  {
    var longer := events + [e];
    forall k | 0 <= k < |events| ensures PlaceOk(longer, k) {
      assert PlaceOk(events, k);
    }
  }

  /** In a well-shaped history an appeal has happened exactly when it has four events. */
  lemma AppealMeansFour(events: seq<Event>)
    requires HistoryOk(events)
    ensures HasAppeal(events) <==> |events| >= 4
  {
    if |events| >= 4 {
      assert PlaceOk(events, 3);
      assert events[3].payload.action.Appeal?;
    }
    if k :| 0 <= k < |events| && events[k].payload.action.Appeal? {
      assert PlaceOk(events, k);
    }
  }

  /** A change of a known case continues its history. */
  predicate Continues(p: Projection, c: Case, e: Event)
    requires c.caseId in p.cases
  {
    var before, events := p.cases[c.caseId], p.Audit(c.caseId);
    && c.requestId == before.requestId && c.policyVersion == before.policyVersion
    && PlaceOk(events + [e], |events|) && c.state == e.payload.toState
    && (c.state.Claimed? ==> c.assignedReviewer == Some(e.payload.actorId))
    && (c.state.Resolved? ==> RulingRecorded(c))
  }

  lemma ContinuedFits(d: Scheme, p: Projection, c: Case, e: Event)
    requires c.caseId in p.cases && CaseFits(d, c.caseId, p.cases[c.caseId], p.Audit(c.caseId)) && Continues(p, c, e)
    ensures CaseFits(d, c.caseId, c, p.Audit(c.caseId) + [e])
  {
    HistoryGrows(p.Audit(c.caseId), e);
  }

  lemma ChangeKeeps(d: Scheme, p: Projection, c: Case, e: Event)
    requires Coherent(d, p) && c.caseId in p.cases && Continues(p, c, e)
    ensures Coherent(d, CommitTo(p, Record(c, e)))
  {
    var id := c.caseId;
    var q := CommitTo(p, Record(c, e));
    ContinuedFits(d, p, c, e);
    assert Indexed(p, c.requestId, id);
    assert q.requestIndex == p.requestIndex;
    forall k | k in q.cases ensures CaseFits(d, k, q.cases[k], q.Audit(k)) {
      if k != id { assert CaseFits(d, k, p.cases[k], p.Audit(k)); }
    }
    forall k | k in q.cases ensures Indexed(q, q.cases[k].requestId, k) {
      assert Indexed(p, p.cases[k].requestId, k);
    }
  }

  lemma EnqueueKeeps(d: Scheme, p: Projection, r: Response, stamp: Stamp)
    requires InjectiveIds(d) && Coherent(d, p)
    ensures var effect := Enqueue(d, p, r, stamp); effect.Commits? ==> Coherent(d, CommitTo(p, effect.record))
  {
    var effect := Enqueue(d, p, r, stamp);
    if effect.Commits? {
      FreshCase(d, p, r);
      CreationKeeps(d, p, effect.record.subject, effect.record.event);
    }
  }

  /** A case with a new id, for a request that had none, and its first event. */
  lemma CreationKeeps(d: Scheme, p: Projection, c: Case, e: Event)
    requires Coherent(d, p) && c.caseId !in p.cases && c.requestId !in p.requestIndex
    requires CaseFits(d, c.caseId, c, [e])
    ensures Coherent(d, CommitTo(p, Record(c, e)))
  {
    var q := CommitTo(p, Record(c, e));
    assert p.Audit(c.caseId) == [] && q.Audit(c.caseId) == [e];
    forall k | k in q.cases ensures CaseFits(d, k, q.cases[k], q.Audit(k)) && Indexed(q, q.cases[k].requestId, k) {
      if k != c.caseId { assert CaseFits(d, k, p.cases[k], p.Audit(k)) && Indexed(p, p.cases[k].requestId, k); }
    }
  }

  /** A request without a case gets an id that no case has. */
  lemma FreshCase(d: Scheme, p: Projection, r: Response)
    requires InjectiveIds(d) && Coherent(d, p) && FindByRequest(p, r.requestId).None?
    ensures d.caseId(r.requestId, r.policyVersion) !in p.cases
    ensures r.requestId !in p.requestIndex
  {
    if r.requestId in p.requestIndex { IndexedFound(d, p, r.requestId); }
    if d.caseId(r.requestId, r.policyVersion) in p.cases { TakenIdIndexed(d, p, r.requestId, r.policyVersion); }
  }

  lemma IndexedFound(d: Scheme, p: Projection, requestId: string)
    requires InjectiveIds(d) && Coherent(d, p) && requestId in p.requestIndex
    ensures FindByRequest(p, requestId).Some?
  {
    var id := p.requestIndex[requestId];
    assert CaseFits(d, id, p.cases[id], p.Audit(id));
  }

  lemma TakenIdIndexed(d: Scheme, p: Projection, requestId: string, version: string)
    requires InjectiveIds(d) && Coherent(d, p) && d.caseId(requestId, version) in p.cases
    ensures requestId in p.requestIndex
  {
    var id := d.caseId(requestId, version);
    assert CaseFits(d, id, p.cases[id], p.Audit(id)) && Indexed(p, p.cases[id].requestId, id);
  }

  lemma ClaimKeeps(d: Scheme, p: Projection, id: string, who: Principal, stamp: Stamp)
    requires Coherent(d, p)
    ensures var effect := ClaimCase(d, p, id, who, stamp); effect.Commits? ==> Coherent(d, CommitTo(p, effect.record))
  {
    var effect := ClaimCase(d, p, id, who, stamp);
    if effect.Commits? {
      assert CaseFits(d, id, p.cases[id], p.Audit(id));
      ChangeKeeps(d, p, effect.record.subject, effect.record.event);
    }
  }

  lemma DecideKeeps(d: Scheme, p: Projection, id: string, who: Principal, decision: Decision, reason: string, stamp: Stamp)
    requires Coherent(d, p)
    ensures var effect := Decide(d, p, id, who, decision, reason, stamp);
            effect.Commits? ==> Coherent(d, CommitTo(p, effect.record))
  {
    var effect := Decide(d, p, id, who, decision, reason, stamp);
    if effect.Commits? {
      assert CaseFits(d, id, p.cases[id], p.Audit(id));
      AppealMeansFour(p.Audit(id));
      ChangeKeeps(d, p, effect.record.subject, effect.record.event);
    }
  }

  lemma AppealKeeps(d: Scheme, p: Projection, id: string, who: Principal, reason: string, stamp: Stamp)
    requires Coherent(d, p)
    ensures var effect := AppealCase(d, p, id, who, reason, stamp); effect.Commits? ==> Coherent(d, CommitTo(p, effect.record))
  {
    var effect := AppealCase(d, p, id, who, reason, stamp);
    if effect.Commits? {
      assert CaseFits(d, id, p.cases[id], p.Audit(id));
      ChangeKeeps(d, p, effect.record.subject, effect.record.event);
    }
  }

  lemma PerformKeeps(d: Scheme, p: Projection, o: Operation)
    requires InjectiveIds(d) && Coherent(d, p)
    ensures var effect := Perform(d, p, o); effect.Commits? ==> Coherent(d, CommitTo(p, effect.record))
  {
    match o
    case Enqueueing(r, stamp) => EnqueueKeeps(d, p, r, stamp);
    case Claiming(id, who, stamp) => ClaimKeeps(d, p, id, who, stamp);
    case Deciding(id, who, decision, reason, stamp) => DecideKeeps(d, p, id, who, decision, reason, stamp);
    case Appealing(id, who, reason, stamp) => AppealKeeps(d, p, id, who, reason, stamp);
  }

  // ---------------------------------------------------------------- whole runs

  /** What an operation writes, replay accepts. */
  lemma WrittenReplays(d: Scheme, ledger: seq<Line>, p: Projection, o: Operation)
    requires Replay(d, ledger) == Ok(p) && Perform(d, p, o).Commits?
    ensures var r := Perform(d, p, o).record; Replay(d, ledger + [Written(r)]) == Ok(CommitTo(p, r))
  {
    var r := Perform(d, p, o).record;
    assert (ledger + [Written(r)])[..|ledger|] == ledger;
    match o
    case Enqueueing(_, _) =>
    case Claiming(_, _, _) =>
    case Deciding(_, _, _, _, _) =>
    case Appealing(_, _, _, _) =>
  }

  /** The projection is the replay of the ledger, or of the ledger without its last record. */
  ghost predicate Rebuilds(d: Scheme, s: System) {
    match s.memory
    case Down => Replay(d, s.ledger).Ok?
    case Serving(p) => Replay(d, s.ledger) == Ok(p)
    case Appended(p, r) =>
      && s.ledger != [] && s.ledger[|s.ledger| - 1] == Written(r)
      && Replay(d, s.ledger[..|s.ledger| - 1]) == Ok(p)
      && Replay(d, s.ledger) == Ok(CommitTo(p, r))
  }

  ghost predicate Inv(d: Scheme, s: System) {
    && Rebuilds(d, s)
    && Coherent(d, Replay(d, s.ledger).value)
    && (s.memory.Appended? ==> Coherent(d, s.memory.projection))
  }

  lemma NextKeeps(d: Scheme, s: System, e: Happening)
    requires InjectiveIds(d) && Inv(d, s)
    ensures Inv(d, Next(d, s, e))
  {
    if e.Operates? && s.memory.Serving? {
      var p := s.memory.projection;
      if Perform(d, p, e.operation).Commits? {
        var r := Perform(d, p, e.operation).record;
        WrittenReplays(d, s.ledger, p, e.operation);
        PerformKeeps(d, p, e.operation);
        assert (s.ledger + [Written(r)])[..|s.ledger|] == s.ledger;
      }
    }
  }

  /** After any run, crashes included, replay of the ledger never fails and rebuilds the
      projection in memory, but for a record not projected yet. */
  lemma {:induction false} LedgerRebuilds(d: Scheme, events: seq<Happening>)
    requires InjectiveIds(d)
    ensures Inv(d, Run(d, events))
  {
    if events == [] {
      assert Coherent(d, EMPTY);
    } else {
      LedgerRebuilds(d, events[..|events| - 1]);
      NextKeeps(d, Run(d, events[..|events| - 1]), events[|events| - 1]);
    }
  }

  /** Reading of the above for what a serving process shows. */
  lemma HistoriesAreWellFormed(d: Scheme, events: seq<Happening>, id: string)
    requires InjectiveIds(d) && Run(d, events).memory.Serving?
    requires id in Run(d, events).memory.projection.cases
    ensures var p := Run(d, events).memory.projection;
            && p.Audit(id) == EventsOf(Run(d, events).ledger, id)
            && p.Audit(id) != [] && HistoryOk(p.Audit(id)) && IsChain(d, p.Audit(id))
            && p.cases[id].state == StateAt(|p.Audit(id)| - 1)
  {
    LedgerRebuilds(d, events);
    AcceptsExactlyChains(d, Run(d, events).ledger);
    var p := Run(d, events).memory.projection;
    assert CaseFits(d, id, p.cases[id], p.Audit(id));
  }

  /** No request ever has two cases. */
  lemma OneCasePerRequest(d: Scheme, events: seq<Happening>, id: string, other: string)
    requires InjectiveIds(d) && Run(d, events).memory.Serving?
    requires var p := Run(d, events).memory.projection;
             id in p.cases && other in p.cases && p.cases[id].requestId == p.cases[other].requestId
    ensures id == other
  {
    LedgerRebuilds(d, events);
    var p := Run(d, events).memory.projection;
    assert Indexed(p, p.cases[id].requestId, id) && Indexed(p, p.cases[other].requestId, other);
  }

  /** The ledger only grows, so no history is ever rewritten. */
  lemma {:induction false} LedgerOnlyGrows(d: Scheme, before: seq<Happening>, more: seq<Happening>)
    ensures Run(d, before).ledger <= Run(d, before + more).ledger
  {
    if more == [] {
      assert before + more == before;
    } else {
      LedgerOnlyGrows(d, before, more[..|more| - 1]);
      assert (before + more)[..|before + more| - 1] == before + more[..|more| - 1];
    }
  }
}
