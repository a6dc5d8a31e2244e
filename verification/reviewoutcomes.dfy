/** What each operation of the review service leaves behind, field by field, and what the
    stored rulings and cases owe to the operations of a whole run. */
module ReviewOutcomes {
  import opened Wrappers
  import opened ReviewModel
  import opened LedgerLaws
  import opened ReviewLaws

  type Reply = Result<Option<Case>, Refusal>

  // ---------------------------------------------------------------- one commit

  /** From `p` to `v` the case became `c`, and its chain got one more event, which says who
      did what and when, and what the state was before and is now. */
  ghost predicate Wrote(d: Scheme, p: Projection, v: Projection, c: Case, action: Action, actorId: string,
                        role: Option<Role>, from: Option<State>, reason: string, stamp: Stamp)
  {
    var history := p.Audit(c.caseId);
    var payload := Payload(stamp.eventId, c.caseId, |history| + 1, action, actorId, role, from, c.state, reason,
                           stamp.occurredAt, if history == [] then Zeros(64) else history[|history| - 1].hash);
    && v.cases == p.cases[c.caseId := c]
    && v.requestIndex == p.requestIndex[c.requestId := c.caseId]
    && v.events == p.events[c.caseId := history + [Event(payload, d.digest(payload))]]
    && v.order == (if c.caseId in p.cases then p.order else p.order + [c.caseId])
  }

  ghost predicate KeyedCase(p: Projection, id: string) {
    id in p.cases ==> p.cases[id].caseId == id
  }

  ghost predicate WasAppealed(p: Projection, id: string) {
    exists k :: 0 <= k < |p.Audit(id)| && p.Audit(id)[k].payload.action == Appeal
  }

  // ---------------------------------------------------------------- the four operations

  /** A response that asks for review, or whose modalities disagree, opens a pending case with
      the response's fields, unless its request has a case. */
  ghost predicate IsEnqueued(d: Scheme, p: Projection, r: Response, stamp: Stamp, v: Projection, answer: Option<Case>) {
    if r.decision != Review && "cross_modal_disagreement" !in r.categories then
      v == p && answer == None
    else if r.requestId in p.requestIndex && p.requestIndex[r.requestId] != "" && p.requestIndex[r.requestId] in p.cases then
      v == p && answer == Some(p.cases[p.requestIndex[r.requestId]])
    else
      var c := Case(d.caseId(r.requestId, r.policyVersion), r.requestId, r.decision, r.riskScore, r.categories,
                    r.policyVersion, Pending, None, None, None, None, stamp.createdAt, stamp.updatedAt, None);
      && answer == Some(c)
      && Wrote(d, p, v, c, Creation, "system", None, None, "automated_review_required", stamp)
  }

  /** A reviewer takes a pending case, a senior one also an appealed case. */
  ghost predicate IsClaimed(d: Scheme, p: Projection, id: string, who: Principal, stamp: Stamp, v: Projection, answer: Reply) {
    if who.role == Auditor then v == p && answer == Err(RoleNotAuthorized)
    else if id !in p.cases then v == p && answer == Err(NotFound)
    else
      var c := p.cases[id];
      if c.state == Appealed && who.role != SeniorReviewer then v == p && answer == Err(SeniorMustClaim)
      else if c.state == Claimed || c.state == Resolved then v == p && answer == Err(WrongState(c.state))
      else
        var claimed := Case(id, c.requestId, c.automatedDecision, c.automatedRiskScore, c.signalCategories, c.policyVersion,
                            Claimed, Some(who.reviewerId), c.finalDecision, c.decisionReason, c.appealReason,
                            c.createdAt, stamp.updatedAt, c.resolvedAt);
        && answer == Ok(Some(claimed))
        && Wrote(d, p, v, claimed, Claim, who.reviewerId, Some(who.role), Some(c.state), "reviewer_claimed", stamp)
  }

  /** The reviewer who has the case rules on it; the case keeps the decision and the reason
      that were given. */
  ghost predicate IsDecided(d: Scheme, p: Projection, id: string, who: Principal, decision: Decision, reason: string,
                            stamp: Stamp, v: Projection, answer: Reply)
  {
    if who.role == Auditor then v == p && answer == Err(RoleNotAuthorized)
    else if decision == Review then v == p && answer == Err(NotAllowOrBlock)
    else if id !in p.cases then v == p && answer == Err(NotFound)
    else
      var c := p.cases[id];
      if c.state != Claimed then v == p && answer == Err(WrongState(c.state))
      else if c.assignedReviewer != Some(who.reviewerId) then v == p && answer == Err(AssignedToAnother)
      else if WasAppealed(p, id) && who.role != SeniorReviewer then v == p && answer == Err(SeniorMustDecide)
      else
        var resolved := Case(id, c.requestId, c.automatedDecision, c.automatedRiskScore, c.signalCategories, c.policyVersion,
                             Resolved, c.assignedReviewer, Some(decision), Some(reason), c.appealReason,
                             c.createdAt, stamp.updatedAt, Some(stamp.updatedAt));
        && answer == Ok(Some(resolved))
        && Wrote(d, p, v, resolved, if WasAppealed(p, id) then AppealRuling else Ruling, who.reviewerId, Some(who.role),
                 Some(Claimed), reason, stamp)
  }

  /** A resolved case is opened again; it keeps its ruling and loses its reviewer. */
  ghost predicate IsAppealed(d: Scheme, p: Projection, id: string, who: Principal, reason: string, stamp: Stamp,
                             v: Projection, answer: Reply)
  {
    if who.role == Auditor then v == p && answer == Err(RoleNotAuthorized)
    else if id !in p.cases then v == p && answer == Err(NotFound)
    else
      var c := p.cases[id];
      if c.state != Resolved then v == p && answer == Err(WrongState(c.state))
      else
        var appealed := Case(id, c.requestId, c.automatedDecision, c.automatedRiskScore, c.signalCategories, c.policyVersion,
                             Appealed, None, c.finalDecision, c.decisionReason, Some(reason),
                             c.createdAt, stamp.updatedAt, c.resolvedAt);
        && answer == Ok(Some(appealed))
        && Wrote(d, p, v, appealed, Appeal, who.reviewerId, Some(who.role), Some(Resolved), reason, stamp)
  }

  /** The projection after an effect. */
  function Applied(p: Projection, effect: Effect): Projection {
    if effect.Commits? then CommitTo(p, effect.record) else p
  }

  /** The answer that an effect gives. */
  function AnswerOf(effect: Effect): Reply {
    match effect
    case Refused(refusal) => Err(refusal)
    case Answered(found) => Ok(found)
    case Commits(r) => Ok(Some(r.subject))
  }

  lemma EnqueueOutcome(d: Scheme, p: Projection, r: Response, stamp: Stamp)
    ensures var effect := Perform(d, p, Enqueueing(r, stamp));
            AnswerOf(effect).Ok? && IsEnqueued(d, p, r, stamp, Applied(p, effect), AnswerOf(effect).value)
  {
  }

  lemma ClaimOutcome(d: Scheme, p: Projection, id: string, who: Principal, stamp: Stamp)
    requires KeyedCase(p, id)
    ensures var effect := Perform(d, p, Claiming(id, who, stamp));
            IsClaimed(d, p, id, who, stamp, Applied(p, effect), AnswerOf(effect))
  {
  }

  lemma DecideOutcome(d: Scheme, p: Projection, id: string, who: Principal, decision: Decision, reason: string, stamp: Stamp)
    requires KeyedCase(p, id)
    ensures var effect := Perform(d, p, Deciding(id, who, decision, reason, stamp));
            IsDecided(d, p, id, who, decision, reason, stamp, Applied(p, effect), AnswerOf(effect))
  {
    assert HasAppeal(p.Audit(id)) <==> WasAppealed(p, id);
  }

  lemma AppealOutcome(d: Scheme, p: Projection, id: string, who: Principal, reason: string, stamp: Stamp)
    requires KeyedCase(p, id)
    ensures var effect := Perform(d, p, Appealing(id, who, reason, stamp));
            IsAppealed(d, p, id, who, reason, stamp, Applied(p, effect), AnswerOf(effect))
  {
  }

  // ---------------------------------------------------------------- rulings of a run

  /** The last happening is a ruling on the case, and got its line in the ledger. */
  ghost predicate RulesLast(d: Scheme, events: seq<Happening>, id: string) {
    events != []
    && var n := |events| - 1;
       && events[n].Operates? && events[n].operation.Deciding? && events[n].operation.caseId == id
       && |Run(d, events).ledger| == |Run(d, events[..n]).ledger| + 1
  }

  /** The last ruling on the case that got its line. */
  ghost function LastRuling(d: Scheme, events: seq<Happening>, id: string): Option<Operation> {
    if events == [] then None
    else if RulesLast(d, events, id) then Some(events[|events| - 1].operation)
    else LastRuling(d, events[..|events| - 1], id)
  }

  ghost predicate RulesAt(d: Scheme, events: seq<Happening>, i: nat, id: string)
    requires i < |events|
  {
    RulesLast(d, events[..i + 1], id)
  }

  /** It is a happening of the run, and no later one got its line. */
  lemma {:induction false} LastRulingAt(d: Scheme, events: seq<Happening>, id: string) returns (i: nat)
    requires LastRuling(d, events, id).Some?
    ensures i < |events| && events[i] == Operates(LastRuling(d, events, id).value)
    ensures RulesAt(d, events, i, id) && forall k :: i < k < |events| ==> !RulesAt(d, events, k, id)
  {
    var n := |events| - 1;
    assert events[..n + 1] == events;
    if RulesLast(d, events, id) {
      i := n;
    } else {
      i := LastRulingAt(d, events[..n], id);
      assert events[..n][..i + 1] == events[..i + 1];
      forall k | i < k < |events| ensures !RulesAt(d, events, k, id) {
        if k < n { assert events[..n][..k + 1] == events[..k + 1] && !RulesAt(d, events[..n], k, id); }
      }
    }
  }

  /** The ruling in the record is this one, or there is none. */
  predicate RulingFits(ruling: Option<Operation>, c: Case) {
    match ruling
    case None => c.finalDecision.None? && c.decisionReason.None? && c.resolvedAt.None?
    case Some(o) =>
      && o.Deciding? && c.finalDecision == Some(o.decision) && c.decisionReason == Some(o.reason)
      && c.resolvedAt == Some(o.stamp.updatedAt)
  }

  /** The projection that the ledger of a run holds. */
  function Stored(d: Scheme, events: seq<Happening>): Projection
    requires Replay(d, Run(d, events).ledger).Ok?
  {
    Replay(d, Run(d, events).ledger).value
  }

  /** Stored rulings are the last ones given, and none is given on an unknown case. */
  ghost predicate RulingsFit(d: Scheme, events: seq<Happening>, p: Projection) {
    && (forall id :: id in p.cases ==> RulingFits(LastRuling(d, events, id), p.cases[id]))
    && (forall id :: id !in p.cases ==> LastRuling(d, events, id).None?)
  }

  /** An operation that is committed, on the stored projection. */
  lemma CommittedRulings(d: Scheme, events: seq<Happening>, o: Operation, p: Projection)
    requires InjectiveIds(d) && events != [] && events[|events| - 1] == Operates(o)
    requires Coherent(d, p) && RulingsFit(d, events[..|events| - 1], p) && Perform(d, p, o).Commits?
    requires |Run(d, events).ledger| == |Run(d, events[..|events| - 1]).ledger| + 1
    ensures RulingsFit(d, events, CommitTo(p, Perform(d, p, o).record))
  {
    var before, r := events[..|events| - 1], Perform(d, p, o).record;
    CommittedSubject(d, p, o);
    forall id ensures LastRuling(d, events, id)
                   == if o.Deciding? && o.caseId == id then Some(o) else LastRuling(d, before, id) {
    }
  }

  /** What a committed operation does to the ruling in its case. */
  lemma CommittedSubject(d: Scheme, p: Projection, o: Operation)
    requires InjectiveIds(d) && Coherent(d, p) && Perform(d, p, o).Commits?
    ensures var c := Perform(d, p, o).record.subject;
            && (o.Enqueueing? ==> c.caseId !in p.cases && c.finalDecision.None? && c.decisionReason.None? && c.resolvedAt.None?)
            && (o.Deciding? ==> c.caseId == o.caseId && c.caseId in p.cases && RulingFits(Some(o), c))
            && (o.Claiming? || o.Appealing? ==>
                  && c.caseId in p.cases && c.finalDecision == p.cases[c.caseId].finalDecision
                  && c.decisionReason == p.cases[c.caseId].decisionReason && c.resolvedAt == p.cases[c.caseId].resolvedAt)
  {
    match o
    case Enqueueing(r, _) => FreshCase(d, p, r);
    case Claiming(id, _, _) => assert CaseFits(d, id, p.cases[id], p.Audit(id));
    case Deciding(id, _, _, _, _) => assert CaseFits(d, id, p.cases[id], p.Audit(id));
    case Appealing(id, _, _, _) => assert CaseFits(d, id, p.cases[id], p.Audit(id));
  }

  /** Nothing but an operation of a serving process changes the ledger, and what it writes
      extends the stored projection. */
  lemma StoredNext(d: Scheme, events: seq<Happening>)
    requires InjectiveIds(d) && events != [] && Inv(d, Run(d, events[..|events| - 1]))
    ensures var s, e := Run(d, events[..|events| - 1]), events[|events| - 1];
            var p := Replay(d, s.ledger).value;
            if e.Operates? && s.memory.Serving? && Perform(d, p, e.operation).Commits? then
              && |Run(d, events).ledger| == |s.ledger| + 1
              && Replay(d, Run(d, events).ledger) == Ok(CommitTo(p, Perform(d, p, e.operation).record))
            else Run(d, events).ledger == s.ledger
  {
    var s, e := Run(d, events[..|events| - 1]), events[|events| - 1];
    if e.Operates? && s.memory.Serving? && Perform(d, s.memory.projection, e.operation).Commits? {
      WrittenReplays(d, s.ledger, s.memory.projection, e.operation);
    }
  }

  /** At every point of a run, crashes and restarts included, the stored final decision,
      reason and time of a case are those of the last ruling that was committed on it. */
  lemma {:induction false} RulingsAreGiven(d: Scheme, events: seq<Happening>)
    requires InjectiveIds(d)
    ensures Replay(d, Run(d, events).ledger).Ok? && RulingsFit(d, events, Stored(d, events))
  {
    LedgerRebuilds(d, events);
    if events == [] {
    } else {
      var before := events[..|events| - 1];
      RulingsAreGiven(d, before);
      LedgerRebuilds(d, before);
      StoredNext(d, events);
      if Run(d, events).ledger == Run(d, before).ledger {
        assert forall id :: LastRuling(d, events, id) == LastRuling(d, before, id);
      } else {
        CommittedRulings(d, events, events[|events| - 1].operation, Stored(d, before));
      }
    }
  }

  // ---------------------------------------------------------------- cases of a run

  lemma {:induction false} IndexGrows(d: Scheme, ledger: seq<Line>, n: nat)
    requires n <= |ledger| && Replay(d, ledger).Ok?
    ensures Replay(d, ledger[..n]).Ok?
    ensures Replay(d, ledger[..n]).value.requestIndex.Keys <= Replay(d, ledger).value.requestIndex.Keys
  {
    if n == |ledger| {
      assert ledger[..n] == ledger;
    } else {
      var shorter := ledger[..|ledger| - 1];
      IndexGrows(d, shorter, n);
      assert shorter[..n] == ledger[..n];
    }
  }

  /** A response that a serving process was given, and that asks for review, has a case for
      the rest of the run. */
  lemma ReviewedHasCase(d: Scheme, before: seq<Happening>, r: Response, stamp: Stamp, more: seq<Happening>)
    requires InjectiveIds(d) && Run(d, before).memory.Serving?
    requires r.decision == Review || "cross_modal_disagreement" in r.categories
    ensures var events := before + [Operates(Enqueueing(r, stamp))] + more;
            && Replay(d, Run(d, events).ledger).Ok?
            && exists id :: id in Stored(d, events).cases && Stored(d, events).cases[id].requestId == r.requestId
  {
    var queued := before + [Operates(Enqueueing(r, stamp))];
    var events := queued + more;
    EnqueuedIndexed(d, before, r, stamp);
    LedgerRebuilds(d, queued);
    LedgerRebuilds(d, events);
    LedgerOnlyGrows(d, queued, more);
    var ledger := Run(d, events).ledger;
    assert ledger[..|Run(d, queued).ledger|] == Run(d, queued).ledger;
    IndexGrows(d, ledger, |Run(d, queued).ledger|);
    assert r.requestId in Stored(d, events).requestIndex;
  }

  lemma EnqueuedIndexed(d: Scheme, before: seq<Happening>, r: Response, stamp: Stamp)
    requires InjectiveIds(d) && Run(d, before).memory.Serving?
    requires r.decision == Review || "cross_modal_disagreement" in r.categories
    ensures var queued := before + [Operates(Enqueueing(r, stamp))];
            Replay(d, Run(d, queued).ledger).Ok? && r.requestId in Stored(d, queued).requestIndex
  {
    var queued := before + [Operates(Enqueueing(r, stamp))];
    assert queued[..|queued| - 1] == before;
    LedgerRebuilds(d, before);
    StoredNext(d, queued);
    EnqueueOutcome(d, Stored(d, before), r, stamp);
  }
}
