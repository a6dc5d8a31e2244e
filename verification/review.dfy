/** Human review: cases, the audit events that form a hash chain per case, the ledger file
    and what the service does to them, on values. */
module ReviewModel {
  import opened Wrappers

  // ---------------------------------------------------------------- records

  datatype Decision = Allow | Review | Block

  datatype State = Pending | Claimed | Resolved | Appealed

  datatype Role = Reviewer | SeniorReviewer | Auditor

  datatype Action = Creation | Claim | Ruling | Appeal | AppealRuling

  datatype Principal = Principal(reviewerId: string, role: Role)

  datatype Case = Case(
    caseId: string, requestId: string, automatedDecision: Decision, automatedRiskScore: real,
    signalCategories: set<string>, policyVersion: string, state: State, assignedReviewer: Option<string>,
    finalDecision: Option<Decision>, decisionReason: Option<string>, appealReason: Option<string>,
    createdAt: int, updatedAt: int, resolvedAt: Option<int>)

  type Positive = n: nat | n > 0 witness 1

  /** The hashed part of an audit event. */
  datatype Payload = Payload(
    eventId: string, caseId: string, sequence: Positive, action: Action, actorId: string, actorRole: Option<Role>,
    fromState: Option<State>, toState: State, reasonCode: string, occurredAt: int, previousHash: string)

  datatype Event = Event(payload: Payload, hash: string)

  datatype Record = Record(subject: Case, event: Event)

  /** A line of the ledger file: blank, a whole record, or neither. */
  datatype Line = Blank | Malformed | Written(record: Record)

  /** The digest of a payload and the name-based id of a case. */
  datatype Scheme = Scheme(digest: Payload -> string, caseId: (string, string) -> string)

  function Zeros(n: nat): (z: string)
    ensures |z| == n && forall i :: 0 <= i < n ==> z[i] == '0'
  {
    if n == 0 then "" else Zeros(n - 1) + "0"
  }

  /** The hash before the first event. */
  const GENESIS: string := Zeros(64)

  const CROSS_MODAL_DISAGREEMENT := "cross_modal_disagreement"

  // ---------------------------------------------------------------- the projection

  /** Three dictionaries; `order` lists the case ids in order of insertion. */
  datatype Projection = Projection(cases: map<string, Case>, requestIndex: map<string, string>,
                                   events: map<string, seq<Event>>, order: seq<string>)
  {
    function Audit(id: string): seq<Event> {
      if id in events then events[id] else []
    }
  }

  const EMPTY := Projection(map[], map[], map[], [])

  function CommitTo(p: Projection, r: Record): Projection {
    var id := r.subject.caseId;
    Projection(p.cases[id := r.subject], p.requestIndex[r.subject.requestId := id],
               p.events[id := p.Audit(id) + [r.event]], if id in p.cases then p.order else p.order + [id])
  }

  function LastHash(events: seq<Event>): string {
    if events == [] then GENESIS else events[|events| - 1].hash
  }

  // ---------------------------------------------------------------- replay

  datatype Fault = InvalidRecord(line: nat) | IntegrityFailure(line: nat) | SequenceFailure(line: nat)

  /** One line of the file on top of the projection so far. */
  function ReplayLine(d: Scheme, p: Projection, line: Line, number: nat): Result<Projection, Fault> {
    match line
    case Blank => Ok(p)
    case Malformed => Err(InvalidRecord(number))
    case Written(r) =>
      var previous := p.Audit(r.subject.caseId);
      if r.event.payload.previousHash != LastHash(previous) || r.event.hash != d.digest(r.event.payload) then
        Err(IntegrityFailure(number))
      else if r.event.payload.sequence != |previous| + 1 then
        Err(SequenceFailure(number))
      else
        Ok(CommitTo(p, r))
  }

  function Replay(d: Scheme, ledger: seq<Line>): Result<Projection, Fault> {
    if ledger == [] then Ok(EMPTY)
    else
      var before := Replay(d, ledger[..|ledger| - 1]);
      if before.Err? then before else ReplayLine(d, before.value, ledger[|ledger| - 1], |ledger|)
  }

  // ---------------------------------------------------------------- operations

  /** What the service reads from clocks and the id generator during one operation. */
  datatype Stamp = Stamp(createdAt: int, updatedAt: int, occurredAt: int, eventId: string)

  datatype Response = Response(requestId: string, decision: Decision, riskScore: real,
                               categories: set<string>, policyVersion: string)

  datatype Operation =
    | Enqueueing(response: Response, stamp: Stamp)
    | Claiming(caseId: string, principal: Principal, stamp: Stamp)
    | Deciding(caseId: string, principal: Principal, decision: Decision, reason: string, stamp: Stamp)
    | Appealing(caseId: string, principal: Principal, reason: string, stamp: Stamp)

  datatype Refusal =
    | RoleNotAuthorized
    | NotFound
    | NotAllowOrBlock
    | WrongState(state: State)
    | SeniorMustClaim
    | AssignedToAnother
    | SeniorMustDecide

  /** A refusal, an answer without a change, or a record to commit. */
  datatype Effect = Refused(refusal: Refusal) | Answered(found: Option<Case>) | Commits(record: Record)

  predicate CanReview(role: Role) {
    role.Reviewer? || role.SeniorReviewer?
  }

  function MakeEvent(d: Scheme, p: Projection, c: Case, action: Action, actorId: string, role: Option<Role>,
                     from: Option<State>, reason: string, stamp: Stamp): Event
  {
    var existing := p.Audit(c.caseId);
    var payload := Payload(stamp.eventId, c.caseId, |existing| + 1, action, actorId, role, from, c.state, reason,
                           stamp.occurredAt, LastHash(existing));
    Event(payload, d.digest(payload))
  }

  predicate RequiresReview(r: Response) {
    r.decision == Review || CROSS_MODAL_DISAGREEMENT in r.categories
  }

  function FindByRequest(p: Projection, requestId: string): Option<Case> {
    if requestId in p.requestIndex && p.requestIndex[requestId] != "" && p.requestIndex[requestId] in p.cases then
      Some(p.cases[p.requestIndex[requestId]])
    else None
  }

  function NewCase(d: Scheme, r: Response, stamp: Stamp): Case {
    Case(d.caseId(r.requestId, r.policyVersion), r.requestId, r.decision, r.riskScore, r.categories, r.policyVersion,
         Pending, None, None, None, None, stamp.createdAt, stamp.updatedAt, None)
  }

  function Enqueue(d: Scheme, p: Projection, r: Response, stamp: Stamp): Effect {
    if !RequiresReview(r) then Answered(None)
    else if FindByRequest(p, r.requestId).Some? then Answered(FindByRequest(p, r.requestId))
    else
      var c := NewCase(d, r, stamp);
      Commits(Record(c, MakeEvent(d, p, c, Creation, "system", None, None, "automated_review_required", stamp)))
  }

  function ClaimCase(d: Scheme, p: Projection, id: string, who: Principal, stamp: Stamp): Effect {
    if !CanReview(who.role) then Refused(RoleNotAuthorized)
    else if id !in p.cases then Refused(NotFound)
    else
      var c := p.cases[id];
      if c.state.Appealed? && !who.role.SeniorReviewer? then Refused(SeniorMustClaim)
      else if !c.state.Pending? && !c.state.Appealed? then Refused(WrongState(c.state))
      else
        var claimed := c.(state := Claimed, assignedReviewer := Some(who.reviewerId), updatedAt := stamp.updatedAt);
        Commits(Record(claimed, MakeEvent(d, p, claimed, Claim, who.reviewerId, Some(who.role), Some(c.state),
                                          "reviewer_claimed", stamp)))
  }

  predicate HasAppeal(events: seq<Event>) {
    exists k :: 0 <= k < |events| && events[k].payload.action.Appeal?
  }

  function Decide(d: Scheme, p: Projection, id: string, who: Principal, decision: Decision, reason: string,
                  stamp: Stamp): Effect
  {
    if !CanReview(who.role) then Refused(RoleNotAuthorized)
    else if decision == Review then Refused(NotAllowOrBlock)
    else if id !in p.cases then Refused(NotFound)
    else
      var c := p.cases[id];
      if !c.state.Claimed? then Refused(WrongState(c.state))
      else if c.assignedReviewer != Some(who.reviewerId) then Refused(AssignedToAnother)
      else if HasAppeal(p.Audit(id)) && !who.role.SeniorReviewer? then Refused(SeniorMustDecide)
      else
        var resolved := c.(state := Resolved, finalDecision := Some(decision), decisionReason := Some(reason),
                           updatedAt := stamp.updatedAt, resolvedAt := Some(stamp.updatedAt));
        var action := if HasAppeal(p.Audit(id)) then AppealRuling else Ruling;
        Commits(Record(resolved, MakeEvent(d, p, resolved, action, who.reviewerId, Some(who.role), Some(Claimed),
                                           reason, stamp)))
  }

  function AppealCase(d: Scheme, p: Projection, id: string, who: Principal, reason: string, stamp: Stamp): Effect {
    if !CanReview(who.role) then Refused(RoleNotAuthorized)
    else if id !in p.cases then Refused(NotFound)
    else
      var c := p.cases[id];
      if !c.state.Resolved? then Refused(WrongState(c.state))
      else
        var appealed := c.(state := Appealed, assignedReviewer := None, appealReason := Some(reason),
                           updatedAt := stamp.updatedAt);
        Commits(Record(appealed, MakeEvent(d, p, appealed, Appeal, who.reviewerId, Some(who.role), Some(Resolved),
                                           reason, stamp)))
  }

  function Perform(d: Scheme, p: Projection, o: Operation): Effect {
    match o
    case Enqueueing(r, stamp) => Enqueue(d, p, r, stamp)
    case Claiming(id, who, stamp) => ClaimCase(d, p, id, who, stamp)
    case Deciding(id, who, decision, reason, stamp) => Decide(d, p, id, who, decision, reason, stamp)
    case Appealing(id, who, reason, stamp) => AppealCase(d, p, id, who, reason, stamp)
  }
}
