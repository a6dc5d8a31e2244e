/** What one processing call and one submission leave behind, field by field. */
module CallOutcomes {
  import opened JobPipeline
  import opened Wrappers

  // ---------------------------------------------------------------- a publish

  /** From `w` to `v` the topics moved by one publish of `o`: an acknowledged record is the
      last of its topic, a lost one is nowhere, and a delayed one is on its way. */
  ghost predicate Sends(w: World, v: World, o: Output, c: Choice) {
    && v.log == w.log + (if !c.delivery.Acknowledged? then []
                         else if o.InputOut? then [Entry(Partition(Input, c.index), Valid(o.event), true)]
                         else if o.RetryOut? then [Entry(Partition(Retry, c.index), Valid(o.event), true)]
                         else [])
    && v.results == w.results + (if c.delivery.Acknowledged? && o.ResultOut? then [o.record] else [])
    && v.dead == w.dead + (if c.delivery.Acknowledged? && o.DeadOut? then [o.letter] else [])
    && v.pending == w.pending + (if c.delivery.Delayed? then [Late(o, c.index)] else [])
    && v.committed == w.committed
  }

  // ---------------------------------------------------------------- processing

  predicate KeyedAt(w: World, j: string) {
    j in w.store ==> w.store[j].job.jobId == j
  }

  /** The record of the job now has these fields; the request, its fingerprint and all
      other records are as before. */
  ghost predicate Records(w: World, v: World, j: string, state: JobState, attempt: nat, result: Option<Response>,
                          errorCode: Option<string>)
    requires j in w.store
  {
    v.store == w.store[j := StoredJob(Job(j, w.store[j].job.requestId, state, attempt, result, errorCode),
                                      w.store[j].fingerprint)]
  }

  /** The call on an event: a job without a record is reported, one that has succeeded is
      skipped; else the engine's response is published and stored, or the next attempt is
      published, or the last one reported.  What is stored says so only after the
      acknowledgement; without it the call raises and leaves the job in processing. */
  ghost predicate IsProcessed(d: Deployment, w: World, e: Event, c: Choice, v: World, raised: bool) {
    var j, acknowledged := e.jobId, c.delivery.Acknowledged?;
    if j !in w.store then
      && Sends(w, v, DeadOut(DeadJob(j, e.request.requestId, e.attempt, "missing_job_state")), c)
      && v.store == w.store && raised == !acknowledged
    else if w.store[j].job.state == Succeeded then
      v == w && !raised
    else
      && raised == !acknowledged
      && (raised ==> Records(w, v, j, Processing, e.attempt, w.store[j].job.result, None))
      && if c.verdict.Some? then
           && Sends(w, v, ResultOut(ResultRecord(j, c.verdict.value)), c)
           && (acknowledged ==> Records(w, v, j, Succeeded, e.attempt, c.verdict, None))
         else if e.attempt + 1 < d.maxAttempts then
           && Sends(w, v, RetryOut(Event(j, e.request, e.attempt + 1)), c)
           && (acknowledged ==>
                 Records(w, v, j, Accepted, e.attempt + 1, w.store[j].job.result, Some("processing_retry_scheduled")))
         else
           && Sends(w, v, DeadOut(DeadJob(j, e.request.requestId, e.attempt, "processing_attempts_exhausted")), c)
           && (acknowledged ==>
                 Records(w, v, j, Failed, e.attempt, w.store[j].job.result, Some("processing_attempts_exhausted")))
  }

  lemma SendsOne(w: World, o: Output, c: Choice)
    ensures Sends(w, Publish(w, o, c), o, c) && Publish(w, o, c).store == w.store
  {
  }

  /** The steps from a publish on. */
  lemma PublishingEnds(d: Deployment, w: World, o: Output, after: Option<StoredJob>, c: Choice)
    requires after.Some? ==> after.value.job.jobId in w.store
    ensures var (v, end) := ProcessEnd(d, w, Publishing(o, after), c);
            && Sends(w, v, o, c) && end.Raised? == !c.delivery.Acknowledged?
            && v.store == if c.delivery.Acknowledged? && after.Some? then w.store[after.value.job.jobId := after.value]
                          else w.store
  {
    var v := Publish(w, o, c);
    SendsOne(w, o, c);
    if c.delivery.Acknowledged? && after.Some? {
      var u := Save(d.store, v, after.value);
      assert ProcessEnd(d, u, Finished, c) == (u, Finished);
      assert ProcessEnd(d, v, Saving(after.value), c) == ProcessEnd(d, u, Finished, c);
      assert ProcessEnd(d, w, Publishing(o, after), c) == ProcessEnd(d, v, Saving(after.value), c);
    } else {
      var onward := if c.delivery.Acknowledged? then Finished else Raised;
      assert ProcessEnd(d, v, onward, c) == (v, onward);
      assert ProcessEnd(d, w, Publishing(o, after), c) == ProcessEnd(d, v, onward, c);
    }
  }

  /** A step further into a call. */
  lemma OneStepOn(d: Deployment, w: World, phase: Phase, c: Choice)
    requires !phase.Finished? && !phase.Raised?
    ensures var (v, onward) := ProcessStep(d, w, phase, c); ProcessEnd(d, w, phase, c) == ProcessEnd(d, v, onward, c)
  {
  }

  lemma ProcessOutcome(d: Deployment, w: World, e: Event, c: Choice)
    requires KeyedAt(w, e.jobId)
    ensures var (v, end) := ProcessEnd(d, w, Fetching(e), c); IsProcessed(d, w, e, c, v, end.Raised?)
  {
    OneStepOn(d, w, Fetching(e), c);
    if e.jobId !in w.store {
      PublishingEnds(d, w, DeadOut(Letter(e, MISSING_STATE)), None, c);
    } else if w.store[e.jobId].job.state.Succeeded? {
      assert ProcessEnd(d, w, Finished, c) == (w, Finished);
    } else {
      var processing := WithUpdate(w.store[e.jobId], Processing, e.attempt, None);
      var marked := Save(d.store, w, processing);
      OneStepOn(d, w, Marking(e, processing), c);
      OneStepOn(d, marked, Moderating(e, processing), c);
      var onward := ProcessStep(d, marked, Moderating(e, processing), c).1;
      PublishingEnds(d, marked, onward.output, onward.after, c);
      assert marked.store[e.jobId] == processing;
    }
  }

  // ---------------------------------------------------------------- a turn of the loop

  /** The next message of the partition that the consumer has not passed. */
  predicate IsNext(w: World, position: map<Partition, nat>, p: Partition, slot: nat) {
    && p in position && position[p] <= slot < |w.log| && w.log[slot].partition == p
    && forall i :: position[p] <= i < slot ==> w.log[i].partition != p
  }

  /** The message is dealt with: an event is processed, an unreadable message reported with
      its partition and offset. */
  ghost predicate DealsWith(d: Deployment, w: World, slot: nat, c: Choice, u: World, raised: bool)
    requires slot < |w.log|
  {
    match w.log[slot].message
    case Valid(e) => KeyedAt(w, e.jobId) ==> IsProcessed(d, w, e, c, u, raised)
    case Invalid =>
      && Sends(w, u, DeadOut(DeadMessage(w.log[slot].partition, slot)), c) && u.store == w.store
      && raised == !c.delivery.Acknowledged?
  }

  /** A poll of the partition: without a message nothing happens; else the message is dealt
      with, and then its successor committed, unless that raised, which ends the consumer. */
  ghost predicate IsTurn(d: Deployment, w: World, position: map<Partition, nat>, p: Partition, c: Choice, v: World, n: Worker)
  {
    && ((forall slot: nat :: !IsNext(w, position, p, slot)) ==> v == w && n == Idle(position))
    && (forall slot: nat :: IsNext(w, position, p, slot) ==> Consumed(d, w, position, p, slot, c, v, n))
  }

  ghost predicate Consumed(d: Deployment, w: World, position: map<Partition, nat>, p: Partition, slot: nat, c: Choice,
                           v: World, n: Worker)
    requires slot < |w.log|
  {
    || (DealsWith(d, w, slot, c, v, true) && n == Down)
    || (exists u :: DealsWith(d, w, slot, c, u, false) && u.committed == w.committed
                    && v == u.(committed := u.committed[p := slot + 1]) && n == Idle(position[p := slot + 1]))
  }

  lemma ReceivedOutcome(d: Deployment, w: World, slot: nat, c: Choice)
    requires slot < |w.log|
    ensures var (v, end) := ProcessEnd(d, w, Receive(w.log[slot], slot), c);
            DealsWith(d, w, slot, c, v, end.Raised?) && v.committed == w.committed && w.log <= v.log
  {
    match w.log[slot].message
    case Valid(e) =>
      if KeyedAt(w, e.jobId) { ProcessOutcome(d, w, e, c); }
      LogStays(d, w, Fetching(e), c);
    case Invalid =>
      PublishingEnds(d, w, DeadOut(DeadMessage(w.log[slot].partition, slot)), None, c);
  }

  lemma {:induction false} LogStays(d: Deployment, w: World, phase: Phase, c: Choice)
    ensures w.log <= ProcessEnd(d, w, phase, c).0.log && w.committed == ProcessEnd(d, w, phase, c).0.committed
    decreases phase.Rank()
  {
    if !phase.Finished? && !phase.Raised? {
      var (next, onward) := ProcessStep(d, w, phase, c);
      LogStays(d, next, onward, c);
    }
  }

  lemma TurnOutcome(d: Deployment, w: World, position: map<Partition, nat>, p: Partition, c: Choice)
    ensures var (v, n) := WorkerTurn(d, w, Idle(position), p, c); IsTurn(d, w, position, p, c, v, n)
  {
    var (v, n) := WorkerTurn(d, w, Idle(position), p, c);
    if p in position {
      var first := NextIn(w.log, p, position[p]);
      forall slot: nat | IsNext(w, position, p, slot) ensures Consumed(d, w, position, p, slot, c, v, n) {
        assert slot == first;
        ReceivedOutcome(d, w, slot, c);
        CommitOutcome(d, w, position, p, slot, c);
      }
      if first < |w.log| { assert IsNext(w, position, p, first); }
    }
  }

  lemma CommitOutcome(d: Deployment, w: World, position: map<Partition, nat>, p: Partition, slot: nat, c: Choice)
    requires p in position && slot == NextIn(w.log, p, position[p]) < |w.log|
    requires w.log <= ProcessEnd(d, w, Receive(w.log[slot], slot), c).0.log
    ensures var (v, n) := WorkerTurn(d, w, Idle(position), p, c); var (u, end) := ProcessEnd(d, w, Receive(w.log[slot], slot), c);
            if end.Raised? then v == u && n == Down
            else v == u.(committed := u.committed[p := slot + 1]) && n == Idle(position[p := slot + 1])
  {
  }

  // ---------------------------------------------------------------- submission

  /** The id of a request is the caller's, or the new one. */
  function IdOf(r: Request, newId: string): string {
    if r.requestId.Some? then r.requestId.value else newId
  }

  /** The call that submits a request: a new job is stored as accepted and its event
      published, with the request's text and id; the record of a failed publish is
      published again; every other record is returned as it is, or conflicts. */
  ghost predicate IsSubmitted(d: Deployment, w: World, r: Request, newId: string, c: Choice, v: World, answer: Answer) {
    var id := IdOf(r, newId);
    var j, request, acknowledged := d.jobId(id), Request(r.text, Some(id)), c.delivery.Acknowledged?;
    if j !in w.store then
      var job := Job(j, id, if acknowledged then Accepted else Failed, 0, None,
                     if acknowledged then None else Some("queue_publish_failed"));
      && Sends(w, v, InputOut(Event(j, request, 0)), c)
      && v.store == w.store[j := StoredJob(job, d.fingerprint(request))]
      && answer == if acknowledged then Returned(job) else Unavailable
    else if c.expires && d.store == Redis then
      v == w.(store := w.store - {j}) && answer == Unavailable
    else if w.store[j].fingerprint != d.fingerprint(request) then
      v == w && answer == Conflict(id)
    else if w.store[j].job.state == Failed && w.store[j].job.errorCode == Some("queue_publish_failed") then
      && Sends(w, v, InputOut(Event(j, request, 0)), c)
      && Records(w, v, j, if acknowledged then Accepted else Failed, w.store[j].job.attempt, w.store[j].job.result,
                 if acknowledged then None else Some("queue_publish_failed"))
      && answer == if acknowledged then Returned(v.store[j].job) else Unavailable
    else
      v == w && answer == Returned(w.store[j].job)
  }

  /** The steps of a submission from its publish on. */
  lemma QueueingEnds(d: Deployment, w: World, s: Submission, c: Choice)
    requires s.Queueing? && s.job.job.jobId in w.store
    requires s.accepted.Some? ==> s.accepted.value.job.jobId == s.job.job.jobId
    ensures var (v, answer) := SubmitEnd(d, w, s, c);
            && Sends(w, v, InputOut(s.event), c)
            && v.store == (if !c.delivery.Acknowledged? then w.store[s.job.job.jobId := Refused(s.job)]
                           else if s.accepted.Some? then w.store[s.job.job.jobId := s.accepted.value] else w.store)
            && answer == if !c.delivery.Acknowledged? then Unavailable
                         else Returned(if s.accepted.Some? then s.accepted.value.job else s.job.job)
  {
    SendsOne(w, InputOut(s.event), c);
    var (v, onward) := SubmitStep(d, w, s, c);
    assert SubmitEnd(d, w, s, c) == SubmitEnd(d, v, onward, c);
    if onward.Storing? {
      var (u, end) := SubmitStep(d, v, onward, c);
      assert SubmitEnd(d, v, onward, c) == SubmitEnd(d, u, end, c);
    }
  }

  lemma SubmissionOutcome(d: Deployment, w: World, r: Request, newId: string, c: Choice)
    requires KeyedAt(w, d.jobId(IdOf(r, newId)))
    ensures var (v, answer) := SubmitEnd(d, w, Begin(d, r, newId), c); IsSubmitted(d, w, r, newId, c, v, answer)
  {
    var b := Begin(d, r, newId);
    var (w1, s1) := SubmitStep(d, w, b, c);
    assert SubmitEnd(d, w, b, c) == SubmitEnd(d, w1, s1, c);
    if b.event.jobId !in w.store {
      QueueingEnds(d, w1, s1, c);
    } else {
      var (w2, s2) := SubmitStep(d, w1, s1, c);
      assert SubmitEnd(d, w1, s1, c) == SubmitEnd(d, w2, s2, c);
      if s2.Queueing? { QueueingEnds(d, w2, s2, c); }
    }
  }

  ghost predicate InjectiveJobIds(d: Deployment) {
    forall a, b :: d.jobId(a) == d.jobId(b) ==> a == b
  }

  /** Requests without an id, submitted under different new ids, are different jobs, and
      both are queued with their own text. */
  lemma NewIdsNewJobs(d: Deployment, w: World, r: Request, q: Request, id: string, other: string, c: Choice)
    requires InjectiveJobIds(d) && id != other && r.requestId.None? && q.requestId.None? && c.delivery.Acknowledged?
    requires d.jobId(id) !in w.store && d.jobId(other) !in w.store
    ensures var v := SubmitEnd(d, w, Begin(d, r, id), c).0; var u := SubmitEnd(d, v, Begin(d, q, other), c).0;
            && d.jobId(id) != d.jobId(other)
            && u.log == w.log + [Entry(Partition(Input, c.index), Valid(Event(d.jobId(id), Request(r.text, Some(id)), 0)), true),
                                 Entry(Partition(Input, c.index), Valid(Event(d.jobId(other), Request(q.text, Some(other)), 0)), true)]
            && d.jobId(id) in u.store && u.store[d.jobId(id)].job.requestId == id
            && d.jobId(other) in u.store && u.store[d.jobId(other)].job.requestId == other
  {
    SubmissionOutcome(d, w, r, id, c);
    var v := SubmitEnd(d, w, Begin(d, r, id), c).0;
    SubmissionOutcome(d, v, q, other, c);
  }
}
