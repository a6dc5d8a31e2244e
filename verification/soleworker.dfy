/** What the stored state means when one worker runs, a submission is one step and nothing
    expires.  The worker may still crash and messages may still be redelivered anywhere. */
module SoleWorker {
  import opened JobPipeline
  import opened Wrappers
  import opened NoLoss

  datatype Solo = Solo(world: World, worker: Worker)

  datatype SoloAction =
    | Acts(action: WorkerAction)
    | Submitted(request: Request, newId: string, choice: Choice)
    | Unreadable(partition: Partition)
    | Arrived(record: nat)

  /** A submission without interruption. */
  function Submit(d: Deployment, w: World, r: Request, newId: string, c: Choice): (World, Answer) {
    SubmitEnd(d, w, Begin(d, r, newId), c.(expires := false))
  }

  function SoloNext(d: Deployment, s: Solo, a: SoloAction): Solo {
    match a
    case Acts(action) => var (w, k) := WorkerNext(d, s.world, s.worker, action); Solo(w, k)
    case Submitted(r, newId, c) => Solo(Submit(d, s.world, r, newId, c).0, s.worker)
    case Unreadable(p) => s.(world := s.world.(log := s.world.log + [Entry(p, Invalid, true)]))
    case Arrived(k) => s.(world := Arrive(s.world, k))
  }

  function SoloRun(d: Deployment, s: Solo, actions: seq<SoloAction>): Solo {
    if actions == [] then s
    else SoloNext(d, SoloRun(d, s, actions[..|actions| - 1]), actions[|actions| - 1])
  }

  const EMPTY := Solo(NOTHING.world, Down)

  // ---------------------------------------------------------------- what a submission does

  /** Record of the job after its publish ended. */
  function AfterQueueing(job: StoredJob, c: Choice): StoredJob {
    if c.delivery.Acknowledged? then Requeued(job) else Refused(job)
  }

  ghost predicate Keyed(w: World) {
    forall j :: j in w.store ==> w.store[j].job.jobId == j
  }

  /** The id of the job that a request is about. */
  function JobIdOf(d: Deployment, r: Request, newId: string): string {
    d.jobId(Normalized(r, newId).requestId.value)
  }

  /** The stored record is of another request. */
  predicate Clashes(d: Deployment, w: World, r: Request, newId: string) {
    var j := JobIdOf(d, r, newId);
    j in w.store && w.store[j].fingerprint != d.fingerprint(Normalized(r, newId))
  }

  /** The request has to be published: it is new, or its last publish failed. */
  predicate NeedsPublish(d: Deployment, w: World, r: Request, newId: string) {
    var j := JobIdOf(d, r, newId);
    j !in w.store || (!Clashes(d, w, r, newId) && PublishFailed(w.store[j]))
  }

  /** The record before the publish: the stored one or the new one. */
  function Candidate(d: Deployment, w: World, r: Request, newId: string): StoredJob {
    var j := JobIdOf(d, r, newId);
    if j in w.store then w.store[j] else NewJob(d, Normalized(r, newId))
  }

  /** Publish the request and record how that went. */
  function Queue(d: Deployment, w: World, r: Request, newId: string, c: Choice): World {
    var j := JobIdOf(d, r, newId);
    Publish(w, InputOut(Event(j, Normalized(r, newId), 0)), c)
      .(store := w.store[j := AfterQueueing(Candidate(d, w, r, newId), c)])
  }

  /** A submission either clashes, or returns the record as it is, or publishes once; the
      first two change nothing. */
  lemma SubmitOutcome(d: Deployment, w: World, r: Request, newId: string, c: Choice)
    requires Keyed(w)
    ensures Clashes(d, w, r, newId) ==>
      Submit(d, w, r, newId, c) == (w, Conflict(Normalized(r, newId).requestId.value))
    ensures !Clashes(d, w, r, newId) && !NeedsPublish(d, w, r, newId) ==>
      Submit(d, w, r, newId, c) == (w, Returned(w.store[JobIdOf(d, r, newId)].job))
    ensures NeedsPublish(d, w, r, newId) ==>
      && Submit(d, w, r, newId, c).0 == Queue(d, w, r, newId, c)
      && Submit(d, w, r, newId, c).1 == (if c.delivery.Acknowledged?
           then Returned(Requeued(Candidate(d, w, r, newId)).job) else Unavailable)
  {
    var b, q := Begin(d, r, newId), c.(expires := false);
    var (w1, s1) := SubmitStep(d, w, b, q);
    var (w2, s2) := SubmitStep(d, w1, s1, q);
    assert SubmitEnd(d, w, b, q) == SubmitEnd(d, w1, s1, q);
    assert !s1.Answered? && SubmitEnd(d, w1, s1, q) == SubmitEnd(d, w2, s2, q);
    if NeedsPublish(d, w, r, newId) {
      if b.event.jobId in w.store {
        QueueingEnds(d, w2, s2, q);
      } else {
        QueueingEnds(d, w1, s1, q);
      }
    }
  }

  lemma QueueingEnds(d: Deployment, w: World, s: Submission, c: Choice)
    requires s.Queueing? && s.job.job.jobId in w.store
    requires s.accepted.Some? ==> s.accepted.value.job.jobId == s.job.job.jobId
    ensures var v := Publish(w, InputOut(s.event), c);
            var update := if !c.delivery.Acknowledged? then Refused(s.job)
                          else if s.accepted.Some? then s.accepted.value else w.store[s.job.job.jobId];
            && SubmitEnd(d, w, s, c).0 == v.(store := w.store[s.job.job.jobId := update])
            && SubmitEnd(d, w, s, c).1 == if !c.delivery.Acknowledged? then Unavailable
                 else if s.accepted.Some? then Returned(s.accepted.value.job) else Returned(s.job.job)
  {
    var (w1, s1) := SubmitStep(d, w, s, c);
    assert SubmitEnd(d, w, s, c) == SubmitEnd(d, w1, s1, c);
    if s1.Storing? {
      var (w2, s2) := SubmitStep(d, w1, s1, c);
      assert SubmitEnd(d, w1, s1, c) == SubmitEnd(d, w2, s2, c);
    } else {
      assert w.store == w.store[s.job.job.jobId := w.store[s.job.job.jobId]];
    }
  }

  // ---------------------------------------------------------------- the invariant

  /** The stored result is one that was published. */
  predicate Published(w: World, s: StoredJob) {
    exists k :: 0 <= k < |w.results| && w.results[k].jobId == s.job.jobId && s.job.result == Some(w.results[k].response)
  }

  /** The last attempt was reported as exhausted, with the request id of its event. */
  predicate Buried(w: World, s: StoredJob) {
    exists k, i :: 0 <= k < |w.dead| && 0 <= i < |w.log| && IsBurial(w, s, k, i)
  }

  /** Letter `k` reports event `i`, of the stored attempt. */
  predicate IsBurial(w: World, s: StoredJob, k: nat, i: nat) {
    && k < |w.dead| && IsEvent(w, i, s.job.jobId) && w.log[i].message.event.attempt == s.job.attempt
    && w.dead[k] == DeadJob(s.job.jobId, w.log[i].message.event.request.requestId, s.job.attempt,
                            "processing_attempts_exhausted")
  }

  /** The next attempt that the record speaks of is in the log. */
  predicate Scheduled(w: World, s: StoredJob) {
    s.job.errorCode == Some(RETRY_SCHEDULED) ==> HasAttempt(w, s.job.jobId, s.job.attempt)
  }

  predicate IsExhausted(s: StoredJob) {
    s.job.state.Failed? && s.job.errorCode == Some(EXHAUSTED)
  }

  predicate Unfinished(s: StoredJob) {
    s.job.state.Accepted? || s.job.state.Processing?
  }

  /** An uncommitted event of the job other than the one at `slot`. */
  predicate PendingBesides(w: World, j: string, slot: nat) {
    exists i :: 0 <= i < |w.log| && i != slot && IsEvent(w, i, j) && w.Uncommitted(i)
  }

  /** An input event whose producer saw the acknowledgement. */
  predicate IsAcknowledgedInput(w: World, i: nat, j: string) {
    IsEvent(w, i, j) && w.log[i].partition.topic.Input? && w.log[i].acknowledged
  }

  predicate KnownEvent(d: Deployment, w: World, e: Event) {
    e.jobId in w.store && w.store[e.jobId].fingerprint == d.fingerprint(e.request)
  }

  predicate KnownOutput(d: Deployment, w: World, o: Output) {
    o.InputOut? || o.RetryOut? ==> KnownEvent(d, w, o.event)
  }

  predicate EventsKnown(d: Deployment, w: World) {
    && (forall i :: 0 <= i < |w.log| && w.log[i].message.Valid? ==> KnownEvent(d, w, w.log[i].message.event))
    && (forall k :: 0 <= k < |w.pending| ==> KnownOutput(d, w, w.pending[k].output))
  }

  predicate KeepsRequests(w: World, v: World) {
    forall j :: j in w.store ==> j in v.store && v.store[j].fingerprint == w.store[j].fingerprint
  }

  /** Records that keep their request know the same events. */
  lemma KnownStays(d: Deployment, w: World, v: World)
    requires EventsKnown(d, w) && KeepsRequests(w, v) && v.log == w.log && v.pending == w.pending
    ensures EventsKnown(d, v)
  {
    forall i | 0 <= i < |v.log| && v.log[i].message.Valid? ensures KnownEvent(d, v, v.log[i].message.event) {
      assert KnownEvent(d, w, w.log[i].message.event);
    }
    forall k | 0 <= k < |v.pending| ensures KnownOutput(d, v, v.pending[k].output) {
      assert KnownOutput(d, w, w.pending[k].output);
    }
  }

  /** What the stored state promises about the topics. */
  predicate Honest(w: World, s: StoredJob) {
    && (Unfinished(s) ==> HasUncommitted(w, s.job.jobId))
    && (s.job.state.Succeeded? ==> Published(w, s))
    && (IsExhausted(s) ==> Buried(w, s))
    && Scheduled(w, s)
  }

  predicate StoreHonest(w: World) {
    forall j :: j in w.store ==> w.store[j].job.jobId == j && Honest(w, w.store[j])
  }

  ghost predicate PublishedOnce(w: World) {
    && (forall j, i :: IsAcknowledgedInput(w, i, j) && j in w.store ==> !PublishFailed(w.store[j]))
    && (forall j, i, k :: IsAcknowledgedInput(w, i, j) && IsAcknowledgedInput(w, k, j) ==> i == k)
  }

  predicate CommitsInLog(w: World) {
    forall p :: p in w.committed ==> w.committed[p] <= |w.log|
  }

  ghost predicate WorldOk(d: Deployment, w: World) {
    StoreHonest(w) && EventsKnown(d, w) && PublishedOnce(w) && CommitsInLog(w)
  }

  /** The consumer's offsets are the committed ones, but for the message in hand. */
  predicate InStep(w: World, position: map<Partition, nat>, besides: Option<Partition>) {
    forall p :: p in position && besides != Some(p) ==> position[p] == w.Committed(p)
  }

  predicate InHand(w: World, position: map<Partition, nat>, slot: nat) {
    slot < |w.log| &&
    var p := w.log[slot].partition;
    && InStep(w, position, Some(p))
    && p in position && position[p] == slot + 1
    && w.Uncommitted(slot)
    && forall i :: w.Committed(p) <= i < slot ==> w.log[i].partition != p
  }

  /** The update that follows a publish, and why it is right. */
  predicate Follows(e: Event, o: Output, u: StoredJob) {
    || (u.job.state.Succeeded? && u.job.errorCode.None? && o.ResultOut? && o.record.jobId == e.jobId
        && u.job.result == Some(o.record.response))
    || (u.job.state.Accepted? && o == RetryOut(e.(attempt := e.attempt + 1)) && u.job.errorCode == Some(RETRY_SCHEDULED)
        && u.job.attempt == e.attempt + 1)
    || (IsExhausted(u) && o == DeadOut(Letter(e, EXHAUSTED)) && u.job.attempt == e.attempt)
  }

  /** Committing the message at `slot` will leave the job honest. */
  predicate Settled(w: World, slot: nat, s: StoredJob) {
    || s.job.state.Succeeded?
    || IsExhausted(s)
    || (PendingBesides(w, s.job.jobId, slot))
  }

  /** What a job is saved as at the end holds even once `slot` is committed. */
  predicate Ready(w: World, slot: nat, u: StoredJob) {
    && (u.job.state.Succeeded? || IsExhausted(u) || u.job.state.Accepted?)
    && (u.job.state.Accepted? ==> PendingBesides(w, u.job.jobId, slot))
    && (u.job.state.Succeeded? ==> Published(w, u))
    && (IsExhausted(u) ==> Buried(w, u))
    && Scheduled(w, u)
  }

  predicate SameJob(w: World, e: Event, s: StoredJob) {
    e.jobId in w.store && s.job.jobId == e.jobId && s.fingerprint == w.store[e.jobId].fingerprint
  }

  predicate InProgress(w: World, e: Event) {
    e.jobId in w.store && w.store[e.jobId].job.state.Processing?
  }

  predicate PhaseRight(w: World, slot: nat, phase: Phase)
    requires slot < |w.log|
  {
    match w.log[slot].message
    case Invalid => phase == Publishing(DeadOut(DeadMessage(w.log[slot].partition, slot)), None) || phase.Finished?
    case Valid(e) =>
      match phase
      case Fetching(e') => e' == e
      case Marking(e', u) =>
        e' == e && SameJob(w, e, u) && u.job.state.Processing? && u.job.errorCode.None? && !w.store[e.jobId].job.state.Succeeded?
      case Moderating(e', u) => e' == e && InProgress(w, e) && w.store[e.jobId] == u
      case Publishing(o, after) =>
        InProgress(w, e) && after.Some? && SameJob(w, e, after.value) && Follows(e, o, after.value)
      case Saving(u) =>
        InProgress(w, e) && SameJob(w, e, u) && Ready(w, slot, u)
      case Finished => e.jobId in w.store && Settled(w, slot, w.store[e.jobId])
      case Raised => false
  }

  predicate WorkerRight(w: World, k: Worker) {
    match k
    case Down => true
    case Idle(position) => InStep(w, position, None)
    case Busy(position, slot, phase) => InHand(w, position, slot) && PhaseRight(w, slot, phase)
  }

  ghost predicate SoloInv(d: Deployment, s: Solo) {
    WorldOk(d, s.world) && WorkerRight(s.world, s.worker)
  }

  // ---------------------------------------------------------------- changes of the world

  lemma CodesDiffer()
    ensures EXHAUSTED != PUBLISH_FAILED && RETRY_SCHEDULED != PUBLISH_FAILED && RETRY_SCHEDULED != EXHAUSTED
  {
    assert EXHAUSTED[0] != PUBLISH_FAILED[0] && RETRY_SCHEDULED[0] != PUBLISH_FAILED[0];
    assert RETRY_SCHEDULED[11] != EXHAUSTED[11];
  }

  lemma UncommittedStays(w: World, v: World, j: string)
    requires Grows(w, v) && v.committed == w.committed && HasUncommitted(w, j)
    ensures HasUncommitted(v, j)
  {
    var i :| 0 <= i < |w.log| && IsEvent(w, i, j) && w.Uncommitted(i);
    assert v.log[i] == w.log[i];
    assert IsEvent(v, i, j) && v.Uncommitted(i);
  }

  lemma PendingStays(w: World, v: World, j: string, slot: nat)
    requires Grows(w, v) && v.committed == w.committed && PendingBesides(w, j, slot)
    ensures PendingBesides(v, j, slot)
  {
    var i :| 0 <= i < |w.log| && i != slot && IsEvent(w, i, j) && w.Uncommitted(i);
    assert v.log[i] == w.log[i];
    assert IsEvent(v, i, j) && v.Uncommitted(i);
  }

  lemma PublishedStays(w: World, v: World, s: StoredJob)
    requires Grows(w, v) && Published(w, s)
    ensures Published(v, s)
  {
    var k :| 0 <= k < |w.results| && w.results[k].jobId == s.job.jobId && s.job.result == Some(w.results[k].response);
    assert v.results[k] == w.results[k];
  }

  lemma BuriedStays(w: World, v: World, s: StoredJob)
    requires Grows(w, v) && Buried(w, s)
    ensures Buried(v, s)
  {
    var k, i :| 0 <= k < |w.dead| && 0 <= i < |w.log| && IsBurial(w, s, k, i);
    assert v.dead[k] == w.dead[k] && v.log[i] == w.log[i];
    assert IsBurial(v, s, k, i);
  }

  lemma ScheduledStays(w: World, v: World, s: StoredJob)
    requires Grows(w, v) && Scheduled(w, s)
    ensures Scheduled(v, s)
  {
    if s.job.errorCode == Some(RETRY_SCHEDULED) {
      var i :| 0 <= i < |w.log| && IsEvent(w, i, s.job.jobId) && w.log[i].message.event.attempt == s.job.attempt;
      assert v.log[i] == w.log[i] && IsEvent(v, i, s.job.jobId);
    }
  }

  lemma HonestStays(w: World, v: World, s: StoredJob)
    requires Grows(w, v) && v.committed == w.committed && Honest(w, s)
    ensures Honest(v, s)
  {
    if Unfinished(s) { UncommittedStays(w, v, s.job.jobId); }
    if s.job.state.Succeeded? { PublishedStays(w, v, s); }
    if IsExhausted(s) { BuriedStays(w, v, s); }
    ScheduledStays(w, v, s);
  }

  lemma SettledStays(w: World, v: World, slot: nat, s: StoredJob)
    requires Grows(w, v) && v.committed == w.committed && Settled(w, slot, s)
    ensures Settled(v, slot, s)
  {
    if PendingBesides(w, s.job.jobId, slot) { PendingStays(w, v, s.job.jobId, slot); }
  }

  /** Overwriting a record with an honest one of the same request. */
  lemma SaveRight(d: Deployment, w: World, u: StoredJob)
    requires WorldOk(d, w) && u.job.jobId in w.store && u.fingerprint == w.store[u.job.jobId].fingerprint
    requires Honest(w, u) && !PublishFailed(u)
    ensures WorldOk(d, Save(d.store, w, u))
  {
    var v := Save(d.store, w, u);
    assert Grows(w, v);
    forall j | j in v.store ensures v.store[j].job.jobId == j && Honest(v, v.store[j]) {
      if j != u.job.jobId { assert Honest(w, w.store[j]); }
      HonestStays(w, v, v.store[j]);
    }
    KnownStays(d, w, v);
    forall j, i | IsAcknowledgedInput(v, i, j) && j in v.store ensures !PublishFailed(v.store[j]) {
      assert IsAcknowledgedInput(w, i, j);
    }
    SameInputs(w, v);
  }

  /** Worlds with the same log publish the same inputs. */
  lemma SameInputs(w: World, v: World)
    requires w.log == v.log && PublishedOnce(w)
    ensures forall j, i, k :: IsAcknowledgedInput(v, i, j) && IsAcknowledgedInput(v, k, j) ==> i == k
  {
    forall j, i, k | IsAcknowledgedInput(v, i, j) && IsAcknowledgedInput(v, k, j) ensures i == k {
      assert IsAcknowledgedInput(w, i, j) && IsAcknowledgedInput(w, k, j);
    }
  }

  /** Appending to the topics, other than an acknowledged input event. */
  lemma AppendRight(d: Deployment, w: World, v: World)
    requires WorldOk(d, w) && Grows(w, v) && v.store == w.store && v.committed == w.committed
    requires forall i :: |w.log| <= i < |v.log| && v.log[i].message.Valid? ==>
      (v.log[i].partition.topic.Retry? || !v.log[i].acknowledged) && KnownEvent(d, w, v.log[i].message.event)
    requires forall k :: 0 <= k < |v.pending| ==> KnownOutput(d, w, v.pending[k].output)
    ensures WorldOk(d, v)
  {
    forall j | j in v.store ensures v.store[j].job.jobId == j && Honest(v, v.store[j]) {
      assert Honest(w, w.store[j]);
      HonestStays(w, v, w.store[j]);
    }
    forall i | 0 <= i < |v.log| && v.log[i].message.Valid? ensures KnownEvent(d, v, v.log[i].message.event) {
      if i < |w.log| { assert v.log[i] == w.log[i] && KnownEvent(d, w, w.log[i].message.event); }
    }
    forall k | 0 <= k < |v.pending| ensures KnownOutput(d, v, v.pending[k].output) {
      assert KnownOutput(d, w, v.pending[k].output);
    }
    forall j, i: nat | IsAcknowledgedInput(v, i, j) ensures IsAcknowledgedInput(w, i, j) {
      assert i < |w.log| && v.log[i] == w.log[i];
    }
  }

  // ---------------------------------------------------------------- steps of the worker

  lemma HandStays(w: World, v: World, position: map<Partition, nat>, slot: nat)
    requires w.log <= v.log && v.committed == w.committed && InHand(w, position, slot)
    ensures InHand(v, position, slot)
  {
    assert w.log[slot] == v.log[slot];
    forall i | v.Committed(v.log[slot].partition) <= i < slot ensures v.log[i].partition != v.log[slot].partition {
      assert w.log[i] == v.log[i];
    }
  }

  lemma MarkRight(d: Deployment, w: World, slot: nat, e: Event, u: StoredJob)
    requires WorldOk(d, w) && slot < |w.log| && w.Uncommitted(slot)
    requires w.log[slot].message == Valid(e) && PhaseRight(w, slot, Marking(e, u))
    ensures WorldOk(d, Save(d.store, w, u)) && PhaseRight(Save(d.store, w, u), slot, Moderating(e, u))
  {
    assert IsEvent(w, slot, e.jobId);
    SaveRight(d, w, u);
  }

  lemma JudgeRight(d: Deployment, w: World, slot: nat, e: Event, u: StoredJob, c: Choice)
    requires slot < |w.log| && w.log[slot].message == Valid(e) && PhaseRight(w, slot, Moderating(e, u))
    requires w.store[e.jobId].job.jobId == e.jobId
    ensures PhaseRight(w, slot, ProcessStep(d, w, Moderating(e, u), c).1)
  {
  }

  lemma FinalSaveRight(d: Deployment, w: World, slot: nat, u: StoredJob)
    requires WorldOk(d, w) && slot < |w.log| && w.log[slot].message.Valid? && PhaseRight(w, slot, Saving(u))
    ensures WorldOk(d, Save(d.store, w, u)) && PhaseRight(Save(d.store, w, u), slot, Finished)
  {
    CodesDiffer();
    if u.job.state.Accepted? {
      var i :| 0 <= i < |w.log| && i != slot && IsEvent(w, i, u.job.jobId) && w.Uncommitted(i);
      assert HasUncommitted(w, u.job.jobId);
    }
    assert Honest(w, u);
    SaveRight(d, w, u);
    SettledStays(w, Save(d.store, w, u), slot, u);
  }

  /** Publishing the outcome of a valid event. */
  lemma PublishRight(d: Deployment, w: World, slot: nat, o: Output, u: StoredJob, c: Choice)
    requires WorldOk(d, w) && slot < |w.log| && w.log[slot].message.Valid?
    requires PhaseRight(w, slot, Publishing(o, Some(u)))
    ensures var v := Publish(w, o, c); Grows(w, v) && WorldOk(d, v)
    ensures c.delivery.Acknowledged? ==> PhaseRight(Publish(w, o, c), slot, Saving(u))
  {
    var e := w.log[slot].message.event;
    var v := Publish(w, o, c);
    assert KnownEvent(d, w, e);
    CodesDiffer();
    AppendRight(d, w, v);
    if c.delivery.Acknowledged? {
      match o
      case ResultOut(r) => assert v.results[|w.results|] == r;
      case DeadOut(l) =>
        assert v.dead[|w.dead|] == l && IsEvent(v, slot, e.jobId);
        assert IsExhausted(u) ==> IsBurial(v, u, |w.dead|, slot);
      case RetryOut(r) => RetryPending(w, slot, r, c);
      case InputOut(_) =>
    }
  }

  /** A published retry is uncommitted. */
  lemma RetryPending(w: World, slot: nat, r: Event, c: Choice)
    requires CommitsInLog(w) && slot < |w.log| && c.delivery.Acknowledged?
    ensures PendingBesides(Publish(w, RetryOut(r), c), r.jobId, slot)
    ensures HasAttempt(Publish(w, RetryOut(r), c), r.jobId, r.attempt)
  {
    var v := Publish(w, RetryOut(r), c);
    assert IsEvent(v, |w.log|, r.jobId) && v.Uncommitted(|w.log|);
  }

  lemma InvalidRight(d: Deployment, w: World, slot: nat, c: Choice)
    requires WorldOk(d, w) && slot < |w.log|
    ensures var v := Publish(w, DeadOut(DeadMessage(w.log[slot].partition, slot)), c); Grows(w, v) && WorldOk(d, v)
  {
    AppendRight(d, w, Publish(w, DeadOut(DeadMessage(w.log[slot].partition, slot)), c));
  }

  lemma FetchRight(d: Deployment, w: World, slot: nat, e: Event, c: Choice)
    requires WorldOk(d, w) && slot < |w.log| && w.log[slot].message == Valid(e)
    ensures PhaseRight(w, slot, ProcessStep(d, w, Fetching(e), c).1)
  {
    assert KnownEvent(d, w, e);
    assert Honest(w, w.store[e.jobId]);
  }

  /** One step of processing keeps the world right and moves the worker on. */
  lemma StepRight(d: Deployment, w: World, slot: nat, phase: Phase, c: Choice)
    requires WorldOk(d, w) && slot < |w.log| && w.Uncommitted(slot) && PhaseRight(w, slot, phase)
    ensures var (v, onward) := ProcessStep(d, w, phase, c);
            WorldOk(d, v) && w.log <= v.log && v.committed == w.committed
            && (onward.Raised? || PhaseRight(v, slot, onward))
  {
    match phase
    case Fetching(e) => FetchRight(d, w, slot, e, c);
    case Marking(e, u) => MarkRight(d, w, slot, e, u);
    case Moderating(e, u) => JudgeRight(d, w, slot, e, u, c);
    case Publishing(o, after) =>
      if w.log[slot].message.Invalid? { InvalidRight(d, w, slot, c); }
      else { PublishRight(d, w, slot, o, after.value, c); }
    case Saving(u) => FinalSaveRight(d, w, slot, u);
    case _ =>
  }

  lemma WorkRight(d: Deployment, s: Solo, c: Choice)
    requires SoloInv(d, s)
    ensures SoloInv(d, SoloNext(d, s, Acts(Work(c))))
  {
    if s.worker.Busy? {
      StepRight(d, s.world, s.worker.slot, s.worker.phase, c);
      HandStays(s.world, ProcessStep(d, s.world, s.worker.phase, c).0, s.worker.position, s.worker.slot);
    }
  }

  lemma CommitRight(d: Deployment, s: Solo)
    requires SoloInv(d, s)
    ensures SoloInv(d, SoloNext(d, s, Acts(Commit)))
  {
    var k := s.worker;
    if k.Busy? && k.phase.Finished? {
      var w, v := s.world, SoloNext(d, s, Acts(Commit)).world;
      forall j | j in v.store ensures v.store[j].job.jobId == j && Honest(v, v.store[j]) {
        CommittedHonest(w, v, k.position, k.slot, j);
      }
      SameInputs(w, v);
      forall j, i: nat | IsAcknowledgedInput(v, i, j) && j in v.store ensures !PublishFailed(v.store[j]) {
        assert IsAcknowledgedInput(w, i, j);
      }
      KnownStays(d, w, v);
    }
  }

  /** Committing a finished message leaves every job honest. */
  lemma CommittedHonest(w: World, v: World, position: map<Partition, nat>, slot: nat, j: string)
    requires StoreHonest(w) && InHand(w, position, slot) && PhaseRight(w, slot, Finished) && j in w.store
    requires v == w.(committed := w.committed[w.log[slot].partition := slot + 1])
    ensures w.store[j].job.jobId == j && Honest(v, w.store[j])
  {
    var u := w.store[j];
    assert Honest(w, u);
    if u.job.state.Succeeded? { PublishedStays(w, v, u); }
    if IsExhausted(u) { BuriedStays(w, v, u); }
    ScheduledStays(w, v, u);
    if Unfinished(u) {
      var i :| 0 <= i < |w.log| && IsEvent(w, i, j) && w.Uncommitted(i);
      if i == slot {
        assert PendingBesides(w, j, slot);
        var n :| 0 <= n < |w.log| && n != slot && IsEvent(w, n, j) && w.Uncommitted(n);
        assert IsEvent(v, n, j) && v.Uncommitted(n);
      } else {
        assert IsEvent(v, i, j) && v.Uncommitted(i);
      }
    }
  }

  lemma PollRight(d: Deployment, s: Solo, p: Partition)
    requires SoloInv(d, s)
    ensures SoloInv(d, SoloNext(d, s, Acts(Poll(p))))
  {
  }

  lemma WorkerRightStep(d: Deployment, s: Solo, a: WorkerAction)
    requires SoloInv(d, s)
    ensures SoloInv(d, SoloNext(d, s, Acts(a)))
  {
    match a
    case Start =>
    case Crash =>
    case Assign(p) =>
    case Poll(p) => PollRight(d, s, p);
    case Work(c) => WorkRight(d, s, c);
    case Commit => CommitRight(d, s);
  }

  // ---------------------------------------------------------------- submissions

  /** What the worker relies on when others act: the logs grow, and only records of failed
      publishes change, without succeeding. */
  predicate Quiet(w: World, v: World) {
    && Grows(w, v) && v.committed == w.committed
    && forall j :: j in w.store ==> j in v.store && StillOwed(w.store[j], v.store[j])
  }

  predicate StillOwed(s: StoredJob, t: StoredJob) {
    || t == s
    || (PublishFailed(s) && t.fingerprint == s.fingerprint && t.job.jobId == s.job.jobId && !t.job.state.Succeeded?)
  }

  lemma WorkerUndisturbed(d: Deployment, w: World, v: World, k: Worker)
    requires StoreHonest(w) && Quiet(w, v) && WorkerRight(w, k)
    ensures WorkerRight(v, k)
  {
    if k.Busy? {
      HandStays(w, v, k.position, k.slot);
      assert v.log[k.slot] == w.log[k.slot];
      PhaseUndisturbed(w, v, k.slot, k.phase);
    }
  }

  lemma PhaseUndisturbed(w: World, v: World, slot: nat, phase: Phase)
    requires StoreHonest(w) && Quiet(w, v) && slot < |w.log| && v.log[slot] == w.log[slot] && PhaseRight(w, slot, phase)
    ensures PhaseRight(v, slot, phase)
  {
    if w.log[slot].message.Valid? {
      var e := w.log[slot].message.event;
      match phase
      case Saving(u) => ReadyStays(w, v, slot, u);
      case Finished => SettledUndisturbed(w, v, slot, e.jobId);
      case _ =>
    }
  }

  lemma ReadyStays(w: World, v: World, slot: nat, u: StoredJob)
    requires Grows(w, v) && v.committed == w.committed && Ready(w, slot, u)
    ensures Ready(v, slot, u)
  {
    if u.job.state.Accepted? { PendingStays(w, v, u.job.jobId, slot); }
    if u.job.state.Succeeded? { PublishedStays(w, v, u); }
    if IsExhausted(u) { BuriedStays(w, v, u); }
    ScheduledStays(w, v, u);
  }

  lemma SettledUndisturbed(w: World, v: World, slot: nat, j: string)
    requires StoreHonest(w) && Quiet(w, v) && j in w.store && Settled(w, slot, w.store[j])
    ensures Settled(v, slot, v.store[j])
  {
    CodesDiffer();
    SettledStays(w, v, slot, w.store[j]);
  }

  /** A publishing submission keeps the world right. */
  lemma QueueRight(d: Deployment, w: World, r: Request, newId: string, c: Choice)
    requires WorldOk(d, w) && NeedsPublish(d, w, r, newId)
    ensures WorldOk(d, Queue(d, w, r, newId, c)) && Quiet(w, Queue(d, w, r, newId, c))
  {
    CodesDiffer();
    QueueHonest(d, w, r, newId, c);
    QueueKnown(d, w, r, newId, c);
    QueuedOnce(d, w, r, newId, c);
  }

  lemma QueueKnown(d: Deployment, w: World, r: Request, newId: string, c: Choice)
    requires EventsKnown(d, w) && NeedsPublish(d, w, r, newId)
    ensures EventsKnown(d, Queue(d, w, r, newId, c))
  {
    var v := Queue(d, w, r, newId, c);
    forall i | 0 <= i < |v.log| && v.log[i].message.Valid? ensures KnownEvent(d, v, v.log[i].message.event) {
      if i < |w.log| { assert v.log[i] == w.log[i] && KnownEvent(d, w, w.log[i].message.event); }
    }
    forall k | 0 <= k < |v.pending| ensures KnownOutput(d, v, v.pending[k].output) {
      if k < |w.pending| { assert v.pending[k] == w.pending[k] && KnownOutput(d, w, w.pending[k].output); }
    }
  }

  lemma QueuedOnce(d: Deployment, w: World, r: Request, newId: string, c: Choice)
    requires WorldOk(d, w) && NeedsPublish(d, w, r, newId)
    ensures PublishedOnce(Queue(d, w, r, newId, c))
  {
    var v := Queue(d, w, r, newId, c);
    var j := JobIdOf(d, r, newId);
    NoInputYet(d, w, r, newId);
    forall j', i: nat | IsAcknowledgedInput(v, i, j')
      ensures (j' == j && i == |w.log| && c.delivery.Acknowledged?) || IsAcknowledgedInput(w, i, j')
    {
      if i < |w.log| { assert v.log[i] == w.log[i]; }
    }
  }

  lemma NoInputYet(d: Deployment, w: World, r: Request, newId: string)
    requires WorldOk(d, w) && NeedsPublish(d, w, r, newId)
    ensures forall i: nat :: !IsAcknowledgedInput(w, i, JobIdOf(d, r, newId))
  {
    forall i: nat ensures !IsAcknowledgedInput(w, i, JobIdOf(d, r, newId)) {
      if IsAcknowledgedInput(w, i, JobIdOf(d, r, newId)) { InputKnown(d, w, JobIdOf(d, r, newId), i); }
    }
  }

  lemma InputKnown(d: Deployment, w: World, j: string, i: nat)
    requires WorldOk(d, w) && IsAcknowledgedInput(w, i, j)
    ensures j in w.store && !PublishFailed(w.store[j])
  {
    assert KnownEvent(d, w, w.log[i].message.event);
  }

  lemma QueueHonest(d: Deployment, w: World, r: Request, newId: string, c: Choice)
    requires WorldOk(d, w) && NeedsPublish(d, w, r, newId)
    ensures StoreHonest(Queue(d, w, r, newId, c))
  {
    var v := Queue(d, w, r, newId, c);
    var j := JobIdOf(d, r, newId);
    CodesDiffer();
    if c.delivery.Acknowledged? {
      assert IsEvent(v, |w.log|, j) && v.Uncommitted(|w.log|);
    }
    forall k | k in v.store ensures v.store[k].job.jobId == k && Honest(v, v.store[k]) {
      if k != j {
        assert Honest(w, w.store[k]);
        HonestStays(w, v, w.store[k]);
      }
    }
  }

  lemma SubmitRight(d: Deployment, s: Solo, r: Request, newId: string, c: Choice)
    requires SoloInv(d, s)
    ensures SoloInv(d, SoloNext(d, s, Submitted(r, newId, c)))
  {
    SubmitOutcome(d, s.world, r, newId, c);
    if NeedsPublish(d, s.world, r, newId) {
      QueueRight(d, s.world, r, newId, c);
      WorkerUndisturbed(d, s.world, Queue(d, s.world, r, newId, c), s.worker);
    }
  }

  lemma UnreadableRight(d: Deployment, s: Solo, p: Partition)
    requires SoloInv(d, s)
    ensures SoloInv(d, SoloNext(d, s, Unreadable(p)))
  {
    var v := SoloNext(d, s, Unreadable(p)).world;
    AppendRight(d, s.world, v);
    WorkerUndisturbed(d, s.world, v, s.worker);
  }

  lemma ArrivedRight(d: Deployment, s: Solo, k: nat)
    requires SoloInv(d, s)
    ensures SoloInv(d, SoloNext(d, s, Arrived(k)))
  {
    var w, v := s.world, SoloNext(d, s, Arrived(k)).world;
    if k < |w.pending| {
      assert KnownOutput(d, w, w.pending[k].output);
      forall n | 0 <= n < |v.pending| ensures KnownOutput(d, w, v.pending[n].output) {
        assert v.pending[n] == w.pending[if n < k then n else n + 1];
      }
      AppendRight(d, w, v);
      WorkerUndisturbed(d, w, v, s.worker);
    }
  }

  lemma SoloStep(d: Deployment, s: Solo, a: SoloAction)
    requires SoloInv(d, s)
    ensures SoloInv(d, SoloNext(d, s, a))
  {
    match a
    case Acts(action) => WorkerRightStep(d, s, action);
    case Submitted(r, newId, c) => SubmitRight(d, s, r, newId, c);
    case Unreadable(p) => UnreadableRight(d, s, p);
    case Arrived(k) => ArrivedRight(d, s, k);
  }

  lemma {:induction false} SoloKeeps(d: Deployment, s: Solo, actions: seq<SoloAction>)
    requires SoloInv(d, s)
    ensures SoloInv(d, SoloRun(d, s, actions))
  {
    if actions == [] {
    } else {
      SoloKeeps(d, s, actions[..|actions| - 1]);
      SoloStep(d, SoloRun(d, s, actions[..|actions| - 1]), actions[|actions| - 1]);
    }
  }

  // ---------------------------------------------------------------- the theorems

  /** In every state a run can reach, the stored state of a job tells the truth. */
  lemma StatesTellTheTruth(d: Deployment, actions: seq<SoloAction>, j: string)
    requires j in SoloRun(d, EMPTY, actions).world.store
    ensures var w := SoloRun(d, EMPTY, actions).world;
            && (w.store[j].job.state.Accepted? || w.store[j].job.state.Processing? ==> HasUncommitted(w, j))
            && (w.store[j].job.state.Succeeded? ==> Published(w, w.store[j]))
            && (IsExhausted(w.store[j]) ==> Buried(w, w.store[j]))
            && Scheduled(w, w.store[j])
  {
    SoloKeeps(d, EMPTY, actions);
    var w := SoloRun(d, EMPTY, actions).world;
    assert Honest(w, w.store[j]);
  }

  /** The worker only writes to the job in its hands, which has not succeeded. */
  lemma SuccessWork(d: Deployment, w: World, slot: nat, phase: Phase, c: Choice, j: string)
    requires slot < |w.log| && PhaseRight(w, slot, phase) && j in w.store && w.store[j].job.state.Succeeded?
    ensures var v := ProcessStep(d, w, phase, c).0; j in v.store && v.store[j] == w.store[j]
  {
  }

  lemma SuccessStep(d: Deployment, s: Solo, a: SoloAction, j: string)
    requires SoloInv(d, s) && j in s.world.store && s.world.store[j].job.state.Succeeded?
    ensures var w := SoloNext(d, s, a).world; j in w.store && w.store[j] == s.world.store[j]
  {
    match a
    case Acts(action) =>
      if action.Work? && s.worker.Busy? { SuccessWork(d, s.world, s.worker.slot, s.worker.phase, action.choice, j); }
    case Submitted(r, newId, c) => SubmitOutcome(d, s.world, r, newId, c);
    case Unreadable(p) =>
    case Arrived(k) =>
  }

  /** A succeeded job keeps its record, result included, for ever. */
  lemma {:induction false} SuccessIsFinal(d: Deployment, before: seq<SoloAction>, more: seq<SoloAction>, j: string)
    requires j in SoloRun(d, EMPTY, before).world.store && SoloRun(d, EMPTY, before).world.store[j].job.state.Succeeded?
    ensures var w := SoloRun(d, SoloRun(d, EMPTY, before), more).world;
            j in w.store && w.store[j] == SoloRun(d, EMPTY, before).world.store[j]
  {
    if more == [] {
    } else {
      var shorter := more[..|more| - 1];
      SuccessIsFinal(d, before, shorter, j);
      SoloKeeps(d, EMPTY, before);
      SoloKeeps(d, SoloRun(d, EMPTY, before), shorter);
      SuccessStep(d, SoloRun(d, SoloRun(d, EMPTY, before), shorter), more[|more| - 1], j);
    }
  }

  /** However often a job is submitted, one input publish at most is acknowledged. */
  lemma OneAcknowledgedPublish(d: Deployment, actions: seq<SoloAction>, j: string, i: nat, k: nat)
    requires IsAcknowledgedInput(SoloRun(d, EMPTY, actions).world, i, j)
    requires IsAcknowledgedInput(SoloRun(d, EMPTY, actions).world, k, j)
    ensures i == k
  {
    SoloKeeps(d, EMPTY, actions);
  }

  ghost predicate Injective(f: Request -> string) {
    forall x, y :: f(x) == f(y) ==> x == y
  }

  /** All events of a job, first attempts and retries, carry one request. */
  lemma OneRequestPerJob(d: Deployment, actions: seq<SoloAction>, j: string, i: nat, k: nat)
    requires Injective(d.fingerprint)
    requires IsEvent(SoloRun(d, EMPTY, actions).world, i, j) && IsEvent(SoloRun(d, EMPTY, actions).world, k, j)
    ensures var w := SoloRun(d, EMPTY, actions).world;
            w.log[i].message.event.request == w.log[k].message.event.request
  {
    SoloKeeps(d, EMPTY, actions);
    var w := SoloRun(d, EMPTY, actions).world;
    assert KnownEvent(d, w, w.log[i].message.event) && KnownEvent(d, w, w.log[k].message.event);
  }

  /** A different request under the id of a job with an event is refused and changes nothing. */
  lemma OtherRequestRefused(d: Deployment, actions: seq<SoloAction>, i: nat, r: Request, newId: string, c: Choice)
    requires Injective(d.fingerprint)
    requires IsEvent(SoloRun(d, EMPTY, actions).world, i, JobIdOf(d, r, newId))
    requires SoloRun(d, EMPTY, actions).world.log[i].message.event.request != Normalized(r, newId)
    ensures var w := SoloRun(d, EMPTY, actions).world;
            Submit(d, w, r, newId, c) == (w, Conflict(Normalized(r, newId).requestId.value))
  {
    SoloKeeps(d, EMPTY, actions);
    var w := SoloRun(d, EMPTY, actions).world;
    assert KnownEvent(d, w, w.log[i].message.event);
    SubmitOutcome(d, w, r, newId, c);
  }

  /** Submitting again after an acknowledged publish returns the stored record and changes nothing. */
  lemma ResubmissionIdempotent(d: Deployment, actions: seq<SoloAction>, i: nat, r: Request, newId: string, c: Choice)
    requires IsAcknowledgedInput(SoloRun(d, EMPTY, actions).world, i, JobIdOf(d, r, newId))
    requires SoloRun(d, EMPTY, actions).world.log[i].message.event.request == Normalized(r, newId)
    ensures var w := SoloRun(d, EMPTY, actions).world; var j := JobIdOf(d, r, newId);
            j in w.store && Submit(d, w, r, newId, c) == (w, Returned(w.store[j].job))
  {
    SoloKeeps(d, EMPTY, actions);
    var w := SoloRun(d, EMPTY, actions).world;
    assert KnownEvent(d, w, w.log[i].message.event);
    SubmitOutcome(d, w, r, newId, c);
  }

  // ---------------------------------------------------------------- the two stores

  /** The worker's saves find their key. */
  lemma SavesFindTheKey(d: Deployment, s: Solo, u: StoredJob)
    requires SoloInv(d, s) && s.worker.Busy?
    requires s.worker.phase == Saving(u) || (s.worker.phase.Marking? && s.worker.phase.processing == u)
    ensures u.job.jobId in s.world.store
  {
  }

  lemma SameStep(d: Deployment, e: Deployment, s: Solo, a: SoloAction)
    requires e == d.(store := e.store) && SoloInv(d, s)
    ensures SoloNext(d, s, a) == SoloNext(e, s, a)
  {
    match a
    case Acts(action) =>
      if action.Work? && s.worker.Busy? && s.worker.phase.Saving? { SavesFindTheKey(d, s, s.worker.phase.update); }
      if action.Work? && s.worker.Busy? && s.worker.phase.Marking? { SavesFindTheKey(d, s, s.worker.phase.processing); }
    case Submitted(r, newId, c) =>
      SubmitOutcome(d, s.world, r, newId, c);
      SubmitOutcome(e, s.world, r, newId, c);
    case Unreadable(_) =>
    case Arrived(_) =>
  }

  /** Where nothing expires, the store that saves without asking for the key and the one
      that asks go through the same states and give the same answers. */
  lemma {:induction false} StoresAgree(d: Deployment, actions: seq<SoloAction>)
    ensures SoloRun(d.(store := Redis), EMPTY, actions) == SoloRun(d.(store := InMemory), EMPTY, actions)
    ensures forall r, newId, c :: var w := SoloRun(d.(store := Redis), EMPTY, actions).world;
              Submit(d.(store := Redis), w, r, newId, c) == Submit(d.(store := InMemory), w, r, newId, c)
  {
    var redis, memory := d.(store := Redis), d.(store := InMemory);
    if actions == [] {
    } else {
      var shorter := actions[..|actions| - 1];
      StoresAgree(d, shorter);
      SoloKeeps(redis, EMPTY, shorter);
      SameStep(redis, memory, SoloRun(redis, EMPTY, shorter), actions[|actions| - 1]);
    }
    SoloKeeps(redis, EMPTY, actions);
    var w := SoloRun(redis, EMPTY, actions).world;
    forall r, newId, c ensures Submit(redis, w, r, newId, c) == Submit(memory, w, r, newId, c) {
      SubmitOutcome(redis, w, r, newId, c);
      SubmitOutcome(memory, w, r, newId, c);
    }
  }

  // ---------------------------------------------------------------- a failed publish

  /** A publish that fails leaves a record from which the same request publishes again, so
      repeating a request can put a second event of its job into the log. */
  lemma FailedPublishRepeats(d: Deployment, r: Request, newId: string, late: Choice, c: Choice) returns (actions: seq<SoloAction>)
    requires late.delivery.Delayed? && c.delivery.Acknowledged?
    ensures var s := SoloRun(d, EMPTY, actions); var w := s.world; var j := JobIdOf(d, r, newId);
            && |w.log| == 1 && IsEvent(w, 0, j) && j in w.store && PublishFailed(w.store[j])
            && var v := Submit(d, w, r, newId, c).0;
            && |v.log| == 2 && v.log[0].message == v.log[1].message
            && !v.log[0].acknowledged && v.log[1].acknowledged && j in v.store && v.store[j].job.state.Accepted?
  {
    var first, second := Submitted(r, newId, late), Arrived(0);
    actions := [first, second];
    assert actions[..1] == [first] && [first][..0] == [];
    SubmitOutcome(d, EMPTY.world, r, newId, late);
    var s := SoloNext(d, EMPTY, first);
    assert SoloRun(d, EMPTY, [first]) == s;
    assert s.world == Queue(d, EMPTY.world, r, newId, late);
    var t := SoloNext(d, s, second);
    assert SoloRun(d, EMPTY, actions) == t;
    SoloKeeps(d, EMPTY, actions);
    SubmitOutcome(d, t.world, r, newId, c);
  }
}
