/** The asynchronous job pipeline as atomic steps over a job store, append-only topics and
    committed offsets.  Every step is one call that the store or the broker sees; a crash
    may come between any two of them. */
module JobPipeline {
  import opened Wrappers

  // ---------------------------------------------------------------- records

  datatype Request = Request(text: string, requestId: Option<string>)

  type Response = string

  datatype JobState = Accepted | Processing | Succeeded | Failed

  datatype Job = Job(jobId: string, requestId: string, state: JobState, attempt: nat,
                     result: Option<Response>, errorCode: Option<string>)

  datatype StoredJob = StoredJob(job: Job, fingerprint: string)

  datatype Event = Event(jobId: string, request: Request, attempt: nat)

  const PUBLISH_FAILED := "queue_publish_failed"
  const RETRY_SCHEDULED := "processing_retry_scheduled"
  const EXHAUSTED := "processing_attempts_exhausted"
  const MISSING_STATE := "missing_job_state"

  /** The two job stores: Redis saves only what is present and lets keys expire, the
      in-memory one does neither. */
  datatype StoreKind = Redis | InMemory

  /** What a deployment fixes: the attempt limit, the request fingerprint, the name-based
      job id and the job store. */
  datatype Deployment = Deployment(maxAttempts: int, fingerprint: Request -> string, jobId: string -> string,
                                   store: StoreKind)

  // ---------------------------------------------------------------- the shared world

  datatype Topic = Input | Retry

  datatype Partition = Partition(topic: Topic, index: nat)

  /** A payload that is a valid event, or one that fails validation. */
  datatype Message = Valid(event: Event) | Invalid

  /** A message in the log and whether its producer saw the acknowledgement.  Offsets are
      log positions: they grow along a partition, with gaps. */
  datatype Entry = Entry(partition: Partition, message: Message, acknowledged: bool)

  datatype DeadLetter =
    | DeadJob(jobId: string, requestId: Option<string>, attempt: nat, errorCode: string)
    | DeadMessage(partition: Partition, offset: nat)

  datatype ResultRecord = ResultRecord(jobId: string, response: Response)

  datatype Output =
    | InputOut(event: Event)
    | ResultOut(record: ResultRecord)
    | RetryOut(event: Event)
    | DeadOut(letter: DeadLetter)

  /** A record on its way to a partition after its producer stopped waiting. */
  datatype Late = Late(output: Output, index: nat)

  datatype World = World(store: map<string, StoredJob>, log: seq<Entry>, results: seq<ResultRecord>,
                         dead: seq<DeadLetter>, committed: map<Partition, nat>, pending: seq<Late>)
  {
    function Committed(p: Partition): nat {
      if p in committed then committed[p] else 0
    }

    predicate Uncommitted(i: nat)
      requires i < |log|
    {
      i >= Committed(log[i].partition)
    }
  }

  /** How the broker treats a publish call: only the first returns normally.  A delayed
      record may still arrive, at once, at any later time, or never. */
  datatype Delivery = Acknowledged | Lost | Delayed

  /** What the environment decides in a step: the fate of a publish, the partition the
      record goes to, the engine's response, if it does not raise, and whether a key found
      by a create has expired by the next call. */
  datatype Choice = Choice(delivery: Delivery, index: nat, verdict: Option<Response>, expires: bool)

  function Append(w: World, o: Output, index: nat, acknowledged: bool): World {
    match o
    case InputOut(e) => w.(log := w.log + [Entry(Partition(Input, index), Valid(e), acknowledged)])
    case RetryOut(e) => w.(log := w.log + [Entry(Partition(Retry, index), Valid(e), acknowledged)])
    case ResultOut(r) => w.(results := w.results + [r])
    case DeadOut(l) => w.(dead := w.dead + [l])
  }

  function Publish(w: World, o: Output, c: Choice): World {
    match c.delivery
    case Acknowledged => Append(w, o, c.index, true)
    case Lost => w
    case Delayed => w.(pending := w.pending + [Late(o, c.index)])
  }

  /** A delayed record reaches its topic. */
  function Arrive(w: World, k: nat): World {
    if k < |w.pending| then
      Append(w.(pending := w.pending[..k] + w.pending[k + 1..]), w.pending[k].output, w.pending[k].index, false)
    else w
  }

  function Save(kind: StoreKind, w: World, s: StoredJob): World {
    if kind.Redis? && s.job.jobId !in w.store then w else w.(store := w.store[s.job.jobId := s])
  }

  /** The time-to-live of a key runs out. */
  function Expire(kind: StoreKind, w: World, jobId: string): World {
    if kind.Redis? then w.(store := w.store - {jobId}) else w
  }

  // ---------------------------------------------------------------- processing one event

  /** Where the processing of one event stands: each constructor names the call that comes next. */
  datatype Phase =
    | Fetching(event: Event)
    | Marking(event: Event, processing: StoredJob)
    | Moderating(event: Event, processing: StoredJob)
    | Publishing(output: Output, after: Option<StoredJob>)
    | Saving(update: StoredJob)
    | Finished
    | Raised
  {
    function Rank(): nat {
      match this
      case Fetching(_) => 5
      case Marking(_, _) => 4
      case Moderating(_, _) => 3
      case Publishing(_, _) => 2
      case Saving(_) => 1
      case _ => 0
    }
  }

  function WithUpdate(s: StoredJob, state: JobState, attempt: nat, errorCode: Option<string>): StoredJob {
    s.(job := s.job.(state := state, attempt := attempt, errorCode := errorCode))
  }

  function Letter(e: Event, errorCode: string): DeadLetter {
    DeadJob(e.jobId, e.request.requestId, e.attempt, errorCode)
  }

  function AfterSuccess(e: Event, processing: StoredJob, response: Response): Phase {
    var succeeded := WithUpdate(processing, Succeeded, e.attempt, None);
    Publishing(ResultOut(ResultRecord(e.jobId, response)),
               Some(succeeded.(job := succeeded.job.(result := Some(response)))))
  }

  function AfterFailure(d: Deployment, e: Event, processing: StoredJob): Phase {
    if e.attempt + 1 < d.maxAttempts then
      Publishing(RetryOut(e.(attempt := e.attempt + 1)),
                 Some(WithUpdate(processing, Accepted, e.attempt + 1, Some(RETRY_SCHEDULED))))
    else
      Publishing(DeadOut(Letter(e, EXHAUSTED)),
                 Some(WithUpdate(processing, Failed, e.attempt, Some(EXHAUSTED))))
  }

  /** One atomic step of processing. */
  function ProcessStep(d: Deployment, w: World, phase: Phase, c: Choice): (World, Phase) {
    match phase
    case Fetching(e) =>
      if e.jobId !in w.store then (w, Publishing(DeadOut(Letter(e, MISSING_STATE)), None))
      else if w.store[e.jobId].job.state.Succeeded? then (w, Finished)
      else (w, Marking(e, WithUpdate(w.store[e.jobId], Processing, e.attempt, None)))
    case Marking(e, processing) =>
      (Save(d.store, w, processing), Moderating(e, processing))
    case Moderating(e, processing) =>
      (w, if c.verdict.Some? then AfterSuccess(e, processing, c.verdict.value) else AfterFailure(d, e, processing))
    case Publishing(o, after) =>
      (Publish(w, o, c),
       if !c.delivery.Acknowledged? then Raised else if after.Some? then Saving(after.value) else Finished)
    case Saving(update) =>
      (Save(d.store, w, update), Finished)
    case _ =>
      (w, phase)
  }

  /** A whole call, undisturbed. */
  function ProcessEnd(d: Deployment, w: World, phase: Phase, c: Choice): (r: (World, Phase))
    ensures r.1.Finished? || r.1.Raised?
    decreases phase.Rank()
  {
    if phase.Finished? || phase.Raised? then (w, phase)
    else
      var (next, onward) := ProcessStep(d, w, phase, c);
      ProcessEnd(d, next, onward, c)
  }

  /** The worlds after each step of the call. */
  function ProcessTrace(d: Deployment, w: World, phase: Phase, c: Choice): (r: seq<World>)
    ensures Last(w, r) == ProcessEnd(d, w, phase, c).0
    decreases phase.Rank()
  {
    if phase.Finished? || phase.Raised? then []
    else
      var (next, onward) := ProcessStep(d, w, phase, c);
      [next] + ProcessTrace(d, next, onward, c)
  }

  function Last(w: World, trace: seq<World>): World {
    if trace == [] then w else trace[|trace| - 1]
  }

  // ---------------------------------------------------------------- a worker

  /** A consumer's local offsets and, when busy, the log position it works on. */
  datatype Worker =
    | Down
    | Idle(position: map<Partition, nat>)
    | Busy(position: map<Partition, nat>, slot: nat, phase: Phase)

  datatype WorkerAction = Start | Assign(partition: Partition) | Poll(partition: Partition)
                        | Work(choice: Choice) | Commit | Crash

  /** The next message of the partition at or after `from`. */
  function NextIn(log: seq<Entry>, p: Partition, from: nat): (i: nat)
    ensures i >= from && (i < |log| ==> log[i].partition == p)
    ensures forall k :: from <= k < i && k < |log| ==> log[k].partition != p
    decreases |log| - from
  {
    if from >= |log| || log[from].partition == p then from else NextIn(log, p, from + 1)
  }

  /** The work a received message starts: an invalid payload goes to the dead-letter topic. */
  function Receive(entry: Entry, slot: nat): Phase {
    match entry.message
    case Valid(e) => Fetching(e)
    case Invalid => Publishing(DeadOut(DeadMessage(entry.partition, slot)), None)
  }

  /** One step of a worker; an action that is not possible changes nothing. */
  function WorkerNext(d: Deployment, w: World, k: Worker, a: WorkerAction): (World, Worker) {
    match a
    case Start => (w, if k.Down? then Idle(map[]) else k)
    case Crash => (w, Down)
    case Assign(p) => (w, if k.Idle? then Idle(k.position[p := w.Committed(p)]) else k)
    case Poll(p) =>
      if k.Idle? && p in k.position then
        var i := NextIn(w.log, p, k.position[p]);
        (w, if i < |w.log| then Busy(k.position[p := i + 1], i, Receive(w.log[i], i)) else k)
      else (w, k)
    case Work(c) =>
      if k.Busy? then
        var (next, phase) := ProcessStep(d, w, k.phase, c);
        (next, if phase.Raised? then Down else k.(phase := phase))
      else (w, k)
    case Commit =>
      if k.Busy? && k.phase.Finished? && k.slot < |w.log| then
        (w.(committed := w.committed[w.log[k.slot].partition := k.slot + 1]), Idle(k.position))
      else (w, k)
  }

  /** One turn of the consume loop on a partition: poll, process to the end, commit; a
      raised publish error takes the worker down. */
  function WorkerTurn(d: Deployment, w: World, k: Worker, p: Partition, c: Choice): (World, Worker) {
    var (polled, busy) := WorkerNext(d, w, k, Poll(p));
    if !busy.Busy? then (polled, busy)
    else
      var (done, phase) := ProcessEnd(d, polled, busy.phase, c);
      if phase.Raised? then (done, Down) else WorkerNext(d, done, busy.(phase := phase), Commit)
  }

  function WorkerRun(d: Deployment, w: World, k: Worker, actions: seq<WorkerAction>): (World, Worker)
    decreases |actions|
  {
    if actions == [] then (w, k)
    else
      var (v, n) := WorkerNext(d, w, k, actions[0]);
      WorkerRun(d, v, n, actions[1..])
  }

  /** An undisturbed call is a sequence of the worker's atomic steps. */
  lemma {:induction false} CallIsSteps(d: Deployment, w: World, k: Worker, c: Choice) returns (steps: seq<WorkerAction>)
    requires k.Busy? && !k.phase.Raised?
    ensures forall i :: 0 <= i < |steps| ==> steps[i] == Work(c)
    ensures var (v, phase) := ProcessEnd(d, w, k.phase, c);
            WorkerRun(d, w, k, steps) == (v, if phase.Raised? then Down else k.(phase := phase))
    decreases k.phase.Rank()
  {
    if k.phase.Finished? {
      steps := [];
    } else {
      var (next, onward) := ProcessStep(d, w, k.phase, c);
      if onward.Raised? {
        steps := [Work(c)];
        assert WorkerRun(d, next, Down, []) == (next, Down);
      } else {
        var rest := CallIsSteps(d, next, k.(phase := onward), c);
        steps := [Work(c)] + rest;
      }
    }
  }

  lemma {:induction false} RunJoins(d: Deployment, w: World, k: Worker, a: seq<WorkerAction>, b: seq<WorkerAction>)
    ensures WorkerRun(d, w, k, a + b)
         == WorkerRun(d, WorkerRun(d, w, k, a).0, WorkerRun(d, w, k, a).1, b)
    decreases |a|
  {
    if a == [] {
      assert a + b == b;
    } else {
      var (v, n) := WorkerNext(d, w, k, a[0]);
      RunJoins(d, v, n, a[1..], b);
      assert a + b == [a[0]] + (a[1..] + b);
    }
  }

  /** So is a turn: a poll, the steps of the call, and a commit. */
  lemma TurnIsSteps(d: Deployment, w: World, k: Worker, p: Partition, c: Choice) returns (steps: seq<WorkerAction>)
    requires k.Idle?
    ensures WorkerRun(d, w, k, [Poll(p)] + steps) == WorkerTurn(d, w, k, p, c)
    ensures forall i :: 0 <= i < |steps| ==> steps[i] == Work(c) || steps[i] == Commit
  {
    var (v, busy) := WorkerNext(d, w, k, Poll(p));
    if !busy.Busy? {
      steps := [];
      assert WorkerRun(d, v, busy, []) == (v, busy);
    } else {
      var work := CallIsSteps(d, v, busy, c);
      var (done, end) := WorkerRun(d, v, busy, work);
      steps := work + [Commit];
      RunJoins(d, v, busy, work, [Commit]);
      var (w', k') := WorkerNext(d, done, end, Commit);
      assert WorkerRun(d, w', k', []) == (w', k');
    }
    assert ([Poll(p)] + steps)[1..] == steps;
  }

  // ---------------------------------------------------------------- a submission

  datatype Answer = Returned(job: Job) | Conflict(requestId: string) | Unavailable

  /** Where a submission stands. */
  datatype Submission =
    | Creating(job: StoredJob, event: Event)
    | Checking(job: StoredJob, event: Event)
    | Queueing(job: StoredJob, event: Event, accepted: Option<StoredJob>)
    | Storing(update: StoredJob, answer: Answer)
    | Answered(answer: Answer)
  {
    function Rank(): nat {
      match this
      case Creating(_, _) => 4
      case Checking(_, _) => 3
      case Queueing(_, _, _) => 2
      case Storing(_, _) => 1
      case Answered(_) => 0
    }
  }

  /** The request with its id: the caller's, or the new one. */
  function Normalized(r: Request, newId: string): Request {
    r.(requestId := Some(if r.requestId.Some? then r.requestId.value else newId))
  }

  function NewJob(d: Deployment, r: Request): StoredJob
    requires r.requestId.Some?
  {
    StoredJob(Job(d.jobId(r.requestId.value), r.requestId.value, Accepted, 0, None, None), d.fingerprint(r))
  }

  function Begin(d: Deployment, r: Request, newId: string): Submission {
    var n := Normalized(r, newId);
    var created := NewJob(d, n);
    Creating(created, Event(created.job.jobId, n, 0))
  }

  predicate PublishFailed(s: StoredJob) {
    s.job.state.Failed? && s.job.errorCode == Some(PUBLISH_FAILED)
  }

  function Refused(s: StoredJob): StoredJob {
    s.(job := s.job.(state := Failed, errorCode := Some(PUBLISH_FAILED)))
  }

  function Requeued(s: StoredJob): StoredJob {
    s.(job := s.job.(state := Accepted, errorCode := None))
  }

  /** One atomic step of a submission. */
  function SubmitStep(d: Deployment, w: World, s: Submission, c: Choice): (World, Submission) {
    match s
    case Creating(job, e) =>
      if job.job.jobId in w.store then (if c.expires then Expire(d.store, w, job.job.jobId) else w, Checking(job, e))
      else (w.(store := w.store[job.job.jobId := job]), Queueing(job, e, None))
    case Checking(job, e) =>
      if job.job.jobId !in w.store then (w, Answered(Unavailable))
      else
        var existing := w.store[job.job.jobId];
        (w, if existing.fingerprint != job.fingerprint then Answered(Conflict(job.job.requestId))
            else if PublishFailed(existing) then Queueing(existing, e, Some(Requeued(existing)))
            else Answered(Returned(existing.job)))
    case Queueing(job, e, accepted) =>
      (Publish(w, InputOut(e), c),
       if !c.delivery.Acknowledged? then Storing(Refused(job), Unavailable)
       else if accepted.Some? then Storing(accepted.value, Returned(accepted.value.job))
       else Answered(Returned(job.job)))
    case Storing(update, answer) =>
      (Save(d.store, w, update), Answered(answer))
    case Answered(_) =>
      (w, s)
  }

  function SubmitEnd(d: Deployment, w: World, s: Submission, c: Choice): (World, Answer)
    decreases s.Rank()
  {
    if s.Answered? then (w, s.answer)
    else
      var (next, onward) := SubmitStep(d, w, s, c);
      SubmitEnd(d, next, onward, c)
  }

  function SubmitTrace(d: Deployment, w: World, s: Submission, c: Choice): (r: seq<World>)
    ensures Last(w, r) == SubmitEnd(d, w, s, c).0
    decreases s.Rank()
  {
    if s.Answered? then []
    else
      var (next, onward) := SubmitStep(d, w, s, c);
      [next] + SubmitTrace(d, next, onward, c)
  }
}
