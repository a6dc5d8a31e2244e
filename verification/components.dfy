/** The running components: the stores, the broker, the event processor, the submission
    service and the consume loop, each tied step by step to the protocol. */
module PipelineComponents {
  import opened JobPipeline
  import opened CallOutcomes
  import opened Wrappers

  /** A job store of either kind: create is an atomic set-if-absent in both; save is a
      set-if-present in Redis, and an assignment in memory. */
  class JobStore {
    const kind: StoreKind
    var jobs: map<string, StoredJob>

    constructor (kind: StoreKind)
      ensures jobs == map[] && this.kind == kind
    {
      this.kind, jobs := kind, map[];
    }

    method Create(stored: StoredJob) returns (created: bool)
      modifies this
      ensures created == (stored.job.jobId !in old(jobs))
      ensures jobs == if created then old(jobs)[stored.job.jobId := stored] else old(jobs)
    {
      if stored.job.jobId in jobs {
        return false;
      }
      jobs := jobs[stored.job.jobId := stored];
      return true;
    }

    method Get(jobId: string) returns (found: Option<StoredJob>)
      ensures found == if jobId in jobs then Some(jobs[jobId]) else None
    {
      if jobId !in jobs {
        return None;
      }
      return Some(jobs[jobId]);
    }

    method Save(stored: StoredJob)
      modifies this
      ensures jobs == if kind.InMemory? || stored.job.jobId in old(jobs) then old(jobs)[stored.job.jobId := stored] else old(jobs)
    {
      match kind
      case Redis =>
        if stored.job.jobId in jobs {
          jobs := jobs[stored.job.jobId := stored];
        }
      case InMemory =>
        jobs := jobs[stored.job.jobId := stored];
    }

    /** The time-to-live of a Redis key runs out; in memory there is none. */
    method Expire(jobId: string)
      modifies this
      ensures jobs == if kind.Redis? then old(jobs) - {jobId} else old(jobs)
    {
      if kind.Redis? {
        jobs := jobs - {jobId};
      }
    }
  }

  /** The topics that a list of published outputs makes. */
  function Recorded(w: World, events: seq<Output>): World {
    if events == [] then w
    else Append(Recorded(w, events[..|events| - 1]), events[|events| - 1], 0, true)
  }

  /** The recording publisher: it keeps every output, or always raises. */
  class RecordingEventPublisher {
    var events: seq<Output>
    const failing: bool

    constructor (failing: bool)
      ensures events == [] && this.failing == failing
    {
      this.failing := failing;
      events := [];
    }

    /** What it keeps is what a broker with one partition a topic would hold that
        acknowledges every publish, or loses every one. */
    method Publish(output: Output, ghost before: World) returns (raised: bool)
      modifies this
      ensures raised == failing
      ensures events == if failing then old(events) else old(events) + [output]
      ensures Recorded(before, events) == JobPipeline.Publish(Recorded(before, old(events)), output,
                                                              Choice(if failing then Lost else Acknowledged, 0, None, false))
    {
      if failing {
        return true;
      }
      events := events + [output];
      assert events[..|events| - 1] == old(events);
      return false;
    }
  }

  /** The topics and the group's offsets, as the broker keeps them. */
  class Broker {
    var log: seq<Entry>
    var results: seq<ResultRecord>
    var dead: seq<DeadLetter>
    var committed: map<Partition, nat>
    /** Records whose producer has stopped waiting. */
    var pending: seq<Late>

    constructor ()
      ensures log == [] && results == [] && dead == [] && committed == map[] && pending == []
    {
      log, results, dead, committed, pending := [], [], [], map[], [];
    }

    ghost function View(store: JobStore): World
      reads this, store
    {
      World(store.jobs, log, results, dead, committed, pending)
    }

    /** Produce and wait for the acknowledgement. */
    method Publish(output: Output, choice: Choice, ghost store: JobStore) returns (raised: bool)
      modifies this
      ensures View(store) == JobPipeline.Publish(old(View(store)), output, choice)
      ensures raised == !choice.delivery.Acknowledged?
    {
      match choice.delivery {
        case Acknowledged => Store(output, choice.index, true, store);
        case Lost =>
        case Delayed => pending := pending + [Late(output, choice.index)];
      }
      return !choice.delivery.Acknowledged?;
    }

    method Store(output: Output, index: nat, acknowledged: bool, ghost store: JobStore)
      modifies this
      ensures View(store) == Append(old(View(store)), output, index, acknowledged)
    {
      match output
      case InputOut(e) => log := log + [Entry(Partition(Input, index), Valid(e), acknowledged)];
      case RetryOut(e) => log := log + [Entry(Partition(Retry, index), Valid(e), acknowledged)];
      case ResultOut(r) => results := results + [r];
      case DeadOut(l) => dead := dead + [l];
    }

    /** A delayed record reaches its topic. */
    method Deliver(k: nat, ghost store: JobStore)
      modifies this
      ensures View(store) == Arrive(old(View(store)), k)
    {
      if k < |pending| {
        var late := pending[k];
        pending := pending[..k] + pending[k + 1..];
        Store(late.output, late.index, false, store);
      }
    }

    method CommitOffset(p: Partition, offset: nat)
      modifies this`committed
      ensures committed == old(committed)[p := offset]
    {
      committed := committed[p := offset];
    }
  }

  // ---------------------------------------------------------------- traces in pieces

  /** The call up to the verdict, for a job that is stored and has not succeeded. */
  lemma OpeningTrace(d: Deployment, w: World, e: Event, c: Choice)
    requires e.jobId in w.store && !w.store[e.jobId].job.state.Succeeded?
    ensures var processing := WithUpdate(w.store[e.jobId], Processing, e.attempt, None); var v := Save(d.store, w, processing);
            var onward := if c.verdict.Some? then AfterSuccess(e, processing, c.verdict.value)
                          else AfterFailure(d, e, processing);
            && ProcessTrace(d, w, Fetching(e), c) == [w, v, v] + ProcessTrace(d, v, onward, c)
            && ProcessEnd(d, w, Fetching(e), c) == ProcessEnd(d, v, onward, c)
  {
    var processing := WithUpdate(w.store[e.jobId], Processing, e.attempt, None);
    var v := Save(d.store, w, processing);
    var onward := ProcessStep(d, v, Moderating(e, processing), c).1;
    var last := ProcessTrace(d, v, onward, c);
    OneStep(d, w, Fetching(e), c);
    OneStep(d, w, Marking(e, processing), c);
    OneStep(d, v, Moderating(e, processing), c);
    assert [w] + ([v] + ([v] + last)) == [w, v, v] + last;
  }

  lemma OneStep(d: Deployment, w: World, phase: Phase, c: Choice)
    requires !phase.Finished? && !phase.Raised?
    ensures var (v, onward) := ProcessStep(d, w, phase, c);
            && ProcessTrace(d, w, phase, c) == [v] + ProcessTrace(d, v, onward, c)
            && ProcessEnd(d, w, phase, c) == ProcessEnd(d, v, onward, c)
  {
  }

  /** The call from the publish of its outcome on. */
  lemma ClosingTrace(d: Deployment, w: World, o: Output, after: Option<StoredJob>, c: Choice)
    ensures var v := JobPipeline.Publish(w, o, c); var saved := after.Some? && c.delivery.Acknowledged?;
            && ProcessTrace(d, w, Publishing(o, after), c) == [v] + (if saved then [Save(d.store, v, after.value)] else [])
            && ProcessEnd(d, w, Publishing(o, after), c)
            == (if saved then Save(d.store, v, after.value) else v, if c.delivery.Acknowledged? then Finished else Raised)
  {
    var v := JobPipeline.Publish(w, o, c);
    if after.Some? && c.delivery.Acknowledged? {
      assert ProcessTrace(d, Save(d.store, v, after.value), Finished, c) == [];
      assert ProcessTrace(d, v, Saving(after.value), c) == [Save(d.store, v, after.value)];
    }
  }

  class ModerationEventProcessor {
    const deployment: Deployment
    const store: JobStore
    const broker: Broker

    constructor (deployment: Deployment, store: JobStore, broker: Broker)
      requires store.kind == deployment.store
      ensures Valid() && this.deployment == deployment && this.store == store && this.broker == broker
    {
      this.deployment, this.store, this.broker := deployment, store, broker;
    }

    predicate Valid() {
      store.kind == deployment.store
    }

    ghost function View(): World
      reads store, broker
    {
      broker.View(store)
    }

    /** `trace` lists the worlds between which a crash can fall. */
    method Process(event: Event, choice: Choice) returns (raised: bool, ghost trace: seq<World>)
      requires Valid()
      modifies store, broker
      ensures trace == ProcessTrace(deployment, old(View()), Fetching(event), choice)
      ensures View() == ProcessEnd(deployment, old(View()), Fetching(event), choice).0
      ensures raised == ProcessEnd(deployment, old(View()), Fetching(event), choice).1.Raised?
      ensures old(KeyedAt(View(), event.jobId)) ==> IsProcessed(deployment, old(View()), event, choice, View(), raised)
    {
      ghost var w0 := View();
      if KeyedAt(w0, event.jobId) { ProcessOutcome(deployment, w0, event, choice); }
      var stored := store.Get(event.jobId);
      if stored.None? {
        raised, trace := PublishDlq(event, MISSING_STATE, choice);
        trace := [w0] + trace;
        ClosingTrace(deployment, w0, DeadOut(Letter(event, MISSING_STATE)), None, choice);
        return;
      }
      if stored.value.job.state.Succeeded? {
        return false, [w0];
      }
      var processing := WithUpdate(stored.value, Processing, event.attempt, None);
      store.Save(processing);
      ghost var w1 := View();
      if choice.verdict.None? {
        raised, trace := HandleFailure(event, processing, choice);
        trace := [w0, w1, w1] + trace;
        OpeningTrace(deployment, w0, event, choice);
        return;
      }
      raised, trace := Succeed(event, processing, choice);
      trace := [w0, w1, w1] + trace;
      OpeningTrace(deployment, w0, event, choice);
    }

    /** The engine has answered: publish the response, then save it. */
    method Succeed(event: Event, processing: StoredJob, choice: Choice) returns (raised: bool, ghost trace: seq<World>)
      requires Valid() && choice.verdict.Some?
      modifies store, broker
      ensures var phase := AfterSuccess(event, processing, choice.verdict.value);
              && trace == ProcessTrace(deployment, old(View()), phase, choice)
              && View() == ProcessEnd(deployment, old(View()), phase, choice).0
              && raised == ProcessEnd(deployment, old(View()), phase, choice).1.Raised?
    {
      ghost var w := View();
      var response := choice.verdict.value;
      ghost var output := ResultOut(ResultRecord(event.jobId, response));
      var succeeded := WithUpdate(processing, Succeeded, event.attempt, None);
      succeeded := succeeded.(job := succeeded.job.(result := Some(response)));
      raised := broker.Publish(ResultOut(ResultRecord(event.jobId, response)), choice, store);
      trace := [View()];
      if !raised {
        store.Save(succeeded);
        trace := trace + [View()];
      }
      ClosingTrace(deployment, w, output, Some(succeeded), choice);
    }

    method HandleFailure(event: Event, processing: StoredJob, choice: Choice)
      returns (raised: bool, ghost trace: seq<World>)
      requires Valid()
      modifies store, broker
      ensures trace == ProcessTrace(deployment, old(View()), AfterFailure(deployment, event, processing), choice)
      ensures View() == ProcessEnd(deployment, old(View()), AfterFailure(deployment, event, processing), choice).0
      ensures raised
           == ProcessEnd(deployment, old(View()), AfterFailure(deployment, event, processing), choice).1.Raised?
    {
      ghost var w := View();
      var nextAttempt := event.attempt + 1;
      if nextAttempt < deployment.maxAttempts {
        var retry := event.(attempt := nextAttempt);
        var retrying := WithUpdate(processing, Accepted, nextAttempt, Some(RETRY_SCHEDULED));
        raised := broker.Publish(RetryOut(retry), choice, store);
        trace := [View()];
        if !raised {
          store.Save(retrying);
          trace := trace + [View()];
        }
        ClosingTrace(deployment, w, RetryOut(retry), Some(retrying), choice);
        return;
      }
      var failed := WithUpdate(processing, Failed, event.attempt, Some(EXHAUSTED));
      raised, trace := PublishDlq(event, EXHAUSTED, choice);
      if !raised {
        store.Save(failed);
        trace := trace + [View()];
      }
      ClosingTrace(deployment, w, DeadOut(Letter(event, EXHAUSTED)), Some(failed), choice);
    }

    method PublishDlq(event: Event, errorCode: string, choice: Choice)
      returns (raised: bool, ghost trace: seq<World>)
      modifies broker
      ensures View() == JobPipeline.Publish(old(View()), DeadOut(Letter(event, errorCode)), choice)
      ensures trace == [View()] && raised == !choice.delivery.Acknowledged?
    {
      raised := broker.Publish(DeadOut(DeadJob(event.jobId, event.request.requestId, event.attempt, errorCode)),
                               choice, store);
      trace := [View()];
    }
  }

  // ---------------------------------------------------------------- submission

  /** A submission from the publish of its event on. */
  lemma QueueingTrace(d: Deployment, w: World, job: StoredJob, e: Event, accepted: Option<StoredJob>, c: Choice)
    ensures var v := JobPipeline.Publish(w, InputOut(e), c); var s := Queueing(job, e, accepted);
            if !c.delivery.Acknowledged? then
              SubmitTrace(d, w, s, c) == [v, Save(d.store, v, Refused(job))] && SubmitEnd(d, w, s, c) == (Save(d.store, v, Refused(job)), Unavailable)
            else if accepted.Some? then
              && SubmitTrace(d, w, s, c) == [v, Save(d.store, v, accepted.value)]
              && SubmitEnd(d, w, s, c) == (Save(d.store, v, accepted.value), Returned(accepted.value.job))
            else
              SubmitTrace(d, w, s, c) == [v] && SubmitEnd(d, w, s, c) == (v, Returned(job.job))
  {
    var (v, s) := SubmitStep(d, w, Queueing(job, e, accepted), c);
    if s.Storing? {
      var (u, end) := SubmitStep(d, v, s, c);
      assert SubmitTrace(d, u, end, c) == [];
      assert SubmitTrace(d, v, s, c) == [u];
    }
  }

  /** A submission that finds a record, up to the check of that record, which may have
      expired by then. */
  lemma ExistingTrace(d: Deployment, w: World, job: StoredJob, e: Event, c: Choice)
    requires job.job.jobId in w.store
    ensures var v := if c.expires then Expire(d.store, w, job.job.jobId) else w;
            var s := SubmitStep(d, v, Checking(job, e), c).1;
            && SubmitTrace(d, w, Creating(job, e), c) == [v, v] + SubmitTrace(d, v, s, c)
            && SubmitEnd(d, w, Creating(job, e), c) == SubmitEnd(d, v, s, c)
  {
    var v := if c.expires then Expire(d.store, w, job.job.jobId) else w;
    var s := SubmitStep(d, v, Checking(job, e), c).1;
    var rest := SubmitTrace(d, v, s, c);
    assert SubmitTrace(d, v, Checking(job, e), c) == [v] + rest;
    assert [v] + ([v] + rest) == [v, v] + rest;
  }

  class DistributedModerationService {
    const deployment: Deployment
    const store: JobStore
    const broker: Broker

    constructor (deployment: Deployment, store: JobStore, broker: Broker)
      requires store.kind == deployment.store
      ensures Valid() && this.deployment == deployment && this.store == store && this.broker == broker
    {
      this.deployment, this.store, this.broker := deployment, store, broker;
    }

    predicate Valid() {
      store.kind == deployment.store
    }

    ghost function View(): World
      reads store, broker
    {
      broker.View(store)
    }

    method Submit(request: Request, newId: string, choice: Choice) returns (answer: Answer, ghost trace: seq<World>)
      requires Valid()
      modifies store, broker
      ensures trace == SubmitTrace(deployment, old(View()), Begin(deployment, request, newId), choice)
      ensures View() == SubmitEnd(deployment, old(View()), Begin(deployment, request, newId), choice).0
      ensures answer == SubmitEnd(deployment, old(View()), Begin(deployment, request, newId), choice).1
      ensures old(KeyedAt(View(), deployment.jobId(IdOf(request, newId)))) ==>
        IsSubmitted(deployment, old(View()), request, newId, choice, View(), answer)
    {
      ghost var w := View();
      if KeyedAt(w, deployment.jobId(IdOf(request, newId))) { SubmissionOutcome(deployment, w, request, newId, choice); }
      var normalized := Normalized(request, newId);
      var stored := NewJob(deployment, normalized);
      var jobId := stored.job.jobId;
      var event := Event(jobId, normalized, 0);
      var created := store.Create(stored);
      if !created {
        ExistingTrace(deployment, w, stored, event, choice);
        if choice.expires {
          store.Expire(jobId);
        }
        answer, trace := Existing(stored, event, choice);
        return;
      }
      ghost var v := View();
      var raised;
      raised, trace := PublishOrFail(stored, event, choice);
      QueueingTrace(deployment, v, stored, event, None, choice);
      trace := [v] + trace;
      answer := if raised then Unavailable else Returned(stored.job);
    }

    /** The branch of a create that found the key. */
    method Existing(stored: StoredJob, event: Event, choice: Choice) returns (answer: Answer, ghost trace: seq<World>)
      requires Valid()
      modifies store, broker
      ensures var w := old(View()); var s := SubmitStep(deployment, w, Checking(stored, event), choice).1;
              && trace == [w, w] + SubmitTrace(deployment, w, s, choice)
              && (View(), answer) == SubmitEnd(deployment, w, s, choice)
    {
      ghost var w := View();
      var found := store.Get(stored.job.jobId);
      if found.None? {
        return Unavailable, [w, w];
      }
      var existing := found.value;
      if existing.fingerprint != stored.fingerprint {
        return Conflict(stored.job.requestId), [w, w];
      }
      if existing.job.state.Failed? && existing.job.errorCode == Some(PUBLISH_FAILED) {
        answer, trace := Requeue(existing, event, choice);
        return answer, [w, w] + trace;
      }
      return Returned(existing.job), [w, w];
    }

    /** The branch of a job whose last publish failed. */
    method Requeue(existing: StoredJob, event: Event, choice: Choice) returns (answer: Answer, ghost trace: seq<World>)
      requires Valid()
      modifies store, broker
      ensures trace == SubmitTrace(deployment, old(View()), Queueing(existing, event, Some(Requeued(existing))), choice)
      ensures (View(), answer) == SubmitEnd(deployment, old(View()), Queueing(existing, event, Some(Requeued(existing))), choice)
    {
      ghost var w := View();
      var raised;
      raised, trace := PublishOrFail(existing, event, choice);
      var accepted := existing.(job := existing.job.(state := Accepted, errorCode := None));
      QueueingTrace(deployment, w, existing, event, Some(accepted), choice);
      if raised {
        return Unavailable, trace;
      }
      store.Save(accepted);
      return Returned(accepted.job), trace + [View()];
    }

    /** Publish the event, or mark the job failed. */
    method PublishOrFail(stored: StoredJob, event: Event, choice: Choice)
      returns (raised: bool, ghost trace: seq<World>)
      requires Valid()
      modifies store, broker
      ensures raised == !choice.delivery.Acknowledged?
      ensures var v := JobPipeline.Publish(old(View()), InputOut(event), choice);
              && View() == (if raised then JobPipeline.Save(deployment.store, v, Refused(stored)) else v)
              && trace == [v] + (if raised then [View()] else [])
    {
      raised := broker.Publish(InputOut(event), choice, store);
      trace := [View()];
      if raised {
        var failed := stored.(job := stored.job.(state := Failed, errorCode := Some(PUBLISH_FAILED)));
        store.Save(failed);
        trace := trace + [View()];
      }
    }

    method Find(jobId: string) returns (job: Option<Job>)
      ensures job == if jobId in store.jobs then Some(store.jobs[jobId].job) else None
    {
      var stored := store.Get(jobId);
      return if stored.Some? then Some(stored.value.job) else None;
    }
  }

  // ---------------------------------------------------------------- the consume loop

  /** What one poll yields: nothing, a client error, or a message of a partition. */
  datatype Polled = Silence | ClientError | FromPartition(partition: Partition, choice: Choice)

  /** One pass of the loop; `stopping` tells whether the stop signal came during it. */
  datatype Turn = Turn(polled: Polled, stopping: bool)

  function AfterTurn(d: Deployment, w: World, k: Worker, polled: Polled): (World, Worker) {
    match polled
    case Silence => (w, k)
    case ClientError => (w, Down)
    case FromPartition(p, c) => WorkerTurn(d, w, k, p, c)
  }

  /** The consumer is closed by an error or a stop signal, whichever comes first. */
  function AfterTurns(d: Deployment, w: World, k: Worker, turns: seq<Turn>): (World, Worker)
    decreases |turns|
  {
    if turns == [] || k.Down? then (w, k)
    else
      var (v, n) := AfterTurn(d, w, k, turns[0].polled);
      AfterTurns(d, v, if turns[0].stopping then Down else n, turns[1..])
  }

  class ConsumeLoop {
    const processor: ModerationEventProcessor
    var position: map<Partition, nat>
    var running: bool

    constructor (processor: ModerationEventProcessor, offsets: map<Partition, nat>)
      ensures this.processor == processor && position == offsets && running
    {
      this.processor, position, running := processor, offsets, true;
    }

    ghost function View(): World
      reads processor.store, processor.broker
    {
      processor.View()
    }

    ghost function AsWorker(): Worker
      reads this
    {
      if running then Idle(position) else Down
    }

    method Run(turns: seq<Turn>)
      requires processor.Valid()
      modifies this, processor.store, processor.broker
      ensures (View(), AsWorker()) == AfterTurns(processor.deployment, old(View()), old(AsWorker()), turns)
    {
      var i := 0;
      ghost var d, w, k := processor.deployment, View(), AsWorker();
      while running && i < |turns|
        invariant i <= |turns|
        invariant AfterTurns(d, w, k, turns) == AfterTurns(d, View(), AsWorker(), turns[i..])
        decreases |turns| - i
      {
        ghost var now := View();
        ghost var me := AsWorker();
        match turns[i].polled {
          case Silence =>
          case ClientError => running := false;
          case FromPartition(p, c) =>
            Consume(p, c);
        }
        assert (View(), AsWorker()) == AfterTurn(d, now, me, turns[i].polled);
        if turns[i].stopping {
          running := false;
        }
        assert turns[i..][1..] == turns[i + 1..];
        i := i + 1;
      }
    }

    /** Deliver the next message of the partition, deal with it and commit it. */
    method Consume(p: Partition, c: Choice)
      requires running
      requires processor.Valid()
      modifies this, processor.store, processor.broker
      ensures (View(), AsWorker()) == WorkerTurn(processor.deployment, old(View()), old(AsWorker()), p, c)
    {
      if p !in position {
        return;
      }
      var broker := processor.broker;
      var slot := NextIn(broker.log, p, position[p]);
      if slot >= |broker.log| {
        return;
      }
      position := position[p := slot + 1];
      var raised;
      ghost var w := View();
      match broker.log[slot].message {
        case Invalid =>
          raised := broker.Publish(DeadOut(DeadMessage(p, slot)), c, processor.store);
          ClosingTrace(processor.deployment, w, DeadOut(DeadMessage(p, slot)), None, c);
        case Valid(event) =>
          ghost var trace;
          raised, trace := processor.Process(event, c);
      }
      LogStays(processor.deployment, w, Receive(w.log[slot], slot), c);
      if raised {
        running := false;
        return;
      }
      broker.CommitOffset(p, slot + 1);
    }
  }
}
