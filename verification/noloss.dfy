/** No accepted event is ever lost: any number of workers and clients, crashes and
    rebalances between any two steps, and a store that forgets jobs at any time. */
module NoLoss {
  import opened JobPipeline
  import opened Wrappers

  /** Workers and submissions share one world. */
  datatype System = System(world: World, workers: map<nat, Worker>, clients: map<nat, Submission>)

  datatype Action =
    | WorkerActs(worker: nat, action: WorkerAction)
    | Submits(client: nat, request: Request, newId: string)
    | ClientActs(client: nat, choice: Choice)
    | ClientCrashes(client: nat)
    | Expires(jobId: string)
    | Garbage(partition: Partition)
    | Arrives(record: nat)

  function WorkerAt(s: System, k: nat): Worker {
    if k in s.workers then s.workers[k] else Down
  }

  function Next(d: Deployment, s: System, a: Action): System {
    match a
    case WorkerActs(k, action) =>
      var (w, worker) := WorkerNext(d, s.world, WorkerAt(s, k), action);
      s.(world := w, workers := s.workers[k := worker])
    case Submits(k, request, newId) =>
      if k in s.clients then s else s.(clients := s.clients[k := Begin(d, request, newId)])
    case ClientActs(k, c) =>
      if k !in s.clients then s
      else
        var (w, onward) := SubmitStep(d, s.world, s.clients[k], c);
        s.(world := w, clients := s.clients[k := onward])
    case ClientCrashes(k) => s.(clients := s.clients - {k})
    case Expires(j) => s.(world := Expire(d.store, s.world, j))
    case Garbage(p) => s.(world := s.world.(log := s.world.log + [Entry(p, Invalid, true)]))
    case Arrives(k) => s.(world := Arrive(s.world, k))
  }

  const NOTHING := System(World(map[], [], [], [], map[], []), map[], map[])

  function Run(d: Deployment, actions: seq<Action>): System {
    if actions == [] then NOTHING
    else Next(d, Run(d, actions[..|actions| - 1]), actions[|actions| - 1])
  }

  // ---------------------------------------------------------------- what has been dealt with

  predicate HasResult(w: World, j: string) {
    exists k :: 0 <= k < |w.results| && w.results[k].jobId == j
  }

  predicate HasDead(w: World, j: string) {
    exists k :: 0 <= k < |w.dead| && w.dead[k].DeadJob? && w.dead[k].jobId == j
  }

  predicate IsEvent(w: World, i: nat, j: string) {
    i < |w.log| && w.log[i].message.Valid? && w.log[i].message.event.jobId == j
  }

  predicate HasAttempt(w: World, j: string, attempt: nat) {
    exists i :: 0 <= i < |w.log| && IsEvent(w, i, j) && w.log[i].message.event.attempt == attempt
  }

  predicate HasDeadMessage(w: World, p: Partition, offset: nat) {
    exists k :: 0 <= k < |w.dead| && w.dead[k] == DeadMessage(p, offset)
  }

  /** The message left a record: a result, a dead letter, or the event's next attempt. */
  predicate Handled(w: World, i: nat)
    requires i < |w.log|
  {
    match w.log[i].message
    case Invalid => HasDeadMessage(w, w.log[i].partition, i)
    case Valid(e) => HasResult(w, e.jobId) || HasDead(w, e.jobId) || HasAttempt(w, e.jobId, e.attempt + 1)
  }

  /** All messages of the partition before offset `n` have left a record. */
  predicate HandledBelow(w: World, p: Partition, n: nat) {
    n <= |w.log| && forall i :: 0 <= i < n && w.log[i].partition == p ==> Handled(w, i)
  }

  predicate Grows(w: World, v: World) {
    w.log <= v.log && w.results <= v.results && w.dead <= v.dead
  }

  lemma HandledStays(w: World, v: World, i: nat)
    requires Grows(w, v) && i < |w.log| && Handled(w, i)
    ensures Handled(v, i)
  {
    match w.log[i].message
    case Invalid =>
      var k :| 0 <= k < |w.dead| && w.dead[k] == DeadMessage(w.log[i].partition, i);
      assert v.dead[k] == w.dead[k];
    case Valid(e) =>
      if HasResult(w, e.jobId) {
        ResultStays(w, v, e.jobId);
      } else if k :| 0 <= k < |w.dead| && w.dead[k].DeadJob? && w.dead[k].jobId == e.jobId {
        assert v.dead[k] == w.dead[k];
      } else {
        var n :| 0 <= n < |w.log| && IsEvent(w, n, e.jobId) && w.log[n].message.event.attempt == e.attempt + 1;
        assert v.log[n] == w.log[n] && IsEvent(v, n, e.jobId);
      }
  }

  lemma ResultStays(w: World, v: World, j: string)
    requires Grows(w, v) && HasResult(w, j)
    ensures HasResult(v, j)
  {
    var k :| 0 <= k < |w.results| && w.results[k].jobId == j;
    assert v.results[k] == w.results[k];
  }

  lemma BelowStays(w: World, v: World, p: Partition, n: nat)
    requires Grows(w, v) && HandledBelow(w, p, n)
    ensures HandledBelow(v, p, n)
  {
    forall i | 0 <= i < n && v.log[i].partition == p ensures Handled(v, i) {
      assert w.log[i] == v.log[i];
      HandledStays(w, v, i);
    }
  }

  lemma ButStays(w: World, v: World, p: Partition, n: nat, slot: nat)
    requires Grows(w, v) && HandledBut(w, p, n, slot)
    ensures HandledBut(v, p, n, slot)
  {
    forall i | 0 <= i < n && i != slot && v.log[i].partition == p ensures Handled(v, i) {
      assert w.log[i] == v.log[i];
      HandledStays(w, v, i);
    }
  }

  // ---------------------------------------------------------------- the invariant

  /** A succeeded job has its result in the topic. */
  predicate Backed(w: World, s: StoredJob) {
    s.job.state.Succeeded? ==> HasResult(w, s.job.jobId)
  }

  predicate StoreOk(w: World) {
    forall j :: j in w.store ==> w.store[j].job.jobId == j && Backed(w, w.store[j])
  }

  predicate CommitsOk(w: World) {
    forall p :: p in w.committed ==> HandledBelow(w, p, w.committed[p])
  }

  /** Publishing this output handles the message. */
  predicate Settles(entry: Entry, slot: nat, o: Output) {
    match entry.message
    case Invalid => o == DeadOut(DeadMessage(entry.partition, slot))
    case Valid(e) =>
      || (o.ResultOut? && o.record.jobId == e.jobId)
      || (o.DeadOut? && o.letter.DeadJob? && o.letter.jobId == e.jobId)
      || (o.RetryOut? && o.event == e.(attempt := e.attempt + 1))
  }

  predicate PhaseOk(w: World, slot: nat, phase: Phase) {
    slot < |w.log| &&
    match phase
    case Fetching(e) => w.log[slot].message == Valid(e)
    case Marking(e, processing) => w.log[slot].message == Valid(e) && IsMark(e, processing)
    case Moderating(e, processing) => w.log[slot].message == Valid(e) && IsMark(e, processing)
    case Publishing(o, after) =>
      && Settles(w.log[slot], slot, o)
      && (after.Some? && after.value.job.state.Succeeded? ==> o.ResultOut? && o.record.jobId == after.value.job.jobId)
    case Saving(update) => Handled(w, slot) && Backed(w, update)
    case Finished => Handled(w, slot)
    case Raised => true
  }

  predicate IsMark(e: Event, processing: StoredJob) {
    processing.job.jobId == e.jobId && processing.job.state.Processing?
  }

  /** Everything a worker has passed is handled, but for the message in its hands. */
  predicate PassedOk(w: World, position: map<Partition, nat>, slot: nat) {
    forall p :: p in position ==> HandledBut(w, p, position[p], slot)
  }

  predicate HandledBut(w: World, p: Partition, n: nat, slot: nat) {
    n <= |w.log| && forall i :: 0 <= i < n && i != slot && w.log[i].partition == p ==> Handled(w, i)
  }

  predicate WorkerOk(w: World, k: Worker) {
    match k
    case Down => true
    case Idle(position) => forall p :: p in position ==> HandledBelow(w, p, position[p])
    case Busy(position, slot, phase) =>
      && PhaseOk(w, slot, phase)
      && HandledBelow(w, w.log[slot].partition, slot)
      && PassedOk(w, position, slot)
  }

  predicate ClientOk(s: Submission) {
    match s
    case Creating(job, e) => !job.job.state.Succeeded?
    case Checking(job, e) => !job.job.state.Succeeded?
    case Queueing(job, e, accepted) => accepted.Some? ==> !accepted.value.job.state.Succeeded?
    case Storing(update, _) => !update.job.state.Succeeded?
    case Answered(_) => true
  }

  ghost predicate Inv(s: System) {
    && StoreOk(s.world)
    && CommitsOk(s.world)
    && (forall k :: k in s.workers ==> WorkerOk(s.world, s.workers[k]))
    && (forall k :: k in s.clients ==> ClientOk(s.clients[k]))
  }

  // ---------------------------------------------------------------- its preservation

  lemma WorkerStays(w: World, v: World, k: Worker)
    requires Grows(w, v) && WorkerOk(w, k)
    ensures WorkerOk(v, k)
  {
    match k
    case Down =>
    case Idle(position) =>
      forall p | p in position ensures HandledBelow(v, p, position[p]) { BelowStays(w, v, p, position[p]); }
    case Busy(position, slot, phase) =>
      assert w.log[slot] == v.log[slot];
      BelowStays(w, v, w.log[slot].partition, slot);
      forall p | p in position ensures HandledBut(v, p, position[p], slot) { ButStays(w, v, p, position[p], slot); }
      if phase.Saving? || phase.Finished? { HandledStays(w, v, slot); }
      if phase.Saving? && phase.update.job.state.Succeeded? { ResultStays(w, v, phase.update.job.jobId); }
  }

  lemma CommitsStay(w: World, v: World)
    requires Grows(w, v) && CommitsOk(w) && v.committed == w.committed
    ensures CommitsOk(v)
  {
    forall p | p in v.committed ensures HandledBelow(v, p, v.committed[p]) {
      BelowStays(w, v, p, w.committed[p]);
    }
  }

  lemma StoreStays(w: World, v: World)
    requires Grows(w, v) && StoreOk(w) && v.store == w.store
    ensures StoreOk(v)
  {
    forall j | j in v.store && v.store[j].job.state.Succeeded? ensures HasResult(v, v.store[j].job.jobId) {
      ResultStays(w, v, w.store[j].job.jobId);
    }
  }

  /** An acknowledged publish handles the message it settles. */
  lemma PublishHandles(w: World, slot: nat, o: Output, c: Choice)
    requires slot < |w.log| && Settles(w.log[slot], slot, o) && c.delivery.Acknowledged?
    ensures Handled(Publish(w, o, c), slot)
    ensures o.ResultOut? ==> HasResult(Publish(w, o, c), o.record.jobId)
  {
    var v := Publish(w, o, c);
    match o
    case InputOut(_) =>
    case ResultOut(r) => assert v.results[|w.results|] == r;
    case DeadOut(l) => assert v.dead[|w.dead|] == l;
    case RetryOut(e) => assert IsEvent(v, |w.log|, e.jobId);
  }

  /** One step of processing keeps the worker's part and only lets the logs grow. */
  lemma ProcessKeeps(d: Deployment, w: World, slot: nat, phase: Phase, c: Choice)
    requires StoreOk(w) && CommitsOk(w) && PhaseOk(w, slot, phase)
    ensures var (v, onward) := ProcessStep(d, w, phase, c);
            Grows(w, v) && StoreOk(v) && CommitsOk(v) && PhaseOk(v, slot, onward)
  {
    var (v, onward) := ProcessStep(d, w, phase, c);
    assert Grows(w, v);
    CommitsStay(w, v);
    match phase
    case Publishing(o, after) =>
      StoreStays(w, v);
      if c.delivery.Acknowledged? { PublishHandles(w, slot, o, c); }
    case Saving(update) =>
      HandledStays(w, v, slot);
      SaveKeeps(d.store, w, update);
    case Marking(e, processing) =>
      SaveKeeps(d.store, w, processing);
    case Finished => HandledStays(w, v, slot);
    case _ =>
  }

  lemma SaveKeeps(kind: StoreKind, w: World, update: StoredJob)
    requires StoreOk(w) && Backed(w, update)
    ensures StoreOk(Save(kind, w, update))
  {
    var v := Save(kind, w, update);
    forall j | j in v.store ensures v.store[j].job.jobId == j && Backed(v, v.store[j]) {
      assert Backed(w, v.store[j]);
    }
  }

  lemma WorkKeeps(d: Deployment, w: World, k: Worker, c: Choice)
    requires StoreOk(w) && CommitsOk(w) && WorkerOk(w, k)
    ensures var (v, n) := WorkerNext(d, w, k, Work(c)); Grows(w, v) && StoreOk(v) && CommitsOk(v) && WorkerOk(v, n)
  {
    if k.Busy? {
      ProcessKeeps(d, w, k.slot, k.phase, c);
      var (v, phase) := ProcessStep(d, w, k.phase, c);
      WorkerStays(w, v, k.(phase := Raised));
    }
  }

  lemma PollKeeps(d: Deployment, w: World, k: Worker, p: Partition)
    requires WorkerOk(w, k)
    ensures WorkerOk(w, WorkerNext(d, w, k, Poll(p)).1)
  {
    if k.Idle? && p in k.position {
      var i := NextIn(w.log, p, k.position[p]);
      if i < |w.log| {
        assert HandledBelow(w, p, k.position[p]);
        assert HandledBelow(w, p, i);
        var moved := k.position[p := i + 1];
        forall q | q in moved ensures HandledBut(w, q, moved[q], i) {
          if q != p { assert HandledBelow(w, q, k.position[q]); }
        }
      }
    }
  }

  lemma CommitKeeps(d: Deployment, w: World, k: Worker)
    requires StoreOk(w) && CommitsOk(w) && WorkerOk(w, k)
    ensures var (v, n) := WorkerNext(d, w, k, Commit); Grows(w, v) && StoreOk(v) && CommitsOk(v) && WorkerOk(v, n)
  {
    var (v, n) := WorkerNext(d, w, k, Commit);
    StoreStays(w, v);
    WorkerStays(w, v, k);
    if k.Busy? && k.phase.Finished? {
      forall p | p in v.committed ensures HandledBelow(v, p, v.committed[p]) {
        if p == w.log[k.slot].partition {
          HandledStays(w, v, k.slot);
          BelowStays(w, v, p, k.slot);
        } else {
          BelowStays(w, v, p, w.committed[p]);
        }
      }
      HandledStays(w, v, k.slot);
      forall p | p in k.position ensures HandledBelow(v, p, k.position[p]) {
        assert HandledBut(v, p, k.position[p], k.slot);
      }
    }
  }

  lemma WorkerKeeps(d: Deployment, w: World, k: Worker, a: WorkerAction)
    requires StoreOk(w) && CommitsOk(w) && WorkerOk(w, k)
    ensures var (v, n) := WorkerNext(d, w, k, a); Grows(w, v) && StoreOk(v) && CommitsOk(v) && WorkerOk(v, n)
  {
    match a
    case Start =>
    case Crash =>
    case Assign(p) =>
    case Poll(p) => PollKeeps(d, w, k, p);
    case Work(c) => WorkKeeps(d, w, k, c);
    case Commit => CommitKeeps(d, w, k);
  }

  lemma SubmitKeeps(d: Deployment, w: World, s: Submission, c: Choice)
    requires StoreOk(w) && CommitsOk(w) && ClientOk(s)
    ensures var (v, n) := SubmitStep(d, w, s, c); Grows(w, v) && StoreOk(v) && CommitsOk(v) && ClientOk(n)
  {
    var (v, n) := SubmitStep(d, w, s, c);
    CommitsStay(w, v);
    match s
    case Creating(job, e) =>
      if job.job.jobId !in w.store { StoreStays(w, v.(store := w.store)); }
    case Queueing(job, e, accepted) => StoreStays(w, v);
    case Storing(update, _) => SaveKeeps(d.store, w, update);
    case _ =>
  }

  /** Those who did not act are as well off as before. */
  lemma OthersStay(s: System, v: World, workers: map<nat, Worker>, acting: nat)
    requires Inv(s) && Grows(s.world, v)
    requires acting in workers ==> WorkerOk(v, workers[acting])
    requires forall k :: k in workers && k != acting ==> k in s.workers && workers[k] == s.workers[k]
    ensures forall k :: k in workers ==> WorkerOk(v, workers[k])
  {
    forall k | k in workers && k != acting ensures WorkerOk(v, workers[k]) {
      WorkerStays(s.world, v, s.workers[k]);
    }
  }

  lemma AllStay(s: System, v: World)
    requires Inv(s) && Grows(s.world, v)
    ensures forall k :: k in s.workers ==> WorkerOk(v, s.workers[k])
  {
    forall k | k in s.workers ensures WorkerOk(v, s.workers[k]) {
      WorkerStays(s.world, v, s.workers[k]);
    }
  }

  lemma WorkerActsKeeps(d: Deployment, s: System, k: nat, action: WorkerAction)
    requires Inv(s)
    ensures var n := Next(d, s, WorkerActs(k, action)); Inv(n) && Grows(s.world, n.world)
  {
    var n := Next(d, s, WorkerActs(k, action));
    WorkerKeeps(d, s.world, WorkerAt(s, k), action);
    OthersStay(s, n.world, n.workers, k);
  }

  lemma ClientActsKeeps(d: Deployment, s: System, k: nat, c: Choice)
    requires Inv(s)
    ensures var n := Next(d, s, ClientActs(k, c)); Inv(n) && Grows(s.world, n.world)
  {
    if k in s.clients {
      SubmitKeeps(d, s.world, s.clients[k], c);
      AllStay(s, Next(d, s, ClientActs(k, c)).world);
    }
  }

  lemma ExpiryKeeps(d: Deployment, s: System, j: string)
    requires Inv(s)
    ensures var n := Next(d, s, Expires(j)); Inv(n) && Grows(s.world, n.world)
  {
    var n := Next(d, s, Expires(j));
    CommitsStay(s.world, n.world);
    StoreStays(s.world, n.world.(store := s.world.store));
    AllStay(s, n.world);
  }

  lemma GarbageKeeps(d: Deployment, s: System, p: Partition)
    requires Inv(s)
    ensures var n := Next(d, s, Garbage(p)); Inv(n) && Grows(s.world, n.world)
  {
    var n := Next(d, s, Garbage(p));
    CommitsStay(s.world, n.world);
    StoreStays(s.world, n.world);
    AllStay(s, n.world);
  }

  lemma ArrivalKeeps(d: Deployment, s: System, k: nat)
    requires Inv(s)
    ensures var n := Next(d, s, Arrives(k)); Inv(n) && Grows(s.world, n.world)
  {
    var n := Next(d, s, Arrives(k));
    CommitsStay(s.world, n.world);
    StoreStays(s.world, n.world);
    AllStay(s, n.world);
  }

  lemma NextKeeps(d: Deployment, s: System, a: Action)
    requires Inv(s)
    ensures Inv(Next(d, s, a)) && Grows(s.world, Next(d, s, a).world)
  {
    match a
    case WorkerActs(k, action) => WorkerActsKeeps(d, s, k, action);
    case Submits(k, request, newId) =>
    case ClientActs(k, c) => ClientActsKeeps(d, s, k, c);
    case ClientCrashes(k) =>
    case Expires(j) => ExpiryKeeps(d, s, j);
    case Garbage(p) => GarbageKeeps(d, s, p);
    case Arrives(k) => ArrivalKeeps(d, s, k);
  }

  lemma {:induction false} RunKeeps(d: Deployment, actions: seq<Action>)
    ensures Inv(Run(d, actions))
  {
    if actions == [] {
    } else {
      RunKeeps(d, actions[..|actions| - 1]);
      NextKeeps(d, Run(d, actions[..|actions| - 1]), actions[|actions| - 1]);
    }
  }

  // ---------------------------------------------------------------- the theorem

  predicate HasUncommitted(w: World, j: string) {
    exists i :: 0 <= i < |w.log| && IsEvent(w, i, j) && w.Uncommitted(i)
  }

  /** The event of the job with the greatest attempt. */
  lemma {:induction false} Greatest(w: World, j: string, i: nat) returns (g: nat)
    requires IsEvent(w, i, j)
    ensures IsEvent(w, g, j)
    ensures !HasAttempt(w, j, w.log[g].message.event.attempt + 1)
    decreases MaxAttempt(w.log) - w.log[i].message.event.attempt
  {
    var a := w.log[i].message.event.attempt;
    if n :| 0 <= n < |w.log| && IsEvent(w, n, j) && w.log[n].message.event.attempt == a + 1 {
      AttemptBounded(w.log, n);
      g := Greatest(w, j, n);
    } else {
      g := i;
    }
  }

  function MaxAttempt(log: seq<Entry>): (m: nat) {
    if log == [] then 0
    else
      var n := MaxAttempt(log[..|log| - 1]);
      var last := log[|log| - 1].message;
      if last.Valid? && last.event.attempt > n then last.event.attempt else n
  }

  lemma {:induction false} AttemptBounded(log: seq<Entry>, i: nat)
    requires i < |log| && log[i].message.Valid?
    ensures log[i].message.event.attempt <= MaxAttempt(log)
  {
    if i < |log| - 1 { AttemptBounded(log[..|log| - 1], i); }
  }

  /** Whatever happened, a job with an event in the log has an uncommitted event, a result
      or a dead letter. */
  lemma NothingLost(d: Deployment, actions: seq<Action>, j: string, i: nat)
    requires IsEvent(Run(d, actions).world, i, j)
    ensures var w := Run(d, actions).world; HasUncommitted(w, j) || HasResult(w, j) || HasDead(w, j)
  {
    RunKeeps(d, actions);
    var w := Run(d, actions).world;
    var g := Greatest(w, j, i);
    if !w.Uncommitted(g) {
      assert HandledBelow(w, w.log[g].partition, w.Committed(w.log[g].partition));
      assert Handled(w, g);
    }
  }

  /** An unreadable message that was passed over has its dead letter. */
  lemma GarbageReported(d: Deployment, actions: seq<Action>, i: nat)
    requires i < |Run(d, actions).world.log| && Run(d, actions).world.log[i].message.Invalid?
    ensures var w := Run(d, actions).world; w.Uncommitted(i) || HasDeadMessage(w, w.log[i].partition, i)
  {
    RunKeeps(d, actions);
    var w := Run(d, actions).world;
    if !w.Uncommitted(i) {
      assert HandledBelow(w, w.log[i].partition, w.Committed(w.log[i].partition));
      assert Handled(w, i);
    }
  }

  /** A job the store calls succeeded has a result, even through stale writes and expiry. */
  lemma SuccessBacked(d: Deployment, actions: seq<Action>, j: string)
    requires j in Run(d, actions).world.store && Run(d, actions).world.store[j].job.state.Succeeded?
    ensures HasResult(Run(d, actions).world, j)
  {
    RunKeeps(d, actions);
  }

  /** The theorem says nothing of a job without an event, and such jobs exist: a crash
      between create and publish leaves an accepted job that is in no topic.  While its
      record stands, submitting it again returns the record without publishing; once the
      record has expired, submitting it publishes. */
  lemma CrashStrandsJob(d: Deployment, r: Request, newId: string, c: Choice, c': Choice) returns (actions: seq<Action>)
    requires r.requestId.Some? && !c'.expires
    ensures var w := Run(d, actions).world; var j := d.jobId(r.requestId.value);
            && w.log == [] && j in w.store && w.store[j].job.state.Accepted?
            && SubmitEnd(d, w, Begin(d, r, newId), c') == (w, Returned(w.store[j].job))
            && (d.store.Redis? && c'.delivery.Acknowledged? ==>
                  IsEvent(SubmitEnd(d, Expire(d.store, w, j), Begin(d, r, newId), c').0, 0, j))
  {
    var submitted, created := [Submits(0, r, newId)], [Submits(0, r, newId), ClientActs(0, c)];
    actions := [Submits(0, r, newId), ClientActs(0, c), ClientCrashes(0)];
    assert submitted[..0] == [] && created[..1] == submitted && actions[..2] == created;
    assert Run(d, submitted) == Next(d, NOTHING, Submits(0, r, newId));
    assert Run(d, created) == Next(d, Run(d, submitted), ClientActs(0, c));
    var w := Run(d, actions).world;
    var b := Begin(d, r, newId);
    assert SubmitStep(d, w, b, c') == (w, Checking(b.job, b.event));
    assert SubmitEnd(d, w, b, c') == SubmitEnd(d, w, Checking(b.job, b.event), c');
    var v := Expire(d.store, w, b.event.jobId);
    if d.store.Redis? && c'.delivery.Acknowledged? {
      var (v1, s1) := SubmitStep(d, v, b, c');
      var (v2, s2) := SubmitStep(d, v1, s1, c');
      assert SubmitEnd(d, v, b, c') == SubmitEnd(d, v1, s1, c') == SubmitEnd(d, v2, s2, c');
    }
  }

  // ---------------------------------------------------------------- bounded retries

  /** No event goes beyond the attempt limit. */
  predicate EventInBounds(d: Deployment, e: Event) {
    e.attempt == 0 || e.attempt < d.maxAttempts
  }

  /** A job is given up only with its last attempt. */
  predicate LetterInBounds(d: Deployment, l: DeadLetter) {
    l.DeadJob? && l.errorCode == EXHAUSTED ==> l.attempt + 1 >= d.maxAttempts
  }

  predicate OutputInBounds(d: Deployment, o: Output) {
    match o
    case InputOut(e) => EventInBounds(d, e)
    case RetryOut(e) => EventInBounds(d, e)
    case DeadOut(l) => LetterInBounds(d, l)
    case ResultOut(_) => true
  }

  predicate WorldInBounds(d: Deployment, w: World) {
    && (forall i :: 0 <= i < |w.log| && w.log[i].message.Valid? ==> EventInBounds(d, w.log[i].message.event))
    && (forall k :: 0 <= k < |w.dead| ==> LetterInBounds(d, w.dead[k]))
    && (forall k :: 0 <= k < |w.pending| ==> OutputInBounds(d, w.pending[k].output))
  }

  predicate WorkerInBounds(d: Deployment, k: Worker) {
    k.Busy? && k.phase.Publishing? ==> OutputInBounds(d, k.phase.output)
  }

  predicate ClientInBounds(s: Submission) {
    s.Creating? || s.Checking? || s.Queueing? ==> s.event.attempt == 0
  }

  ghost predicate InBounds(d: Deployment, s: System) {
    && WorldInBounds(d, s.world)
    && (forall k :: k in s.workers ==> WorkerInBounds(d, s.workers[k]))
    && (forall k :: k in s.clients ==> ClientInBounds(s.clients[k]))
  }

  lemma PublishInBounds(d: Deployment, w: World, o: Output, c: Choice)
    requires WorldInBounds(d, w) && OutputInBounds(d, o)
    ensures WorldInBounds(d, Publish(w, o, c))
  {
  }

  lemma WorkInBounds(d: Deployment, w: World, k: Worker, a: WorkerAction)
    requires WorldInBounds(d, w) && WorkerInBounds(d, k)
    ensures var (v, n) := WorkerNext(d, w, k, a); WorldInBounds(d, v) && WorkerInBounds(d, n)
  {
    if a.Work? && k.Busy? {
      if k.phase.Publishing? { PublishInBounds(d, w, k.phase.output, a.choice); }
      assert MISSING_STATE[0] != EXHAUSTED[0];
    }
  }

  lemma SubmitInBounds(d: Deployment, w: World, s: Submission, c: Choice)
    requires WorldInBounds(d, w) && ClientInBounds(s)
    ensures var (v, n) := SubmitStep(d, w, s, c); WorldInBounds(d, v) && ClientInBounds(n)
  {
    if s.Queueing? { PublishInBounds(d, w, InputOut(s.event), c); }
  }

  lemma ArrivalInBounds(d: Deployment, w: World, k: nat)
    requires WorldInBounds(d, w)
    ensures WorldInBounds(d, Arrive(w, k))
  {
    if k < |w.pending| { assert OutputInBounds(d, w.pending[k].output); }
  }

  lemma StepInBounds(d: Deployment, s: System, a: Action)
    requires InBounds(d, s)
    ensures InBounds(d, Next(d, s, a))
  {
    match a
    case WorkerActs(k, action) => WorkInBounds(d, s.world, WorkerAt(s, k), action);
    case ClientActs(k, c) =>
      if k in s.clients { SubmitInBounds(d, s.world, s.clients[k], c); }
    case Arrives(k) => ArrivalInBounds(d, s.world, k);
    case _ =>
  }

  lemma {:induction false} RunInBounds(d: Deployment, actions: seq<Action>)
    ensures InBounds(d, Run(d, actions))
  {
    if actions == [] {
    } else {
      RunInBounds(d, actions[..|actions| - 1]);
      StepInBounds(d, Run(d, actions[..|actions| - 1]), actions[|actions| - 1]);
    }
  }

  /** Retries are bounded: no event in the log has an attempt beyond the limit, and a dead
      letter calls a job exhausted only at its last attempt. */
  lemma RetriesBounded(d: Deployment, actions: seq<Action>)
    ensures var w := Run(d, actions).world;
            && (forall i :: 0 <= i < |w.log| && w.log[i].message.Valid? ==>
                  w.log[i].message.event.attempt == 0 || w.log[i].message.event.attempt < d.maxAttempts)
            && (forall k :: 0 <= k < |w.dead| && w.dead[k].DeadJob? && w.dead[k].errorCode == EXHAUSTED ==>
                  w.dead[k].attempt + 1 >= d.maxAttempts)
  {
    RunInBounds(d, actions);
    var w := Run(d, actions).world;
    forall i | 0 <= i < |w.log| && w.log[i].message.Valid?
      ensures w.log[i].message.event.attempt == 0 || w.log[i].message.event.attempt < d.maxAttempts
    {
      assert EventInBounds(d, w.log[i].message.event);
    }
    forall k | 0 <= k < |w.dead| && w.dead[k].DeadJob? && w.dead[k].errorCode == EXHAUSTED
      ensures w.dead[k].attempt + 1 >= d.maxAttempts
    {
      assert LetterInBounds(d, w.dead[k]);
    }
  }
}
