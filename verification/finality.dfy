/** When a succeeded record is final, read off the clients and workers that hold a copy of
    it. */
module RecordFinality {
  import opened JobPipeline
  import opened Wrappers
  import opened NoLoss
  import opened SubmissionAccounts
  import opened Continuations

  /** A success, or more narrowly the one record that is given. */
  predicate IsSuccess(x: StoredJob, same: Option<StoredJob>) {
    x.job.state.Succeeded? && (same.Some? ==> x == same.value)
  }

  /** The job has a record, and it is such a success. */
  predicate Still(w: World, j: string, same: Option<StoredJob>) {
    j in w.store && IsSuccess(w.store[j], same)
  }

  /** It is so in every continuation in which its key does not expire. */
  ghost predicate StaysSo(d: Deployment, s: System, j: string, same: Option<StoredJob>) {
    forall more :: KeyStays(d, s, more, j) ==> Still(After(d, s, more).world, j, same)
  }

  /** The submission has a copy of the record that it can still write. */
  predicate HoldsCopy(c: Submission, j: string) {
    || (c.Queueing? && c.job.job.jobId == j)
    || (c.Storing? && c.update.job.jobId == j)
  }

  /** The worker can still write something else to the record. */
  predicate HoldsUpdate(k: Worker, j: string, same: Option<StoredJob>) {
    k.Busy? &&
    match k.phase
    case Marking(_, u) => u.job.jobId == j
    case Moderating(_, u) => u.job.jobId == j
    case Publishing(_, after) => after.Some? && after.value.job.jobId == j && !IsSuccess(after.value, same)
    case Saving(u) => u.job.jobId == j && !IsSuccess(u, same)
    case _ => false
  }

  ghost predicate ClientHoldsCopy(s: System, j: string) {
    exists k :: k in s.clients && HoldsCopy(s.clients[k], j)
  }

  ghost predicate WorkerHoldsUpdate(s: System, j: string, same: Option<StoredJob>) {
    exists k :: k in s.workers && HoldsUpdate(s.workers[k], j, same)
  }

  ghost predicate Calm(s: System, j: string, same: Option<StoredJob>) {
    Still(s.world, j, same) && !ClientHoldsCopy(s, j) && !WorkerHoldsUpdate(s, j, same)
  }

  lemma ProcessCalm(d: Deployment, w: World, k: Worker, c: Choice, j: string, same: Option<StoredJob>)
    requires StoreSound(d, w) && WorkerSound(d, w, k) && k.Busy?
    requires Still(w, j, same) && !HoldsUpdate(k, j, same)
    ensures var (v, n) := WorkerNext(d, w, k, Work(c)); Still(v, j, same) && !HoldsUpdate(n, j, same)
  {
    match k.phase
    case Fetching(e) =>
    case Marking(_, u) =>
    case Moderating(_, u) =>
    case Publishing(_, after) =>
    case Saving(u) =>
    case _ =>
  }

  lemma WorkerCalm(d: Deployment, w: World, k: Worker, a: WorkerAction, j: string, same: Option<StoredJob>)
    requires StoreSound(d, w) && WorkerSound(d, w, k)
    requires Still(w, j, same) && !HoldsUpdate(k, j, same)
    ensures var (v, n) := WorkerNext(d, w, k, a); Still(v, j, same) && !HoldsUpdate(n, j, same)
  {
    if a.Work? && k.Busy? { ProcessCalm(d, w, k, a.choice, j, same); }
  }

  lemma ClientCalm(d: Deployment, w: World, c: Submission, choice: Choice, j: string, same: Option<StoredJob>)
    requires StoreSound(d, w) && ClientSound(d, w, c)
    requires Still(w, j, same) && !HoldsCopy(c, j) && j in SubmitStep(d, w, c, choice).0.store
    ensures var (v, n) := SubmitStep(d, w, c, choice); Still(v, j, same) && !HoldsCopy(n, j)
  {
  }

  lemma OthersCalm(s: System, t: System, j: string, same: Option<StoredJob>)
    requires Calm(s, j, same) && Still(t.world, j, same)
    requires forall k :: k in t.clients ==>
               !HoldsCopy(t.clients[k], j) || (k in s.clients && t.clients[k] == s.clients[k])
    requires forall k :: k in t.workers ==>
               !HoldsUpdate(t.workers[k], j, same) || (k in s.workers && t.workers[k] == s.workers[k])
    ensures Calm(t, j, same)
  {
  }

  lemma WorkerActsCalm(d: Deployment, s: System, k: nat, action: WorkerAction, j: string, same: Option<StoredJob>)
    requires Sound(d, s) && Calm(s, j, same)
    ensures Calm(Next(d, s, WorkerActs(k, action)), j, same)
  {
    WorkerCalm(d, s.world, WorkerAt(s, k), action, j, same);
    OthersCalm(s, Next(d, s, WorkerActs(k, action)), j, same);
  }

  /** Neither a worker nor a submission under way acts. */
  lemma QuietCalm(d: Deployment, s: System, a: Action, j: string, same: Option<StoredJob>)
    requires !a.WorkerActs? && !a.ClientActs? && Calm(s, j, same) && j in Next(d, s, a).world.store
    ensures Calm(Next(d, s, a), j, same)
  {
    OthersCalm(s, Next(d, s, a), j, same);
  }

  lemma CalmStep(d: Deployment, s: System, a: Action, j: string, same: Option<StoredJob>)
    requires Sound(d, s) && Calm(s, j, same) && j in Next(d, s, a).world.store
    ensures Calm(Next(d, s, a), j, same)
  {
    match a
    case WorkerActs(k, action) => WorkerActsCalm(d, s, k, action, j, same);
    case ClientActs(k, choice) =>
      if k in s.clients { ClientCalm(d, s.world, s.clients[k], choice, j, same); }
      OthersCalm(s, Next(d, s, a), j, same);
    case _ => QuietCalm(d, s, a, j, same);
  }

  lemma {:induction false} CalmAfter(d: Deployment, s: System, more: seq<Action>, j: string, same: Option<StoredJob>)
    requires Sound(d, s) && Calm(s, j, same) && KeyStays(d, s, more, j)
    ensures Calm(After(d, s, more), j, same)
  {
    if more == [] {
    } else {
      var before := more[..|more| - 1];
      CalmAfter(d, s, before, j, same);
      SoundAfter(d, s, before);
      CalmStep(d, After(d, s, before), more[|more| - 1], j, same);
    }
  }

  /** A client that is about to save overwrites the success. */
  lemma StoringUndoes(d: Deployment, s: System, before: seq<Action>, k: nat, j: string) returns (more: seq<Action>)
    requires KeyStays(d, s, before, j) && j in After(d, s, before).world.store
    requires var t := After(d, s, before);
             k in t.clients && t.clients[k].Storing? && t.clients[k].update.job.jobId == j
             && !t.clients[k].update.job.state.Succeeded?
    ensures |more| == |before| + 1 && KeyStays(d, s, more, j)
    ensures var w := After(d, s, more).world; j in w.store && !w.store[j].job.state.Succeeded?
  {
    more := Further(d, s, before, ClientActs(k, LOST), j);
  }

  /** A client with a copy overwrites a success in at most two steps: its publish fails, and
      it saves what it has. */
  lemma ClientUndoes(d: Deployment, s: System, k: nat, j: string) returns (more: seq<Action>)
    requires Inv(s) && j in s.world.store && k in s.clients && HoldsCopy(s.clients[k], j)
    ensures |more| <= 2 && KeyStays(d, s, more, j)
    ensures var w := After(d, s, more).world; j in w.store && !w.store[j].job.state.Succeeded?
  {
    var c := s.clients[k];
    assert ClientOk(c);
    more := [];
    if c.Queueing? {
      more := Further(d, s, [], ClientActs(k, LOST), j);
      assert After(d, s, more).clients[k] == Storing(Refused(c.job), Unavailable);
    }
    more := StoringUndoes(d, s, more, k, j);
  }

  /** A worker that is about to save overwrites the record. */
  lemma SavingUndoes(d: Deployment, s: System, before: seq<Action>, k: nat, j: string, same: Option<StoredJob>)
    returns (more: seq<Action>)
    requires KeyStays(d, s, before, j) && j in After(d, s, before).world.store
    requires var t := After(d, s, before);
             k in t.workers && t.workers[k].Busy? && t.workers[k].phase.Saving? && HoldsUpdate(t.workers[k], j, same)
    ensures |more| == |before| + 1 && KeyStays(d, s, more, j) && !Still(After(d, s, more).world, j, same)
  {
    more := Further(d, s, before, WorkerActs(k, Work(ACK)), j);
  }

  lemma PublishingUndoes(d: Deployment, s: System, before: seq<Action>, k: nat, j: string, same: Option<StoredJob>)
    returns (more: seq<Action>)
    requires KeyStays(d, s, before, j) && j in After(d, s, before).world.store
    requires var t := After(d, s, before);
             k in t.workers && t.workers[k].Busy? && t.workers[k].phase.Publishing? && HoldsUpdate(t.workers[k], j, same)
    ensures |more| == |before| + 2 && KeyStays(d, s, more, j) && !Still(After(d, s, more).world, j, same)
  {
    var phase := After(d, s, before).workers[k].phase;
    more := Further(d, s, before, WorkerActs(k, Work(ACK)), j);
    assert After(d, s, more).workers[k].phase == Saving(phase.after.value);
    more := SavingUndoes(d, s, more, k, j, same);
  }

  /** Where the engine fails, the worker is to save something else than a success. */
  lemma FailureHolds(d: Deployment, w: World, k: Worker, j: string, same: Option<StoredJob>)
    requires k.Busy? && k.phase.Moderating? && HoldsUpdate(k, j, same)
    ensures var (v, n) := WorkerNext(d, w, k, Work(ACK));
            v == w && n.Busy? && n.phase.Publishing? && HoldsUpdate(n, j, same)
  {
  }

  /** A worker overwrites the record within three steps: the engine fails, the retry or dead
      letter is acknowledged, and the worker saves. */
  lemma WorkerUndoes(d: Deployment, s: System, k: nat, j: string, same: Option<StoredJob>) returns (more: seq<Action>)
    requires Inv(s) && j in s.world.store && k in s.workers && HoldsUpdate(s.workers[k], j, same)
    ensures |more| <= 3 && KeyStays(d, s, more, j) && !Still(After(d, s, more).world, j, same)
  {
    assert WorkerOk(s.world, s.workers[k]);
    match s.workers[k].phase
    case Marking(_, u) =>
      more := Further(d, s, [], WorkerActs(k, Work(ACK)), j);
      assert After(d, s, more).world.store[j] == u;
    case Moderating(_, _) =>
      FailureHolds(d, s.world, s.workers[k], j, same);
      more := Further(d, s, [], WorkerActs(k, Work(ACK)), j);
      more := PublishingUndoes(d, s, more, k, j, same);
    case Publishing(_, _) => more := PublishingUndoes(d, s, [], k, j, same);
    case Saving(_) => more := SavingUndoes(d, s, [], k, j, same);
  }

  /** A success stays one, or stays the record that it is, as long as its key does not
      expire, if and only if no client holds a copy of it and no worker an update to
      something else. */
  lemma FinalExactly(d: Deployment, actions: seq<Action>, j: string, same: Option<StoredJob>)
    requires Still(Run(d, actions).world, j, same)
    ensures var s := Run(d, actions);
            StaysSo(d, s, j, same) <==> !ClientHoldsCopy(s, j) && !WorkerHoldsUpdate(s, j, same)
  {
    var s := Run(d, actions);
    RunSound(d, actions);
    RunKeeps(d, actions);
    if k :| k in s.clients && HoldsCopy(s.clients[k], j) {
      var more := ClientUndoes(d, s, k, j);
      assert KeyStays(d, s, more, j) && !Still(After(d, s, more).world, j, same);
    } else if k :| k in s.workers && HoldsUpdate(s.workers[k], j, same) {
      var more := WorkerUndoes(d, s, k, j, same);
      assert KeyStays(d, s, more, j);
    } else {
      forall more | KeyStays(d, s, more, j) ensures Still(After(d, s, more).world, j, same) {
        CalmAfter(d, s, more, j, same);
      }
    }
  }

  /** A succeeded job stays succeeded, with any number of workers and submissions, if and
      only if no submission holds a copy of its record and no worker an update of it that is
      not a success. */
  lemma SuccessFinalExactly(d: Deployment, actions: seq<Action>, j: string)
    requires var w := Run(d, actions).world; j in w.store && w.store[j].job.state.Succeeded?
    ensures var s := Run(d, actions);
            (forall more :: KeyStays(d, s, more, j) ==>
               var w := Run(d, actions + more).world; j in w.store && w.store[j].job.state.Succeeded?)
            <==> !ClientHoldsCopy(s, j) && !WorkerHoldsUpdate(s, j, None)
  {
    var s := Run(d, actions);
    FinalExactly(d, actions, j, None);
    forall more ensures Still(After(d, s, more).world, j, None) <==> Still(Run(d, actions + more).world, j, None) {
      RunGoesOn(d, actions, more);
    }
  }

  /** It keeps its very record, result included, if and only if besides no worker is about
      to save another success. */
  lemma RecordFinalExactly(d: Deployment, actions: seq<Action>, j: string)
    requires var w := Run(d, actions).world; j in w.store && w.store[j].job.state.Succeeded?
    ensures var s := Run(d, actions); var record := s.world.store[j];
            (forall more :: KeyStays(d, s, more, j) ==>
               var w := Run(d, actions + more).world; j in w.store && w.store[j] == record)
            <==> !ClientHoldsCopy(s, j) && !WorkerHoldsUpdate(s, j, Some(record))
  {
    var s := Run(d, actions);
    var record := s.world.store[j];
    FinalExactly(d, actions, j, Some(record));
    forall more
      ensures Still(After(d, s, more).world, j, Some(record))
         <==> var w := Run(d, actions + more).world; j in w.store && w.store[j] == record
    {
      RunGoesOn(d, actions, more);
    }
  }
}
