/** What every run keeps of the stored jobs, crashes and expiry included, and exactly
    which crashes leave a stored job that nobody will publish. */
module SubmissionAccounts {
  import opened JobPipeline
  import opened Wrappers
  import opened NoLoss

  predicate HasEvent(w: World, j: string) {
    exists i :: 0 <= i < |w.log| && IsEvent(w, i, j)
  }

  // ---------------------------------------------------------------- what every run keeps

  /** The fingerprint is that of a request whose id names the job. */
  ghost predicate Known(d: Deployment, jobId: string, fingerprint: string) {
    exists r: Request :: r.requestId.Some? && d.jobId(r.requestId.value) == jobId && d.fingerprint(r) == fingerprint
  }

  ghost predicate IsCopy(d: Deployment, u: StoredJob) {
    Known(d, u.job.jobId, u.fingerprint)
  }

  ghost predicate StoreSound(d: Deployment, w: World) {
    forall j :: j in w.store ==> w.store[j].job.jobId == j && IsCopy(d, w.store[j])
  }

  ghost predicate ClientSound(d: Deployment, w: World, c: Submission) {
    match c
    case Creating(job, e) => e.jobId == job.job.jobId && IsCopy(d, job)
    case Checking(job, e) => e.jobId == job.job.jobId && IsCopy(d, job)
    case Queueing(job, e, accepted) =>
      e.jobId == job.job.jobId && IsCopy(d, job) && (accepted.Some? ==> accepted.value == Requeued(job))
    case Storing(update, _) => IsCopy(d, update) && (PublishFailed(update) || HasEvent(w, update.job.jobId))
    case Answered(_) => true
  }

  /** A worker writes only to jobs with an event, and never that a publish failed. */
  ghost predicate UpdateSound(d: Deployment, w: World, u: StoredJob) {
    IsCopy(d, u) && !PublishFailed(u) && HasEvent(w, u.job.jobId)
  }

  ghost predicate PhaseSound(d: Deployment, w: World, phase: Phase) {
    match phase
    case Fetching(e) => HasEvent(w, e.jobId)
    case Marking(e, u) => e.jobId == u.job.jobId && UpdateSound(d, w, u)
    case Moderating(e, u) => e.jobId == u.job.jobId && UpdateSound(d, w, u)
    case Publishing(o, after) => !o.InputOut? && (after.Some? ==> UpdateSound(d, w, after.value))
    case Saving(u) => UpdateSound(d, w, u)
    case _ => true
  }

  ghost predicate WorkerSound(d: Deployment, w: World, k: Worker) {
    k.Busy? ==> PhaseSound(d, w, k.phase)
  }

  ghost predicate Sound(d: Deployment, s: System) {
    && StoreSound(d, s.world)
    && (forall k :: k in s.workers ==> WorkerSound(d, s.world, s.workers[k]))
    && (forall k :: k in s.clients ==> ClientSound(d, s.world, s.clients[k]))
  }

  lemma EventStays(w: World, v: World, j: string)
    requires w.log <= v.log && HasEvent(w, j)
    ensures HasEvent(v, j)
  {
    var i :| 0 <= i < |w.log| && IsEvent(w, i, j);
    assert v.log[i] == w.log[i] && IsEvent(v, i, j);
  }

  lemma ClientStays(d: Deployment, w: World, v: World, c: Submission)
    requires w.log <= v.log && ClientSound(d, w, c)
    ensures ClientSound(d, v, c)
  {
    if c.Storing? && !PublishFailed(c.update) { EventStays(w, v, c.update.job.jobId); }
  }

  lemma PhaseStays(d: Deployment, w: World, v: World, phase: Phase)
    requires w.log <= v.log && PhaseSound(d, w, phase)
    ensures PhaseSound(d, v, phase)
  {
    match phase
    case Fetching(e) => EventStays(w, v, e.jobId);
    case Marking(_, u) => EventStays(w, v, u.job.jobId);
    case Moderating(_, u) => EventStays(w, v, u.job.jobId);
    case Publishing(_, after) => if after.Some? { EventStays(w, v, after.value.job.jobId); }
    case Saving(u) => EventStays(w, v, u.job.jobId);
    case _ =>
  }

  lemma WorkerStays(d: Deployment, w: World, v: World, k: Worker)
    requires w.log <= v.log && WorkerSound(d, w, k)
    ensures WorkerSound(d, v, k)
  {
    if k.Busy? { PhaseStays(d, w, v, k.phase); }
  }

  lemma SaveSound(d: Deployment, w: World, u: StoredJob)
    requires StoreSound(d, w) && IsCopy(d, u)
    ensures StoreSound(d, Save(d.store, w, u))
  {
  }

  /** The engine's verdict changes neither the job nor the request of a record. */
  lemma VerdictSound(d: Deployment, w: World, e: Event, u: StoredJob, c: Choice)
    requires e.jobId == u.job.jobId && UpdateSound(d, w, u)
    ensures PhaseSound(d, w, ProcessStep(d, w, Moderating(e, u), c).1)
  {
    assert EXHAUSTED[0] != PUBLISH_FAILED[0];
  }

  lemma ProcessSound(d: Deployment, w: World, phase: Phase, c: Choice)
    requires StoreSound(d, w) && PhaseSound(d, w, phase)
    ensures var (v, n) := ProcessStep(d, w, phase, c); w.log <= v.log && StoreSound(d, v) && PhaseSound(d, v, n)
  {
    var (v, n) := ProcessStep(d, w, phase, c);
    match phase
    case Marking(_, u) =>
      SaveSound(d, w, u);
      PhaseStays(d, w, v, phase);
    case Moderating(e, u) => VerdictSound(d, w, e, u, c);
    case Saving(u) => SaveSound(d, w, u);
    case Publishing(o, after) => PhaseStays(d, w, v, phase);
    case _ =>
  }

  lemma WorkSound(d: Deployment, w: World, k: Worker, a: WorkerAction)
    requires StoreSound(d, w) && WorkerSound(d, w, k)
    ensures var (v, n) := WorkerNext(d, w, k, a); w.log <= v.log && StoreSound(d, v) && WorkerSound(d, v, n)
  {
    var (v, n) := WorkerNext(d, w, k, a);
    if a.Work? && k.Busy? { ProcessSound(d, w, k.phase, a.choice); } else { WorkerStays(d, w, v, k); }
    if a.Poll? && k.Idle? && n.Busy? && w.log[n.slot].message.Valid? {
      assert IsEvent(w, n.slot, w.log[n.slot].message.event.jobId);
    }
  }

  lemma SubmitSound(d: Deployment, w: World, c: Submission, choice: Choice)
    requires StoreSound(d, w) && ClientSound(d, w, c)
    ensures var (v, n) := SubmitStep(d, w, c, choice); w.log <= v.log && StoreSound(d, v) && ClientSound(d, v, n)
  {
    var (v, n) := SubmitStep(d, w, c, choice);
    match c
    case Queueing(job, e, _) => if choice.delivery.Acknowledged? { assert IsEvent(v, |w.log|, e.jobId); }
    case Storing(update, _) => SaveSound(d, w, update);
    case _ =>
  }

  lemma BeginSound(d: Deployment, w: World, r: Request, newId: string)
    ensures ClientSound(d, w, Begin(d, r, newId))
  {
    var n := Normalized(r, newId);
    assert n.requestId.Some? && d.jobId(n.requestId.value) == Begin(d, r, newId).job.job.jobId;
    assert d.fingerprint(n) == Begin(d, r, newId).job.fingerprint;
  }

  lemma OthersSound(d: Deployment, s: System, t: System)
    requires Sound(d, s) && s.world.log <= t.world.log && StoreSound(d, t.world)
    requires forall k :: k in t.workers ==>
               WorkerSound(d, t.world, t.workers[k]) || (k in s.workers && t.workers[k] == s.workers[k])
    requires forall k :: k in t.clients ==>
               ClientSound(d, t.world, t.clients[k]) || (k in s.clients && t.clients[k] == s.clients[k])
    ensures Sound(d, t)
  {
    forall k | k in t.workers ensures WorkerSound(d, t.world, t.workers[k]) {
      if k in s.workers && t.workers[k] == s.workers[k] { WorkerStays(d, s.world, t.world, s.workers[k]); }
    }
    forall k | k in t.clients ensures ClientSound(d, t.world, t.clients[k]) {
      if k in s.clients && t.clients[k] == s.clients[k] { ClientStays(d, s.world, t.world, s.clients[k]); }
    }
  }

  lemma WorkerActsSound(d: Deployment, s: System, k: nat, action: WorkerAction)
    requires Sound(d, s)
    ensures var t := Next(d, s, WorkerActs(k, action)); Sound(d, t) && s.world.log <= t.world.log
  {
    WorkSound(d, s.world, WorkerAt(s, k), action);
    OthersSound(d, s, Next(d, s, WorkerActs(k, action)));
  }

  lemma ClientActsSound(d: Deployment, s: System, k: nat, choice: Choice)
    requires Sound(d, s)
    ensures var t := Next(d, s, ClientActs(k, choice)); Sound(d, t) && s.world.log <= t.world.log
  {
    if k in s.clients { SubmitSound(d, s.world, s.clients[k], choice); }
    OthersSound(d, s, Next(d, s, ClientActs(k, choice)));
  }

  /** Nobody acts on the job: a crash, an expiry, or a record in a topic. */
  lemma QuietSound(d: Deployment, s: System, a: Action)
    requires Sound(d, s) && !a.WorkerActs? && !a.ClientActs? && !a.Submits?
    ensures Sound(d, Next(d, s, a)) && s.world.log <= Next(d, s, a).world.log
  {
    OthersSound(d, s, Next(d, s, a));
  }

  lemma StepSound(d: Deployment, s: System, a: Action)
    requires Sound(d, s)
    ensures Sound(d, Next(d, s, a)) && s.world.log <= Next(d, s, a).world.log
  {
    match a
    case WorkerActs(k, action) => WorkerActsSound(d, s, k, action);
    case ClientActs(k, choice) => ClientActsSound(d, s, k, choice);
    case Submits(k, r, newId) =>
      BeginSound(d, s.world, r, newId);
      OthersSound(d, s, Next(d, s, a));
    case _ => QuietSound(d, s, a);
  }

  lemma {:induction false} RunSound(d: Deployment, actions: seq<Action>)
    ensures Sound(d, Run(d, actions))
  {
    if actions == [] {
    } else {
      RunSound(d, actions[..|actions| - 1]);
      StepSound(d, Run(d, actions[..|actions| - 1]), actions[|actions| - 1]);
    }
  }

  // ---------------------------------------------------------------- who still has to publish

  /** The submission still has to publish the job or to record that it failed to. */
  predicate Owes(c: Submission, j: string) {
    || (c.Queueing? && c.job.job.jobId == j)
    || (c.Storing? && c.update.job.jobId == j && PublishFailed(c.update))
  }

  ghost predicate Owed(clients: map<nat, Submission>, j: string) {
    exists k :: k in clients && Owes(clients[k], j)
  }

  /** The job is in a topic, is marked as not published, or has a client at work on it. */
  ghost predicate Accounted(s: System, j: string)
    requires j in s.world.store
  {
    HasEvent(s.world, j) || PublishFailed(s.world.store[j]) || Owed(s.clients, j)
  }

  ghost predicate AllAccounted(s: System) {
    forall j :: j in s.world.store ==> Accounted(s, j)
  }

  /** The record is as before, or says that a publish failed, or its job has an event. */
  ghost predicate FairWrite(w: World, v: World, j: string)
    requires j in v.store
  {
    (j in w.store && v.store[j] == w.store[j]) || HasEvent(v, j) || PublishFailed(v.store[j])
  }

  lemma SaveFair(d: Deployment, w: World, u: StoredJob)
    requires StoreSound(d, w) && (HasEvent(w, u.job.jobId) || PublishFailed(u))
    ensures var v := Save(d.store, w, u); forall j :: j in v.store ==> FairWrite(w, v, j)
  {
    var v := Save(d.store, w, u);
    if HasEvent(w, u.job.jobId) { EventStays(w, v, u.job.jobId); }
  }

  lemma WorkerFair(d: Deployment, w: World, k: Worker, a: WorkerAction)
    requires StoreSound(d, w) && WorkerSound(d, w, k)
    ensures var v := WorkerNext(d, w, k, a).0; forall j :: j in v.store ==> FairWrite(w, v, j)
  {
    if a.Work? && k.Busy? {
      match k.phase
      case Marking(_, u) => SaveFair(d, w, u);
      case Saving(u) => SaveFair(d, w, u);
      case _ =>
    }
  }

  /** A step of a submission pays what it stops owing. */
  lemma ClientFair(d: Deployment, w: World, c: Submission, choice: Choice, j: string)
    requires StoreSound(d, w) && ClientSound(d, w, c)
    requires j in SubmitStep(d, w, c, choice).0.store
    ensures var (v, n) := SubmitStep(d, w, c, choice);
            && (FairWrite(w, v, j) || Owes(n, j))
            && (Owes(c, j) ==> Owes(n, j) || HasEvent(v, j) || PublishFailed(v.store[j]))
  {
    var (v, n) := SubmitStep(d, w, c, choice);
    match c
    case Queueing(job, e, _) => if choice.delivery.Acknowledged? { assert IsEvent(v, |w.log|, e.jobId); }
    case Storing(update, _) => SaveFair(d, w, update);
    case _ =>
  }

  /** A fair write leaves a job accounted for, unless it was only owed. */
  lemma FairAccounted(s: System, t: System, j: string)
    requires j in t.world.store && FairWrite(s.world, t.world, j) && s.world.log <= t.world.log && AllAccounted(s)
    ensures Accounted(t, j) || (j in s.world.store && t.world.store[j] == s.world.store[j] && Owed(s.clients, j))
  {
    if j in s.world.store && t.world.store[j] == s.world.store[j] {
      assert Accounted(s, j);
      if HasEvent(s.world, j) { EventStays(s.world, t.world, j); }
    }
  }

  lemma ClientActsAccounted(d: Deployment, s: System, k: nat, choice: Choice, j: string)
    requires Sound(d, s) && AllAccounted(s) && k in s.clients && j in Next(d, s, ClientActs(k, choice)).world.store
    ensures Accounted(Next(d, s, ClientActs(k, choice)), j)
  {
    var t := Next(d, s, ClientActs(k, choice));
    ClientFair(d, s.world, s.clients[k], choice, j);
    SubmitSound(d, s.world, s.clients[k], choice);
    if !Owes(t.clients[k], j) {
      FairAccounted(s, t, j);
      if c :| c in s.clients && Owes(s.clients[c], j) {
        if c != k { assert Owes(t.clients[c], j); }
      }
    }
  }

  /** Every step but a crash of a client keeps all jobs accounted for. */
  lemma StepAccounted(d: Deployment, s: System, a: Action)
    requires Sound(d, s) && AllAccounted(s) && !a.ClientCrashes?
    ensures AllAccounted(Next(d, s, a))
  {
    var t := Next(d, s, a);
    StepSound(d, s, a);
    forall j | j in t.world.store ensures Accounted(t, j) {
      if a.ClientActs? && a.client in s.clients {
        ClientActsAccounted(d, s, a.client, a.choice, j);
      } else {
        StepFair(d, s, a, j);
        FairAccounted(s, t, j);
        if c :| c in s.clients && Owes(s.clients[c], j) { assert Owes(t.clients[c], j); }
      }
    }
  }

  lemma StepFair(d: Deployment, s: System, a: Action, j: string)
    requires Sound(d, s) && !(a.ClientActs? && a.client in s.clients) && j in Next(d, s, a).world.store
    ensures FairWrite(s.world, Next(d, s, a).world, j)
  {
    if a.WorkerActs? { WorkerFair(d, s.world, WorkerAt(s, a.worker), a.action); }
  }

  // ---------------------------------------------------------------- which crashes strand a job

  /** A stored job that is in no topic, is not marked as not published, and that no client
      but `k` will publish. */
  ghost predicate SoleDebtor(s: System, k: nat) {
    exists j :: j in s.world.store && OnlyOwedBy(s, k, j)
  }

  ghost predicate OnlyOwedBy(s: System, k: nat, j: string)
    requires j in s.world.store
  {
    && !HasEvent(s.world, j) && !PublishFailed(s.world.store[j])
    && k in s.clients && Owes(s.clients[k], j) && !Owed(s.clients - {k}, j)
  }

  /** A crash strands a job exactly when its client is the only one to owe one. */
  lemma CrashStrands(d: Deployment, s: System, k: nat)
    requires AllAccounted(s)
    ensures AllAccounted(Next(d, s, ClientCrashes(k))) <==> !SoleDebtor(s, k)
  {
    var t := Next(d, s, ClientCrashes(k));
    if j :| j in s.world.store && OnlyOwedBy(s, k, j) {
      assert !Accounted(t, j);
    } else {
      forall j | j in t.world.store ensures Accounted(t, j) {
        assert Accounted(s, j);
        if c :| c in s.clients && Owes(s.clients[c], j) {
          if c != k { assert Owes(t.clients[c], j); } else { assert !OnlyOwedBy(s, k, j); }
        }
      }
    }
  }

  /** No client crashes while it is the only one to owe a stored job. */
  ghost predicate CrashesHarmless(d: Deployment, actions: seq<Action>) {
    actions == []
    || var n := |actions| - 1;
       CrashesHarmless(d, actions[..n])
       && (actions[n].ClientCrashes? ==> !SoleDebtor(Run(d, actions[..n]), actions[n].client))
  }

  /** All along a run every stored job is in a topic, marked as not published, or owed by
      a client, if and only if every crash is harmless. */
  lemma {:induction false} StrandsExactly(d: Deployment, actions: seq<Action>)
    ensures (forall n :: 0 <= n <= |actions| ==> AllAccounted(Run(d, actions[..n]))) <==> CrashesHarmless(d, actions)
  {
    if actions == [] {
      assert actions[..0] == [];
    } else {
      var last := |actions| - 1;
      var before, a := actions[..last], actions[last];
      StrandsExactly(d, before);
      assert forall n :: 0 <= n <= last ==> actions[..n] == before[..n];
      assert before[..last] == before && actions[..|actions|] == actions;
      RunSound(d, before);
      if AllAccounted(Run(d, before)) {
        if a.ClientCrashes? { CrashStrands(d, Run(d, before), a.client); } else { StepAccounted(d, Run(d, before), a); }
      }
    }
  }

  /** In particular nothing is stranded where no client crashes. */
  lemma {:induction false} NoCrashHarmless(d: Deployment, actions: seq<Action>)
    requires forall i :: 0 <= i < |actions| ==> !actions[i].ClientCrashes?
    ensures CrashesHarmless(d, actions)
  {
    if actions == [] {
    } else {
      NoCrashHarmless(d, actions[..|actions| - 1]);
    }
  }

  lemma OnlyCrashesStrand(d: Deployment, actions: seq<Action>, j: string)
    requires forall i :: 0 <= i < |actions| ==> !actions[i].ClientCrashes?
    requires j in Run(d, actions).world.store
    ensures Accounted(Run(d, actions), j)
  {
    NoCrashHarmless(d, actions);
    StrandsExactly(d, actions);
    assert actions[..|actions|] == actions;
  }
}
