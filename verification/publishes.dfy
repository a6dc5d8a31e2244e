/** When no further publish of a job can be acknowledged, read off its record and the
    submissions under way. */
module PublishFinality {
  import opened JobPipeline
  import opened Wrappers
  import opened NoLoss
  import opened SubmissionAccounts
  import opened Continuations

  /** From `w` to `v` another input event of the job was acknowledged. */
  predicate PublishedAgain(w: World, v: World, j: string) {
    exists i :: |w.log| <= i < |v.log| && IsEvent(v, i, j) && v.log[i].partition.topic.Input? && v.log[i].acknowledged
  }

  ghost predicate MayPublishAgain(d: Deployment, s: System, j: string) {
    exists more :: KeyStays(d, s, more, j) && PublishedAgain(s.world, After(d, s, more).world, j)
  }

  /** The record does not ask for another publish, and no submission is about to publish or
      to record a failed publish. */
  ghost predicate Settled(s: System, j: string) {
    j in s.world.store && !PublishFailed(s.world.store[j]) && !Owed(s.clients, j)
  }

  lemma WorkerSettled(d: Deployment, w: World, k: Worker, a: WorkerAction, j: string)
    requires StoreSound(d, w) && WorkerSound(d, w, k) && j in w.store && !PublishFailed(w.store[j])
    ensures var v := WorkerNext(d, w, k, a).0; j in v.store && !PublishFailed(v.store[j]) && !PublishedAgain(w, v, j)
  {
    if a.Work? && k.Busy? {
      match k.phase
      case Marking(_, u) =>
      case Saving(u) =>
      case _ =>
    }
  }

  lemma ClientSettled(d: Deployment, w: World, c: Submission, choice: Choice, j: string)
    requires StoreSound(d, w) && ClientSound(d, w, c) && j in w.store && !PublishFailed(w.store[j]) && !Owes(c, j)
    requires j in SubmitStep(d, w, c, choice).0.store
    ensures var (v, n) := SubmitStep(d, w, c, choice);
            !PublishFailed(v.store[j]) && !PublishedAgain(w, v, j) && !Owes(n, j)
  {
  }

  lemma OthersSettled(s: System, t: System, j: string)
    requires Settled(s, j) && j in t.world.store && !PublishFailed(t.world.store[j])
    requires forall k :: k in t.clients ==> !Owes(t.clients[k], j) || (k in s.clients && t.clients[k] == s.clients[k])
    ensures Settled(t, j)
  {
  }

  lemma QuietSettled(d: Deployment, s: System, a: Action, j: string)
    requires !a.WorkerActs? && !a.ClientActs? && Settled(s, j) && j in Next(d, s, a).world.store
    ensures Settled(Next(d, s, a), j) && !PublishedAgain(s.world, Next(d, s, a).world, j)
  {
    OthersSettled(s, Next(d, s, a), j);
  }

  lemma SettledStep(d: Deployment, s: System, a: Action, j: string)
    requires Sound(d, s) && Settled(s, j) && j in Next(d, s, a).world.store
    ensures Settled(Next(d, s, a), j) && !PublishedAgain(s.world, Next(d, s, a).world, j)
  {
    match a
    case WorkerActs(k, action) =>
      WorkerSettled(d, s.world, WorkerAt(s, k), action, j);
      OthersSettled(s, Next(d, s, a), j);
    case ClientActs(k, choice) =>
      if k in s.clients { ClientSettled(d, s.world, s.clients[k], choice, j); }
      OthersSettled(s, Next(d, s, a), j);
    case _ => QuietSettled(d, s, a, j);
  }

  lemma PublishedEither(w: World, v: World, u: World, j: string)
    requires w.log <= v.log <= u.log
    ensures PublishedAgain(w, u, j) ==> PublishedAgain(w, v, j) || PublishedAgain(v, u, j)
  {
    forall i | |w.log| <= i < |v.log| ensures v.log[i] == u.log[i] && (IsEvent(u, i, j) ==> IsEvent(v, i, j)) {
    }
  }

  lemma {:induction false} SettledAfter(d: Deployment, s: System, more: seq<Action>, j: string)
    requires Sound(d, s) && Settled(s, j) && KeyStays(d, s, more, j)
    ensures Settled(After(d, s, more), j) && !PublishedAgain(s.world, After(d, s, more).world, j)
  {
    if more == [] {
    } else {
      var before, a := more[..|more| - 1], more[|more| - 1];
      SettledAfter(d, s, before, j);
      SoundAfter(d, s, before);
      SettledStep(d, After(d, s, before), a, j);
      StepSound(d, After(d, s, before), a);
      PublishedEither(s.world, After(d, s, before).world, After(d, s, more).world, j);
    }
  }

  lemma {:induction false} Unused(used: set<nat>) returns (k: nat)
    ensures forall x :: x in used ==> x < k
    decreases used
  {
    if used == {} {
      k := 0;
    } else {
      var x :| x in used;
      k := Unused(used - {x});
      assert forall y :: y in used ==> y == x || y in used - {x};
      k := if k > x then k else x + 1;
    }
  }

  /** A client that is about to publish may be acknowledged. */
  lemma QueuedPublishes(d: Deployment, s: System, before: seq<Action>, k: nat, j: string) returns (more: seq<Action>)
    requires Sound(d, s) && KeyStays(d, s, before, j) && j in After(d, s, before).world.store
    requires var t := After(d, s, before); k in t.clients && t.clients[k].Queueing? && t.clients[k].job.job.jobId == j
    ensures KeyStays(d, s, more, j) && PublishedAgain(s.world, After(d, s, more).world, j)
  {
    var t := After(d, s, before);
    SoundAfter(d, s, before);
    assert ClientSound(d, t.world, t.clients[k]);
    more := Further(d, s, before, ClientActs(k, ACK), j);
    assert IsEvent(After(d, s, more).world, |t.world.log|, j);
  }

  /** From a failed record a new submission of the job's request publishes. */
  lemma FailedPublishes(d: Deployment, s: System, before: seq<Action>, j: string) returns (more: seq<Action>)
    requires Sound(d, s) && KeyStays(d, s, before, j)
    requires var w := After(d, s, before).world; j in w.store && PublishFailed(w.store[j])
    ensures KeyStays(d, s, more, j) && PublishedAgain(s.world, After(d, s, more).world, j)
  {
    var t := After(d, s, before);
    SoundAfter(d, s, before);
    assert IsCopy(d, t.world.store[j]);
    var r: Request :| r.requestId.Some? && d.jobId(r.requestId.value) == j && d.fingerprint(r) == t.world.store[j].fingerprint;
    var k := Unused(t.clients.Keys);
    var b := Begin(d, r, "");
    assert Normalized(r, "") == r;
    more := Further(d, s, before, Submits(k, r, ""), j);
    assert After(d, s, more) == t.(clients := t.clients[k := b]);
    more := Further(d, s, more, ClientActs(k, ACK), j);
    assert After(d, s, more).clients[k] == Checking(b.job, b.event);
    more := Further(d, s, more, ClientActs(k, ACK), j);
    more := QueuedPublishes(d, s, more, k, j);
  }

  /** A submission that owes the job can publish it, or mark it for another to publish. */
  lemma OwedPublishes(d: Deployment, s: System, k: nat, j: string) returns (more: seq<Action>)
    requires Sound(d, s) && j in s.world.store && k in s.clients && Owes(s.clients[k], j)
    ensures KeyStays(d, s, more, j) && PublishedAgain(s.world, After(d, s, more).world, j)
  {
    if s.clients[k].Queueing? {
      more := QueuedPublishes(d, s, [], k, j);
    } else {
      more := Further(d, s, [], ClientActs(k, ACK), j);
      more := FailedPublishes(d, s, more, j);
    }
  }

  /** While the key of a stored job does not expire, a further input event of it can be
      acknowledged if and only if its record says that a publish failed, or a submission is
      about to publish it or to record that. */
  lemma PublishesOverExactly(d: Deployment, actions: seq<Action>, j: string)
    requires j in Run(d, actions).world.store
    ensures var s := Run(d, actions);
            MayPublishAgain(d, s, j) <==> PublishFailed(s.world.store[j]) || Owed(s.clients, j)
  {
    var s := Run(d, actions);
    RunSound(d, actions);
    if PublishFailed(s.world.store[j]) {
      var more := FailedPublishes(d, s, [], j);
    } else if k :| k in s.clients && Owes(s.clients[k], j) {
      var more := OwedPublishes(d, s, k, j);
    } else {
      forall more | KeyStays(d, s, more, j) ensures !PublishedAgain(s.world, After(d, s, more).world, j) {
        SettledAfter(d, s, more, j);
      }
    }
  }
}
