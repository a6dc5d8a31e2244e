/** Runs in which the stored state lies: a job published twice, and a succeeded job that
    goes back to accepted or to failed. */
module SubmissionRaces {
  import opened JobPipeline
  import opened Wrappers
  import opened NoLoss

  const ACK := Choice(Acknowledged, 0, Some("response"), false)
  const LOST := Choice(Lost, 0, None, false)
  const LATE := Choice(Delayed, 0, None, false)

  lemma Then(d: Deployment, before: seq<Action>, a: Action) returns (after: seq<Action>)
    ensures after == before + [a] && Run(d, after) == Next(d, Run(d, before), a)
  {
    after := before + [a];
    assert after[..|after| - 1] == before;
  }

  /** The world in which only the first publish of the request was tried, and failed. */
  function Rejected(d: Deployment, r: Request, newId: string): World {
    var b := Begin(d, r, newId);
    NOTHING.world.(store := map[b.event.jobId := Refused(b.job)])
  }

  lemma FirstPublishFails(d: Deployment, r: Request, newId: string) returns (h: seq<Action>)
    ensures Run(d, h) == System(Rejected(d, r, newId), map[], map[0 := Answered(Unavailable)])
  {
    var b := Begin(d, r, newId);
    h := Then(d, [], Submits(0, r, newId));
    h := Then(d, h, ClientActs(0, LOST));
    assert Run(d, h) == System(NOTHING.world.(store := map[b.event.jobId := b.job]), map[], map[0 := Queueing(b.job, b.event, None)]);
    h := Then(d, h, ClientActs(0, LOST));
    assert Run(d, h).clients == map[0 := Storing(Refused(b.job), Unavailable)];
    h := Then(d, h, ClientActs(0, LOST));
  }

  /** Where a submission stands that has read the failed record. */
  function Retrying(d: Deployment, r: Request, newId: string): Submission {
    var b := Begin(d, r, newId);
    Queueing(Refused(b.job), b.event, Some(Requeued(Refused(b.job))))
  }

  /** A further client reads the failed record. */
  lemma ReadsFailure(d: Deployment, before: seq<Action>, k: nat, r: Request, newId: string) returns (h: seq<Action>)
    requires Run(d, before).world == Rejected(d, r, newId) && k !in Run(d, before).clients
    ensures Run(d, h) == Run(d, before).(clients := Run(d, before).clients[k := Retrying(d, r, newId)])
  {
    var b, s := Begin(d, r, newId), Run(d, before);
    h := Then(d, before, Submits(k, r, newId));
    h := Then(d, h, ClientActs(k, ACK));
    assert Run(d, h).clients[k] == Checking(b.job, b.event);
    h := Then(d, h, ClientActs(k, ACK));
    assert Run(d, h).clients == s.clients[k := Retrying(d, r, newId)];
  }

  /** Two clients that read the same failed record both publish: two acknowledged input
      events of one job. */
  lemma TwoAcknowledgedPublishes(d: Deployment, r: Request, newId: string) returns (actions: seq<Action>)
    ensures var w := Run(d, actions).world; var j := Begin(d, r, newId).event.jobId;
            && |w.log| == 2 && IsEvent(w, 0, j) && IsEvent(w, 1, j)
            && w.log[0].partition.topic.Input? && w.log[1].partition.topic.Input?
            && w.log[0].acknowledged && w.log[1].acknowledged
  {
    actions := FirstPublishFails(d, r, newId);
    actions := ReadsFailure(d, actions, 1, r, newId);
    actions := ReadsFailure(d, actions, 2, r, newId);
    assert Run(d, actions).clients[1] == Retrying(d, r, newId) == Run(d, actions).clients[2];
    actions := Then(d, actions, ClientActs(1, ACK));
    assert Run(d, actions).clients[2] == Retrying(d, r, newId);
    actions := Then(d, actions, ClientActs(2, ACK));
  }

  /** A client has published from the failed record and is about to save its copy. */
  lemma PublishesFromFailure(d: Deployment, r: Request, newId: string) returns (h: seq<Action>)
    ensures var b := Begin(d, r, newId); var update := Requeued(Refused(b.job));
            Run(d, h) == System(Rejected(d, r, newId).(log := [Entry(Partition(Input, 0), Valid(b.event), true)]), map[],
                                map[0 := Answered(Unavailable), 1 := Storing(update, Returned(update.job))])
  {
    h := FirstPublishFails(d, r, newId);
    h := ReadsFailure(d, h, 1, r, newId);
    assert Run(d, h).clients[1] == Retrying(d, r, newId);
    h := Then(d, h, ClientActs(1, ACK));
    var b := Begin(d, r, newId);
    var update := Requeued(Refused(b.job));
    assert Run(d, h).clients == map[0 := Answered(Unavailable), 1 := Storing(update, Returned(update.job))];
  }

  /** The log holds one message, the event. */
  predicate IsOnly(log: seq<Entry>, e: Event) {
    |log| == 1 && log[0].partition == Partition(Input, 0) && log[0].message == Valid(e)
  }

  predicate OnlyWorkersSince(before: seq<Action>, h: seq<Action>) {
    before <= h && forall i :: |before| <= i < |h| ==> h[i].WorkerActs?
  }

  /** A worker takes the only message of the log, succeeds and commits. */
  lemma WorkerSucceeds(d: Deployment, before: seq<Action>, e: Event, stored: StoredJob) returns (h: seq<Action>)
    requires var s := Run(d, before);
             && s.workers == map[] && IsOnly(s.world.log, e)
             && s.world.store == map[e.jobId := stored] && s.world.committed == map[]
             && !stored.job.state.Succeeded? && stored.job.jobId == e.jobId
    ensures OnlyWorkersSince(before, h)
    ensures var w := Run(d, h).world;
            && Run(d, h).clients == Run(d, before).clients && w.log == Run(d, before).world.log
            && w.committed == map[Partition(Input, 0) := 1]
            && e.jobId in w.store && w.store[e.jobId].job.state.Succeeded?
  {
    var p := Partition(Input, 0);
    h := WorkerFetches(d, before, e);
    h := Then(d, h, WorkerActs(0, Work(ACK)));
    var u := WithUpdate(stored, Processing, e.attempt, None);
    assert Run(d, h).workers == map[0 := Busy(map[p := 1], 0, Marking(e, u))];
    h := WorkerFinishes(d, h, e, u);
  }

  /** A new worker polls the only message of the log. */
  lemma WorkerFetches(d: Deployment, before: seq<Action>, e: Event) returns (h: seq<Action>)
    requires var s := Run(d, before);
             && s.workers == map[] && IsOnly(s.world.log, e) && s.world.committed == map[]
    ensures OnlyWorkersSince(before, h)
    ensures Run(d, h)
         == Run(d, before).(workers := map[0 := Busy(map[Partition(Input, 0) := 1], 0, Fetching(e))])
  {
    var p := Partition(Input, 0);
    var s := Run(d, before);
    h := WorkerStarts(d, before);
    h := Then(d, h, WorkerActs(0, Poll(p)));
    assert NextIn(s.world.log, p, 0) == 0;
    assert map[p := 0][p := 1] == map[p := 1];
    assert Run(d, h).workers == map[0 := Busy(map[p := 1], 0, Fetching(e))];
  }

  /** A new worker at the start of the input partition. */
  lemma WorkerStarts(d: Deployment, before: seq<Action>) returns (h: seq<Action>)
    requires var s := Run(d, before); s.workers == map[] && s.world.committed == map[]
    ensures OnlyWorkersSince(before, h)
    ensures Run(d, h) == Run(d, before).(workers := map[0 := Idle(map[Partition(Input, 0) := 0])])
  {
    var p := Partition(Input, 0);
    h := Then(d, before, WorkerActs(0, Start));
    assert Run(d, h).workers == map[0 := Idle(map[])];
    h := Then(d, h, WorkerActs(0, Assign(p)));
    assert Run(d, h).workers == map[0 := Idle(map[p := 0])];
  }

  lemma WorkerFinishes(d: Deployment, before: seq<Action>, e: Event, u: StoredJob) returns (h: seq<Action>)
    requires var s := Run(d, before); var p := Partition(Input, 0);
             && s.workers == map[0 := Busy(map[p := 1], 0, Marking(e, u))] && IsOnly(s.world.log, e)
             && e.jobId in s.world.store && u.job.jobId == e.jobId && s.world.committed == map[]
    ensures OnlyWorkersSince(before, h)
    ensures var w := Run(d, h).world;
            && Run(d, h).clients == Run(d, before).clients && w.log == Run(d, before).world.log
            && w.committed == map[Partition(Input, 0) := 1]
            && e.jobId in w.store && w.store[e.jobId].job.state.Succeeded?
  {
    var p := Partition(Input, 0);
    var update := AfterSuccess(e, u, "response").after.value;
    h := WorkerPublishes(d, before, e, u);
    h := Then(d, h, WorkerActs(0, Work(ACK)));
    assert Run(d, h).workers[0] == Busy(map[p := 1], 0, Finished);
    h := Then(d, h, WorkerActs(0, Commit));
  }

  /** The worker publishes the result, and is to save the success. */
  lemma WorkerPublishes(d: Deployment, before: seq<Action>, e: Event, u: StoredJob) returns (h: seq<Action>)
    requires var s := Run(d, before);
             && s.workers == map[0 := Busy(map[Partition(Input, 0) := 1], 0, Marking(e, u))]
             && e.jobId in s.world.store && u.job.jobId == e.jobId
    ensures OnlyWorkersSince(before, h)
    ensures var s, t := Run(d, before), Run(d, h);
            && t.clients == s.clients && t.world.log == s.world.log && t.world.committed == s.world.committed
            && e.jobId in t.world.store && 0 in t.workers
            && t.workers[0] == Busy(map[Partition(Input, 0) := 1], 0, Saving(AfterSuccess(e, u, "response").after.value))
  {
    var p := Partition(Input, 0);
    h := Then(d, before, WorkerActs(0, Work(ACK)));
    assert Run(d, h).workers[0] == Busy(map[p := 1], 0, Moderating(e, u));
    h := Then(d, h, WorkerActs(0, Work(ACK)));
    assert Run(d, h).workers[0] == Busy(map[p := 1], 0, AfterSuccess(e, u, "response"));
    h := Then(d, h, WorkerActs(0, Work(ACK)));
  }

  /** A client saves the copy it read before it published, over the worker's result: a
      succeeded job goes back to accepted, with nothing uncommitted to finish it. */
  lemma StaleSaveUndoesSuccess(d: Deployment, r: Request, newId: string) returns (actions: seq<Action>)
    ensures var j := Begin(d, r, newId).event.jobId; var w := Run(d, actions).world;
            && actions != [] && j in Run(d, actions[..|actions| - 1]).world.store
            && Run(d, actions[..|actions| - 1]).world.store[j].job.state.Succeeded?
            && j in w.store && w.store[j].job.state.Accepted? && !HasUncommitted(w, j)
  {
    var b := Begin(d, r, newId);
    var h := PublishesFromFailure(d, r, newId);
    h := WorkerSucceeds(d, h, b.event, Refused(b.job));
    var update := Requeued(Refused(b.job));
    assert Run(d, h).clients[1] == Storing(update, Returned(update.job));
    actions := Then(d, h, ClientActs(1, ACK));
    assert actions[..|actions| - 1] == h;
  }

  /** The only submission of a run is still waiting for the acknowledgement of its event,
      which has reached its topic. */
  lemma TimesOut(d: Deployment, r: Request, newId: string) returns (h: seq<Action>)
    ensures var b := Begin(d, r, newId);
            && |h| == 4 && h[0].Submits? && (forall i :: 1 <= i < 4 ==> h[i].ClientActs? || h[i].Arrives?)
            && Run(d, h) == System(NOTHING.world.(store := map[b.event.jobId := b.job],
                                                  log := [Entry(Partition(Input, 0), Valid(b.event), false)]),
                                   map[], map[0 := Storing(Refused(b.job), Unavailable)])
  {
    var b := Begin(d, r, newId);
    h := Then(d, [], Submits(0, r, newId));
    h := Then(d, h, ClientActs(0, LATE));
    assert Run(d, h) == System(NOTHING.world.(store := map[b.event.jobId := b.job]), map[], map[0 := Queueing(b.job, b.event, None)]);
    h := Then(d, h, ClientActs(0, LATE));
    assert Run(d, h).world.pending == [Late(InputOut(b.event), 0)];
    assert Run(d, h).clients == map[0 := Storing(Refused(b.job), Unavailable)];
    h := Then(d, h, Arrives(0));
  }

  /** One submission is enough, with no crash and no expiry: its publish times out, the
      record arrives all the same and is processed, and only then the client saves that the
      publish failed.  The succeeded job is marked failed, with nothing uncommitted. */
  lemma LateFailureUndoesSuccess(d: Deployment, r: Request, newId: string) returns (actions: seq<Action>)
    ensures actions != [] && actions[0].Submits?
            && forall i :: 1 <= i < |actions| ==> actions[i].WorkerActs? || actions[i].ClientActs? || actions[i].Arrives?
    ensures var j := Begin(d, r, newId).event.jobId; var w := Run(d, actions).world;
            && j in Run(d, actions[..|actions| - 1]).world.store
            && Run(d, actions[..|actions| - 1]).world.store[j].job.state.Succeeded?
            && j in w.store && PublishFailed(w.store[j]) && !HasUncommitted(w, j)
  {
    var b := Begin(d, r, newId);
    var before := TimesOut(d, r, newId);
    var h := WorkerSucceeds(d, before, b.event, b.job);
    assert Run(d, h).clients[0] == Storing(Refused(b.job), Unavailable);
    actions := Then(d, h, ClientActs(0, LATE));
    assert actions[..|actions| - 1] == h;
    assert forall i :: 0 <= i < |before| ==> h[i] == before[i];
  }
}
