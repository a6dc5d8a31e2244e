/** Draining: without crashes and with a broker that acknowledges, the backlog empties
    after a bounded number of process calls and every job ends succeeded or failed. */
module Draining {
  import opened JobPipeline
  import opened NoLoss
  import opened SoleWorker

  /** One poll, processed and committed: the partition polled and what the environment does. */
  datatype Call = Call(partition: Partition, choice: Choice)

  predicate HasNext(s: Solo, p: Partition) {
    s.worker.Idle? && p in s.worker.position && NextIn(s.world.log, p, s.worker.position[p]) < |s.world.log|
  }

  /** The call finds a message, is acknowledged, and retries go to a partition we consume. */
  predicate Enabled(s: Solo, call: Call) {
    && HasNext(s, call.partition)
    && call.choice.delivery.Acknowledged?
    && Partition(Retry, call.choice.index) in s.worker.position
  }

  /** The message a call takes. */
  function SlotOf(s: Solo, p: Partition): nat
    requires HasNext(s, p)
  {
    NextIn(s.world.log, p, s.worker.position[p])
  }

  /** Poll, process to the end, commit. */
  function AfterCall(d: Deployment, s: Solo, call: Call): Solo
    requires Enabled(s, call)
  {
    var (w, k) := WorkerTurn(d, s.world, s.worker, call.partition, call.choice);
    Solo(w, k)
  }

  predicate AllEnabled(d: Deployment, s: Solo, calls: seq<Call>)
    decreases |calls|
  {
    calls == [] || (Enabled(s, calls[0]) && AllEnabled(d, AfterCall(d, s, calls[0]), calls[1..]))
  }

  function AfterCalls(d: Deployment, s: Solo, calls: seq<Call>): Solo
    requires AllEnabled(d, s, calls)
    decreases |calls|
  {
    if calls == [] then s else AfterCalls(d, AfterCall(d, s, calls[0]), calls[1..])
  }

  // ---------------------------------------------------------------- the potential

  /** Process calls a message can still cause. */
  function Weight(d: Deployment, m: Message): (n: nat)
    ensures n >= 1
  {
    if m.Valid? && m.event.attempt < d.maxAttempts then d.maxAttempts - m.event.attempt else 1
  }

  /** Total weight of the uncommitted messages among the first `n`. */
  function Potential(d: Deployment, w: World, n: nat): nat
    requires n <= |w.log|
  {
    if n == 0 then 0
    else Potential(d, w, n - 1) + if w.Uncommitted(n - 1) then Weight(d, w.log[n - 1].message) else 0
  }

  function Backlog(d: Deployment, w: World): nat {
    Potential(d, w, |w.log|)
  }

  lemma {:induction false} SamePotential(d: Deployment, w: World, v: World, n: nat)
    requires n <= |w.log| && w.log <= v.log && w.committed == v.committed
    ensures Potential(d, v, n) == Potential(d, w, n)
  {
    if n == 0 {
    } else {
      SamePotential(d, w, v, n - 1);
      assert w.log[n - 1] == v.log[n - 1];
    }
  }

  /** Committing the first uncommitted message of its partition takes its weight away. */
  lemma {:induction false} CommittedPotential(d: Deployment, w: World, v: World, slot: nat, n: nat)
    requires slot < |w.log| && n <= |w.log| && w.Uncommitted(slot)
    requires v == w.(committed := w.committed[w.log[slot].partition := slot + 1])
    requires forall i :: w.Committed(w.log[slot].partition) <= i < slot ==> w.log[i].partition != w.log[slot].partition
    ensures Potential(d, w, n) == Potential(d, v, n) + if slot < n then Weight(d, w.log[slot].message) else 0
  {
    if n == 0 {
    } else {
      CommittedPotential(d, w, v, slot, n - 1);
      assert n - 1 != slot ==> v.Uncommitted(n - 1) == w.Uncommitted(n - 1);
    }
  }

  // ---------------------------------------------------------------- one call

  /** A step appends nothing to the log but an allowed next attempt. */
  lemma StepLog(d: Deployment, w: World, slot: nat, phase: Phase, c: Choice)
    requires slot < |w.log| && PhaseRight(w, slot, phase) && c.delivery.Acknowledged?
    requires phase.Publishing? ==> NextAttemptAllowed(d, phase.output)
    ensures var (v, onward) := ProcessStep(d, w, phase, c);
            && !onward.Raised? && (onward.Publishing? ==> NextAttemptAllowed(d, onward.output))
            && (v.log == w.log || (phase.Publishing? && IsRetryOf(d, w, v, slot, c)))
            && (phase.Publishing? ==> onward.Saving? || onward.Finished?)
  {
  }

  /** What the rest of the processing of a message adds to the log. */
  lemma {:induction false} EndLog(d: Deployment, w: World, slot: nat, phase: Phase, c: Choice)
    requires UnderWay(d, w, slot, phase) && c.delivery.Acknowledged?
    ensures var (v, end) := ProcessEnd(d, w, phase, c);
            && end.Finished? && UnderWay(d, v, slot, end)
            && v.committed == w.committed && w.log <= v.log
            && (v.log == w.log || IsRetryOf(d, w, v, slot, c))
    decreases phase.Rank()
  {
    if phase.Finished? {
    } else {
      var (next, onward) := ProcessStep(d, w, phase, c);
      UnderWayStep(d, w, slot, phase, c);
      assert onward.Rank() < phase.Rank() && ProcessEnd(d, w, phase, c) == ProcessEnd(d, next, onward, c);
      EndLog(d, next, slot, onward, c);
      if phase.Publishing? { NothingAfterSave(d, next, onward, c); }
      else { RetrySame(d, w, next, ProcessEnd(d, w, phase, c).0, slot, c); }
    }
  }

  /** A message in processing, with a publish to come only of an allowed attempt. */
  ghost predicate UnderWay(d: Deployment, w: World, slot: nat, phase: Phase) {
    && WorldOk(d, w) && slot < |w.log| && w.Uncommitted(slot) && PhaseRight(w, slot, phase)
    && (phase.Publishing? ==> NextAttemptAllowed(d, phase.output))
  }

  lemma RetrySame(d: Deployment, w: World, next: World, v: World, slot: nat, c: Choice)
    requires slot < |w.log| && next.log == w.log && (v.log == next.log || IsRetryOf(d, next, v, slot, c))
    ensures v.log == w.log || IsRetryOf(d, w, v, slot, c)
  {
  }

  lemma UnderWayStep(d: Deployment, w: World, slot: nat, phase: Phase, c: Choice)
    requires UnderWay(d, w, slot, phase) && c.delivery.Acknowledged?
    ensures var (v, onward) := ProcessStep(d, w, phase, c);
            && UnderWay(d, v, slot, onward)
            && v.committed == w.committed && w.log <= v.log && v.log[slot] == w.log[slot]
            && (v.log == w.log || (phase.Publishing? && IsRetryOf(d, w, v, slot, c)))
            && (phase.Publishing? ==> onward.Saving? || onward.Finished?)
  {
    StepRight(d, w, slot, phase, c);
    StepLog(d, w, slot, phase, c);
  }

  predicate NextAttemptAllowed(d: Deployment, o: Output) {
    o.RetryOut? ==> o.event.attempt < d.maxAttempts
  }

  /** The log gained the next attempt of the message at `slot`. */
  predicate IsRetryOf(d: Deployment, w: World, v: World, slot: nat, c: Choice)
    requires slot < |w.log|
  {
    && w.log[slot].message.Valid?
    && var e := w.log[slot].message.event;
    && e.attempt + 1 < d.maxAttempts
    && v.log == w.log + [Entry(Partition(Retry, c.index), Valid(e.(attempt := e.attempt + 1)), true)]
  }

  lemma NothingAfterSave(d: Deployment, w: World, phase: Phase, c: Choice)
    requires phase.Saving? || phase.Finished?
    ensures ProcessEnd(d, w, phase, c).0.log == w.log
  {
    if phase.Saving? {
      var (next, onward) := ProcessStep(d, w, phase, c);
      assert ProcessEnd(d, w, phase, c) == ProcessEnd(d, next, onward, c);
    }
  }

  /** The worker is idle and consumes every partition that holds a message. */
  predicate CoversLog(s: Solo) {
    s.worker.Idle? && forall i :: 0 <= i < |s.world.log| ==> s.world.log[i].partition in s.worker.position
  }

  ghost predicate Drainable(d: Deployment, s: Solo) {
    SoloInv(d, s) && CoversLog(s)
  }

  /** The poll of a call takes the message into hand. */
  lemma CallPolls(d: Deployment, s: Solo, call: Call)
    requires Drainable(d, s) && Enabled(s, call)
    ensures var slot := SlotOf(s, call.partition); var moved := s.worker.position[call.partition := slot + 1];
            var phase := Receive(s.world.log[slot], slot);
            && WorkerNext(d, s.world, s.worker, Poll(call.partition)) == (s.world, Busy(moved, slot, phase))
            && InHand(s.world, moved, slot) && UnderWay(d, s.world, slot, phase)
  {
    PollRight(d, s, call.partition);
  }

  /** The state after the commit of a processed message. */
  function Settled(d: Deployment, v: World, position: map<Partition, nat>, slot: nat): Solo {
    var (t, k) := WorkerNext(d, v, Busy(position, slot, Finished), Commit);
    Solo(t, k)
  }

  /** The commit of a call. */
  lemma CallCommits(d: Deployment, v: World, position: map<Partition, nat>, slot: nat)
    requires InHand(v, position, slot) && UnderWay(d, v, slot, Finished)
    ensures SoloInv(d, Settled(d, v, position, slot))
    ensures Settled(d, v, position, slot)
         == Solo(v.(committed := v.committed[v.log[slot].partition := slot + 1]), Idle(position))
  {
    CommitRight(d, Solo(v, Busy(position, slot, Finished)));
  }

  /** The message processed to the end, before the commit. */
  function Processed(d: Deployment, s: Solo, call: Call): World
    requires Enabled(s, call)
  {
    var slot := SlotOf(s, call.partition);
    ProcessEnd(d, s.world, Receive(s.world.log[slot], slot), call.choice).0
  }

  lemma CallProcesses(d: Deployment, s: Solo, call: Call)
    requires Drainable(d, s) && Enabled(s, call)
    ensures var slot := SlotOf(s, call.partition); var w, v := s.world, Processed(d, s, call);
            && w.log <= v.log && v.committed == w.committed && w.Uncommitted(slot)
            && (v.log == w.log || IsRetryOf(d, w, v, slot, call.choice))
            && InHand(v, s.worker.position[call.partition := slot + 1], slot) && UnderWay(d, v, slot, Finished)
    ensures ProcessEnd(d, s.world, Receive(s.world.log[SlotOf(s, call.partition)], SlotOf(s, call.partition)),
                       call.choice).1.Finished?
  {
    var slot := SlotOf(s, call.partition);
    var moved, phase := s.worker.position[call.partition := slot + 1], Receive(s.world.log[slot], slot);
    CallPolls(d, s, call);
    EndLog(d, s.world, slot, phase, call.choice);
    HandStays(s.world, Processed(d, s, call), moved, slot);
  }

  /** A call is processing and the commit. */
  lemma CallIsCommit(d: Deployment, s: Solo, call: Call)
    requires Drainable(d, s) && Enabled(s, call)
    requires ProcessEnd(d, s.world, Receive(s.world.log[SlotOf(s, call.partition)], SlotOf(s, call.partition)),
                        call.choice).1.Finished?
    ensures var slot := SlotOf(s, call.partition);
            AfterCall(d, s, call)
            == Settled(d, Processed(d, s, call), s.worker.position[call.partition := slot + 1], slot)
  {
  }

  /** A call in pieces: `v` is the world once the message is processed, `t` the state
      after the commit. */
  ghost predicate IsSplit(d: Deployment, s: Solo, call: Call, v: World, t: Solo)
    requires Enabled(s, call)
  {
    var slot, w := SlotOf(s, call.partition), s.world;
    && w.log <= v.log && v.committed == w.committed && w.Uncommitted(slot)
    && (v.log == w.log || IsRetryOf(d, w, v, slot, call.choice))
    && InHand(v, s.worker.position[call.partition := slot + 1], slot) && UnderWay(d, v, slot, Finished)
    && t == Settled(d, v, s.worker.position[call.partition := slot + 1], slot)
  }

  lemma CallSplits(d: Deployment, s: Solo, call: Call)
    requires Drainable(d, s) && Enabled(s, call)
    ensures IsSplit(d, s, call, Processed(d, s, call), AfterCall(d, s, call))
  {
    CallProcesses(d, s, call);
    CallIsCommit(d, s, call);
  }

  /** What a processed message leaves in the log weighs less than the message. */
  lemma ProcessedPotential(d: Deployment, w: World, v: World, slot: nat, c: Choice)
    requires slot < |w.log| && w.log <= v.log && v.committed == w.committed
    requires v.log == w.log || IsRetryOf(d, w, v, slot, c)
    ensures Backlog(d, v) < Backlog(d, w) + Weight(d, w.log[slot].message)
  {
    if v.log == w.log { SamePotential(d, w, v, |w.log|); } else { RetryPotential(d, w, v, slot, c); }
  }

  lemma CallCovers(d: Deployment, s: Solo, t: Solo, slot: nat, call: Call)
    requires CoversLog(s) && Enabled(s, call) && slot < |s.world.log|
    requires t.world.log == s.world.log || IsRetryOf(d, s.world, t.world, slot, call.choice)
    requires t.worker == Idle(s.worker.position[call.partition := slot + 1])
    ensures CoversLog(t) && t.worker.position.Keys == s.worker.position.Keys
  {
    forall i | 0 <= i < |t.world.log| ensures t.world.log[i].partition in t.worker.position {
      if i < |s.world.log| { assert t.world.log[i] == s.world.log[i]; }
    }
  }

  /** The state is drainable, for the same partitions, and has less to do. */
  ghost predicate Closer(d: Deployment, s: Solo, t: Solo)
    requires s.worker.Idle?
  {
    && Drainable(d, t) && t.worker.position.Keys == s.worker.position.Keys
    && Backlog(d, t.world) < Backlog(d, s.world)
  }

  /** Committing a processed message leaves less to do than there was before the poll. */
  lemma SplitDrains(d: Deployment, s: Solo, call: Call, v: World, t: Solo)
    requires Drainable(d, s) && Enabled(s, call) && IsSplit(d, s, call, v, t)
    ensures Closer(d, s, t)
  {
    var slot := SlotOf(s, call.partition);
    CallCommits(d, v, s.worker.position[call.partition := slot + 1], slot);
    assert v.log[slot] == s.world.log[slot];
    ProcessedPotential(d, s.world, v, slot, call.choice);
    CallCovers(d, s, t, slot, call);
    CommittedPotential(d, v, t.world, slot, |v.log|);
  }

  /** A call keeps the state drainable and lowers the potential. */
  lemma CallDrains(d: Deployment, s: Solo, call: Call)
    requires Drainable(d, s) && Enabled(s, call)
    ensures Closer(d, s, AfterCall(d, s, call))
  {
    CallSplits(d, s, call);
    SplitDrains(d, s, call, Processed(d, s, call), AfterCall(d, s, call));
  }

  lemma RetryPotential(d: Deployment, w: World, v: World, slot: nat, c: Choice)
    requires slot < |w.log| && IsRetryOf(d, w, v, slot, c) && v.committed == w.committed
    ensures Backlog(d, v) <= Backlog(d, w) + Weight(d, w.log[slot].message) - 1
  {
    SamePotential(d, w, v, |w.log|);
  }

  // ---------------------------------------------------------------- the theorem

  lemma {:induction false} CallsDrain(d: Deployment, s: Solo, calls: seq<Call>)
    requires Drainable(d, s) && AllEnabled(d, s, calls)
    ensures Drainable(d, AfterCalls(d, s, calls))
    ensures |calls| + Backlog(d, AfterCalls(d, s, calls).world) <= Backlog(d, s.world)
    decreases |calls|
  {
    if calls == [] {
    } else {
      CallDrains(d, s, calls[0]);
      CallsDrain(d, AfterCall(d, s, calls[0]), calls[1..]);
    }
  }

  /** While something is uncommitted there is a message to poll. */
  lemma WorkLeft(d: Deployment, s: Solo, i: nat)
    requires Drainable(d, s) && i < |s.world.log| && s.world.Uncommitted(i)
    ensures HasNext(s, s.world.log[i].partition)
  {
  }

  predicate AllDone(s: Solo) {
    forall j :: j in s.world.store ==> s.world.store[j].job.state.Succeeded? || s.world.store[j].job.state.Failed?
  }

  /** Uncommitted messages among the first `n`. */
  function Waiting(w: World, n: nat): nat
    requires n <= |w.log|
  {
    if n == 0 then 0 else Waiting(w, n - 1) + if w.Uncommitted(n - 1) then 1 else 0
  }

  lemma OneMore(a: nat, m: int)
    ensures (a + 1) * m == a * m + m
  {
  }

  lemma {:induction false} PotentialBound(d: Deployment, w: World, n: nat)
    requires n <= |w.log| && d.maxAttempts >= 1
    ensures Potential(d, w, n) <= Waiting(w, n) * d.maxAttempts
  {
    if n == 0 {
    } else {
      PotentialBound(d, w, n - 1);
      OneMore(Waiting(w, n - 1), d.maxAttempts);
    }
  }

  /** From any state a run can reach, with the worker idle on all partitions that hold
      messages: any order of process calls stops after at most `max_attempts` calls per
      waiting message, and where it stops every job has succeeded or failed. */
  lemma DrainingEnds(d: Deployment, actions: seq<SoloAction>, calls: seq<Call>)
    requires d.maxAttempts >= 1
    requires CoversLog(SoloRun(d, EMPTY, actions)) && AllEnabled(d, SoloRun(d, EMPTY, actions), calls)
    ensures var w := SoloRun(d, EMPTY, actions).world; |calls| <= Waiting(w, |w.log|) * d.maxAttempts
    ensures var t := AfterCalls(d, SoloRun(d, EMPTY, actions), calls);
            CoversLog(t) && ((forall p :: p in t.worker.position ==> !HasNext(t, p)) ==> AllDone(t))
  {
    var s := SoloRun(d, EMPTY, actions);
    SoloKeeps(d, EMPTY, actions);
    CallsDrain(d, s, calls);
    PotentialBound(d, s.world, |s.world.log|);
    var t := AfterCalls(d, s, calls);
    if forall p :: p in t.worker.position ==> !HasNext(t, p) {
      forall j | j in t.world.store ensures t.world.store[j].job.state.Succeeded? || t.world.store[j].job.state.Failed? {
        assert Honest(t.world, t.world.store[j]);
        if Unfinished(t.world.store[j]) {
          var i :| 0 <= i < |t.world.log| && IsEvent(t.world, i, j) && t.world.Uncommitted(i);
          WorkLeft(d, t, i);
        }
      }
    }
  }
}
