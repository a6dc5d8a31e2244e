/** Where everything in the topics comes from: every response from the engine's verdict on
    an event of its job, and every event and dead letter from a submission. */
module Provenance {
  import opened JobPipeline
  import opened Wrappers
  import opened NoLoss
  import opened SubmissionAccounts

  /** A response the engine gave for a job, and a request that was submitted for one. */
  datatype Verdict = Verdict(jobId: string, response: Response)
  datatype Order = Order(jobId: string, request: Request)

  datatype Sources = Sources(verdicts: set<Verdict>, orders: set<Order>)

  /** What a step makes known: a verdict on the event in hand, or a request with its id. */
  function Learn(d: Deployment, s: System, a: Action): Sources {
    match a
    case WorkerActs(k, Work(c)) =>
      if k in s.workers && s.workers[k].Busy? && s.workers[k].phase.Moderating? && c.verdict.Some? then
        Sources({Verdict(s.workers[k].phase.event.jobId, c.verdict.value)}, {})
      else Sources({}, {})
    case Submits(_, r, newId) =>
      var id := if r.requestId.Some? then r.requestId.value else newId;
      Sources({}, {Order(d.jobId(id), Request(r.text, Some(id)))})
    case _ => Sources({}, {})
  }

  function SourcesOf(d: Deployment, actions: seq<Action>): Sources {
    if actions == [] then Sources({}, {})
    else
      var n := |actions| - 1;
      var before, now := SourcesOf(d, actions[..n]), Learn(d, Run(d, actions[..n]), actions[n]);
      Sources(before.verdicts + now.verdicts, before.orders + now.orders)
  }

  // ---------------------------------------------------------------- what has a source

  predicate EventTrue(g: Sources, e: Event) {
    Order(e.jobId, e.request) in g.orders
  }

  predicate CopyTrue(g: Sources, u: StoredJob) {
    u.job.result.Some? ==> Verdict(u.job.jobId, u.job.result.value) in g.verdicts
  }

  predicate ResultTrue(g: Sources, r: ResultRecord) {
    Verdict(r.jobId, r.response) in g.verdicts
  }

  /** A dead letter of a job names the job and the id of a submitted request. */
  ghost predicate LetterTrue(g: Sources, l: DeadLetter) {
    l.DeadJob? ==> exists x :: x in g.orders && x.jobId == l.jobId && x.request.requestId == l.requestId
  }

  ghost predicate OutputTrue(g: Sources, o: Output) {
    match o
    case InputOut(e) => EventTrue(g, e)
    case RetryOut(e) => EventTrue(g, e)
    case ResultOut(r) => ResultTrue(g, r)
    case DeadOut(l) => LetterTrue(g, l)
  }

  ghost predicate WorldTrue(g: Sources, w: World) {
    && (forall j :: j in w.store ==> CopyTrue(g, w.store[j]))
    && (forall i :: 0 <= i < |w.log| && w.log[i].message.Valid? ==> EventTrue(g, w.log[i].message.event))
    && (forall k :: 0 <= k < |w.results| ==> ResultTrue(g, w.results[k]))
    && (forall k :: 0 <= k < |w.dead| ==> LetterTrue(g, w.dead[k]))
    && (forall k :: 0 <= k < |w.pending| ==> OutputTrue(g, w.pending[k].output))
  }

  ghost predicate PhaseTrue(g: Sources, phase: Phase) {
    match phase
    case Fetching(e) => EventTrue(g, e)
    case Marking(e, u) => EventTrue(g, e) && CopyTrue(g, u)
    case Moderating(e, u) => EventTrue(g, e) && CopyTrue(g, u)
    case Publishing(o, after) => OutputTrue(g, o) && (after.Some? ==> CopyTrue(g, after.value))
    case Saving(u) => CopyTrue(g, u)
    case _ => true
  }

  ghost predicate WorkerTrue(g: Sources, k: Worker) {
    k.Busy? ==> PhaseTrue(g, k.phase)
  }

  predicate ClientTrue(g: Sources, c: Submission) {
    match c
    case Creating(job, e) => EventTrue(g, e) && CopyTrue(g, job)
    case Checking(job, e) => EventTrue(g, e) && CopyTrue(g, job)
    case Queueing(job, e, accepted) =>
      EventTrue(g, e) && CopyTrue(g, job) && (accepted.Some? ==> CopyTrue(g, accepted.value))
    case Storing(u, _) => CopyTrue(g, u)
    case Answered(_) => true
  }

  ghost predicate AllTrue(g: Sources, s: System) {
    && WorldTrue(g, s.world)
    && (forall k :: k in s.workers ==> WorkerTrue(g, s.workers[k]))
    && (forall k :: k in s.clients ==> ClientTrue(g, s.clients[k]))
  }

  // ---------------------------------------------------------------- sources only grow

  predicate More(g: Sources, h: Sources) {
    g.verdicts <= h.verdicts && g.orders <= h.orders
  }

  lemma OutputStays(g: Sources, h: Sources, o: Output)
    requires More(g, h) && OutputTrue(g, o)
    ensures OutputTrue(h, o)
  {
  }

  lemma WorldStays(g: Sources, h: Sources, w: World)
    requires More(g, h) && WorldTrue(g, w)
    ensures WorldTrue(h, w)
  {
    forall k | 0 <= k < |w.pending| ensures OutputTrue(h, w.pending[k].output) {
      OutputStays(g, h, w.pending[k].output);
    }
    forall i | 0 <= i < |w.log| && w.log[i].message.Valid? ensures EventTrue(h, w.log[i].message.event) {
      assert EventTrue(g, w.log[i].message.event);
    }
    forall k | 0 <= k < |w.results| ensures ResultTrue(h, w.results[k]) { assert ResultTrue(g, w.results[k]); }
    forall k | 0 <= k < |w.dead| ensures LetterTrue(h, w.dead[k]) { OutputStays(g, h, DeadOut(w.dead[k])); }
  }

  lemma PhaseStaysTrue(g: Sources, h: Sources, phase: Phase)
    requires More(g, h) && PhaseTrue(g, phase)
    ensures PhaseTrue(h, phase)
  {
    if phase.Publishing? { OutputStays(g, h, phase.output); }
  }

  lemma AllStay(g: Sources, h: Sources, s: System)
    requires More(g, h) && AllTrue(g, s)
    ensures AllTrue(h, s)
  {
    WorldStays(g, h, s.world);
    forall k | k in s.workers ensures WorkerTrue(h, s.workers[k]) {
      if s.workers[k].Busy? { PhaseStaysTrue(g, h, s.workers[k].phase); }
    }
    forall k | k in s.clients ensures ClientTrue(h, s.clients[k]) { assert ClientTrue(g, s.clients[k]); }
  }

  // ---------------------------------------------------------------- the steps

  lemma AppendTrue(g: Sources, w: World, o: Output, index: nat, acknowledged: bool)
    requires WorldTrue(g, w) && OutputTrue(g, o)
    ensures WorldTrue(g, Append(w, o, index, acknowledged))
  {
  }

  lemma PublishTrue(g: Sources, w: World, o: Output, c: Choice)
    requires WorldTrue(g, w) && OutputTrue(g, o)
    ensures WorldTrue(g, Publish(w, o, c))
  {
    AppendTrue(g, w, o, c.index, true);
  }

  lemma ArriveTrue(g: Sources, w: World, k: nat)
    requires WorldTrue(g, w)
    ensures WorldTrue(g, Arrive(w, k))
  {
    if k < |w.pending| {
      var shorter := w.(pending := w.pending[..k] + w.pending[k + 1..]);
      assert forall i :: 0 <= i < |shorter.pending| ==> shorter.pending[i] in w.pending;
      AppendTrue(g, shorter, w.pending[k].output, w.pending[k].index, false);
    }
  }

  lemma SaveTrue(d: Deployment, g: Sources, w: World, u: StoredJob)
    requires WorldTrue(g, w) && CopyTrue(g, u)
    ensures WorldTrue(g, Save(d.store, w, u))
  {
  }

  lemma LetterOfEvent(g: Sources, e: Event, errorCode: string)
    requires EventTrue(g, e)
    ensures LetterTrue(g, Letter(e, errorCode))
  {
  }

  /** The engine's verdict goes into the output and into the record as it is. */
  lemma ModeratingTrue(d: Deployment, g: Sources, w: World, e: Event, u: StoredJob, c: Choice)
    requires EventTrue(g, e) && CopyTrue(g, u) && e.jobId == u.job.jobId
    requires c.verdict.Some? ==> Verdict(e.jobId, c.verdict.value) in g.verdicts
    ensures PhaseTrue(g, ProcessStep(d, w, Moderating(e, u), c).1)
  {
    LetterOfEvent(g, e, EXHAUSTED);
  }

  lemma ProcessTrue(d: Deployment, g: Sources, w: World, phase: Phase, c: Choice)
    requires WorldTrue(g, w) && PhaseTrue(g, phase) && PhaseSound(d, w, phase)
    requires phase.Moderating? && c.verdict.Some? ==> Verdict(phase.event.jobId, c.verdict.value) in g.verdicts
    ensures var (v, n) := ProcessStep(d, w, phase, c); WorldTrue(g, v) && PhaseTrue(g, n)
  {
    match phase
    case Fetching(e) => LetterOfEvent(g, e, MISSING_STATE);
    case Marking(_, u) => SaveTrue(d, g, w, u);
    case Moderating(e, u) => ModeratingTrue(d, g, w, e, u, c);
    case Publishing(o, _) => PublishTrue(g, w, o, c);
    case Saving(u) => SaveTrue(d, g, w, u);
    case _ =>
  }

  lemma WorkTrue(d: Deployment, g: Sources, w: World, k: Worker, a: WorkerAction)
    requires WorldTrue(g, w) && WorkerTrue(g, k) && WorkerSound(d, w, k)
    requires a.Work? && k.Busy? && k.phase.Moderating? && a.choice.verdict.Some? ==>
               Verdict(k.phase.event.jobId, a.choice.verdict.value) in g.verdicts
    ensures var (v, n) := WorkerNext(d, w, k, a); WorldTrue(g, v) && WorkerTrue(g, n)
  {
    if a.Work? && k.Busy? { ProcessTrue(d, g, w, k.phase, a.choice); }
    if a.Poll? && k.Idle? && a.partition in k.position {
      var i := NextIn(w.log, a.partition, k.position[a.partition]);
      if i < |w.log| && w.log[i].message.Valid? { assert EventTrue(g, w.log[i].message.event); }
    }
  }

  lemma SubmitTrue(d: Deployment, g: Sources, w: World, s: Submission, c: Choice)
    requires WorldTrue(g, w) && ClientTrue(g, s)
    ensures var (v, n) := SubmitStep(d, w, s, c); WorldTrue(g, v) && ClientTrue(g, n)
  {
    match s
    case Queueing(_, e, _) => PublishTrue(g, w, InputOut(e), c);
    case Storing(u, _) => SaveTrue(d, g, w, u);
    case _ =>
  }

  lemma WorkerActsTrue(d: Deployment, g: Sources, h: Sources, s: System, k: nat, action: WorkerAction)
    requires Sound(d, s) && AllTrue(g, s) && More(g, h) && More(Learn(d, s, WorkerActs(k, action)), h)
    ensures AllTrue(h, Next(d, s, WorkerActs(k, action)))
  {
    AllStay(g, h, s);
    var worker := WorkerAt(s, k);
    if action.Work? && k in s.workers && worker.Busy? && worker.phase.Moderating? && action.choice.verdict.Some? {
      assert Verdict(worker.phase.event.jobId, action.choice.verdict.value)
             in Learn(d, s, WorkerActs(k, action)).verdicts;
    }
    WorkTrue(d, h, s.world, worker, action);
  }

  lemma ClientActsTrue(d: Deployment, h: Sources, s: System, k: nat, c: Choice)
    requires AllTrue(h, s)
    ensures AllTrue(h, Next(d, s, ClientActs(k, c)))
  {
    if k in s.clients { SubmitTrue(d, h, s.world, s.clients[k], c); }
  }

  lemma SubmitsTrue(d: Deployment, h: Sources, s: System, k: nat, r: Request, newId: string)
    requires AllTrue(h, s) && More(Learn(d, s, Submits(k, r, newId)), h)
    ensures AllTrue(h, Next(d, s, Submits(k, r, newId)))
  {
    var id := if r.requestId.Some? then r.requestId.value else newId;
    assert Order(d.jobId(id), Request(r.text, Some(id))) in Learn(d, s, Submits(k, r, newId)).orders;
    assert ClientTrue(h, Begin(d, r, newId));
  }

  lemma StepTrue(d: Deployment, g: Sources, h: Sources, s: System, a: Action)
    requires Sound(d, s) && AllTrue(g, s) && More(g, h) && More(Learn(d, s, a), h)
    ensures AllTrue(h, Next(d, s, a))
  {
    AllStay(g, h, s);
    match a
    case WorkerActs(k, action) => WorkerActsTrue(d, g, h, s, k, action);
    case ClientActs(k, c) => ClientActsTrue(d, h, s, k, c);
    case Submits(k, r, newId) => SubmitsTrue(d, h, s, k, r, newId);
    case Arrives(k) => ArriveTrue(h, s.world, k);
    case _ =>
  }

  lemma {:induction false} RunTrue(d: Deployment, actions: seq<Action>)
    ensures AllTrue(SourcesOf(d, actions), Run(d, actions))
  {
    if actions == [] {
    } else {
      var n := |actions| - 1;
      RunTrue(d, actions[..n]);
      RunSound(d, actions[..n]);
      StepTrue(d, SourcesOf(d, actions[..n]), SourcesOf(d, actions), Run(d, actions[..n]), actions[n]);
    }
  }

  // ---------------------------------------------------------------- the laws

  /** Step `i` is a worker's, on an event of the job in the log, and the engine gives this
      response. */
  predicate Answers(d: Deployment, actions: seq<Action>, i: nat, j: string, response: Response) {
    && i < |actions| && actions[i].WorkerActs? && actions[i].action.Work?
    && actions[i].action.choice.verdict == Some(response)
    && var s, k := Run(d, actions[..i]), actions[i].worker;
       && k in s.workers && s.workers[k].Busy? && s.workers[k].phase.Moderating?
       && IsEvent(s.world, s.workers[k].slot, j)
       && s.world.log[s.workers[k].slot].message.event == s.workers[k].phase.event
  }

  /** Step `i` submits the request, without an id or with this one. */
  predicate Orders(d: Deployment, actions: seq<Action>, i: nat, j: string, text: string, id: string) {
    && i < |actions| && actions[i].Submits?
    && actions[i].request.text == text && d.jobId(id) == j
    && (actions[i].request.requestId == Some(id) || (actions[i].request.requestId.None? && actions[i].newId == id))
  }

  lemma {:induction false} VerdictGiven(d: Deployment, actions: seq<Action>, x: Verdict) returns (i: nat)
    requires x in SourcesOf(d, actions).verdicts
    ensures Answers(d, actions, i, x.jobId, x.response)
  {
    var n := |actions| - 1;
    if x in SourcesOf(d, actions[..n]).verdicts {
      i := VerdictGiven(d, actions[..n], x);
      assert actions[..n][..i] == actions[..i];
    } else {
      i := n;
      RunKeeps(d, actions[..n]);
      var s := Run(d, actions[..n]);
      assert WorkerOk(s.world, s.workers[actions[n].worker]);
    }
  }

  lemma {:induction false} OrderGiven(d: Deployment, actions: seq<Action>, x: Order) returns (i: nat, id: string)
    requires x in SourcesOf(d, actions).orders
    ensures x.request.requestId == Some(id) && Orders(d, actions, i, x.jobId, x.request.text, id)
  {
    var n := |actions| - 1;
    if x in SourcesOf(d, actions[..n]).orders {
      i, id := OrderGiven(d, actions[..n], x);
    } else {
      i, id := n, x.request.requestId.value;
    }
  }

  /** Every published response is what the engine answered on an event of its job. */
  lemma ResultsAreVerdicts(d: Deployment, actions: seq<Action>, k: nat)
    requires k < |Run(d, actions).world.results|
    ensures var r := Run(d, actions).world.results[k]; exists i :: Answers(d, actions, i, r.jobId, r.response)
  {
    RunTrue(d, actions);
    var r := Run(d, actions).world.results[k];
    assert ResultTrue(SourcesOf(d, actions), r);
    var i := VerdictGiven(d, actions, Verdict(r.jobId, r.response));
  }

  /** So is every stored result. */
  lemma StoredAreVerdicts(d: Deployment, actions: seq<Action>, j: string)
    requires j in Run(d, actions).world.store && Run(d, actions).world.store[j].job.result.Some?
    ensures exists i :: Answers(d, actions, i, j, Run(d, actions).world.store[j].job.result.value)
  {
    RunTrue(d, actions);
    RunSound(d, actions);
    var u := Run(d, actions).world.store[j];
    assert CopyTrue(SourcesOf(d, actions), u);
    var i := VerdictGiven(d, actions, Verdict(j, u.job.result.value));
  }

  /** Every event in the log, retries included, carries the text of a submission and its id,
      the caller's or the new one, and that id names its job. */
  lemma EventsAreSubmitted(d: Deployment, actions: seq<Action>, n: nat, j: string)
    requires IsEvent(Run(d, actions).world, n, j)
    ensures var e := Run(d, actions).world.log[n].message.event;
            e.request.requestId.Some?
            && exists i :: Orders(d, actions, i, j, e.request.text, e.request.requestId.value)
  {
    RunTrue(d, actions);
    var e := Run(d, actions).world.log[n].message.event;
    assert EventTrue(SourcesOf(d, actions), e);
    var i, id := OrderGiven(d, actions, Order(j, e.request));
  }

  /** Every dead letter of a job carries the id of a submission, and that id names the job. */
  lemma LettersAreSubmitted(d: Deployment, actions: seq<Action>, k: nat)
    requires k < |Run(d, actions).world.dead| && Run(d, actions).world.dead[k].DeadJob?
    ensures var l := Run(d, actions).world.dead[k];
            l.requestId.Some? && exists i, text :: Orders(d, actions, i, l.jobId, text, l.requestId.value)
  {
    RunTrue(d, actions);
    var g, l := SourcesOf(d, actions), Run(d, actions).world.dead[k];
    assert LetterTrue(g, l);
    var x :| x in g.orders && x.jobId == l.jobId && x.request.requestId == l.requestId;
    var i, id := OrderGiven(d, actions, x);
    assert Orders(d, actions, i, l.jobId, x.request.text, id);
  }
}
