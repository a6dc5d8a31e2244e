/** The ledger: what replay accepts, and what the last hash of a case pins down. */
module LedgerLaws {
  import opened ReviewModel

  /** The events written under a case id, in file order, whatever lies between them. */
  function EventsOf(ledger: seq<Line>, id: string): seq<Event> {
    if ledger == [] then []
    else
      var last := ledger[|ledger| - 1];
      EventsOf(ledger[..|ledger| - 1], id)
      + if last.Written? && last.record.subject.caseId == id then [last.record.event] else []
  }

  /** Event `k` of a chain: its number, its digest and its link to the event before. */
  ghost predicate Linked(d: Scheme, events: seq<Event>, k: nat)
    requires k < |events|
  {
    && events[k].payload.sequence == k + 1
    && events[k].hash == d.digest(events[k].payload)
    && events[k].payload.previousHash == if k == 0 then GENESIS else events[k - 1].hash
  }

  ghost predicate IsChain(d: Scheme, events: seq<Event>) {
    forall k :: 0 <= k < |events| ==> Linked(d, events, k)
  }

  predicate AllReadable(ledger: seq<Line>) {
    forall i :: 0 <= i < |ledger| ==> !ledger[i].Malformed?
  }

  ghost predicate AllChained(d: Scheme, ledger: seq<Line>) {
    forall id :: IsChain(d, EventsOf(ledger, id))
  }

  /** The checks of replay: the event continues these. */
  predicate Extends(d: Scheme, events: seq<Event>, e: Event) {
    && e.payload.sequence == |events| + 1
    && e.hash == d.digest(e.payload)
    && e.payload.previousHash == LastHash(events)
  }

  lemma ChainGrows(d: Scheme, events: seq<Event>, e: Event)
    ensures IsChain(d, events + [e]) <==> IsChain(d, events) && Extends(d, events, e)
  {
    var longer := events + [e];
    assert forall k :: 0 <= k < |events| ==> Linked(d, longer, k) == Linked(d, events, k);
    assert Linked(d, longer, |events|) <==> Extends(d, events, e);
  }

  /** Replay accepts a ledger exactly when every line can be read and the events of each
      case id form a chain, however the cases interleave; the projection then holds
      exactly these events. */
  lemma {:induction false} AcceptsExactlyChains(d: Scheme, ledger: seq<Line>)
    ensures Replay(d, ledger).Ok? <==> AllReadable(ledger) && AllChained(d, ledger)
    ensures Replay(d, ledger).Ok? ==> forall id :: Replay(d, ledger).value.Audit(id) == EventsOf(ledger, id)
  {
    if ledger == [] {
      forall id ensures IsChain(d, EventsOf(ledger, id)) { assert EventsOf(ledger, id) == []; }
    } else {
      var shorter, last := ledger[..|ledger| - 1], ledger[|ledger| - 1];
      AcceptsExactlyChains(d, shorter);
      assert ledger == shorter + [last];
      AcceptsLine(d, shorter, last);
    }
  }

  /** One more line. */
  lemma AcceptsLine(d: Scheme, ledger: seq<Line>, last: Line)
    requires Replay(d, ledger).Ok? <==> AllReadable(ledger) && AllChained(d, ledger)
    requires Replay(d, ledger).Ok? ==> forall id :: Replay(d, ledger).value.Audit(id) == EventsOf(ledger, id)
    ensures var longer := ledger + [last];
            && (Replay(d, longer).Ok? <==> AllReadable(longer) && AllChained(d, longer))
            && (Replay(d, longer).Ok? ==> forall id :: Replay(d, longer).value.Audit(id) == EventsOf(longer, id))
  {
    var longer := ledger + [last];
    assert longer[..|longer| - 1] == ledger && longer[|longer| - 1] == last;
    ReadableGrows(ledger, last);
    ChainedGrows(d, ledger, last);
    if Replay(d, longer).Ok? { AuditGrows(d, ledger, last); }
  }

  lemma AuditGrows(d: Scheme, ledger: seq<Line>, last: Line)
    requires Replay(d, ledger).Ok? && Replay(d, ledger + [last]).Ok?
    requires forall id :: Replay(d, ledger).value.Audit(id) == EventsOf(ledger, id)
    ensures forall id :: Replay(d, ledger + [last]).value.Audit(id) == EventsOf(ledger + [last], id)
  {
    var longer := ledger + [last];
    assert longer[..|longer| - 1] == ledger && longer[|longer| - 1] == last;
  }

  lemma ReadableGrows(ledger: seq<Line>, line: Line)
    ensures AllReadable(ledger + [line]) <==> AllReadable(ledger) && !line.Malformed?
  {
    assert (ledger + [line])[|ledger|] == line;
    forall i | 0 <= i < |ledger| ensures (ledger + [line])[i] == ledger[i] {
    }
  }

  lemma ChainedAt(d: Scheme, ledger: seq<Line>, line: Line, id: string)
    ensures IsChain(d, EventsOf(ledger + [line], id)) <==> StillChained(d, ledger, line, id)
  {
    var longer := ledger + [line];
    assert longer[..|longer| - 1] == ledger;
    if line.Written? && line.record.subject.caseId == id { ChainGrows(d, EventsOf(ledger, id), line.record.event); }
    else { assert EventsOf(longer, id) == EventsOf(ledger, id); }
  }

  lemma ChainedGrows(d: Scheme, ledger: seq<Line>, line: Line)
    ensures AllChained(d, ledger + [line])
       <==> AllChained(d, ledger) && (line.Written? ==> Extends(d, EventsOf(ledger, line.record.subject.caseId), line.record.event))
  {
    if AllChained(d, ledger + [line]) {
      forall id ensures IsChain(d, EventsOf(ledger, id)) { ChainedAt(d, ledger, line, id); }
      if line.Written? { ChainedAt(d, ledger, line, line.record.subject.caseId); }
    }
    if AllChained(d, ledger) && (line.Written? ==> Extends(d, EventsOf(ledger, line.record.subject.caseId), line.record.event)) {
      forall id ensures IsChain(d, EventsOf(ledger + [line], id)) { ChainedAt(d, ledger, line, id); }
    }
  }

  ghost predicate StillChained(d: Scheme, ledger: seq<Line>, line: Line, id: string) {
    && IsChain(d, EventsOf(ledger, id))
    && (line.Written? && line.record.subject.caseId == id ==> Extends(d, EventsOf(ledger, id), line.record.event))
  }

  // ---------------------------------------------------------------- the last hash

  ghost predicate InjectiveDigest(d: Scheme) {
    forall x, y :: d.digest(x) == d.digest(y) ==> x == y
  }

  /** Two chains that end in the same hash are the same chain. */
  lemma {:induction false} ChainsAgree(d: Scheme, a: seq<Event>, b: seq<Event>)
    requires InjectiveDigest(d) && IsChain(d, a) && IsChain(d, b)
    requires a != [] && b != [] && LastHash(a) == LastHash(b)
    ensures a == b
    decreases |a|
  {
    var m, n := |a| - 1, |b| - 1;
    assert Linked(d, a, m) && Linked(d, b, n);
    assert a[m] == b[n];
    assert a == a[..m] + [a[m]] && b == b[..n] + [b[n]];
    if m == 0 {
    } else {
      ChainPrefix(d, a, m);
      ChainPrefix(d, b, n);
      ChainsAgree(d, a[..m], b[..n]);
    }
  }

  lemma ChainPrefix(d: Scheme, events: seq<Event>, n: nat)
    requires IsChain(d, events) && n <= |events|
    ensures IsChain(d, events[..n])
  {
    forall k | 0 <= k < n ensures Linked(d, events[..n], k) {
      assert Linked(d, events, k);
    }
  }

  /** Tampering shows: two accepted ledgers with the same last hash for a case hold the
      same events for it, in the same order. */
  lemma LastHashPinsHistory(d: Scheme, ledger: seq<Line>, other: seq<Line>, id: string)
    requires InjectiveDigest(d) && Replay(d, ledger).Ok? && Replay(d, other).Ok?
    requires EventsOf(ledger, id) != [] && EventsOf(other, id) != []
    requires LastHash(EventsOf(ledger, id)) == LastHash(EventsOf(other, id))
    ensures EventsOf(ledger, id) == EventsOf(other, id)
  {
    AcceptsExactlyChains(d, ledger);
    AcceptsExactlyChains(d, other);
    ChainsAgree(d, EventsOf(ledger, id), EventsOf(other, id));
  }

  // ---------------------------------------------------------------- where replay stops

  /** A refused ledger is refused at the first line that cannot follow the lines before
      it, and the report tells that line and why. */
  lemma {:induction false} StopsAtFirstFault(d: Scheme, ledger: seq<Line>)
    requires Replay(d, ledger).Err?
    ensures var n := Replay(d, ledger).error.line;
            && 1 <= n <= |ledger| && Replay(d, ledger[..n - 1]).Ok?
            && FaultOf(d, ledger[..n - 1], ledger[n - 1], Replay(d, ledger).error)
  {
    var shorter := ledger[..|ledger| - 1];
    if Replay(d, shorter).Err? {
      StopsAtFirstFault(d, shorter);
      var n := Replay(d, shorter).error.line;
      assert shorter[..n - 1] == ledger[..n - 1];
    } else {
      AcceptsExactlyChains(d, shorter);
    }
  }

  /** Why a line cannot follow: it cannot be read, its link or digest is wrong, or only its
      number is. */
  ghost predicate FaultOf(d: Scheme, before: seq<Line>, line: Line, fault: Fault) {
    match fault
    case InvalidRecord(_) => line.Malformed?
    case IntegrityFailure(_) =>
      line.Written? && (line.record.event.hash != d.digest(line.record.event.payload)
        || line.record.event.payload.previousHash != LastHash(EventsOf(before, line.record.subject.caseId)))
    case SequenceFailure(_) =>
      line.Written? && line.record.event.hash == d.digest(line.record.event.payload)
      && line.record.event.payload.previousHash == LastHash(EventsOf(before, line.record.subject.caseId))
      && line.record.event.payload.sequence != |EventsOf(before, line.record.subject.caseId)| + 1
  }
}
