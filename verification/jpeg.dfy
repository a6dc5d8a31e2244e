/** The JPEG marker walk that reads the image size, against a grammar of what may stand
    in front of a frame header (ITU-T T.81, B.1.1.2, B.1.1.4 and B.2.2). */
module JpegHeaders {

  type Byte = x: int | 0 <= x < 256
  type Bytes = seq<Byte>

  datatype Reason = InvalidSegment | IncompleteFrame | NoDimensions

  datatype Metadata =
    | NotJpeg
    | Dimensions(width: nat, height: nat, animated: bool)
    | Invalid(reason: Reason)

  const START_OF_IMAGE: Bytes := [0xFF, 0xD8]

  predicate IsStandalone(marker: Byte) {
    marker in {0x01, 0xD8, 0xD9} || 0xD0 <= marker <= 0xD7
  }

  predicate IsFrame(marker: Byte) {
    marker in {0xC0, 0xC1, 0xC2, 0xC3, 0xC5, 0xC6, 0xC7, 0xC9, 0xCA, 0xCB, 0xCD, 0xCE, 0xCF}
  }

  function BigEndian(high: Byte, low: Byte): nat {
    high * 256 + low
  }

  // ---------------------------------------------------------------- the walk

  function FillLength(s: Bytes): (n: nat)
    ensures n <= |s|
    ensures forall i :: 0 <= i < n ==> s[i] == 0xFF
    ensures n < |s| ==> s[n] != 0xFF
  {
    if s == [] || s[0] != 0xFF then 0 else 1 + FillLength(s[1..])
  }

  lemma {:induction false} FillLengthFrom(s: Bytes, n: nat)
    requires n <= |s| && forall i :: 0 <= i < n ==> s[i] == 0xFF
    ensures FillLength(s) == n + FillLength(s[n..])
  {
    if n > 0 {
      FillLengthFrom(s[1..], n - 1);
      assert s[1..][n - 1..] == s[n..];
    } else {
      assert s[n..] == s;
    }
  }

  lemma FillLengthIs(s: Bytes, n: nat)
    requires n <= |s| && forall i :: 0 <= i < n ==> s[i] == 0xFF
    requires n < |s| ==> s[n] != 0xFF
    ensures FillLength(s) == n
  {
    FillLengthFrom(s, n);
    assert s[n..] != [] ==> s[n..][0] == s[n];
  }

  /** The answer when the bytes `s` are still to be read. */
  function Walk(s: Bytes): Metadata
    decreases |s|
  {
    if |s| < 4 then Invalid(NoDimensions)
    else if s[0] != 0xFF then Walk(s[1..])
    else
      var n := FillLength(s);
      if n == |s| then Invalid(NoDimensions)
      else if IsStandalone(s[n]) then Walk(s[n + 1..])
      else AtSegment(s[n], s[n + 1..])
  }

  /** The answer at a marker that carries a length, followed by the bytes `t`. */
  function AtSegment(marker: Byte, t: Bytes): Metadata
    decreases |t|
  {
    if |t| < 2 then Invalid(NoDimensions)
    else
      var length := BigEndian(t[0], t[1]);
      if length < 2 || length > |t| then Invalid(InvalidSegment)
      else if IsFrame(marker) then
        if length < 7 then Invalid(IncompleteFrame)
        else Dimensions(BigEndian(t[5], t[6]), BigEndian(t[3], t[4]), false)
      else Walk(t[length..])
  }

  function Inspect(payload: Bytes): Metadata {
    if START_OF_IMAGE <= payload then Walk(payload[2..]) else NotJpeg
  }

  /** The walk after the inner loop has passed the `n` fill bytes of `s`. */
  lemma WalkAfterFill(s: Bytes, n: nat)
    requires |s| >= 4 && 1 <= n <= |s|
    requires forall i :: 0 <= i < n ==> s[i] == 0xFF
    requires n < |s| ==> s[n] != 0xFF
    ensures Walk(s)
         == if n == |s| then Invalid(NoDimensions)
            else if IsStandalone(s[n]) then Walk(s[n + 1..])
            else AtSegment(s[n], s[n + 1..])
  {
    FillLengthIs(s, n);
  }

  /** The frame markers, and the markers without a length, by their codes (ITU-T T.81,
      table B.1). */
  lemma MarkersByCode(marker: Byte)
    ensures IsFrame(marker) <==> 0xC0 <= marker <= 0xCF && marker != 0xC4 && marker != 0xC8 && marker != 0xCC
    ensures IsStandalone(marker) <==> marker == 0x01 || 0xD0 <= marker <= 0xD9
  {
  }

  /** The answer at a segment that comes first: a frame header of any kind, of seven bytes or
      more that are there, gives its height and width, and any other segment is passed over. */
  lemma FirstSegment(marker: Byte, high: Byte, low: Byte, t: Bytes)
    requires marker != 0xFF && marker != 0x01 && !(0xD0 <= marker <= 0xD9)
    requires 2 <= high * 256 + low <= |t| + 2
    ensures var length := high * 256 + low;
            var answer := Inspect([0xFF, 0xD8, 0xFF, marker, high, low] + t);
            if 0xC0 <= marker <= 0xCF && marker !in {0xC4, 0xC8, 0xCC} then
              answer == if length < 7 then Invalid(IncompleteFrame)
                        else Dimensions(t[3] as nat * 256 + t[4] as nat, t[1] as nat * 256 + t[2] as nat, false)
            else answer == Inspect([0xFF, 0xD8] + t[length - 2..])
  {
    var s, u: Bytes := [0xFF, marker, high, low] + t, [high, low] + t;
    var rest := t[high * 256 + low - 2..];
    assert ([0xFF, 0xD8, 0xFF, marker, high, low] + t)[2..] == s && ([0xFF, 0xD8] + rest)[2..] == rest;
    MarkersByCode(marker);
    FillLengthIs(s, 1);
    assert s[2..] == u;
    assert Walk(s) == AtSegment(marker, u);
    FirstLength(marker, high, low, t);
  }

  lemma FirstLength(marker: Byte, high: Byte, low: Byte, t: Bytes)
    requires 2 <= high * 256 + low <= |t| + 2
    ensures var length := high * 256 + low;
            AtSegment(marker, [high, low] + t)
            == if !IsFrame(marker) then Walk(t[length - 2..])
               else if length < 7 then Invalid(IncompleteFrame)
               else Dimensions(t[3] as nat * 256 + t[4] as nat, t[1] as nat * 256 + t[2] as nat, false)
  {
    assert ([high, low] + t)[high * 256 + low..] == t[high * 256 + low - 2..];
  }

  method JpegMetadata(payload: Bytes) returns (r: Metadata)
    ensures r == Inspect(payload)
  {
    if !(START_OF_IMAGE <= payload) { return NotJpeg; }
    r := ReadSize(payload);
  }

  lemma SkipByte(payload: Bytes, p: nat)
    requires p + 4 <= |payload| && payload[p] != 0xFF
    ensures Walk(payload[p..]) == Walk(payload[p + 1..])
  {
    assert payload[p..][1..] == payload[p + 1..];
  }

  /** The walk past the fill bytes from `start` to `p`, by positions in the payload. */
  lemma WalkPastFill(payload: Bytes, start: nat, p: nat)
    requires start + 4 <= |payload| && start < p <= |payload|
    requires forall i :: start <= i < p ==> payload[i] == 0xFF
    requires p < |payload| ==> payload[p] != 0xFF
    ensures Walk(payload[start..])
         == if p == |payload| then Invalid(NoDimensions)
            else if IsStandalone(payload[p]) then Walk(payload[p + 1..])
            else AtSegment(payload[p], payload[p + 1..])
  {
    var s, n := payload[start..], p - start;
    forall i | 0 <= i < n ensures s[i] == 0xFF { assert s[i] == payload[start + i]; }
    if p == |payload| {
      WalkAfterFill(s, n);
    } else {
      assert s[n] == payload[p] && s[n + 1..] == payload[p + 1..];
      WalkAfterFill(s, n);
    }
  }

  /** The outer loop. */
  method ReadSize(payload: Bytes) returns (r: Metadata)
    requires |payload| >= 2
    ensures r == Walk(payload[2..])
  {
    var position := 2;
    ghost var answer := Walk(payload[2..]);
    while position + 4 <= |payload|
      invariant 2 <= position <= |payload|
      invariant Walk(payload[position..]) == answer
    {
      if payload[position] != 0xFF {
        SkipByte(payload, position);
        position := position + 1;
        continue;
      }
      position := SkipFill(payload, position);
      if position >= |payload| { break; }
      var marker := payload[position];
      position := position + 1;
      if marker in {0x01, 0xD8, 0xD9} || 0xD0 <= marker <= 0xD7 { continue; }
      var next;
      r, next := ReadSegment(payload, position, marker);
      if next == 0 { return; }
      position := next;
    }
    return Invalid(NoDimensions);
  }

  /** A segment: its answer, or where the walk goes on. */
  method ReadSegment(payload: Bytes, position: nat, marker: Byte) returns (r: Metadata, next: nat)
    requires 0 < position <= |payload|
    ensures next == 0 ==> r == AtSegment(marker, payload[position..])
    ensures next != 0 ==> position < next <= |payload| && AtSegment(marker, payload[position..]) == Walk(payload[next..])
  {
    SegmentAt(payload, position, marker);
    if position + 2 > |payload| { return Invalid(NoDimensions), 0; }
    var segmentLength := BigEndian(payload[position], payload[position + 1]);
    if segmentLength < 2 || position + segmentLength > |payload| {
      return Invalid(InvalidSegment), 0;
    }
    if IsFrame(marker) {
      if segmentLength < 7 { return Invalid(IncompleteFrame), 0; }
      var height := BigEndian(payload[position + 3], payload[position + 4]);
      var width := BigEndian(payload[position + 5], payload[position + 6]);
      return Dimensions(width, height, false), 0;
    }
    return NotJpeg, position + segmentLength;
  }

  /** The answer at a segment, by positions in the payload. */
  lemma SegmentAt(payload: Bytes, p: nat, marker: Byte)
    requires p <= |payload|
    ensures p + 2 > |payload| ==> AtSegment(marker, payload[p..]) == Invalid(NoDimensions)
    ensures p + 2 <= |payload| ==>
      var length := BigEndian(payload[p], payload[p + 1]);
      AtSegment(marker, payload[p..])
        == if length < 2 || p + length > |payload| then Invalid(InvalidSegment)
           else if !IsFrame(marker) then Walk(payload[p + length..])
           else if length < 7 then Invalid(IncompleteFrame)
           else Dimensions(BigEndian(payload[p + 5], payload[p + 6]), BigEndian(payload[p + 3], payload[p + 4]), false)
  {
    if p + 2 <= |payload| {
      var length := BigEndian(payload[p], payload[p + 1]);
      if 2 <= length <= |payload| - p {
        assert payload[p..][length..] == payload[p + length..];
      }
    }
  }

  /** The inner loop: passes the fill bytes that start at `start`. */
  method SkipFill(payload: Bytes, start: nat) returns (position: nat)
    requires start + 4 <= |payload| && payload[start] == 0xFF
    ensures start < position <= |payload|
    ensures Walk(payload[start..])
         == if position == |payload| then Invalid(NoDimensions)
            else if IsStandalone(payload[position]) then Walk(payload[position + 1..])
            else AtSegment(payload[position], payload[position + 1..])
  {
    position := start;
    while position < |payload| && payload[position] == 0xFF
      invariant start <= position <= |payload|
      invariant position == start ==> payload[position] == 0xFF
      invariant forall i :: start <= i < position ==> payload[i] == 0xFF
    {
      position := position + 1;
    }
    WalkPastFill(payload, start, position);
  }

  // ---------------------------------------------------------------- the grammar

  /** What may stand between the start of the image and the part that decides. */
  datatype Element =
    | Stray(value: Byte)
    | Standalone(fill: nat, marker: Byte)
    | Segment(fill: nat, marker: Byte, body: Bytes)
  {
    predicate Valid() {
      match this
      case Stray(b) => b != 0xFF
      case Standalone(n, m) => n >= 1 && IsStandalone(m)
      case Segment(n, m, body) =>
        n >= 1 && m != 0xFF && !IsStandalone(m) && !IsFrame(m) && |body| + 2 < 0x1_0000
    }

    function Print(): Bytes
      requires Valid()
    {
      match this
      case Stray(b) => [b]
      case Standalone(n, m) => Fill(n) + [m]
      case Segment(n, m, body) => Fill(n) + [m] + Length(|body| + 2) + body
    }
  }

  /** The part that decides the answer. */
  datatype Ending =
    | Frame(fill: nat, marker: Byte, body: Bytes, rest: Bytes)
    | BadLength(fill: nat, marker: Byte, declared: nat, rest: Bytes)
    | Exhausted(bytes: Bytes)
  {
    predicate Valid() {
      match this
      case Frame(n, m, body, _) => n >= 1 && IsFrame(m) && |body| + 2 < 0x1_0000
      case BadLength(n, m, declared, rest) =>
        && n >= 1 && m != 0xFF && !IsStandalone(m) && declared < 0x1_0000
        && (declared < 2 || declared > |rest| + 2)
      case Exhausted(bytes) =>
        var n := FillLength(bytes);
        || |bytes| < 4
        || n == |bytes|
        || (n >= 1 && !IsStandalone(bytes[n]) && n + 2 >= |bytes|)
    }

    function Print(): Bytes
      requires Valid()
    {
      match this
      case Frame(n, m, body, rest) => Fill(n) + [m] + Length(|body| + 2) + (body + rest)
      case BadLength(n, m, declared, rest) => Fill(n) + [m] + Length(declared) + rest
      case Exhausted(bytes) => bytes
    }

    /** A frame body starts with the precision, the height and the width. */
    function Answer(): Metadata {
      match this
      case Frame(_, _, body, _) =>
        if |body| < 5 then Invalid(IncompleteFrame)
        else Dimensions(BigEndian(body[3], body[4]), BigEndian(body[1], body[2]), false)
      case BadLength(_, _, _, _) => Invalid(InvalidSegment)
      case Exhausted(_) => Invalid(NoDimensions)
    }
  }

  function Fill(n: nat): Bytes {
    seq(n, _ => 0xFF)
  }

  function Length(n: nat): Bytes
    requires n < 0x1_0000
  {
    [n / 256, n % 256]
  }

  /** Two bytes are the length they encode. */
  lemma LengthOfBytes(high: Byte, low: Byte)
    ensures BigEndian(high, low) < 0x1_0000 && Length(BigEndian(high, low)) == [high, low]
  {
    var n := BigEndian(high, low);
    assert n / 256 == high && n % 256 == low;
  }

  predicate AllValid(es: seq<Element>) {
    forall e :: e in es ==> e.Valid()
  }

  function PrintAll(es: seq<Element>): Bytes
    requires AllValid(es)
  {
    if es == [] then [] else es[0].Print() + PrintAll(es[1..])
  }

  /** Reading fill bytes and a marker. */
  lemma WalkMarker(n: nat, marker: Byte, t: Bytes)
    requires n >= 1 && marker != 0xFF && n + 1 + |t| >= 4
    ensures Walk(Fill(n) + [marker] + t)
         == if IsStandalone(marker) then Walk(t) else AtSegment(marker, t)
  {
    var s := Fill(n) + [marker] + t;
    FillLengthIs(s, n);
    assert s[n + 1..] == t;
  }

  /** The walk steps over every element, whatever follows it. */
  lemma WalkElement(e: Element, t: Bytes)
    requires e.Valid()
    ensures Walk(e.Print() + t) == Walk(t)
  {
    match e
    case Stray(b) =>
      assert ([b] + t)[1..] == t;
    case Standalone(n, m) =>
      if n + 1 + |t| >= 4 { WalkMarker(n, m, t); }
    case Segment(n, m, body) =>
      var length := |body| + 2;
      assert e.Print() + t == Fill(n) + [m] + (Length(length) + body + t);
      WalkMarker(n, m, Length(length) + body + t);
      assert (Length(length) + body + t)[length..] == t;
  }

  lemma {:induction false} WalkElements(es: seq<Element>, t: Bytes)
    requires AllValid(es)
    ensures Walk(PrintAll(es) + t) == Walk(t)
  {
    if es == [] {
      assert PrintAll(es) + t == t;
    } else {
      assert PrintAll(es) + t == es[0].Print() + (PrintAll(es[1..]) + t);
      WalkElement(es[0], PrintAll(es[1..]) + t);
      WalkElements(es[1..], t);
    }
  }

  lemma WalkEnding(e: Ending)
    requires e.Valid()
    ensures Walk(e.Print()) == e.Answer()
  {
    match e
    case Frame(n, m, body, rest) =>
      var t := Length(|body| + 2) + (body + rest);
      assert e.Print() == Fill(n) + [m] + t;
      WalkMarker(n, m, t);
    case BadLength(n, m, declared, rest) =>
      var t := Length(declared) + rest;
      assert e.Print() == Fill(n) + [m] + t;
      WalkMarker(n, m, t);
    case Exhausted(bytes) =>
  }

  lemma InspectAfterStart(s: Bytes, t: Bytes)
    ensures Inspect(START_OF_IMAGE + s + t) == Walk(s + t)
  {
    assert (START_OF_IMAGE + s + t)[2..] == s + t;
  }

  /** The parser undoes the printer: after any elements, the answer is that of the
      part that decides.  For a frame header it is the header's width and height. */
  lemma ParserUndoesPrinter(es: seq<Element>, e: Ending)
    requires AllValid(es) && e.Valid()
    ensures Inspect(START_OF_IMAGE + PrintAll(es) + e.Print()) == e.Answer()
  {
    InspectAfterStart(PrintAll(es), e.Print());
    WalkElements(es, e.Print());
    WalkEnding(e);
  }

  /** Splits off what the walk reads at a marker with a length. */
  lemma SplitSegment(n: nat, m: Byte, t: Bytes) returns (element: seq<Element>, ending: seq<Ending>, rest: Bytes)
    requires n >= 1 && m != 0xFF && !IsStandalone(m) && |t| >= 2
    ensures |element| + |ending| == 1 && AllValid(element) && |rest| < |t|
    ensures element != [] ==> Fill(n) + [m] + t == element[0].Print() + rest
    ensures ending != [] ==> ending[0].Valid() && Fill(n) + [m] + t == ending[0].Print()
  {
    var length := BigEndian(t[0], t[1]);
    LengthOfBytes(t[0], t[1]);
    rest := [];
    if length < 2 || length > |t| {
      element, ending := [], [BadLength(n, m, length, t[2..])];
      assert ending[0].Print() == Fill(n) + [m] + Length(length) + t[2..];
      SplitBytes(Fill(n) + [m], Length(length), t, [], 2);
    } else {
      var body := t[2..length];
      SplitBytes(Fill(n) + [m], Length(length), t, body, length);
      if IsFrame(m) {
        element, ending := [], [Frame(n, m, body, t[length..])];
        assert ending[0].Print() == Fill(n) + [m] + Length(length) + (body + t[length..]);
      } else {
        element, ending, rest := [Segment(n, m, body)], [], t[length..];
        assert element[0].Print() == Fill(n) + [m] + Length(length) + body;
      }
    }
  }

  /** A length, a body and a rest put together again. */
  lemma SplitBytes(head: Bytes, length: Bytes, t: Bytes, body: Bytes, end: nat)
    requires |t| >= 2 && length == t[..2] && 2 <= end <= |t| && body == t[2..end]
    ensures head + length + (body + t[end..]) == head + t
    ensures head + length + body + t[end..] == head + t
    ensures end == 2 ==> head + length + t[2..] == head + t
  {
  }

  /** Every byte string has a decomposition, so the grammar covers all payloads. */
  lemma {:induction false} Decompose(s: Bytes) returns (es: seq<Element>, e: Ending)
    ensures AllValid(es) && e.Valid() && s == PrintAll(es) + e.Print()
    decreases |s|
  {
    var n := FillLength(s);
    if |s| < 4 || n == |s| || (n >= 1 && !IsStandalone(s[n]) && n + 2 >= |s|) {
      es, e := [], Exhausted(s);
    } else if n == 0 {
      es, e := Decompose(s[1..]);
      es := Prepend(Stray(s[0]), es, s, s[1..], e);
    } else {
      var t := s[n + 1..];
      assert s == Fill(n) + [s[n]] + t;
      if IsStandalone(s[n]) {
        es, e := Decompose(t);
        es := Prepend(Standalone(n, s[n]), es, s, t, e);
      } else {
        var element, ending, rest := SplitSegment(n, s[n], t);
        if ending != [] {
          es, e := [], ending[0];
        } else {
          es, e := Decompose(rest);
          es := Prepend(element[0], es, s, rest, e);
        }
      }
    }
  }

  lemma Prepend(x: Element, es: seq<Element>, s: Bytes, t: Bytes, e: Ending) returns (r: seq<Element>)
    requires x.Valid() && AllValid(es) && e.Valid()
    requires s == x.Print() + t && t == PrintAll(es) + e.Print()
    ensures AllValid(r) && s == PrintAll(r) + e.Print()
  {
    r := [x] + es;
    assert r[1..] == es;
  }

  ghost predicate Encodes(payload: Bytes, answer: Metadata) {
    exists es, e: Ending ::
      && AllValid(es) && e.Valid() && e.Answer() == answer
      && payload == START_OF_IMAGE + PrintAll(es) + e.Print()
  }

  /** The answer is what the grammar says, in both directions and for every outcome;
      in particular a size is returned only when the payload has a frame header with
      that size right after well-formed elements. */
  lemma AnswerExactlyWhenEncoded(payload: Bytes, answer: Metadata)
    requires START_OF_IMAGE <= payload
    ensures Inspect(payload) == answer <==> Encodes(payload, answer)
  {
    if Encodes(payload, answer) {
      var es, e: Ending :|
        && AllValid(es) && e.Valid() && e.Answer() == answer
        && payload == START_OF_IMAGE + PrintAll(es) + e.Print();
      ParserUndoesPrinter(es, e);
    }
    var es, e := Decompose(payload[2..]);
    assert payload == START_OF_IMAGE + PrintAll(es) + e.Print();
    ParserUndoesPrinter(es, e);
  }
}
