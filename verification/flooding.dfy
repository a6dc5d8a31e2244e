/** Character flooding is cancelled exactly when no flooded vowel sits in a run of
    length two of the clean text: runs of three or more collapse to one character,
    pairs are kept. */
module Flooding {
  import opened Characters
  import opened Normalization
  import opened Attacks
  import opened AttackLaws

  /** A character of the clean text and whether the attack repeats it. */
  datatype Cell = Cell(sym: Sym, flooded: bool)

  function Plain(p: seq<Cell>): (s: Text)
    ensures |s| == |p|
  {
    if p == [] then [] else [p[0].sym] + Plain(p[1..])
  }

  lemma {:induction false} PlainAt(p: seq<Cell>, i: nat)
    requires i < |p|
    ensures Plain(p)[i] == p[i].sym
  {
    if i == 0 {
    } else {
      PlainAt(p[1..], i - 1);
    }
  }

  lemma {:induction false} PlainSlices(p: seq<Cell>, n: nat)
    requires n <= |p|
    ensures Plain(p[..n]) == Plain(p)[..n]
    ensures Plain(p[n..]) == Plain(p)[n..]
  {
    if n > 0 {
      PlainSlices(p[1..], n - 1);
      assert p[..n][1..] == p[1..][..n - 1];
      assert p[n..] == p[1..][n - 1..];
    } else {
      assert p[n..] == p;
    }
  }

  function Repeated(c: Cell): Text {
    if c.flooded then [c.sym, c.sym, c.sym] else [c.sym]
  }

  function Tripled(p: seq<Cell>): Text {
    if p == [] then [] else Repeated(p[0]) + Tripled(p[1..])
  }

  predicate VowelsOnly(p: seq<Cell>) {
    forall i :: 0 <= i < |p| && p[i].flooded ==> IsVowel(p[i].sym)
  }

  function WordCells(word: Text, chosen: nat): seq<Cell> {
    seq(|word|, i requires 0 <= i < |word| => Cell(word[i], i == chosen))
  }

  /** The text with the vowels that `CharacterFlooding` repeats marked. */
  function MarkFlooded(s: Text): seq<Cell>
    decreases |s|
  {
    if s == [] then []
    else
      var n := WordLength(s);
      if n >= 4 then WordCells(s[..n], FirstVowel(s[..n], 1)) + MarkFlooded(s[n..])
      else [Cell(s[0], false)] + MarkFlooded(s[1..])
  }

  lemma TripledCons(c: Cell, p: seq<Cell>)
    ensures Tripled([c] + p) == Repeated(c) + Tripled(p)
    ensures Plain([c] + p) == [c.sym] + Plain(p)
  {
    assert ([c] + p)[1..] == p;
  }

  lemma ConcatAssociates(a: Text, b: Text, c: Text)
    ensures (a + b) + c == a + (b + c)
  {
  }

  lemma {:induction false} TripledConcat(p: seq<Cell>, q: seq<Cell>)
    ensures Tripled(p + q) == Tripled(p) + Tripled(q)
  {
    if p == [] {
      assert p + q == q;
    } else {
      assert p + q == [p[0]] + (p[1..] + q);
      TripledConcat(p[1..], q);
      TripledCons(p[0], p[1..] + q);
      ConcatAssociates(Repeated(p[0]), Tripled(p[1..]), Tripled(q));
    }
  }

  lemma PlainConcat(p: seq<Cell>, q: seq<Cell>)
    ensures Plain(p + q) == Plain(p) + Plain(q)
  {
    PlainSlices(p + q, |p|);
    assert (p + q)[..|p|] == p && (p + q)[|p|..] == q;
  }

  lemma PlainWord(word: Text, chosen: nat)
    ensures Plain(WordCells(word, chosen)) == word
  {
    var p := WordCells(word, chosen);
    forall i | 0 <= i < |word| ensures Plain(p)[i] == word[i] { PlainAt(p, i); }
  }

  lemma {:induction false} TripledUnmarked(p: seq<Cell>)
    requires forall i :: 0 <= i < |p| ==> !p[i].flooded
    ensures Tripled(p) == Plain(p)
  {
    if p == [] {
    } else {
      TripledUnmarked(p[1..]);
    }
  }

  lemma {:induction false} TripledSingle(p: seq<Cell>, k: nat)
    requires k < |p| && p[k].flooded
    requires forall i :: 0 <= i < |p| && i != k ==> !p[i].flooded
    ensures Tripled(p) == Plain(p)[..k] + [p[k].sym, p[k].sym, p[k].sym] + Plain(p)[k + 1..]
  {
    if k > 0 {
      assert forall i :: 0 <= i < |p[1..]| ==> p[1..][i] == p[i + 1];
      TripledSingle(p[1..], k - 1);
      assert Plain(p)[..k] == [p[0].sym] + Plain(p[1..])[..k - 1];
    } else {
      TripledUnmarked(p[1..]);
    }
  }

  lemma FloodWordMarks(word: Text)
    requires |word| >= 4
    ensures Tripled(WordCells(word, FirstVowel(word, 1))) == FloodWord(word)
  {
    var k := FirstVowel(word, 1);
    var p := WordCells(word, k);
    PlainWord(word, k);
    if k < |word| { TripledSingle(p, k); } else { TripledUnmarked(p); }
  }

  lemma MarkFloodedAppend(word: Text, rest: Text)
    requires |word| >= 4
    requires Plain(MarkFlooded(rest)) == rest && VowelsOnly(MarkFlooded(rest))
    ensures var p := WordCells(word, FirstVowel(word, 1)) + MarkFlooded(rest);
            && Plain(p) == word + rest
            && Tripled(p) == FloodWord(word) + Tripled(MarkFlooded(rest))
            && VowelsOnly(p)
  {
    var p := WordCells(word, FirstVowel(word, 1));
    FloodWordMarks(word);
    TripledConcat(p, MarkFlooded(rest));
    PlainConcat(p, MarkFlooded(rest));
    PlainWord(word, FirstVowel(word, 1));
  }

  lemma PlainCellFirst(c: Sym, p: seq<Cell>)
    requires VowelsOnly(p)
    ensures var q := [Cell(c, false)] + p;
            Plain(q) == [c] + Plain(p) && Tripled(q) == [c] + Tripled(p) && VowelsOnly(q)
  {
    TripledCons(Cell(c, false), p);
  }

  /** The two functions on a text, one step at a time. */
  lemma FloodingUnfolds(s: Text)
    requires s != []
    ensures var n := WordLength(s);
            if n >= 4 then
              && s == s[..n] + s[n..]
              && MarkFlooded(s) == WordCells(s[..n], FirstVowel(s[..n], 1)) + MarkFlooded(s[n..])
              && CharacterFlooding(s) == FloodWord(s[..n]) + CharacterFlooding(s[n..])
            else
              && s == [s[0]] + s[1..]
              && MarkFlooded(s) == [Cell(s[0], false)] + MarkFlooded(s[1..])
              && CharacterFlooding(s) == [s[0]] + CharacterFlooding(s[1..])
  {
  }

  /** Marking forgets to the clean text, repeats to the attacked one, and marks
      vowels only. */
  lemma {:induction false} MarkFloodedCorrect(s: Text)
    ensures Plain(MarkFlooded(s)) == s
    ensures Tripled(MarkFlooded(s)) == CharacterFlooding(s)
    ensures VowelsOnly(MarkFlooded(s))
    decreases |s|
  {
    if s == [] {
    } else {
      var n := WordLength(s);
      FloodingUnfolds(s);
      if n >= 4 {
        MarkFloodedCorrect(s[n..]);
        MarkFloodedAppend(s[..n], s[n..]);
      } else {
        MarkFloodedCorrect(s[1..]);
        PlainCellFirst(s[0], MarkFlooded(s[1..]));
      }
    }
  }

  /** The first three rewrites on marked text. */
  function CanonicaliseCells(p: seq<Cell>): seq<Cell> {
    if p == [] then []
    else if IsZeroWidth(Lower(p[0].sym)) then CanonicaliseCells(p[1..])
    else [Cell(Unleet(Lower(p[0].sym)), p[0].flooded)] + CanonicaliseCells(p[1..])
  }

  /** The fourth rewrite on marked text. */
  function DropInsideCells(inWord: bool, p: seq<Cell>): seq<Cell>
    decreases |p|
  {
    if p == [] then []
    else if IsPunct(p[0].sym) then
      if inWord && LetterAhead(Plain(p[1..])) then DropInsideCells(inWord, p[1..])
      else [p[0]] + DropInsideCells(inWord, p[1..])
    else [p[0]] + DropInsideCells(IsLetter(p[0].sym), p[1..])
  }

  lemma CanonicaliseRepeated(c: Cell, s: Text)
    requires c.flooded ==> IsVowel(c.sym)
    ensures Canonicalise(Repeated(c) + s)
         == (if IsZeroWidth(Lower(c.sym)) then [] else Repeated(Cell(Unleet(Lower(c.sym)), c.flooded)))
          + Canonicalise(s)
  {
    var x, y, t := c.sym, Unleet(Lower(c.sym)), Canonicalise(s);
    CanonicaliseCons(x, s);
    if c.flooded {
      CanonicaliseCons(x, [x] + s);
      CanonicaliseCons(x, [x] + ([x] + s));
      assert [x] + ([x] + ([x] + s)) == Repeated(c) + s;
      assert [y] + ([y] + ([y] + t)) == [y, y, y] + t;
    }
  }

  lemma {:induction false} CanonicaliseCellsCorrect(p: seq<Cell>)
    requires VowelsOnly(p)
    ensures Plain(CanonicaliseCells(p)) == Canonicalise(Plain(p))
    ensures Tripled(CanonicaliseCells(p)) == Canonicalise(Tripled(p))
    ensures VowelsOnly(CanonicaliseCells(p))
  {
    if p == [] {
    } else {
      var c, rest := p[0], p[1..];
      CanonicaliseCellsCorrect(rest);
      CanonicaliseRepeated(c, Tripled(rest));
      assert Plain(p) == [c.sym] + Plain(rest) && Tripled(p) == Repeated(c) + Tripled(rest);
      CanonicaliseCons(c.sym, Plain(rest));
      if !IsZeroWidth(Lower(c.sym)) { TripledCons(Cell(Unleet(Lower(c.sym)), c.flooded), CanonicaliseCells(rest)); }
    }
  }

  /** A repeated character that is not punctuation passes through block deletion. */
  lemma DropInsideRepeated(inWord: bool, c: Cell, s: Text)
    requires !IsPunct(c.sym)
    ensures DropInside(inWord, Repeated(c) + s) == Repeated(c) + DropInside(IsLetter(c.sym), s)
    ensures LetterAhead(Repeated(c) + s) == IsLetter(c.sym)
  {
    if c.flooded {
      DropInsideTriple(inWord, c.sym, s);
    } else {
      DropInsideCons(inWord, c.sym, s);
    }
  }

  lemma DropInsideTriple(inWord: bool, x: Sym, s: Text)
    requires !IsPunct(x)
    ensures DropInside(inWord, [x, x, x] + s) == [x, x, x] + DropInside(IsLetter(x), s)
    ensures LetterAhead([x, x, x] + s) == IsLetter(x)
  {
    var letter := IsLetter(x);
    var one, two := [x] + s, [x] + ([x] + s);
    assert [x, x, x] + s == [x] + two;
    assert [x, x, x] + DropInside(letter, s) == [x] + ([x] + ([x] + DropInside(letter, s)));
    DropInsideCons(inWord, x, two);
    DropInsideCons(letter, x, one);
    DropInsideCons(letter, x, s);
  }

  lemma DropInsideCellsCons(inWord: bool, c: Cell, q: seq<Cell>)
    ensures DropInsideCells(inWord, [c] + q)
         == if IsPunct(c.sym) then
              if inWord && LetterAhead(Plain(q)) then DropInsideCells(inWord, q)
              else [c] + DropInsideCells(inWord, q)
            else [c] + DropInsideCells(IsLetter(c.sym), q)
  {
    assert ([c] + q)[1..] == q;
  }

  lemma DropPunctCell(inWord: bool, c: Cell, q: seq<Cell>)
    requires IsPunct(c.sym) && !c.flooded
    requires LetterAhead(Tripled(q)) == LetterAhead(Plain(q))
    requires Plain(DropInsideCells(inWord, q)) == DropInside(inWord, Plain(q))
    requires Tripled(DropInsideCells(inWord, q)) == DropInside(inWord, Tripled(q))
    ensures LetterAhead(Tripled([c] + q)) == LetterAhead(Plain([c] + q))
    ensures Plain(DropInsideCells(inWord, [c] + q)) == DropInside(inWord, Plain([c] + q))
    ensures Tripled(DropInsideCells(inWord, [c] + q)) == DropInside(inWord, Tripled([c] + q))
  {
    DropInsideCellsCons(inWord, c, q);
    TripledCons(c, q);
    TripledCons(c, DropInsideCells(inWord, q));
    DropInsideCons(inWord, c.sym, Plain(q));
    DropInsideCons(inWord, c.sym, Tripled(q));
  }

  lemma DropOtherCell(inWord: bool, c: Cell, q: seq<Cell>)
    requires !IsPunct(c.sym)
    requires Plain(DropInsideCells(IsLetter(c.sym), q)) == DropInside(IsLetter(c.sym), Plain(q))
    requires Tripled(DropInsideCells(IsLetter(c.sym), q)) == DropInside(IsLetter(c.sym), Tripled(q))
    ensures LetterAhead(Tripled([c] + q)) == LetterAhead(Plain([c] + q))
    ensures Plain(DropInsideCells(inWord, [c] + q)) == DropInside(inWord, Plain([c] + q))
    ensures Tripled(DropInsideCells(inWord, [c] + q)) == DropInside(inWord, Tripled([c] + q))
  {
    DropInsideCellsCons(inWord, c, q);
    TripledCons(c, q);
    TripledCons(c, DropInsideCells(IsLetter(c.sym), q));
    DropInsideCons(inWord, c.sym, Plain(q));
    DropInsideRepeated(inWord, c, Tripled(q));
  }

  lemma {:induction false} DropInsideCellsCorrect(inWord: bool, p: seq<Cell>)
    requires VowelsOnly(p)
    ensures LetterAhead(Tripled(p)) == LetterAhead(Plain(p))
    ensures Plain(DropInsideCells(inWord, p)) == DropInside(inWord, Plain(p))
    ensures Tripled(DropInsideCells(inWord, p)) == DropInside(inWord, Tripled(p))
    ensures VowelsOnly(DropInsideCells(inWord, p))
    decreases |p|
  {
    if p == [] {
    } else {
      var x := p[0].sym;
      assert p == [p[0]] + p[1..];
      DropInsideCellsCorrect(if IsPunct(x) then inWord else IsLetter(x), p[1..]);
      if IsPunct(x) {
        DropPunctCell(inWord, p[0], p[1..]);
      } else {
        DropOtherCell(inWord, p[0], p[1..]);
      }
    }
  }

  /** The text on which runs are counted, with the flooded vowels marked. */
  function JoinedCells(s: Text): seq<Cell> {
    DropInsideCells(false, CanonicaliseCells(MarkFlooded(s)))
  }

  /** Unmarked it is the clean text, repeated it is the attacked text. */
  lemma JoinedCellsCorrect(s: Text)
    ensures Plain(JoinedCells(s)) == Joined(s)
    ensures Tripled(JoinedCells(s)) == Joined(CharacterFlooding(s))
    ensures VowelsOnly(JoinedCells(s))
  {
    MarkFloodedCorrect(s);
    CanonicaliseCellsCorrect(MarkFlooded(s));
    DropInsideCellsCorrect(false, CanonicaliseCells(MarkFlooded(s)));
    ScanIsReference(false, Canonicalise(s));
    ScanIsReference(false, Canonicalise(CharacterFlooding(s)));
  }

  // ---------------------------------------------------------------- runs

  /** What the collapse makes of the leading run `s`. */
  function CollapsedRun(s: Text): Text {
    if |s| >= 3 && s[0] != '\n' then [s[0]] else s
  }

  lemma {:induction false} KeepRun(s: Text)
    requires s != [] && (RunLength(s) < 3 || s[0] == '\n')
    ensures CollapseRuns(s) == s[..RunLength(s)] + CollapseRuns(s[RunLength(s)..])
    decreases |s|
  {
    var n := RunLength(s);
    if n == 1 {
      assert s[..1] == [s[0]];
    } else {
      var rest := s[1..];
      assert RunLength(rest) == n - 1 && rest[0] == s[0];
      KeepRun(rest);
      assert rest[n - 1..] == s[n..] && s[..n] == [s[0]] + rest[..n - 1];
      ConcatAssociates([s[0]], rest[..n - 1], CollapseRuns(s[n..]));
    }
  }

  /** A run of three or more becomes one character, any other run stays. */
  lemma CollapseRun(s: Text)
    requires s != []
    ensures CollapseRuns(s) == CollapsedRun(s[..RunLength(s)]) + CollapseRuns(s[RunLength(s)..])
  {
    if RunLength(s) < 3 || s[0] == '\n' { KeepRun(s); }
  }

  lemma {:induction false} RunLengthUnique(s: Text, n: nat)
    requires 0 < n <= |s|
    requires forall i :: 0 <= i < n ==> s[i] == s[0]
    requires n < |s| ==> s[n] != s[0]
    ensures RunLength(s) == n
  {
    if n > 1 { RunLengthUnique(s[1..], n - 1); }
  }

  /** Number of characters that are not whitespace. */
  function Ink(s: Text): nat {
    if s == [] then 0 else (if IsSpace(s[0]) then 0 else 1) + Ink(s[1..])
  }

  lemma {:induction false} InkConcat(s: Text, t: Text)
    ensures Ink(s + t) == Ink(s) + Ink(t)
  {
    if s == [] {
      assert s + t == t;
    } else {
      InkConcat(s[1..], t);
      assert (s + t)[1..] == s[1..] + t;
    }
  }

  predicate Hit(p: seq<Cell>) {
    p != [] && (p[0].flooded || Hit(p[1..]))
  }

  /** Whether the leading run is a pair with a flooded character in it. */
  predicate LeadingPairHit(p: seq<Cell>) {
    RunLength(Plain(p)) == 2 && Hit(p[..2])
  }

  /** Number of runs of exactly two that hold a flooded character. */
  function FloodedPairs(p: seq<Cell>): nat
    decreases |p|
  {
    if p == [] then 0
    else (if LeadingPairHit(p) then 1 else 0) + FloodedPairs(p[RunLength(Plain(p))..])
  }

  predicate Constant(s: Text, c: Sym) {
    forall i :: 0 <= i < |s| ==> s[i] == c
  }

  lemma {:induction false} TripledConstant(p: seq<Cell>, c: Sym)
    requires VowelsOnly(p) && Constant(Plain(p), c)
    ensures Constant(Tripled(p), c)
    ensures if Hit(p) then |Tripled(p)| >= |p| + 2 && IsVowel(c) else Tripled(p) == Plain(p)
    ensures |Tripled(p)| >= |p|
  {
    if p == [] {
    } else {
      assert p[0].sym == Plain(p)[0] == c;
      assert Plain(p[1..]) == Plain(p)[1..];
      TripledConstant(p[1..], c);
    }
  }

  lemma TripledHead(p: seq<Cell>)
    requires p != []
    ensures Tripled(p) != [] && Tripled(p)[0] == p[0].sym
  {
  }

  lemma RunLengthConcat(head: Text, tail: Text, c: Sym)
    requires head != [] && Constant(head, c)
    requires tail != [] ==> tail[0] != c
    ensures RunLength(head + tail) == |head|
  {
    var s := head + tail;
    assert s[0] == c;
    assert tail != [] ==> s[|head|] == tail[0];
    RunLengthUnique(s, |head|);
  }

  /** The leading run, by cells. */
  lemma RunOfCells(p: seq<Cell>, n: nat)
    requires p != [] && n == RunLength(Plain(p))
    ensures 0 < n <= |p| && (n < |p| ==> p[n].sym != p[0].sym && p[n].sym != p[n - 1].sym)
  {
    PlainAt(p, 0);
    PlainAt(p, n - 1);
    if n < |p| { PlainAt(p, n); }
  }

  /** The leading run of the attacked text is the repeated leading run of the clean
      text. */
  lemma TripledRun(p: seq<Cell>, n: nat)
    requires 0 < n <= |p| && (n < |p| ==> p[n].sym != p[0].sym)
    requires Constant(Tripled(p[..n]), p[0].sym) && |Tripled(p[..n])| >= n
    ensures Tripled(p) == Tripled(p[..n]) + Tripled(p[n..])
    ensures RunLength(Tripled(p)) == |Tripled(p[..n])|
  {
    var head, tail := Tripled(p[..n]), Tripled(p[n..]);
    assert Tripled(p) == head + tail by {
      TripledConcat(p[..n], p[n..]);
      assert p == p[..n] + p[n..];
    }
    if n < |p| { TripledHead(p[n..]); }
    RunLengthConcat(head, tail, p[0].sym);
  }

  /** The collapse of a run of vowels. */
  lemma CollapsedVowels(s: Text, c: Sym)
    requires s != [] && Constant(s, c) && IsVowel(c)
    ensures CollapsedRun(s) == if |s| == 2 then [c] + [c] else [c]
    ensures Ink(CollapsedRun(s)) == if |s| == 2 then 2 else 1
  {
    assert s[0] == c;
    assert |s| == 1 ==> s == [c];
    assert |s| == 2 ==> s == [c] + [c];
    assert Ink([c]) == 1 by { assert [c][1..] == []; }
    InkConcat([c], [c]);
  }

  /** A run that is hit has become one of three or more, so its collapse differs from
      that of the clean run just for a pair. */
  lemma CollapsedRunsCompare(p: seq<Cell>, c: Sym)
    requires p != [] && VowelsOnly(p) && Constant(Plain(p), c)
    ensures if |p| == 2 && Hit(p)
            then Ink(CollapsedRun(Plain(p))) == Ink(CollapsedRun(Tripled(p))) + 1
            else CollapsedRun(Plain(p)) == CollapsedRun(Tripled(p))
  {
    TripledConstant(p, c);
    if Hit(p) {
      CollapsedVowels(Plain(p), c);
      CollapsedVowels(Tripled(p), c);
    }
  }

  /** The leading run and the rest collapse apart. */
  lemma CollapseHead(s: Text, head: Text, tail: Text)
    requires s == head + tail && s != [] && RunLength(s) == |head|
    ensures CollapseRuns(s) == CollapsedRun(head) + CollapseRuns(tail)
  {
    CollapseRun(s);
    assert s[..|head|] == head && s[|head|..] == tail;
  }

  /** The leading run holds one character, also when it is repeated. */
  lemma RunIsConstant(p: seq<Cell>, n: nat)
    requires p != [] && VowelsOnly(p) && n == RunLength(Plain(p))
    ensures n <= |p| && VowelsOnly(p[..n]) && Constant(Plain(p[..n]), p[0].sym)
    ensures Constant(Tripled(p[..n]), p[0].sym) && |Tripled(p[..n])| >= n
  {
    var head, c := p[..n], p[0].sym;
    assert VowelsOnly(head) by { assert forall i :: 0 <= i < n ==> head[i] == p[i]; }
    assert Constant(Plain(head), c) by {
      PlainSlices(p, n);
      PlainAt(p, 0);
    }
    TripledConstant(head, c);
  }

  /** The clean text splits behind the leading run. */
  lemma PlainSplits(p: seq<Cell>, n: nat)
    requires n <= |p|
    ensures Plain(p) == Plain(p[..n]) + Plain(p[n..])
  {
    PlainSlices(p, n);
  }

  /** The collapsed leading runs of the clean and the attacked text differ, by exactly
      one character, when the run is a pair that is hit. */
  lemma LeadingRun(p: seq<Cell>, n: nat)
    requires p != [] && VowelsOnly(p) && n == RunLength(Plain(p))
    ensures CollapseRuns(Plain(p)) == CollapsedRun(Plain(p[..n])) + CollapseRuns(Plain(p[n..]))
    ensures CollapseRuns(Tripled(p)) == CollapsedRun(Tripled(p[..n])) + CollapseRuns(Tripled(p[n..]))
    ensures if LeadingPairHit(p)
            then Ink(CollapsedRun(Plain(p[..n]))) == Ink(CollapsedRun(Tripled(p[..n]))) + 1
            else CollapsedRun(Plain(p[..n])) == CollapsedRun(Tripled(p[..n]))
  {
    RunIsConstant(p, n);
    RunOfCells(p, n);
    PlainSplits(p, n);
    TripledRun(p, n);
    CollapsedRunsCompare(p[..n], p[0].sym);
    CollapseHead(Plain(p), Plain(p[..n]), Plain(p[n..]));
    CollapseHead(Tripled(p), Tripled(p[..n]), Tripled(p[n..]));
  }

  lemma {:induction false} CollapseFlooded(p: seq<Cell>)
    requires VowelsOnly(p)
    ensures Ink(CollapseRuns(Plain(p))) == Ink(CollapseRuns(Tripled(p))) + FloodedPairs(p)
    ensures FloodedPairs(p) == 0 ==> CollapseRuns(Plain(p)) == CollapseRuns(Tripled(p))
    decreases |p|
  {
    if p == [] {
    } else {
      var n := RunLength(Plain(p));
      LeadingRun(p, n);
      CollapseFlooded(p[n..]);
      InkConcat(CollapsedRun(Plain(p[..n])), CollapseRuns(Plain(p[n..])));
      InkConcat(CollapsedRun(Tripled(p[..n])), CollapseRuns(Tripled(p[n..])));
    }
  }

  // ---------------------------------------------------------------- whitespace

  lemma {:induction false} InkOfSpaces(s: Text, n: nat)
    requires n <= SpaceLength(s)
    ensures Ink(s[n..]) == Ink(s)
  {
    if n > 0 {
      InkOfSpaces(s[1..], n - 1);
      assert s[1..][n - 1..] == s[n..];
    } else {
      assert s[n..] == s;
    }
  }

  lemma {:induction false} InkCollapseSpaces(s: Text)
    ensures Ink(CollapseSpaces(s)) == Ink(s)
    decreases |s|
  {
    if s == [] {
    } else {
      if IsSpace(s[0]) {
        InkOfSpaces(s, SpaceLength(s));
        InkCollapseSpaces(s[SpaceLength(s)..]);
      } else {
        InkCollapseSpaces(s[1..]);
      }
    }
  }

  lemma {:induction false} InkStripLeft(s: Text)
    ensures Ink(StripLeft(s)) == Ink(s)
  {
    if s != [] && IsSpace(s[0]) { InkStripLeft(s[1..]); }
  }

  lemma {:induction false} InkStripRight(s: Text)
    ensures Ink(StripRight(s)) == Ink(s)
  {
    if s != [] && IsSpace(s[|s| - 1]) {
      InkStripRight(s[..|s| - 1]);
      InkConcat(s[..|s| - 1], [s[|s| - 1]]);
      assert s == s[..|s| - 1] + [s[|s| - 1]];
    }
  }

  lemma InkNormalize(s: Text)
    ensures Ink(NormalizeText(s)) == Ink(CollapseRuns(Joined(s)))
  {
    var t := CollapseRuns(Joined(s));
    InkCollapseSpaces(t);
    InkStripLeft(CollapseSpaces(t));
    InkStripRight(StripLeft(CollapseSpaces(t)));
  }

  // ---------------------------------------------------------------- the condition

  /** Position `i` of `s` lies in a run of length exactly two. */
  predicate InPair(s: Text, i: int)
    requires 0 <= i < |s|
  {
    || (i + 1 < |s| && s[i + 1] == s[i] && (i > 0 ==> s[i - 1] != s[i])
        && (i + 2 < |s| ==> s[i + 2] != s[i]))
    || (i > 0 && s[i - 1] == s[i] && (i > 1 ==> s[i - 2] != s[i])
        && (i + 1 < |s| ==> s[i + 1] != s[i]))
  }

  /** Some flooded vowel lies in a run of length exactly two of the clean text. */
  predicate HasFloodedPair(p: seq<Cell>) {
    exists i :: 0 <= i < |p| && p[i].flooded && InPair(Plain(p), i)
  }

  /** Cutting between two different characters cuts no pair. */
  lemma InPairBeyondCut(s: Text, n: nat, i: nat)
    requires 0 < n < |s| && s[n - 1] != s[n] && i < |s| - n
    ensures InPair(s, n + i) <==> InPair(s[n..], i)
  {
  }

  lemma InPairInRun(s: Text, n: nat, i: nat)
    requires s != [] && n == RunLength(s) && i < n
    ensures InPair(s, i) <==> n == 2
  {
  }

  lemma PairHitIndex(p: seq<Cell>)
    requires LeadingPairHit(p)
    ensures HasFloodedPair(p)
  {
    var i := if p[0].flooded then 0 else 1;
    assert Hit(p[..2]) ==> p[..2][0].flooded || Hit(p[..2][1..]);
    assert p[..2][1..] == [p[1]];
    assert Hit([p[1]]) ==> p[1].flooded || Hit([p[1]][1..]);
    InPairInRun(Plain(p), 2, i);
  }

  lemma {:induction false} HitAt(p: seq<Cell>, i: nat)
    requires i < |p| && p[i].flooded
    ensures Hit(p)
  {
    if i == 0 {
    } else {
      HitAt(p[1..], i - 1);
    }
  }

  /** A flooded character behind a cut, in the whole and in the rest. */
  lemma PairBehindCut(p: seq<Cell>, n: nat, i: nat)
    requires 0 < n <= i < |p| && p[n - 1].sym != p[n].sym
    ensures |Plain(p[n..])| == |p| - n && p[n..][i - n] == p[i]
    ensures InPair(Plain(p), i) <==> InPair(Plain(p[n..]), i - n)
  {
    PlainSlices(p, n);
    PlainAt(p, n - 1);
    PlainAt(p, n);
    InPairBeyondCut(Plain(p), n, i - n);
  }

  lemma LeadingPairAt(p: seq<Cell>, i: nat)
    requires i < RunLength(Plain(p)) && p[i].flooded && InPair(Plain(p), i)
    ensures LeadingPairHit(p)
  {
    InPairInRun(Plain(p), RunLength(Plain(p)), i);
    HitAt(p[..2], i);
  }

  lemma {:induction false} FloodedPairIsCounted(p: seq<Cell>, i: nat)
    requires i < |p| && p[i].flooded && InPair(Plain(p), i)
    ensures FloodedPairs(p) > 0
    decreases |p|
  {
    var n := RunLength(Plain(p));
    if i < n {
      LeadingPairAt(p, i);
    } else {
      RunOfCells(p, n);
      PairBehindCut(p, n, i);
      FloodedPairIsCounted(p[n..], i - n);
    }
  }

  lemma {:induction false} CountedPairIsFlooded(p: seq<Cell>)
    requires FloodedPairs(p) > 0
    ensures HasFloodedPair(p)
    decreases |p|
  {
    if LeadingPairHit(p) {
      PairHitIndex(p);
    } else {
      var n := RunLength(Plain(p));
      RunOfCells(p, n);
      assert p[n..] != [];
      CountedPairIsFlooded(p[n..]);
      FloodedPairBehind(p, n);
    }
  }

  lemma FloodedPairBehind(p: seq<Cell>, n: nat)
    requires 0 < n < |p| && p[n - 1].sym != p[n].sym && HasFloodedPair(p[n..])
    ensures HasFloodedPair(p)
  {
    var j :| 0 <= j < |p[n..]| && p[n..][j].flooded && InPair(Plain(p[n..]), j);
    PairBehindCut(p, n, n + j);
    assert p[n + j].flooded && InPair(Plain(p), n + j);
  }

  /** Flooding costs the normalised text exactly one character for every run of
      length two that it hits, and is cancelled if and only if it hits none. */
  lemma FloodingCancelledExactly(s: Text)
    ensures NormalizeText(CharacterFlooding(s)) == NormalizeText(s)
       <==> !HasFloodedPair(JoinedCells(s))
    ensures Ink(NormalizeText(s))
         == Ink(NormalizeText(CharacterFlooding(s))) + FloodedPairs(JoinedCells(s))
  {
    JoinedCellsCorrect(s);
    CollapseFlooded(JoinedCells(s));
    if FloodedPairs(JoinedCells(s)) > 0 {
      CountedPairIsFlooded(JoinedCells(s));
    } else if HasFloodedPair(JoinedCells(s)) {
      var p := JoinedCells(s);
      var i :| 0 <= i < |p| && p[i].flooded && InPair(Plain(p), i);
      FloodedPairIsCounted(p, i);
    }
    InkNormalize(s);
    InkNormalize(CharacterFlooding(s));
  }

  lemma {:induction false} LowercaseUntouched(inWord: bool, p: seq<Cell>)
    requires forall i :: 0 <= i < |p| ==> IsLower(p[i].sym)
    ensures CanonicaliseCells(p) == p && DropInsideCells(inWord, p) == p
    decreases |p|
  {
    if p == [] {
    } else {
      LowercaseUntouched(true, p[1..]);
    }
  }

  lemma MarkFloodedWord(word: Text)
    requires |word| >= 4 && WordLength(word) == |word|
    ensures MarkFlooded(word) == WordCells(word, FirstVowel(word, 1))
  {
    assert word[..|word|] == word;
  }

  /** The promised cancellation fails on "book": the attack gives "booook", which
      normalises to "bok". */
  lemma FloodingNotCancelled()
    ensures NormalizeText(CharacterFlooding("book")) != NormalizeText("book")
  {
    var s: Text := "book";
    var p := WordCells(s, 1);
    MarkFloodedWord(s) by { assert WordLength("book") == 4; }
    LowercaseUntouched(false, p);
    PlainWord(s, 1);
    assert HasFloodedPair(p) by { assert p[1].flooded && InPair(Plain(p), 1); }
    FloodingCancelledExactly(s);
  }
}
