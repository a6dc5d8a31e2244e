/** The normal forms: what every result of `NormalizeText` looks like, and that these
    are exactly the texts it leaves alone. */
module CanonicalForm {
  import opened Characters
  import opened Normalization
  import opened AttackLaws

  /** Not a capital, not zero-width, and not in the leetspeak table. */
  predicate Settled(c: Sym) {
    !('A' <= c <= 'Z') && c < '\U{80}' && c !in {'0', '1', '3', '4', '5', '7', '@', '$'}
  }

  predicate AllSettled(s: Text) {
    forall i :: 0 <= i < |s| ==> Settled(s[i])
  }

  /** A punctuation block `s[i+1..j]` between the letters `s[i]` and `s[j]`. */
  predicate BlockBetweenLetters(s: Text, i: nat, j: nat) {
    && i + 1 < j < |s|
    && IsLetter(s[i]) && IsLetter(s[j])
    && forall k :: i < k < j ==> IsPunct(s[k])
  }

  /** The shape of a normalised text. */
  ghost predicate Canonical(s: Text) {
    && AllSettled(s)
    && (forall i: nat, j: nat :: !BlockBetweenLetters(s, i, j))
    && (forall i :: 0 <= i < |s| - 2 ==> !(s[i] == s[i + 1] == s[i + 2]))
    && (forall i :: 0 <= i < |s| && IsSpace(s[i]) ==> s[i] == ' ' && 0 < i < |s| - 1 && !IsSpace(s[i + 1]))
  }

  // Each clause again as a recursive predicate, the form that follows the rewrites.

  predicate NoInner(inWord: bool, s: Text)
    decreases |s|
  {
    s != [] ==>
      if IsPunct(s[0]) then !(inWord && LetterAhead(s[1..])) && NoInner(inWord, s[1..])
      else NoInner(IsLetter(s[0]), s[1..])
  }

  predicate TripleAt(s: Text) {
    |s| >= 3 && s[0] == s[1] == s[2]
  }

  /** No three equal characters in a row, other than whitespace. */
  predicate NoInkTriple(s: Text) {
    s != [] ==> (!TripleAt(s) || IsSpace(s[0])) && NoInkTriple(s[1..])
  }

  predicate SingleBlanks(s: Text) {
    s != [] ==>
      && (IsSpace(s[0]) ==> s[0] == ' ' && (|s| > 1 ==> !IsSpace(s[1])))
      && SingleBlanks(s[1..])
  }

  // ---------------------------------------------------------------- settled characters

  lemma {:induction false} CanonicaliseSettles(s: Text)
    ensures AllSettled(Canonicalise(s))
  {
    if s == [] {
    } else {
      CanonicaliseSplit(s);
      CanonicaliseSettles(s[1..]);
    }
  }

  predicate DrawnFrom(t: Text, s: Text) {
    forall i :: 0 <= i < |t| ==> t[i] in s || t[i] == ' '
  }

  lemma {:induction false} DropDraws(inWord: bool, s: Text)
    ensures DrawnFrom(DropInside(inWord, s), s)
    decreases |s|
  {
    if s == [] {
    } else {
      DropDraws(if IsPunct(s[0]) then inWord else IsLetter(s[0]), s[1..]);
      assert forall x :: x in s[1..] ==> x in s;
    }
  }

  lemma {:induction false} CollapseRunsDraws(s: Text)
    ensures DrawnFrom(CollapseRuns(s), s)
    decreases |s|
  {
    if s == [] {
    } else {
      var n := if RunLength(s) >= 3 && s[0] != '\n' then RunLength(s) else 1;
      CollapseRunsDraws(s[n..]);
      assert forall x :: x in s[n..] ==> x in s;
    }
  }

  lemma {:induction false} CollapseSpacesDraws(s: Text)
    ensures DrawnFrom(CollapseSpaces(s), s)
    decreases |s|
  {
    if s == [] {
    } else {
      var n := if IsSpace(s[0]) then SpaceLength(s) else 1;
      CollapseSpacesDraws(s[n..]);
      assert forall x :: x in s[n..] ==> x in s;
    }
  }

  lemma {:induction false} StripLeftIsSuffix(s: Text)
    ensures exists n :: 0 <= n <= |s| && StripLeft(s) == s[n..]
    ensures StripLeft(s) != [] ==> !IsSpace(StripLeft(s)[0])
  {
    if s != [] && IsSpace(s[0]) {
      StripLeftIsSuffix(s[1..]);
      var n :| 0 <= n <= |s| - 1 && StripLeft(s[1..]) == s[1..][n..];
      assert s[1..][n..] == s[n + 1..];
    } else {
      assert s == s[0..];
    }
  }

  lemma {:induction false} StripRightIsPrefix(s: Text)
    ensures exists n :: 0 <= n <= |s| && StripRight(s) == s[..n]
    ensures StripRight(s) != [] ==> !IsSpace(StripRight(s)[|StripRight(s)| - 1])
  {
    if s != [] && IsSpace(s[|s| - 1]) {
      StripRightIsPrefix(s[..|s| - 1]);
      var n :| 0 <= n <= |s| - 1 && StripRight(s[..|s| - 1]) == s[..|s| - 1][..n];
      assert s[..|s| - 1][..n] == s[..n];
    } else {
      assert s == s[..|s|];
    }
  }

  // ---------------------------------------------------------------- punctuation blocks

  lemma {:induction false} DropLeavesNoInner(inWord: bool, s: Text)
    ensures LetterAhead(DropInside(inWord, s)) == LetterAhead(s)
    ensures NoInner(inWord, DropInside(inWord, s))
    decreases |s|
  {
    if s == [] {
    } else {
      var next := if IsPunct(s[0]) then inWord else IsLetter(s[0]);
      DropLeavesNoInner(next, s[1..]);
      assert ([s[0]] + DropInside(next, s[1..]))[1..] == DropInside(next, s[1..]);
    }
  }

  /** Shortening a run to its first character keeps what is seen from the left. */
  lemma {:induction false} SkipRun(inWord: bool, s: Text, n: nat)
    requires 0 < n <= RunLength(s)
    requires NoInner(inWord, s)
    ensures NoInner(inWord, [s[0]] + s[n..]) && LetterAhead([s[0]] + s[n..]) == LetterAhead(s)
    decreases n
  {
    assert ([s[0]] + s[n..])[1..] == s[n..];
    if n > 1 {
      SkipRun(if IsPunct(s[0]) then inWord else IsLetter(s[0]), s[1..], n - 1);
      assert s[1..][n - 1..] == s[n..];
      assert ([s[1]] + s[n..])[1..] == s[n..];
    } else {
      assert [s[0]] + s[1..] == s;
    }
  }

  lemma {:induction false} CollapseRunsNoInner(inWord: bool, s: Text)
    requires NoInner(inWord, s)
    ensures NoInner(inWord, CollapseRuns(s)) && LetterAhead(CollapseRuns(s)) == LetterAhead(s)
    decreases |s|
  {
    if s == [] {
    } else {
      var n := if RunLength(s) >= 3 && s[0] != '\n' then RunLength(s) else 1;
      var t := [s[0]] + s[n..];
      SkipRun(inWord, s, n);
      assert t[1..] == s[n..];
      CollapseRunsNoInner(if IsPunct(s[0]) then inWord else IsLetter(s[0]), s[n..]);
      assert ([s[0]] + CollapseRuns(s[n..]))[1..] == CollapseRuns(s[n..]);
    }
  }

  lemma {:induction false} NoInnerAfterSpaces(inWord: bool, s: Text, n: nat)
    requires 0 < n <= SpaceLength(s)
    requires NoInner(inWord, s)
    ensures NoInner(false, s[n..])
    decreases n
  {
    if n > 1 {
      NoInnerAfterSpaces(false, s[1..], n - 1);
      assert s[1..][n - 1..] == s[n..];
    }
  }

  lemma {:induction false} CollapseSpacesNoInner(inWord: bool, s: Text)
    requires NoInner(inWord, s)
    ensures NoInner(inWord, CollapseSpaces(s)) && LetterAhead(CollapseSpaces(s)) == LetterAhead(s)
    decreases |s|
  {
    if s == [] {
    } else {
      if IsSpace(s[0]) {
        var n := SpaceLength(s);
        NoInnerAfterSpaces(inWord, s, n);
        CollapseSpacesNoInner(false, s[n..]);
        assert ([' '] + CollapseSpaces(s[n..]))[1..] == CollapseSpaces(s[n..]);
      } else {
        CollapseSpacesNoInner(if IsPunct(s[0]) then inWord else IsLetter(s[0]), s[1..]);
        assert ([s[0]] + CollapseSpaces(s[1..]))[1..] == CollapseSpaces(s[1..]);
      }
    }
  }

  lemma {:induction false} StripLeftNoInner(s: Text)
    requires NoInner(false, s)
    ensures NoInner(false, StripLeft(s))
  {
    if s != [] && IsSpace(s[0]) { StripLeftNoInner(s[1..]); }
  }

  lemma {:induction false} PrefixNoInner(inWord: bool, s: Text, n: nat)
    requires n <= |s| && NoInner(inWord, s)
    ensures NoInner(inWord, s[..n]) && (LetterAhead(s[..n]) ==> LetterAhead(s))
    decreases n
  {
    if n == 0 {
    } else {
      PrefixNoInner(if IsPunct(s[0]) then inWord else IsLetter(s[0]), s[1..], n - 1);
      assert s[..n][1..] == s[1..][..n - 1];
    }
  }

  lemma {:induction false} LetterAheadFrom(s: Text, j: nat)
    requires j < |s| && IsLetter(s[j]) && forall k :: 0 <= k < j ==> IsPunct(s[k])
    ensures LetterAhead(s)
  {
    if j == 0 {
    } else {
      LetterAheadFrom(s[1..], j - 1);
    }
  }

  lemma {:induction false} BlockIsInner(inWord: bool, s: Text, i: nat, j: nat)
    requires BlockBetweenLetters(s, i, j)
    ensures !NoInner(inWord, s)
    decreases |s|
  {
    if i > 0 {
      assert BlockBetweenLetters(s[1..], i - 1, j - 1);
      BlockIsInner(if IsPunct(s[0]) then inWord else IsLetter(s[0]), s[1..], i - 1, j - 1);
    } else {
      assert forall k :: 0 <= k < j - 1 ==> s[1..][k] == s[k + 1];
      LetterAheadFrom(s[1..], j - 1);
    }
  }

  // ---------------------------------------------------------------- runs

  lemma {:induction false} CollapseRunsNoTriple(s: Text)
    ensures NoInkTriple(CollapseRuns(s))
    ensures s != [] ==> CollapseRuns(s) != [] && CollapseRuns(s)[0] == s[0]
    ensures |s| > 1 && !IsSpace(s[0]) && s[1] != s[0] && |CollapseRuns(s)| > 1 ==> CollapseRuns(s)[1] != s[0]
    ensures !IsSpace(if s == [] then ' ' else s[0]) && RunLength(s) != 2 && |CollapseRuns(s)| > 1
        ==> CollapseRuns(s)[1] != s[0]
    decreases |s|
  {
    if s == [] {
    } else {
      var n := if RunLength(s) >= 3 && s[0] != '\n' then RunLength(s) else 1;
      CollapseRunsNoTriple(s[n..]);
      var t := CollapseRuns(s[n..]);
      assert ([s[0]] + t)[1..] == t;
    }
  }

  lemma {:induction false} CollapseSpacesShape(s: Text)
    requires NoInkTriple(s)
    ensures NoInkTriple(CollapseSpaces(s)) && SingleBlanks(CollapseSpaces(s))
    ensures s != [] && !IsSpace(s[0]) ==> CollapseSpaces(s) != [] && CollapseSpaces(s)[0] == s[0]
    ensures s != [] && IsSpace(s[0]) ==> CollapseSpaces(s) != [] && CollapseSpaces(s)[0] == ' '
    decreases |s|
  {
    if s == [] {
    } else {
      if IsSpace(s[0]) {
        var n := SpaceLength(s);
        NoInkTripleSuffix(s, n);
        CollapseSpacesShape(s[n..]);
        assert ([' '] + CollapseSpaces(s[n..]))[1..] == CollapseSpaces(s[n..]);
      } else {
        CollapseSpacesShape(s[1..]);
        assert ([s[0]] + CollapseSpaces(s[1..]))[1..] == CollapseSpaces(s[1..]);
        if |s| > 1 && s[1] == s[0] {
          CollapseSpacesShape(s[1..][1..]);
          assert CollapseSpaces(s[1..]) == [s[1]] + CollapseSpaces(s[1..][1..]);
        }
      }
    }
  }

  lemma {:induction false} NoInkTripleSuffix(s: Text, n: nat)
    requires NoInkTriple(s) && n <= |s|
    ensures NoInkTriple(s[n..])
  {
    if n > 0 {
      NoInkTripleSuffix(s[1..], n - 1);
      assert s[1..][n - 1..] == s[n..];
    } else {
      assert s[n..] == s;
    }
  }

  // Back to indices.

  lemma {:induction false} NoInkTripleAt(s: Text, i: nat)
    requires NoInkTriple(s) && i + 2 < |s|
    ensures s[i] == s[i + 1] == s[i + 2] ==> IsSpace(s[i])
  {
    if i == 0 {
    } else {
      NoInkTripleAt(s[1..], i - 1);
    }
  }

  lemma {:induction false} SingleBlanksAt(s: Text, i: nat)
    requires SingleBlanks(s) && i < |s| && IsSpace(s[i])
    ensures s[i] == ' ' && (i + 1 < |s| ==> !IsSpace(s[i + 1]))
  {
    if i == 0 {
    } else {
      SingleBlanksAt(s[1..], i - 1);
    }
  }

  lemma SliceIsCanonical(d: Text, n: nat, m: nat)
    requires n + m <= |d|
    requires AllSettled(d) && NoInkTriple(d) && SingleBlanks(d)
    requires NoInner(false, d[n..n + m])
    requires m > 0 ==> !IsSpace(d[n]) && !IsSpace(d[n + m - 1])
    ensures Canonical(d[n..n + m])
  {
    var r := d[n..n + m];
    if i: nat, j: nat :| BlockBetweenLetters(r, i, j) { BlockIsInner(false, r, i, j); }
    forall i | 0 <= i < |r| && IsSpace(r[i])
      ensures r[i] == ' ' && 0 < i < |r| - 1 && !IsSpace(r[i + 1])
    {
      BlankInSlice(d, n, m, i);
    }
    forall i | 0 <= i < |r| - 2 ensures !(r[i] == r[i + 1] == r[i + 2]) {
      NoTripleInSlice(d, n, m, i);
    }
  }

  lemma BlankInSlice(d: Text, n: nat, m: nat, i: nat)
    requires n + m <= |d| && SingleBlanks(d) && i < m && IsSpace(d[n + i])
    requires !IsSpace(d[n]) && !IsSpace(d[n + m - 1])
    ensures d[n..n + m][i] == ' ' && 0 < i < m - 1 && !IsSpace(d[n..n + m][i + 1])
  {
    SingleBlanksAt(d, n + i);
    assert i + 1 < m ==> d[n..n + m][i + 1] == d[n + i + 1];
  }

  lemma NoTripleInSlice(d: Text, n: nat, m: nat, i: nat)
    requires n + m <= |d| && NoInkTriple(d) && SingleBlanks(d) && i + 2 < m
    ensures var r := d[n..n + m]; !(r[i] == r[i + 1] == r[i + 2])
  {
    var r := d[n..n + m];
    assert r[i] == d[n + i] && r[i + 1] == d[n + i + 1] && r[i + 2] == d[n + i + 2];
    NoInkTripleAt(d, n + i);
    if IsSpace(d[n + i]) { SingleBlanksAt(d, n + i); }
  }

  lemma DrawnSettled(t: Text, s: Text)
    requires AllSettled(s) && DrawnFrom(t, s)
    ensures AllSettled(t)
  {
  }

  lemma SettledBeforeStrip(s: Text)
    ensures AllSettled(CollapseSpaces(CollapseRuns(Joined(s))))
  {
    var a := Canonicalise(s);
    ScanIsReference(false, a);
    CanonicaliseSettles(s);
    DropDraws(false, a);
    DrawnSettled(Joined(s), a);
    CollapseRunsDraws(Joined(s));
    DrawnSettled(CollapseRuns(Joined(s)), Joined(s));
    CollapseSpacesDraws(CollapseRuns(Joined(s)));
    DrawnSettled(CollapseSpaces(CollapseRuns(Joined(s))), CollapseRuns(Joined(s)));
  }

  lemma ShapeBeforeStrip(s: Text)
    ensures var d := CollapseSpaces(CollapseRuns(Joined(s)));
            NoInkTriple(d) && SingleBlanks(d) && NoInner(false, d)
  {
    ScanIsReference(false, Canonicalise(s));
    DropLeavesNoInner(false, Canonicalise(s));
    CollapseRunsNoInner(false, Joined(s));
    CollapseSpacesNoInner(false, CollapseRuns(Joined(s)));
    CollapseRunsNoTriple(Joined(s));
    CollapseSpacesShape(CollapseRuns(Joined(s)));
  }

  lemma StripIsSlice(d: Text) returns (n: nat, m: nat)
    requires NoInner(false, d)
    ensures n + m <= |d| && StripRight(StripLeft(d)) == d[n..n + m]
    ensures NoInner(false, d[n..n + m])
    ensures m > 0 ==> !IsSpace(d[n]) && !IsSpace(d[n + m - 1])
  {
    StripLeftIsSuffix(d);
    StripLeftNoInner(d);
    n :| 0 <= n <= |d| && StripLeft(d) == d[n..];
    var e := d[n..];
    StripRightIsPrefix(e);
    m :| 0 <= m <= |e| && StripRight(e) == e[..m];
    PrefixNoInner(false, e, m);
    SliceOfSuffix(d, n, m);
  }

  lemma SliceOfSuffix(d: Text, n: nat, m: nat)
    requires n + m <= |d|
    ensures d[n..][..m] == d[n..n + m]
    ensures m > 0 ==> d[n..][0] == d[n] && d[n..][m - 1] == d[n + m - 1]
  {
  }

  /** Every result is in normal form: no capital, zero-width or leetspeak character, no
      punctuation block between letters, no run of three, and only single inner
      blanks as whitespace. */
  lemma NormalizeIsCanonical(s: Text)
    ensures Canonical(NormalizeText(s))
  {
    var d := CollapseSpaces(CollapseRuns(Joined(s)));
    SettledBeforeStrip(s);
    ShapeBeforeStrip(s);
    var n, m := StripIsSlice(d);
    SliceIsCanonical(d, n, m);
  }

  // ---------------------------------------------------------------- fixed points

  lemma {:induction false} SettledUntouched(s: Text)
    requires AllSettled(s)
    ensures Canonicalise(s) == s
  {
    if s == [] {
    } else {
      CanonicaliseSplit(s);
      SettledUntouched(s[1..]);
    }
  }

  lemma TailHasNoBlock(s: Text)
    requires s != [] && forall i: nat, j: nat :: !BlockBetweenLetters(s, i, j)
    ensures forall i: nat, j: nat :: !BlockBetweenLetters(s[1..], i, j)
  {
    if i: nat, j: nat :| BlockBetweenLetters(s[1..], i, j) {
      assert BlockBetweenLetters(s, i + 1, j + 1);
    }
  }

  /** `inWord` holds only when a letter stands before the leading punctuation; then no
      letter may follow it. */
  lemma {:induction false} NoBlockUntouched(inWord: bool, s: Text)
    requires forall i: nat, j: nat :: !BlockBetweenLetters(s, i, j)
    requires inWord && s != [] && IsPunct(s[0]) ==> !LetterAhead(s)
    ensures DropInside(inWord, s) == s
    decreases |s|
  {
    if s == [] {
    } else {
      TailHasNoBlock(s);
      if IsLetter(s[0]) && |s| > 1 && IsPunct(s[1]) && LetterAhead(s[1..]) {
        LetterAheadOfBlock(s[1..]);
        assert BlockBetweenLetters(s, 0, 1 + PunctLength(s[1..]));
      }
      NoBlockUntouched(if IsPunct(s[0]) then inWord else IsLetter(s[0]), s[1..]);
    }
  }

  lemma {:induction false} NoTripleUntouched(s: Text)
    requires forall i :: 0 <= i < |s| - 2 ==> !(s[i] == s[i + 1] == s[i + 2])
    ensures CollapseRuns(s) == s
    decreases |s|
  {
    if s == [] {
    } else {
      assert RunLength(s) < 3;
      NoTripleUntouched(s[1..]);
    }
  }

  lemma {:induction false} SingleBlanksUntouched(s: Text)
    requires forall i :: 0 <= i < |s| && IsSpace(s[i]) ==> s[i] == ' ' && (i + 1 < |s| ==> !IsSpace(s[i + 1]))
    ensures CollapseSpaces(s) == s
    decreases |s|
  {
    if s == [] {
    } else {
      assert IsSpace(s[0]) ==> SpaceLength(s) == 1;
      SingleBlanksUntouched(s[1..]);
    }
  }

  lemma CanonicalIsFixed(s: Text)
    requires Canonical(s)
    ensures NormalizeText(s) == s
  {
    SettledUntouched(s);
    ScanIsReference(false, s);
    NoBlockUntouched(false, s);
    NoTripleUntouched(s);
    SingleBlanksUntouched(s);
  }

  /** The normaliser leaves a text alone exactly when it is in normal form. */
  lemma FixedExactlyWhenCanonical(s: Text)
    ensures NormalizeText(s) == s <==> Canonical(s)
  {
    NormalizeIsCanonical(s);
    if Canonical(s) { CanonicalIsFixed(s); }
  }

  lemma NormalizeIdempotent(s: Text)
    ensures NormalizeText(NormalizeText(s)) == NormalizeText(s)
  {
    NormalizeIsCanonical(s);
    CanonicalIsFixed(NormalizeText(s));
  }
}
