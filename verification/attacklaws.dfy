/** Four of the five attacks are cancelled by the normaliser, on every text. */
module AttackLaws {
  import opened Characters
  import opened Normalization
  import opened Attacks

  /** What one character becomes under the first three rewrites. */
  function Image(c: Sym): Text {
    if IsZeroWidth(Lower(c)) then [] else [Unleet(Lower(c))]
  }

  /** Whether the first character of `s` that is not punctuation is a letter. */
  predicate LetterAhead(s: Text) {
    s != [] && if IsPunct(s[0]) then LetterAhead(s[1..]) else IsLetter(s[0])
  }

  /** Reference form of `DropIntraWord`, one character at a time: a punctuation
      character goes exactly when the nearest other character on either side is a
      letter.  `inWord` says so for the left side. */
  function DropInside(inWord: bool, s: Text): Text
    decreases |s|
  {
    if s == [] then []
    else if IsPunct(s[0]) then
      if inWord && LetterAhead(s[1..]) then DropInside(inWord, s[1..])
      else [s[0]] + DropInside(inWord, s[1..])
    else [s[0]] + DropInside(IsLetter(s[0]), s[1..])
  }

  lemma DropInsideCons(inWord: bool, c: Sym, s: Text)
    ensures DropInside(inWord, [c] + s)
         == if IsPunct(c) then
              if inWord && LetterAhead(s) then DropInside(inWord, s) else [c] + DropInside(inWord, s)
            else [c] + DropInside(IsLetter(c), s)
    ensures LetterAhead([c] + s) == if IsPunct(c) then LetterAhead(s) else IsLetter(c)
  {
    assert ([c] + s)[1..] == s;
  }

  lemma {:induction false} LetterAheadOfBlock(s: Text)
    ensures LetterAhead(s) <==> PunctLength(s) < |s| && IsLetter(s[PunctLength(s)])
  {
    if s == [] || !IsPunct(s[0]) {
    } else {
      LetterAheadOfBlock(s[1..]);
    }
  }

  /** A block between letters goes as a whole. */
  lemma {:induction false} DropWholeBlock(s: Text, n: nat)
    requires n <= PunctLength(s)
    requires LetterAhead(s)
    ensures DropInside(true, s) == DropInside(true, s[n..])
    ensures LetterAhead(s[n..])
  {
    if n > 0 {
      DropWholeBlock(s[1..], n - 1);
      assert s[1..][n - 1..] == s[n..];
    } else {
      assert s[n..] == s;
    }
  }

  /** A block that does not end at a letter stays as a whole, and so does one that
      does not start after a letter. */
  lemma {:induction false} KeepBlock(inWord: bool, s: Text)
    requires !inWord || !LetterAhead(s)
    requires s != [] && IsPunct(s[0])
    ensures DropInside(inWord, s) == [s[0]] + DropInside(inWord, s[1..])
    ensures DropInside(inWord, s) == DropInside(false, s)
    decreases |s|
  {
    if |s| > 1 && IsPunct(s[1]) {
      KeepBlock(inWord, s[1..]);
    }
  }

  /** The regular-expression scan computes the reference form. */
  lemma {:induction false} ScanIsReference(afterLetter: bool, s: Text)
    ensures DropIntraWord(afterLetter, s) == DropInside(afterLetter, s)
    decreases |s|
  {
    if s == [] {
    } else {
      var n := PunctLength(s);
      LetterAheadOfBlock(s);
      if afterLetter && 0 < n < |s| && IsLetter(s[n]) {
        DropWholeBlock(s, n);
        ScanIsReference(false, s[n..]);
      } else {
        ScanIsReference(IsLetter(s[0]), s[1..]);
        if IsPunct(s[0]) {
          KeepBlock(afterLetter, s);
          KeepBlock(false, s);
        }
      }
    }
  }

  lemma CanonicaliseSplit(s: Text)
    requires s != []
    ensures Canonicalise(s) == Image(s[0]) + Canonicalise(s[1..])
  {
    var t := FoldCase(s);
    assert t[1..] == FoldCase(s[1..]);
    if !IsZeroWidth(t[0]) {
      assert StripZeroWidth(t)[1..] == StripZeroWidth(t[1..]);
    }
  }

  lemma CanonicaliseCons(c: Sym, s: Text)
    ensures Canonicalise([c] + s) == Image(c) + Canonicalise(s)
  {
    CanonicaliseSplit([c] + s);
    assert ([c] + s)[1..] == s;
  }

  lemma {:induction false} UppercaseCanonical(s: Text)
    ensures Canonicalise(Uppercase(s)) == Canonicalise(s)
  {
    if s == [] {
    } else {
      CanonicaliseSplit(s);
      CanonicaliseCons(Upper(s[0]), Uppercase(s[1..]));
      UppercaseCanonical(s[1..]);
    }
  }

  lemma LeetImage(c: Sym)
    ensures Image(Leet(c)) == Image(c)
  {
  }

  lemma {:induction false} LeetspeakCanonical(s: Text)
    ensures Canonicalise(Leetspeak(s)) == Canonicalise(s)
  {
    if s == [] {
    } else {
      CanonicaliseSplit(s);
      LeetImage(s[0]);
      assert Leetspeak(s) == [Leet(s[0])] + Leetspeak(s[1..]);
      CanonicaliseCons(Leet(s[0]), Leetspeak(s[1..]));
      LeetspeakCanonical(s[1..]);
    }
  }

  /** Unfolds one insertion under the first three rewrites. */
  lemma InsertionCanonical(separator: Sym, s: Text)
    requires |s| >= 2
    ensures var rest := Canonicalise(InsertBetweenLetters(separator, s[1..]));
            Canonicalise(InsertBetweenLetters(separator, s)) == Image(s[0])
              + (if IsLetter(s[0]) && IsLetter(s[1]) then Image(separator) + rest else rest)
  {
    var rest := InsertBetweenLetters(separator, s[1..]);
    if IsLetter(s[0]) && IsLetter(s[1]) {
      CanonicaliseCons(separator, rest);
      CanonicaliseCons(s[0], [separator] + rest);
      assert [s[0], separator] + rest == [s[0]] + ([separator] + rest);
    } else {
      CanonicaliseCons(s[0], rest);
    }
  }

  lemma {:induction false} ZeroWidthCanonical(s: Text)
    ensures Canonicalise(ZeroWidth(s)) == Canonicalise(s)
  {
    if |s| >= 2 {
      InsertionCanonical('\U{200B}', s);
      CanonicaliseSplit(s);
      ZeroWidthCanonical(s[1..]);
      assert Image('\U{200B}') + Canonicalise(s[1..]) == Canonicalise(s[1..]);
    }
  }

  lemma LetterHeads(s: Text)
    requires s != [] && IsLetter(s[0])
    ensures LetterAhead(Canonicalise(PunctuationInjection(s)))
  {
    CanonicaliseSplit(PunctuationInjection(s));
  }

  /** An injected dot goes, because the letter `a` precedes it and a letter follows. */
  lemma DotDropped(inWord: bool, a: Sym, rest: Text)
    requires IsLetter(a) && LetterAhead(rest)
    ensures DropInside(inWord, [a] + (['.'] + rest)) == [a] + DropInside(true, rest)
    ensures LetterAhead([a] + (['.'] + rest))
  {
    DropInsideCons(inWord, a, ['.'] + rest);
    DropInsideCons(true, '.', rest);
  }

  lemma ImageDropped(inWord: bool, c: Sym, s: Text, t: Text)
    requires LetterAhead(s) == LetterAhead(t)
    requires forall w :: DropInside(w, s) == DropInside(w, t)
    ensures LetterAhead(Image(c) + s) == LetterAhead(Image(c) + t)
    ensures DropInside(inWord, Image(c) + s) == DropInside(inWord, Image(c) + t)
  {
    if Image(c) == [] {
      assert Image(c) + s == s && Image(c) + t == t;
    } else {
      DropInsideCons(inWord, Unleet(Lower(c)), s);
      DropInsideCons(inWord, Unleet(Lower(c)), t);
    }
  }

  /** Injected dots are blocks between two letters, so deleting blocks deletes them
      and changes nothing about the other blocks. */
  lemma {:induction false} PunctuationJoined(inWord: bool, s: Text)
    ensures LetterAhead(Canonicalise(PunctuationInjection(s))) == LetterAhead(Canonicalise(s))
    ensures DropInside(inWord, Canonicalise(PunctuationInjection(s)))
         == DropInside(inWord, Canonicalise(s))
    decreases |s|
  {
    if |s| >= 2 {
      var dotted, plain := Canonicalise(PunctuationInjection(s[1..])), Canonicalise(s[1..]);
      InsertionCanonical('.', s);
      CanonicaliseSplit(s);
      PunctuationJoined(true, s[1..]);
      PunctuationJoined(false, s[1..]);
      if IsLetter(s[0]) && IsLetter(s[1]) {
        var a := Unleet(Lower(s[0]));
        assert Image(s[0]) == [a] && Image('.') == ['.'];
        LetterHeads(s[1..]);
        DotDropped(inWord, a, dotted);
        DropInsideCons(inWord, a, plain);
      } else {
        ImageDropped(inWord, s[0], dotted, plain);
      }
    }
  }

  lemma UppercaseCancelled(s: Text)
    ensures NormalizeText(Uppercase(s)) == NormalizeText(s)
  {
    UppercaseCanonical(s);
  }

  lemma ZeroWidthCancelled(s: Text)
    ensures NormalizeText(ZeroWidth(s)) == NormalizeText(s)
  {
    ZeroWidthCanonical(s);
  }

  lemma LeetspeakCancelled(s: Text)
    ensures NormalizeText(Leetspeak(s)) == NormalizeText(s)
  {
    LeetspeakCanonical(s);
  }

  lemma PunctuationCancelled(s: Text)
    ensures NormalizeText(PunctuationInjection(s)) == NormalizeText(s)
  {
    ScanIsReference(false, Canonicalise(PunctuationInjection(s)));
    ScanIsReference(false, Canonicalise(s));
    PunctuationJoined(false, s);
  }
}
