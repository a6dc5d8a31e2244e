/** What normalisation keeps and forgets of a text, and what each attack does to it, character
    by character. */
module TextEffects {
  import opened Characters
  import opened Normalization
  import opened Attacks
  import opened AttackLaws

  // ---------------------------------------------------------------- the alphabet

  /** The seven zero-width characters, of all characters. */
  lemma ZeroWidthByCode(c: char)
    ensures IsZeroWidth(c) <==> c in {'\U{200B}', '\U{200C}', '\U{200D}', '\U{200E}', '\U{200F}', '\U{2060}', '\U{FEFF}'}
  {
  }

  /** The character classes by their codes. */
  lemma ClassesByCode(c: Sym)
    ensures IsLetter(c) <==> 65 <= c as int <= 90 || 97 <= c as int <= 122
    ensures IsDigit(c) <==> 48 <= c as int <= 57
    ensures IsSpace(c) <==> 9 <= c as int <= 13 || 28 <= c as int <= 32
    ensures IsPunct(c) <==> c as int <= 8 || 14 <= c as int <= 27 || 33 <= c as int <= 47 || 58 <= c as int <= 64
                            || 91 <= c as int <= 96 || c as int >= 123
    ensures IsVowel(c) <==> c in {'a', 'e', 'i', 'o', 'u', 'A', 'E', 'I', 'O', 'U'}
  {
  }

  // ---------------------------------------------------------------- what normalisation forgets

  lemma {:induction false} SameImage(s: Text, i: nat, c: Sym)
    requires i < |s| && Image(s[i]) == Image(c)
    ensures Canonicalise(s[i := c]) == Canonicalise(s)
  {
    var rest := s[1..];
    assert s == [s[0]] + rest;
    CanonicaliseCons(s[0], rest);
    if i == 0 {
      CanonicaliseCons(c, rest);
      assert s[i := c] == [c] + rest;
    } else {
      SameImage(rest, i - 1, c);
      CanonicaliseCons(s[0], rest[i - 1 := c]);
      assert s[i := c] == [s[0]] + rest[i - 1 := c];
    }
  }

  /** Each sign of the table reads as its letter, wherever it stands. */
  lemma SignReadsAsLetter(s: Text, i: nat, letter: Sym)
    requires i < |s|
    requires (s[i], letter) in {('0', 'o'), ('1', 'i'), ('3', 'e'), ('4', 'a'), ('5', 's'), ('7', 't'), ('@', 'a'), ('$', 's')}
    ensures NormalizeText(s) == NormalizeText(s[i := letter])
  {
    SameImage(s, i, letter);
  }

  /** So does each capital as its small letter. */
  lemma CapitalReadsAsSmall(s: Text, i: nat, small: Sym)
    requires i < |s| && 'A' <= s[i] <= 'Z' && small as int == s[i] as int + 32
    ensures NormalizeText(s) == NormalizeText(s[i := small])
  {
    SameImage(s, i, small);
  }

  lemma {:induction false} NoImage(s: Text, i: nat, c: Sym)
    requires i <= |s| && Image(c) == []
    ensures Canonicalise(s[..i] + [c] + s[i..]) == Canonicalise(s)
  {
    var longer := s[..i] + [c] + s[i..];
    if i == 0 {
      CanonicaliseCons(c, s);
      assert longer == [c] + s;
    } else {
      var rest := s[1..];
      var shorter := rest[..i - 1] + [c] + rest[i - 1..];
      NoImage(rest, i - 1, c);
      assert s == [s[0]] + rest && longer == [s[0]] + shorter;
      CanonicaliseCons(s[0], rest);
      CanonicaliseCons(s[0], shorter);
    }
  }

  /** Each of the seven zero-width characters goes unnoticed, wherever it stands. */
  lemma ZeroWidthUnnoticed(s: Text, i: nat, c: Sym)
    requires i <= |s|
    requires c in {'\U{200B}', '\U{200C}', '\U{200D}', '\U{200E}', '\U{200F}', '\U{2060}', '\U{FEFF}'}
    ensures NormalizeText(s[..i] + [c] + s[i..]) == NormalizeText(s)
  {
    NoImage(s, i, c);
  }

  // ---------------------------------------------------------------- what it keeps

  /** The text without marks, with every stretch of whitespace as one blank and every run of
      one character as that character; `last` stands before it. */
  function Skeleton(last: Sym, s: Text): Text
    decreases |s|
  {
    if s == [] then []
    else
      var c := if IsSpace(s[0]) then ' ' else s[0];
      if IsPunct(c) || c == last then Skeleton(last, s[1..]) else [c] + Skeleton(c, s[1..])
  }

  /** The words of the text: its skeleton with a blank at either end. */
  function Words(s: Text): Text {
    Skeleton(' ', s + [' '])
  }

  /** What stands before the rest of a text once `s` is read. */
  function LastOf(last: Sym, s: Text): Sym
    decreases |s|
  {
    if s == [] then last
    else
      var c := if IsSpace(s[0]) then ' ' else s[0];
      LastOf(if IsPunct(c) then last else c, s[1..])
  }

  lemma {:induction false} SkeletonConcat(last: Sym, s: Text, t: Text)
    ensures Skeleton(last, s + t) == Skeleton(last, s) + Skeleton(LastOf(last, s), t)
    decreases |s|
  {
    if s == [] {
      assert s + t == t;
    } else {
      var c := if IsSpace(s[0]) then ' ' else s[0];
      SkeletonConcat(if IsPunct(c) then last else c, s[1..], t);
      assert (s + t)[1..] == s[1..] + t;
    }
  }

  /** Two texts with the same skeleton, whatever stands before and after them. */
  ghost predicate Alike(s: Text, t: Text) {
    forall last :: Skeleton(last, s) == Skeleton(last, t) && LastOf(last, s) == LastOf(last, t)
  }

  lemma AlikeCons(c: Sym, s: Text, t: Text)
    requires Alike(s, t)
    ensures Alike([c] + s, [c] + t)
  {
    forall last
      ensures Skeleton(last, [c] + s) == Skeleton(last, [c] + t) && LastOf(last, [c] + s) == LastOf(last, [c] + t)
    {
      assert ([c] + s)[1..] == s && ([c] + t)[1..] == t;
    }
  }

  lemma {:induction false} DropAlike(inWord: bool, s: Text)
    ensures Alike(DropInside(inWord, s), s)
    decreases |s|
  {
    if s == [] {
    } else {
      var next := if IsPunct(s[0]) then inWord else IsLetter(s[0]);
      DropAlike(next, s[1..]);
      AlikeCons(s[0], DropInside(next, s[1..]), s[1..]);
      assert s == [s[0]] + s[1..];
    }
  }

  /** All characters are the same, or all are whitespace. */
  predicate Uniform(s: Text) {
    forall i :: 0 <= i < |s| ==> s[i] == s[0] || (IsSpace(s[i]) && IsSpace(s[0]))
  }

  lemma {:induction false} RunAlike(c: Sym, s: Text, n: nat)
    requires 0 < n <= |s| && Uniform(s[..n]) && (c == s[0] || (IsSpace(c) && IsSpace(s[0])))
    ensures Alike([c] + s[n..], s)
    decreases n
  {
    assert s == [s[0]] + s[1..];
    if n == 1 {
      assert Alike([c] + s[1..], s) by { assert ([c] + s[1..])[1..] == s[1..]; }
    } else {
      var rest := s[1..];
      assert rest[..n - 1] == s[..n][1..] && rest[n - 1..] == s[n..];
      RunAlike(c, rest, n - 1);
      assert rest == [rest[0]] + rest[1..] && s[1] == rest[0];
      assert Alike(rest, s) by {
        forall last ensures Skeleton(last, rest) == Skeleton(last, s) && LastOf(last, rest) == LastOf(last, s) {
          TwiceAlike(last, s);
        }
      }
    }
  }

  lemma TwiceAlike(last: Sym, s: Text)
    requires |s| >= 2 && (s[0] == s[1] || (IsSpace(s[0]) && IsSpace(s[1])))
    ensures Skeleton(last, s[1..]) == Skeleton(last, s) && LastOf(last, s[1..]) == LastOf(last, s)
  {
  }

  lemma AlikeJoins(s: Text, t: Text, u: Text)
    requires Alike(s, t) && Alike(t, u)
    ensures Alike(s, u)
  {
  }

  lemma {:induction false} CollapseRunsAlike(s: Text)
    ensures Alike(CollapseRuns(s), s)
    decreases |s|
  {
    if s == [] {
    } else {
      var n := if RunLength(s) >= 3 && s[0] != '\n' then RunLength(s) else 1;
      CollapseRunsAlike(s[n..]);
      AlikeCons(s[0], CollapseRuns(s[n..]), s[n..]);
      RunAlike(s[0], s, n);
      AlikeJoins(CollapseRuns(s), [s[0]] + s[n..], s);
    }
  }

  lemma {:induction false} CollapseSpacesAlike(s: Text)
    ensures Alike(CollapseSpaces(s), s)
    decreases |s|
  {
    if s == [] {
    } else {
      var n, c := if IsSpace(s[0]) then SpaceLength(s) else 1, if IsSpace(s[0]) then ' ' else s[0];
      CollapseSpacesAlike(s[n..]);
      AlikeCons(c, CollapseSpaces(s[n..]), s[n..]);
      RunAlike(c, s, n);
      AlikeJoins(CollapseSpaces(s), [c] + s[n..], s);
    }
  }

  lemma {:induction false} StripLeftWords(s: Text)
    ensures Words(StripLeft(s)) == Words(s)
  {
    if s != [] && IsSpace(s[0]) {
      StripLeftWords(s[1..]);
      assert (s + [' '])[1..] == s[1..] + [' '];
    }
  }

  lemma {:induction false} StripRightWords(s: Text)
    ensures Words(StripRight(s)) == Words(s)
  {
    if s != [] && IsSpace(s[|s| - 1]) {
      var rest := s[..|s| - 1];
      StripRightWords(rest);
      assert s + [' '] == rest + [s[|s| - 1], ' '];
      SkeletonConcat(' ', rest, [s[|s| - 1], ' ']);
      SkeletonConcat(' ', rest, [' ']);
      TwoBlanks(LastOf(' ', rest), s[|s| - 1]);
    }
  }

  lemma TwoBlanks(last: Sym, blank: Sym)
    requires IsSpace(blank)
    ensures Skeleton(last, [blank, ' ']) == Skeleton(last, [' '])
  {
    assert [blank, ' '][1..] == [' '] && [' '][1..] == [];
  }

  lemma AlikeWords(s: Text, t: Text)
    requires Alike(s, t)
    ensures Words(s) == Words(t)
  {
    SkeletonConcat(' ', s, [' ']);
    SkeletonConcat(' ', t, [' ']);
  }

  /** Normalisation keeps the words: up to repetition, every letter, digit and blank of the
      text after case, zero-width and table is still there, in order. */
  lemma WordsKept(s: Text)
    ensures Words(NormalizeText(s)) == Words(Canonicalise(s))
  {
    var joined := Joined(s);
    ScanIsReference(false, Canonicalise(s));
    DropAlike(false, Canonicalise(s));
    CollapseRunsAlike(joined);
    AlikeJoins(CollapseRuns(joined), joined, Canonicalise(s));
    CollapseSpacesAlike(CollapseRuns(joined));
    AlikeJoins(CollapseSpaces(CollapseRuns(joined)), CollapseRuns(joined), Canonicalise(s));
    AlikeWords(CollapseSpaces(CollapseRuns(joined)), Canonicalise(s));
    StripLeftWords(CollapseSpaces(CollapseRuns(joined)));
    StripRightWords(StripLeft(CollapseSpaces(CollapseRuns(joined))));
  }

  /** There, each character is its small letter or the letter of its sign; the zero-width
      ones are gone. */
  lemma ReadOne(s: Text)
    requires s != []
    ensures Canonicalise(s)
         == (if s[0] >= '\U{80}' then []
             else if 'A' <= s[0] <= 'Z' then [s[0] + (32 as char)]
             else if s[0] == '0' then ['o'] else if s[0] == '1' then ['i'] else if s[0] == '3' then ['e']
             else if s[0] == '4' || s[0] == '@' then ['a'] else if s[0] == '5' || s[0] == '$' then ['s']
             else if s[0] == '7' then ['t'] else [s[0]]) + Canonicalise(s[1..])
  {
    CanonicaliseSplit(s);
  }

  // ---------------------------------------------------------------- what the attacks do

  /** Every small letter becomes its capital, and nothing else changes. */
  lemma {:induction false} UppercaseEffect(s: Text, i: nat)
    requires i < |s|
    ensures |Uppercase(s)| == |s|
    ensures Uppercase(s)[i] as int == if 97 <= s[i] as int <= 122 then s[i] as int - 32 else s[i] as int
  {
    if i == 0 {
      if |s| > 1 { UppercaseEffect(s[1..], 0); }
    } else {
      UppercaseEffect(s[1..], i - 1);
    }
  }

  /** Every small a, e, i, o and s becomes its digit, and nothing else changes. */
  lemma {:induction false} LeetspeakEffect(s: Text, i: nat)
    requires i < |s|
    ensures |Leetspeak(s)| == |s|
    ensures Leetspeak(s)[i] == if s[i] == 'a' then '4' else if s[i] == 'e' then '3' else if s[i] == 'i' then '1'
                               else if s[i] == 'o' then '0' else if s[i] == 's' then '5' else s[i]
  {
    if i == 0 {
      if |s| > 1 { LeetspeakEffect(s[1..], 0); }
    } else {
      LeetspeakEffect(s[1..], i - 1);
    }
  }

  /** Whether letters stand at `i` and right after it. */
  predicate Gap(s: Text, i: int) {
    0 <= i && i + 1 < |s| && IsLetter(s[i]) && IsLetter(s[i + 1])
  }

  /** How many such places there are before `n`. */
  function Gaps(s: Text, n: nat): nat {
    if n == 0 then 0 else Gaps(s, n - 1) + if Gap(s, n - 1) then 1 else 0
  }

  lemma {:induction false} GapsShift(s: Text, n: nat)
    requires s != []
    ensures Gaps(s, n + 1) == (if Gap(s, 0) then 1 else 0) + Gaps(s[1..], n)
  {
    if n == 0 {
    } else {
      GapsShift(s, n - 1);
      assert Gap(s, n) <==> Gap(s[1..], n - 1);
    }
  }

  /** Exactly one separator stands between any two adjacent letters, and nothing else
      changes: character `i` moves by the separators before it. */
  lemma {:induction false} InsertionEffect(separator: Sym, s: Text, i: nat)
    requires i < |s|
    ensures var r := InsertBetweenLetters(separator, s);
            && |r| == |s| + Gaps(s, |s|) && i + Gaps(s, i) < |r| && r[i + Gaps(s, i)] == s[i]
            && (Gap(s, i) ==> i + Gaps(s, i) + 1 < |r| && r[i + Gaps(s, i) + 1] == separator)
  {
    if |s| < 2 {
    } else {
      InsertionEffect(separator, s[1..], if i == 0 then 0 else i - 1);
      GapsShift(s, |s| - 1);
      if i > 0 {
        GapsShift(s, i - 1);
        assert Gap(s, i) <==> Gap(s[1..], i - 1);
      }
    }
  }

  /** The two attacks that insert: a zero-width space, and a dot. */
  lemma InsertingAttacks(s: Text)
    ensures ZeroWidth(s) == InsertBetweenLetters(0x200B as char, s)
    ensures PunctuationInjection(s) == InsertBetweenLetters(46 as char, s)
  {
  }
}
