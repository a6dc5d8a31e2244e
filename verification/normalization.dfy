/** `normalize_text` as the chain of string rewrites it is.  Every regular expression
    is a left-to-right scan that tries to match at the current position, emits the
    replacement and jumps over the match, or emits one character and moves on. */
module Normalization {
  import opened Characters

  function FoldCase(s: Text): Text
  {
    if s == [] then [] else [Lower(s[0])] + FoldCase(s[1..])
  }

  function StripZeroWidth(s: Text): Text
  {
    if s == [] then []
    else if IsZeroWidth(s[0]) then StripZeroWidth(s[1..])
    else [s[0]] + StripZeroWidth(s[1..])
  }

  function Translate(s: Text): Text
  {
    if s == [] then [] else [Unleet(s[0])] + Translate(s[1..])
  }

  /** Length of the longest punctuation prefix. */
  function PunctLength(s: Text): (n: nat)
    ensures n <= |s|
    ensures forall i :: 0 <= i < n ==> IsPunct(s[i])
    ensures n < |s| ==> !IsPunct(s[n])
  {
    if s == [] || !IsPunct(s[0]) then 0 else 1 + PunctLength(s[1..])
  }

  /** Deletes a punctuation block that has a letter right before and right after it.
      `afterLetter` is the look-behind: whether the character just left of `s` is a
      letter. */
  function DropIntraWord(afterLetter: bool, s: Text): Text
    decreases |s|
  {
    if s == [] then []
    else
      var n := PunctLength(s);
      if afterLetter && 0 < n < |s| && IsLetter(s[n]) then
        DropIntraWord(false, s[n..])
      else
        [s[0]] + DropIntraWord(IsLetter(s[0]), s[1..])
  }

  /** Length of the run of equal characters at the front. */
  function RunLength(s: Text): (n: nat)
    ensures n <= |s|
    ensures s != [] ==> n >= 1
    ensures forall i :: 0 <= i < n ==> s[i] == s[0]
    ensures n < |s| ==> s[n] != s[0]
  {
    if |s| < 2 then |s| else if s[0] == s[1] then 1 + RunLength(s[1..]) else 1
  }

  /** Reduces a run of three or more to one; `.` does not match the line feed. */
  function CollapseRuns(s: Text): Text
    decreases |s|
  {
    if s == [] then []
    else if RunLength(s) >= 3 && s[0] != '\n' then [s[0]] + CollapseRuns(s[RunLength(s)..])
    else [s[0]] + CollapseRuns(s[1..])
  }

  /** Length of the longest whitespace prefix. */
  function SpaceLength(s: Text): (n: nat)
    ensures n <= |s|
    ensures forall i :: 0 <= i < n ==> IsSpace(s[i])
    ensures n < |s| ==> !IsSpace(s[n])
  {
    if s == [] || !IsSpace(s[0]) then 0 else 1 + SpaceLength(s[1..])
  }

  function CollapseSpaces(s: Text): Text
    decreases |s|
  {
    if s == [] then []
    else if IsSpace(s[0]) then [' '] + CollapseSpaces(s[SpaceLength(s)..])
    else [s[0]] + CollapseSpaces(s[1..])
  }

  function StripLeft(s: Text): Text {
    if s != [] && IsSpace(s[0]) then StripLeft(s[1..]) else s
  }

  function StripRight(s: Text): Text {
    if s != [] && IsSpace(s[|s| - 1]) then StripRight(s[..|s| - 1]) else s
  }

  /** The first three rewrites, which look at one character at a time. */
  function Canonicalise(s: Text): Text {
    Translate(StripZeroWidth(FoldCase(s)))
  }

  /** The first four rewrites: the text on which runs are counted. */
  function Joined(s: Text): Text {
    DropIntraWord(false, Canonicalise(s))
  }

  function NormalizeText(s: Text): Text {
    StripRight(StripLeft(CollapseSpaces(CollapseRuns(Joined(s)))))
  }
}
