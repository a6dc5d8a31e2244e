/** The deterministic evasion transformations of the evaluation suite. */
module Attacks {
  import opened Characters

  function Uppercase(s: Text): Text {
    if s == [] then [] else [Upper(s[0])] + Uppercase(s[1..])
  }

  /** Inserts `separator` at every boundary between two adjacent letters, which is
      what a substitution at a look-behind/look-ahead pair of `[A-Za-z]` does. */
  function InsertBetweenLetters(separator: Sym, s: Text): Text {
    if |s| < 2 then s
    else if IsLetter(s[0]) && IsLetter(s[1]) then
      [s[0], separator] + InsertBetweenLetters(separator, s[1..])
    else [s[0]] + InsertBetweenLetters(separator, s[1..])
  }

  function ZeroWidth(s: Text): Text {
    InsertBetweenLetters('\U{200B}', s)
  }

  function Leetspeak(s: Text): Text {
    if s == [] then [] else [Leet(s[0])] + Leetspeak(s[1..])
  }

  function PunctuationInjection(s: Text): Text {
    InsertBetweenLetters('.', s)
  }

  /** Length of the longest letter prefix. */
  function WordLength(s: Text): (n: nat)
    ensures n <= |s|
    ensures forall i :: 0 <= i < n ==> IsLetter(s[i])
    ensures n < |s| ==> !IsLetter(s[n])
  {
    if s == [] || !IsLetter(s[0]) then 0 else 1 + WordLength(s[1..])
  }

  /** The search loop of `flood`: the first vowel at `index` or later that is not the
      last character, or |word| when there is none. */
  function FirstVowel(word: Text, index: nat): (r: nat)
    requires index <= |word|
    ensures index <= r <= |word|
    ensures r < |word| ==> r < |word| - 1 && IsVowel(word[r])
    ensures forall i :: index <= i < r && i < |word| - 1 ==> !IsVowel(word[i])
    decreases |word| - index
  {
    if index >= |word| - 1 then |word|
    else if IsVowel(word[index]) then index
    else FirstVowel(word, index + 1)
  }

  function FloodWord(word: Text): Text
    requires |word| >= 4
  {
    var index := FirstVowel(word, 1);
    if index < |word| then
      word[..index] + [word[index], word[index], word[index]] + word[index + 1..]
    else word
  }

  /** Rewrites every maximal letter word of four characters or more. */
  function CharacterFlooding(s: Text): Text
    decreases |s|
  {
    if s == [] then []
    else
      var n := WordLength(s);
      if n >= 4 then FloodWord(s[..n]) + CharacterFlooding(s[n..])
      else [s[0]] + CharacterFlooding(s[1..])
  }
}
