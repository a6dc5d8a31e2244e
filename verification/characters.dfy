/** The alphabet of the text model: ASCII and the seven zero-width code points that
    the normaliser strips.  On it NFKC is the identity and case folding is
    lower-casing.  The classes below are those of Python's `re` on that alphabet. */
module Characters {

  predicate IsZeroWidth(c: char) {
    '\U{200B}' <= c <= '\U{200F}' || c == '\U{2060}' || c == '\U{FEFF}'
  }

  type Sym = c: char | c < '\U{80}' || IsZeroWidth(c) witness 'a'

  type Text = seq<Sym>

  predicate IsUpper(c: Sym) { 'A' <= c <= 'Z' }

  predicate IsLower(c: Sym) { 'a' <= c <= 'z' }

  /** `[A-Za-z]`, which on this alphabet is also `[^\W\d_]`. */
  predicate IsLetter(c: Sym) { IsUpper(c) || IsLower(c) }

  predicate IsDigit(c: Sym) { '0' <= c <= '9' }

  /** `\s`: tab to carriage return, the four separators 28 to 31, and the blank. */
  predicate IsSpace(c: Sym) {
    '\U{09}' <= c <= '\U{0D}' || '\U{1C}' <= c <= ' '
  }

  /** `[^\w\s]|_`. */
  predicate IsPunct(c: Sym) { !IsLetter(c) && !IsDigit(c) && !IsSpace(c) }

  function Lower(c: Sym): Sym {
    if IsUpper(c) then c + ('a' - 'A') else c
  }

  function Upper(c: Sym): Sym {
    if IsLower(c) then c - ('a' - 'A') else c
  }

  /** The substitution table of the normaliser. */
  function Unleet(c: Sym): Sym {
    if c == '0' then 'o' else if c == '1' then 'i' else if c == '3' then 'e'
    else if c == '4' || c == '@' then 'a' else if c == '5' || c == '$' then 's'
    else if c == '7' then 't' else c
  }

  /** The substitution table of the leetspeak attack. */
  function Leet(c: Sym): Sym {
    if c == 'a' then '4' else if c == 'e' then '3' else if c == 'i' then '1'
    else if c == 'o' then '0' else if c == 's' then '5' else c
  }

  predicate IsVowel(c: Sym) {
    Lower(c) in {'a', 'e', 'i', 'o', 'u'}
  }
}
