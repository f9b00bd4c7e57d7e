/** The three rune predicates of Go's `unicode` package that the title-casing
    routine consults: `unicode.IsLetter`, `unicode.IsSpace` and
    `unicode.ToUpper`. The Unicode tables behind them are not reproduced: a
    `Table` carries any three functions, and the predicates below name the
    facts about the real tables that the proofs rely on. `Ascii` is one
    concrete table that has all of them. */
module Unicode {

  datatype Table = Table(isLetter: char -> bool, isSpace: char -> bool, toUpper: char -> char)

  /** Upper-casing an upper-case rune changes nothing. */
  ghost predicate UpperIdempotent(t: Table) {
    forall c :: t.toUpper(t.toUpper(c)) == t.toUpper(c)
  }

  /** The upper-case form of a letter is a letter. */
  ghost predicate UpperKeepsLetters(t: Table) {
    forall c :: t.isLetter(c) ==> t.isLetter(t.toUpper(c))
  }

  /** Upper-casing never turns a non-space rune into whitespace. */
  ghost predicate UpperKeepsNonSpaces(t: Table) {
    forall c :: !t.isSpace(c) ==> !t.isSpace(t.toUpper(c))
  }

  /** No rune is both a letter and whitespace. */
  ghost predicate NoLetterIsSpace(t: Table) {
    forall c :: t.isLetter(c) ==> !t.isSpace(c)
  }

  /** All the facts about Go's Unicode tables that the model uses. */
  ghost predicate Lawful(t: Table) {
    && UpperIdempotent(t)
    && UpperKeepsLetters(t)
    && UpperKeepsNonSpaces(t)
    && NoLetterIsSpace(t)
    && t.isSpace('\n')
  }

  /** Letters of the ASCII range. */
  predicate AsciiIsLetter(c: char): (b: bool)
    ensures b ==> c as int < 0x80
  {
    'a' <= c <= 'z' || 'A' <= c <= 'Z'
  }

  /** Go's `unicode.IsSpace` below U+0100: tab, line feed, vertical tab,
      form feed, carriage return, space, U+0085 (NEL) and U+00A0 (NBSP). */
  predicate Latin1IsSpace(c: char): (b: bool)
    ensures c as int >= 0x100 ==> !b
    ensures b ==> !AsciiIsLetter(c)
  {
    (9 <= c as int <= 13) || c == ' ' || c as int == 0x85 || c as int == 0xA0
  }

  /** Upper-casing of the ASCII range; every other rune is left as it is. */
  function AsciiToUpper(c: char): (u: char)
    ensures 'a' <= c <= 'z' ==> 'A' <= u <= 'Z' && u as int - 'A' as int == c as int - 'a' as int
    ensures AsciiIsLetter(c) ==> 'A' <= u <= 'Z'
    ensures !('a' <= c <= 'z') ==> u == c
  {
    if 'a' <= c <= 'z' then (c as int - 32) as char else c
  }

  const Ascii: Table := Table(AsciiIsLetter, Latin1IsSpace, AsciiToUpper)

  lemma AsciiIsLawful()
    ensures Lawful(Ascii)
  {
  }
}
