/** The regular expressions the listing depends on, kept abstract.

    A regular expression is built in JavaScript with `new RegExp(source, flags)`,
    which throws a `SyntaxError` when `source` is not a valid pattern. It is then
    sent to the document store, whose own regular-expression engine tests it
    against each stored title. Full regular-expression semantics are not modelled:
    an engine is any pair of functions, and `Sound` pins them down only for plain
    keywords, whose meaning is ASCII case-insensitive substring containment. */
module RegExp {

  /** A compiled regular expression: its source text and whether the `i` flag is set. */
  datatype Pattern = Pattern(source: string, ignoreCase: bool)

  /** An abstract pair of engines: which sources JavaScript's `RegExp` constructor
      accepts, and whether the store finds a match of a pattern somewhere in a string. */
  datatype RegexEngine = RegexEngine(compiles: string -> bool, test: (Pattern, string) -> bool)

  /** The characters that carry meaning in a regular-expression source. */
  predicate IsMetacharacter(c: char)
  {
    c in "\\^$.|?*+()[]{}"
  }

  /** A keyword that is ASCII, holds no NUL and no metacharacter: as a pattern
      source it stands for itself, character by character. Non-ASCII keywords are
      left out of the concrete meaning, because case-insensitive matching folds the
      case of non-ASCII letters as well. */
  predicate PlainKeyword(s: string)
  {
    forall i :: 0 <= i < |s| ==> 0 < s[i] as int < 128 && !IsMetacharacter(s[i])
  }

  /** The non-ASCII characters that some Unicode case mapping relates to an ASCII
      letter: dotted capital I, dotless small i, long s and the Kelvin sign. A
      case-insensitive matcher may let an ASCII keyword letter match them. */
  predicate HasAsciiCaseVariant(c: char)
  {
    c in "\U{0130}\U{0131}\U{017F}\U{212A}"
  }

  /** A text in which ASCII case-insensitive comparison is all that case folding does. */
  predicate FreeOfAsciiCaseVariants(text: string)
  {
    forall i :: 0 <= i < |text| ==> !HasAsciiCaseVariant(text[i])
  }

  /** ASCII lower-casing; every other character is left as it is. */
  function AsciiLower(c: char): char
  {
    if 'A' <= c <= 'Z' then (c as int + 32) as char else c
  }

  /** `keyword` occurs in `text` starting at index `i`, ignoring ASCII case. */
  predicate OccursAt(text: string, keyword: string, i: nat)
  {
    i + |keyword| <= |text| &&
    forall j :: 0 <= j < |keyword| ==> AsciiLower(text[i + j]) == AsciiLower(keyword[j])
  }

  /** `keyword` occurs somewhere in `text`, ignoring ASCII case. */
  predicate ContainsIgnoringAsciiCase(text: string, keyword: string)
  {
    exists i: nat | i <= |text| :: OccursAt(text, keyword, i)
  }

  /** What the two engines do with a plain keyword. JavaScript's `RegExp`
      constructor accepts it. The store's case-insensitive matcher matches every
      text containing it up to ASCII case; on a text free of the characters with
      ASCII case variants, it matches no other text. */
  ghost predicate Sound(e: RegexEngine)
  {
    && (forall s :: PlainKeyword(s) ==> e.compiles(s))
    && (forall p: Pattern, text: string ::
          p.ignoreCase && PlainKeyword(p.source) && ContainsIgnoringAsciiCase(text, p.source) ==>
            e.test(p, text))
    && (forall p: Pattern, text: string ::
          p.ignoreCase && PlainKeyword(p.source) && FreeOfAsciiCaseVariants(text) && e.test(p, text) ==>
            ContainsIgnoringAsciiCase(text, p.source))
  }

  /** An engine that knows only plain keywords; it shows that `Sound` can be met. */
  function PlainEngine(): RegexEngine
  {
    RegexEngine(s => PlainKeyword(s), (p: Pattern, text: string) => ContainsIgnoringAsciiCase(text, p.source))
  }

  lemma PlainEngineIsSound()
    ensures Sound(PlainEngine())
  {
  }
}
