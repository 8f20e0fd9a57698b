/**
 The country reference the location entity consults: a name -> alpha-2 code
 table and a code -> population table. Their contents live in `app/utils`,
 which is not part of this model; here they are finite tables of unknown
 contents, and only the behaviour `app/location.py` relies on is defined:
 an unmatched name resolves to the sentinel code "XX", and the derived code
 is upper-cased.
 */
module Countries {
  import opened Wrappers

  /** The code a name resolves to when the table has no match. */
  const Unknown: string := "XX"

  /** The two lookup tables, of unspecified contents. */
  datatype CountryTable = CountryTable(
    codes: map<string, string>,
    populations: map<string, int>)

  predicate IsAsciiLetter(c: char)
  {
    'a' <= c <= 'z' || 'A' <= c <= 'Z'
  }

  predicate IsAsciiUpper(c: char)
  {
    'A' <= c <= 'Z'
  }

  function UpperChar(c: char): (r: char)
    ensures 'a' <= c <= 'z' ==> IsAsciiUpper(r)
    ensures !('a' <= c <= 'z') ==> r == c
  {
    if 'a' <= c <= 'z' then (c as int - 'a' as int + 'A' as int) as char else c
  }

  /** Python's `str.upper()`, restricted to the ASCII letters. */
  function Upper(s: string): (r: string)
    ensures |r| == |s|
    ensures forall i :: 0 <= i < |s| ==> r[i] == UpperChar(s[i])
    ensures forall i :: 0 <= i < |s| && IsAsciiLetter(s[i]) ==> IsAsciiUpper(r[i])
  {
    if s == [] then [] else [UpperChar(s[0])] + Upper(s[1..])
  }

  /** An alpha-2 code: exactly two upper-case ASCII letters. */
  predicate IsAlpha2(code: string)
  {
    |code| == 2 && IsAsciiUpper(code[0]) && IsAsciiUpper(code[1])
  }

  /*
   Assumptions about the tables' contents, each stated on its own so that a
   property needs only the one it uses. The tables themselves are not part
   of this model.
   */

  /** Every matched name maps to a non-empty code. */
  ghost predicate CodesNonEmpty(t: CountryTable)
  {
    forall n :: n in t.codes ==> t.codes[n] != ""
  }

  /** Every matched name maps to two ASCII letters, of either case. */
  ghost predicate CodesAreLetterPairs(t: CountryTable)
  {
    forall n :: n in t.codes ==>
      |t.codes[n]| == 2 && IsAsciiLetter(t.codes[n][0]) && IsAsciiLetter(t.codes[n][1])
  }

  /** No matched name maps to the sentinel. */
  ghost predicate NoMatchedSentinel(t: CountryTable)
  {
    forall n :: n in t.codes ==> Upper(t.codes[n]) != Unknown
  }

  /** Every matched code other than the sentinel has a non-zero population. */
  ghost predicate KnownCodesPopulated(t: CountryTable)
  {
    forall n :: n in t.codes && Upper(t.codes[n]) != Unknown ==>
      Upper(t.codes[n]) in t.populations && t.populations[Upper(t.codes[n])] != 0
  }

  /** `countries.country_code(name)`: never fails; "XX" on a miss. */
  function ResolveCode(t: CountryTable, name: string): (r: string)
    ensures name !in t.codes ==> r == Unknown
    ensures name in t.codes ==> r == t.codes[name]
  {
    if name in t.codes then t.codes[name] else Unknown
  }

  /** `country_population(code)`: the population, or None on a miss. */
  function ResolvePopulation(t: CountryTable, code: string): (r: Option<int>)
    ensures code in t.populations <==> r.Some?
    ensures r.Some? ==> r.value == t.populations[code]
  {
    if code in t.populations then Some(t.populations[code]) else None
  }

  /** Upper-casing the sentinel leaves it unchanged. */
  lemma UpperUnknown()
    ensures Upper(Unknown) == Unknown
  {
  }

  /** Upper-casing two letters gives an alpha-2 code. */
  lemma UpperOfLettersIsAlpha2(code: string)
    requires |code| == 2 && IsAsciiLetter(code[0]) && IsAsciiLetter(code[1])
    ensures IsAlpha2(Upper(code))
  {
  }

  /**
   The code of any name, once upper-cased, is an alpha-2 code when every
   matched code is a pair of letters: either the sentinel or a matched code.
   */
  lemma ResolvedCodeIsAlpha2(t: CountryTable, name: string)
    requires CodesAreLetterPairs(t)
    ensures IsAlpha2(Upper(ResolveCode(t, name)))
  {
    if name in t.codes {
      UpperOfLettersIsAlpha2(t.codes[name]);
    } else {
      UpperUnknown();
    }
  }
}
