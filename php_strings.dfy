/**
 * The PHP string built-ins the code base relies on, with their PHP meaning written out:
 * ASCII-only case mapping (strtolower/strtoupper/strcasecmp), `empty()` on strings,
 * the character-list form of str_replace, rtrim/trim, implode, explode+end and the
 * decimal rendering of integers.
 */
module PhpStrings {

  function LowerChar(c: char): char
  {
    if 'A' <= c <= 'Z' then (c as int + 32) as char else c
  }

  function UpperChar(c: char): char
  {
    if 'a' <= c <= 'z' then (c as int - 32) as char else c
  }

  /** strtolower: only the ASCII letters A-Z change. */
  function Lower(s: string): (r: string)
    ensures |r| == |s|
    ensures forall i :: 0 <= i < |s| ==> r[i] == LowerChar(s[i])
  {
    if s == [] then [] else [LowerChar(s[0])] + Lower(s[1..])
  }

  /** strtoupper: only the ASCII letters a-z change. */
  function Upper(s: string): (r: string)
    ensures |r| == |s|
    ensures forall i :: 0 <= i < |s| ==> r[i] == UpperChar(s[i])
  {
    if s == [] then [] else [UpperChar(s[0])] + Upper(s[1..])
  }

  lemma LowerIdempotent(s: string)
    ensures Lower(Lower(s)) == Lower(s)
  {
    assert forall i :: 0 <= i < |s| ==> LowerChar(LowerChar(s[i])) == LowerChar(s[i]);
  }

  lemma UpperThenLower(s: string)
    ensures Lower(Upper(s)) == Lower(s)
  {
    assert forall i :: 0 <= i < |s| ==> LowerChar(UpperChar(s[i])) == LowerChar(s[i]);
  }

  /** A text with no upper-case ASCII letter is its own lower case. */
  lemma LowerOfLowerCase(s: string)
    requires forall i :: 0 <= i < |s| ==> !('A' <= s[i] <= 'Z')
    ensures Lower(s) == s
  {
    hide Lower;
    assert forall i :: 0 <= i < |s| ==> Lower(s)[i] == s[i];
  }

  /** `0 === strcasecmp(a, b)`. */
  predicate EqualsIgnoreCase(a: string, b: string)
  {
    Lower(a) == Lower(b)
  }

  /** PHP's `empty($s)` on a string: true for '' and for '0'. */
  predicate IsEmpty(s: string)
  {
    s == "" || s == "0"
  }

  /**
   * `str_replace([c1, c2, ...], to, s)` where every search string is a single character
   * and `to` is not one of them: each listed character becomes `to`.
   */
  function MapChars(s: string, from: set<char>, to: char): (r: string)
    ensures |r| == |s|
    ensures forall i :: 0 <= i < |s| ==> r[i] == (if s[i] in from then to else s[i])
  {
    if s == [] then [] else [if s[0] in from then to else s[0]] + MapChars(s[1..], from, to)
  }

  /** `str_replace('__', '_', s)`: one left-to-right pass over non-overlapping occurrences. */
  function CollapseDoubleUnderscore(s: string): (r: string)
    ensures |r| <= |s|
  {
    if |s| >= 2 && s[0] == '_' && s[1] == '_' then "_" + CollapseDoubleUnderscore(s[2..])
    else if s == [] then []
    else [s[0]] + CollapseDoubleUnderscore(s[1..])
  }

  predicate HasDoubleUnderscore(s: string)
  {
    exists i :: 0 <= i < |s| - 1 && s[i] == '_' && s[i + 1] == '_'
  }

  /** A string without "__" is left as it is. */
  lemma {:induction false} CollapseWithoutDouble(s: string)
    requires !HasDoubleUnderscore(s)
    ensures CollapseDoubleUnderscore(s) == s
  {
    if s != [] {
      assert !HasDoubleUnderscore(s[1..]) by {
        forall i | 0 <= i < |s[1..]| - 1
          ensures !(s[1..][i] == '_' && s[1..][i + 1] == '_')
        {
          assert s[1..][i] == s[i + 1] && s[1..][i + 1] == s[i + 2];
        }
      }
      if |s| >= 2 {
        assert !(s[0] == '_' && s[1] == '_');
      }
      CollapseWithoutDouble(s[1..]);
    }
  }

  /** "__" collapses to "_", but three underscores leave two, since the pass does not rescan. */
  lemma CollapseExamples()
    ensures CollapseDoubleUnderscore("a__b") == "a_b"
    ensures CollapseDoubleUnderscore("___") == "__"
  {
  }

  /** `rtrim(s, chars)`. */
  function RTrim(s: string, chars: set<char>): (r: string)
    ensures r <= s
    ensures r == [] || r[|r| - 1] !in chars
    ensures forall i :: |r| <= i < |s| ==> s[i] in chars
  {
    if s == [] then []
    else if s[|s| - 1] in chars then RTrim(s[..|s| - 1], chars)
    else s
  }

  /** `ltrim(s, chars)`. */
  function LTrim(s: string, chars: set<char>): (r: string)
    ensures |r| <= |s| && r == s[|s| - |r|..]
    ensures r == [] || r[0] !in chars
    ensures forall i :: 0 <= i < |s| - |r| ==> s[i] in chars
  {
    if s == [] then []
    else if s[0] in chars then LTrim(s[1..], chars)
    else s
  }

  const Whitespace: set<char> := {' ', '\t', '\n', '\r', '\0', '\U{000B}'}

  /** `trim(s)` with PHP's default character list. */
  function Trim(s: string): string
  {
    LTrim(RTrim(s, Whitespace), Whitespace)
  }

  lemma RTrimIdempotent(s: string, chars: set<char>)
    ensures RTrim(RTrim(s, chars), chars) == RTrim(s, chars)
  {
  }

  /** `implode(sep, parts)`. */
  function Join(parts: seq<string>, sep: string): string
  {
    if parts == [] then ""
    else if |parts| == 1 then parts[0]
    else Join(parts[..|parts| - 1], sep) + sep + parts[|parts| - 1]
  }

  /** The shape a loop that appends parts one at a time relies on. */
  lemma JoinSnoc(parts: seq<string>, p: string, sep: string)
    ensures Join(parts + [p], sep) == if parts == [] then p else Join(parts, sep) + sep + p
  {
    assert (parts + [p])[..|parts|] == parts;
  }

  /** `end(explode(c, s))`: the text after the last `c`, or all of `s` when it has none. */
  function LastSegment(s: string, c: char): (r: string)
    ensures c !in r
    ensures |r| <= |s| && r == s[|s| - |r|..]
    ensures |r| == |s| || s[|s| - |r| - 1] == c
  {
    if s == [] then []
    else if s[|s| - 1] == c then []
    else LastSegment(s[..|s| - 1], c) + [s[|s| - 1]]
  }

  /** `str_replace("'", "''", s)`: the quoting of a MySQL string literal. */
  function DoubleQuotes(s: string): string
  {
    if s == [] then [] else (if s[0] == '\'' then "''" else [s[0]]) + DoubleQuotes(s[1..])
  }

  /** How MySQL reads the body of a single-quoted literal back: '' stands for one quote. */
  function UndoubleQuotes(s: string): string
  {
    if |s| >= 2 && s[0] == '\'' && s[1] == '\'' then "'" + UndoubleQuotes(s[2..])
    else if s == [] then []
    else [s[0]] + UndoubleQuotes(s[1..])
  }

  /** Doubling the quotes is undone by reading the literal back, so the comment text survives. */
  lemma {:induction false} DoubleQuotesRoundTrip(s: string)
    ensures UndoubleQuotes(DoubleQuotes(s)) == s
  {
    if s != [] {
      DoubleQuotesRoundTrip(s[1..]);
      if s[0] == '\'' {
        assert DoubleQuotes(s) == "''" + DoubleQuotes(s[1..]);
      } else {
        assert DoubleQuotes(s) == [s[0]] + DoubleQuotes(s[1..]);
        assert (DoubleQuotes(s))[1..] == DoubleQuotes(s[1..]);
      }
    }
  }

  function DigitChar(d: int): char
    requires 0 <= d <= 9
  {
    "0123456789"[d]
  }

  function NatToString(n: nat): (r: string)
    ensures |r| >= 1
    ensures forall i :: 0 <= i < |r| ==> '0' <= r[i] <= '9'
    decreases n
  {
    if n < 10 then [DigitChar(n)] else NatToString(n / 10) + [DigitChar(n % 10)]
  }

  /** PHP's decimal rendering of an int (`(string) $i`). */
  function IntToString(i: int): string
  {
    if i < 0 then "-" + NatToString(-i) else NatToString(i)
  }

  /** `str_repeat(s, n)`. */
  function Repeat(s: string, n: nat): (r: string)
    ensures |r| == |s| * n
  {
    if n == 0 then "" else s + Repeat(s, n - 1)
  }
}
