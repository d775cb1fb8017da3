/**
 * The parts of Python's `str` behaviour that the provisioning script relies on:
 * `strip()` (with and without an explicit character set) and the case-insensitive
 * comparison with "nan".
 */
module PyText {

  /** The characters `str.strip()` removes when it is called without arguments. */
  const Whitespace: set<char> :=
    {' ', '\t', '\n', '\r', '\U{0B}', '\U{0C}', '\U{1C}', '\U{1D}', '\U{1E}', '\U{1F}',
     '\U{85}', '\U{A0}', '\U{1680}', '\U{2000}', '\U{2001}', '\U{2002}', '\U{2003}',
     '\U{2004}', '\U{2005}', '\U{2006}', '\U{2007}', '\U{2008}', '\U{2009}', '\U{200A}',
     '\U{2028}', '\U{2029}', '\U{202F}', '\U{205F}', '\U{3000}'}

  /** The characters `str.strip("{}")` removes. */
  const Braces: set<char> := {'{', '}'}

  /** Where `s.lstrip(cs)` starts: the first index from `i` on whose character is not in `cs`. */
  function LeadingEnd(s: string, cs: set<char>, i: nat): (e: nat)
    requires i <= |s|
    ensures i <= e <= |s|
    ensures forall k :: i <= k < e ==> s[k] in cs
    ensures e == |s| || s[e] !in cs
    decreases |s| - i
  {
    if i < |s| && s[i] in cs then LeadingEnd(s, cs, i + 1) else i
  }

  /** Where `s[lo..j].rstrip(cs)` ends: the last index down to `lo` whose preceding character is not in `cs`. */
  function TrailingStart(s: string, cs: set<char>, lo: nat, j: nat): (b: nat)
    requires lo <= j <= |s|
    ensures lo <= b <= j
    ensures forall k :: b <= k < j ==> s[k] in cs
    ensures b == lo || s[b - 1] !in cs
    decreases j
  {
    if lo < j && s[j - 1] in cs then TrailingStart(s, cs, lo, j - 1) else j
  }

  /** `s.strip(cs)`: `s` without its leading and trailing characters that are in `cs`. */
  function Strip(s: string, cs: set<char>): string
  {
    var i := LeadingEnd(s, cs, 0);
    s[i..TrailingStart(s, cs, i, |s|)]
  }

  /**
   * What `strip` leaves: an infix of `s` that neither starts nor ends with a character of
   * `cs`, such that everything removed before and after it is in `cs`.
   */
  lemma StripTrims(s: string, cs: set<char>)
    ensures var r := Strip(s, cs);
            && (r == [] || (r[0] !in cs && r[|r| - 1] !in cs))
            && exists i, j {:trigger s[i..j]} :: 0 <= i <= j <= |s| && r == s[i..j]
                 && (forall k :: 0 <= k < i ==> s[k] in cs)
                 && (forall k :: j <= k < |s| ==> s[k] in cs)
  {
    var i := LeadingEnd(s, cs, 0);
    var j := TrailingStart(s, cs, i, |s|);
    assert Strip(s, cs) == s[i..j];
  }

  /** `c.lower()` for ASCII letters; every other character is left alone. */
  function LowerChar(c: char): char
  {
    if 'A' <= c <= 'Z' then (c as int + 32) as char else c
  }

  function Lower(s: string): string
  {
    seq(|s|, k requires 0 <= k < |s| => LowerChar(s[k]))
  }

  /** The source-id test of the provisioning script: empty, or "nan" in any letter case. */
  predicate IsMissingId(id: string)
    ensures IsMissingId(id) ==> id == [] || |id| == 3
  {
    Lower(id) == "nan" || id == ""
  }

  /** The test accepts exactly the empty string and the eight spellings of "nan". */
  lemma MissingIdSpellings(id: string)
    ensures IsMissingId(id) <==>
              id == [] || (|id| == 3 && id[0] in {'n', 'N'} && id[1] in {'a', 'A'} && id[2] in {'n', 'N'})
  {
    if |id| == 3 && Lower(id) == "nan" {
      assert Lower(id)[0] == 'n' && Lower(id)[1] == 'a' && Lower(id)[2] == 'n';
    }
    if |id| == 3 && id[0] in {'n', 'N'} && id[1] in {'a', 'A'} && id[2] in {'n', 'N'} {
      assert Lower(id) == "nan";
    }
    if |id| != 3 && id != [] {
      assert |Lower(id)| != |"nan"|;
    }
  }
}
