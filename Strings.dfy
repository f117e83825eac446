/** The few operations on Python `str` that the remote plugin contract relies on:
    `startswith`, `upper` and `count` of one character. */
module Strings {

  /** `s.startswith(prefix)` */
  predicate StartsWith(s: string, prefix: string)
  {
    |prefix| <= |s| && s[..|prefix|] == prefix
  }

  /** Number of occurrences of `c` in `s`, as `s.count(c)` for a one-character `c`. */
  function CountChar(c: char, s: string): (r: nat)
    ensures r <= |s|
    ensures r == 0 <==> c !in s
  {
    if s == [] then 0
    else (if s[0] == c then 1 else 0) + CountChar(c, s[1..])
  }

  /** The upper-case form of one character, as Python's `str.upper` gives it for every
      character whose upper-case form is a substring of "GET" or "POST": the ASCII
      lower-case letters, LATIN SMALL LETTER LONG S (U+017F, to "S") and the two "st"
      ligatures (U+FB05, U+FB06, to "ST"). Every other character is left as it is, so the
      bounds below are those of this partial map, not of Python's. */
  function UpperChar(c: char): (r: string)
    ensures 1 <= |r| <= 2
  {
    if 'a' <= c <= 'z' then [(c as int - 32) as char]
    else if c == '\U{017F}' then "S"
    else if c == '\U{FB05}' || c == '\U{FB06}' then "ST"
    else [c]
  }

  /** `s.upper()`, character by character, with the partial map of `UpperChar`. */
  function Upper(s: string): (r: string)
    ensures |s| <= |r| <= 2 * |s|
  {
    if s == [] then [] else UpperChar(s[0]) + Upper(s[1..])
  }

  lemma {:induction false} UpperAppend(a: string, b: string)
    ensures Upper(a + b) == Upper(a) + Upper(b)
  {
    if a == [] {
      assert a + b == b;
    } else {
      assert (a + b)[0] == a[0];
      assert (a + b)[1..] == a[1..] + b;
      UpperAppend(a[1..], b);
    }
  }

  /** Upper-casing is idempotent: an already upper-cased string is left as it is. */
  lemma {:induction false} UpperIdempotent(s: string)
    ensures Upper(Upper(s)) == Upper(s)
  {
    if s != [] {
      var u := UpperChar(s[0]);
      UpperAppend(u, Upper(s[1..]));
      UpperIdempotent(s[1..]);
      if |u| == 1 {
        assert Upper(u) == Upper([u[0]]) == UpperChar(u[0]) + Upper([]);
      } else {
        assert u == "ST";
        assert Upper(u) == UpperChar('S') + Upper("T");
      }
    }
  }

  /** On ASCII letters and punctuation, `upper` changes only the lower-case letters, one for one. */
  lemma {:induction false} UpperAscii(s: string)
    requires forall i :: 0 <= i < |s| ==> s[i] < 128 as char
    ensures |Upper(s)| == |s|
    ensures forall i :: 0 <= i < |s| ==>
      Upper(s)[i] == if 'a' <= s[i] <= 'z' then (s[i] as int - 32) as char else s[i]
  {
    if s != [] {
      UpperAscii(s[1..]);
      assert Upper(s) == UpperChar(s[0]) + Upper(s[1..]);
      forall i | 0 <= i < |s|
        ensures Upper(s)[i] == if 'a' <= s[i] <= 'z' then (s[i] as int - 32) as char else s[i]
      {
        if i > 0 {
          assert Upper(s)[i] == Upper(s[1..])[i - 1];
          assert s[1..][i - 1] == s[i];
        }
      }
    }
  }
}
