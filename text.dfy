/**
 * String helpers with the semantics of the Python and JavaScript operations the
 * lecture generator and viewer use: slicing, `str.replace`, `str.strip`,
 * `String.prototype.includes` and `toLowerCase`, and decimal formatting of
 * integers in f-strings and template literals.
 */
module Text {

  /** `s[:n]` in Python, `s.substring(0, n)` / `s.slice(0, n)` in JavaScript. */
  function Prefix<T>(s: seq<T>, n: nat): (r: seq<T>)
    ensures |r| == if |s| < n then |s| else n
    ensures r <= s
  {
    if |s| <= n then s else s[..n]
  }

  /**
   * Python's `s.replace(pat, rep)` for a non-empty pattern: scan from the
   * left, replace each occurrence and resume after it.
   */
  function ReplaceAll(s: string, pat: string, rep: string): string
    requires |pat| > 0
    decreases |s|
  {
    if |s| < |pat| then s
    else if s[..|pat|] == pat then rep + ReplaceAll(s[|pat|..], pat, rep)
    else [s[0]] + ReplaceAll(s[1..], pat, rep)
  }

  /** Every occurrence of the character `c` in `s` replaced by `rep`, character by character. */
  function MapChar(s: string, c: char, rep: string): string
  {
    if s == [] then [] else (if s[0] == c then rep else [s[0]]) + MapChar(s[1..], c, rep)
  }

  lemma {:induction false} MapCharAppend(a: string, b: string, c: char, rep: string)
    ensures MapChar(a + b, c, rep) == MapChar(a, c, rep) + MapChar(b, c, rep)
  {
    if a != [] {
      assert (a + b)[1..] == a[1..] + b;
      MapCharAppend(a[1..], b, c, rep);
    } else {
      assert a + b == b;
    }
  }

  lemma MapCharOne(x: char, c: char, rep: string)
    ensures MapChar([x], c, rep) == if x == c then rep else [x]
  {
    assert [x][1..] == [];
  }

  lemma {:induction false} MapCharAbsent(s: string, c: char, rep: string)
    requires c !in s
    ensures MapChar(s, c, rep) == s
  {
    if s != [] {
      MapCharAbsent(s[1..], c, rep);
      assert s == [s[0]] + s[1..];
    }
  }

  /** With a one-character pattern, Python's replace is the character-by-character map. */
  lemma {:induction false} ReplaceOneChar(s: string, c: char, rep: string)
    ensures ReplaceAll(s, [c], rep) == MapChar(s, c, rep)
  {
    if |s| > 0 {
      ReplaceOneChar(s[1..], c, rep);
    }
  }

  /** JavaScript's `s.includes(sub)`: `sub` occurs somewhere in `s`. */
  predicate Contains(s: string, sub: string)
    decreases |s|
  {
    sub <= s || (|s| > 0 && Contains(s[1..], sub))
  }

  /** A string always contains every piece it is built from. */
  lemma {:induction false} ContainsMiddle(a: string, m: string, b: string)
    ensures Contains(a + m + b, m)
    decreases |a|
  {
    if a == [] {
      assert a + m + b == m + b;
    } else {
      assert (a + m + b)[1..] == a[1..] + m + b;
      ContainsMiddle(a[1..], m, b);
    }
  }

  /** Text found in `s` is still found once `s` is preceded by more text. */
  lemma {:induction false} ContainsAfter(a: string, s: string, sub: string)
    requires Contains(s, sub)
    ensures Contains(a + s, sub)
    decreases |a|
  {
    if a != [] {
      assert (a + s)[1..] == a[1..] + s;
      ContainsAfter(a[1..], s, sub);
    } else {
      assert a + s == s;
    }
  }

  /** Text that contains `sub` contains each of its characters. */
  lemma {:induction false} ContainsHasChar(s: string, sub: string, c: char)
    requires c in sub
    ensures Contains(s, sub) ==> c in s
    decreases |s|
  {
    if sub <= s {
      var i :| 0 <= i < |sub| && sub[i] == c;
      assert s[i] == c;
    } else if |s| > 0 {
      ContainsHasChar(s[1..], sub, c);
      assert c in s[1..] ==> c in s;
    }
  }

  /** `toLowerCase` on the ASCII letters; every other character is kept. */
  function LowerChar(c: char): char
  {
    if 'A' <= c <= 'Z' then (c as int - 'A' as int + 'a' as int) as char else c
  }

  function Lower(s: string): (r: string)
    ensures |r| == |s|
    ensures forall i :: 0 <= i < |s| ==> r[i] == LowerChar(s[i])
  {
    if s == [] then [] else [LowerChar(s[0])] + Lower(s[1..])
  }

  /** Lower-casing goes character by character, so it distributes over concatenation. */
  lemma LowerAppend(a: string, b: string)
    ensures Lower(a + b) == Lower(a) + Lower(b)
  {
  }

  /** The code points Python's `str.isspace` (and so `str.strip()`) treats as whitespace. */
  predicate IsPySpace(c: char)
  {
    c == '\t' || c == '\n' || c == '\U{000B}' || c == '\U{000C}' || c == '\r'
    || ('\U{001C}' <= c <= '\U{001F}') || c == ' ' || c == '\U{0085}' || c == '\U{00A0}'
    || c == '\U{1680}' || ('\U{2000}' <= c <= '\U{200A}') || c == '\U{2028}' || c == '\U{2029}'
    || c == '\U{202F}' || c == '\U{205F}' || c == '\U{3000}'
  }

  /** `not s.strip()` in Python: the string is empty or only whitespace. */
  predicate IsBlank(s: string)
  {
    forall i :: 0 <= i < |s| ==> IsPySpace(s[i])
  }

  function DigitChar(d: nat): char
    requires d < 10
  {
    ('0' as int + d) as char
  }

  function NatToString(n: nat): (r: string)
    ensures |r| > 0
    ensures forall i :: 0 <= i < |r| ==> '0' <= r[i] <= '9'
  {
    if n < 10 then [DigitChar(n)] else NatToString(n / 10) + [DigitChar(n % 10)]
  }

  /** `str(n)` in Python, `${n}` in JavaScript, for an integer. */
  function IntToString(n: int): string
  {
    if n < 0 then "-" + NatToString(-n) else NatToString(n)
  }
}
