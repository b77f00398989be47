/**
 * The few Python string operations the harness relies on: `str.lower()`
 * (ASCII letters only), the substring test `needle in hay`, prefixes and
 * `str(n)` for a natural number.
 */
module Text {

  /** Lower-cases an ASCII capital letter and leaves every other character alone. */
  function LowerChar(c: char): char {
    if 'A' <= c <= 'Z' then (c as int + 32) as char else c
  }

  /** `s.lower()`, restricted to ASCII letters. */
  function Lower(s: string): string {
    seq(|s|, i requires 0 <= i < |s| => LowerChar(s[i]))
  }

  /** Two strings differ only in the case of their ASCII letters. */
  ghost predicate SameUpToCase(a: string, b: string) {
    |a| == |b| && forall i :: 0 <= i < |a| ==> LowerChar(a[i]) == LowerChar(b[i])
  }

  lemma LowerAppend(a: string, b: string)
    ensures Lower(a + b) == Lower(a) + Lower(b)
  {
    assert forall i :: 0 <= i < |a + b| ==> Lower(a + b)[i] == (Lower(a) + Lower(b))[i];
  }

  lemma LowerUpToCase(a: string, b: string)
    requires SameUpToCase(a, b)
    ensures Lower(a) == Lower(b)
  {
    assert forall i :: 0 <= i < |a| ==> Lower(a)[i] == Lower(b)[i];
  }

  /** `needle` occurs in `hay` starting at position `i`. */
  ghost predicate OccursAt(needle: string, hay: string, i: int) {
    0 <= i && i + |needle| <= |hay| && hay[i..i + |needle|] == needle
  }

  /** The reference meaning of Python's `needle in hay` on strings. */
  ghost predicate IsSubstring(needle: string, hay: string) {
    exists i :: OccursAt(needle, hay, i)
  }

  /** Python's `needle in hay`, scanning `hay` from the left. */
  function Contains(hay: string, needle: string): (b: bool)
    ensures b <==> IsSubstring(needle, hay)
    decreases |hay|
  {
    if |hay| < |needle| then
      assert forall i :: !OccursAt(needle, hay, i);
      false
    else if hay[..|needle|] == needle then
      assert OccursAt(needle, hay, 0);
      true
    else
      SubstringAfterFirst(needle, hay);
      Contains(hay[1..], needle)
  }

  /** When `needle` is not a prefix of `hay`, it occurs in `hay` iff it occurs in `hay[1..]`. */
  lemma SubstringAfterFirst(needle: string, hay: string)
    requires |needle| <= |hay| && hay[..|needle|] != needle
    ensures IsSubstring(needle, hay) <==> IsSubstring(needle, hay[1..])
  {
    if i :| OccursAt(needle, hay[1..], i) {
      assert OccursAt(needle, hay, i + 1);
    }
    if i :| OccursAt(needle, hay, i) {
      assert OccursAt(needle, hay[1..], i - 1);
    }
  }

  lemma {:induction false} SubstringTransitive(a: string, b: string, c: string)
    requires IsSubstring(a, b) && IsSubstring(b, c)
    ensures IsSubstring(a, c)
  {
    var i :| OccursAt(a, b, i);
    var j :| OccursAt(b, c, j);
    var window := c[j + i..j + i + |a|];
    forall k | 0 <= k < |a| ensures window[k] == a[k] {
      calc {
        window[k];
        c[j..j + |b|][i + k];
        b[i + k];
        b[i..i + |a|][k];
      }
    }
    assert window == a;
    assert OccursAt(a, c, j + i);
  }

  lemma {:induction false} SubstringOfConcat(needle: string, a: string, b: string)
    requires IsSubstring(needle, a) || IsSubstring(needle, b)
    ensures IsSubstring(needle, a + b)
  {
    if IsSubstring(needle, a) {
      var i :| OccursAt(needle, a, i);
      assert (a + b)[i..i + |needle|] == a[i..i + |needle|];
      assert OccursAt(needle, a + b, i);
    } else {
      var i :| OccursAt(needle, b, i);
      assert (a + b)[|a| + i..|a| + i + |needle|] == b[i..i + |needle|];
      assert OccursAt(needle, a + b, |a| + i);
    }
  }

  /** A needle with no capital letters that occurs in a text also occurs in the lower-cased text. */
  lemma {:induction false} SubstringOfLower(needle: string, hay: string)
    requires Lower(needle) == needle && IsSubstring(needle, hay)
    ensures IsSubstring(needle, Lower(hay))
  {
    var i :| OccursAt(needle, hay, i);
    forall k | 0 <= k < |needle| ensures Lower(hay)[i..i + |needle|][k] == needle[k] {
      assert hay[i..i + |needle|][k] == hay[i + k];
      assert Lower(needle)[k] == LowerChar(needle[k]);
    }
    assert OccursAt(needle, Lower(hay), i);
  }

  /** A needle with a character that `hay` lacks cannot occur in `hay`. */
  lemma {:induction false} AbsentChar(needle: string, hay: string, c: char)
    requires c in needle && c !in hay
    ensures !IsSubstring(needle, hay)
  {
  }

  /** The character for a decimal digit. */
  function DigitChar(d: nat): char
    requires d < 10
  {
    "0123456789"[d]
  }

  /** `str(n)` for a natural number: its decimal digits, most significant first. */
  function NatToString(n: nat): string
    decreases n
  {
    if n < 10 then [DigitChar(n)] else NatToString(n / 10) + [DigitChar(n % 10)]
  }
}
