/** Strings, bytes and the small string operations the middleware relies on:
    ASCII lower-casing, substring and prefix tests, `str.strip(c)` and UTF-8 encoding. */
module Text {

  /** One byte of a response body. */
  type Byte = x: int | 0 <= x < 256

  /** A byte string (Python `bytes`). */
  type Bytes = seq<Byte>

  datatype Option<T> = None | Some(value: T)

  datatype Result<T, E> = Success(value: T) | Failure(error: E)

  // ---------------------------------------------------------------------------
  // Lower-casing and searching
  // ---------------------------------------------------------------------------

  /** `str.lower()` on one character, restricted to ASCII letters. */
  function LowerChar(c: char): (r: char)
    ensures 'A' <= c <= 'Z' ==> r == LowerAlphabet[c as int - 'A' as int]
    ensures !('A' <= c <= 'Z') ==> r == c
  {
    if 'A' <= c <= 'Z' then (c as int + 32) as char else c
  }

  const LowerAlphabet: string := "abcdefghijklmnopqrstuvwxyz"

  /** `str.lower()`, character by character. */
  function Lower(s: string): (r: string)
    ensures |r| == |s|
  {
    if s == [] then [] else [LowerChar(s[0])] + Lower(s[1..])
  }

  /** Lower-casing works on each character on its own. */
  lemma {:induction false} LowerAt(s: string, i: nat)
    requires i < |s|
    ensures Lower(s)[i] == LowerChar(s[i])
    decreases i
  {
    if i > 0 {
      LowerAt(s[1..], i - 1);
    }
  }

  /** Two characters that are the same letter in either case, or equal. */
  predicate SameLetter(x: char, y: char)
  {
    x == y
    || ('A' <= x <= 'Z' && y as int == x as int + 32)
    || ('A' <= y <= 'Z' && x as int == y as int + 32)
  }

  /** Two strings that are equal when ASCII letter case is ignored. */
  predicate EqualIgnoringCase(a: string, b: string)
  {
    |a| == |b| && forall i :: 0 <= i < |a| ==> SameLetter(a[i], b[i])
  }

  lemma LowerCharSame(x: char, y: char)
    ensures LowerChar(x) == LowerChar(y) <==> SameLetter(x, y)
  {
  }

  /** Comparing lower-cased strings is comparing them ignoring case. */
  lemma LowerEqualIgnoringCase(a: string, b: string)
    ensures Lower(a) == Lower(b) <==> EqualIgnoringCase(a, b)
  {
    if |a| == |b| {
      forall i | 0 <= i < |a|
        ensures Lower(a)[i] == Lower(b)[i] <==> SameLetter(a[i], b[i])
      {
        LowerAt(a, i);
        LowerAt(b, i);
        LowerCharSame(a[i], b[i]);
      }
    }
  }

  /** `sub` occurs in `s` starting at index `i`. */
  predicate OccursAt<T(==)>(sub: seq<T>, s: seq<T>, i: int)
  {
    0 <= i && i + |sub| <= |s| && s[i..i + |sub|] == sub
  }

  /** Python's `sub in s`. */
  predicate Contains<T(==)>(s: seq<T>, sub: seq<T>)
  {
    exists i | 0 <= i <= |s| :: OccursAt(sub, s, i)
  }

  /** Python's `s.startswith(prefix)`. */
  predicate StartsWith(s: string, prefix: string)
  {
    |prefix| <= |s| && s[..|prefix|] == prefix
  }

  /** A piece appended after a piece keeps every occurrence of the pieces. */
  lemma ContainsInConcat<T>(a: seq<T>, sub: seq<T>, b: seq<T>)
    ensures Contains(a + sub + b, sub)
  {
    assert (a + sub + b)[|a|..|a| + |sub|] == sub;
    assert OccursAt(sub, a + sub + b, |a|);
  }

  // ---------------------------------------------------------------------------
  // str.strip(c)
  // ---------------------------------------------------------------------------

  /** Every character of `s` is `c`. */
  predicate AllChar(s: string, c: char)
  {
    forall i :: 0 <= i < |s| ==> s[i] == c
  }

  /** `s` neither begins nor ends with `c` (an empty string qualifies). */
  predicate Trimmed(s: string, c: char)
  {
    s == [] || (s[0] != c && s[|s| - 1] != c)
  }

  /** `str.lstrip(c)`: the longest suffix of `s` not starting with `c`. */
  function StripLeading(s: string, c: char): (r: string)
    ensures |r| <= |s| && r == s[|s| - |r|..]
    ensures AllChar(s[..|s| - |r|], c)
    ensures r == [] || r[0] != c
  {
    if s != [] && s[0] == c then
      var rest := StripLeading(s[1..], c);
      assert s[1..][..|s| - 1 - |rest|] == s[1..|s| - |rest|];
      rest
    else s
  }

  /** `str.rstrip(c)`: the longest prefix of `s` not ending with `c`. */
  function StripTrailing(s: string, c: char): (r: string)
    ensures |r| <= |s| && r == s[..|r|]
    ensures AllChar(s[|r|..], c)
    ensures r == [] || r[|r| - 1] != c
  {
    if s != [] && s[|s| - 1] == c then
      var rest := StripTrailing(s[..|s| - 1], c);
      assert s[..|s| - 1][|rest|..] + [c] == s[|rest|..];
      rest
    else s
  }

  /** `str.strip(c)`: remove every leading and every trailing `c`. */
  function Strip(s: string, c: char): (r: string)
    ensures Trimmed(r, c)
  {
    var stripped := StripTrailing(StripLeading(s, c), c);
    assert stripped != [] ==> stripped[0] == StripLeading(s, c)[0];
    stripped
  }

  lemma {:induction false} StripLeadingOf(p: string, m: string, c: char)
    requires AllChar(p, c) && (m == [] || m[0] != c)
    ensures StripLeading(p + m, c) == m
    decreases |p|
  {
    if p != [] {
      assert (p + m)[1..] == p[1..] + m;
      StripLeadingOf(p[1..], m, c);
    } else {
      assert p + m == m;
    }
  }

  lemma {:induction false} StripTrailingOf(m: string, q: string, c: char)
    requires AllChar(q, c) && (m == [] || m[|m| - 1] != c)
    ensures StripTrailing(m + q, c) == m
    decreases |q|
  {
    if q != [] {
      assert (m + q)[..|m + q| - 1] == m + q[..|q| - 1];
      StripTrailingOf(m, q[..|q| - 1], c);
    } else {
      assert m + q == m;
    }
  }

  /** `Strip` is exactly "drop a run of `c` on each side": whatever runs of `c`
      surround a trimmed middle, stripping gives back that middle. */
  lemma StripSurrounded(p: string, m: string, q: string, c: char)
    requires AllChar(p, c) && AllChar(q, c) && Trimmed(m, c)
    ensures Strip(p + m + q, c) == m
  {
    if m == [] {
      assert AllChar(p + q, c);
      assert p + m + q == (p + q) + [];
      StripLeadingOf(p + q, [], c);
      assert StripTrailing([], c) == [];
    } else {
      assert p + m + q == p + (m + q);
      StripLeadingOf(p, m + q, c);
      StripTrailingOf(m, q, c);
    }
  }

  // ---------------------------------------------------------------------------
  // UTF-8 (str.encode('utf-8'))
  // ---------------------------------------------------------------------------

  /** The UTF-8 encoding of one Unicode scalar value. */
  function EncodeChar(c: char): (r: Bytes)
    ensures 1 <= |r| <= 4
    ensures (c as int < 0x80) <==> |r| == 1
  {
    var n := c as int;
    if n < 0x80 then [n]
    else if n < 0x800 then [0xC0 + n / 0x40, 0x80 + n % 0x40]
    else if n < 0x1_0000 then [0xE0 + n / 0x1000, 0x80 + (n / 0x40) % 0x40, 0x80 + n % 0x40]
    else [0xF0 + n / 0x4_0000, 0x80 + (n / 0x1000) % 0x40, 0x80 + (n / 0x40) % 0x40, 0x80 + n % 0x40]
  }

  function Utf8(s: string): Bytes
  {
    if s == [] then [] else EncodeChar(s[0]) + Utf8(s[1..])
  }

  /** Encoding commutes with concatenation, so the encoding of a message
      contains the encoding of every piece it was built from. */
  lemma {:induction false} Utf8Concat(a: string, b: string)
    ensures Utf8(a + b) == Utf8(a) + Utf8(b)
    decreases |a|
  {
    if a == [] {
      assert a + b == b;
    } else {
      assert (a + b)[1..] == a[1..] + b;
      Utf8Concat(a[1..], b);
    }
  }

  /** ASCII text encodes byte for byte. */
  lemma {:induction false} Utf8Ascii(s: string)
    requires forall i :: 0 <= i < |s| ==> s[i] as int < 0x80
    ensures |Utf8(s)| == |s|
    ensures forall i :: 0 <= i < |s| ==> Utf8(s)[i] == s[i] as int
    decreases |s|
  {
    if s != [] {
      Utf8Ascii(s[1..]);
    }
  }

  /** A `b'...'` literal: one byte per character (Python accepts only ASCII
      characters there, whose code is below 0x80). */
  function AsciiBytes(s: string): (r: Bytes)
    ensures |r| == |s|
  {
    seq(|s|, i requires 0 <= i < |s| => s[i] as int % 0x100)
  }

  /** A byte literal is the UTF-8 encoding of its text. */
  lemma AsciiBytesAreUtf8(s: string)
    requires forall i :: 0 <= i < |s| ==> s[i] as int < 0x80
    ensures AsciiBytes(s) == Utf8(s)
  {
    Utf8Ascii(s);
    forall i | 0 <= i < |s|
      ensures AsciiBytes(s)[i] == Utf8(s)[i]
    {
    }
  }
}
