/** Small pieces of JavaScript's built-in behaviour that the three pages rely on:
    nullable values, Array.prototype.slice index handling, String.prototype.toLowerCase,
    includes, endsWith and trim, and the order-preserving subsequence relation used to
    describe Array.prototype.filter. */
module Common {

  /** A value that JavaScript may hold as `null` (or leave `undefined`). */
  datatype Option<+T> = None | Some(value: T)

  function Min(a: int, b: int): int { if a <= b then a else b }

  function Max(a: int, b: int): int { if a <= b then b else a }

  /** How Array.prototype.slice turns a relative index into a position:
      a negative index counts from the end, and the result is clamped to [0, len]. */
  function SliceIndex(i: int, len: nat): (k: nat)
    ensures k <= len
    ensures 0 <= i ==> k == Min(i, len)
    ensures i < 0 ==> k == Max(len + i, 0)
  {
    if i < 0 then (if len + i < 0 then 0 else len + i)
    else if i < len then i else len
  }

  /** `s.slice(start, end)` on a JavaScript array. */
  function JsSlice<T>(s: seq<T>, start: int, end: int): (r: seq<T>)
    ensures |r| <= |s|
    ensures 0 <= start <= end ==> r == s[Min(start, |s|)..Min(end, |s|)]
  {
    var from, to := SliceIndex(start, |s|), SliceIndex(end, |s|);
    if from < to then s[from..to] else []
  }

  /** `s.slice(start)`: from `start` to the end. */
  function JsSliceFrom<T>(s: seq<T>, start: int): (r: seq<T>)
    ensures 0 <= start ==> r == s[Min(start, |s|)..]
  {
    JsSlice(s, start, |s|)
  }

  /** `a` occurs in `b` in the same order, possibly with elements of `b` left out. */
  predicate IsSubsequence<T(==)>(a: seq<T>, b: seq<T>)
    decreases |b|
  {
    a == [] || (b != [] && ((a[0] == b[0] && IsSubsequence(a[1..], b[1..])) || IsSubsequence(a, b[1..])))
  }

  /** String.prototype.toLowerCase on one character, restricted to ASCII letters. */
  function LowerChar(c: char): (d: char)
    ensures 'A' <= c <= 'Z' ==> d as int == c as int + 32
    ensures !('A' <= c <= 'Z') ==> d == c
  {
    if 'A' <= c <= 'Z' then (c as int + 32) as char else c
  }

  function Lower(s: string): (r: string)
    ensures |r| == |s|
    ensures forall i :: 0 <= i < |s| ==> r[i] == LowerChar(s[i])
  {
    seq(|s|, i requires 0 <= i < |s| => LowerChar(s[i]))
  }

  /** String.prototype.includes: `needle` occurs somewhere in `s`. */
  predicate Contains(s: string, needle: string)
  {
    needle <= s || (s != [] && Contains(s[1..], needle))
  }

  /** `needle` occurs in `s` starting at position `k`. */
  predicate OccursAt(s: string, needle: string, k: nat)
  {
    k + |needle| <= |s| && s[k..k + |needle|] == needle
  }

  /** An occurrence anywhere makes Contains hold. */
  lemma {:induction false} ContainsAt(s: string, needle: string, k: nat)
    requires OccursAt(s, needle, k)
    ensures Contains(s, needle)
    decreases k
  {
    if k > 0 {
      assert s[1..][k - 1..k - 1 + |needle|] == needle;
      ContainsAt(s[1..], needle, k - 1);
    } else {
      assert needle == s[..|needle|];
    }
  }

  /** Conversely, with no occurrence anywhere, Contains fails. */
  lemma {:induction false} NoOccurrenceNotContains(s: string, needle: string)
    requires forall k: nat :: !OccursAt(s, needle, k)
    ensures !Contains(s, needle)
    decreases |s|
  {
    assert !OccursAt(s, needle, 0);
    if s != [] {
      forall k: nat ensures !OccursAt(s[1..], needle, k) {
        assert !OccursAt(s, needle, k + 1);
        if k + |needle| <= |s[1..]| {
          assert s[1..][k..k + |needle|] == s[k + 1..k + 1 + |needle|];
        }
      }
      NoOccurrenceNotContains(s[1..], needle);
    }
  }

  /** A string without ASCII capitals is its own lower-case form. */
  lemma LowerWithoutCapitals(s: string)
    requires forall i :: 0 <= i < |s| ==> !('A' <= s[i] <= 'Z')
    ensures Lower(s) == s
  {
  }

  /** String.prototype.length: the number of UTF-16 code units, one for a character of
      the Basic Multilingual Plane and two (a surrogate pair) for any other. */
  function Utf16Length(s: string): (n: nat)
    ensures |s| <= n <= 2 * |s|
    ensures n == |s| <==> forall i :: 0 <= i < |s| ==> s[i] as int < 0x1_0000
    decreases |s|
  {
    if s == [] then 0
    else
      var rest := Utf16Length(s[1..]);
      assert forall i :: 1 <= i < |s| ==> s[i] == s[1..][i - 1];
      (if s[0] as int < 0x1_0000 then 1 else 2) + rest
  }

  /** The code units of two strings joined are those of each. */
  lemma {:induction false} Utf16LengthOfConcat(a: string, b: string)
    ensures Utf16Length(a + b) == Utf16Length(a) + Utf16Length(b)
    decreases |a|
  {
    if a == [] {
      assert a + b == b;
    } else {
      assert (a + b)[1..] == a[1..] + b;
      Utf16LengthOfConcat(a[1..], b);
    }
  }

  /** String.prototype.endsWith. */
  predicate EndsWith(s: string, suffix: string)
  {
    |suffix| <= |s| && s[|s| - |suffix|..] == suffix
  }

  /** The characters String.prototype.trim removes: ECMAScript WhiteSpace and LineTerminator. */
  predicate IsWhitespace(c: char)
  {
    c == ' ' || c == '\t' || c == '\n' || c == '\r' || c == '\U{000B}' || c == '\U{000C}'
    || c == '\U{00A0}' || c == '\U{1680}' || ('\U{2000}' <= c <= '\U{200A}')
    || c == '\U{2028}' || c == '\U{2029}' || c == '\U{202F}' || c == '\U{205F}'
    || c == '\U{3000}' || c == '\U{FEFF}'
  }

  predicate IsBlank(s: string)
  {
    forall i :: 0 <= i < |s| ==> IsWhitespace(s[i])
  }

  /** A whitespace character added to either end of a blank string keeps it blank. */
  lemma BlankExtend(c: char, t: string)
    requires IsWhitespace(c) && IsBlank(t)
    ensures IsBlank([c] + t) && IsBlank(t + [c])
  {
  }

  function TrimStart(s: string): (r: string)
    ensures |r| <= |s| && r == s[|s| - |r|..]
    ensures IsBlank(s[..|s| - |r|])
    ensures r == [] || !IsWhitespace(r[0])
  {
    if s != [] && IsWhitespace(s[0]) then
      var r := TrimStart(s[1..]);
      var k := |s| - |r|;
      assert s[1..][..k - 1] == s[1..k];
      assert s[..k] == [s[0]] + s[1..k];
      BlankExtend(s[0], s[1..k]);
      r
    else s
  }

  function TrimEnd(s: string): (r: string)
    ensures |r| <= |s| && r == s[..|r|]
    ensures IsBlank(s[|r|..])
    ensures r == [] || !IsWhitespace(r[|r| - 1])
  {
    if s != [] && IsWhitespace(s[|s| - 1]) then
      var r := TrimEnd(s[..|s| - 1]);
      assert s[..|s| - 1][|r|..] == s[|r|..|s| - 1];
      assert s[|r|..] == s[|r|..|s| - 1] + [s[|s| - 1]];
      BlankExtend(s[|s| - 1], s[|r|..|s| - 1]);
      r
    else s
  }

  /** String.prototype.trim: `s` is blank, then the result, then blank again,
      and the result neither starts nor ends with whitespace. */
  function Trim(s: string): (r: string)
    ensures exists a, b :: 0 <= a <= b <= |s| && r == s[a..b] && IsBlank(s[..a]) && IsBlank(s[b..])
    ensures r == [] || (!IsWhitespace(r[0]) && !IsWhitespace(r[|r| - 1]))
  {
    var t := TrimStart(s);
    var r := TrimEnd(t);
    var a := |s| - |t|;
    assert r == s[a..a + |r|];
    assert IsBlank(s[..a]);
    assert s[a + |r|..] == t[|r|..];
    assert IsBlank(s[a + |r|..]);
    r
  }

  /** Trimming leaves nothing exactly when the string is all whitespace. */
  lemma TrimEmptyIffBlank(s: string)
    ensures Trim(s) == [] <==> IsBlank(s)
  {
  }
}
