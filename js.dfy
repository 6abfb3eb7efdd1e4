/**
 * The JavaScript built-ins the core relies on, with their ECMAScript semantics:
 * `String.prototype.trim`, `toLowerCase` (restricted to ASCII letters), `includes`,
 * `startsWith`, `Array.prototype.slice`, `String(n)` and `padStart(2, "0")`.
 */
module Js {

  /** The characters `trim` removes: ECMAScript WhiteSpace and LineTerminator. */
  predicate IsWhitespace(c: char)
  {
    c == ' ' || c == '\t' || c == '\n' || c == '\r' || c == '\U{000B}' || c == '\U{000C}'
    || c == '\U{00A0}' || c == '\U{1680}' || ('\U{2000}' <= c <= '\U{200A}')
    || c == '\U{2028}' || c == '\U{2029}' || c == '\U{202F}' || c == '\U{205F}'
    || c == '\U{3000}' || c == '\U{FEFF}'
  }

  predicate AllWhitespace(s: string)
  {
    forall i :: 0 <= i < |s| ==> IsWhitespace(s[i])
  }

  /** The length of the leading whitespace of `s`. */
  function LeadingWhitespace(s: string): (n: nat)
    ensures n <= |s|
    ensures forall i :: 0 <= i < n ==> IsWhitespace(s[i])
    ensures n == |s| || !IsWhitespace(s[n])
  {
    if s != [] && IsWhitespace(s[0]) then
      var m := LeadingWhitespace(s[1..]);
      assert forall i :: 1 <= i < 1 + m ==> s[i] == s[1..][i - 1];
      1 + m
    else 0
  }

  /** `trimStart`: drops the leading whitespace and nothing else. */
  function TrimStart(s: string): (r: string)
    ensures |r| <= |s| && r == s[|s| - |r|..]
    ensures AllWhitespace(s[..|s| - |r|])
    ensures r == [] || !IsWhitespace(r[0])
  {
    var n := LeadingWhitespace(s);
    assert forall i :: 0 <= i < n ==> s[..n][i] == s[i];
    s[n..]
  }

  /** The length of `s` without its trailing whitespace. */
  function TrailingStart(s: string): (n: nat)
    ensures n <= |s|
    ensures forall i :: n <= i < |s| ==> IsWhitespace(s[i])
    ensures n == 0 || !IsWhitespace(s[n - 1])
  {
    if s != [] && IsWhitespace(s[|s| - 1]) then
      var m := TrailingStart(s[..|s| - 1]);
      assert forall i :: m <= i < |s| - 1 ==> s[i] == s[..|s| - 1][i];
      m
    else |s|
  }

  /** `trimEnd`: drops the trailing whitespace and nothing else. */
  function TrimEnd(s: string): (r: string)
    ensures |r| <= |s| && r == s[..|r|]
    ensures AllWhitespace(s[|r|..])
    ensures r == [] || !IsWhitespace(r[|r| - 1])
  {
    var n := TrailingStart(s);
    assert forall i :: 0 <= i < |s| - n ==> s[n..][i] == s[n + i];
    s[..n]
  }

  /** `String.prototype.trim`. */
  function Trim(s: string): string
  {
    TrimEnd(TrimStart(s))
  }

  /** A string trims to the empty string exactly when it is whitespace only. */
  lemma TrimEmptyIff(s: string)
    ensures Trim(s) == "" <==> AllWhitespace(s)
  {
    if !AllWhitespace(s) {
      var t := TrimStart(s);
      var i :| 0 <= i < |s| && !IsWhitespace(s[i]);
      assert t[i - (|s| - |t|)] == s[i];
    }
  }

  /** Trimming a trimmed string changes nothing. */
  lemma TrimIdempotent(s: string)
    ensures Trim(Trim(s)) == Trim(s)
  {
    var u := Trim(s);
    if u != [] {
      assert TrimStart(u) == u;
      assert TrimEnd(u) == u;
    }
  }

  function LowerChar(c: char): char
  {
    if 'A' <= c <= 'Z' then (c as int + 32) as char else c
  }

  /** `toLowerCase`, for the ASCII letters (other characters are kept). */
  function ToLower(s: string): (r: string)
    ensures |r| == |s|
    ensures forall i :: 0 <= i < |s| ==> r[i] == LowerChar(s[i])
  {
    seq(|s|, i requires 0 <= i < |s| => LowerChar(s[i]))
  }

  predicate HasUpperAscii(s: string)
  {
    exists i :: 0 <= i < |s| && 'A' <= s[i] <= 'Z'
  }

  /** `needle` occurs in `hay` starting at position `i`. */
  predicate OccursAt(hay: string, needle: string, i: int)
  {
    0 <= i <= |hay| - |needle| && hay[i..i + |needle|] == needle
  }

  /** `String.prototype.includes`, as the search the engine performs. */
  function Includes(hay: string, needle: string): bool
  {
    if needle <= hay then true
    else if hay == [] then false
    else Includes(hay[1..], needle)
  }

  /** An occurrence in the tail of `hay` is an occurrence in `hay` one position later. */
  lemma OccursShift(hay: string, needle: string, i: int)
    requires hay != []
    ensures OccursAt(hay[1..], needle, i) <==> 0 <= i && OccursAt(hay, needle, i + 1)
  {
    if 0 <= i <= |hay| - 1 - |needle| {
      assert hay[1..][i..i + |needle|] == hay[i + 1..i + 1 + |needle|];
    }
  }

  /** The search answers true exactly when the needle occurs at some position. */
  lemma {:induction false} IncludesIff(hay: string, needle: string)
    ensures Includes(hay, needle) <==> exists i :: OccursAt(hay, needle, i)
  {
    if needle <= hay {
      assert OccursAt(hay, needle, 0);
    } else if hay == [] {
    } else {
      IncludesIff(hay[1..], needle);
      if Includes(hay[1..], needle) {
        var i :| OccursAt(hay[1..], needle, i);
        OccursShift(hay, needle, i);
      } else {
        forall i | OccursAt(hay, needle, i)
          ensures false
        {
          if i != 0 {
            OccursShift(hay, needle, i - 1);
          }
        }
      }
    }
  }

  /** `String.prototype.startsWith`. */
  predicate StartsWith(s: string, prefix: string)
  {
    prefix <= s
  }

  /** How `slice` turns a relative index into a position in `0..len`. */
  function RelativeIndex(k: int, len: nat): (p: nat)
    ensures p <= len
  {
    if k < 0 then (if len + k < 0 then 0 else len + k)
    else if k > len then len else k
  }

  /** `Array.prototype.slice(start, end)`, negative indices counting from the end. */
  function Slice<T>(s: seq<T>, start: int, end: int): (r: seq<T>)
    ensures |r| <= |s|
  {
    var from := RelativeIndex(start, |s|);
    var to := RelativeIndex(end, |s|);
    if from < to then s[from..to] else []
  }

  function Min(a: int, b: int): int { if a <= b then a else b }

  /** For non-negative bounds `slice` is the window `[start, min(end, |s|))`, clamped. */
  lemma SliceNonNegative<T>(s: seq<T>, start: int, end: int)
    requires 0 <= start && 0 <= end
    ensures start <= end && start <= |s| ==> Slice(s, start, end) == s[start..Min(end, |s|)]
    ensures start <= end ==> |Slice(s, start, end)| <= end - start
    ensures start >= |s| || end <= start ==> Slice(s, start, end) == []
  {
  }

  /** `slice` never yields more than the distance between its bounds, and nothing from a start at or past the end. */
  lemma SliceLength<T>(s: seq<T>, start: int, end: int)
    ensures start <= end ==> |Slice(s, start, end)| <= end - start
    ensures start >= |s| ==> Slice(s, start, end) == []
  {
    if start <= end {
      var from := RelativeIndex(start, |s|);
      var to := RelativeIndex(end, |s|);
      if start < 0 && end >= 0 {
        assert from >= |s| + start && to <= end;
      }
    }
  }

  /** `slice(0, index)`: the first `index` elements, counting from the end when negative. */
  lemma SlicePrefix<T>(s: seq<T>, index: int)
    ensures 0 <= index <= |s| ==> Slice(s, 0, index) == s[..index]
    ensures index > |s| ==> Slice(s, 0, index) == s
    ensures index < 0 && -index <= |s| ==> Slice(s, 0, index) == s[..|s| + index]
    ensures index < 0 && -index > |s| ==> Slice(s, 0, index) == []
  {
  }

  function DigitChar(d: nat): char
    requires d < 10
  {
    ('0' as int + d) as char
  }

  /** `String(n)` for a natural number: its decimal digits, without leading zeros. */
  function Decimal(n: nat): (r: string)
    ensures 1 <= |r|
    ensures forall i :: 0 <= i < |r| ==> '0' <= r[i] <= '9'
    ensures n < 10 <==> |r| == 1
    ensures n >= 10 ==> r[0] != '0'
  {
    if n < 10 then [DigitChar(n)] else Decimal(n / 10) + [DigitChar(n % 10)]
  }

  /** `padStart(2, "0")`: left-pads with zeros to length two, longer strings unchanged. */
  function PadStart2(s: string): (r: string)
  {
    if |s| >= 2 then s else seq(2 - |s|, _ => '0') + s
  }

  /** A day or month number padded to two digits is exactly its two decimal digits. */
  lemma TwoDigits(n: nat)
    requires 1 <= n <= 99
    ensures PadStart2(Decimal(n)) == [DigitChar(n / 10), DigitChar(n % 10)]
  {
    if n >= 10 {
      assert Decimal(n / 10) == [DigitChar(n / 10)];
    }
  }

  /** `replace(/x/g, y)` for single characters. */
  function ReplaceAll(s: string, from: char, to: char): (r: string)
    ensures |r| == |s|
    ensures forall i :: 0 <= i < |s| ==> r[i] == (if s[i] == from then to else s[i])
  {
    if s == [] then [] else [if s[0] == from then to else s[0]] + ReplaceAll(s[1..], from, to)
  }
}
