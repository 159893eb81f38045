/**
 * The pieces of JavaScript's string and array built-ins that the tools rely on:
 * ASCII case folding, substring search, `split`/`join`, `trim`, `slice`,
 * decimal text and `encodeURIComponent`.
 */
module JsText {
  import opened Wrappers

  // ---------------------------------------------------------------------------
  // Characters
  // ---------------------------------------------------------------------------

  predicate IsDigit(c: char) { '0' <= c <= '9' }

  function DigitValue(c: char): nat
    requires IsDigit(c)
  {
    c as int - '0' as int
  }

  function DigitChar(d: nat): char
    requires d < 10
  {
    ('0' as int + d) as char
  }

  predicate IsHexDigit(c: char) { IsDigit(c) || 'a' <= c <= 'f' || 'A' <= c <= 'F' }

  predicate IsAsciiLetter(c: char) { 'a' <= c <= 'z' || 'A' <= c <= 'Z' }

  /** The characters `\s` matches and `trim` strips: WhiteSpace and LineTerminator of ECMA-262. */
  predicate IsJsWhitespace(c: char) {
    var n := c as int;
    n == 0x09 || n == 0x0A || n == 0x0B || n == 0x0C || n == 0x0D || n == 0x20 || n == 0xA0
    || n == 0x1680 || (0x2000 <= n <= 0x200A) || n == 0x2028 || n == 0x2029
    || n == 0x202F || n == 0x205F || n == 0x3000 || n == 0xFEFF
  }

  /** The characters a regular-expression `.` does not match. */
  predicate IsLineTerminator(c: char) {
    var n := c as int;
    n == 0x0A || n == 0x0D || n == 0x2028 || n == 0x2029
  }

  /** `toLowerCase` on one character, restricted to the ASCII letters. */
  function LowerChar(c: char): char {
    if 'A' <= c <= 'Z' then (c as int + 32) as char else c
  }

  function ToLower(s: string): (r: string)
    ensures |r| == |s| && forall i :: 0 <= i < |s| ==> r[i] == LowerChar(s[i])
  {
    seq(|s|, i requires 0 <= i < |s| => LowerChar(s[i]))
  }

  // ---------------------------------------------------------------------------
  // Substrings: `includes` and `indexOf`
  // ---------------------------------------------------------------------------

  predicate OccursAt(s: string, sub: string, i: int) {
    0 <= i && i + |sub| <= |s| && s[i..i + |sub|] == sub
  }

  /** `s.includes(sub)`. */
  predicate Contains(s: string, sub: string) {
    exists i | 0 <= i <= |s| - |sub| :: OccursAt(s, sub, i)
  }

  /** `words.some(w => s.includes(w))`, spelled out as a chain of `includes` joined by `||`. */
  predicate ContainsAny(s: string, words: seq<string>) {
    words != [] && (Contains(s, words[0]) || ContainsAny(s, words[1..]))
  }

  lemma {:induction false} ContainsAnyIffSome(s: string, words: seq<string>)
    ensures ContainsAny(s, words) <==> exists w :: w in words && Contains(s, w)
  {
    if words != [] {
      ContainsAnyIffSome(s, words[1..]);
      assert words == [words[0]] + words[1..];
    }
  }

  /** A string that contains `big` contains everything `big` contains. */
  lemma {:induction false} ContainsTransitive(s: string, big: string, small: string, j: nat)
    requires Contains(s, big) && OccursAt(big, small, j)
    ensures Contains(s, small)
  {
    var i :| 0 <= i <= |s| - |big| && OccursAt(s, big, i);
    assert big == s[i..i + |big|];
    forall k | 0 <= k < |small|
      ensures s[i + j..i + j + |small|][k] == small[k]
    {
      assert small[k] == big[j + k] == s[i + j + k];
    }
    assert s[i + j..i + j + |small|] == small;
    assert OccursAt(s, small, i + j);
  }

  /** `s.indexOf(sub, from)`: the leftmost occurrence at or after `from`. */
  function IndexOfFrom(s: string, sub: string, from: nat): (r: Option<nat>)
    ensures r.Some? ==> from <= r.value && OccursAt(s, sub, r.value)
    ensures r.Some? ==> forall k :: from <= k < r.value ==> !OccursAt(s, sub, k)
    ensures r.None? ==> forall k :: from <= k ==> !OccursAt(s, sub, k)
    decreases |s| - from
  {
    if from + |sub| > |s| then None
    else if OccursAt(s, sub, from) then Some(from)
    else IndexOfFrom(s, sub, from + 1)
  }

  /** An occurrence with none before it is the one `indexOf` finds. */
  lemma IndexOfFinds(s: string, sub: string, i: nat)
    requires OccursAt(s, sub, i)
    requires forall k :: 0 <= k < i ==> !OccursAt(s, sub, k)
    ensures IndexOfFrom(s, sub, 0) == Some(i)
  {
  }

  lemma ContainsIffIndexOf(s: string, sub: string)
    ensures Contains(s, sub) <==> IndexOfFrom(s, sub, 0).Some?
  {
    var r := IndexOfFrom(s, sub, 0);
    if r.Some? {
      assert 0 <= r.value <= |s| - |sub| && OccursAt(s, sub, r.value);
    }
  }

  // ---------------------------------------------------------------------------
  // `split` and `join`
  // ---------------------------------------------------------------------------

  /** `s.split(sep)` for a non-empty separator: cut at every occurrence, left to right. */
  function Split(s: string, sep: string): (parts: seq<string>)
    requires sep != []
    ensures |parts| >= 1
    decreases |s|
  {
    match IndexOfFrom(s, sep, 0)
    case None => [s]
    case Some(i) => [s[..i]] + Split(s[i + |sep|..], sep)
  }

  /** `parts.join(sep)`. */
  function Join(parts: seq<string>, sep: string): string
    requires |parts| >= 1
  {
    if |parts| == 1 then parts[0] else parts[0] + sep + Join(parts[1..], sep)
  }

  /** Joining the pieces of a split with the same separator gives back the string. */
  lemma {:induction false} JoinSplit(s: string, sep: string)
    requires sep != []
    ensures Join(Split(s, sep), sep) == s
    decreases |s|
  {
    match IndexOfFrom(s, sep, 0)
    case None =>
    case Some(i) =>
      var rest := s[i + |sep|..];
      var tail := Split(rest, sep);
      JoinSplit(rest, sep);
      assert Split(s, sep) == [s[..i]] + tail;
      assert Join(Split(s, sep), sep) == s[..i] + sep + Join(tail, sep);
      assert s[i..i + |sep|] == sep;
      assert s == s[..i] + s[i..i + |sep|] + rest;
  }

  /** No piece of a split contains the separator. */
  lemma {:induction false} SplitPiecesAvoidSeparator(s: string, sep: string)
    requires sep != []
    ensures forall p :: p in Split(s, sep) ==> !Contains(p, sep)
    decreases |s|
  {
    match IndexOfFrom(s, sep, 0)
    case None =>
      assert Split(s, sep) == [s];
    case Some(i) =>
      var rest := s[i + |sep|..];
      SplitPiecesAvoidSeparator(rest, sep);
      var head := s[..i];
      forall k | 0 <= k <= |head| - |sep| && OccursAt(head, sep, k)
        ensures false
      {
        assert s[k..k + |sep|] == head[k..k + |sep|];
        assert OccursAt(s, sep, k);
      }
  }

  lemma CharOccursAt(s: string, c: char, k: int)
    ensures OccursAt(s, [c], k) <==> 0 <= k < |s| && s[k] == c
  {
    if 0 <= k < |s| {
      assert s[k..k + 1] == [s[k]];
    }
  }

  /** Splitting a join on a one-character separator that no part contains gives back the parts. */
  lemma {:induction false} SplitJoinChar(parts: seq<string>, c: char)
    requires |parts| >= 1
    requires forall k :: 0 <= k < |parts| ==> c !in parts[k]
    ensures Split(Join(parts, [c]), [c]) == parts
    decreases |parts|
  {
    var s := Join(parts, [c]);
    var head := parts[0];
    forall k | 0 <= k < |head|
      ensures !OccursAt(s, [c], k)
    {
      CharOccursAt(s, c, k);
      if |parts| > 1 {
        assert s == head + ([c] + Join(parts[1..], [c]));
      }
      assert s[k] == head[k];
    }
    if |parts| == 1 {
      forall k | 0 <= k
        ensures !OccursAt(s, [c], k)
      {
        CharOccursAt(s, c, k);
      }
      assert IndexOfFrom(s, [c], 0) == None;
    } else {
      var rest := Join(parts[1..], [c]);
      assert s == head + [c] + rest;
      CharOccursAt(s, c, |head|);
      IndexOfFinds(s, [c], |head|);
      assert s[|head| + 1..] == rest;
      SplitJoinChar(parts[1..], c);
      assert s[..|head|] == head;
      assert parts == [head] + parts[1..];
    }
  }

  // ---------------------------------------------------------------------------
  // `trim`
  // ---------------------------------------------------------------------------

  function LeadingSpace(s: string): (n: nat)
    ensures n <= |s|
    ensures forall k :: 0 <= k < n ==> IsJsWhitespace(s[k])
    ensures n < |s| ==> !IsJsWhitespace(s[n])
  {
    if s == [] || !IsJsWhitespace(s[0]) then 0 else 1 + LeadingSpace(s[1..])
  }

  function TrailingSpace(s: string): (n: nat)
    ensures n <= |s|
    ensures forall k :: |s| - n <= k < |s| ==> IsJsWhitespace(s[k])
    ensures n < |s| ==> !IsJsWhitespace(s[|s| - 1 - n])
  {
    if s == [] || !IsJsWhitespace(s[|s| - 1]) then 0 else 1 + TrailingSpace(s[..|s| - 1])
  }

  /** `s.trim()`: the string without its leading and trailing white space. */
  function Trim(s: string): (r: string)
    ensures r == [] || (!IsJsWhitespace(r[0]) && !IsJsWhitespace(r[|r| - 1]))
    ensures exists i :: OccursAt(s, r, i)
                        && (forall k :: 0 <= k < i ==> IsJsWhitespace(s[k]))
                        && (forall k :: i + |r| <= k < |s| ==> IsJsWhitespace(s[k]))
  {
    var a := LeadingSpace(s);
    var rest := s[a..];
    var b := TrailingSpace(rest);
    var r := rest[..|rest| - b];
    assert s[a..a + |r|] == r;
    assert OccursAt(s, r, a);
    r
  }

  // ---------------------------------------------------------------------------
  // `slice`
  // ---------------------------------------------------------------------------

  /** How `slice` reads one index: negative counts from the end, then clamp to the length. */
  function RelativeIndex(k: int, len: nat): (r: nat)
    ensures r <= len
  {
    if k < 0 then (if len + k < 0 then 0 else len + k)
    else if k > len then len else k
  }

  /** `s.slice(start, end)` of an array or a string. */
  function JsSlice<T>(s: seq<T>, start: int, end: int): (r: seq<T>)
    ensures |r| <= |s|
    ensures start <= end ==> |r| <= end - start
    ensures start == 0 <= end ==> r == s[..if end < |s| then end else |s|]
    ensures 0 <= start <= end <= |s| ==> r == s[start..end]
  {
    var from := RelativeIndex(start, |s|);
    var to := RelativeIndex(end, |s|);
    if from < to then s[from..to] else []
  }

  /** Slicing from 0 keeps a prefix: each kept entry sits at the same index. */
  lemma JsSliceFromZero<T>(s: seq<T>, end: int, k: int)
    requires 0 <= k < |JsSlice(s, 0, end)|
    ensures k < |s| && JsSlice(s, 0, end)[k] == s[k]
  {
  }

  // ---------------------------------------------------------------------------
  // Decimal text
  // ---------------------------------------------------------------------------

  predicate AllDigits(s: string) { forall i :: 0 <= i < |s| ==> IsDigit(s[i]) }

  /** The decimal numeral of `n`, as `String(n)` writes it. */
  function NatText(n: nat): (r: string)
    ensures |r| >= 1 && AllDigits(r)
    decreases n
  {
    if n < 10 then [DigitChar(n)] else NatText(n / 10) + [DigitChar(n % 10)]
  }

  function IntText(n: int): string {
    if n < 0 then "-" + NatText(-n) else NatText(n)
  }

  /** The value of a string of decimal digits, as `Number` reads it. */
  function DecimalValue(s: string): nat
    requires AllDigits(s)
  {
    if s == [] then 0 else DecimalValue(s[..|s| - 1]) * 10 + DigitValue(s[|s| - 1])
  }

  /** Reading back the numeral of `n` gives `n`. */
  lemma {:induction false} DecimalValueOfNatText(n: nat)
    ensures DecimalValue(NatText(n)) == n
    decreases n
  {
    if n >= 10 {
      var t := NatText(n);
      DecimalValueOfNatText(n / 10);
      assert t[..|t| - 1] == NatText(n / 10);
    }
  }

  /** `String(x)` for a number with at most one digit after the point. */
  function NumberText(x: real): string
    requires (x * 10.0).Floor as real == x * 10.0
  {
    var tenths := (x * 10.0).Floor;
    var magnitude: nat := if tenths < 0 then -tenths else tenths;
    (if tenths < 0 then "-" else "")
    + NatText(magnitude / 10)
    + (if magnitude % 10 == 0 then "" else "." + [DigitChar(magnitude % 10)])
  }

  // ---------------------------------------------------------------------------
  // `encodeURIComponent`
  // ---------------------------------------------------------------------------

  predicate IsUriUnreserved(c: char) {
    IsAsciiLetter(c) || IsDigit(c) || c in "-_.!~*'()"
  }

  predicate IsUpperHexDigit(c: char) { IsDigit(c) || 'A' <= c <= 'F' }

  function HexChar(d: nat): (c: char)
    requires d < 16
    ensures IsUpperHexDigit(c)
  {
    if d < 10 then DigitChar(d) else ('A' as int + d - 10) as char
  }

  /** The UTF-8 encoding of one code point. */
  function Utf8Bytes(c: char): (bytes: seq<nat>)
    ensures 1 <= |bytes| <= 4 && forall i :: 0 <= i < |bytes| ==> bytes[i] < 256
  {
    var n := c as int;
    if n < 0x80 then [n]
    else if n < 0x800 then [0xC0 + n / 64, 0x80 + n % 64]
    else if n < 0x10000 then [0xE0 + n / 4096, 0x80 + (n / 64) % 64, 0x80 + n % 64]
    else [0xF0 + n / 262144, 0x80 + (n / 4096) % 64, 0x80 + (n / 64) % 64, 0x80 + n % 64]
  }

  function PercentBytes(bytes: seq<nat>): (r: string)
    requires forall i :: 0 <= i < |bytes| ==> bytes[i] < 256
    ensures |r| == 3 * |bytes|
    ensures forall i :: 0 <= i < |r| ==> r[i] == '%' || IsUpperHexDigit(r[i])
  {
    if bytes == [] then []
    else ['%', HexChar(bytes[0] / 16), HexChar(bytes[0] % 16)] + PercentBytes(bytes[1..])
  }

  /** `encodeURIComponent(s)`: unreserved characters stay, every other one becomes %XX triples. */
  function EncodeUriComponent(s: string): (r: string)
    ensures forall i :: 0 <= i < |r| ==> IsUriUnreserved(r[i]) || r[i] == '%' || IsUpperHexDigit(r[i])
    ensures (forall i :: 0 <= i < |s| ==> IsUriUnreserved(s[i])) ==> r == s
  {
    if s == [] then []
    else
      (if IsUriUnreserved(s[0]) then [s[0]] else PercentBytes(Utf8Bytes(s[0])))
      + EncodeUriComponent(s[1..])
  }
}
