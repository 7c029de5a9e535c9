/**
 * The PHP string built-ins the tracking agent relies on, with PHP's own
 * semantics: `trim` and `empty` on strings, `strpos`, `strtok` (first call,
 * one delimiter), `str_replace` of one character by another, `strtoupper`
 * and `strtolower` on ASCII, the conversion of an int to a string, and
 * `urlencode` together with the `urldecode` that reads its result back.
 * A PHP string is a sequence of bytes; here it is a `string` of Unicode
 * scalar values, turned into UTF-8 bytes where the bytes matter (`urlencode`).
 */
module Php {
  import opened Options

  // ---------------------------------------------------------------- trim

  /** The characters `trim` strips when given no list: space, tab, LF, CR, NUL and vertical tab. */
  predicate IsBlank(c: char) {
    c == ' ' || c == '\t' || c == '\n' || c == '\r' || c == '\0' || c == '\U{B}'
  }

  /** `s` without its leading blanks. */
  function TrimStart(s: string): (r: string)
    ensures |r| <= |s| && r == s[|s| - |r|..]
    ensures forall i | 0 <= i < |s| - |r| :: IsBlank(s[i])
    ensures r == [] || !IsBlank(r[0])
    decreases |s|
  {
    if s != [] && IsBlank(s[0]) then TrimStart(s[1..]) else s
  }

  /** `s` without its trailing blanks. */
  function TrimEnd(s: string): (r: string)
    ensures |r| <= |s| && r == s[..|r|]
    ensures forall i | |r| <= i < |s| :: IsBlank(s[i])
    ensures r == [] || !IsBlank(r[|r| - 1])
    decreases |s|
  {
    if s != [] && IsBlank(s[|s| - 1]) then TrimEnd(s[..|s| - 1]) else s
  }

  /** `r` sits at index `k` of `s` with nothing but blanks before and after it. */
  predicate BlankAround(s: string, r: string, k: int) {
    OccursAt(s, r, k)
    && (forall i | 0 <= i < k :: IsBlank(s[i]))
    && (forall i | k + |r| <= i < |s| :: IsBlank(s[i]))
  }

  /**
   * PHP `trim($s)`: the part of `s` between its leading and its trailing
   * blanks; empty exactly when `s` holds nothing but blanks.
   */
  function Trim(s: string): (r: string)
    ensures |r| <= |s|
    ensures exists k :: BlankAround(s, r, k)
    ensures r == [] || (!IsBlank(r[0]) && !IsBlank(r[|r| - 1]))
    ensures r == [] <==> forall i | 0 <= i < |s| :: IsBlank(s[i])
  {
    var t := TrimStart(s);
    var r := TrimEnd(t);
    var k := |s| - |t|;
    assert BlankAround(s, r, k) by {
      assert forall i | k + |r| <= i < |s| :: s[i] == t[i - k];
    }
    assert r == [] ==> t == [];
    r
  }

  /** A string with no blank at either end is its own `trim`. */
  lemma TrimOfTrimmed(s: string)
    requires s == [] || (!IsBlank(s[0]) && !IsBlank(s[|s| - 1]))
    ensures Trim(s) == s
  {
  }

  /** PHP `empty($s)` on a string: true for "" and also for "0". */
  predicate IsEmpty(s: string) {
    s == "" || s == "0"
  }

  // -------------------------------------------------------------- strpos

  /** `needle` occurs in `haystack` starting at index `k`. */
  predicate OccursAt(haystack: string, needle: string, k: int) {
    0 <= k && k + |needle| <= |haystack| && haystack[k..k + |needle|] == needle
  }

  /** The first index at or after `from` where `needle` occurs in `haystack`. */
  function IndexFrom(haystack: string, needle: string, from: nat): (r: Option<nat>)
    ensures r.Some? ==> from <= r.value && OccursAt(haystack, needle, r.value)
    ensures forall k | from <= k && (r.None? || k < r.value) :: !OccursAt(haystack, needle, k)
    decreases |haystack| - from
  {
    if from + |needle| > |haystack| then None
    else if OccursAt(haystack, needle, from) then Some(from)
    else IndexFrom(haystack, needle, from + 1)
  }

  /** PHP `strpos($haystack, $needle)`: the first occurrence; `None` is PHP's `false`. */
  function StrPos(haystack: string, needle: string): (r: Option<nat>)
    ensures r.Some? ==> OccursAt(haystack, needle, r.value)
                        && forall k | 0 <= k < r.value :: !OccursAt(haystack, needle, k)
    ensures r.None? <==> forall k :: !OccursAt(haystack, needle, k)
  {
    IndexFrom(haystack, needle, 0)
  }

  /** `strpos($haystack, $needle) !== false`. */
  predicate Contains(haystack: string, needle: string) {
    StrPos(haystack, needle).Some?
  }

  // -------------------------------------------------------------- strtok

  /** `s` without its leading delimiters. */
  function SkipDelimiters(s: string, d: char): (r: string)
    ensures |r| <= |s| && r == s[|s| - |r|..]
    ensures forall i | 0 <= i < |s| - |r| :: s[i] == d
    ensures r == [] || r[0] != d
    decreases |s|
  {
    if s != [] && s[0] == d then SkipDelimiters(s[1..], d) else s
  }

  /** The longest prefix of `s` without the delimiter. */
  function UpToDelimiter(s: string, d: char): (r: string)
    ensures |r| <= |s| && r == s[..|r|]
    ensures d !in r
    ensures |r| == |s| || s[|r|] == d
    decreases |s|
  {
    if s == [] || s[0] == d then [] else [s[0]] + UpToDelimiter(s[1..], d)
  }

  /**
   * `t` is the first token of `s`: it starts at `k`, after nothing but
   * delimiters, and runs up to the next delimiter or the end.
   */
  predicate FirstTokenAt(s: string, d: char, k: int, t: string) {
    0 <= k < |s| && (forall i | 0 <= i < k :: s[i] == d) && s[k] != d
    && k + |t| <= |s| && t == s[k..k + |t|] && (k + |t| == |s| || s[k + |t|] == d)
  }

  /**
   * PHP `strtok($s, $d)` as a first call with a one-character delimiter list.
   * It skips leading delimiters and answers `false` (`None`) when nothing is
   * left; otherwise the token runs up to the next delimiter.
   */
  function StrTok(s: string, d: char): (r: Option<string>)
    ensures r.None? <==> forall i | 0 <= i < |s| :: s[i] == d
    ensures r.Some? ==> r.value != [] && d !in r.value
    ensures r.Some? ==> exists k :: FirstTokenAt(s, d, k, r.value)
    ensures s != [] && s[0] != d ==>
              r.Some? && |r.value| <= |s| && r.value == s[..|r.value|]
              && (|r.value| == |s| || s[|r.value|] == d)
  {
    var t := SkipDelimiters(s, d);
    if t == [] then None
    else
      var tok := UpToDelimiter(t, d);
      var k := |s| - |t|;
      assert t == s[k..];
      assert tok == s[k..k + |tok|];
      assert k + |tok| < |s| ==> s[k + |tok|] == t[|tok|];
      assert FirstTokenAt(s, d, k, tok);
      Some(tok)
  }

  // ------------------------------------------------- str_replace, case

  /** PHP `str_replace($from, $to, $s)` for two one-character strings. */
  function ReplaceChar(s: string, from: char, to: char): (r: string)
    ensures |r| == |s|
    ensures forall i | 0 <= i < |s| :: r[i] == if s[i] == from then to else s[i]
  {
    if s == [] then []
    else [if s[0] == from then to else s[0]] + ReplaceChar(s[1..], from, to)
  }

  /** Replacing back undoes a replacement when the target character did not occur before. */
  lemma ReplaceCharUndo(s: string, from: char, to: char)
    requires to !in s
    ensures ReplaceChar(ReplaceChar(s, from, to), to, from) == s
  {
    var r := ReplaceChar(ReplaceChar(s, from, to), to, from);
    assert forall i | 0 <= i < |s| :: r[i] == s[i];
  }

  /** Replacing works piece by piece. */
  lemma ReplaceCharConcat(a: string, b: string, from: char, to: char)
    ensures ReplaceChar(a + b, from, to) == ReplaceChar(a, from, to) + ReplaceChar(b, from, to)
  {
    var l := ReplaceChar(a + b, from, to);
    var r := ReplaceChar(a, from, to) + ReplaceChar(b, from, to);
    assert forall i | 0 <= i < |a + b| :: l[i] == r[i];
  }

  /** A string without the character is left as it is. */
  lemma ReplaceCharAbsent(s: string, from: char, to: char)
    requires from !in s
    ensures ReplaceChar(s, from, to) == s
  {
    var r := ReplaceChar(s, from, to);
    assert forall i | 0 <= i < |s| :: r[i] == s[i];
  }

  function UpperChar(c: char): char {
    if 'a' <= c <= 'z' then (c as int - 32) as char else c
  }

  function LowerChar(c: char): char {
    if 'A' <= c <= 'Z' then (c as int + 32) as char else c
  }

  /** PHP `strtoupper`, which maps only the ASCII letters. */
  function ToUpper(s: string): (r: string)
    ensures |r| == |s| && forall i | 0 <= i < |s| :: r[i] == UpperChar(s[i])
  {
    if s == [] then [] else [UpperChar(s[0])] + ToUpper(s[1..])
  }

  /** PHP `strtolower`, which maps only the ASCII letters. */
  function ToLower(s: string): (r: string)
    ensures |r| == |s| && forall i | 0 <= i < |s| :: r[i] == LowerChar(s[i])
  {
    if s == [] then [] else [LowerChar(s[0])] + ToLower(s[1..])
  }

  // ------------------------------------------------- int to string

  predicate IsDigit(c: char) {
    '0' <= c <= '9'
  }

  function DigitChar(d: int): (c: char)
    requires 0 <= d < 10
    ensures IsDigit(c)
  {
    ('0' as int + d) as char
  }

  /** The decimal digits of `n`, without leading zeros. */
  function NatToDecimal(n: nat): (r: string)
    ensures r != [] && forall i | 0 <= i < |r| :: IsDigit(r[i])
    ensures (r[0] == '0') == (n == 0)
    decreases n
  {
    if n < 10 then [DigitChar(n)] else NatToDecimal(n / 10) + [DigitChar(n % 10)]
  }

  /**
   * PHP's conversion of an int to a string (as `.` does it): the digits of
   * the number, after a '-' when it is negative.
   */
  function IntToDecimal(i: int): (r: string)
    ensures r != []
    ensures i >= 0 ==> forall k | 0 <= k < |r| :: IsDigit(r[k])
    ensures i >= 0 ==> DecimalValue(r) == i
    ensures i < 0 ==> r[0] == '-' && forall k | 1 <= k < |r| :: IsDigit(r[k])
    ensures i < 0 ==> DecimalValue(r[1..]) == -i
  {
    if i < 0 then
      DecimalRoundTrip(-i);
      var r := "-" + NatToDecimal(-i);
      assert r[1..] == NatToDecimal(-i);
      r
    else
      DecimalRoundTrip(i);
      NatToDecimal(i)
  }

  /** The number a string of decimal digits denotes. */
  function DecimalValue(s: string): nat
    requires forall i | 0 <= i < |s| :: IsDigit(s[i])
  {
    if s == [] then 0
    else
      assert IsDigit(s[|s| - 1]);
      DecimalValue(s[..|s| - 1]) * 10 + (s[|s| - 1] as int - '0' as int)
  }

  /** The digits of a number read back as that number. */
  lemma {:induction false} DecimalRoundTrip(n: nat)
    ensures DecimalValue(NatToDecimal(n)) == n
  {
    if n >= 10 {
      var r := NatToDecimal(n);
      DecimalRoundTrip(n / 10);
      assert r[..|r| - 1] == NatToDecimal(n / 10);
    }
  }

  // ------------------------------------------------- urlencode

  type Byte = b: int | 0 <= b < 256

  /** The UTF-8 encoding of one Unicode scalar value. */
  function Utf8(c: char): (bs: seq<Byte>)
    ensures 1 <= |bs| <= 4
    ensures |bs| == 1 <==> c as int < 0x80
  {
    var n := c as int;
    if n < 0x80 then [n]
    else if n < 0x800 then [0xC0 + n / 0x40, 0x80 + n % 0x40]
    else if n < 0x1_0000 then [0xE0 + n / 0x1000, 0x80 + n / 0x40 % 0x40, 0x80 + n % 0x40]
    else [0xF0 + n / 0x4_0000, 0x80 + n / 0x1000 % 0x40, 0x80 + n / 0x40 % 0x40, 0x80 + n % 0x40]
  }

  /** The bytes PHP holds for a string. */
  function Utf8Bytes(s: string): seq<Byte> {
    if s == [] then [] else Utf8(s[0]) + Utf8Bytes(s[1..])
  }

  /** The bytes `urlencode` leaves as they are: ASCII letters, digits, '-', '_' and '.'. */
  predicate IsUnreserved(b: int) {
    ('0' as int <= b <= '9' as int) || ('A' as int <= b <= 'Z' as int) || ('a' as int <= b <= 'z' as int)
    || b == '-' as int || b == '_' as int || b == '.' as int
  }

  /** Every character `urlencode` can produce. */
  predicate IsUrlEncodedChar(c: char) {
    IsUnreserved(c as int) || c == '+' || c == '%'
  }

  function HexDigit(k: int): (c: char)
    requires 0 <= k < 16
    ensures IsUnreserved(c as int)
  {
    if k < 10 then ('0' as int + k) as char else ('A' as int + k - 10) as char
  }

  predicate IsHexChar(c: char) {
    ('0' <= c <= '9') || ('A' <= c <= 'F') || ('a' <= c <= 'f')
  }

  function HexValue(c: char): (v: int)
    requires IsHexChar(c)
    ensures 0 <= v < 16
  {
    if '0' <= c <= '9' then c as int - '0' as int
    else if 'A' <= c <= 'F' then c as int - 'A' as int + 10
    else c as int - 'a' as int + 10
  }

  /** How `urlencode` writes one byte: itself, '+' for a space, otherwise '%' and two upper-case hex digits. */
  function EncodeByte(b: Byte): (r: string)
    ensures forall i | 0 <= i < |r| :: IsUrlEncodedChar(r[i])
  {
    if IsUnreserved(b) then [b as char]
    else if b == 32 then "+"
    else ['%', HexDigit(b / 16), HexDigit(b % 16)]
  }

  function UrlEncodeBytes(bs: seq<Byte>): (r: string)
    ensures forall i | 0 <= i < |r| :: IsUrlEncodedChar(r[i])
  {
    if bs == [] then [] else EncodeByte(bs[0]) + UrlEncodeBytes(bs[1..])
  }

  /**
   * PHP `urlencode($s)`. Its result holds only letters, digits and "-_.+%",
   * so it never contains a '?', '&', '=' or '#' that would end or split a
   * query parameter.
   */
  function UrlEncode(s: string): (r: string)
    ensures forall i | 0 <= i < |r| :: IsUrlEncodedChar(r[i])
    ensures '?' !in r && '&' !in r && '=' !in r && '#' !in r
  {
    var r := UrlEncodeBytes(Utf8Bytes(s));
    assert forall c | c in r :: IsUrlEncodedChar(c);
    r
  }

  /** PHP `urldecode`, as PHP applies it to a query parameter it puts in `$_GET`. */
  function UrlDecode(s: string): (bs: seq<Byte>)
    requires forall i | 0 <= i < |s| :: s[i] as int < 256
    decreases |s|
  {
    if s == [] then []
    else if s[0] == '%' && |s| >= 3 && IsHexChar(s[1]) && IsHexChar(s[2]) then
      [HexValue(s[1]) * 16 + HexValue(s[2])] + UrlDecode(s[3..])
    else if s[0] == '+' then [32] + UrlDecode(s[1..])
    else [s[0] as int] + UrlDecode(s[1..])
  }

  lemma DecodeEncodedByte(b: Byte, t: string)
    requires forall i | 0 <= i < |t| :: t[i] as int < 256
    ensures forall i | 0 <= i < |EncodeByte(b) + t| :: (EncodeByte(b) + t)[i] as int < 256
    ensures UrlDecode(EncodeByte(b) + t) == [b] + UrlDecode(t)
  {
    var e := EncodeByte(b);
    if !IsUnreserved(b) && b != 32 {
      assert (e + t)[3..] == t;
      assert HexValue(HexDigit(b / 16)) * 16 + HexValue(HexDigit(b % 16)) == b;
    } else {
      assert (e + t)[1..] == t;
    }
  }

  /** Decoding what `urlencode` wrote gives back the bytes it was given. */
  lemma {:induction false} UrlDecodeEncode(bs: seq<Byte>)
    ensures forall i | 0 <= i < |UrlEncodeBytes(bs)| :: UrlEncodeBytes(bs)[i] as int < 256
    ensures UrlDecode(UrlEncodeBytes(bs)) == bs
  {
    if bs != [] {
      UrlDecodeEncode(bs[1..]);
      DecodeEncodedByte(bs[0], UrlEncodeBytes(bs[1..]));
    }
  }

  /** The value PHP puts in `$_GET` for an `urlencode`d parameter is the UTF-8 of the original text. */
  lemma UrlEncodeRoundTrip(s: string)
    ensures forall i | 0 <= i < |UrlEncode(s)| :: UrlEncode(s)[i] as int < 256
    ensures UrlDecode(UrlEncode(s)) == Utf8Bytes(s)
  {
    UrlDecodeEncode(Utf8Bytes(s));
  }
}
