/** The text form of a pointer kept in the `VULKAN_PTR` environment variable: printed with
    the `%` PRIxPTR conversion (lower-case hexadecimal, no prefix, no leading zeros) and read
    back with `strtoul` in base 16 on a 64-bit C library. */
module HexPtr {
  import opened EglTypes

  /** `ULONG_MAX` with a 64-bit `unsigned long`. */
  const ULONG_MAX: Ptr := 0xFFFF_FFFF_FFFF_FFFF

  predicate IsHexDigit(c: char) {
    '0' <= c <= '9' || 'a' <= c <= 'f' || 'A' <= c <= 'F'
  }

  function DigitValue(c: char): (d: nat)
    requires IsHexDigit(c)
    ensures d < 16
  {
    if '0' <= c <= '9' then c as int - '0' as int
    else if 'a' <= c <= 'f' then c as int - 'a' as int + 10
    else c as int - 'A' as int + 10
  }

  /** The characters `isspace` accepts in the C locale. */
  predicate IsSpace(c: char) {
    c == ' ' || c == '\t' || c == '\n' || c == '\r' || c == '\U{0B}' || c == '\U{0C}'
  }

  /** The lower-case digit for `d`. */
  function LowerDigit(d: nat): (c: char)
    requires d < 16
    ensures IsHexDigit(c) && !('A' <= c <= 'F') && DigitValue(c) == d
  {
    if d < 10 then ('0' as int + d) as char else ('a' as int + d - 10) as char
  }

  /** Lower-case hexadecimal text of `p`, most significant digit first, "0" for zero. */
  function Encode(p: nat): (s: string)
    ensures 0 < |s|
    ensures forall k :: 0 <= k < |s| ==> IsHexDigit(s[k]) && !('A' <= s[k] <= 'F')
    ensures |s| > 1 ==> s[0] != '0'
    decreases p
  {
    if p < 16 then [LowerDigit(p)] else Encode(p / 16) + [LowerDigit(p % 16)]
  }

  /** The number a string of hexadecimal digits spells, most significant digit first. */
  function DigitsValue(s: string): nat
    requires forall k :: 0 <= k < |s| ==> IsHexDigit(s[k])
  {
    if s == [] then 0 else DigitsValue(s[..|s| - 1]) * 16 + DigitValue(s[|s| - 1])
  }

  /** The length of the longest prefix of `s` made of hexadecimal digits. */
  function DigitRun(s: string): (n: nat)
    ensures n <= |s|
    ensures forall k :: 0 <= k < n ==> IsHexDigit(s[k])
    ensures n < |s| ==> !IsHexDigit(s[n])
  {
    if s == [] || !IsHexDigit(s[0]) then 0 else 1 + DigitRun(s[1..])
  }

  /** Leading white space skipped. */
  function SkipSpace(s: string): string {
    if s != [] && IsSpace(s[0]) then SkipSpace(s[1..]) else s
  }

  /** `strtoul(s, NULL, 16)`: skip white space, take an optional sign and an optional "0x" or
      "0X" prefix (only when a hexadecimal digit follows it), then the longest run of
      hexadecimal digits; a value above `ULONG_MAX` gives `ULONG_MAX`, and a minus sign
      negates modulo 2^64. No digits give 0. */
  function Strtoul16(s: string): (r: Ptr)
  {
    var t := SkipSpace(s);
    var neg := t != [] && t[0] == '-';
    var u := if t != [] && (t[0] == '-' || t[0] == '+') then t[1..] else t;
    var v := if |u| >= 3 && u[0] == '0' && (u[1] == 'x' || u[1] == 'X') && IsHexDigit(u[2]) then u[2..] else u;
    var digits := v[..DigitRun(v)];
    var value := DigitsValue(digits);
    if value > ULONG_MAX then ULONG_MAX
    else if neg && value != 0 then ULONG_MAX + 1 - value
    else value
  }

  /** The digits of `Encode(p)` spell `p`. */
  lemma {:induction false} EncodeValue(p: nat)
    ensures DigitsValue(Encode(p)) == p
    decreases p
  {
    if p >= 16 {
      var q, d := p / 16, p % 16;
      var s := Encode(p);
      assert s == Encode(q) + [LowerDigit(d)];
      EncodeValue(q);
      assert s[..|s| - 1] == Encode(q);
      assert DigitsValue(s) == q * 16 + d;
    }
  }

  /** A pointer fits the printing buffer: at most 16 digits. */
  lemma {:induction false} EncodeLength(p: nat, n: nat)
    requires 1 <= n && p < Pow16(n)
    ensures |Encode(p)| <= n
    decreases n
  {
    if p >= 16 {
      assert n >= 2;
      EncodeLength(p / 16, n - 1);
    }
  }

  function Pow16(n: nat): (r: nat)
    ensures r >= 1
  {
    if n == 0 then 1 else 16 * Pow16(n - 1)
  }

  lemma {:induction false} Pow16Sum(a: nat, b: nat)
    ensures Pow16(a + b) == Pow16(a) * Pow16(b)
  {
    if a > 0 {
      Pow16Sum(a - 1, b);
    }
  }

  /** Reading back the printed text of any 64-bit pointer gives the pointer. */
  lemma RoundTrip(p: Ptr)
    ensures Strtoul16(Encode(p)) == p
  {
    var s := Encode(p);
    assert SkipSpace(s) == s by { assert !IsSpace(s[0]); }
    assert s[0] != '-' && s[0] != '+';
    assert !(|s| >= 3 && s[0] == '0');
    DigitRunAll(s);
    assert s[..DigitRun(s)] == s;
    EncodeValue(p);
  }

  /** The printed text of a 64-bit pointer has at most 16 digits, well inside the 64-byte
      buffer it is printed into. */
  lemma EncodeFitsBuffer(p: Ptr)
    ensures |Encode(p)| <= 16
  {
    Pow16Sum(2, 2);
    Pow16Sum(4, 4);
    Pow16Sum(8, 8);
    assert Pow16(16) == 0x1_0000_0000_0000_0000;
    EncodeLength(p, 16);
  }

  lemma {:induction false} DigitRunAll(s: string)
    requires forall k :: 0 <= k < |s| ==> IsHexDigit(s[k])
    ensures DigitRun(s) == |s|
  {
    if s != [] {
      DigitRunAll(s[1..]);
    }
  }
}
