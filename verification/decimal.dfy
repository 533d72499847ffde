/** Decimal numbers to text and back, through fixed-size buffers and machine integers
    (global/support.go). */
module Decimal {
  import opened SipTypes

  function Pow10(n: nat): (p: nat)
    ensures p >= 1
  {
    if n == 0 then 1 else 10 * Pow10(n - 1)
  }

  predicate IsDigit(c: char) { '0' <= c <= '9' }
  function DigitOf(d: nat): char
    requires d < 10
  { '0' + d as char }

  function ValueOf(c: char): (d: nat)
    requires IsDigit(c)
    ensures d < 10
  { (c - '0') as nat }

  /** The decimal notation of a number. */
  function Digits(v: nat): (s: string)
    ensures s != [] && forall k :: 0 <= k < |s| ==> IsDigit(s[k])
  {
    if v < 10 then [DigitOf(v)] else Digits(v / 10) + [DigitOf(v % 10)]
  }

  /** The digits that a text starts with. */
  function DigitPrefix(s: string): (p: string)
    ensures p <= s && forall k :: 0 <= k < |p| ==> IsDigit(p[k])
    ensures |p| < |s| ==> !IsDigit(s[|p|])
  {
    if s != [] && IsDigit(s[0]) then [s[0]] + DigitPrefix(s[1..]) else []
  }

  function Number(s: string): nat
    requires forall k :: 0 <= k < |s| ==> IsDigit(s[k])
    decreases |s|
  {
    if s == [] then 0 else Number(s[..|s| - 1]) * 10 + ValueOf(s[|s| - 1])
  }

  // ----- numbers

  lemma {:induction false} NumberOfDigits(v: nat)
    ensures Number(Digits(v)) == v
  {
    if v < 10 {
      assert Digits(v)[..0] == [];
    } else {
      NumberOfDigits(v / 10);
      assert Digits(v)[..|Digits(v)| - 1] == Digits(v / 10);
    }
  }

  /** A number has at most n digits exactly when it is below the n-th power of ten. */
  lemma {:induction false} DigitsFit(v: nat, n: nat)
    requires n > 0
    ensures |Digits(v)| <= n <==> v < Pow10(n)
  {
    if n == 1 {
      assert Pow10(1) == 10;
    } else if v >= 10 {
      DigitsFit(v / 10, n - 1);
    }
  }

  lemma DigitPrefixOfAll(s: string)
    requires forall k :: 0 <= k < |s| ==> IsDigit(s[k])
    ensures DigitPrefix(s) == s
  {
    if s != [] {
      DigitPrefixOfAll(s[1..]);
    }
  }

  // ----- reading

  /** Str2Uint of a type with m values: the value of the leading digits, as far as the type holds it. */
  function Str2UintSpec(s: string, m: nat): nat
    requires m > 0
  {
    Number(DigitPrefix(s)) % m
  }

  lemma AtLeastOnce(k: int, m: int)
    requires k >= 1 && m >= 0
    ensures k * m >= m
  {
  }

  lemma Difference(a: int, b: int, m: int)
    ensures (a - b) * m == a * m - b * m
  {
  }

  /** Quotient and remainder are unique. */
  lemma RemainderIs(x: int, q: int, r: int, m: nat)
    requires 0 <= r < m && x == q * m + r
    ensures x % m == r
  {
    var p := x / m;
    Difference(q, p, m);
    Difference(p, q, m);
    if q > p {
      AtLeastOnce(q - p, m);
    } else if q < p {
      AtLeastOnce(p - q, m);
    }
  }

  lemma WrapStep(n: nat, d: nat, m: nat)
    requires m > 0
    ensures (n % m * 10 + d) % m == (n * 10 + d) % m
  {
    var x := n % m * 10 + d;
    assert n * 10 + d == (n / m * 10 + x / m) * m + x % m;
    RemainderIs(n * 10 + d, n / m * 10 + x / m, x % m, m);
  }

  method Str2Uint(s: string, m: nat) returns (out: nat)
    requires m > 0
    ensures out == Str2UintSpec(s, m)
  {
    out := 0;
    for i := 0 to |s|
      invariant forall k :: 0 <= k < i ==> IsDigit(s[k])
      invariant out == Number(s[..i]) % m
    {
      if !IsDigit(s[i]) {
        PrefixEnds(s, i);
        return;
      }
      assert s[..i + 1][..i] == s[..i];
      WrapStep(Number(s[..i]), ValueOf(s[i]), m);
      out := (out * 10 + ValueOf(s[i])) % m;
    }
    PrefixEnds(s, |s|);
  }

  lemma {:induction false} PrefixEnds(s: string, i: nat)
    requires i <= |s| && forall k :: 0 <= k < i ==> IsDigit(s[k])
    requires i < |s| ==> !IsDigit(s[i])
    ensures DigitPrefix(s) == s[..i]
  {
    if i > 0 {
      PrefixEnds(s[1..], i - 1);
      assert [s[0]] + s[1..][..i - 1] == s[..i];
    }
  }

  // ----- writing into a buffer

  /** uint2str: the digits from the end of the buffer on. */
  method WriteDigits(buf: array<char>, val: nat) returns (s: string)
    requires 0 < buf.Length && val < Pow10(buf.Length)
    modifies buf
    ensures s == Digits(val)
  {
    var i: nat, v: nat := buf.Length, val;
    while v >= 10
      invariant 0 < i <= buf.Length && v < Pow10(i)
      invariant Digits(val) == Digits(v) + buf[i..]
    {
      ghost var rest := buf[i..];
      i := i - 1;
      buf[i] := DigitOf(v % 10);
      assert buf[i..] == [DigitOf(v % 10)] + rest;
      v := v / 10;
      Fits(v, i);
    }
    ghost var rest := buf[i..];
    i := i - 1;
    buf[i] := DigitOf(v);
    assert buf[i..] == [DigitOf(v)] + rest;
    return buf[i..];
  }

  lemma Fits(v: nat, i: nat)
    requires v > 0 && v < Pow10(i)
    ensures i > 0
  {
  }

  /** Uint16ToStr, Uint32ToStr and Uint64ToStr: a buffer of the given size for a type of m values. */
  method UintToStr(val: nat, m: nat, size: nat) returns (s: string)
    requires val < m <= Pow10(size) && size > 0
    ensures s == Digits(val)
  {
    if val == 0 {
      return "0";
    }
    var buf := new char[size];
    s := WriteDigits(buf, val);
  }

  const UINT16 := 0x1_0000
  const UINT32 := 0x1_0000_0000
  const UINT64 := 0x1_0000_0000_0000_0000

  lemma BuffersSuffice()
    ensures UINT16 <= Pow10(5) && UINT32 <= Pow10(10) && UINT64 <= Pow10(20)
  {
    assert Pow10(5) == 100000;
    assert Pow10(10) == 10_000_000_000 by { assert Pow10(10) == 100000 * Pow10(5); }
    assert Pow10(15) == 100000 * Pow10(10);
    assert Pow10(20) == 100000 * Pow10(15);
  }

  lemma FitsAndReturns(val: nat, m: nat, size: nat)
    requires val < m <= Pow10(size) && size > 0
    ensures |Digits(val)| <= size && Str2UintSpec(Digits(val), m) == val
  {
    DigitsFit(val, size);
    NumberOfDigits(val);
    DigitPrefixOfAll(Digits(val));
    RemainderIs(val, 0, val, m);
  }

  /** Every value of the three types fits its buffer and is read back as itself. */
  lemma UintRoundTrip(val: nat)
    ensures val < UINT16 ==> |Digits(val)| <= 5 && Str2UintSpec(Digits(val), UINT16) == val
    ensures val < UINT32 ==> |Digits(val)| <= 10 && Str2UintSpec(Digits(val), UINT32) == val
    ensures val < UINT64 ==> |Digits(val)| <= 20 && Str2UintSpec(Digits(val), UINT64) == val
  {
    BuffersSuffice();
    if val < UINT16 { FitsAndReturns(val, UINT16, 5); }
    if val < UINT32 { FitsAndReturns(val, UINT32, 10); }
    if val < UINT64 { FitsAndReturns(val, UINT64, 20); }
  }

  // ----- signed numbers

  const INT_MIN := -0x8000_0000_0000_0000
  const INT_MAX := 0x7FFF_FFFF_FFFF_FFFF
  type Int64 = v: int | INT_MIN <= v <= INT_MAX

  /** What a 64-bit register keeps of a number. */
  function Wrap64(v: int): Int64 { (v - INT_MIN) % UINT64 + INT_MIN }

  /** Int2Str. Its buffer has ten bytes; a number that needs more stops the program, here None. The
      least integer has no opposite and is written as a minus sign and a zero. */
  method Int2Str(val: Int64) returns (r: Option<string>)
    ensures r == Int2StrSpec(val)
  {
    if val == 0 {
      return Some("0");
    }
    var buf := new char[10];
    var isNeg := val < 0;
    var v: int := if isNeg then Wrap64(val * -1) else val;
    if v < 0 {
      assert val == INT_MIN && v % 256 == 0;
      buf[9] := DigitOf(v % 256);   // the last byte of the least integer
      assert buf[9..] == ['0'] && "-" + ['0'] == "-0";
      return Some("-" + buf[9..]);
    }
    if v >= TEN_DIGITS {
      return None;
    }
    TenDigits();
    var s := WriteDigits(buf, v);
    return Some(if isNeg then "-" + s else s);
  }

  const TEN_DIGITS := 10_000_000_000

  lemma TenDigits()
    ensures Pow10(10) == TEN_DIGITS
  {
    assert Pow10(5) == 100000;
    assert Pow10(10) == 100000 * Pow10(5);
  }

  function Int2StrSpec(val: Int64): Option<string> {
    if val == INT_MIN then Some("-0")
    else if val <= -TEN_DIGITS || val >= TEN_DIGITS then None
    else Some(if val < 0 then "-" + Digits(-val) else Digits(val))
  }

  /** Str2Int of the 64-bit type. A text that ends in a stray character is read without its sign. */
  function Str2IntSpec(s: string): Int64 {
    if s == [] then 0
    else
      var isNeg := s[0] == '-';
      var p := DigitPrefix(if isNeg then s[1..] else s);
      var n: int := Number(p);
      Wrap64(if isNeg && |p| == |s| - 1 then -n else n)
  }

  lemma Wrap64Step(n: int, d: int)
    ensures Wrap64(Wrap64(n) * 10 + d) == Wrap64(n * 10 + d)
  {
  }

  lemma Wrap64Negated(n: int)
    ensures Wrap64(-(Wrap64(n) as int)) == Wrap64(-n)
  {
  }

  /** The value of a text's digits, modulo the range of the type; how many digits there were. */
  method ReadDigits(s: string, start: nat) returns (n: int, end: nat)
    requires start <= |s|
    ensures start <= end <= |s| && DigitPrefix(s[start..]) == s[start..end] && n == Wrap64(Number(s[start..end]))
  {
    n := 0;
    ghost var t := s[start..];
    for i := start to |s|
      invariant forall k :: 0 <= k < i - start ==> IsDigit(t[k])
      invariant n == Wrap64(Number(t[..i - start]))
    {
      if !IsDigit(s[i]) {
        PrefixEnds(t, i - start);
        return n, i;
      }
      assert t[..i + 1 - start][..i - start] == t[..i - start];
      Wrap64Step(Number(t[..i - start]), ValueOf(s[i]));
      n := Wrap64(n * 10 + ValueOf(s[i]));
    }
    PrefixEnds(t, |t|);
    assert t[..|t|] == t;
    return n, |s|;
  }

  method Str2Int(s: string) returns (out: Int64)
    ensures out == Str2IntSpec(s)
  {
    hide Number;
    if |s| == 0 {
      return 0;
    }
    var isNeg := s[0] == '-';
    var n, end := ReadDigits(s, if isNeg then 1 else 0);
    assert s[0..] == s;
    if isNeg && end == |s| {
      Wrap64Negated(Number(s[1..]));
      return Wrap64(-n);
    }
    return n;
  }

  /** Str2IntCheck of the 64-bit type: a sign and digits, all of them, modulo the type's range. A plus
      sign alone is read as 0. */
  function Str2IntCheckSpec(s: string): Option<Int64> {
    if s == [] || s == "-" then None
    else
      var t := if s[0] == '-' || s[0] == '+' then s[1..] else s;
      var n: int := Number(DigitPrefix(t));
      if |DigitPrefix(t)| < |t| then None else Some(Wrap64(if s[0] == '-' then -n else n))
  }

  method Str2IntCheck(s: string) returns (out: Int64, ok: bool)
    ensures ok == Str2IntCheckSpec(s).Some? && (ok ==> out == Str2IntCheckSpec(s).value)
  {
    hide Number;
    if |s| == 0 {
      return 0, false;
    }
    var isNeg := s[0] == '-';
    if isNeg && |s| == 1 {
      assert s == "-";
      return 0, false;
    }
    var n, end := ReadDigits(s, if isNeg || s[0] == '+' then 1 else 0);
    assert s[0..] == s;
    if end < |s| {
      return n, false;
    }
    if isNeg {
      Wrap64Negated(Number(s[1..]));
      return Wrap64(-n), true;
    }
    return n, true;
  }

  // ----- any text

  /** Digits, and then nothing or a character that is none. */
  predicate DigitsAndRest(d: string, rest: string) {
    (forall k :: 0 <= k < |d| ==> IsDigit(d[k])) && (rest != "" ==> !IsDigit(rest[0]))
  }

  lemma PrefixBeforeRest(d: string, rest: string)
    requires DigitsAndRest(d, rest)
    ensures DigitPrefix(d + rest) == d
  {
    PrefixEnds(d + rest, |d|);
    assert (d + rest)[..|d|] == d;
  }

  /** How any text is read: an unsigned number is that of the digits it starts with, whatever follows. */
  lemma UnsignedRead(d: string, rest: string, m: nat)
    requires DigitsAndRest(d, rest) && m > 0
    ensures Str2UintSpec(d + rest, m) == Number(d) % m
  {
    PrefixBeforeRest(d, rest);
  }

  lemma ZeroText()
    ensures Number("") == 0 == Number("0") && Wrap64(0) == 0
  {
    assert "0"[..0] == "";
  }

  lemma MinusRead(d: string, rest: string)
    requires DigitsAndRest(d, rest)
    ensures Str2IntSpec("-" + d + rest) == Wrap64(if rest == "" then -(Number(d) as int) else Number(d))
  {
    hide Number, Wrap64, DigitPrefix;
    PrefixBeforeRest(d, rest);
    var s := "-" + d + rest;
    assert s[0] == '-' && s[1..] == d + rest;
  }

  lemma NoMinusRead(d: string, rest: string)
    requires DigitsAndRest(d, rest) && !("-" <= d + rest)
    ensures Str2IntSpec(d + rest) == Wrap64(Number(d))
  {
    hide Number, Wrap64, DigitPrefix;
    ZeroText();
    PrefixBeforeRest(d, rest);
    assert d + rest != "" ==> (d + rest)[0] != '-';
  }

  /** So is a signed one, but a minus sign counts only when nothing follows the digits. */
  lemma SignedRead(d: string, rest: string)
    requires DigitsAndRest(d, rest)
    ensures Str2IntSpec("-" + d + rest) == Wrap64(if rest == "" then -(Number(d) as int) else Number(d))
    ensures !("-" <= d + rest) ==> Str2IntSpec(d + rest) == Wrap64(Number(d))
  {
    hide Number, Wrap64, Str2IntSpec, DigitsAndRest;
    MinusRead(d, rest);
    if !("-" <= d + rest) {
      NoMinusRead(d, rest);
    }
  }

  lemma StrictMinusRead(d: string, rest: string)
    requires DigitsAndRest(d, rest)
    ensures Str2IntCheckSpec("-" + d + rest) ==
            if d == "" || rest != "" then None else Some(Wrap64(-(Number(d) as int)))
  {
    hide Number, Wrap64, DigitPrefix;
    PrefixBeforeRest(d, rest);
    var s := "-" + d + rest;
    assert s[0] == '-' && s[1..] == d + rest;
    assert s == "-" <==> d + rest == "";
  }

  lemma StrictPlusRead(d: string, rest: string)
    requires DigitsAndRest(d, rest)
    ensures Str2IntCheckSpec("+" + d + rest) == if rest != "" then None else Some(Wrap64(Number(d)))
  {
    hide Number, Wrap64, DigitPrefix;
    PrefixBeforeRest(d, rest);
    var s := "+" + d + rest;
    assert s[0] == '+' && s[1..] == d + rest;
  }

  lemma StrictDigitsRead(d: string, rest: string)
    requires DigitsAndRest(d, rest) && d != ""
    ensures Str2IntCheckSpec(d + rest) == if rest != "" then None else Some(Wrap64(Number(d)))
  {
    hide Number, Wrap64, DigitPrefix;
    PrefixBeforeRest(d, rest);
    assert (d + rest)[0] == d[0] && IsDigit(d[0]);
  }

  /** The strict reader takes nothing but digits behind an optional sign, and a minus needs one digit. */
  lemma StrictlyRead(d: string, rest: string)
    requires DigitsAndRest(d, rest)
    ensures Str2IntCheckSpec("-" + d + rest) ==
            if d == "" || rest != "" then None else Some(Wrap64(-(Number(d) as int)))
    ensures Str2IntCheckSpec("+" + d + rest) == if rest != "" then None else Some(Wrap64(Number(d)))
    ensures d != "" ==> Str2IntCheckSpec(d + rest) == if rest != "" then None else Some(Wrap64(Number(d)))
  {
    hide Number, Wrap64, Str2IntCheckSpec, DigitsAndRest;
    StrictMinusRead(d, rest);
    StrictPlusRead(d, rest);
    if d != "" {
      StrictDigitsRead(d, rest);
    }
  }

  /** Int2Str followed by Str2Int: every number of up to ten digits survives, and no other but the
      least one, which comes back as 0. */
  lemma IntRoundTrip(val: Int64)
    ensures Int2StrSpec(val).Some? <==> -TEN_DIGITS < val < TEN_DIGITS || val == INT_MIN
    ensures Int2StrSpec(val).Some? ==> Str2IntSpec(Int2StrSpec(val).value) == if val == INT_MIN then 0 else val
  {
    hide Digits, Str2IntSpec, Number;
    if val == INT_MIN {
      ZeroText();
      SignedRead("0", "");
      assert "-" + "0" + "" == "-0";
    } else if -TEN_DIGITS < val < TEN_DIGITS {
      var d := Digits(if val < 0 then -val else val);
      NumberOfDigits(if val < 0 then -val else val);
      SignedRead(d, "");
      assert IsDigit(d[0]);
      assert "-" + d + "" == "-" + d && d + "" == d;
    }
  }
}
