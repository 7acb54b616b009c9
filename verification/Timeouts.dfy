/** `grpc-timeout` values: what the client renders and what the server makes of any value. */
module Timeouts {
  import opened Bytes

  const MAX_VALUE_LEN: nat := 9
  const U64_MAX: nat := 0xFFFF_FFFF_FFFF_FFFF

  predicate IsDigit(b: byte) {
    0x30 <= b <= 0x39
  }

  predicate AllDigits(s: seq<byte>) {
    forall i :: 0 <= i < |s| ==> IsDigit(s[i])
  }

  /** The number a digit string denotes. */
  function Value(s: seq<byte>): nat
    requires AllDigits(s)
  {
    if s == [] then 0 else Value(s[..|s| - 1]) * 10 + (s[|s| - 1] - 0x30)
  }

  function Pow10(n: nat): nat {
    if n == 0 then 1 else 10 * Pow10(n - 1)
  }

  /** Nanoseconds in one unit `H`, `M`, `S`, `m`, `u` or `n`. */
  function UnitNanos(unit: byte): Option<nat> {
    if unit == 0x48 then Some(3_600_000_000_000)
    else if unit == 0x4D then Some(60_000_000_000)
    else if unit == 0x53 then Some(1_000_000_000)
    else if unit == 0x6D then Some(1_000_000)
    else if unit == 0x75 then Some(1_000)
    else if unit == 0x6E then Some(1)
    else None
  }

  /** The grammar: one to eight digits and a unit. */
  predicate Timeout(v: seq<byte>) {
    2 <= |v| <= MAX_VALUE_LEN && AllDigits(v[..|v| - 1]) && UnitNanos(v[|v| - 1]).Some?
  }

  function WireNanos(v: seq<byte>): nat
    requires Timeout(v)
  {
    Value(v[..|v| - 1]) * UnitNanos(v[|v| - 1]).value
  }

  const NANOS_PER_MS: nat := 1_000_000

  /** Whole milliseconds covering `ns`, and never less than one. */
  function MsCovering(ns: nat): nat {
    if ns == 0 then 1 else (ns + NANOS_PER_MS - 1) / NANOS_PER_MS
  }

  function SaturatingMul(a: nat, b: nat): nat {
    Min(a * b, U64_MAX)
  }

  function DivCeil(n: nat, d: nat): nat
    requires 0 < d
  {
    n / d + if n % d == 0 then 0 else 1
  }

  function ParsedMs(v: seq<byte>): Option<nat> {
    if Timeout(v) then Some(MsCovering(WireNanos(v))) else None
  }

  lemma {:induction false} ValueBound(s: seq<byte>)
    requires AllDigits(s)
    ensures Value(s) < Pow10(|s|)
  {
    if s != [] {
      ValueBound(s[..|s| - 1]);
    }
  }

  lemma {:induction false} Pow10Monotone(a: nat, b: nat)
    requires a <= b
    ensures Pow10(a) <= Pow10(b)
    decreases b
  {
    if a < b {
      Pow10Monotone(a, b - 1);
    }
  }

  lemma EightDigits(s: seq<byte>)
    requires AllDigits(s) && |s| <= 8
    ensures Value(s) < 100_000_000
  {
    ValueBound(s);
    Pow10Monotone(|s|, 8);
    assert Pow10(8) == 100_000_000;
  }

  /** Unit by unit the code rounds up to milliseconds without reaching its saturation points. */
  method ParseGrpcTimeoutMs(v: seq<byte>) returns (r: Option<nat>)
    ensures r == ParsedMs(v)
    ensures r.Some? ==> r.value <= U64_MAX
  {
    if |v| < 2 || |v| > MAX_VALUE_LEN {
      return None;
    }
    var digits, unit := v[..|v| - 1], v[|v| - 1];
    var n: nat := 0;
    for i := 0 to |digits|
      invariant AllDigits(digits[..i])
      invariant n == Value(digits[..i])
    {
      var d := digits[i];
      if !(0x30 <= d <= 0x39) {
        assert !AllDigits(digits);
        return None;
      }
      assert digits[..i + 1][..i] == digits[..i];
      n := n * 10 + (d - 0x30);
    }
    assert digits[..|digits|] == digits;
    EightDigits(digits);
    var ms;
    if unit == 0x48 { ms := SaturatingMul(n, 3_600_000); }
    else if unit == 0x4D { ms := SaturatingMul(n, 60_000); }
    else if unit == 0x53 { ms := SaturatingMul(n, 1_000); }
    else if unit == 0x6D { ms := n; }
    else if unit == 0x75 { ms := DivCeil(n, 1_000); }
    else if unit == 0x6E { ms := DivCeil(n, 1_000_000); }
    else { return None; }
    RoundsUp(n, unit);
    return Some(if ms == 0 then 1 else ms);
  }

  lemma RoundsUp(n: nat, unit: byte)
    requires n < 100_000_000 && UnitNanos(unit).Some?
    ensures var ms := if unit == 0x48 then SaturatingMul(n, 3_600_000)
                      else if unit == 0x4D then SaturatingMul(n, 60_000)
                      else if unit == 0x53 then SaturatingMul(n, 1_000)
                      else if unit == 0x6D then n
                      else if unit == 0x75 then DivCeil(n, 1_000)
                      else DivCeil(n, 1_000_000);
            (if ms == 0 then 1 else ms) == MsCovering(n * UnitNanos(unit).value)
  {
  }

  /** Hours, minutes, seconds, milliseconds, microseconds, nanoseconds, each by its letter, and nothing else. */
  lemma UnitLadder(unit: byte)
    ensures UnitNanos(Ascii("n")[0]) == Some(1)
    ensures UnitNanos(Ascii("u")[0]) == Some(1_000)
    ensures UnitNanos(Ascii("m")[0]) == Some(1_000 * 1_000)
    ensures UnitNanos(Ascii("S")[0]) == Some(1_000 * 1_000 * 1_000)
    ensures UnitNanos(Ascii("M")[0]) == Some(60 * 1_000 * 1_000 * 1_000)
    ensures UnitNanos(Ascii("H")[0]) == Some(60 * 60 * 1_000 * 1_000 * 1_000)
    ensures UnitNanos(unit).Some? <==> unit in Ascii("HMSmun")
  {
    var units := Ascii("HMSmun");
    assert units == [0x48, 0x4D, 0x53, 0x6D, 0x75, 0x6E];
  }

  /** The deadline is never shorter than the wire duration and at most one millisecond longer. */
  lemma DeadlineIsTight(v: seq<byte>)
    requires Timeout(v)
    ensures WireNanos(v) <= ParsedMs(v).value * NANOS_PER_MS <= WireNanos(v) + NANOS_PER_MS
    ensures 1 <= ParsedMs(v).value <= U64_MAX
  {
    var ns, ms := WireNanos(v), MsCovering(WireNanos(v));
    assert ns > 0 ==> ns <= ms * NANOS_PER_MS < ns + NANOS_PER_MS;
    var n, u := Value(v[..|v| - 1]), UnitNanos(v[|v| - 1]).value;
    EightDigits(v[..|v| - 1]);
    assert ns <= 100_000_000 * 3_600_000_000_000 by { MulBound(n, 100_000_000, u, 3_600_000_000_000); }
  }

  lemma MulBound(a: nat, b: nat, c: nat, d: nat)
    requires a <= b && c <= d
    ensures a * c <= b * d
  {
  }

  // ---- the client's rendering ----

  /** Decimal digits without leading zeros ("0" for zero). */
  function Decimal(v: nat): (s: seq<byte>)
    ensures |s| > 0 && AllDigits(s) && Value(s) == v
  {
    var last := [0x30 + v % 10];
    if v < 10 then assert last[..0] == []; last
    else
      var s := Decimal(v / 10) + last;
      assert s[..|s| - 1] == Decimal(v / 10);
      s
  }

  const MS_UNIT: byte := 0x6D

  lemma {:induction false} DecimalLength(v: nat, k: nat)
    requires 0 < k
    ensures |Decimal(v)| <= k <==> v < Pow10(k)
  {
    if k == 1 {
      assert Pow10(1) == 10;
    } else if v >= 10 {
      DecimalLength(v / 10, k - 1);
      assert Pow10(k) == 10 * Pow10(k - 1);
    } else {
      Pow10Monotone(1, k);
      assert Pow10(1) == 10;
    }
  }

  /** Digits go into a scratch array last first, then out in reading order before the unit. */
  method FmtMsValue(ms: nat, buf: array<byte>) returns (len: nat)
    requires ms <= 0xFFFF_FFFF && buf.Length == 11
    modifies buf
    ensures len <= buf.Length && buf[..len] == Decimal(ms) + [MS_UNIT]
  {
    hide Decimal, Value, AllDigits;
    TenDigits(ms);
    var tmp := new byte[10];
    var v, i := ms, 0;
    ghost var digits: seq<byte> := Decimal(ms);
    while i < 10
      invariant 0 <= i < |digits| <= 10 && Decimal(v) == digits[..|digits| - i]
      invariant forall j :: 0 <= j < i ==> tmp[j] == digits[|digits| - 1 - j]
    {
      DecimalLast(v);
      tmp[i] := 0x30 + v % 10;
      v := v / 10;
      i := i + 1;
      if v == 0 {
        break;
      }
    }
    len := 0;
    while len < buf.Length
      invariant 0 <= i <= |digits| && i + len == |digits|
      invariant forall j :: 0 <= j < i ==> tmp[j] == digits[|digits| - 1 - j]
      invariant len <= buf.Length && buf[..len] == digits[..len]
    {
      if i == 0 {
        buf[len] := MS_UNIT;
        return len + 1;
      }
      i := i - 1;
      buf[len] := tmp[i];
      len := len + 1;
    }
    assert false;
  }

  lemma TenDigits(v: nat)
    requires v <= 0xFFFF_FFFF
    ensures |Decimal(v)| <= 10
  {
    DecimalLength(v, 10);
    assert Pow10(10) == 10_000_000_000;
  }

  lemma DecimalLast(v: nat)
    ensures var s := Decimal(v);
            s[|s| - 1] == 0x30 + v % 10 && if v < 10 then |s| == 1 else s[..|s| - 1] == Decimal(v / 10)
  {
  }

  /** What the server reads back: the timeout itself, unless it needs nine digits or more. */
  lemma RenderedIsParsed(ms: nat)
    requires ms <= 0xFFFF_FFFF
    ensures ParsedMs(Decimal(ms) + [MS_UNIT]) ==
            if ms < 100_000_000 then Some(if ms == 0 then 1 else ms) else None
  {
    var v := Decimal(ms) + [MS_UNIT];
    assert v[..|v| - 1] == Decimal(ms);
    DecimalLength(ms, 8);
    assert Pow10(8) == 100_000_000;
  }
}
