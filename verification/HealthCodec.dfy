/**
 * The two hand-written codecs of `grpc.health.v1.HealthCheckRequest`: the Rust decoder, and the C++
 * encoder and decoder with a differently shaped varint loop. One field, tag 0x0A, a string.
 */
module HealthCodec {
  import opened Bytes

  const TAG: byte := 0x0A

  function Pow2(n: nat): (r: nat)
    ensures r > 0
  {
    if n == 0 then 1 else 2 * Pow2(n - 1)
  }

  /** Values of a 64-bit word. */
  const WORD: nat := Pow2(64)

  /** Bitwise OR. */
  function Or(a: nat, b: nat): nat
    decreases a + b
  {
    if a == 0 && b == 0 then 0
    else (if a % 2 == 1 || b % 2 == 1 then 1 else 0) + 2 * Or(a / 2, b / 2)
  }

  /** Shift left, without a top. */
  function Shl(n: nat, shift: nat): nat {
    if shift == 0 then n else 2 * Shl(n, shift - 1)
  }

  /** `acc | group << shift` on 64-bit words: bits shifted past the top are lost. */
  function OrShifted(acc: nat, group: nat, shift: nat): nat {
    Or(acc, Shl(group, shift) % WORD)
  }

  // ---- arithmetic of shifts ----

  lemma {:induction false} Pow2Add(a: nat, b: nat)
    ensures Pow2(a + b) == Pow2(a) * Pow2(b)
  {
    if a > 0 {
      Pow2Add(a - 1, b);
      MulAssoc(2, Pow2(a - 1), Pow2(b));
    }
  }

  lemma MulAssoc(a: nat, b: nat, c: nat)
    ensures a * (b * c) == (a * b) * c
  {
  }

  lemma MulMonotone(a: nat, b: nat, c: nat)
    requires a <= b
    ensures a * c <= b * c
  {
  }

  lemma ModAtMost(n: nat, m: nat)
    requires m > 0
    ensures n % m <= n
    ensures n < m ==> n % m == n
  {
  }

  lemma DivUnique(n: nat, q: nat, m: nat, r: nat)
    requires n == q * m + r && r < m
    ensures n % m == r
  {
    var q' := n / m;
    assert n == q' * m + n % m;
    if q' < q {
      MulMonotone(q' + 1, q, m);
    } else if q < q' {
      MulMonotone(q + 1, q', m);
    }
  }

  lemma ScaledMod(n: nat, m: nat, p: nat)
    requires m > 0 && p > 0
    ensures m * p > 0 && (n * p) % (m * p) == (n % m) * p
  {
    var q, r := n / m, n % m;
    MulMonotone(r + 1, m, p);
    MulMonotone(1, m, p);
    assert n * p == q * (m * p) + r * p by {
      assert n == q * m + r;
      MulAssoc(q, m, p);
    }
    DivUnique(n * p, q, m * p, r * p);
  }

  lemma OrLowBit(lo: nat, u: nat, v: nat)
    ensures Or(lo + 2 * u, 2 * v) == lo % 2 + 2 * Or(lo / 2 + u, v)
  {
    var x, y := lo + 2 * u, 2 * v;
    assert x / 2 == lo / 2 + u && x % 2 == lo % 2 && y / 2 == v && y % 2 == 0;
    if x == 0 && y == 0 {
      assert Or(0, 0) == 0;
    }
  }

  /** Below bit `s` the two words are joined as they are, from bit `s` on by OR. */
  lemma {:induction false} OrSplit(lo: nat, a: nat, b: nat, s: nat)
    requires lo < Pow2(s)
    ensures Or(lo + Shl(a, s), Shl(b, s)) == lo + Shl(Or(a, b), s)
  {
    hide Or;
    if s > 0 {
      OrSplit(lo / 2, a, b, s - 1);
      OrLowBit(lo, Shl(a, s - 1), Shl(b, s - 1));
    }
  }

  lemma {:induction false} ShlIsProduct(n: nat, s: nat)
    ensures Shl(n, s) == n * Pow2(s)
  {
    if s > 0 {
      ShlIsProduct(n, s - 1);
      MulAssoc(n, 2, Pow2(s - 1));
      MulAssoc(2, n, Pow2(s - 1));
    }
  }

  lemma {:induction false} OrZero(b: nat)
    ensures Or(0, b) == b
  {
    if b > 0 { OrZero(b / 2); }
  }

  /** `acc` lies wholly below bit `shift`, so the OR of the shifted group is a sum. */
  lemma OrShiftedIsSum(acc: nat, group: nat, shift: nat)
    requires shift < 64 && acc < Pow2(shift)
    ensures OrShifted(acc, group, shift) == acc + (group % Pow2(64 - shift)) * Pow2(shift)
  {
    hide Or, Pow2, Shl;
    var kept := group % Pow2(64 - shift);
    ShlIsProduct(group, shift);
    ShlIsProduct(kept, shift);
    ShlIsProduct(0, shift);
    Pow2Add(64 - shift, shift);
    ScaledMod(group, Pow2(64 - shift), Pow2(shift));
    OrSplit(acc, 0, kept, shift);
    OrZero(kept);
  }

  /** One more seven-bit group stays below the next shift. */
  lemma GroupFits(acc: nat, group: nat, shift: nat)
    requires shift < 64 && acc < Pow2(shift) && group < 128
    ensures OrShifted(acc, group, shift) < Pow2(shift + 7)
  {
    var p, kept := Pow2(shift), group % Pow2(64 - shift);
    OrShiftedIsSum(acc, group, shift);
    hide OrShifted;
    Pow2Add(7, shift);
    assert Pow2(7) == 128;
    ModAtMost(group, Pow2(64 - shift));
    MulMonotone(kept, 127, p);
  }

  // ---- what a request means ----

  datatype Varint = NoVarint | Varint(value: nat, next: nat)

  /** The seven payload bits of a byte. */
  function Group(b: byte): (g: nat)
    ensures g < 0x80 && (b < 0x80 ==> g == b)
  {
    b % 0x80
  }

  /** A base-128 number from position `i`, least significant group first, at most ten groups. */
  function VarintFrom(d: seq<byte>, i: nat, shift: nat, acc: nat): (r: Varint)
    requires acc < Pow2(shift)
    ensures r.Varint? ==> i < r.next <= |d|
    decreases |d| - i
  {
    if i >= |d| || shift >= 64 then NoVarint
    else
      var acc' := OrShifted(acc, Group(d[i]), shift);
      assert acc' < Pow2(shift + 7) by { GroupFits(acc, Group(d[i]), shift); }
      if d[i] < 0x80 then Varint(acc', i + 1) else VarintFrom(d, i + 1, shift + 7, acc')
  }

  lemma ReadGroup(d: seq<byte>, i: nat, shift: nat, acc: nat)
    requires acc < Pow2(shift) && i < |d| && shift < 64
    ensures var acc' := OrShifted(acc, Group(d[i]), shift);
            && acc' < Pow2(shift + 7)
            && VarintFrom(d, i, shift, acc) ==
               if d[i] < 0x80 then Varint(acc', i + 1) else VarintFrom(d, i + 1, shift + 7, acc')
  {
    GroupFits(acc, Group(d[i]), shift);
    hide OrShifted, Pow2;
  }

  lemma NothingToRead(d: seq<byte>, i: nat, shift: nat, acc: nat)
    requires acc < Pow2(shift) && (i >= |d| || shift >= 64)
    ensures VarintFrom(d, i, shift, acc) == NoVarint
  {
  }

  /** The last `service` field wins; `None` for anything but a sequence of well-formed fields. */
  function RequestFrom(d: seq<byte>, i: nat, service: seq<byte>): Option<seq<byte>>
    decreases |d| - i
  {
    if i >= |d| then Some(service)
    else if d[i] != TAG then None
    else
      match VarintFrom(d, i + 1, 0, 0)
      case NoVarint => None
      case Varint(len, next) =>
        if len > |d| - next then None
        else RequestFrom(d, next + len, d[next..next + len])
  }

  function Request(d: seq<byte>): Option<seq<byte>> {
    RequestFrom(d, 0, [])
  }

  // ---- the Rust decoder ----

  method RustVarint(d: seq<byte>, at: nat) returns (r: Varint)
    ensures r == VarintFrom(d, at, 0, 0)
  {
    var i: nat, len: nat, shift: nat := at, 0, 0;
    hide OrShifted, Pow2, VarintFrom, Group;
    while true
      invariant at <= i && len < Pow2(shift)
      invariant VarintFrom(d, i, shift, len) == VarintFrom(d, at, 0, 0)
      decreases |d| - i
    {
      if i >= |d| || shift >= 64 {
        NothingToRead(d, i, shift, len);
        return NoVarint;
      }
      ReadGroup(d, i, shift, len);
      var b := d[i];
      i := i + 1;
      len := OrShifted(len, Group(b), shift);
      if b < 0x80 {
        return Varint(len, i);
      }
      shift := shift + 7;
    }
  }

  method DecodeCheckRequestRust(d: seq<byte>) returns (r: Option<seq<byte>>)
    ensures r == Request(d)
  {
    var i := 0;
    var service: seq<byte> := [];
    while i < |d|
      invariant 0 <= i <= |d| && RequestFrom(d, i, service) == Request(d)
    {
      if d[i] != TAG {
        return None;
      }
      i := i + 1;
      var v := RustVarint(d, i);
      if v.NoVarint? {
        return None;
      }
      i := v.next;
      if v.value > |d| - i {
        return None;
      }
      service := d[i..i + v.value];
      i := i + v.value;
    }
    return Some(service);
  }

  // ---- the C++ decoder ----

  /** Continuation bytes in a loop, the last byte after it. */
  method CppVarint(d: seq<byte>, at: nat) returns (r: Varint)
    ensures r == VarintFrom(d, at, 0, 0)
  {
    var i: nat, len: nat, shift: nat := at, 0, 0;
    hide OrShifted, Pow2, VarintFrom, Group;
    while i < |d| && d[i] >= 0x80
      invariant at <= i && len < Pow2(shift)
      invariant VarintFrom(d, i, shift, len) == VarintFrom(d, at, 0, 0)
      decreases |d| - i
    {
      if shift >= 64 {
        NothingToRead(d, i, shift, len);
        return NoVarint;
      }
      ReadGroup(d, i, shift, len);
      len := OrShifted(len, Group(d[i]), shift);
      shift := shift + 7;
      i := i + 1;
    }
    if i >= |d| || shift >= 64 {
      NothingToRead(d, i, shift, len);
      return NoVarint;
    }
    ReadGroup(d, i, shift, len);
    return Varint(OrShifted(len, d[i], shift), i + 1);
  }

  method DecodeCheckRequestCpp(d: seq<byte>) returns (ok: bool, service: seq<byte>)
    ensures ok <==> Request(d).Some?
    ensures ok ==> service == Request(d).value
  {
    service := [];
    var i := 0;
    while i < |d|
      invariant 0 <= i <= |d| && RequestFrom(d, i, service) == Request(d)
    {
      if d[i] != TAG {
        return false, service;
      }
      i := i + 1;
      var v := CppVarint(d, i);
      if v.NoVarint? {
        return false, service;
      }
      i := v.next;
      if v.value > |d| - i {
        return false, service;
      }
      service := d[i..i + v.value];
      i := i + v.value;
    }
    return true, service;
  }

  // ---- the encoder ----

  function VarintBytes(n: nat): (r: seq<byte>)
    ensures r != []
  {
    if n < 0x80 then [n] else [n % 0x80 + 0x80] + VarintBytes(n / 0x80)
  }

  function Encoded(service: seq<byte>): seq<byte> {
    if service == [] then [] else [TAG] + (VarintBytes(|service|) + service)
  }

  /** The loop's state: bytes already out, and the part of the length still to write. */
  predicate Writing(out: seq<byte>, len: nat, whole: nat) {
    out + VarintBytes(len) == [TAG] + VarintBytes(whole)
  }

  lemma WriteGroup(out: seq<byte>, len: nat, whole: nat)
    requires Writing(out, len, whole)
    ensures len >= 0x80 ==> Writing(out + [len % 0x80 + 0x80], len / 0x80, whole)
    ensures len < 0x80 ==> out + [len] == [TAG] + VarintBytes(whole)
  {
    if len >= 0x80 {
      var group, rest := [len % 0x80 + 0x80], VarintBytes(len / 0x80);
      assert out + (group + rest) == (out + group) + rest;
    }
  }

  /** The low byte with its top bit set: the low seven bits and 0x80. */
  lemma ContinuationByte(n: nat)
    ensures Or(n % 0x100, 0x80) == n % 0x80 + 0x80
  {
    var lo := n % 0x80;
    Seven();
    hide Or, Pow2, Shl;
    if n % 0x100 < 0x80 {
      assert n % 0x100 == lo;
      OrSplit(lo, 0, 1, 7);
    } else {
      assert n % 0x100 == lo + 0x80;
      OrSplit(lo, 1, 1, 7);
    }
  }

  lemma Seven()
    ensures Pow2(7) == Shl(1, 7) == 0x80 && Shl(0, 7) == 0 && Or(0, 1) == Or(1, 1) == 1
  {
    assert Or(0, 0) == 0;
    ShlIsProduct(1, 7);
    ShlIsProduct(0, 7);
  }

  lemma Joined(v: seq<byte>, service: seq<byte>)
    ensures ([TAG] + v) + service == [TAG] + (v + service)
  {
  }

  method EncodeCheckRequest(service: seq<byte>) returns (out: seq<byte>)
    requires |service| < WORD
    ensures out == Encoded(service)
  {
    out := [];
    if service == [] {
      return;
    }
    hide VarintBytes;
    out := out + [TAG];
    var len: nat := |service|;
    while len >= 0x80
      invariant Writing(out, len, |service|)
    {
      hide Writing;
      WriteGroup(out, len, |service|);
      ContinuationByte(len);
      out := out + [Or(len % 0x100, 0x80)];
      len := len / 0x80;
    }
    hide Writing;
    WriteGroup(out, len, |service|);
    out := out + [len];
    Joined(VarintBytes(|service|), service);
    out := out + service;
  }

  // ---- round trip ----

  predicate HasAt(d: seq<byte>, i: nat, part: seq<byte>) {
    i + |part| <= |d| && d[i..i + |part|] == part
  }

  /** The groups still to come carry the rest of the number. */
  lemma {:induction false} VarintRoundTrip(d: seq<byte>, i: nat, shift: nat, acc: nat, n: nat)
    requires acc < Pow2(shift) && acc + n * Pow2(shift) < WORD && (shift > 0 ==> n > 0)
    requires HasAt(d, i, VarintBytes(n))
    ensures VarintFrom(d, i, shift, acc) == Varint(acc + n * Pow2(shift), i + |VarintBytes(n)|)
    decreases n
  {
    hide Pow2, OrShifted;
    var bytes, group := VarintBytes(n), n % 0x80;
    assert d[i] == bytes[0] && d[i] % 0x80 == group;
    InRange(n, shift);
    GroupIsExact(acc, group, n, shift);
    if n >= 0x80 {
      var rest := n / 0x80;
      SplitGroup(n, shift);
      GroupFits(acc, group, shift);
      assert VarintBytes(rest) == bytes[1..] == d[i + 1..i + |bytes|];
      VarintRoundTrip(d, i + 1, shift + 7, acc + group * Pow2(shift), rest);
    }
  }

  lemma GroupIsExact(acc: nat, group: nat, n: nat, shift: nat)
    requires shift < 64 && acc < Pow2(shift) && group <= n < Pow2(64 - shift)
    ensures OrShifted(acc, group, shift) == acc + group * Pow2(shift)
  {
    hide Pow2, OrShifted;
    OrShiftedIsSum(acc, group, shift);
    ModAtMost(group, Pow2(64 - shift));
  }

  /** A number that fits a word leaves no bit above the top at any shift. */
  lemma InRange(n: nat, shift: nat)
    requires n * Pow2(shift) < WORD && (shift > 0 ==> n > 0)
    ensures shift < 64 && n < Pow2(64 - shift)
  {
    hide Pow2;
    if shift >= 64 {
      Pow2Add(64, shift - 64);
      MulMonotone(1, Pow2(shift - 64), Pow2(64));
      MulMonotone(1, n, Pow2(shift));
      assert false;
    }
    Pow2Add(64 - shift, shift);
    if n >= Pow2(64 - shift) {
      MulMonotone(Pow2(64 - shift), n, Pow2(shift));
    }
  }

  lemma SplitGroup(n: nat, shift: nat)
    ensures n * Pow2(shift) == (n % 0x80) * Pow2(shift) + (n / 0x80) * Pow2(shift + 7)
  {
    Pow2Add(7, shift);
    assert Pow2(7) == 128;
    var p := Pow2(shift);
    assert n == (n / 0x80) * 0x80 + n % 0x80;
    assert n * p == ((n / 0x80) * 0x80 + n % 0x80) * p;
    MulAssoc(n / 0x80, 0x80, p);
  }

  /** Every service name survives encoding and decoding, by either decoder. */
  lemma RoundTrip(service: seq<byte>)
    requires |service| < WORD
    ensures Request(Encoded(service)) == Some(service)
  {
    if service != [] {
      hide Pow2, OrShifted, VarintFrom, VarintBytes, Encoded, Request;
      var d, n := Encoded(service), |VarintBytes(|service|)|;
      EncodedLayout(service);
      ZeroShift(|service|);
      VarintRoundTrip(d, 1, 0, 0, |service|);
      OneField(d, 1 + n, service);
    }
  }

  lemma EncodedLayout(service: seq<byte>)
    requires service != []
    ensures var d, v := Encoded(service), VarintBytes(|service|);
            && |d| == 1 + |v| + |service| && d[0] == TAG
            && d[1..1 + |v|] == v && d[1 + |v|..] == service
  {
    hide VarintBytes;
  }

  /** A message of one field is its payload. */
  lemma OneField(d: seq<byte>, next: nat, service: seq<byte>)
    requires 0 < next <= |d| && d[0] == TAG && d[next..] == service
    requires Pow2(0) == 1 && VarintFrom(d, 1, 0, 0) == Varint(|service|, next)
    ensures Request(d) == Some(service)
  {
    hide Pow2, VarintFrom;
    assert d[next..next + |service|] == service;
    assert RequestFrom(d, |d|, service) == Some(service);
  }

  lemma ZeroShift(n: nat)
    ensures Pow2(0) == 1 && n * Pow2(0) == n
  {
  }
}
