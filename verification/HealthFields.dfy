/** Which byte strings the health-check decoders accept, and what they make of them. */
module HealthFields {
  import opened Bytes
  import opened HealthCodec

  /** Continuation bytes, then one byte below 0x80. */
  predicate Terminated(v: seq<byte>) {
    v != [] && v[|v| - 1] < 0x80 && forall i :: 0 <= i < |v| - 1 ==> v[i] >= 0x80
  }

  /** Seven bits a byte, least significant first. */
  function Number(v: seq<byte>): nat {
    if v == [] then 0 else Group(v[0]) + 0x80 * Number(v[1..])
  }

  datatype Field = Field(length: seq<byte>, body: seq<byte>)

  /** The length is a number of at most ten bytes that is, in 64 bits, the length of the body. */
  predicate FieldOk(f: Field) {
    Terminated(f.length) && |f.length| <= 10 && Number(f.length) % 0x1_0000_0000_0000_0000 == |f.body|
  }

  predicate FieldsOk(fs: seq<Field>) {
    forall i :: 0 <= i < |fs| ==> FieldOk(fs[i])
  }

  function FieldBytes(f: Field): seq<byte> {
    [0x0A] + (f.length + f.body)
  }

  function Message(fs: seq<Field>): seq<byte> {
    if fs == [] then [] else FieldBytes(fs[0]) + Message(fs[1..])
  }

  // ---- numbers ----

  lemma WordIs()
    ensures WORD == 0x1_0000_0000_0000_0000
  {
    Byte();
    hide Pow2;
    Pow2Add(8, 8);
    Squared(Pow2(8), 0x100);
    Pow2Add(16, 16);
    Squared(Pow2(16), 0x1_0000);
    Pow2Add(32, 32);
    Squared(Pow2(32), 0x1_0000_0000);
  }

  lemma Byte()
    ensures Pow2(8) == 0x100
  {
  }

  lemma Squared(a: nat, b: nat)
    requires a == b
    ensures a * a == b * b
  {
  }

  lemma GroupMod(g: nat, n: nat, m: nat)
    requires g < 0x80 && m > 0
    ensures 0x80 * m > 0 && (g + 0x80 * n) % (0x80 * m) == g + 0x80 * (n % m)
  {
    var q, r := n / m, n % m;
    assert n == q * m + r;
    assert g + 0x80 * n == q * (0x80 * m) + (g + 0x80 * r) by { MulAssoc(q, 0x80, m); }
    DivUnique(g + 0x80 * n, q, 0x80 * m, g + 0x80 * r);
  }

  /** What the decoder reads is the number, without the bits above the 64th. */
  lemma {:induction false} ReadsNumber(d: seq<byte>, i: nat, shift: nat, acc: nat, v: seq<byte>)
    requires acc < Pow2(shift) && HasAt(d, i, v) && Terminated(v) && shift + 7 * (|v| - 1) < 64
    ensures VarintFrom(d, i, shift, acc) == Varint(acc + (Number(v) % Pow2(64 - shift)) * Pow2(shift), i + |v|)
    decreases |v|
  {
    hide Pow2, OrShifted, VarintFrom, Group;
    var g, p := Group(v[0]), Pow2(shift);
    assert d[i] == v[0];
    ReadGroup(d, i, shift, acc);
    OrShiftedIsSum(acc, g, shift);
    if |v| == 1 {
      assert Number(v) == g by { assert Number(v[1..]) == 0; }
    } else {
      var rest, n := v[1..], Number(v[1..]);
      assert HasAt(d, i + 1, rest) && Terminated(rest);
      GroupKept(g, shift);
      ReadsNumber(d, i + 1, shift + 7, acc + g * p, rest);
      NextGroup(g, n, shift);
    }
  }

  lemma GroupKept(g: nat, shift: nat)
    requires g < 0x80 && shift + 7 < 64
    ensures g % Pow2(64 - shift) == g
  {
    hide Pow2, Or, Shl;
    Pow2Add(7, 57 - shift);
    Seven();
    MulMonotone(1, Pow2(57 - shift), 0x80);
    ModAtMost(g, Pow2(64 - shift));
  }

  lemma NextGroup(g: nat, n: nat, shift: nat)
    requires g < 0x80 && shift + 7 < 64
    ensures ((g + 0x80 * n) % Pow2(64 - shift)) * Pow2(shift) ==
            g * Pow2(shift) + (n % Pow2(57 - shift)) * Pow2(shift + 7)
  {
    hide Pow2, Or, Shl;
    var p, m := Pow2(shift), Pow2(57 - shift);
    Pow2Add(7, 57 - shift);
    Pow2Add(7, shift);
    Seven();
    GroupMod(g, n, m);
    var r := n % m;
    assert (g + 0x80 * r) * p == g * p + (0x80 * r) * p;
    MulAssoc(r, 0x80, p);
  }

  /** Whatever is read as a number is one, of at most ten bytes. */
  lemma {:induction false} NumberIsThere(d: seq<byte>, i: nat, shift: nat, acc: nat)
    requires acc < Pow2(shift) && VarintFrom(d, i, shift, acc).Varint?
    ensures var v := d[i..VarintFrom(d, i, shift, acc).next]; Terminated(v) && shift + 7 * (|v| - 1) < 64
    decreases |d| - i
  {
    hide Pow2, OrShifted, VarintFrom, Group;
    if i >= |d| || shift >= 64 {
      NothingToRead(d, i, shift, acc);
    } else {
      ReadGroup(d, i, shift, acc);
      var next := VarintFrom(d, i, shift, acc).next;
      if d[i] >= 0x80 {
        NumberIsThere(d, i + 1, shift + 7, OrShifted(acc, Group(d[i]), shift));
        assert d[i..next] == [d[i]] + d[i + 1..next];
      }
    }
  }

  // ---- messages ----

  lemma FieldLayout(d: seq<byte>, i: nat, f: Field)
    requires HasAt(d, i, FieldBytes(f))
    ensures var n := |f.length|;
            && |FieldBytes(f)| == 1 + n + |f.body| && d[i] == 0x0A && HasAt(d, i + 1, f.length)
            && d[i + 1 + n..i + 1 + n + |f.body|] == f.body
  {
    var part, n := FieldBytes(f), |f.length|;
    var tail := f.length + f.body;
    assert part[0] == 0x0A && part[1..] == tail && tail[..n] == f.length && tail[n..] == f.body;
    hide FieldBytes;
    assert d[i] == d[i..i + |part|][0];
    assert d[i + 1..i + 1 + n] == d[i..i + |part|][1..][..n];
    assert d[i + 1 + n..i + 1 + n + |f.body|] == d[i..i + |part|][1..][n..];
  }

  /** One field at position `i`. */
  lemma ReadsField(d: seq<byte>, i: nat, f: Field, service: seq<byte>)
    requires FieldOk(f) && HasAt(d, i, FieldBytes(f))
    ensures RequestFrom(d, i, service) == RequestFrom(d, i + |FieldBytes(f)|, f.body)
  {
    hide VarintFrom, Number, Terminated;
    var n := |f.length|;
    FieldLayout(d, i, f);
    WordIs();
    assert Pow2(0) == 1;
    hide Pow2;
    ReadsNumber(d, i + 1, 0, 0, f.length);
  }

  lemma {:induction false} ReadsFields(d: seq<byte>, i: nat, fs: seq<Field>, service: seq<byte>)
    requires FieldsOk(fs) && i <= |d| && d[i..] == Message(fs)
    ensures RequestFrom(d, i, service) == Some(if fs == [] then service else fs[|fs| - 1].body)
    decreases |fs|
  {
    hide VarintFrom, FieldOk, FieldBytes;
    if fs != [] {
      var f, n := FieldBytes(fs[0]), |FieldBytes(fs[0])|;
      assert d[i..][..n] == f && d[i..][n..] == Message(fs[1..]);
      assert d[i..i + n] == d[i..][..n] && d[i + n..] == d[i..][n..];
      ReadsField(d, i, fs[0], service);
      ReadsFields(d, i + n, fs[1..], fs[0].body);
    }
  }

  /** The last field wins. */
  lemma LastFieldWins(fs: seq<Field>)
    requires FieldsOk(fs)
    ensures Request(Message(fs)) == Some(if fs == [] then [] else fs[|fs| - 1].body)
  {
    hide RequestFrom, Message, FieldOk;
    assert Message(fs)[0..] == Message(fs);
    ReadsFields(Message(fs), 0, fs, []);
  }

  /** The field an accepted message begins with. */
  lemma FieldIsThere(d: seq<byte>, i: nat, service: seq<byte>) returns (f: Field)
    requires i < |d| && RequestFrom(d, i, service).Some?
    ensures FieldOk(f) && HasAt(d, i, FieldBytes(f)) && |FieldBytes(f)| > 0
  {
    hide VarintFrom, Terminated, Number, Pow2;
    ZeroShift(0);
    var n := VarintFrom(d, i + 1, 0, 0);
    NumberIsThere(d, i + 1, 0, 0);
    var v, body := d[i + 1..n.next], d[n.next..n.next + n.value];
    WordIs();
    ReadsNumber(d, i + 1, 0, 0, v);
    f := Field(v, body);
    assert d[i..i + |FieldBytes(f)|] == [d[i]] + (d[i + 1..n.next] + d[n.next..n.next + n.value]);
  }

  lemma {:induction false} AcceptedIsFields(d: seq<byte>, i: nat, service: seq<byte>) returns (fs: seq<Field>)
    requires i <= |d| && RequestFrom(d, i, service).Some?
    ensures FieldsOk(fs) && d[i..] == Message(fs)
    decreases |d| - i
  {
    hide VarintFrom, FieldOk, FieldBytes;
    if i == |d| {
      fs := [];
    } else {
      var f := FieldIsThere(d, i, service);
      ReadsField(d, i, f, service);
      var n := |FieldBytes(f)|;
      var rest := AcceptedIsFields(d, i + n, f.body);
      fs := [f] + rest;
      assert fs[1..] == rest && d[i..] == d[i..i + n] + d[i + n..];
    }
  }

  /** Accepted are exactly the sequences of well-formed fields: anything else is refused. */
  lemma AcceptedIff(d: seq<byte>)
    ensures Request(d).Some? <==> exists fs :: FieldsOk(fs) && d == Message(fs)
  {
    hide RequestFrom, Message, FieldsOk;
    if Request(d).Some? {
      var fs := AcceptedIsFields(d, 0, []);
      assert d[0..] == d;
    } else if fs :| FieldsOk(fs) && d == Message(fs) {
      LastFieldWins(fs);
    }
  }
}
