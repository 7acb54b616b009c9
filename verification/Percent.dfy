/** Percent coding of `grpc-message`: the server's encoder and the client's byte-level decoder. */
module Percent {
  import opened Bytes
  import Utf8

  const PERCENT: byte := 0x25

  predicate Plain(b: byte) {
    0x20 <= b <= 0x7E && b != PERCENT
  }

  /** An upper-case hexadecimal digit as ASCII. */
  function HexDigit(n: nat): byte
    requires n < 16
  {
    if n < 10 then 0x30 + n else 0x41 + (n - 10)
  }

  /** The value of a hexadecimal digit of either case. */
  function HexValue(b: byte): (r: Option<nat>)
    ensures r.Some? ==> r.value < 16
  {
    if 0x30 <= b <= 0x39 then Some(b - 0x30)
    else if 0x41 <= b <= 0x46 then Some(b - 0x41 + 10)
    else if 0x61 <= b <= 0x66 then Some(b - 0x61 + 10)
    else None
  }

  function EncodeByte(b: byte): seq<byte> {
    if Plain(b) then [b] else [PERCENT, HexDigit(b / 16), HexDigit(b % 16)]
  }

  function Encoded(msg: seq<byte>): seq<byte> {
    if msg == [] then [] else EncodeByte(msg[0]) + Encoded(msg[1..])
  }

  /** An escape is recognised only with both digits present and valid. */
  predicate EscapeAt(v: seq<byte>, i: nat) {
    && i + 2 < |v| && v[i] == PERCENT
    && HexValue(v[i + 1]).Some? && HexValue(v[i + 2]).Some?
  }

  function Decoded(v: seq<byte>): seq<byte> {
    if v == [] then []
    else if EscapeAt(v, 0) then [HexValue(v[1]).value * 16 + HexValue(v[2]).value] + Decoded(v[3..])
    else [v[0]] + Decoded(v[1..])
  }

  lemma {:induction false} EncodedAppend(a: seq<byte>, b: byte)
    ensures Encoded(a + [b]) == Encoded(a) + EncodeByte(b)
  {
    if a == [] {
      assert Encoded([b]) == EncodeByte(b) + Encoded([]);
    } else {
      assert Encoded(a + [b]) == Encoded(a) + EncodeByte(b) by {
        assert (a + [b])[1..] == a[1..] + [b];
        EncodedAppend(a[1..], b);
      }
    }
  }

  method EncodeMessage(msg: seq<byte>) returns (out: seq<byte>)
    ensures out == Encoded(msg)
  {
    out := [];
    for i := 0 to |msg|
      invariant out == Encoded(msg[..i])
    {
      var b := msg[i];
      assert msg[..i + 1] == msg[..i] + [b];
      EncodedAppend(msg[..i], b);
      if !(0x20 <= b <= 0x7E) || b == PERCENT {
        out := out + [PERCENT] + [HexDigit(b / 16)] + [HexDigit(b % 16)];
      } else {
        out := out + [b];
      }
    }
    assert msg[..|msg|] == msg;
  }

  /** What the client makes of a `grpc-message`: a string, or nothing when the bytes are not UTF-8. */
  function MessageOf(v: seq<byte>): Option<seq<byte>> {
    if Utf8.Valid(Decoded(v)) then Some(Decoded(v)) else None
  }

  method DecodeMessage(v: seq<byte>) returns (r: Option<seq<byte>>)
    ensures r == MessageOf(v)
  {
    var out: seq<byte> := [];
    var i := 0;
    while i < |v|
      invariant 0 <= i <= |v|
      invariant out + Decoded(v[i..]) == Decoded(v)
    {
      hide Decoded, HexValue;
      DecodeFrom(out, v, i);
      if v[i] == PERCENT && i + 2 < |v| {
        var hi, lo := HexValue(v[i + 1]), HexValue(v[i + 2]);
        if hi.Some? && lo.Some? {
          out := out + [hi.value * 16 + lo.value];
          i := i + 3;
          continue;
        }
      }
      out := out + [v[i]];
      i := i + 1;
    }
    assert v[i..] == [] && Decoded(v[i..]) == [];
    assert out == Decoded(v);
    r := if Utf8.Valid(out) then Some(out) else None;
  }

  lemma DecodeFrom(out: seq<byte>, v: seq<byte>, i: nat)
    requires i < |v|
    ensures out + Decoded(v[i..]) ==
            if EscapeAt(v, i) then (out + [HexValue(v[i + 1]).value * 16 + HexValue(v[i + 2]).value]) + Decoded(v[i + 3..])
            else (out + [v[i]]) + Decoded(v[i + 1..])
  {
    hide HexValue;
    var rest := v[i..];
    assert EscapeAt(v, i) == EscapeAt(rest, 0);
    assert v[i + 1..] == rest[1..];
    if EscapeAt(v, i) {
      assert v[i + 3..] == rest[3..];
    }
  }

  lemma HexRoundTrip(n: nat)
    requires n < 16
    ensures HexValue(HexDigit(n)) == Some(n) && 0x20 <= HexDigit(n) <= 0x7E
  {
  }

  lemma PrintableByte(b: byte)
    ensures forall i :: 0 <= i < |EncodeByte(b)| ==> 0x20 <= EncodeByte(b)[i] <= 0x7E
  {
    HexRoundTrip(b / 16);
    HexRoundTrip(b % 16);
  }

  /** Decoding starts afresh after each encoded byte, whatever follows it. */
  lemma DecodeOne(b: byte, rest: seq<byte>)
    ensures Decoded(EncodeByte(b) + rest) == [b] + Decoded(rest)
  {
    var v := EncodeByte(b) + rest;
    if Plain(b) {
      assert v[1..] == rest;
    } else {
      HexRoundTrip(b / 16);
      HexRoundTrip(b % 16);
      assert v[1] == HexDigit(b / 16) && v[2] == HexDigit(b % 16);
      assert v[3..] == rest;
    }
  }

  /** Every byte string comes back, and travels as printable ASCII. */
  lemma {:induction false} RoundTrip(msg: seq<byte>)
    ensures Decoded(Encoded(msg)) == msg
    ensures forall i :: 0 <= i < |Encoded(msg)| ==> 0x20 <= Encoded(msg)[i] <= 0x7E
  {
    if msg != [] {
      hide Decoded;
      RoundTrip(msg[1..]);
      DecodeOne(msg[0], Encoded(msg[1..]));
      PrintableByte(msg[0]);
    }
  }

  /** Printable ASCII without '%' travels as it is. */
  lemma {:induction false} PrintableIsItself(msg: seq<byte>)
    requires forall i :: 0 <= i < |msg| ==> 0x20 <= msg[i] <= 0x7E && msg[i] != 0x25
    ensures Encoded(msg) == msg && Decoded(msg) == msg
  {
    if msg != [] {
      PrintableIsItself(msg[1..]);
      assert msg == [msg[0]] + msg[1..];
    }
  }

  const UPPER := Ascii("0123456789ABCDEF")
  const LOWER := Ascii("0123456789abcdef")

  /** Any other byte travels as '%' and its two digits, in upper case. */
  lemma OthersAreEscaped(b: byte)
    requires !(0x20 <= b <= 0x7E) || b == 0x25
    ensures Encoded([b]) == [0x25, UPPER[b / 16], UPPER[b % 16]]
  {
    assert [b][1..] == [] && EncodeByte(b) + [] == EncodeByte(b);
    UpperDigit(b / 16);
    UpperDigit(b % 16);
  }

  lemma UpperDigit(n: nat)
    requires n < 16
    ensures HexDigit(n) == UPPER[n]
  {
  }

  /** The decoder's digits are those of either case, and no other byte. */
  lemma DigitsOfEitherCase(b: byte, n: nat)
    requires n < 16
    ensures HexValue(b) == Some(n) <==> b == UPPER[n] || b == LOWER[n]
  {
  }

  /** A '%' without two digits after it stands for itself. */
  lemma StrayPercent(v: seq<byte>)
    requires v != [] && v[0] == 0x25
    requires |v| < 3 || v[1] !in UPPER + LOWER || v[2] !in UPPER + LOWER
    ensures Decoded(v) == [0x25] + Decoded(v[1..])
  {
    if |v| >= 3 {
      if HexValue(v[1]).Some? { DigitsOfEitherCase(v[1], HexValue(v[1]).value); }
      if HexValue(v[2]).Some? { DigitsOfEitherCase(v[2], HexValue(v[2]).value); }
      hide HexValue;
    }
  }

  /** End to end: the client shows a message as it was given exactly if it is the UTF-8 of some text. */
  lemma ShownIff(msg: seq<byte>)
    ensures MessageOf(Encoded(msg)) == Some(msg) <==> exists text :: msg == Utf8.EncodeAll(text)
    ensures MessageOf(Encoded(msg)) == Some(msg) || MessageOf(Encoded(msg)) == None
  {
    RoundTrip(msg);
    hide Encoded, Decoded;
    if Utf8.Valid(msg) {
      var text := Utf8.ValidIsText(msg);
    } else if text :| msg == Utf8.EncodeAll(text) {
      Utf8.TextIsValid(text);
    }
  }

  /** Different messages never share an encoding. */
  lemma EncodedInjective(a: seq<byte>, b: seq<byte>)
    requires Encoded(a) == Encoded(b)
    ensures a == b
  {
    RoundTrip(a);
    RoundTrip(b);
  }
}
