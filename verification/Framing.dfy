/** gRPC Length-Prefixed-Message framing: a zero flag, a 4-byte big-endian length, the payload. */
module Framing {
  import opened Bytes

  const FRAME_HEADER_LEN: nat := 5
  const U32_MAX: nat := 0xFFFF_FFFF

  datatype FrameHeader = FrameHeader(compressed: bool, payloadLen: nat)

  datatype FrameError = NeedMore | TooLarge | Compressed

  datatype Decoded = Header(header: FrameHeader) | Bad(error: FrameError)

  /** `u32::to_be_bytes`, on the low 32 bits of `n`. */
  function Be32(n: nat): seq<byte> {
    var a := n / 0x100;
    var b := a / 0x100;
    var c := b / 0x100;
    [c % 0x100, b % 0x100, a % 0x100, n % 0x100]
  }

  function FromBe32(a: byte, b: byte, c: byte, d: byte): nat {
    a * 0x100_0000 + b * 0x1_0000 + c * 0x100 + d
  }

  function EncodeHeader(compressed: bool, payloadLen: nat): (hdr: seq<byte>)
    ensures |hdr| == FRAME_HEADER_LEN
  {
    [if compressed then 1 else 0] + Be32(payloadLen)
  }

  /** In-place form: fills the caller's 5-byte array. */
  method EncodeHeaderInto(compressed: bool, payloadLen: nat, out: array<byte>)
    requires out.Length == FRAME_HEADER_LEN && payloadLen <= U32_MAX
    modifies out
    ensures out[..] == EncodeHeader(compressed, payloadLen)
  {
    out[0] := if compressed then 1 else 0;
    var lenBe := Be32(payloadLen);
    out[1] := lenBe[0];
    out[2] := lenBe[1];
    out[3] := lenBe[2];
    out[4] := lenBe[3];
  }

  function DecodeHeader(buf: seq<byte>, maxLen: nat): Decoded {
    if |buf| < FRAME_HEADER_LEN then Bad(NeedMore)
    else if buf[0] != 0 then Bad(FrameError.Compressed)
    else
      var payloadLen := FromBe32(buf[1], buf[2], buf[3], buf[4]);
      if payloadLen > maxLen then Bad(TooLarge)
      else Header(FrameHeader(false, payloadLen))
  }

  /** One message as it appears on the wire. */
  function Frame(payload: seq<byte>): seq<byte> {
    EncodeHeader(false, |payload|) + payload
  }

  function Frames(payloads: seq<seq<byte>>): seq<byte> {
    if payloads == [] then [] else Frame(payloads[0]) + Frames(payloads[1..])
  }

  lemma {:induction false} FramesAppend(a: seq<seq<byte>>, b: seq<seq<byte>>)
    ensures Frames(a + b) == Frames(a) + Frames(b)
  {
    hide Frame;
    if a == [] {
      assert a + b == b;
    } else {
      assert Frames(a + b) == Frames(a) + Frames(b) by {
        assert (a + b)[1..] == a[1..] + b;
        FramesAppend(a[1..], b);
      }
    }
  }

  lemma Be32RoundTrip(n: nat)
    requires n <= U32_MAX
    ensures var b := Be32(n); FromBe32(b[0], b[1], b[2], b[3]) == n
  {
    var a := n / 0x100;
    var b := a / 0x100;
    var c := b / 0x100;
    assert n == a * 0x100 + n % 0x100;
    assert a == b * 0x100 + a % 0x100;
    assert b == c * 0x100 + b % 0x100;
    assert c < 0x100;
  }

  lemma FromBe32RoundTrip(x: int, y: int, z: int, w: int)
    requires 0 <= x < 0x100 && 0 <= y < 0x100 && 0 <= z < 0x100 && 0 <= w < 0x100
    ensures Be32(FromBe32(x, y, z, w)) == [x, y, z, w]
  {
    var n := FromBe32(x, y, z, w);
    var a := n / 0x100;
    assert a == x * 0x1_0000 + y * 0x100 + z && n % 0x100 == w;
    var b := a / 0x100;
    assert b == x * 0x100 + y && a % 0x100 == z;
    assert b / 0x100 == x && b % 0x100 == y;
  }

  /** On the wire the length is four bytes, most significant first, after a zero flag. */
  lemma HeaderIsBigEndian(payloadLen: nat)
    requires payloadLen <= 0xFFFF_FFFF
    ensures var h := EncodeHeader(false, payloadLen);
            |h| == 5 && h[0] == 0 && ReadBe32(h, 1) == payloadLen
  {
    Be32RoundTrip(payloadLen);
    hide Be32;
  }

  /** A header the decoder accepts is the one the encoder would have written. */
  lemma HeaderIsCanonical(buf: seq<byte>, maxLen: nat)
    requires DecodeHeader(buf, maxLen).Header?
    ensures EncodeHeader(false, DecodeHeader(buf, maxLen).header.payloadLen) == buf[..FRAME_HEADER_LEN]
    ensures DecodeHeader(buf, maxLen).header.payloadLen <= maxLen
  {
    FromBe32RoundTrip(buf[1], buf[2], buf[3], buf[4]);
    hide Be32;
  }

  /** The header the encoder writes is the header the decoder reads, up to the size cap. */
  lemma HeaderRoundTrip(compressed: bool, payloadLen: nat, rest: seq<byte>, maxLen: nat)
    requires payloadLen <= U32_MAX
    ensures DecodeHeader(EncodeHeader(compressed, payloadLen) + rest, maxLen) ==
            if compressed then Bad(FrameError.Compressed)
            else if payloadLen > maxLen then Bad(TooLarge)
            else Header(FrameHeader(false, payloadLen))
  {
    Be32RoundTrip(payloadLen);
    var buf := EncodeHeader(compressed, payloadLen) + rest;
    assert buf[1] == Be32(payloadLen)[0] && buf[2] == Be32(payloadLen)[1];
    assert buf[3] == Be32(payloadLen)[2] && buf[4] == Be32(payloadLen)[3];
  }

  /** Only the first five bytes matter: once they are present, later bytes change nothing. */
  lemma DecodeHeaderStable(buf: seq<byte>, more: seq<byte>, maxLen: nat)
    requires |buf| >= FRAME_HEADER_LEN
    ensures DecodeHeader(buf + more, maxLen) == DecodeHeader(buf, maxLen)
  {
    assert forall i :: 0 <= i < FRAME_HEADER_LEN ==> (buf + more)[i] == buf[i];
  }
}
