/** The development wire log: one capture record and its IPv4 checksum. */
module Wirelog {
  import opened Bytes
  import Framing

  // ---- the checksum of section 3.1 of RFC 791 ----

  function Word(hi: byte, lo: byte): (w: nat)
    ensures w <= 0xFFFF
  {
    hi * 0x100 + lo
  }

  /** Sum of the big-endian 16-bit words; an odd trailing byte is ignored. */
  function WordSum(hdr: seq<byte>): nat {
    if |hdr| < 2 then 0 else Word(hdr[0], hdr[1]) + WordSum(hdr[2..])
  }

  /** End-around carry until the sum fits sixteen bits. */
  function Fold(sum: nat): (r: nat)
    ensures r <= 0xFFFF
    ensures r % 0xFFFF == sum % 0xFFFF
    ensures r == 0 <==> sum == 0
    decreases sum
  {
    if sum <= 0xFFFF then sum
    else
      var hi, lo := sum / 0x1_0000, sum % 0x1_0000;
      assert sum == hi * 0xFFFF + (hi + lo);
      assert (hi * 0xFFFF + (hi + lo)) % 0xFFFF == (hi + lo) % 0xFFFF by { AddMultiple(hi, hi + lo); }
      Fold(lo + hi)
  }

  lemma AddMultiple(k: nat, n: nat)
    ensures (k * 0xFFFF + n) % 0xFFFF == n % 0xFFFF
  {
  }

  lemma FoldStep(sum: nat)
    ensures Fold(sum) == if sum <= 0xFFFF then sum else Fold(sum % 0x1_0000 + sum / 0x1_0000)
  {
  }

  function Checksum(hdr: seq<byte>): (c: nat)
    ensures c <= 0xFFFF
  {
    0xFFFF - Fold(WordSum(hdr))
  }

  lemma {:induction false} WordSumFrom(hdr: seq<byte>, i: nat)
    requires i % 2 == 0 && i + 1 < |hdr|
    ensures WordSum(hdr[i..]) == Word(hdr[i], hdr[i + 1]) + WordSum(hdr[i + 2..])
  {
    assert hdr[i..][2..] == hdr[i + 2..];
  }

  /** Sums fit 32 bits for every header this long. */
  method Ipv4Checksum(hdr: seq<byte>) returns (c: nat)
    requires |hdr| <= 131074
    ensures c == Checksum(hdr)
  {
    hide Word, Fold;
    var sum: nat, i: nat := 0, 0;
    while i + 1 < |hdr|
      invariant i % 2 == 0 && i <= |hdr| && 2 * sum <= i * 0xFFFF
      invariant sum + WordSum(hdr[i..]) == WordSum(hdr)
    {
      WordSumFrom(hdr, i);
      sum := sum + Word(hdr[i], hdr[i + 1]);
      i := i + 2;
      assert sum <= 0xFFFF_FFFF;
    }
    hide WordSum;
    while sum > 0xFFFF
      invariant Fold(sum) == Fold(WordSum(hdr))
    {
      FoldStep(sum);
      sum := sum % 0x1_0000 + sum / 0x1_0000;
    }
    FoldStep(sum);
    c := 0xFFFF - sum;
  }

  /** `hdr` with a 16-bit big-endian value written at `k`. */
  function WithWord(hdr: seq<byte>, k: nat, w: nat): (h: seq<byte>)
    requires k + 1 < |hdr| && w <= 0xFFFF
    ensures |h| == |hdr|
  {
    var h: seq<byte> := hdr[k := w / 0x100];
    h[k + 1 := w % 0x100]
  }

  lemma {:induction false} WordSumUpdate(hdr: seq<byte>, k: nat, w: nat)
    requires k % 2 == 0 && k + 1 < |hdr| && hdr[k] == 0 && hdr[k + 1] == 0 && w <= 0xFFFF
    ensures WordSum(WithWord(hdr, k, w)) == WordSum(hdr) + w
  {
    var h := WithWord(hdr, k, w);
    if k == 0 {
      assert h[2..] == hdr[2..];
    } else {
      WordSumUpdate(hdr[2..], k - 2, w);
      assert h[2..] == WithWord(hdr[2..], k - 2, w);
    }
  }

  /** A header that carries its own checksum sums to zero, whatever its other bytes are. */
  lemma ChecksumVerifies(hdr: seq<byte>, k: nat)
    requires k % 2 == 0 && k + 1 < |hdr| && hdr[k] == 0 && hdr[k + 1] == 0
    ensures Checksum(WithWord(hdr, k, Checksum(hdr))) == 0
  {
    hide WithWord, WordSum;
    WordSumUpdate(hdr, k, Checksum(hdr));
    SelfSum(WordSum(hdr));
  }

  lemma SelfSum(sum: nat)
    ensures Fold(sum + (0xFFFF - Fold(sum))) == 0xFFFF
  {
    hide Fold;
    var f := Fold(sum);
    var whole := sum + (0xFFFF - f);
    var q, q' := sum / 0xFFFF, f / 0xFFFF;
    assert sum - f == (q - q') * 0xFFFF;
    assert whole == (q - q' + 1) * 0xFFFF;
    assert whole % 0xFFFF == 0;
  }

  // ---- one capture record ----

  const MAX_SEGMENT: nat := 1400
  const REC_OVERHEAD: nat := 56
  const IP_AT: nat := 16
  const IP_LEN: nat := 20
  const CSUM_AT: nat := 10

  datatype Dir = ClientToServer | ServerToClient

  function Le32(n: nat): seq<byte> {
    [n % 0x100, n / 0x100 % 0x100, n / 0x1_0000 % 0x100, n / 0x100_0000 % 0x100]
  }

  function Be16(n: nat): seq<byte> {
    [n / 0x100 % 0x100, n % 0x100]
  }

  /** Version, length, id, DF, TTL 64, TCP, a zero checksum, and the two synthetic addresses. */
  function IpHeader(payloadLen: nat, ipOctet: byte, dir: Dir): (h: seq<byte>)
    ensures |h| == IP_LEN && h[CSUM_AT] == 0 && h[CSUM_AT + 1] == 0
  {
    var client, server: seq<byte> := [10, 117, 117, ipOctet], [10, 117, 117, 2];
    var head: seq<byte> := [0x45, 0] + Be16(40 + payloadLen) + [0, 0, 0x40, 0, 64, 6, 0, 0];
    head + if dir.ClientToServer? then client + server else server + client
  }

  function TcpHeader(clientPort: nat, dir: Dir, tcpSeq: nat, ack: nat, flags: byte): (h: seq<byte>)
    ensures |h| == 20
  {
    (if dir.ClientToServer? then Be16(clientPort) + Be16(80) else Be16(80) + Be16(clientPort))
    + Framing.Be32(tcpSeq) + Framing.Be32(ack) + [0x50, flags, 0xFF, 0xFF, 0, 0, 0, 0]
  }

  function RecordHeader(sec: nat, usec: nat, length: nat): (h: seq<byte>)
    ensures |h| == IP_AT
  {
    Le32(sec) + Le32(usec) + Le32(length) + Le32(length)
  }

  /** A capture reader gets back the time, in host order, and the length of the packet twice. */
  lemma RecordReadsBack(sec: nat, usec: nat, length: nat)
    requires sec <= 0xFFFF_FFFF && usec <= 0xFFFF_FFFF && length <= 0xFFFF_FFFF
    ensures var h := RecordHeader(sec, usec, length);
            ReadLe32(h, 0) == sec && ReadLe32(h, 4) == usec && ReadLe32(h, 8) == length && ReadLe32(h, 12) == length
  {
    Le32Reads(sec);
    Le32Reads(usec);
    Le32Reads(length);
    hide Le32;
  }

  lemma Le32Reads(n: nat)
    requires n <= 0xFFFF_FFFF
    ensures |Le32(n)| == 4 && ReadLe32(Le32(n), 0) == n
  {
    var a := n / 0x100;
    assert n / 0x1_0000 == a / 0x100 && n / 0x100_0000 == a / 0x100 / 0x100;
  }

  /**
   * An IPv4 reader (section 3.1 of RFC 791) gets version 4 and five words of header, the total length,
   * protocol 6, and the addresses of the two ends in the direction given.
   */
  lemma IpReadsBack(payloadLen: nat, ipOctet: byte, dir: Dir)
    requires 40 + payloadLen <= 0xFFFF
    ensures var h := IpHeader(payloadLen, ipOctet, dir);
            && h[0] == 4 * 16 + 5 && ReadBe16(h, 2) == 40 + payloadLen && h[9] == 6
            && h[12..16] == (if dir.ClientToServer? then [10, 117, 117, ipOctet] else [10, 117, 117, 2])
            && h[16..20] == (if dir.ClientToServer? then [10, 117, 117, 2] else [10, 117, 117, ipOctet])
  {
  }

  /** A TCP reader (section 3.1 of RFC 793) gets the ports in the direction given, both numbers and the flags. */
  lemma TcpReadsBack(clientPort: nat, dir: Dir, tcpSeq: nat, ack: nat, flags: byte)
    requires clientPort <= 0xFFFF && tcpSeq <= 0xFFFF_FFFF && ack <= 0xFFFF_FFFF
    ensures var h := TcpHeader(clientPort, dir, tcpSeq, ack, flags);
            && ReadBe16(h, 0) == (if dir.ClientToServer? then clientPort else 80)
            && ReadBe16(h, 2) == (if dir.ClientToServer? then 80 else clientPort)
            && ReadBe32(h, 4) == tcpSeq && ReadBe32(h, 8) == ack
            && h[12] == 5 * 16 && h[13] == flags
  {
    Framing.Be32RoundTrip(tcpSeq);
    Framing.Be32RoundTrip(ack);
    var ports := if dir.ClientToServer? then Be16(clientPort) + Be16(80) else Be16(80) + Be16(clientPort);
    assert ReadBe16(ports, 0) == (if dir.ClientToServer? then clientPort else 80);
    assert ReadBe16(ports, 2) == (if dir.ClientToServer? then 80 else clientPort);
    var a, b := Framing.Be32(tcpSeq), Framing.Be32(ack);
    var h := TcpHeader(clientPort, dir, tcpSeq, ack, flags);
    assert h[..4] == ports && h[4..8] == a && h[8..12] == b;
    hide Framing.Be32, Be16;
    assert forall i :: 0 <= i < 4 ==> h[i] == h[..4][i] && h[4 + i] == h[4..8][i] && h[8 + i] == h[8..12][i];
  }

  method PutBytes(out: array<byte>, at: nat, bytes: seq<byte>)
    requires at + |bytes| <= out.Length
    modifies out
    ensures out[..at] == old(out[..at])
    ensures out[at..at + |bytes|] == bytes
  {
    forall i | 0 <= i < |bytes| { out[at + i] := bytes[i]; }
  }

  /** Fills the record in place, front to back, and puts the checksum in last. */
  method BuildRecord(out: array<byte>, sec: nat, usec: nat, clientPort: nat, ipOctet: byte, dir: Dir,
                     tcpSeq: nat, ack: nat, flags: byte, payload: seq<byte>) returns (total: nat)
    requires out.Length == REC_OVERHEAD + MAX_SEGMENT && |payload| <= MAX_SEGMENT
    modifies out
    ensures total == REC_OVERHEAD + |payload|
    ensures out[..IP_AT] == RecordHeader(sec, usec, 40 + |payload|)
    ensures Checksum(out[IP_AT..IP_AT + IP_LEN]) == 0
    ensures var ip := IpHeader(|payload|, ipOctet, dir);
            out[IP_AT..IP_AT + IP_LEN] == WithWord(ip, CSUM_AT, Checksum(ip))
    ensures out[36..56] == TcpHeader(clientPort, dir, tcpSeq, ack, flags)
    ensures out[56..total] == payload
  {
    hide RecordHeader, TcpHeader, IpHeader, Checksum;
    total := REC_OVERHEAD + |payload|;
    var ip := IpHeader(|payload|, ipOctet, dir);
    var c := Ipv4Checksum(ip);
    ChecksumVerifies(ip, CSUM_AT);
    PutBytes(out, 0, RecordHeader(sec, usec, total - 16));
    PutBytes(out, IP_AT, ip);
    assert out[IP_AT..IP_AT + IP_LEN] == ip;
    ghost var head := out[..IP_AT];
    out[IP_AT + CSUM_AT], out[IP_AT + CSUM_AT + 1] := c / 0x100, c % 0x100;
    assert out[IP_AT..IP_AT + IP_LEN] == WithWord(ip, CSUM_AT, c);
    ghost var done := out[..36];
    assert done[..IP_AT] == head && done[IP_AT..36] == out[IP_AT..36];
    PutBytes(out, 36, TcpHeader(clientPort, dir, tcpSeq, ack, flags));
    ghost var tcp := out[..56];
    PutBytes(out, 56, payload);
    assert out[..56] == tcp && tcp[..36] == done;
    assert out[..IP_AT] == done[..IP_AT] && out[IP_AT..36] == done[IP_AT..36] && out[36..56] == tcp[36..56];
  }
}
