/** Which byte strings are UTF-8: the grammar of section 4 of RFC 3629, and the encoder of its section 3. */
module Utf8 {
  import opened Bytes

  type Scalar = c: nat | c < 0x11_0000 && !(0xD800 <= c < 0xE000)

  function EncodeScalar(c: Scalar): (s: seq<byte>)
    ensures 1 <= |s| <= 4
  {
    if c < 0x80 then [c]
    else if c < 0x800 then [0xC0 + c / 0x40, 0x80 + c % 0x40]
    else if c < 0x1_0000 then [0xE0 + c / 0x1000, 0x80 + c / 0x40 % 0x40, 0x80 + c % 0x40]
    else [0xF0 + c / 0x4_0000, 0x80 + c / 0x1000 % 0x40, 0x80 + c / 0x40 % 0x40, 0x80 + c % 0x40]
  }

  function EncodeAll(text: seq<Scalar>): seq<byte> {
    if text == [] then [] else EncodeScalar(text[0]) + EncodeAll(text[1..])
  }

  predicate Tail(b: byte) {
    0x80 <= b <= 0xBF
  }

  /** The second byte of a three-byte sequence: no overlong form, no surrogate. */
  predicate Second3(b0: byte, b1: byte) {
    0xE0 <= b0 <= 0xEF && Tail(b1) && (b0 == 0xE0 ==> 0xA0 <= b1) && (b0 == 0xED ==> b1 <= 0x9F)
  }

  /** The second byte of a four-byte sequence: no overlong form, nothing past the last scalar. */
  predicate Second4(b0: byte, b1: byte) {
    0xF0 <= b0 <= 0xF4 && Tail(b1) && (b0 == 0xF0 ==> 0x90 <= b1) && (b0 == 0xF4 ==> b1 <= 0x8F)
  }

  /** How many bytes the first character takes; 0 if there is none. */
  function Lead(s: seq<byte>): (n: nat)
    ensures n <= |s|
  {
    if s == [] then 0
    else if s[0] < 0x80 then 1
    else if |s| > 1 && 0xC2 <= s[0] <= 0xDF && Tail(s[1]) then 2
    else if |s| > 2 && Second3(s[0], s[1]) && Tail(s[2]) then 3
    else if |s| > 3 && Second4(s[0], s[1]) && Tail(s[2]) && Tail(s[3]) then 4
    else 0
  }

  predicate Valid(s: seq<byte>)
    decreases |s|
  {
    s == [] || (Lead(s) > 0 && Valid(s[Lead(s)..]))
  }

  lemma Parts2(c: nat)
    requires c < 0x800
    ensures c / 0x40 < 0x20 && c == c / 0x40 * 0x40 + c % 0x40
  {
  }

  lemma Parts3(c: nat)
    requires c < 0x1_0000
    ensures c / 0x1000 < 0x10 && c == c / 0x1000 * 0x1000 + c / 0x40 % 0x40 * 0x40 + c % 0x40
  {
    assert c / 0x40 == c / 0x1000 * 0x40 + c / 0x40 % 0x40;
  }

  lemma Parts4(c: nat)
    requires c < 0x11_0000
    ensures c / 0x4_0000 < 5
    ensures c == c / 0x4_0000 * 0x4_0000 + c / 0x1000 % 0x40 * 0x1000 + c / 0x40 % 0x40 * 0x40 + c % 0x40
  {
    assert c / 0x1000 == c / 0x4_0000 * 0x40 + c / 0x1000 % 0x40;
    assert c / 0x40 == c / 0x1000 * 0x40 + c / 0x40 % 0x40;
  }

  /** An encoded character is taken whole, whatever follows it. */
  lemma LeadOfEncoded(c: Scalar, rest: seq<byte>)
    ensures Lead(EncodeScalar(c) + rest) == |EncodeScalar(c)|
  {
    if c < 0x80 {
    } else if c < 0x800 {
      Parts2(c);
    } else if c < 0x1_0000 {
      Parts3(c);
    } else {
      Parts4(c);
    }
  }

  /** Six bits more. */
  function Join(hi: int, lo: int): int {
    hi * 0x40 + lo
  }

  lemma Joined(hi: int, lo: int)
    requires 0 <= lo < 0x40
    ensures Join(hi, lo) / 0x40 == hi && Join(hi, lo) % 0x40 == lo
  {
  }

  lemma Twice(c: nat)
    ensures c / 0x1000 == c / 0x40 / 0x40 && c / 0x4_0000 == c / 0x1000 / 0x40
  {
  }

  lemma Encodes2(a: byte, b: byte) returns (c: Scalar)
    requires 0xC2 <= a <= 0xDF && Tail(b)
    ensures EncodeScalar(c) == [a, b]
  {
    Joined(a - 0xC0, b - 0x80);
    c := Join(a - 0xC0, b - 0x80);
  }

  lemma Encodes3(a: byte, b: byte, d: byte) returns (c: Scalar)
    requires Second3(a, b) && Tail(d)
    ensures EncodeScalar(c) == [a, b, d]
  {
    var u := Join(a - 0xE0, b - 0x80);
    var v := Join(u, d - 0x80);
    assert 0x800 <= v < 0x1_0000 && !(0xD800 <= v < 0xE000);
    Joined(a - 0xE0, b - 0x80);
    Joined(u, d - 0x80);
    Twice(v);
    c := v;
    hide Join;
  }

  lemma Encodes4(a: byte, b: byte, d: byte, e: byte) returns (c: Scalar)
    requires Second4(a, b) && Tail(d) && Tail(e)
    ensures EncodeScalar(c) == [a, b, d, e]
  {
    var u := Join(a - 0xF0, b - 0x80);
    var v := Join(u, d - 0x80);
    var w := Join(v, e - 0x80);
    assert 0x1_0000 <= w < 0x11_0000;
    Joined(a - 0xF0, b - 0x80);
    Joined(u, d - 0x80);
    Joined(v, e - 0x80);
    Twice(w);
    c := w;
    hide Join;
  }

  lemma FrontEncodes(s: seq<byte>) returns (c: Scalar)
    requires Lead(s) > 0
    ensures EncodeScalar(c) == s[..Lead(s)]
  {
    match Lead(s) {
      case 1 => c := s[0];
      case 2 => c := Encodes2(s[0], s[1]);
      case 3 => c := Encodes3(s[0], s[1], s[2]);
      case _ => c := Encodes4(s[0], s[1], s[2], s[3]);
    }
  }

  /** The grammar accepts exactly the encodings of texts. */
  lemma {:induction false} ValidIsText(s: seq<byte>) returns (text: seq<Scalar>)
    requires Valid(s)
    ensures EncodeAll(text) == s
    decreases |s|
  {
    hide EncodeScalar, Lead;
    text := [];
    if s != [] {
      var n := Lead(s);
      var c := FrontEncodes(s);
      var rest := ValidIsText(s[n..]);
      text := [c] + rest;
      assert EncodeAll(text) == s[..n] + s[n..] by { assert text[0] == c && text[1..] == rest; }
    }
  }

  lemma {:induction false} TextIsValid(text: seq<Scalar>)
    ensures Valid(EncodeAll(text))
  {
    if text != [] {
      hide EncodeScalar, Lead;
      var head, rest := EncodeScalar(text[0]), EncodeAll(text[1..]);
      TextIsValid(text[1..]);
      LeadOfEncoded(text[0], rest);
      assert (head + rest)[|head|..] == rest;
    }
  }
}
