/** Byte strings and the small value types shared by every other module. */
module Bytes {

  type byte = b: int | 0 <= b < 256

  datatype Option<+T> = None | Some(value: T)

  /** The bytes of a text of ASCII characters. */
  function Ascii(text: string): seq<byte>
    requires forall i :: 0 <= i < |text| ==> text[i] as int < 0x80
  {
    seq(|text|, i requires 0 <= i < |text| => text[i] as int)
  }

  // ---- reading numbers ----

  function ReadBe16(h: seq<byte>, at: nat): nat
    requires at + 2 <= |h|
  {
    var hi: int, lo: int := h[at], h[at + 1];
    hi * 0x100 + lo
  }

  function ReadBe32(h: seq<byte>, at: nat): nat
    requires at + 4 <= |h|
  {
    ReadBe16(h, at) * 0x1_0000 + ReadBe16(h, at + 2)
  }

  function ReadLe16(h: seq<byte>, at: nat): nat
    requires at + 2 <= |h|
  {
    var lo: int, hi: int := h[at], h[at + 1];
    hi * 0x100 + lo
  }

  function ReadLe32(h: seq<byte>, at: nat): nat
    requires at + 4 <= |h|
  {
    ReadLe16(h, at + 2) * 0x1_0000 + ReadLe16(h, at)
  }

  // ---- sequences ----

  function Min(a: nat, b: nat): nat {
    if a <= b then a else b
  }

  /** The first `n` elements, or all of them when there are fewer. */
  function Take<T>(s: seq<T>, n: nat): seq<T> {
    if n <= |s| then s[..n] else s
  }

  function Flatten<T>(parts: seq<seq<T>>): seq<T> {
    if parts == [] then [] else parts[0] + Flatten(parts[1..])
  }

  lemma {:induction false} FlattenAppend<T>(a: seq<seq<T>>, b: seq<seq<T>>)
    ensures Flatten(a + b) == Flatten(a) + Flatten(b)
  {
    if a == [] {
      assert a + b == b;
    } else {
      assert Flatten(a + b) == Flatten(a) + Flatten(b) by {
        assert (a + b)[1..] == a[1..] + b;
        FlattenAppend(a[1..], b);
      }
    }
  }

  /** Cutting a string in two and putting the halves back changes nothing around it. */
  lemma Rejoin<T>(before: seq<T>, w: seq<T>, k: nat, after: seq<T>)
    requires k <= |w|
    ensures (before + w[..k]) + (w[k..] + after) == before + (w + after)
  {
    assert w == w[..k] + w[k..];
  }

  /** Splitting `n` elements off the front of what lies after a cut. */
  lemma CutOff<T>(w: seq<T>, k: nat, n: nat, after: seq<T>)
    requires k + n <= |w|
    ensures w[k..] + after == w[k..][..n] + (w[k + n..] + after)
  {
    assert w[k..] == w[k..][..n] + w[k + n..];
  }

  /** Moving a cut `n` places to the right. */
  lemma MoveCut<T>(before: seq<T>, w: seq<T>, k: nat, n: nat)
    requires k + n <= |w|
    ensures (before + w[..k]) + w[k..][..n] == before + w[..k + n]
  {
    assert w[..k] + w[k..][..n] == w[..k + n];
  }

  /** Taking from a concatenation, when the first part is used up. */
  lemma TakeAcross<T>(a: seq<T>, b: seq<T>, n: nat)
    requires |a| <= n
    ensures Take(a + b, n) == a + Take(b, n - |a|)
    ensures (a + b)[|Take(a + b, n)|..] == b[|Take(b, n - |a|)|..]
  {
  }

  lemma TakeWithin<T>(a: seq<T>, b: seq<T>, n: nat)
    requires n <= |a|
    ensures Take(a + b, n) == a[..n]
    ensures (a + b)[n..] == a[n..] + b
  {
  }
}
