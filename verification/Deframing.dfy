/** The client's side of message framing: response DATA bytes in, whole messages out. */
module Deframing {
  import opened Bytes
  import opened Framing

  const CLIENT_MAX_MESSAGE_LEN: nat := 4 * 1024 * 1024

  datatype Inbox = Inbox(messages: seq<seq<byte>>, inbuf: seq<byte>)

  /** The first complete, acceptable frame in `buf`, if there is one. */
  function FirstFrame(buf: seq<byte>): (r: Option<nat>)
    ensures r.Some? ==> FRAME_HEADER_LEN <= r.value <= |buf|
  {
    var h := DecodeHeader(buf, CLIENT_MAX_MESSAGE_LEN);
    if h.Header? && FRAME_HEADER_LEN + h.header.payloadLen <= |buf|
    then Some(FRAME_HEADER_LEN + h.header.payloadLen) else None
  }

  /** Everything that can be taken out of `buf`, and what is left in it. */
  function Deframed(buf: seq<byte>): Inbox
    decreases |buf|
  {
    match FirstFrame(buf)
    case None => Inbox([], buf)
    case Some(total) =>
      var r := Deframed(buf[total..]);
      Inbox([buf[FRAME_HEADER_LEN..total]] + r.messages, r.inbuf)
  }

  /** One DATA chunk arrives. */
  function Fed(s: Inbox, chunk: seq<byte>): Inbox {
    var r := Deframed(s.inbuf + chunk);
    Inbox(s.messages + r.messages, r.inbuf)
  }

  function FedAll(s: Inbox, chunks: seq<seq<byte>>): Inbox
    decreases |chunks|
  {
    if chunks == [] then s else FedAll(Fed(s, chunks[0]), chunks[1..])
  }

  class CallState {
    var inbuf: seq<byte>
    var messages: seq<seq<byte>>

    constructor ()
      ensures inbuf == [] && messages == []
    {
      inbuf := [];
      messages := [];
    }

    method Deframe()
      modifies this
      ensures Inbox(messages, inbuf) ==
              Inbox(old(messages) + Deframed(old(inbuf)).messages, Deframed(old(inbuf)).inbuf)
    {
      ghost var all := Deframed(inbuf);
      var h := DecodeHeader(inbuf, CLIENT_MAX_MESSAGE_LEN);
      while h.Header?
        invariant h == DecodeHeader(inbuf, CLIENT_MAX_MESSAGE_LEN)
        invariant messages + Deframed(inbuf).messages == old(messages) + all.messages
        invariant Deframed(inbuf).inbuf == all.inbuf
        decreases |inbuf|
      {
        hide DecodeHeader;
        var total := FRAME_HEADER_LEN + h.header.payloadLen;
        if |inbuf| < total {
          break;
        }
        var msg := inbuf[FRAME_HEADER_LEN..total];
        ghost var rest := Deframed(inbuf[total..]).messages;
        assert messages + ([msg] + rest) == (messages + [msg]) + rest;
        inbuf := inbuf[total..];
        messages := messages + [msg];
        h := DecodeHeader(inbuf, CLIENT_MAX_MESSAGE_LEN);
      }
      assert messages + [] == messages;
    }

    method OnData(data: seq<byte>)
      modifies this
      ensures Inbox(messages, inbuf) == Fed(old(Inbox(messages, inbuf)), data)
    {
      inbuf := inbuf + data;
      Deframe();
    }
  }

  // ---- chunking does not matter ----

  lemma FirstFrameStable(a: seq<byte>, b: seq<byte>)
    requires FirstFrame(a).Some?
    ensures FirstFrame(a + b) == FirstFrame(a)
  {
    DecodeHeaderStable(a, b, CLIENT_MAX_MESSAGE_LEN);
  }

  /** Deframing in two instalments gives what deframing at once gives. */
  lemma {:induction false} DeframedInTwo(a: seq<byte>, b: seq<byte>)
    ensures var r, s := Deframed(a), Deframed(Deframed(a).inbuf + b);
            Deframed(a + b) == Inbox(r.messages + s.messages, s.inbuf)
    decreases |a|
  {
    hide DecodeHeader, FirstFrame;
    match FirstFrame(a) {
      case None =>
        assert Deframed(a) == Inbox([], a);
      case Some(total) =>
        FirstFrameStable(a, b);
        var m, rest := a[FRAME_HEADER_LEN..total], a[total..];
        assert (a + b)[total..] == rest + b && (a + b)[FRAME_HEADER_LEN..total] == m;
        DeframedInTwo(rest, b);
        var r, s := Deframed(rest), Deframed(Deframed(rest).inbuf + b);
        assert [m] + (r.messages + s.messages) == ([m] + r.messages) + s.messages;
    }
  }

  lemma DeframedTwice(buf: seq<byte>)
    ensures Deframed(Deframed(buf).inbuf) == Inbox([], Deframed(buf).inbuf)
    decreases |buf|
  {
    hide DecodeHeader, FirstFrame;
    if FirstFrame(buf).Some? {
      DeframedTwice(buf[FirstFrame(buf).value..]);
    }
  }

  /** However the bytes are cut into chunks, the same messages come out and the same bytes wait. */
  lemma {:induction false} ChunkingIsInvisible(s: Inbox, chunks: seq<seq<byte>>)
    requires Deframed(s.inbuf) == Inbox([], s.inbuf)
    ensures FedAll(s, chunks) == Fed(s, Flatten(chunks))
    decreases |chunks|
  {
    hide DecodeHeader, FirstFrame, Deframed;
    if chunks == [] {
      assert s.inbuf + [] == s.inbuf && s.messages + [] == s.messages;
    } else {
      var c, rest := chunks[0], Flatten(chunks[1..]);
      DeframedTwice(s.inbuf + c);
      ChunkingIsInvisible(Fed(s, c), chunks[1..]);
      DeframedInTwo(s.inbuf + c, rest);
      assert s.inbuf + (c + rest) == (s.inbuf + c) + rest;
      var r, r' := Deframed(s.inbuf + c), Deframed(Deframed(s.inbuf + c).inbuf + rest);
      assert (s.messages + r.messages) + r'.messages == s.messages + (r.messages + r'.messages);
    }
  }

  // ---- refused headers ----

  predicate Refused(buf: seq<byte>) {
    var h := DecodeHeader(buf, CLIENT_MAX_MESSAGE_LEN);
    h.Bad? && (h.error == FrameError.Compressed || h.error == TooLarge)
  }

  /** A compressed or oversized header is never got past: nothing is delivered after it. */
  lemma RefusedIsFinal(s: Inbox, chunks: seq<seq<byte>>)
    requires Refused(s.inbuf)
    ensures FedAll(s, chunks).messages == s.messages && Refused(FedAll(s, chunks).inbuf)
    decreases |chunks|
  {
    if chunks != [] {
      DecodeHeaderStable(s.inbuf, chunks[0], CLIENT_MAX_MESSAGE_LEN);
      assert Deframed(s.inbuf + chunks[0]).messages == [];
      assert s.messages + [] == s.messages;
      RefusedIsFinal(Fed(s, chunks[0]), chunks[1..]);
    }
  }

  // ---- deframing inverts framing ----

  lemma FirstFrameOf(p: seq<byte>, rest: seq<byte>)
    requires |p| <= U32_MAX
    ensures |p| <= CLIENT_MAX_MESSAGE_LEN ==>
              && FirstFrame(Frame(p) + rest) == Some(FRAME_HEADER_LEN + |p|)
              && (Frame(p) + rest)[FRAME_HEADER_LEN..FRAME_HEADER_LEN + |p|] == p
              && (Frame(p) + rest)[FRAME_HEADER_LEN + |p|..] == rest
    ensures |p| > CLIENT_MAX_MESSAGE_LEN ==> Refused(Frame(p) + rest)
  {
    HeaderRoundTrip(false, |p|, p + rest, CLIENT_MAX_MESSAGE_LEN);
    hide EncodeHeader, DecodeHeader;
    assert Frame(p) + rest == EncodeHeader(false, |p|) + (p + rest);
  }

  /** How many leading messages fit the client's size limit. */
  function Deliverable(ps: seq<seq<byte>>): (n: nat)
    ensures n <= |ps|
    ensures n == |ps| <==> forall i :: 0 <= i < |ps| ==> |ps[i]| <= 4_194_304
  {
    if ps == [] || |ps[0]| > CLIENT_MAX_MESSAGE_LEN then 0 else 1 + Deliverable(ps[1..])
  }

  /** All of the frames give all of the messages, up to the first that is over the limit. */
  lemma {:induction false} DeframedInvertsFrames(ps: seq<seq<byte>>)
    requires forall i :: 0 <= i < |ps| ==> |ps[i]| <= U32_MAX
    ensures var r := Deframed(Frames(ps));
            && r.messages == ps[..Deliverable(ps)]
            && (if Deliverable(ps) == |ps| then r.inbuf == [] else Refused(r.inbuf))
  {
    hide Frame, DecodeHeader;
    if ps == [] {
      assert Frames(ps) == [];
      assert FirstFrame([]).None? by { ShortBuffer(); }
    } else {
      FirstFrameOf(ps[0], Frames(ps[1..]));
      if |ps[0]| <= CLIENT_MAX_MESSAGE_LEN {
        DeframedInvertsFrames(ps[1..]);
        assert ps[..Deliverable(ps)] == [ps[0]] + ps[1..][..Deliverable(ps[1..])];
      }
    }
  }

  lemma ShortBuffer()
    ensures FirstFrame([]).None?
  {
  }

  /** Any prefix of the frames, in any chunks, delivers a prefix of the messages. */
  lemma PrefixDeliversPrefix(ps: seq<seq<byte>>, chunks: seq<seq<byte>>)
    requires forall i :: 0 <= i < |ps| ==> |ps[i]| <= U32_MAX
    requires Flatten(chunks) <= Frames(ps)
    ensures FedAll(Inbox([], []), chunks).messages <= ps
  {
    hide Deframed, Frames;
    var got := Flatten(chunks);
    var rest := Frames(ps)[|got|..];
    assert Frames(ps) == got + rest;
    assert Deframed([]) == Inbox([], []) by { EmptyBuffer(); }
    ChunkingIsInvisible(Inbox([], []), chunks);
    assert [] + got == got;
    DeframedInTwo(got, rest);
    DeframedInvertsFrames(ps);
    var r, s := Deframed(got), Deframed(Deframed(got).inbuf + rest);
    assert r.messages <= r.messages + s.messages;
  }

  lemma EmptyBuffer()
    ensures Deframed([]) == Inbox([], [])
  {
  }
}
