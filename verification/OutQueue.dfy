/** The outbound queue as the object the callbacks share, proved against the queue model. */
module OutQueueObject {
  import opened Bytes
  import opened Framing
  import opened QueueModel
  import opened QueueProofs

  /** A window of one framed message, cut at the boundary between header and payload. */
  lemma WireWindow(m: OutMsg, from: nat, to: nat)
    requires Framed(m) && from <= to <= Len(m)
    ensures Wire(m)[from..to] ==
            (if from < FRAME_HEADER_LEN then m.hdr[from..Min(to, FRAME_HEADER_LEN)] else []) +
            m.body[Max(from, FRAME_HEADER_LEN) - FRAME_HEADER_LEN..Max(to, FRAME_HEADER_LEN) - FRAME_HEADER_LEN]
  {
    hide EncodeHeader;
  }

  function Max(a: nat, b: nat): nat {
    if a >= b then a else b
  }

  /** `dst[at..at + |src|].copy_from_slice(src)`. */
  method CopyAt(dst: array<byte>, at: nat, src: seq<byte>)
    requires at + |src| <= dst.Length
    modifies dst
    ensures dst[..at] == old(dst[..at])
    ensures dst[at..at + |src|] == src
    ensures forall i :: at + |src| <= i < dst.Length ==> dst[i] == old(dst[i])
  {
    forall i | 0 <= i < |src| {
      dst[at + i] := src[i];
    }
  }

  class OutQueue {
    var messages: seq<OutMsg>
    var frontOffset: nat
    var frontCommitted: bool
    var finished: bool
    var finalStatus: GrpcStatus
    var finalMessage: Option<seq<byte>>
    var responseStarted: bool
    var backpressure: Backpressure

    function Model(): Queue
      reads this
    {
      Queue(messages, frontOffset, frontCommitted, finished, finalStatus, finalMessage, responseStarted, backpressure)
    }

    predicate Valid()
      reads this
    {
      WellFormed(Model())
    }

    constructor ()
      ensures Model() == EMPTY_QUEUE
    {
      messages := [];
      frontOffset := 0;
      frontCommitted := false;
      finished := false;
      finalStatus := STATUS_OK;
      finalMessage := None;
      responseStarted := false;
      backpressure := Unbounded;
    }

    /** An object for the queue a stream holds. */
    constructor Load(q: Queue)
      requires WellFormed(q)
      ensures Valid() && Model() == q
    {
      messages := q.messages;
      frontOffset := q.frontOffset;
      frontCommitted := q.frontCommitted;
      finished := q.finished;
      finalStatus := q.finalStatus;
      finalMessage := q.finalMessage;
      responseStarted := q.responseStarted;
      backpressure := q.backpressure;
    }

    method FrontLeft() returns (n: nat)
      requires Valid()
      ensures n == |Take(Pending(Model()), FrontRemaining(Model()))| == FrontRemaining(Model())
    {
      hide EncodeHeader;
      n := 0;
      if messages != [] {
        assert Framed(messages[0]);
        n := Len(messages[0]) - frontOffset;
      }
    }

    /** Marks the head in flight and says how many of its bytes may be sent from place. */
    method PromiseFront(max: nat) returns (n: nat)
      requires Valid()
      modifies this`frontCommitted
      ensures Valid() && Model() == Promised(old(Model()), max)
      ensures n == PromisedLength(old(Model()), max)
    {
      var remaining := FrontLeft();
      n := Min(remaining, max);
      if n > 0 {
        frontCommitted := true;
      }
    }

    /** The promised bytes in place, as a header part and a payload part. */
    method FrontRegions(n: nat) returns (hdrPart: seq<byte>, bodyPart: seq<byte>)
      requires Valid()
      ensures hdrPart + bodyPart == FrontBytes(Model(), n)
      ensures messages == [] || frontOffset >= FRAME_HEADER_LEN ==> hdrPart == []
      ensures messages != [] && frontOffset + n <= FRAME_HEADER_LEN ==> bodyPart == []
    {
      if messages == [] {
        return [], [];
      }
      hide EncodeHeader, FrontBytes, Wire;
      var front := messages[0];
      assert Framed(front);
      FrontWindow(Model(), n);
      var end := frontOffset + Min(n, Len(front) - frontOffset);
      if frontOffset < FRAME_HEADER_LEN {
        hdrPart := front.hdr[frontOffset..Min(end, FRAME_HEADER_LEN)];
      } else {
        hdrPart := [];
      }
      var from, to := Max(frontOffset, FRAME_HEADER_LEN), Max(end, FRAME_HEADER_LEN);
      bodyPart := front.body[from - FRAME_HEADER_LEN..to - FRAME_HEADER_LEN];
      WireWindow(front, frontOffset, end);
    }

    /** `n` promised bytes reached the socket. */
    method ConsumeFront(n: nat)
      requires Valid()
      modifies this`messages, this`frontOffset, this`frontCommitted
      ensures Valid() && Model() == Consumed(old(Model()), n)
    {
      hide EncodeHeader, Wire;
      if messages != [] {
        assert Framed(messages[0]);
        frontOffset := frontOffset + Min(n, Len(messages[0]) - frontOffset);
        if frontOffset == Len(messages[0]) {
          messages := messages[1..];
          frontOffset := 0;
        }
      }
      frontCommitted := false;
    }

    /**
     * `accepted == false` is the source's QueueFull: the message is too long for its header, or the
     * queue rejects at `capacity` unstarted messages. Only a full dropping queue does not grow.
     */
    method EnqueueOwned(body: seq<byte>) returns (accepted: bool)
      requires Valid()
      modifies this`messages
      ensures Valid() && Model() == Enqueued(old(Model()), body)
      ensures accepted == Accepts(old(Model()), body)
      ensures accepted <==>
                && |body| <= 0xFFFF_FFFF
                && !(backpressure.Bounded? && backpressure.policy == Reject &&
                     UnstartedCount(old(Model())) >= backpressure.capacity)
      ensures !accepted ==> messages == old(messages)
      ensures var full := backpressure.Bounded? && UnstartedCount(old(Model())) >= backpressure.capacity;
              accepted ==> |messages| == |old(messages)| + if full then 0 else 1
      ensures accepted ==> messages != [] && messages[|messages| - 1].body == body
    {
      if |body| > U32_MAX {
        return false;
      }
      if Accepts(Model(), body) { EnqueueKeepsFront(Model(), body); }
      hide EncodeHeader, Wire;
      if backpressure.Bounded? && UnstartedCount(Model()) >= backpressure.capacity {
        if backpressure.policy == Reject {
          return false;
        }
        var dropIdx := if frontOffset > 0 || frontCommitted then 1 else 0;
        if dropIdx < |messages| {
          messages := messages[..dropIdx] + messages[dropIdx + 1..];
        }
      }
      messages := messages + [OutMsg(EncodeHeader(false, |body|), body)];
      return true;
    }

    /** Copies what fits of the head's frame header. */
    method ShipHeaderPart(dst: array<byte>, at: nat) returns (take: nat)
      requires Valid() && messages != [] && at < dst.Length && frontOffset < FRAME_HEADER_LEN
      modifies this`frontOffset, dst
      ensures Valid() && Model() == Advanced(old(Model()), take)
      ensures take == Min(FRAME_HEADER_LEN - old(frontOffset), dst.Length - at)
      ensures dst[..at + take] == old(dst[..at]) + FrontBytes(old(Model()), take)
      ensures forall i :: at + take <= i < dst.Length ==> dst[i] == old(dst[i])
    {
      hide EncodeHeader, Wire, FrontBytes;
      take := Min(FRAME_HEADER_LEN - frontOffset, dst.Length - at);
      HeaderPart(Model(), take);
      CopyAt(dst, at, messages[0].hdr[frontOffset..frontOffset + take]);
      frontOffset := frontOffset + take;
    }

    /** Copies what fits of the head's payload, and drops the head once it is complete. */
    method ShipBodyPart(dst: array<byte>, at: nat) returns (take: nat)
      requires Valid() && messages != [] && at < dst.Length && frontOffset >= FRAME_HEADER_LEN
      modifies this`messages, this`frontOffset, dst
      ensures Valid() && Model() == Popped(Advanced(old(Model()), take))
      ensures take == Min(FrontRemaining(old(Model())), dst.Length - at)
      ensures dst[..at + take] == old(dst[..at]) + FrontBytes(old(Model()), take)
      ensures forall i :: at + take <= i < dst.Length ==> dst[i] == old(dst[i])
    {
      hide EncodeHeader, Wire, FrontBytes;
      var bodyOff := frontOffset - FRAME_HEADER_LEN;
      assert Framed(messages[0]);
      take := Min(|messages[0].body| - bodyOff, dst.Length - at);
      BodyPart(Model(), take);
      CopyAt(dst, at, messages[0].body[bodyOff..bodyOff + take]);
      frontOffset := frontOffset + take;
      if frontOffset == Len(messages[0]) {
        messages := messages[1..];
        frontOffset := 0;
      }
    }

    /** Copies queued bytes into `dst`; says how many. */
    method DrainInto(dst: array<byte>) returns (written: nat)
      requires Valid()
      modifies this`messages, this`frontOffset, dst
      ensures Valid() && Model() == Drained(old(Model()), dst.Length)
      ensures written <= dst.Length && dst[..written] == Take(Pending(old(Model())), dst.Length)
      ensures forall i :: written <= i < dst.Length ==> dst[i] == old(dst[i])
    {
      hide EncodeHeader, Wire, WellFormed, Drained, Pending, Popped, FrontBytes, ToGo;
      written := 0;
      ghost var q0 := Model();
      ToGoAtStart(q0, dst.Length);
      while written < dst.Length && messages != []
        invariant Valid() && written <= dst.Length
        invariant ToGo(q0, dst.Length, dst[..written], Model())
        invariant forall i :: written <= i < dst.Length ==> dst[i] == old(dst[i])
        decreases |messages|, dst.Length - written
      {
        if frontOffset < FRAME_HEADER_LEN {
          HeaderRound(q0, dst.Length, dst[..written], Model());
          var take := ShipHeaderPart(dst, written);
          written := written + take;
          if written == dst.Length {
            break;
          }
        }
        BodyRound(q0, dst.Length, dst[..written], Model());
        var take := ShipBodyPart(dst, written);
        written := written + take;
      }
      ToGoAtEnd(q0, dst.Length, dst[..written], Model());
    }
  }

  lemma FrontWindow(q: Queue, n: nat)
    requires WellFormed(q) && q.messages != []
    ensures FrontBytes(q, n) == Wire(q.messages[0])[q.frontOffset..q.frontOffset + Min(n, FrontRemaining(q))]
  {
    hide EncodeHeader, Wire;
    assert Framed(q.messages[0]);
  }

  lemma HeaderPart(q: Queue, n: nat)
    requires WellFormed(q) && q.messages != [] && q.frontOffset + n <= FRAME_HEADER_LEN
    ensures FrontBytes(q, n) == q.messages[0].hdr[q.frontOffset..q.frontOffset + n]
  {
    hide EncodeHeader;
    assert Framed(q.messages[0]);
    WireWindow(q.messages[0], q.frontOffset, q.frontOffset + n);
  }

  lemma BodyPart(q: Queue, n: nat)
    requires WellFormed(q) && q.messages != [] && q.frontOffset >= FRAME_HEADER_LEN && n <= FrontRemaining(q)
    ensures var off := q.frontOffset - FRAME_HEADER_LEN; FrontBytes(q, n) == q.messages[0].body[off..off + n]
  {
    hide EncodeHeader;
    assert Framed(q.messages[0]);
    WireWindow(q.messages[0], q.frontOffset, q.frontOffset + n);
  }

  /** `out` has been copied, `q` remains: together they make up the drain of `q0` into `size` bytes. */
  predicate ToGo(q0: Queue, size: nat, out: seq<byte>, q: Queue)
    requires WellFormed(q0) && WellFormed(q)
  {
    && |out| <= size
    && Drained(q, size - |out|) == Drained(q0, size)
    && out + Take(Pending(q), size - |out|) == Take(Pending(q0), size)
  }

  lemma ToGoAtStart(q0: Queue, size: nat)
    requires WellFormed(q0)
    ensures ToGo(q0, size, [], q0)
  {
    hide WellFormed, Drained, Pending;
    assert [] + Take(Pending(q0), size) == Take(Pending(q0), size);
  }

  lemma ToGoAtEnd(q0: Queue, size: nat, out: seq<byte>, q: Queue)
    requires WellFormed(q0) && WellFormed(q) && ToGo(q0, size, out, q)
    requires |out| == size || q.messages == []
    ensures q == Drained(q0, size) && out == Take(Pending(q0), size)
  {
    hide WellFormed;
    assert Take(Pending(q), size - |out|) == [];
  }

  lemma ToGoStep(q0: Queue, size: nat, out: seq<byte>, q: Queue, part: seq<byte>, q1: Queue)
    requires WellFormed(q0) && WellFormed(q) && WellFormed(q1) && ToGo(q0, size, out, q)
    requires |out| + |part| <= size && Pending(q) == part + Pending(q1)
    requires Drained(q, size - |out|) == Drained(q1, size - |out| - |part|)
    ensures ToGo(q0, size, out + part, q1)
  {
    hide WellFormed, Drained, Pending;
    var room := size - |out|;
    TakeAcross(part, Pending(q1), room);
    assert out + (part + Take(Pending(q1), room - |part|)) == (out + part) + Take(Pending(q1), room - |part|);
  }

  lemma HeaderRound(q0: Queue, size: nat, out: seq<byte>, q: Queue)
    requires WellFormed(q0) && WellFormed(q) && ToGo(q0, size, out, q) && |out| < size
    requires q.messages != [] && q.frontOffset < FRAME_HEADER_LEN
    ensures var n := Min(FRAME_HEADER_LEN - q.frontOffset, size - |out|);
            && WellFormed(Advanced(q, n)) && |FrontBytes(q, n)| == n
            && ToGo(q0, size, out + FrontBytes(q, n), Advanced(q, n))
  {
    hide EncodeHeader, Wire, ToGo, Drained, Pending, FrontBytes;
    var n := Min(FRAME_HEADER_LEN - q.frontOffset, size - |out|);
    assert Framed(q.messages[0]);
    PendingAdvances(q, n);
    HeaderThenBody(q, n, size - |out|);
    ToGoStep(q0, size, out, q, FrontBytes(q, n), Advanced(q, n));
  }

  lemma PendingAdvances(q: Queue, n: nat)
    requires WellFormed(q) && q.messages != [] && q.frontOffset + n <= FRAME_HEADER_LEN
    requires WellFormed(Advanced(q, n))
    ensures |FrontBytes(q, n)| == n && Pending(q) == FrontBytes(q, n) + Pending(Advanced(q, n))
  {
    hide EncodeHeader, Wire, WireAll, FrontBytes;
    assert Framed(q.messages[0]);
    FrontWindow(q, n);
    CutOff(Wire(q.messages[0]), q.frontOffset, n, WireAll(q.messages[1..]));
  }

  /** Copying the header first and the payload next is one round of the drain. */
  lemma HeaderThenBody(q: Queue, n: nat, room: nat)
    requires WellFormed(q) && q.messages != [] && 0 < room
    requires q.frontOffset < FRAME_HEADER_LEN && n == Min(FRAME_HEADER_LEN - q.frontOffset, room)
    requires WellFormed(Advanced(q, n))
    ensures Drained(q, room) == Drained(Advanced(q, n), room - n)
  {
    hide EncodeHeader, Wire;
    assert Framed(q.messages[0]);
    if n < room {
      var m := Min(FrontRemaining(q), room);
      assert Advanced(Advanced(q, n), m - n) == Advanced(q, m);
    }
  }

  lemma BodyRound(q0: Queue, size: nat, out: seq<byte>, q: Queue)
    requires WellFormed(q0) && WellFormed(q) && ToGo(q0, size, out, q) && |out| < size
    requires q.messages != [] && q.frontOffset >= FRAME_HEADER_LEN
    ensures var n := Min(FrontRemaining(q), size - |out|);
            var q1 := Popped(Advanced(q, n));
            && WellFormed(q1) && |FrontBytes(q, n)| == n
            && ToGo(q0, size, out + FrontBytes(q, n), q1)
            && (|q1.messages| < |q.messages| || (|q1.messages| == |q.messages| && |out| + n == size))
  {
    hide EncodeHeader, Wire, ToGo;
    var n := Min(FrontRemaining(q), size - |out|);
    assert Framed(q.messages[0]);
    PendingSplits(q, n);
    ToGoStep(q0, size, out, q, FrontBytes(q, n), Popped(Advanced(q, n)));
  }
}
