/** What every run of the outbound queue keeps. */
module QueueProofs {
  import opened Bytes
  import opened Framing
  import opened QueueModel

  // ---- the byte invariant ----

  /** `ms` carries the messages of `survivors` from position `b` on. */
  predicate Carries(ms: seq<OutMsg>, survivors: seq<seq<byte>>, b: nat) {
    && |survivors| == b + |ms|
    && forall i :: 0 <= i < |ms| ==> ms[i].body == survivors[b + i]
  }

  /** The queued messages are the last survivors, untouched and in order. */
  predicate HoldsTail(t: Traced) {
    0 <= Base(t) && Carries(t.q.messages, t.survivors, Base(t))
  }

  /** The part of the head message that already left. */
  function FrontShipped(q: Queue): seq<byte>
    requires WellFormed(q)
  {
    if q.messages == [] then [] else Wire(q.messages[0])[..q.frontOffset]
  }

  ghost predicate BytesOk(t: Traced) {
    && WellFormed(t.q)
    && HoldsTail(t)
    && t.shipped == Frames(t.survivors[..Base(t)]) + FrontShipped(t.q)
  }

  lemma {:induction false} WireAllIsFrames(ms: seq<OutMsg>, bodies: seq<seq<byte>>)
    requires |ms| == |bodies|
    requires forall i :: 0 <= i < |ms| ==> Framed(ms[i]) && ms[i].body == bodies[i]
    ensures WireAll(ms) == Frames(bodies)
  {
    if ms != [] {
      assert Framed(ms[0]);
      WireAllIsFrames(ms[1..], bodies[1..]);
    }
  }

  /** Bytes shipped, then bytes still queued, are exactly the frames of the surviving messages. */
  lemma Conservation(t: Traced)
    requires BytesOk(t)
    ensures t.shipped + Pending(t.q) == Frames(t.survivors)
  {
    var ms, b := t.q.messages, Base(t);
    var gone, rest := t.survivors[..b], t.survivors[b..];
    assert t.survivors == gone + rest;
    FramesAppend(gone, rest);
    WireAllIsFrames(ms, rest);
    if ms != [] {
      assert Framed(ms[0]);
      Rejoin(Frames(gone), Wire(ms[0]), t.q.frontOffset, WireAll(ms[1..]));
    }
  }

  /** At capacity an accepted message replaces an unstarted one; otherwise at most one is added. */
  lemma EnqueueCounts(q: Queue, body: seq<byte>)
    requires Accepts(q, body)
    ensures AtCapacity(q) ==> DropIndex(q) < |q.messages| && UnstartedCount(q) == |q.messages| - DropIndex(q)
    ensures AtCapacity(q) ==> UnstartedCount(Enqueued(q, body)) == UnstartedCount(q)
    ensures !AtCapacity(q) ==> UnstartedCount(Enqueued(q, body)) <= UnstartedCount(q) + 1
  {
    hide EncodeHeader, Without;
  }

  /** What an accepted message leaves: the oldest unstarted message gone if the queue was full, itself last. */
  lemma EnqueueRecords(t: Traced, body: seq<byte>)
    requires 0 <= Base(t) && |t.kept| == |t.survivors| && Accepts(t.q, body)
    ensures AtCapacity(t.q) ==> DropIndex(t.q) < |t.q.messages|
    ensures AtCapacity(t.q) ==> Base(t) + DropIndex(t.q) == |t.survivors| - UnstartedCount(t.q) < |t.survivors|
    ensures var r, e, d := TEnqueue(t, body), Base(t) + DropIndex(t.q), DropIndex(t.q);
            var msg := OutMsg(EncodeHeader(false, |body|), body);
            && r.q == t.q.(messages := (if AtCapacity(t.q) then Without(t.q.messages, d) else t.q.messages) + [msg])
            && r.q == Enqueued(t.q, body) && r.shipped == t.shipped
            && r.accepted == t.accepted + [body]
            && r.survivors == (if AtCapacity(t.q) then Without(t.survivors, e) else t.survivors) + [body]
            && r.kept == (if AtCapacity(t.q) then Without(t.kept, e) else t.kept) + [|t.accepted|]
  {
    EnqueueCounts(t.q, body);
    hide EncodeHeader, Without;
  }

  /** An eviction removes one unstarted message; the head in flight and everything shipped stay. */
  lemma EnqueueKeepsBytes(t: Traced, body: seq<byte>)
    requires BytesOk(t) && |t.kept| == |t.survivors|
    ensures BytesOk(TEnqueue(t, body))
  {
    hide EncodeHeader, Without, WellFormed, Enqueued, Accepts, AtCapacity, UnstartedCount, DropIndex, Frames;
    if Accepts(t.q, body) {
      EnqueueRecords(t, body);
      EnqueueKeepsTail(t, body);
      EnqueueKeepsFront(t.q, body);
    }
  }

  lemma CarriesAppend(ms: seq<OutMsg>, survivors: seq<seq<byte>>, b: nat, msg: OutMsg)
    requires Carries(ms, survivors, b)
    ensures Carries(ms + [msg], survivors + [msg.body], b)
    ensures (survivors + [msg.body])[..b] == survivors[..b]
  {
  }

  lemma CarriesWithout(ms: seq<OutMsg>, survivors: seq<seq<byte>>, b: nat, e: nat)
    requires Carries(ms, survivors, b) && e < |ms|
    ensures Carries(Without(ms, e), Without(survivors, b + e), b)
    ensures Without(survivors, b + e)[..b] == survivors[..b]
  {
    hide Without;
  }

  lemma EnqueueKeepsTail(t: Traced, body: seq<byte>)
    requires WellFormed(t.q) && HoldsTail(t) && |t.kept| == |t.survivors|
    requires Accepts(t.q, body)
    ensures var t' := TEnqueue(t, body);
            && HoldsTail(t') && Base(t') == Base(t)
            && t'.survivors[..Base(t)] == t.survivors[..Base(t)]
  {
    hide EncodeHeader, Without, WellFormed, Accepts, AtCapacity, UnstartedCount, DropIndex, Carries, TEnqueue, Enqueued;
    EnqueueRecords(t, body);
    var t', msg := TEnqueue(t, body), OutMsg(EncodeHeader(false, |body|), body);
    var b, e := Base(t), DropIndex(t.q);
    if AtCapacity(t.q) {
      var ms, ss := Without(t.q.messages, e), Without(t.survivors, b + e);
      assert t'.q.messages == ms + [msg] && t'.survivors == ss + [body];
      CarriesWithout(t.q.messages, t.survivors, b, e);
      CarriesAppend(ms, ss, b, msg);
      assert t'.survivors[..b] == t.survivors[..b];
    } else {
      assert t'.q.messages == t.q.messages + [msg] && t'.survivors == t.survivors + [body];
      CarriesAppend(t.q.messages, t.survivors, b, msg);
    }
  }

  lemma EnqueueKeepsFront(q: Queue, body: seq<byte>)
    requires WellFormed(q) && Accepts(q, body)
    ensures WellFormed(Enqueued(q, body)) && FrontShipped(Enqueued(q, body)) == FrontShipped(q)
  {
    hide EncodeHeader, Without;
    var q' := Enqueued(q, body);
    forall i | 0 <= i < |q'.messages| ensures Framed(q'.messages[i]) {
      if i < |AfterEviction(q)| {
        assert q'.messages[i] == AfterEviction(q)[i];
      }
    }
  }

  /** Shipping the next `n` bytes of the head, and dropping the head once it is complete. */
  lemma AdvanceKeepsBytes(t: Traced, n: nat)
    requires BytesOk(t) && t.q.messages != [] && n <= FrontRemaining(t.q)
    ensures var q' := Popped(Advanced(t.q, n));
            BytesOk(t.(q := q', shipped := t.shipped + FrontBytes(t.q, n)))
  {
    hide Wire, EncodeHeader, Frames;
    AdvanceShips(t, n);
    if t.q.frontOffset + n == Len(t.q.messages[0]) {
      AdvanceCompletes(t, n);
    }
  }

  lemma AdvanceShips(t: Traced, n: nat)
    requires BytesOk(t) && t.q.messages != [] && n <= FrontRemaining(t.q)
    ensures t.shipped + FrontBytes(t.q, n) ==
            Frames(t.survivors[..Base(t)]) + Wire(t.q.messages[0])[..t.q.frontOffset + n]
  {
    hide Wire, EncodeHeader, Frames;
    assert Framed(t.q.messages[0]);
    MoveCut(Frames(t.survivors[..Base(t)]), Wire(t.q.messages[0]), t.q.frontOffset, n);
  }

  lemma AdvanceCompletes(t: Traced, n: nat)
    requires BytesOk(t) && t.q.messages != []
    requires t.q.frontOffset + n == Len(t.q.messages[0])
    ensures var q' := Popped(Advanced(t.q, n));
            BytesOk(t.(q := q', shipped := t.shipped + FrontBytes(t.q, n)))
  {
    hide Frame, Frames;
    AdvanceShips(t, n);
    PopKeepsTail(t.(q := Advanced(t.q, n)));
    WireIsFrame(t.q.messages[0]);
    assert Wire(t.q.messages[0])[..t.q.frontOffset + n] == Wire(t.q.messages[0]);
    FrameAppend1(t.survivors, Base(t));
  }

  lemma PopKeepsTail(t: Traced)
    requires HoldsTail(t) && t.q.messages != []
    requires forall i :: 0 <= i < |t.q.messages| ==> Framed(t.q.messages[i])
    requires t.q.frontOffset == Len(t.q.messages[0])
    ensures var t' := t.(q := Popped(t.q)); WellFormed(t'.q) && HoldsTail(t') && Base(t') == Base(t) + 1
  {
    hide EncodeHeader;
    var q', b := Popped(t.q), Base(t);
    assert forall i :: 0 <= i < |q'.messages| ==> q'.messages[i] == t.q.messages[i + 1];
    forall i | 0 <= i < |q'.messages| ensures q'.messages[i].body == t.survivors[b + 1 + i] {
      assert t.q.messages[i + 1].body == t.survivors[b + (i + 1)];
    }
  }

  lemma WireIsFrame(m: OutMsg)
    requires Framed(m)
    ensures |Wire(m)| == Len(m) && Wire(m) == Frame(m.body)
  {
  }

  lemma FrameAppend1(s: seq<seq<byte>>, b: nat)
    requires b < |s|
    ensures Frames(s[..b + 1]) == Frames(s[..b]) + Frame(s[b])
  {
    hide Frame;
    assert s[..b + 1] == s[..b] + [s[b]];
    FramesAppend(s[..b], [s[b]]);
    assert Frames([s[b]]) == Frame(s[b]) + Frames([]);
  }

  /** The copy loop hands out exactly the next `room` queued bytes. */
  lemma {:induction false} DrainKeepsBytes(t: Traced, room: nat)
    requires BytesOk(t)
    ensures BytesOk(TDrain(t, room))
    ensures Pending(Drained(t.q, room)) == Pending(t.q)[|Take(Pending(t.q), room)|..]
    decreases |t.q.messages|, room
  {
    hide EncodeHeader, Frames;
    if room == 0 || t.q.messages == [] {
      assert TDrain(t, room) == t;
    } else {
      if t.q.frontOffset + room <= FRAME_HEADER_LEN {
        DrainHeaderOnly(t, room);
      } else {
        DrainRound(t, room);
      }
    }
  }

  /** The round that ends inside the header, or exactly at its end. */
  lemma DrainHeaderOnly(t: Traced, room: nat)
    requires BytesOk(t) && t.q.messages != [] && t.q.frontOffset + room <= FRAME_HEADER_LEN && 0 < room
    requires Drained(t.q, room) == Advanced(t.q, room)
    ensures BytesOk(TDrain(t, room))
    ensures Pending(Drained(t.q, room)) == Pending(t.q)[|Take(Pending(t.q), room)|..]
  {
    hide EncodeHeader, Frames, Wire, Drained;
    var w, k := Wire(t.q.messages[0]), t.q.frontOffset;
    assert Framed(t.q.messages[0]);
    TakeWithin(w[k..], WireAll(t.q.messages[1..]), room);
    AdvanceShips(t, room);
    assert w[k..][room..] == w[k + room..];
  }

  /** A round that reaches past the header; the loop goes on with what room is left. */
  lemma {:induction false} DrainRound(t: Traced, room: nat)
    requires BytesOk(t) && t.q.messages != [] && 0 < room
    requires t.q.frontOffset + room > FRAME_HEADER_LEN
    ensures BytesOk(TDrain(t, room))
    ensures Pending(Drained(t.q, room)) == Pending(t.q)[|Take(Pending(t.q), room)|..]
    decreases |t.q.messages|, room, 0
  {
    hide EncodeHeader, Frames, Wire, Drained;
    var n := Min(FrontRemaining(t.q), room);
    var q1 := Popped(Advanced(t.q, n));
    DrainUnfolds(t.q, room);
    AdvanceKeepsBytes(t, n);
    var t1 := t.(q := q1, shipped := t.shipped + FrontBytes(t.q, n));
    DrainKeepsBytes(t1, room - n);
    PendingSplits(t.q, n);
    RoundMeets(t, t1, room, n);
  }

  lemma DrainUnfolds(q: Queue, room: nat)
    requires WellFormed(q) && q.messages != [] && 0 < room && q.frontOffset + room > FRAME_HEADER_LEN
    ensures var n := Min(FrontRemaining(q), room);
            var q1 := Popped(Advanced(q, n));
            && WellFormed(q1)
            && (|q1.messages| < |q.messages| || (|q1.messages| == |q.messages| && n == room))
            && Drained(q, room) == Drained(q1, room - n)
  {
    hide EncodeHeader, Wire;
    assert Framed(q.messages[0]);
  }

  lemma RoundMeets(t: Traced, t1: Traced, room: nat, n: nat)
    requires WellFormed(t.q) && WellFormed(t1.q) && n <= room
    requires t1 == t.(q := t1.q, shipped := t.shipped + FrontBytes(t.q, n))
    requires |FrontBytes(t.q, n)| == n && Pending(t.q) == FrontBytes(t.q, n) + Pending(t1.q)
    requires Drained(t.q, room) == Drained(t1.q, room - n)
    ensures TDrain(t, room) == TDrain(t1, room - n)
    ensures Pending(t.q)[|Take(Pending(t.q), room)|..] == Pending(t1.q)[|Take(Pending(t1.q), room - n)|..]
  {
    hide WellFormed, Pending, Drained, FrontBytes;
    TakeAcross(FrontBytes(t.q, n), Pending(t1.q), room);
  }

  lemma PendingSplits(q: Queue, n: nat)
    requires WellFormed(q) && q.messages != [] && n <= FrontRemaining(q)
    requires WellFormed(Popped(Advanced(q, n)))
    ensures |FrontBytes(q, n)| == n
    ensures Pending(q) == FrontBytes(q, n) + Pending(Popped(Advanced(q, n)))
  {
    hide EncodeHeader, Wire;
    var w, k, ms := Wire(q.messages[0]), q.frontOffset, q.messages;
    assert Framed(ms[0]);
    CutOff(w, k, n, WireAll(ms[1..]));
    if k + n == Len(ms[0]) {
      assert w[k + n..] + WireAll(ms[1..]) == WireAll(ms[1..]);
      if |ms| > 1 {
        assert Wire(ms[1])[0..] == Wire(ms[1]);
      }
    }
  }

  lemma ConsumeKeepsBytes(t: Traced, n: nat)
    requires BytesOk(t)
    ensures BytesOk(TConsume(t, n))
  {
    hide EncodeHeader, Frames, Wire;
    if t.q.messages != [] {
      var m := Min(n, FrontRemaining(t.q));
      AdvanceKeepsBytes(t, m);
      assert Framed(t.q.messages[0]);
      assert FrontBytes(t.q, n) == FrontBytes(t.q, m);
    }
  }

  // ---- which messages survive ----

  /** The survivors are a subsequence of the accepted messages, picked out by `kept`. */
  predicate Picks(accepted: seq<seq<byte>>, survivors: seq<seq<byte>>, kept: seq<int>) {
    && |kept| == |survivors|
    && (forall i :: 0 <= i < |accepted| ==> |accepted[i]| <= U32_MAX)
    && (forall i :: 0 <= i < |kept| ==> 0 <= kept[i] < |accepted| && survivors[i] == accepted[kept[i]])
    && (forall i, j :: 0 <= i < j < |kept| ==> kept[i] < kept[j])
  }

  /** The last `k` survivors are the last `k` of `total` accepted messages. */
  predicate Newest(total: nat, kept: seq<int>, k: nat) {
    && k <= |kept| && k <= total
    && forall i :: |kept| - k <= i < |kept| ==> kept[i] == total - |kept| + i
  }

  ghost predicate QueueOk(t: Traced) {
    && BytesOk(t)
    && Picks(t.accepted, t.survivors, t.kept)
    && Newest(|t.accepted|, t.kept, UnstartedCount(t.q))
  }

  predicate WithinCapacity(q: Queue) {
    q.backpressure.Bounded? ==> UnstartedCount(q) <= q.backpressure.capacity
  }

  lemma PicksAppend(accepted: seq<seq<byte>>, survivors: seq<seq<byte>>, kept: seq<int>, body: seq<byte>)
    requires Picks(accepted, survivors, kept) && |body| <= U32_MAX
    ensures Picks(accepted + [body], survivors + [body], kept + [|accepted|])
  {
  }

  lemma NewestAppend(total: nat, kept: seq<int>, k: nat)
    requires Newest(total, kept, k)
    ensures Newest(total + 1, kept + [total], k + 1)
  {
  }

  lemma PicksWithout(accepted: seq<seq<byte>>, survivors: seq<seq<byte>>, kept: seq<int>, e: nat)
    requires Picks(accepted, survivors, kept) && e < |kept|
    ensures Picks(accepted, Without(survivors, e), Without(kept, e))
  {
    hide Without;
  }

  /** Evicting the oldest unstarted message leaves the newest `k - 1`. */
  lemma NewestWithout(total: nat, kept: seq<int>, k: nat)
    requires Newest(total, kept, k) && 0 < k
    ensures Newest(total, Without(kept, |kept| - k), k - 1)
  {
    hide Without;
  }

  /** What holds of the bytes whatever operations are issued. */
  ghost predicate HistoryOk(t: Traced) {
    BytesOk(t) && Picks(t.accepted, t.survivors, t.kept)
  }

  lemma AcceptedFits(q: Queue, body: seq<byte>)
    requires Accepts(q, body)
    ensures |body| <= U32_MAX
  {
  }

  lemma EnqueueKeepsPicks(t: Traced, body: seq<byte>)
    requires HistoryOk(t) && Accepts(t.q, body)
    ensures var t' := TEnqueue(t, body); Picks(t'.accepted, t'.survivors, t'.kept)
  {
    hide EncodeHeader, Without, Picks, UnstartedCount, Accepts, AtCapacity, Enqueued, TEnqueue, DropIndex, Frames, WellFormed;
    var t', s, p := TEnqueue(t, body), t.survivors, t.kept;
    PicksSizes(t.accepted, s, p);
    EnqueueRecords(t, body);
    assert |body| <= U32_MAX by { AcceptedFits(t.q, body); }
    if AtCapacity(t.q) {
      var e := Base(t) + DropIndex(t.q);
      var s', p' := Without(s, e), Without(p, e);
      assert t'.survivors == s' + [body] && t'.kept == p' + [|t.accepted|];
      PicksWithout(t.accepted, s, p, e);
      PicksAppend(t.accepted, s', p', body);
    } else {
      assert t'.survivors == s + [body] && t'.kept == p + [|t.accepted|];
      PicksAppend(t.accepted, s, p, body);
    }
  }

  lemma EnqueueKeepsOk(t: Traced, body: seq<byte>)
    requires QueueOk(t)
    ensures QueueOk(TEnqueue(t, body))
    ensures WithinCapacity(t.q) ==> WithinCapacity(TEnqueue(t, body).q)
  {
    EnqueueKeepsBytes(t, body);
    if Accepts(t.q, body) {
      hide BytesOk, EncodeHeader, Without, Picks, Newest, Frames, WellFormed;
      EnqueueCounts(t.q, body);
      EnqueueKeepsPicks(t, body);
      EnqueueKeepsNewest(t, body);
    }
  }

  lemma EnqueueKeepsNewest(t: Traced, body: seq<byte>)
    requires QueueOk(t) && Accepts(t.q, body)
    ensures var t' := TEnqueue(t, body); Newest(|t'.accepted|, t'.kept, UnstartedCount(t'.q))
  {
    EnqueueCounts(t.q, body);
    hide EncodeHeader, Without, Picks, Newest, UnstartedCount, Accepts, AtCapacity, Enqueued, TEnqueue, DropIndex, Frames, WellFormed;
    var t', p, k, n := TEnqueue(t, body), t.kept, UnstartedCount(t.q), |t.accepted|;
    PicksSizes(t.accepted, t.survivors, p);
    EnqueueRecords(t, body);
    if AtCapacity(t.q) {
      var p' := Without(p, |p| - k);
      assert t'.kept == p' + [n];
      NewestWithout(n, p, k);
      NewestAppend(n, p', k - 1);
    } else {
      assert t'.kept == p + [n];
      NewestAppend(n, p, k);
      NewestFewer(n + 1, p + [n], k + 1, UnstartedCount(Enqueued(t.q, body)));
    }
  }

  lemma PicksSizes(accepted: seq<seq<byte>>, survivors: seq<seq<byte>>, kept: seq<int>)
    requires Picks(accepted, survivors, kept)
    ensures |kept| == |survivors|
  {
  }

  lemma NewestFewer(total: nat, kept: seq<int>, k: nat, fewer: nat)
    requires Newest(total, kept, k) && fewer <= k
    ensures Newest(total, kept, fewer)
  {
  }

  /** The copy loop never turns a started message back into an unstarted one. */
  lemma {:induction false} DrainNeverUnstarts(q: Queue, room: nat)
    requires WellFormed(q)
    ensures UnstartedCount(Drained(q, room)) <= UnstartedCount(q)
    ensures Drained(q, room).backpressure == q.backpressure
    decreases |q.messages|, room
  {
    hide EncodeHeader, Wire;
    if 0 < room && q.messages != [] && q.frontOffset + room > FRAME_HEADER_LEN {
      DrainUnfolds(q, room);
      var n := Min(FrontRemaining(q), room);
      DrainNeverUnstarts(Popped(Advanced(q, n)), room - n);
    }
  }

  /** A consumed promise un-starts the head exactly when it carried no bytes of an untouched head. */
  lemma ConsumeUnstartsIff(q: Queue, n: nat)
    requires WellFormed(q)
    ensures UnstartedCount(Consumed(q, n)) > UnstartedCount(q) <==>
            n == 0 && q.frontCommitted && q.frontOffset == 0 && q.messages != []
  {
    hide EncodeHeader, Wire;
  }

  // ---- every step, every run ----

  lemma StepKeepsHistory(t: Traced, op: QueueOp)
    requires HistoryOk(t)
    ensures HistoryOk(Step(t, op))
  {
    hide EncodeHeader, Frames, Wire, Drained;
    match op {
      case Enqueue(body) =>
        EnqueueKeepsBytes(t, body);
        if Accepts(t.q, body) { EnqueueKeepsPicks(t, body); }
      case Drain(room) => DrainKeepsBytes(t, room);
      case Promise(max) =>
      case Consume(n) => ConsumeKeepsBytes(t, n);
      case SetPolicy(bp) =>
    }
  }

  /** Operations as the read and send callbacks issue them: a consumed promise is never empty. */
  predicate Proper(op: QueueOp) {
    op.Consume? ==> op.length > 0
  }

  lemma StepKeepsOk(t: Traced, op: QueueOp)
    requires QueueOk(t) && Proper(op)
    ensures QueueOk(Step(t, op))
    ensures !op.Enqueue? ==> UnstartedCount(Step(t, op).q) <= UnstartedCount(t.q)
    ensures !op.SetPolicy? && WithinCapacity(t.q) ==> WithinCapacity(Step(t, op).q)
    ensures !op.SetPolicy? ==> Step(t, op).q.backpressure == t.q.backpressure
  {
    hide EncodeHeader, Frames, Wire, Drained, Picks, Newest;
    StepKeepsHistory(t, op);
    match op {
      case Enqueue(body) => EnqueueKeepsOk(t, body);
      case Drain(room) => DrainNeverUnstarts(t.q, room);
      case Promise(max) =>
      case Consume(n) => ConsumeUnstartsIff(t.q, n);
      case SetPolicy(bp) =>
    }
    if !op.Enqueue? {
      NewestFewer(|t.accepted|, t.kept, UnstartedCount(t.q), UnstartedCount(Step(t, op).q));
    }
  }

  /**
   * Over every run: what left, then what is queued, are the frames of the accepted messages that
   * were not evicted, in the order they were accepted.
   */
  lemma {:induction false} EveryRunConserves(t: Traced, ops: seq<QueueOp>)
    requires HistoryOk(t)
    ensures var r := Run(t, ops);
            && HistoryOk(r)
            && r.shipped + Pending(r.q) == Frames(r.survivors)
    decreases |ops|
  {
    hide EncodeHeader, Frames, Wire, Drained, Picks, Step;
    if ops == [] {
      Conservation(t);
    } else {
      StepKeepsHistory(t, ops[0]);
      EveryRunConserves(Step(t, ops[0]), ops[1..]);
    }
  }

  lemma FreshOk()
    ensures QueueOk(FRESH) && HistoryOk(FRESH)
  {
    hide EncodeHeader, Frame, Wire;
    assert FRESH.survivors[..Base(FRESH)] == [];
    assert Frames([]) == [];
  }

  /** Over every proper run the unstarted messages are the newest accepted ones. */
  lemma {:induction false} EveryRunKeepsNewest(t: Traced, ops: seq<QueueOp>)
    requires QueueOk(t) && forall i :: 0 <= i < |ops| ==> Proper(ops[i])
    ensures QueueOk(Run(t, ops))
    decreases |ops|
  {
    hide EncodeHeader, Frames, Wire, Drained, Picks, Newest, Step;
    if ops != [] {
      StepKeepsOk(t, ops[0]);
      EveryRunKeepsNewest(Step(t, ops[0]), ops[1..]);
    }
  }

  /** A bound installed while the queue meets it is met from then on, at one message more in all. */
  lemma {:induction false} CapacityHolds(t: Traced, ops: seq<QueueOp>)
    requires QueueOk(t) && WithinCapacity(t.q) && t.q.backpressure.Bounded?
    requires forall i :: 0 <= i < |ops| ==> Proper(ops[i]) && !ops[i].SetPolicy?
    ensures var q := Run(t, ops).q;
            && q.backpressure == t.q.backpressure
            && UnstartedCount(q) <= q.backpressure.capacity
            && |q.messages| <= q.backpressure.capacity + 1
    decreases |ops|
  {
    hide EncodeHeader, Frames, Wire, Drained, Picks, Newest, Step;
    if ops != [] {
      StepKeepsOk(t, ops[0]);
      CapacityHolds(Step(t, ops[0]), ops[1..]);
    }
  }

  // ---- a policy installed over a longer queue ----

  /** What may follow the installation of a policy without replacing it. */
  predicate UnderPolicy(ops: seq<QueueOp>) {
    forall i :: 0 <= i < |ops| ==> Proper(ops[i]) && !ops[i].SetPolicy?
  }

  /** The count never passes the larger of the capacity and what it was at the installation. */
  lemma {:induction false} CountStaysBelow(t: Traced, ops: seq<QueueOp>, most: nat)
    requires QueueOk(t) && t.q.backpressure.Bounded? && UnderPolicy(ops)
    requires UnstartedCount(t.q) <= most && t.q.backpressure.capacity <= most
    ensures UnstartedCount(Run(t, ops).q) <= most && Run(t, ops).q.backpressure == t.q.backpressure
    decreases |ops|
  {
    hide EncodeHeader, Frames, Wire, Drained, Picks, Newest, Step, UnstartedCount;
    if ops != [] {
      assert Proper(ops[0]) && !ops[0].SetPolicy?;
      StepKeepsOk(t, ops[0]);
      if ops[0].Enqueue? { EnqueueStaysBelow(t, ops[0].body, most); }
      CountStaysBelow(Step(t, ops[0]), ops[1..], most);
    }
  }

  lemma EnqueueStaysBelow(t: Traced, body: seq<byte>, most: nat)
    requires WellFormed(t.q) && t.q.backpressure.Bounded?
    requires UnstartedCount(t.q) <= most && t.q.backpressure.capacity <= most
    ensures UnstartedCount(Step(t, Enqueue(body)).q) <= most
  {
    hide EncodeHeader, Without, Enqueued, UnstartedCount;
    if Accepts(t.q, body) { EnqueueCounts(t.q, body); }
  }

  /** Enqueueing alone never brings a queue that is over its bound back under it. */
  lemma {:induction false} NeverTrimmed(t: Traced, ops: seq<QueueOp>)
    requires WellFormed(t.q) && AtCapacity(t.q) && forall i :: 0 <= i < |ops| ==> ops[i].Enqueue?
    ensures UnstartedCount(Run(t, ops).q) == UnstartedCount(t.q)
    decreases |ops|
  {
    hide EncodeHeader, Without, Enqueued, UnstartedCount;
    if ops != [] {
      if Accepts(t.q, ops[0].body) {
        EnqueueCounts(t.q, ops[0].body);
        EnqueueKeepsPolicy(t.q, ops[0].body);
      }
      NeverTrimmed(Step(t, ops[0]), ops[1..]);
    }
  }

  lemma EnqueueKeepsPolicy(q: Queue, body: seq<byte>)
    ensures Enqueued(q, body).backpressure == q.backpressure
  {
  }

  /**
   * Installing a policy trims nothing. Its bound holds in every later state exactly if the queue
   * was within it at the installation; over `k` messages the count stays within the larger of `k`
   * and the capacity.
   */
  lemma PolicyBoundIff(t: Traced, capacity: Capacity, policy: OverflowPolicy)
    requires QueueOk(t)
    ensures var bounded := Step(t, SetPolicy(Bounded(capacity, policy)));
            && ((forall ops | UnderPolicy(ops) :: UnstartedCount(Run(bounded, ops).q) <= capacity)
                <==> UnstartedCount(t.q) <= capacity)
            && forall ops | UnderPolicy(ops) ::
                 UnstartedCount(Run(bounded, ops).q) <=
                 if UnstartedCount(t.q) <= capacity then capacity else UnstartedCount(t.q)
  {
    var bounded := Step(t, SetPolicy(Bounded(capacity, policy)));
    StepKeepsOk(t, SetPolicy(Bounded(capacity, policy)));
    assert UnstartedCount(bounded.q) == UnstartedCount(t.q);
    assert Run(bounded, []) == bounded && UnderPolicy([]);
    hide QueueOk, UnstartedCount, Step, Run;
    var most := if UnstartedCount(t.q) <= capacity then capacity else UnstartedCount(t.q);
    forall ops | UnderPolicy(ops) ensures UnstartedCount(Run(bounded, ops).q) <= most {
      CountStaysBelow(bounded, ops, most);
    }
  }

  /** A queue of three, bounded to one: the next message drops one and joins, and three remain. */
  lemma BoundCanBeExceeded(m: seq<byte>)
    requires |m| <= U32_MAX
    ensures var q := Run(FRESH, [Enqueue(m), Enqueue(m), Enqueue(m), SetPolicy(Bounded(1, DropOldest)), Enqueue(m)]).q;
            q.backpressure == Bounded(1, DropOldest) && UnstartedCount(q) == 3
  {
    hide EncodeHeader;
    var add, bound := Enqueue(m), SetPolicy(Bounded(1, DropOldest));
    var t1 := Step(FRESH, add);
    var t2 := Step(t1, add);
    var t3 := Step(t2, add);
    var t4 := Step(t3, bound);
    assert |t3.q.messages| == 3 && UnstartedCount(t4.q) == 3;
    var ops := [add, add, add, bound, add];
    assert ops[1..] == [add, add, bound, add] && [add, add, bound, add][1..] == [add, bound, add];
    assert [add, bound, add][1..] == [bound, add] && [bound, add][1..] == [add];
    assert Run(FRESH, ops) == Run(t1, [add, add, bound, add]) == Run(t2, [add, bound, add]) == Run(t3, [bound, add]);
    assert Run(t3, [bound, add]) == Run(t4, [add]);
    NeverTrimmed(t4, [add]);
    EnqueueKeepsPolicy(t4.q, m);
    assert [add][1..] == [] && Run(t4, [add]) == Run(Step(t4, add), []);
  }

  predicate NeverDrops(bp: Backpressure) {
    bp.Bounded? ==> bp.policy == Reject
  }

  /** Without DropOldest every accepted message survives. */
  lemma {:induction false} RejectLosesNothing(t: Traced, ops: seq<QueueOp>)
    requires WellFormed(t.q) && t.survivors == t.accepted && NeverDrops(t.q.backpressure)
    requires forall i :: 0 <= i < |ops| && ops[i].SetPolicy? ==> NeverDrops(ops[i].backpressure)
    ensures Run(t, ops).survivors == Run(t, ops).accepted
    decreases |ops|
  {
    hide EncodeHeader, Wire, Drained, Pending;
    if ops != [] {
      if ops[0].Drain? { DrainNeverUnstarts(t.q, ops[0].room); }
      RejectLosesNothing(Step(t, ops[0]), ops[1..]);
    }
  }

  // ---- the zero-copy path ----

  predicate BetweenPromiseAndSend(op: QueueOp) {
    op.Enqueue? || op.SetPolicy? || op.Promise?
  }

  /** Whatever is enqueued or evicted in between, the promised bytes stay what they were. */
  lemma {:induction false} PromiseIsPinned(t: Traced, ops: seq<QueueOp>, n: nat)
    requires HistoryOk(t) && t.q.frontCommitted && t.q.messages != [] && n <= FrontRemaining(t.q)
    requires forall i :: 0 <= i < |ops| ==> BetweenPromiseAndSend(ops[i])
    ensures var q := Run(t, ops).q;
            q.frontCommitted && q.messages != [] && |FrontBytes(q, n)| == n && FrontBytes(q, n) == FrontBytes(t.q, n)
    decreases |ops|
  {
    hide EncodeHeader, Frames, Wire, Picks;
    assert Framed(t.q.messages[0]);
    if ops != [] {
      StepKeepsHistory(t, ops[0]);
      PinnedStep(t.q, ops[0], t);
      PromiseIsPinned(Step(t, ops[0]), ops[1..], n);
    }
  }

  lemma PinnedStep(q: Queue, op: QueueOp, t: Traced)
    requires t.q == q && WellFormed(q) && q.frontCommitted && q.messages != [] && BetweenPromiseAndSend(op)
    ensures var q' := Step(t, op).q;
            q'.frontCommitted && q'.messages != [] && q'.messages[0] == q.messages[0] && q'.frontOffset == q.frontOffset
  {
    hide EncodeHeader, Wire, Without;
  }
}
