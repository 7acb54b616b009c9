/** What gets into the queue, what it pushes out, and what "unstarted" means on the wire. */
module QueueAdmission {
  import opened Bytes
  import opened Framing
  import opened QueueModel
  import opened QueueProofs

  predicate Rejects(bp: Backpressure) {
    bp.Bounded? && bp.policy == Reject
  }

  /** The messages among the enqueues whose length fits the frame header, in order. */
  function Offered(ops: seq<QueueOp>): seq<seq<byte>> {
    if ops == [] then []
    else (if ops[0].Enqueue? && |ops[0].body| <= 0xFFFF_FFFF then [ops[0].body] else []) + Offered(ops[1..])
  }

  /**
   * An enqueue is refused, and then changes nothing, exactly for a message too long for its header
   * or a rejecting queue with `capacity` unstarted messages. An accepted message goes last; a
   * dropping queue with `capacity` unstarted messages loses the oldest of those, no other loses any.
   */
  lemma EnqueueOutcome(t: Traced, body: seq<byte>)
    requires QueueOk(t)
    ensures var r, bp, u := Step(t, Enqueue(body)), t.q.backpressure, UnstartedCount(t.q);
            var refused := |body| > 0xFFFF_FFFF || (Rejects(bp) && u >= bp.capacity);
            var full := bp.Bounded? && u >= bp.capacity;
            && u <= |t.survivors|
            && (refused ==> r == t)
            && (!refused ==> r.accepted == t.accepted + [body] && r.shipped == t.shipped)
            && (!refused && !full ==> r.survivors == t.survivors + [body])
            && (!refused && full ==>
                  u > 0 && r.survivors == Without(t.survivors, |t.survivors| - u) + [body])
  {
    hide EncodeHeader, Without, BytesOk, Newest, Enqueued;
    UnstartedSurvive(t);
    if Accepts(t.q, body) {
      EnqueueRecords(t, body);
    }
  }

  lemma UnstartedSurvive(t: Traced)
    requires QueueOk(t)
    ensures 0 <= Base(t) && UnstartedCount(t.q) <= |t.q.messages| <= |t.survivors| == |t.kept|
  {
  }

  /** Over every run, a queue that never rejects accepts every message that fits, in order. */
  lemma {:induction false} OnlyRejectRefuses(t: Traced, ops: seq<QueueOp>)
    requires WellFormed(t.q) && !Rejects(t.q.backpressure)
    requires forall i :: 0 <= i < |ops| && ops[i].SetPolicy? ==> !Rejects(ops[i].backpressure)
    ensures Run(t, ops).accepted == t.accepted + Offered(ops)
    decreases |ops|
  {
    hide Step, WellFormed, Rejects;
    if ops == [] {
      assert t.accepted + [] == t.accepted;
    } else {
      StepTakesOffer(t, ops[0]);
      var t', first := Step(t, ops[0]), if ops[0].Enqueue? && |ops[0].body| <= 0xFFFF_FFFF then [ops[0].body] else [];
      assert forall i :: 0 <= i < |ops[1..]| ==> ops[1..][i] == ops[i + 1];
      OnlyRejectRefuses(t', ops[1..]);
      assert Run(t, ops) == Run(t', ops[1..]);
      assert t.accepted + (first + Offered(ops[1..])) == (t.accepted + first) + Offered(ops[1..]);
    }
  }

  lemma StepTakesOffer(t: Traced, op: QueueOp)
    requires WellFormed(t.q) && !Rejects(t.q.backpressure) && (op.SetPolicy? ==> !Rejects(op.backpressure))
    ensures var r := Step(t, op);
            && !Rejects(r.q.backpressure)
            && r.accepted == t.accepted + if op.Enqueue? && |op.body| <= 0xFFFF_FFFF then [op.body] else []
  {
    hide EncodeHeader, Pending, Without, AfterEviction;
    if op.Drain? { DrainNeverUnstarts(t.q, op.room); }
  }

  /**
   * The unstarted messages are the survivors no byte of which has been shipped, not counting a head
   * that is promised in place: the bytes shipped end before them and, unless the head is promised,
   * not before the one ahead of them has begun.
   */
  lemma UnstartedMeans(t: Traced)
    requires BytesOk(t)
    ensures var n := |t.survivors| - UnstartedCount(t.q);
            && 0 <= n && |t.shipped| <= |Frames(t.survivors[..n])|
            && (n > 0 && !(t.q.frontCommitted && t.q.messages != []) ==> |t.shipped| > |Frames(t.survivors[..n - 1])|)
  {
    hide EncodeHeader, Wire;
    var b := Base(t);
    if t.q.messages != [] {
      assert Framed(t.q.messages[0]);
      WireIsFrame(t.q.messages[0]);
      FrameAppend1(t.survivors, b);
    }
    if b > 0 {
      FrameAppend1(t.survivors, b - 1);
    }
    hide Frames;
  }
}
