/** The zero-copy path against the copy path, over whole runs. */
module QueuePaths {
  import opened Bytes
  import opened Framing
  import opened QueueModel
  import opened QueueProofs

  /** What the application does to a queue; the I/O layer ships. */
  predicate ByApplication(op: QueueOp) {
    op.Enqueue? || op.SetPolicy?
  }

  predicate AllByApplication(ops: seq<QueueOp>) {
    forall i :: 0 <= i < |ops| ==> ByApplication(ops[i])
  }

  /** The messages no byte of which has been taken or promised: those an eviction chooses from. */
  function Unstarted(q: Queue): (ms: seq<OutMsg>)
    ensures |ms| == UnstartedCount(q)
  {
    if FrontStarted(q) && |q.messages| > 0 then q.messages[1..] else q.messages
  }

  /** Same messages accepted, surviving and still to start; how the head is accounted may differ. */
  predicate Alike(c: Traced, d: Traced) {
    && c.accepted == d.accepted && c.survivors == d.survivors && c.kept == d.kept
    && c.q.backpressure == d.q.backpressure && Unstarted(c.q) == Unstarted(d.q)
  }

  /** A committed head exists. */
  predicate HeadOk(q: Queue) {
    q.messages == [] ==> !q.frontCommitted
  }

  // ---- what the application does keeps two queues alike ----

  lemma UnstartedEnqueued(q: Queue, body: seq<byte>)
    requires WellFormed(q) && HeadOk(q) && Accepts(q, body)
    ensures Unstarted(Enqueued(q, body)) ==
            (if AtCapacity(q) then Unstarted(q)[1..] else Unstarted(q)) + [OutMsg(EncodeHeader(false, |body|), body)]
  {
    EnqueueCounts(q, body);
    hide EncodeHeader, WellFormed, Without;
    var msg := OutMsg(EncodeHeader(false, |body|), body);
    var ms := AfterEviction(q);
    assert Enqueued(q, body) == q.(messages := ms + [msg]);
    if AtCapacity(q) {
      WithoutTail(q.messages, DropIndex(q));
    }
    if FrontStarted(q) {
      assert (ms + [msg])[1..] == ms[1..] + [msg];
    }
  }

  lemma WithoutTail<T>(s: seq<T>, i: nat)
    requires i < |s|
    ensures i == 0 ==> Without(s, i) == s[1..]
    ensures i == 1 ==> Without(s, i)[1..] == s[1..][1..] && Without(s, i) != []
  {
  }

  /** Which message goes depends only on how many are unstarted. */
  lemma EvictedIndex(t: Traced, body: seq<byte>)
    requires 0 <= Base(t) && |t.kept| == |t.survivors| && Accepts(t.q, body)
    ensures var r, e := TEnqueue(t, body), |t.survivors| - UnstartedCount(t.q);
            && (AtCapacity(t.q) ==> 0 <= e < |t.survivors|)
            && r.accepted == t.accepted + [body] && r.q == Enqueued(t.q, body) && r.q.backpressure == t.q.backpressure
            && r.survivors == (if AtCapacity(t.q) then Without(t.survivors, e) else t.survivors) + [body]
            && r.kept == (if AtCapacity(t.q) then Without(t.kept, e) else t.kept) + [|t.accepted|]
  {
    hide EncodeHeader, Without, Accepts, AtCapacity, UnstartedCount, DropIndex, TEnqueue, Enqueued;
    EnqueueRecords(t, body);
  }

  lemma RefusedIsQuiet(t: Traced, body: seq<byte>)
    requires !Accepts(t.q, body)
    ensures TEnqueue(t, body) == t
  {
  }

  lemma EnqueueAlike(c: Traced, d: Traced, body: seq<byte>)
    requires HistoryOk(c) && HistoryOk(d) && HeadOk(c.q) && HeadOk(d.q) && Alike(c, d)
    ensures Alike(TEnqueue(c, body), TEnqueue(d, body))
  {
    hide TEnqueue, Enqueued, Unstarted, HistoryOk, EncodeHeader, Without, UnstartedCount, WellFormed, Base;
    HistoryParts(c);
    HistoryParts(d);
    assert UnstartedCount(c.q) == |Unstarted(d.q)| == UnstartedCount(d.q);
    assert AtCapacity(c.q) <==> AtCapacity(d.q);
    assert Accepts(c.q, body) <==> Accepts(d.q, body);
    if !Accepts(c.q, body) {
      RefusedIsQuiet(c, body);
      RefusedIsQuiet(d, body);
    } else {
      EvictedIndex(c, body);
      EvictedIndex(d, body);
      UnstartedEnqueued(c.q, body);
      UnstartedEnqueued(d.q, body);
    }
  }

  lemma {:induction false} RunAlike(c: Traced, d: Traced, ops: seq<QueueOp>)
    requires HistoryOk(c) && HistoryOk(d) && HeadOk(c.q) && HeadOk(d.q) && Alike(c, d) && AllByApplication(ops)
    ensures var c', d' := Run(c, ops), Run(d, ops);
            && Alike(c', d') && HistoryOk(c') && HistoryOk(d')
            && c'.shipped == c.shipped && d'.shipped == d.shipped
            && c'.q.frontCommitted == c.q.frontCommitted && d'.q.frontCommitted == d.q.frontCommitted
    decreases |ops|
  {
    if ops != [] {
      hide EncodeHeader, Wire, HistoryOk, Without, Drained, Unstarted;
      assert ByApplication(ops[0]);
      StepKeepsHistory(c, ops[0]);
      StepKeepsHistory(d, ops[0]);
      StepAlike(c, d, ops[0]);
      RunAlike(Step(c, ops[0]), Step(d, ops[0]), ops[1..]);
    }
  }

  lemma StepAlike(c: Traced, d: Traced, op: QueueOp)
    requires HistoryOk(c) && HistoryOk(d) && HeadOk(c.q) && HeadOk(d.q) && Alike(c, d) && ByApplication(op)
    ensures var c', d' := Step(c, op), Step(d, op);
            && Alike(c', d') && HeadOk(c'.q) && HeadOk(d'.q) && c'.shipped == c.shipped && d'.shipped == d.shipped
            && c'.q.frontCommitted == c.q.frontCommitted && d'.q.frontCommitted == d.q.frontCommitted
  {
    if op.Enqueue? {
      EnqueueAlike(c, d, op.body);
    }
    hide EncodeHeader, Wire, Without, Frames, Alike;
    if op.SetPolicy? {
      PolicyAlike(c, d, op.backpressure);
    }
  }

  lemma PolicyAlike(c: Traced, d: Traced, bp: Backpressure)
    requires Alike(c, d)
    ensures Alike(c.(q := c.q.(backpressure := bp)), d.(q := d.q.(backpressure := bp)))
  {
  }

  // ---- what a drain starts ----

  /** Bytes still to come of a message already started. */
  function Rest(q: Queue): nat
    requires WellFormed(q)
  {
    if FrontStarted(q) then FrontRemaining(q) else 0
  }

  /** The messages a copy of `room` more bytes leaves unstarted. */
  function LeftUnstarted(ms: seq<OutMsg>, room: nat): seq<OutMsg>
    decreases |ms|
  {
    if room == 0 || ms == [] then ms else LeftUnstarted(ms[1..], room - Min(room, Len(ms[0])))
  }

  /** Shipping `n` bytes of the head, up to its end, starts it and nothing else. */
  lemma AdvanceStarts(q: Queue, n: nat, room: nat)
    requires WellFormed(q) && !q.frontCommitted && q.messages != [] && 0 < room
    requires n == Min(FrontRemaining(q), room) && WellFormed(Popped(Advanced(q, n)))
    ensures var q1 := Popped(Advanced(q, n));
            LeftUnstarted(Unstarted(q1), room - n - Min(room - n, Rest(q1)))
            == LeftUnstarted(Unstarted(q), room - Min(room, Rest(q)))
  {
    hide EncodeHeader, Wire;
    var q1, rest := Popped(Advanced(q, n)), q.messages[1..];
    assert Unstarted(q1) == rest && room - n - Min(room - n, Rest(q1)) == room - n;
    if q.frontOffset > 0 {
      assert Unstarted(q) == rest;
    } else {
      assert Unstarted(q) == q.messages;
    }
  }

  lemma {:induction false} DrainStarts(q: Queue, room: nat)
    requires WellFormed(q) && !q.frontCommitted
    ensures Unstarted(Drained(q, room)) == LeftUnstarted(Unstarted(q), room - Min(room, Rest(q)))
    decreases |q.messages|, room
  {
    hide EncodeHeader, Wire, Framed, Unstarted, LeftUnstarted;
    if room == 0 || q.messages == [] {
      NoRoom(q, room);
    } else if q.frontOffset + room <= FRAME_HEADER_LEN {
      HeaderStarts(q, room);
    } else {
      DrainUnfolds(q, room);
      var n := Min(FrontRemaining(q), room);
      AdvanceStarts(q, n, room);
      DrainStarts(Popped(Advanced(q, n)), room - n);
    }
  }

  lemma NoRoom(q: Queue, room: nat)
    requires WellFormed(q) && (room == 0 || q.messages == [])
    ensures Unstarted(q) == LeftUnstarted(Unstarted(q), room - Min(room, Rest(q)))
  {
    hide EncodeHeader, Wire;
  }

  lemma HeaderStarts(q: Queue, room: nat)
    requires WellFormed(q) && !q.frontCommitted && q.messages != []
    requires 0 < room && q.frontOffset + room <= FRAME_HEADER_LEN
    ensures Unstarted(Advanced(q, room)) == LeftUnstarted(Unstarted(q), room - Min(room, Rest(q)))
  {
    hide EncodeHeader, Wire;
    assert Unstarted(Advanced(q, room)) == q.messages[1..];
  }

  lemma PendingSize(q: Queue)
    requires WellFormed(q)
    ensures |Pending(q)| == Rest(q) + |WireAll(Unstarted(q))|
  {
    hide EncodeHeader;
    if q.messages != [] {
      assert Framed(q.messages[0]);
    }
  }

  // ---- one shipment by either path ----

  /** Between shipments: alike, with the same bytes on the wire. */
  ghost predicate Same(c: Traced, d: Traced) {
    && HistoryOk(c) && HistoryOk(d) && !c.q.frontCommitted && !d.q.frontCommitted
    && Alike(c, d) && c.shipped == d.shipped
  }

  lemma SamePending(c: Traced, d: Traced)
    requires Same(c, d)
    ensures Pending(c.q) == Pending(d.q) && Rest(c.q) == Rest(d.q)
  {
    Conservation(c);
    Conservation(d);
    Cancel(c.shipped, Pending(c.q), Pending(d.q));
    PendingSize(c.q);
    PendingSize(d.q);
  }

  lemma Cancel<T>(a: seq<T>, b: seq<T>, c: seq<T>)
    requires a + b == a + c
    ensures b == c
  {
    assert b == (a + b)[|a|..];
    assert c == (a + c)[|a|..];
  }

  /** The promise starts the head, as copying one or more of its bytes does. */
  lemma PromiseStarts(q: Queue, n: nat)
    requires WellFormed(q) && !q.frontCommitted && 0 < n <= FrontRemaining(q)
    ensures Unstarted(Promised(q, n)) == LeftUnstarted(Unstarted(q), n - Min(n, Rest(q)))
    ensures var r := Promised(q, n);
            && r.frontCommitted && r.backpressure == q.backpressure && r.messages != [] && WellFormed(r)
            && FrontRemaining(r) == FrontRemaining(q) && FrontBytes(r, n) == Take(Pending(q), n)
  {
    hide EncodeHeader;
    assert Framed(q.messages[0]);
  }

  lemma ConsumeStarts(q: Queue, n: nat)
    requires WellFormed(q) && q.frontCommitted && q.messages != [] && 0 < n <= FrontRemaining(q)
    ensures Unstarted(Consumed(q, n)) == Unstarted(q) && Consumed(q, n).backpressure == q.backpressure
    ensures !Consumed(q, n).frontCommitted
  {
    hide EncodeHeader, Wire;
  }

  lemma ShipOpens(c: Traced, d: Traced, n: nat)
    requires Same(c, d) && 0 < n <= FrontRemaining(c.q)
    ensures var c1, d1 := Step(c, Promise(n)), Step(d, Drain(n));
            && HistoryOk(c1) && HistoryOk(d1) && Alike(c1, d1)
            && c1.q.frontCommitted && !d1.q.frontCommitted && c1.q.messages != [] && n <= FrontRemaining(c1.q)
            && d1.shipped == c1.shipped + FrontBytes(c1.q, n)
  {
    hide HistoryOk, Drained, Pending, WellFormed, Unstarted, LeftUnstarted, Rest, Promised, FrontBytes, FrontRemaining;
    HistoryParts(c);
    HistoryParts(d);
    StepKeepsHistory(c, Promise(n));
    StepKeepsHistory(d, Drain(n));
    SamePending(c, d);
    PromiseStarts(c.q, n);
    DrainStarts(d.q, n);
    DrainKeepsCommit(d.q, n);
  }

  lemma ShipCloses(c: Traced, d: Traced, n: nat)
    requires HistoryOk(c) && HistoryOk(d) && Alike(c, d) && !d.q.frontCommitted
    requires c.q.frontCommitted && c.q.messages != [] && 0 < n <= FrontRemaining(c.q)
    requires d.shipped == c.shipped + FrontBytes(c.q, n)
    ensures Same(Step(c, Consume(n)), d)
  {
    StepKeepsHistory(c, Consume(n));
    ConsumeStarts(c.q, n);
    hide HistoryOk, WellFormed, Unstarted, FrontBytes, Consumed;
    AlikeButHead(c, d, Step(c, Consume(n)));
  }

  lemma ShipsAlike(c: Traced, d: Traced, n: nat, ops: seq<QueueOp>)
    requires Same(c, d) && 0 < n <= FrontRemaining(c.q) && AllByApplication(ops)
    ensures Same(Step(Run(Step(c, Promise(n)), ops), Consume(n)), Run(Step(d, Drain(n)), ops))
  {
    ShipOpens(c, d, n);
    hide Same, HistoryOk, Alike, FrontBytes, FrontRemaining, WellFormed, Step;
    var c1, d1 := Step(c, Promise(n)), Step(d, Drain(n));
    RunAlike(c1, d1, ops);
    PinnedToTheEnd(c1, ops, n);
    ShipCloses(Run(c1, ops), Run(d1, ops), n);
  }

  lemma AlikeButHead(c: Traced, d: Traced, c': Traced)
    requires Alike(c, d) && Unstarted(c'.q) == Unstarted(c.q) && c'.q.backpressure == c.q.backpressure
    requires c'.accepted == c.accepted && c'.survivors == c.survivors && c'.kept == c.kept
    ensures Alike(c', d)
  {
  }

  lemma PinnedToTheEnd(t: Traced, ops: seq<QueueOp>, n: nat)
    requires HistoryOk(t) && t.q.frontCommitted && t.q.messages != [] && n <= FrontRemaining(t.q)
    requires AllByApplication(ops)
    ensures var q := Run(t, ops).q;
            q.frontCommitted && q.messages != [] && n <= FrontRemaining(q) && FrontBytes(q, n) == FrontBytes(t.q, n)
  {
    PromiseIsPinned(t, ops, n);
    var q := Run(t, ops).q;
    hide EncodeHeader, Wire, Run;
    assert Framed(q.messages[0]);
  }

  /**
   * Promising `n` bytes of the head, letting the application do anything, and sending them gives
   * what copying `n` bytes first and letting the application do the same gives: the same messages
   * accepted, the same evicted, the same bytes shipped and the same bytes left.
   */
  lemma NoCopyRefinesCopy(t: Traced, n: nat, ops: seq<QueueOp>)
    requires HistoryOk(t) && !t.q.frontCommitted && 0 < n <= FrontRemaining(t.q) && AllByApplication(ops)
    ensures var c, d := Step(Run(Step(t, Promise(n)), ops), Consume(n)), Run(Step(t, Drain(n)), ops);
            && c.accepted == d.accepted && c.survivors == d.survivors
            && c.shipped == d.shipped && Pending(c.q) == Pending(d.q)
  {
    ShipsAlike(t, t, n, ops);
    SamePending(Step(Run(Step(t, Promise(n)), ops), Consume(n)), Run(Step(t, Drain(n)), ops));
  }

  // ---- whole runs, each shipment by either path ----

  /** One round of a connection's life; a direct shipment stays open while the application goes on. */
  datatype Round =
    | Apply(op: QueueOp)
    | Copy(room: nat)
    | Direct(length: nat, meanwhile: seq<QueueOp>)

  predicate RoundOk(t: Traced, r: Round) {
    match r
    case Apply(op) => ByApplication(op)
    case Copy(room) => true
    case Direct(n, ops) => WellFormed(t.q) && 0 < n <= FrontRemaining(t.q) && AllByApplication(ops)
  }

  function Played(t: Traced, r: Round): (t': Traced)
    requires WellFormed(t.q)
    ensures WellFormed(t'.q)
  {
    match r
    case Apply(op) => Step(t, op)
    case Copy(room) => Step(t, Drain(room))
    case Direct(n, ops) => Step(Run(Step(t, Promise(n)), ops), Consume(n))
  }

  /** The same round with every byte copied. */
  function Copied(t: Traced, r: Round): (t': Traced)
    requires WellFormed(t.q)
    ensures WellFormed(t'.q)
  {
    match r
    case Apply(op) => Step(t, op)
    case Copy(room) => Step(t, Drain(room))
    case Direct(n, ops) => Run(Step(t, Drain(n)), ops)
  }

  function PlayedAll(t: Traced, rounds: seq<Round>): (t': Traced)
    requires WellFormed(t.q)
    ensures WellFormed(t'.q)
    decreases |rounds|
  {
    if rounds == [] then t else PlayedAll(Played(t, rounds[0]), rounds[1..])
  }

  function CopiedAll(t: Traced, rounds: seq<Round>): (t': Traced)
    requires WellFormed(t.q)
    ensures WellFormed(t'.q)
    decreases |rounds|
  {
    if rounds == [] then t else CopiedAll(Copied(t, rounds[0]), rounds[1..])
  }

  predicate RoundsOk(t: Traced, rounds: seq<Round>)
    requires WellFormed(t.q)
    decreases |rounds|
  {
    rounds == [] || (RoundOk(t, rounds[0]) && RoundsOk(Played(t, rounds[0]), rounds[1..]))
  }

  lemma ApplySame(c: Traced, d: Traced, op: QueueOp)
    requires Same(c, d) && ByApplication(op)
    ensures Same(Step(c, op), Step(d, op))
  {
    StepKeepsHistory(c, op);
    StepKeepsHistory(d, op);
    StepAlike(c, d, op);
    hide HistoryOk, Alike, Step;
  }

  lemma CopySame(c: Traced, d: Traced, room: nat)
    requires Same(c, d)
    ensures Same(Step(c, Drain(room)), Step(d, Drain(room)))
  {
    hide HistoryOk, Drained, Pending, WellFormed, Unstarted, LeftUnstarted, Rest, FrontRemaining;
    HistoryParts(c);
    HistoryParts(d);
    StepKeepsHistory(c, Drain(room));
    StepKeepsHistory(d, Drain(room));
    SamePending(c, d);
    DrainStarts(c.q, room);
    DrainStarts(d.q, room);
    DrainKeepsCommit(c.q, room);
    DrainKeepsCommit(d.q, room);
  }

  lemma HistoryParts(t: Traced)
    requires HistoryOk(t)
    ensures WellFormed(t.q) && 0 <= Base(t) && |t.kept| == |t.survivors|
  {
  }

  lemma {:induction false} DrainKeepsCommit(q: Queue, room: nat)
    requires WellFormed(q)
    ensures Drained(q, room).frontCommitted == q.frontCommitted && Drained(q, room).backpressure == q.backpressure
    decreases |q.messages|, room
  {
    hide EncodeHeader, Wire, Framed, Len;
    if 0 < room && q.messages != [] && q.frontOffset + room > FRAME_HEADER_LEN {
      DrainUnfolds(q, room);
      var n := Min(FrontRemaining(q), room);
      hide FrontRemaining, WellFormed;
      DrainKeepsCommit(Popped(Advanced(q, n)), room - n);
    }
  }

  lemma RoundSame(c: Traced, d: Traced, r: Round)
    requires Same(c, d) && RoundOk(c, r)
    ensures Same(Played(c, r), Copied(d, r))
  {
    hide Same, Step;
    match r {
      case Apply(op) => ApplySame(c, d, op);
      case Copy(room) => CopySame(c, d, room);
      case Direct(n, ops) => ShipsAlike(c, d, n, ops);
    }
  }

  lemma {:induction false} RunSame(c: Traced, d: Traced, rounds: seq<Round>)
    requires Same(c, d) && RoundsOk(c, rounds)
    ensures Same(PlayedAll(c, rounds), CopiedAll(d, rounds))
    decreases |rounds|
  {
    if rounds != [] {
      RoundSame(c, d, rounds[0]);
      hide Same, RoundOk, Played, Copied;
      RunSame(Played(c, rounds[0]), Copied(d, rounds[0]), rounds[1..]);
    }
  }

  /**
   * Whatever mix of the two paths a run uses, the messages accepted, the messages that survive,
   * the bytes on the wire and the bytes left are those of the run that copies everything. Any two
   * mixes of the same rounds therefore agree.
   */
  lemma EveryMixIsCopy(t: Traced, rounds: seq<Round>)
    requires HistoryOk(t) && !t.q.frontCommitted && RoundsOk(t, rounds)
    ensures var c, d := PlayedAll(t, rounds), CopiedAll(t, rounds);
            && c.accepted == d.accepted && c.survivors == d.survivors
            && c.shipped == d.shipped && Pending(c.q) == Pending(d.q)
  {
    assert Same(t, t);
    hide Same, Pending;
    RunSame(t, t, rounds);
    SamePending(PlayedAll(t, rounds), CopiedAll(t, rounds));
  }
}
