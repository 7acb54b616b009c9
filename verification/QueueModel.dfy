/**
 * The per-stream outbound queue as a value, with the history that its guarantees speak about.
 *
 * `Queue` holds exactly the fields of the source's queue. `Traced` adds what a reader of the wire
 * cares about: the bytes that left, the messages that were accepted, and which of them survived.
 */
module QueueModel {
  import opened Bytes
  import opened Framing

  type GrpcStatus = s: nat | s <= 16

  const STATUS_OK: GrpcStatus := 0
  const STATUS_UNKNOWN: GrpcStatus := 2
  const STATUS_DEADLINE_EXCEEDED: GrpcStatus := 4
  const STATUS_UNIMPLEMENTED: GrpcStatus := 12
  const STATUS_INTERNAL: GrpcStatus := 13

  type Capacity = n: nat | n > 0 witness 1

  datatype OverflowPolicy = Reject | DropOldest

  datatype Backpressure = Unbounded | Bounded(capacity: Capacity, policy: OverflowPolicy)

  datatype OutMsg = OutMsg(hdr: seq<byte>, body: seq<byte>)

  datatype Queue = Queue(
    messages: seq<OutMsg>,
    frontOffset: nat,
    frontCommitted: bool,
    finished: bool,
    finalStatus: GrpcStatus,
    finalMessage: Option<seq<byte>>,
    responseStarted: bool,
    backpressure: Backpressure)

  const EMPTY_QUEUE := Queue([], 0, false, false, STATUS_OK, None, false, Unbounded)

  function Wire(m: OutMsg): (w: seq<byte>)
    ensures |w| == |m.hdr| + |m.body|
  {
    m.hdr + m.body
  }

  /** Total wire length: frame header and payload. */
  function Len(m: OutMsg): nat {
    FRAME_HEADER_LEN + |m.body|
  }

  function WireAll(ms: seq<OutMsg>): seq<byte> {
    if ms == [] then [] else Wire(ms[0]) + WireAll(ms[1..])
  }

  predicate Framed(m: OutMsg) {
    |m.body| <= U32_MAX && m.hdr == EncodeHeader(false, |m.body|)
  }

  /** The offset may rest at the end of the head only for an empty payload whose header just fitted. */
  predicate WellFormed(q: Queue) {
    && (forall i :: 0 <= i < |q.messages| ==> Framed(q.messages[i]))
    && (if q.messages == [] then q.frontOffset == 0
        else q.frontOffset < Len(q.messages[0]) ||
             (q.frontOffset == Len(q.messages[0]) && q.messages[0].body == []))
  }

  /** Everything queued and not yet shipped. */
  function Pending(q: Queue): seq<byte>
    requires WellFormed(q)
  {
    if q.messages == [] then []
    else Wire(q.messages[0])[q.frontOffset..] + WireAll(q.messages[1..])
  }

  predicate FrontStarted(q: Queue) {
    q.frontOffset > 0 || q.frontCommitted
  }

  function UnstartedCount(q: Queue): nat {
    if FrontStarted(q) && |q.messages| > 0 then |q.messages| - 1 else |q.messages|
  }

  function FrontRemaining(q: Queue): nat
    requires WellFormed(q)
  {
    if q.messages == [] then 0 else Len(q.messages[0]) - q.frontOffset
  }

  // ---- enqueue ----

  predicate AtCapacity(q: Queue) {
    q.backpressure.Bounded? && UnstartedCount(q) >= q.backpressure.capacity
  }

  predicate Accepts(q: Queue, body: seq<byte>) {
    |body| <= U32_MAX && !(AtCapacity(q) && q.backpressure.policy == Reject)
  }

  function DropIndex(q: Queue): nat {
    if FrontStarted(q) then 1 else 0
  }

  function Without<T>(s: seq<T>, i: nat): (r: seq<T>)
    requires i < |s|
    ensures |r| == |s| - 1
    ensures forall j :: 0 <= j < |r| ==> r[j] == s[if j < i then j else j + 1]
  {
    s[..i] + s[i + 1..]
  }

  function AfterEviction(q: Queue): seq<OutMsg> {
    if AtCapacity(q) && DropIndex(q) < |q.messages| then Without(q.messages, DropIndex(q)) else q.messages
  }

  function Enqueued(q: Queue, body: seq<byte>): Queue {
    if !Accepts(q, body) then q
    else q.(messages := AfterEviction(q) + [OutMsg(EncodeHeader(false, |body|), body)])
  }

  // ---- shipping ----

  function Advanced(q: Queue, n: nat): Queue {
    q.(frontOffset := q.frontOffset + n)
  }

  function Popped(q: Queue): Queue {
    if q.messages != [] && q.frontOffset == Len(q.messages[0])
    then q.(messages := q.messages[1..], frontOffset := 0)
    else q
  }

  /**
   * The copy path: fill a window of `room` bytes, message by message. A window that ends inside the
   * header, or exactly at its end, leaves the head in place even if there is no payload to follow.
   */
  function Drained(q: Queue, room: nat): (r: Queue)
    requires WellFormed(q)
    ensures WellFormed(r)
    decreases |q.messages|, room
  {
    if room == 0 || q.messages == [] then q
    else if q.frontOffset + room <= FRAME_HEADER_LEN then Advanced(q, room)
    else
      var n := Min(FrontRemaining(q), room);
      Drained(Popped(Advanced(q, n)), room - n)
  }

  /** The zero-copy path, first half: pin the head and promise bytes of it. */
  function PromisedLength(q: Queue, max: nat): nat
    requires WellFormed(q)
  {
    Min(FrontRemaining(q), max)
  }

  function Promised(q: Queue, max: nat): Queue
    requires WellFormed(q)
  {
    if PromisedLength(q, max) > 0 then q.(frontCommitted := true) else q
  }

  /** The `n` bytes of the head that start at the offset. */
  function FrontBytes(q: Queue, n: nat): seq<byte>
    requires WellFormed(q)
  {
    if q.messages == [] then [] else Take(Wire(q.messages[0])[q.frontOffset..], n)
  }

  /** The zero-copy path, second half: the promised bytes left. */
  function Consumed(q: Queue, n: nat): Queue
    requires WellFormed(q)
  {
    Popped(Advanced(q, Min(n, FrontRemaining(q)))).(frontCommitted := false)
  }

  // ---- history ----

  datatype Traced = Traced(
    q: Queue,
    shipped: seq<byte>,
    accepted: seq<seq<byte>>,
    survivors: seq<seq<byte>>,
    kept: seq<int>)

  const FRESH := Traced(EMPTY_QUEUE, [], [], [], [])

  datatype QueueOp =
    | Enqueue(body: seq<byte>)
    | Drain(room: nat)
    | Promise(max: nat)
    | Consume(length: nat)
    | SetPolicy(backpressure: Backpressure)

  /** Where the queue's first message sits among the survivors. */
  function Base(t: Traced): int {
    |t.survivors| - |t.q.messages|
  }

  /** The history once `body` has been accepted; `q` is the queue it left. */
  function Recorded(t: Traced, body: seq<byte>, q: Queue): Traced {
    var e := Base(t) + DropIndex(t.q);
    var evict := AtCapacity(t.q) && 0 <= e < |t.survivors| && e < |t.kept|;
    Traced(q, t.shipped, t.accepted + [body],
           (if evict then Without(t.survivors, e) else t.survivors) + [body],
           (if evict then Without(t.kept, e) else t.kept) + [|t.accepted|])
  }

  function TEnqueue(t: Traced, body: seq<byte>): Traced {
    if Accepts(t.q, body) then Recorded(t, body, Enqueued(t.q, body)) else t
  }

  function TDrain(t: Traced, room: nat): Traced
    requires WellFormed(t.q)
  {
    t.(q := Drained(t.q, room), shipped := t.shipped + Take(Pending(t.q), room))
  }

  function TConsume(t: Traced, n: nat): Traced
    requires WellFormed(t.q)
  {
    t.(q := Consumed(t.q, n), shipped := t.shipped + FrontBytes(t.q, n))
  }

  function Step(t: Traced, op: QueueOp): (r: Traced)
    requires WellFormed(t.q)
    ensures WellFormed(r.q)
  {
    match op
    case Enqueue(body) => TEnqueue(t, body)
    case Drain(room) => TDrain(t, room)
    case Promise(max) => t.(q := Promised(t.q, max))
    case Consume(n) => TConsume(t, n)
    case SetPolicy(bp) => t.(q := t.q.(backpressure := bp))
  }

  function Run(t: Traced, ops: seq<QueueOp>): (r: Traced)
    requires WellFormed(t.q)
    ensures WellFormed(r.q)
    decreases |ops|
  {
    if ops == [] then t else Run(Step(t, ops[0]), ops[1..])
  }
}
