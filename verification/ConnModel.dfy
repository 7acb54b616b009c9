/**
 * One server connection as a value: the stream contexts the callbacks share, the ordered tail of
 * unsent bytes, and the part of nghttp2's state that decides when the callbacks run.
 *
 * nghttp2 is an emitter driven by a script of frames it wants to send; the socket is a list of the
 * byte counts successive writes accept, 0 standing for EAGAIN.
 */
module ConnModel {
  import opened Bytes
  import opened Framing
  import opened QueueModel
  import Percent
  import Timeouts

  /** Head size from which the read callback promises bytes in place instead of copying them. */
  const NOCOPY_MIN: nat := 4096
  const EXPIRE_BATCH: nat := 8
  const FRAMEHD_LEN: nat := 9
  /** "deadline exceeded" */
  const DEADLINE_MESSAGE: seq<byte> :=
    [0x64, 0x65, 0x61, 0x64, 0x6C, 0x69, 0x6E, 0x65, 0x20, 0x65, 0x78, 0x63, 0x65, 0x65, 0x64, 0x65, 0x64]

  datatype StreamState = HeadersIn | BodyIn | Complete | Dispatched | Cancelled

  /** How nghttp2 sees a stream's response: not submitted, sendable, paused, or ended by a trailer. */
  datatype Provider = Unsubmitted | Active | Deferred | Done(status: GrpcStatus, message: Option<seq<byte>>)

  /** `provider` and `endStream` are nghttp2's view of the stream; hooks are numbered as installed. */
  datatype StreamCtx = StreamCtx(
    id: int,
    state: StreamState,
    request: seq<byte>,
    path: seq<byte>,
    out: Traced,
    status: GrpcStatus,
    cancelHook: Option<nat>,
    deadlineMs: Option<nat>,
    provider: Provider,
    endStream: bool)

  /** `handler` stands for the registered function and its user data. */
  datatype MethodEntry = MethodEntry(path: seq<byte>, handler: nat, backpressure: Option<Backpressure>)

  datatype WireFrame = Control(bytes: seq<byte>) | Data(id: int, hd: seq<byte>, payload: seq<byte>)

  /** `bytes` is history: what the queue held when the promise was made. */
  datatype SendPromise = SendPromise(id: int, hd: seq<byte>, length: nat, bytes: seq<byte>)

  datatype Invocation = Invocation(id: int, handler: nat, payload: seq<byte>)

  datatype ConnState = ConnState(
    streams: seq<StreamCtx>,
    methods: seq<MethodEntry>,
    maxMessageLen: nat,
    fd: int,
    outPending: seq<byte>,
    promise: Option<SendPromise>,
    socket: seq<byte>,
    log: seq<WireFrame>,
    gone: seq<StreamCtx>,
    nextHook: nat,
    fired: seq<nat>,
    invoked: seq<Invocation>)

  datatype Reply = Ok | StreamNotFound | StreamFinished | QueueFull

  function NewStream(id: int): StreamCtx {
    StreamCtx(id, HeadersIn, [], [], FRESH, STATUS_OK, None, None, Unsubmitted, false)
  }

  // ---- one stream: what the application asks for ----

  datatype Act =
    | Write(body: seq<byte>)
    | Finish(status: GrpcStatus, message: Option<seq<byte>>)
    | Policy(backpressure: Backpressure)

  /** `nghttp2_session_resume_data`, issued only past dispatch. */
  function Resumed(s: StreamCtx): StreamCtx {
    if s.state == Dispatched && s.out.q.responseStarted && s.provider.Deferred? then s.(provider := Active) else s
  }

  function WriteReply(s: StreamCtx, body: seq<byte>): Reply {
    if s.out.q.finished then StreamFinished
    else if !Accepts(s.out.q, body) then QueueFull
    else Ok
  }

  function Written(s: StreamCtx, body: seq<byte>): StreamCtx {
    if WriteReply(s, body) == Ok then Resumed(s.(out := TEnqueue(s.out, body))) else s
  }

  function WithQueue(s: StreamCtx, q: Queue): StreamCtx {
    s.(out := s.out.(q := q))
  }

  /** The message travels percent-encoded; an empty one counts as none. */
  function TrailerMessage(q: Queue, message: Option<seq<byte>>): Option<seq<byte>> {
    if message.Some? && message.value != [] then Some(Percent.Encoded(message.value)) else q.finalMessage
  }

  function MarkFinished(q: Queue, status: GrpcStatus, message: Option<seq<byte>>): Queue {
    if q.finished then q
    else q.(finished := true, finalStatus := status, finalMessage := TrailerMessage(q, message))
  }

  function Finished(s: StreamCtx, status: GrpcStatus, message: Option<seq<byte>>): StreamCtx {
    Resumed(WithQueue(s, MarkFinished(s.out.q, status, message)))
  }

  function Acted(s: StreamCtx, act: Act): StreamCtx {
    match act
    case Write(body) => Written(s, body)
    case Finish(status, message) => Finished(s, status, message)
    case Policy(bp) => WithQueue(s, s.out.q.(backpressure := bp))
  }

  // ---- one stream: what arrives from the peer ----

  datatype Change =
    | Call(act: Act)
    | PathHeader(value: seq<byte>)
    | TimeoutHeader(value: seq<byte>, now: nat)
    | FrameRecv(headers: bool, endStream: bool)
    | DataChunk(data: seq<byte>, maxLen: nat)

  function Deadline(value: seq<byte>, now: nat): Option<nat> {
    match Timeouts.ParsedMs(value)
    case Some(t) => Some(now + t)
    case None => None
  }

  function Changed(s: StreamCtx, c: Change): StreamCtx {
    match c
    case Call(act) => Acted(s, act)
    case PathHeader(value) => s.(path := s.path + value)
    case TimeoutHeader(value, now) => s.(deadlineMs := Deadline(value, now))
    case FrameRecv(headers, endStream) =>
      if endStream then s.(state := Complete, endStream := true)
      else if headers then s.(state := BodyIn)
      else s
    case DataChunk(data, maxLen) =>
      if |s.request| + |data| > maxLen then s else s.(request := s.request + data)
  }

  // ---- the stream list ----

  function IndexFrom(streams: seq<StreamCtx>, id: int, from: nat): (k: nat)
    requires from <= |streams|
    ensures from <= k <= |streams|
    ensures k < |streams| ==> streams[k].id == id
    ensures forall j :: from <= j < k ==> streams[j].id != id
    decreases |streams| - from
  {
    if from == |streams| || streams[from].id == id then from else IndexFrom(streams, id, from + 1)
  }

  /** The position of stream `id`, or the number of streams when there is none. */
  function IndexOf(streams: seq<StreamCtx>, id: int): nat {
    IndexFrom(streams, id, 0)
  }

  function Put(st: ConnState, k: nat, s: StreamCtx): ConnState
    requires k < |st.streams|
  {
    st.(streams := st.streams[k := s])
  }

  function OnStream(st: ConnState, id: int, c: Change): ConnState {
    var k := IndexOf(st.streams, id);
    if k < |st.streams| then Put(st, k, Changed(st.streams[k], c)) else st
  }

  function Opened(st: ConnState, id: int): ConnState {
    st.(streams := st.streams + [NewStream(id)])
  }

  function HookSet(st: ConnState, id: int): ConnState {
    var k := IndexOf(st.streams, id);
    if k < |st.streams|
    then Put(st, k, st.streams[k].(cancelHook := Some(st.nextHook))).(nextHook := st.nextHook + 1)
    else st
  }

  function SwapRemove<T>(s: seq<T>, k: nat): seq<T>
    requires k < |s|
  {
    s[k := s[|s| - 1]][..|s| - 1]
  }

  function HookOf(s: StreamCtx): seq<nat> {
    if s.cancelHook.Some? then [s.cancelHook.value] else []
  }

  function StreamClosed(st: ConnState, id: int, errorCode: nat): ConnState {
    var k := IndexOf(st.streams, id);
    if k == |st.streams| then st
    else
      st.(streams := SwapRemove(st.streams, k),
          gone := st.gone + [st.streams[k]],
          fired := st.fired + if errorCode != 0 then HookOf(st.streams[k]) else [])
  }

  // ---- dispatch ----

  datatype CallOp = OnCall(id: int, act: Act) | SetHook(id: int)

  /** What a handler does while it runs, on any call of the connection, and what it returns. */
  datatype Outcome = Outcome(ops: seq<CallOp>, rc: int)

  /** What each registered handler does with a call and its payload. */
  type Handlers = (nat, int, seq<byte>) -> Outcome

  function ApplyOp(st: ConnState, op: CallOp): ConnState {
    match op
    case OnCall(id, act) => OnStream(st, id, Call(act))
    case SetHook(id) => HookSet(st, id)
  }

  function ApplyOps(st: ConnState, ops: seq<CallOp>): (r: ConnState)
    ensures |r.streams| == |st.streams|
    decreases |ops|
  {
    if ops == [] then st else ApplyOps(ApplyOp(st, ops[0]), ops[1..])
  }

  /** The payload of the first frame of a complete request. */
  function RequestPayload(request: seq<byte>, maxLen: nat): Option<seq<byte>> {
    var h := DecodeHeader(request, maxLen);
    if h.Header? && FRAME_HEADER_LEN + h.header.payloadLen <= |request|
    then Some(request[FRAME_HEADER_LEN..FRAME_HEADER_LEN + h.header.payloadLen])
    else None
  }

  function FindMethod(methods: seq<MethodEntry>, path: seq<byte>): Option<MethodEntry> {
    if methods == [] then None
    else if methods[0].path == path then Some(methods[0])
    else FindMethod(methods[1..], path)
  }

  function StatusFromI32(rc: int): GrpcStatus {
    if 0 <= rc <= 16 then rc else STATUS_UNKNOWN
  }

  /** Ends a call without a handler; a status set earlier is overwritten, a message is not. */
  function FinalizedError(s: StreamCtx, status: GrpcStatus): StreamCtx {
    WithQueue(s, s.out.q.(finished := true, finalStatus := status)).(status := status, state := Dispatched)
  }

  function Submitted(s: StreamCtx, ok: bool): StreamCtx {
    if ok then WithQueue(s, s.out.q.(responseStarted := true)).(provider := Active) else s
  }

  /** The handler came back: a non-zero code finishes the call unless it is finished already. */
  function HandlerReturned(s: StreamCtx, rc: int): StreamCtx {
    var q := if rc != 0 && !s.out.q.finished
             then s.out.q.(finished := true, finalStatus := StatusFromI32(rc)) else s.out.q;
    WithQueue(s, q).(state := Dispatched)
  }

  function Launched(s: StreamCtx, ok: bool): StreamCtx {
    if s.out.q.responseStarted then s
    else if ok then Submitted(s, true)
    else s.(state := Cancelled)
  }

  function WithMethodPolicy(s: StreamCtx, m: MethodEntry): StreamCtx {
    match m.backpressure
    case Some(bp) => WithQueue(s, s.out.q.(backpressure := bp))
    case None => s
  }

  function HandlerRun(st: ConnState, i: nat, m: MethodEntry, payload: seq<byte>, h: Handlers, submits: int -> bool): (r: ConnState)
    requires i < |st.streams|
    ensures |r.streams| == |st.streams|
  {
    var id := st.streams[i].id;
    var out := h(m.handler, id, payload);
    var st1 := ApplyOps(Put(st, i, WithMethodPolicy(st.streams[i], m)), out.ops);
    Put(st1, i, Launched(HandlerReturned(st1.streams[i], out.rc), submits(id)))
      .(invoked := st1.invoked + [Invocation(id, m.handler, payload)])
  }

  /** The status a complete request is turned away with, if no handler is to run. */
  function Refusal(st: ConnState, s: StreamCtx): Option<GrpcStatus> {
    if RequestPayload(s.request, st.maxMessageLen).None? then Some(STATUS_INTERNAL)
    else if FindMethod(st.methods, s.path).None? then Some(STATUS_UNIMPLEMENTED)
    else None
  }

  function DispatchedOne(st: ConnState, i: nat, h: Handlers, submits: int -> bool): (r: ConnState)
    requires i < |st.streams|
    ensures |r.streams| == |st.streams|
  {
    var s := st.streams[i];
    if s.state != Complete then st
    else
      match Refusal(st, s)
      case Some(status) => Put(st, i, Submitted(FinalizedError(s, status), submits(s.id)))
      case None =>
        HandlerRun(st, i, FindMethod(st.methods, s.path).value,
                   RequestPayload(s.request, st.maxMessageLen).value, h, submits)
  }

  function DispatchedFrom(st: ConnState, i: nat, h: Handlers, submits: int -> bool): (r: ConnState)
    requires i <= |st.streams|
    ensures |r.streams| == |st.streams|
    decreases |st.streams| - i
  {
    if i == |st.streams| then st else DispatchedFrom(DispatchedOne(st, i, h, submits), i + 1, h, submits)
  }

  // ---- deadlines ----

  predicate Due(s: StreamCtx, now: nat) {
    s.state == Dispatched && !s.out.q.finished && s.deadlineMs.Some? && s.deadlineMs.value <= now
  }

  function DueCount(streams: seq<StreamCtx>, now: nat): nat {
    if streams == [] then 0 else (if Due(streams[0], now) then 1 else 0) + DueCount(streams[1..], now)
  }

  function Expired(s: StreamCtx): StreamCtx {
    Finished(s.(deadlineMs := None, cancelHook := None), STATUS_DEADLINE_EXCEEDED, Some(DEADLINE_MESSAGE))
  }

  /** The first `budget` due streams, expired; the others as they were. */
  function Swept(streams: seq<StreamCtx>, budget: nat, now: nat): (r: seq<StreamCtx>)
    ensures |r| == |streams|
  {
    if streams == [] then []
    else if budget > 0 && Due(streams[0], now) then [Expired(streams[0])] + Swept(streams[1..], budget - 1, now)
    else [streams[0]] + Swept(streams[1..], budget, now)
  }

  function SweptHooks(streams: seq<StreamCtx>, budget: nat, now: nat): seq<nat> {
    if streams == [] then []
    else if budget > 0 && Due(streams[0], now) then HookOf(streams[0]) + SweptHooks(streams[1..], budget - 1, now)
    else SweptHooks(streams[1..], budget, now)
  }

  function DeadlinesExpired(st: ConnState, now: nat): ConnState {
    st.(streams := Swept(st.streams, EXPIRE_BATCH, now),
        fired := st.fired + SweptHooks(st.streams, EXPIRE_BATCH, now))
  }

  // ---- output ----

  function FrameBytes(f: WireFrame): seq<byte> {
    match f
    case Control(bytes) => bytes
    case Data(id, hd, payload) => hd + payload
  }

  function LogBytes(log: seq<WireFrame>): seq<byte> {
    if log == [] then [] else LogBytes(log[..|log| - 1]) + FrameBytes(log[|log| - 1])
  }

  function FrameData(f: WireFrame, id: int): seq<byte> {
    if f.Data? && f.id == id then f.payload else []
  }

  /** The DATA payload of one stream, in emission order. */
  function DataOf(log: seq<WireFrame>, id: int): seq<byte> {
    if log == [] then [] else DataOf(log[..|log| - 1], id) + FrameData(log[|log| - 1], id)
  }

  datatype ReadResult = Copied(bytes: seq<byte>) | InPlace(length: nat) | EndOfData | Pause

  function TrailerText(q: Queue): Option<seq<byte>> {
    if q.finalMessage.Some? && q.finalMessage.value != [] then q.finalMessage else None
  }

  /** The data provider's read callback on an existing stream. */
  function ReadResultOf(s: StreamCtx, window: nat, direct: bool): ReadResult
    requires WellFormed(s.out.q)
  {
    if direct && FrontRemaining(s.out.q) >= NOCOPY_MIN then InPlace(PromisedLength(s.out.q, window))
    else
      var bytes := Take(Pending(s.out.q), window);
      if bytes != [] then Copied(bytes)
      else if s.out.q.finished then EndOfData
      else Pause
  }

  function AfterRead(s: StreamCtx, window: nat, direct: bool): StreamCtx
    requires WellFormed(s.out.q)
  {
    match ReadResultOf(s, window, direct)
    case InPlace(n) => WithQueue(s, Promised(s.out.q, window))
    case Copied(bytes) => s.(out := TDrain(s.out, window))
    case EndOfData => s.(out := TDrain(s.out, window), provider := Done(s.out.q.finalStatus, TrailerText(s.out.q)))
    case Pause => s.(out := TDrain(s.out, window), provider := Deferred)
  }

  datatype Emit = EmitControl(bytes: seq<byte>) | EmitData(id: int, window: nat, hd: seq<byte>)

  /** What is still to come from nghttp2 and from the socket. */
  datatype Env = Env(script: seq<Emit>, rooms: seq<nat>)

  function NextRoom(env: Env): nat {
    if env.rooms == [] then 0 else env.rooms[0]
  }

  function RoomUsed(env: Env): Env {
    if env.rooms == [] then env else env.(rooms := env.rooms[1..])
  }

  /** How many of `len` bytes repeated sends get out before the socket is full. */
  function SendAll(env: Env, len: nat): nat
    decreases |env.rooms|
  {
    if len == 0 || NextRoom(env) == 0 then 0
    else Min(NextRoom(env), len) + SendAll(RoomUsed(env), len - Min(NextRoom(env), len))
  }

  function AfterSendAll(env: Env, len: nat): (r: Env)
    ensures |r.rooms| <= |env.rooms| && r.script == env.script
    ensures SendAll(env, len) <= len
    ensures 0 < len && SendAll(env, len) > 0 ==> |r.rooms| < |env.rooms|
    decreases |env.rooms|
  {
    if len == 0 then env
    else if NextRoom(env) == 0 then RoomUsed(env)
    else AfterSendAll(RoomUsed(env), len - Min(NextRoom(env), len))
  }

  datatype SendResult = Sent | Paused | WouldBlock | StreamGone | Stale

  /** The send-data callback for the outstanding promise, offered to a socket that takes `room` bytes. */
  function SendResultOf(st: ConnState, room: nat): SendResult
    requires st.promise.Some?
  {
    var p := st.promise.value;
    var k := IndexOf(st.streams, p.id);
    if st.fd < 0 || st.outPending != [] then WouldBlock
    else if k == |st.streams| then StreamGone
    else if !WellFormed(st.streams[k].out.q) || |FrontBytes(st.streams[k].out.q, p.length)| != p.length then Stale
    else if room == 0 then WouldBlock
    else if room < FRAMEHD_LEN + p.length then Paused
    else Sent
  }

  function AfterSend(st: ConnState, room: nat): ConnState
    requires st.promise.Some?
  {
    var p := st.promise.value;
    var k := IndexOf(st.streams, p.id);
    match SendResultOf(st, room)
    case WouldBlock => st
    case StreamGone => st.(promise := None)
    case Stale => st.(promise := None)
    case _ =>
      var s := st.streams[k];
      var whole := p.hd + FrontBytes(s.out.q, p.length);
      Put(st, k, s.(out := TConsume(s.out, p.length)))
        .(promise := None,
          socket := st.socket + Take(whole, room),
          outPending := whole[Min(room, |whole|)..],
          log := st.log + [Data(p.id, p.hd, FrontBytes(s.out.q, p.length))])
  }

  /** `nghttp2_session_mem_send`: fd-direct frames go out on the way; a chunk ends the call. */
  datatype Pulled = Pulled(st: ConnState, env: Env, chunk: seq<byte>)

  predicate Readable(st: ConnState, k: nat) {
    k < |st.streams| && st.streams[k].provider.Active? && WellFormed(st.streams[k].out.q)
  }

  function PromiseFor(s: StreamCtx, hd: seq<byte>, n: nat): SendPromise
    requires WellFormed(s.out.q)
  {
    SendPromise(s.id, hd, n, FrontBytes(s.out.q, n))
  }

  function PullSend(st: ConnState, env: Env): (r: Pulled)
    ensures |r.env.script| <= |env.script| && |r.env.rooms| <= |env.rooms|
    ensures r.chunk != [] ==> |r.env.script| < |env.script|
    decreases |env.script|, if st.promise.Some? then 1 else 0
  {
    if st.promise.Some? then
      var st' := AfterSend(st, NextRoom(env));
      match SendResultOf(st, NextRoom(env))
      case Sent => PullSend(st', RoomUsed(env))
      case StreamGone => PullSend(st', env)
      case Stale => PullSend(st', env)
      case _ => Pulled(st', if st.fd < 0 || st.outPending != [] then env else RoomUsed(env), [])
    else if env.script == [] then Pulled(st, env, [])
    else
      var env' := env.(script := env.script[1..]);
      match env.script[0]
      case EmitControl(bytes) => Pulled(st.(log := st.log + [Control(bytes)]), env', bytes)
      case EmitData(id, window, hd) =>
        var k := IndexOf(st.streams, id);
        if !Readable(st, k) then PullSend(st, env')
        else
          var s := st.streams[k];
          var st' := Put(st, k, AfterRead(s, window, st.fd >= 0));
          match ReadResultOf(s, window, st.fd >= 0)
          case InPlace(n) => PullSend(st'.(promise := Some(PromiseFor(s, hd, n))), env')
          case Copied(bytes) => Pulled(st'.(log := st.log + [Data(id, hd, bytes)]), env', hd + bytes)
          case _ => PullSend(st', env')
  }

  /** Drain the ordered tail, then pull and write until the socket is full or nothing is left. */
  function Flushed(st: ConnState, env: Env): (r: Pulled)
    decreases |env.script| + |env.rooms|
  {
    var n := |st.outPending|;
    if n > 0 then
      var w := SendAll(env, n);
      var env' := AfterSendAll(env, n);
      var st' := st.(socket := st.socket + Take(st.outPending, w), outPending := st.outPending[Min(w, n)..]);
      if w == 0 then Pulled(st', env', []) else Flushed(st', env')
    else
      var p := PullSend(st, env);
      if p.chunk == [] then p
      else
        var w := SendAll(p.env, |p.chunk|);
        var env' := AfterSendAll(p.env, |p.chunk|);
        var st' := p.st.(socket := p.st.socket + Take(p.chunk, w),
                         outPending := p.st.outPending + p.chunk[Min(w, |p.chunk|)..]);
        if w < |p.chunk| then Pulled(st', env', []) else Flushed(st', env')
  }
}
