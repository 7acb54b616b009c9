/** The connection object: the callbacks and loops of the source, proved against the model. */
module Connection {
  import opened Bytes
  import opened Framing
  import opened QueueModel
  import opened QueueProofs
  import opened ConnModel
  import opened StreamProofs
  import opened ConnProofs
  import opened DispatchProofs
  import opened DeadlineProofs
  import opened OutputProofs
  import opened OutQueueObject
  import opened ConnServed
  import opened ConnDecisions
  import ConnRuns
  import Percent
  import Timeouts

  // ---- the two phases of the deadline sweep ----

  function Marked(s: StreamCtx): StreamCtx {
    s.(deadlineMs := None, cancelHook := None)
  }

  /** After the first phase: the due streams disarmed and their hooks gone, none finished yet. */
  function Marks(streams: seq<StreamCtx>, budget: nat, now: nat): (r: seq<StreamCtx>)
    ensures |r| == |streams|
  {
    if streams == [] then []
    else if budget > 0 && Due(streams[0], now) then [Marked(streams[0])] + Marks(streams[1..], budget - 1, now)
    else [streams[0]] + Marks(streams[1..], budget, now)
  }

  /** The ids the first phase collects. */
  function DueIds(streams: seq<StreamCtx>, budget: nat, now: nat): seq<int> {
    if streams == [] then []
    else if budget > 0 && Due(streams[0], now) then [streams[0].id] + DueIds(streams[1..], budget - 1, now)
    else DueIds(streams[1..], budget, now)
  }

  function FinishOne(streams: seq<StreamCtx>, id: int): (r: seq<StreamCtx>)
    ensures |r| == |streams|
  {
    var k := IndexOf(streams, id);
    if k < |streams|
    then streams[k := Finished(streams[k], STATUS_DEADLINE_EXCEEDED, Some(DEADLINE_MESSAGE))] else streams
  }

  function FinishAll(streams: seq<StreamCtx>, ids: seq<int>): seq<StreamCtx>
    decreases |ids|
  {
    if ids == [] then streams else FinishAll(FinishOne(streams, ids[0]), ids[1..])
  }

  lemma {:induction false} NoBudgetLeft(streams: seq<StreamCtx>, now: nat)
    ensures Marks(streams, 0, now) == streams && DueIds(streams, 0, now) == [] && SweptHooks(streams, 0, now) == []
  {
    hide Due;
    if streams != [] {
      NoBudgetLeft(streams[1..], now);
      assert [streams[0]] + streams[1..] == streams;
    }
  }

  /** Ids are found in order because they are distinct, so the second phase completes the sweep. */
  lemma {:induction false} TwoPhases(before: seq<StreamCtx>, streams: seq<StreamCtx>, budget: nat, now: nat)
    requires IdsOk(before + streams)
    ensures FinishAll(before + Marks(streams, budget, now), DueIds(streams, budget, now)) ==
            before + Swept(streams, budget, now)
    decreases |streams|
  {
    hide Due, Finished;
    if streams != [] {
      var s, rest, n := streams[0], streams[1..], |before|;
      assert before + streams == before + [s] + rest;
      ExpiredId(s);
      if budget > 0 && Due(s, now) {
        var before' := before + [Expired(s)];
        FinishMarked(before, s, Marks(rest, budget - 1, now)) by { HeadIsNew(before, s, rest); }
        assert SameIds(before + streams, before' + rest) by { assert before' + rest == (before + streams)[n := Expired(s)]; }
        SameIdsKeep(before + streams, before' + rest);
        hide IdsOk;
        TwoPhases(before', rest, budget - 1, now);
        Assoc(before, [Marked(s)], Marks(rest, budget - 1, now));
        Assoc(before, [Expired(s)], Swept(rest, budget - 1, now));
      } else {
        hide IdsOk;
        TwoPhases(before + [s], rest, budget, now);
        Assoc(before, [s], Marks(rest, budget, now));
        Assoc(before, [s], Swept(rest, budget, now));
      }
    }
  }

  lemma ExpiredId(s: StreamCtx)
    ensures Expired(s).id == s.id
  {
  }

  lemma HeadIsNew(before: seq<StreamCtx>, s: StreamCtx, rest: seq<StreamCtx>)
    requires IdsOk(before + [s] + rest)
    ensures forall i :: 0 <= i < |before| ==> before[i].id != s.id
  {
    var all, n := before + [s] + rest, |before|;
    assert all[n] == s && forall i :: 0 <= i < n ==> all[i] == before[i];
  }

  lemma FinishMarked(before: seq<StreamCtx>, s: StreamCtx, rest: seq<StreamCtx>)
    requires forall i :: 0 <= i < |before| ==> before[i].id != s.id
    ensures FinishOne(before + ([Marked(s)] + rest), s.id) == (before + [Expired(s)]) + rest
  {
    hide Finished;
    var marks, n := before + ([Marked(s)] + rest), |before|;
    assert marks[n] == Marked(s) && forall i :: 0 <= i < n ==> marks[i] == before[i];
    assert IndexOf(marks, s.id) == n;
  }

  /** The first phase has passed `i` streams: what it leaves and collects from there completes it. */
  predicate Marking(streams: seq<StreamCtx>, fired: seq<nat>, i: nat, done: seq<StreamCtx>, ids: seq<int>, hooks: seq<nat>, now: nat) {
    && |done| == i <= |streams| && |ids| <= EXPIRE_BATCH
    && done + Marks(streams[i..], EXPIRE_BATCH - |ids|, now) == Marks(streams, EXPIRE_BATCH, now)
    && ids + DueIds(streams[i..], EXPIRE_BATCH - |ids|, now) == DueIds(streams, EXPIRE_BATCH, now)
    && hooks + SweptHooks(streams[i..], EXPIRE_BATCH - |ids|, now) == fired + SweptHooks(streams, EXPIRE_BATCH, now)
  }

  lemma MarkingStart(streams: seq<StreamCtx>, fired: seq<nat>, now: nat)
    ensures Marking(streams, fired, 0, [], [], fired, now)
  {
    hide Marks, DueIds, SweptHooks;
    assert streams[0..] == streams;
    assert [] + Marks(streams, EXPIRE_BATCH, now) == Marks(streams, EXPIRE_BATCH, now);
    assert [] + DueIds(streams, EXPIRE_BATCH, now) == DueIds(streams, EXPIRE_BATCH, now);
  }

  lemma MarkingStep(streams: seq<StreamCtx>, fired: seq<nat>, i: nat, done: seq<StreamCtx>, ids: seq<int>, hooks: seq<nat>, now: nat)
    requires Marking(streams, fired, i, done, ids, hooks, now) && i < |streams| && |ids| < EXPIRE_BATCH
    ensures var s := streams[i];
            if Due(s, now) then Marking(streams, fired, i + 1, done + [Marked(s)], ids + [s.id], hooks + HookOf(s), now)
            else Marking(streams, fired, i + 1, done + [s], ids, hooks, now)
  {
    hide Due, Marked, HookOf;
    var s, rest, b := streams[i], streams[i + 1..], EXPIRE_BATCH - |ids|;
    assert streams[i..][1..] == rest && streams[i..][0] == s;
    if Due(s, now) {
      Assoc(done, [Marked(s)], Marks(rest, b - 1, now));
      Assoc(ids, [s.id], DueIds(rest, b - 1, now));
      Assoc(hooks, HookOf(s), SweptHooks(rest, b - 1, now));
    } else {
      Assoc(done, [s], Marks(rest, b, now));
    }
  }

  lemma MarkingEnd(streams: seq<StreamCtx>, fired: seq<nat>, i: nat, done: seq<StreamCtx>, ids: seq<int>, hooks: seq<nat>, now: nat)
    requires Marking(streams, fired, i, done, ids, hooks, now) && (i == |streams| || |ids| == EXPIRE_BATCH)
    ensures done + streams[i..] == Marks(streams, EXPIRE_BATCH, now)
    ensures ids == DueIds(streams, EXPIRE_BATCH, now) && hooks == fired + SweptHooks(streams, EXPIRE_BATCH, now)
  {
    if |ids| == EXPIRE_BATCH { NoBudgetLeft(streams[i..], now); }
    assert ids + [] == ids && hooks + [] == hooks;
  }

  /** Cutting a frame that lies in several pieces. */
  lemma SkipPart(parts: seq<seq<byte>>, skip: nat)
    requires parts != [] && skip <= |Flatten(parts)|
    ensures skip >= |parts[0]| ==> Flatten(parts)[skip..] == Flatten(parts[1..])[skip - |parts[0]|..]
    ensures skip < |parts[0]| ==> Flatten(parts)[skip..] == parts[0][skip..] + Flatten(parts[1..])
  {
  }

  /** ":path" */
  const PATH_NAME: seq<byte> := [0x3A, 0x70, 0x61, 0x74, 0x68]
  /** "grpc-timeout" */
  const TIMEOUT_NAME: seq<byte> := [0x67, 0x72, 0x70, 0x63, 0x2D, 0x74, 0x69, 0x6D, 0x65, 0x6F, 0x75, 0x74]

  datatype HeaderKind = Path | Timeout | Other

  function KindOf(name: seq<byte>): (k: HeaderKind)
    ensures name == PATH_NAME <==> k.Path?
    ensures name == TIMEOUT_NAME <==> k.Timeout?
  {
    assert |PATH_NAME| != |TIMEOUT_NAME|;
    if name == PATH_NAME then Path else if name == TIMEOUT_NAME then Timeout else Other
  }

  /** What a header makes of the call. */
  predicate Heard(was: StreamCtx, name: seq<byte>, value: seq<byte>, now: nat, s: StreamCtx) {
    if name == Ascii(":path") then s == was.(path := was.path + value)
    else if name == Ascii("grpc-timeout") then
      && s == was.(deadlineMs := s.deadlineMs)
      && (s.deadlineMs.Some? <==> Timeouts.Timeout(value))
      && (s.deadlineMs.Some? ==>
            var wait := s.deadlineMs.value - now;
            1 <= wait && Timeouts.WireNanos(value) <= wait * 1_000_000 <= Timeouts.WireNanos(value) + 1_000_000)
    else s == was
  }

  lemma HeaderNames()
    ensures PATH_NAME == Ascii(":path") && TIMEOUT_NAME == Ascii("grpc-timeout")
  {
  }

  lemma DeadlineCovers(value: seq<byte>, now: nat)
    ensures var t := Timeouts.ParsedMs(value);
            && (t.Some? <==> Timeouts.Timeout(value))
            && (t.Some? ==> 1 <= t.value)
            && (t.Some? ==> Timeouts.WireNanos(value) <= t.value * 1_000_000 <= Timeouts.WireNanos(value) + 1_000_000)
  {
    if Timeouts.Timeout(value) { Timeouts.DeadlineIsTight(value); }
  }

  lemma SwapRemovesOne<T>(s: seq<T>, k: nat)
    requires k < |s|
    ensures multiset(SwapRemove(s, k)) == multiset(s) - multiset{s[k]}
  {
    var n := |s| - 1;
    assert s == s[..n] + [s[n]];
    if k < n {
      assert s[..n] == s[..k] + [s[k]] + s[k + 1..n];
      assert SwapRemove(s, k) == s[..k] + [s[n]] + s[k + 1..n];
    } else {
      assert SwapRemove(s, k) == s[..n];
    }
  }

  /** What a write is answered, and why. */
  predicate ReplyMeans(q: Queue, body: seq<byte>, reply: Reply) {
    var bp := q.backpressure;
    var full := bp.Bounded? && bp.policy == Reject && UnstartedCount(q) >= bp.capacity;
    && (reply == StreamFinished <==> q.finished)
    && (reply == QueueFull <==> !q.finished && (|body| > 0xFFFF_FFFF || full))
  }

  lemma NoFrame(st: ConnState, id: int, act: Act)
    ensures PeerMayOn(st, id, Call(act))
  {
  }

  lemma RepliesMean(s: StreamCtx, body: seq<byte>)
    ensures ReplyMeans(s.out.q, body, WriteReply(s, body))
  {
  }

  /** The first finish counts: its status, and its text if that is not empty; a waiting response is resumed. */
  predicate FinishMeans(was: StreamCtx, status: GrpcStatus, message: Option<seq<byte>>, s: StreamCtx) {
    var q, q' := was.out.q, s.out.q;
    var text := message.Some? && message.value != [];
    && q'.finished && q'.messages == q.messages
    && q'.finalStatus == (if q.finished then q.finalStatus else status)
    && q'.finalMessage == (if q.finished || !text then q.finalMessage else Some(Percent.Encoded(message.value)))
    && !(s.state == Dispatched && q.responseStarted && s.provider.Deferred?)
  }

  lemma FinishIs(s: StreamCtx, status: GrpcStatus, message: Option<seq<byte>>)
    ensures FinishMeans(s, status, message, Finished(s, status, message))
  {
    hide Percent.Encoded;
  }

  /** The handler of a call returned `rc`; `taken` says whether nghttp2 took the response. */
  predicate CameBack(was: StreamCtx, rc: int, taken: bool, s: StreamCtx) {
    && s.state == (if was.out.q.responseStarted || taken then Dispatched else Cancelled)
    && (s.out.q.responseStarted <==> was.out.q.responseStarted || taken)
    && (s.out.q.finished <==> was.out.q.finished || rc != 0)
    && (rc != 0 && !was.out.q.finished ==> s.out.q.finalStatus == if 1 <= rc <= 16 then rc else 2)
  }

  lemma ReturnIs(s: StreamCtx, rc: int, taken: bool)
    ensures CameBack(s, rc, taken, Launched(HandlerReturned(s, rc), taken))
  {
    CodeStatus(rc);
    hide StatusFromI32;
  }

  /** Which way a read goes, and what becomes of the response when there is nothing to copy. */
  predicate ReadMeans(q: Queue, window: nat, direct: bool, r: ReadResult, p: Provider)
    requires WellFormed(q)
  {
    && (r.InPlace? <==> direct && FrontRemaining(q) >= 4096)
    && (r.EndOfData? ==>
          && q.finished && p.Done? && p.status == q.finalStatus
          && p.message == if q.finalMessage.Some? && q.finalMessage.value != [] then q.finalMessage else None)
    && (r.Pause? ==> !q.finished && p.Deferred?)
    && ((r.EndOfData? || r.Pause?) && window > 0 ==> Pending(q) == [])
  }

  lemma ReadIs(s: StreamCtx, window: nat, direct: bool)
    requires WellFormed(s.out.q)
    ensures ReadMeans(s.out.q, window, direct, ReadResultOf(s, window, direct), AfterRead(s, window, direct).provider)
  {
    hide Pending, Drained, WellFormed, FrontRemaining, Promised;
  }

  /** The call of this id, if there is one, leaves the list, and its hook fires if the code is not zero. */
  ghost predicate Leaves(st: ConnState, id: int, errorCode: nat, r: ConnState) {
    var k := IndexOf(st.streams, id);
    if k == |st.streams| then r == st
    else
      var s := st.streams[k];
      && multiset(r.streams) == multiset(st.streams) - multiset{s} && r.gone == st.gone + [s]
      && r.fired == st.fired + if errorCode != 0 && s.cancelHook.Some? then [s.cancelHook.value] else []
  }

  lemma ClosesOne(st: ConnState, id: int, errorCode: nat)
    ensures Leaves(st, id, errorCode, StreamClosed(st, id, errorCode))
  {
    hide SwapRemove;
    var k := IndexOf(st.streams, id);
    if k < |st.streams| { SwapRemovesOne(st.streams, k); }
  }

  class Conn {
    var streams: seq<StreamCtx>
    var methods: seq<MethodEntry>
    var maxMessageLen: nat
    var fd: int
    var outPending: seq<byte>
    var promise: Option<SendPromise>
    var socket: seq<byte>
    var log: seq<WireFrame>
    var gone: seq<StreamCtx>
    var nextHook: nat
    var fired: seq<nat>
    var invoked: seq<Invocation>

    function Snapshot(): ConnState
      reads this
    {
      ConnState(streams, methods, maxMessageLen, fd, outPending, promise, socket, log, gone, nextHook, fired, invoked)
    }

    constructor (methods: seq<MethodEntry>, maxMessageLen: nat, fd: int)
      ensures Snapshot() == Fresh(methods, maxMessageLen, fd)
    {
      this.streams, this.methods, this.maxMessageLen, this.fd := [], methods, maxMessageLen, fd;
      outPending, promise, socket, log, gone := [], None, [], [], [];
      nextHook, fired, invoked := 0, [], [];
    }

    // ---- receive callbacks ----

    /** The new call is found by its id and has asked for nothing yet; every other is as before. */
    method OnBeginHeaders(id: int)
      modifies this`streams
      ensures Snapshot() == Opened(old(Snapshot()), id)
      ensures old(Core(Snapshot())) && !Knows(old(streams + gone), id) ==> Core(Snapshot())
      ensures |streams| == |old(streams)| + 1 && streams[..|old(streams)|] == old(streams)
      ensures var s := streams[|old(streams)|];
              && s.id == id && s.state == HeadersIn && s.request == [] && s.path == []
              && s.deadlineMs == None && s.cancelHook == None && s.provider.Unsubmitted?
              && s.out.q.messages == [] && !s.out.q.finished && s.out.q.backpressure == Unbounded
      ensures var n := |old(streams)|;
              && (IndexOf(old(streams), id) == n ==> IndexOf(streams, id) == n)
              && forall other :: other != id ==>
                   if IndexOf(old(streams), other) < n then IndexOf(streams, other) == IndexOf(old(streams), other)
                   else IndexOf(streams, other) == |streams|
    {
      if Core(Snapshot()) && !Knows(streams + gone, id) { OpenKeeps(Snapshot(), id); }
      forall other { LookupAppended(streams, NewStream(id), other); }
      hide Core, IndexOf;
      streams := streams + [NewStream(id)];
    }

    /**
     * The path is what was received. A deadline is at least the duration on the wire away and at most
     * a millisecond more; a malformed timeout leaves the call without one. Other headers are ignored.
     */
    method OnHeader(id: int, name: seq<byte>, value: seq<byte>, now: nat)
      modifies this`streams
      ensures Snapshot() == match KindOf(name)
                            case Path => OnStream(old(Snapshot()), id, PathHeader(value))
                            case Timeout => OnStream(old(Snapshot()), id, TimeoutHeader(value, now))
                            case Other => old(Snapshot())
      ensures old(Core(Snapshot())) ==> Core(Snapshot())
      ensures var k := IndexOf(old(streams), id);
              && |streams| == |old(streams)|
              && (forall i :: 0 <= i < |streams| && i != k ==> streams[i] == old(streams)[i])
              && (k < |streams| ==> Heard(old(streams)[k], name, value, now, streams[k]))
    {
      hide Core, Timeouts.ParsedMs, Timeouts.WireNanos, Timeouts.Timeout, KindOf;
      HeaderNames();
      if Core(Snapshot()) {
        OnStreamKeeps(Snapshot(), id, PathHeader(value));
        OnStreamKeeps(Snapshot(), id, TimeoutHeader(value, now));
      }
      var k := IndexOf(streams, id);
      if k == |streams| {
        return;
      }
      hide IndexOf;
      match KindOf(name) {
        case Path => streams := streams[k := streams[k].(path := streams[k].path + value)];
        case Timeout =>
          DeadlineCovers(value, now);
          var t := Timeouts.ParseGrpcTimeoutMs(value);
          streams := streams[k := streams[k].(deadlineMs := if t.Some? then Some(now + t.value) else None)];
        case Other =>
      }
    }

    /** A frame that ends a request adds one to what the next pass takes up; no other frame does. */
    method OnFrameRecv(id: int, headers: bool, endStream: bool)
      modifies this`streams
      ensures Snapshot() == OnStream(old(Snapshot()), id, FrameRecv(headers, endStream))
      ensures var k := IndexOf(old(streams), id);
              && |streams| == |old(streams)|
              && (forall i :: 0 <= i < |streams| && i != k ==> streams[i] == old(streams)[i])
              && (k < |streams| && endStream ==> streams[k].state == Complete && streams[k].endStream)
              && (k < |streams| && !endStream && headers ==> streams[k].state == BodyIn)
              && (k < |streams| && !endStream && !headers ==> streams[k] == old(streams)[k])
      ensures old(Core(Snapshot())) && PeerMayOn(old(Snapshot()), id, FrameRecv(headers, endStream)) ==>
                && Core(Snapshot())
                && CompleteFrom(streams, 0) ==
                   CompleteFrom(old(streams), 0) + if endStream && IndexOf(old(streams), id) < |old(streams)| then 1 else 0
    {
      if Core(Snapshot()) && PeerMayOn(Snapshot(), id, FrameRecv(headers, endStream)) {
        OnStreamKeeps(Snapshot(), id, FrameRecv(headers, endStream));
        FrameCounts(Snapshot(), id, headers, endStream);
      }
      hide Core, CompleteFrom, PeerMay;
      var k := IndexOf(streams, id);
      if k < |streams| {
        if endStream {
          streams := streams[k := streams[k].(state := Complete, endStream := true)];
        } else if headers {
          streams := streams[k := streams[k].(state := BodyIn)];
        }
      }
    }

    /**
     * `failed` is the callback failure that ends the session when a request outgrows the limit;
     * otherwise the request is what it was followed by `data`, and no other call is touched.
     */
    method OnDataChunkRecv(id: int, data: seq<byte>) returns (failed: bool)
      modifies this`streams
      ensures Snapshot() == OnStream(old(Snapshot()), id, DataChunk(data, maxMessageLen))
      ensures var k := IndexOf(old(streams), id);
              failed <==> k < |old(streams)| && |old(streams)[k].request| + |data| > maxMessageLen
      ensures failed ==> streams == old(streams)
      ensures var k := IndexOf(old(streams), id);
              && |streams| == |old(streams)|
              && (forall i :: 0 <= i < |streams| && i != k ==> streams[i] == old(streams)[i])
              && (!failed && k < |streams| ==>
                    streams[k] == old(streams)[k].(request := old(streams)[k].request + data))
      ensures forall i :: 0 <= i < |streams| && |old(streams)[i].request| <= maxMessageLen ==>
                |streams[i].request| <= maxMessageLen
    {
      var k := IndexOf(streams, id);
      if k == |streams| {
        return false;
      }
      if |streams[k].request| + |data| > maxMessageLen {
        return true;
      }
      streams := streams[k := streams[k].(request := streams[k].request + data)];
      return false;
    }

    /** The one call leaves the list; its hook fires exactly if the code is not zero and it has one. */
    method OnStreamClose(id: int, errorCode: nat)
      modifies this`streams, this`gone, this`fired
      ensures Snapshot() == StreamClosed(old(Snapshot()), id, errorCode)
      ensures Leaves(old(Snapshot()), id, errorCode, Snapshot())
    {
      hide Leaves;
      ClosesOne(Snapshot(), id, errorCode);
      var k := IndexOf(streams, id);
      if k < |streams| {
        var s := streams[k];
        streams := streams[k := streams[|streams| - 1]][..|streams| - 1];
        gone := gone + [s];
        if errorCode != 0 {
          if s.cancelHook.Some? {
            fired := fired + [s.cancelHook.value];
          }
        }
      }
    }

    /** Feeds the callbacks what nghttp2 made of received bytes; the first failure ends the session. */
    method Recv(evs: seq<ConnRuns.Event>) returns (failed: bool)
      requires forall i :: 0 <= i < |evs| ==> ConnRuns.FromPeer(evs[i], maxMessageLen)
      modifies this`streams, this`gone, this`fired
      ensures ConnRuns.Receipt(Snapshot(), failed) == ConnRuns.Received(old(Snapshot()), evs)
    {
      hide OnStream, Opened, StreamClosed, Core;
      for j := 0 to |evs|
        invariant maxMessageLen == old(maxMessageLen)
        invariant ConnRuns.Received(Snapshot(), evs[j..]) == ConnRuns.Received(old(Snapshot()), evs)
      {
        assert evs[j..][1..] == evs[j + 1..] && ConnRuns.FromPeer(evs[j], maxMessageLen);
        match evs[j] {
          case Open(id) => OnBeginHeaders(id);
          case Close(id, errorCode) => OnStreamClose(id, errorCode);
          case OnCallOf(id, PathHeader(value)) => OnHeader(id, PATH_NAME, value, 0);
          case OnCallOf(id, TimeoutHeader(value, now)) => OnHeader(id, TIMEOUT_NAME, value, now);
          case OnCallOf(id, FrameRecv(headers, endStream)) => OnFrameRecv(id, headers, endStream);
          case OnCallOf(id, DataChunk(data, maxLen)) =>
            var bad := OnDataChunkRecv(id, data);
            if bad {
              return true;
            }
        }
      }
      return false;
    }

    // ---- the application's calls ----

    /** Ok means the message is on record and the stream is not left waiting; any other reply, that nothing changed. */
    method WriteCall(id: int, body: seq<byte>) returns (reply: Reply)
      requires Core(Snapshot())
      modifies this`streams
      ensures Snapshot() == OnStream(old(Snapshot()), id, Call(Write(body))) && Core(Snapshot())
      ensures var k := IndexOf(old(streams), id);
              reply == if k == |old(streams)| then StreamNotFound else WriteReply(old(streams)[k], body)
      ensures var k := IndexOf(old(streams), id);
              k < |old(streams)| ==> ReplyMeans(old(streams)[k].out.q, body, reply)
      ensures var k := IndexOf(old(streams), id);
              reply == Ok ==> k < |streams| == |old(streams)| && !streams[k].provider.Deferred?
                              && streams[k].out.accepted == old(streams)[k].out.accepted + [body]
      ensures reply != Ok ==> streams == old(streams)
    {
      hide Core, Recorded, Enqueued, WellFormed, StreamOk, Accepts, ReplyMeans, UnstartedCount, PeerMay;
      OnStreamKeeps(Snapshot(), id, Call(Write(body))) by { NoFrame(Snapshot(), id, Write(body)); }
      var k := IndexOf(streams, id);
      if k == |streams| {
        return StreamNotFound;
      }
      StreamAt(Snapshot(), k);
      StreamIsWellFormed(streams[k]);
      RepliesMean(streams[k], body);
      var s := streams[k];
      if s.out.q.finished {
        return StreamFinished;
      }
      var queue := new OutQueue.Load(s.out.q);
      var accepted := queue.EnqueueOwned(body);
      if !accepted {
        return QueueFull;
      }
      s := s.(out := Recorded(s.out, body, queue.Model()));
      RecordedKeeps(s.out, streams[k].out, body, queue.Model());
      if s.state == Dispatched && s.out.q.responseStarted {
        if s.provider.Deferred? { s := s.(provider := Active); }
      }
      streams := streams[k := s];
      return Ok;
    }

    /** The first finish counts: it sets the status, and a text that is not empty; a later one changes neither. */
    method FinishCall(id: int, status: GrpcStatus, message: Option<seq<byte>>) returns (reply: Reply)
      modifies this`streams
      ensures Snapshot() == OnStream(old(Snapshot()), id, Call(Finish(status, message)))
      ensures old(Core(Snapshot())) ==> Core(Snapshot())
      ensures reply == if IndexOf(old(streams), id) == |old(streams)| then StreamNotFound else Ok
      ensures |streams| == |old(streams)|
      ensures var k := IndexOf(old(streams), id);
              reply == Ok ==> FinishMeans(old(streams)[k], status, message, streams[k])
    {
      if Core(Snapshot()) { OnStreamKeeps(Snapshot(), id, Call(Finish(status, message))); }
      hide Core, FinishMeans;
      var k := IndexOf(streams, id);
      if k == |streams| {
        return StreamNotFound;
      }
      var s := streams[k];
      FinishIs(s, status, message);
      if !s.out.q.finished {
        var text := s.out.q.finalMessage;
        if message.Some? && message.value != [] {
          var encoded := Percent.EncodeMessage(message.value);
          text := Some(encoded);
        }
        s := WithQueue(s, s.out.q.(finished := true, finalStatus := status, finalMessage := text));
      }
      if s.state == Dispatched && s.out.q.responseStarted {
        if s.provider.Deferred? { s := s.(provider := Active); }
      }
      streams := streams[k := s];
      return Ok;
    }

    /** Changes what later writes meet, and nothing already queued on any call. */
    method SetStreamPolicy(id: int, bp: Backpressure) returns (reply: Reply)
      modifies this`streams
      ensures Snapshot() == OnStream(old(Snapshot()), id, Call(Policy(bp)))
      ensures old(Core(Snapshot())) ==> Core(Snapshot())
      ensures reply == if IndexOf(old(streams), id) == |old(streams)| then StreamNotFound else Ok
      ensures |streams| == |old(streams)| && forall i :: 0 <= i < |streams| ==>
                && streams[i].out.q.messages == old(streams)[i].out.q.messages
                && streams[i].out.survivors == old(streams)[i].out.survivors
                && (streams[i].id != id ==> streams[i] == old(streams)[i])
    {
      if Core(Snapshot()) { OnStreamKeeps(Snapshot(), id, Call(Policy(bp))); }
      hide Core;
      var k := IndexOf(streams, id);
      if k == |streams| {
        return StreamNotFound;
      }
      streams := streams[k := WithQueue(streams[k], streams[k].out.q.(backpressure := bp))];
      return Ok;
    }

    /** The hook is one that never fired and no other call holds; the one it replaces can fire no more. */
    method SetCancelHook(id: int) returns (reply: Reply)
      modifies this`streams, this`nextHook
      ensures Snapshot() == HookSet(old(Snapshot()), id)
      ensures reply == if IndexOf(old(streams), id) == |old(streams)| then StreamNotFound else Ok
      ensures old(Core(Snapshot())) ==> Core(Snapshot())
      ensures var k := IndexOf(old(streams), id);
              old(Core(Snapshot())) && reply == Ok ==>
                && k < |streams| == |old(streams)| && streams[k].cancelHook.Some? && streams[k].cancelHook.value !in fired
                && (forall i :: 0 <= i < |streams| && i != k ==> streams[i].cancelHook != streams[k].cancelHook)
                && (old(streams)[k].cancelHook.Some? ==>
                      && old(streams)[k].cancelHook.value !in fired
                      && forall i :: 0 <= i < |streams| ==> streams[i].cancelHook != old(streams)[k].cancelHook)
    {
      if Core(Snapshot()) {
        HookSetKeeps(Snapshot(), id);
        HookIsNew(Snapshot(), id);
      }
      hide Core;
      var k := IndexOf(streams, id);
      if k == |streams| {
        return StreamNotFound;
      }
      streams := streams[k := streams[k].(cancelHook := Some(nextHook))];
      nextHook := nextHook + 1;
      return Ok;
    }

    // ---- dispatch ----

    /** The handler body: the calls it makes on the connection while it runs. */
    method RunHandler(ops: seq<CallOp>)
      requires Core(Snapshot())
      modifies this`streams, this`nextHook
      ensures Snapshot() == ApplyOps(old(Snapshot()), ops) && Core(Snapshot())
    {
      hide OnStream, HookSet, Core;
      for j := 0 to |ops|
        invariant Core(Snapshot())
        invariant ApplyOps(Snapshot(), ops[j..]) == ApplyOps(old(Snapshot()), ops)
      {
        assert ops[j..][1..] == ops[j + 1..];
        var reply;
        match ops[j] {
          case OnCall(id, Write(body)) => reply := WriteCall(id, body);
          case OnCall(id, Finish(status, message)) => reply := FinishCall(id, status, message);
          case OnCall(id, Policy(bp)) => reply := SetStreamPolicy(id, bp);
          case SetHook(id) => reply := SetCancelHook(id);
        }
      }
    }

    /** `taken` is nghttp2's answer: a response it did not take leaves the call unstarted. */
    method SubmitResponseFor(id: int, taken: bool)
      modifies this`streams
      ensures var k := IndexOf(old(streams), id);
              Snapshot() == if k < |old(streams)| then Put(old(Snapshot()), k, Submitted(old(streams)[k], taken))
                            else old(Snapshot())
      ensures var k := IndexOf(old(streams), id);
              old(Core(Snapshot())) && AwaitsResponse(old(streams), k) ==>
                && Core(Snapshot()) && k < |streams|
                && (streams[k].out.q.responseStarted <==> taken) && (streams[k].provider.Active? <==> taken)
    {
      var k := IndexOf(streams, id);
      if Core(Snapshot()) && AwaitsResponse(streams, k) { SubmittedKeeps(Snapshot(), k, taken); }
      hide Core, IndexOf, AwaitsResponse;
      if taken {
        if k < |streams| {
          streams := streams[k := WithQueue(streams[k], streams[k].out.q.(responseStarted := true)).(provider := Active)];
        }
      }
    }

    /** Ends a call without a handler: the status is stamped over whatever was there, the response submitted. */
    method Refuse(i: nat, status: GrpcStatus, taken: bool)
      requires i < |streams| && IndexOf(streams, streams[i].id) == i
      modifies this`streams
      ensures Snapshot() == Put(old(Snapshot()), i, Submitted(FinalizedError(old(streams)[i], status), taken))
      ensures old(Core(Snapshot())) && old(streams)[i].state == Complete ==> Core(Snapshot())
    {
      hide IndexOf, Core, Submitted, AwaitsResponse;
      if Core(Snapshot()) && streams[i].state == Complete { RefusalKeeps(Snapshot(), i, status, taken); }
      streams := streams[i := FinalizedError(streams[i], status)];
      SamePlace(old(streams), streams, streams[i].id);
      SubmitResponseFor(streams[i].id, taken);
    }

    /** A complete request goes to the handler the table gives it, or ends with code 12 or 13. */
    method DispatchStream(i: nat, h: Handlers, submits: int -> bool) returns (counted: bool)
      requires Core(Snapshot()) && i < |streams|
      modifies this`streams, this`nextHook, this`invoked
      ensures Snapshot() == DispatchedOne(old(Snapshot()), i, h, submits)
      ensures |streams| == |old(streams)| && AnsweredAs(old(Snapshot()), i, Snapshot())
      ensures counted <==> old(streams)[i].state == Complete
    {
      hide AnsweredAs;
      StepAnswers(Snapshot(), i, h, submits);
      if streams[i].state != Complete {
        return false;
      }
      FoundAtHome(Snapshot(), i);
      hide Core, IndexOf, HandlerRun, Submitted, FinalizedError, FindMethod, DecodeHeader;
      counted := true;
      var id := streams[i].id;
      var header := DecodeHeader(streams[i].request, maxMessageLen);
      if header.Bad? || |streams[i].request| < FRAME_HEADER_LEN + header.header.payloadLen {
        Refuse(i, STATUS_INTERNAL, submits(id));
        return;
      }
      var resolved := FindMethod(methods, streams[i].path);
      if resolved.None? {
        Refuse(i, STATUS_UNIMPLEMENTED, submits(id));
        return;
      }
      var payload := streams[i].request[FRAME_HEADER_LEN..FRAME_HEADER_LEN + header.header.payloadLen];
      InvokeHandler(i, resolved.value, payload, h, submits);
    }

    method InvokeHandler(i: nat, m: MethodEntry, payload: seq<byte>, h: Handlers, submits: int -> bool)
      requires Core(Snapshot()) && i < |streams|
      modifies this`streams, this`nextHook, this`invoked
      ensures Snapshot() == HandlerRun(old(Snapshot()), i, m, payload, h, submits)
    {
      hide ApplyOps, StatusFromI32, Core, WithMethodPolicy;
      var id := streams[i].id;
      PolicyKeeps(Snapshot(), i, m);
      if m.backpressure.Some? {
        streams := streams[i := WithQueue(streams[i], streams[i].out.q.(backpressure := m.backpressure.value))];
      }
      assert streams[i] == WithMethodPolicy(old(streams)[i], m) by { PolicyIs(old(streams)[i], m); }
      assert Snapshot() == Put(old(Snapshot()), i, WithMethodPolicy(old(streams)[i], m));
      var out := h(m.handler, id, payload);
      RunHandler(out.ops);
      ghost var after := Snapshot();
      HandlerOpsKeep(old(Snapshot()), i, m, out.ops);
      FoundAtHome(after, i);
      invoked := invoked + [Invocation(id, m.handler, payload)];
      HandlerCameBack(i, out.rc, submits(id));
    }

    /** The handler's code finishes a call it left open, and the response is submitted if it was not. */
    method HandlerCameBack(i: nat, rc: int, taken: bool)
      requires i < |streams| && IndexOf(streams, streams[i].id) == i
      modifies this`streams
      ensures |streams| == |old(streams)|
      ensures CameBack(old(streams)[i], rc, taken, streams[i])
      ensures Snapshot() == Put(old(Snapshot()), i, Launched(HandlerReturned(old(streams)[i], rc), taken))
    {
      hide StatusFromI32, IndexOf, CameBack;
      ReturnIs(streams[i], rc, taken);
      var s := streams[i];
      s := s.(state := Dispatched);
      if rc != 0 && !s.out.q.finished {
        s := WithQueue(s, s.out.q.(finished := true, finalStatus := StatusFromI32(rc)));
      }
      assert s == HandlerReturned(streams[i], rc);
      hide HandlerReturned;
      streams := streams[i := s];
      if !s.out.q.responseStarted {
        SamePlace(old(streams), streams, s.id);
        SubmitResponseFor(s.id, taken);
        if !taken {
          streams := streams[i := s.(state := Cancelled)];
        }
      }
    }

    /** One pass; says how many requests it took up. */
    method Dispatch(h: Handlers, submits: int -> bool) returns (count: nat)
      requires Core(Snapshot())
      modifies this`streams, this`nextHook, this`invoked
      ensures Snapshot() == DispatchedFrom(old(Snapshot()), 0, h, submits)
      ensures Core(Snapshot()) && NoneCompleteBelow(streams, |streams|)
      ensures count == CompleteFrom(old(streams), 0)
    {
      hide Core, DispatchedOne, CompleteFrom;
      count := 0;
      ghost var st0 := Snapshot();
      for i := 0 to |streams|
        invariant |streams| == |st0.streams| && Core(Snapshot()) && NoneCompleteBelow(streams, i)
        invariant DispatchedFrom(Snapshot(), i, h, submits) == DispatchedFrom(st0, 0, h, submits)
        invariant count + CompleteFrom(streams, i) == CompleteFrom(st0.streams, 0)
      {
        ghost var was := Snapshot();
        DispatchOneKeeps(was, i, h, submits);
        var counted := DispatchStream(i, h, submits);
        SameComplete(was.streams, streams, i);
        if counted {
          count := count + 1;
        }
      }
      NoMoreComplete(streams);
    }

    // ---- deadlines ----

    /** First phase: disarm due streams, fire their hooks, note their ids, until the batch is full. */
    method CollectDue(now: nat, expired: array<int>) returns (n: nat)
      requires expired.Length == EXPIRE_BATCH
      modifies this`streams, this`fired, expired
      ensures n <= expired.Length && expired[..n] == DueIds(old(streams), EXPIRE_BATCH, now)
      ensures streams == Marks(old(streams), EXPIRE_BATCH, now)
      ensures fired == old(fired) + SweptHooks(old(streams), EXPIRE_BATCH, now)
    {
      hide Marking, Marks, DueIds, SweptHooks;
      n := 0;
      var i := 0;
      ghost var streams0, fired0 := streams, fired;
      MarkingStart(streams0, fired0, now);
      while i < |streams| && n != expired.Length
        invariant i <= |streams| == |streams0| && n <= EXPIRE_BATCH
        invariant forall j :: i <= j < |streams| ==> streams[j] == streams0[j]
        invariant Marking(streams0, fired0, i, streams[..i], expired[..n], fired, now)
      {
        var s := streams[i];
        ghost var done, ids, hooks := streams[..i], expired[..n], fired;
        MarkingStep(streams0, fired0, i, done, ids, hooks, now);
        if s.state == Dispatched && !s.out.q.finished && s.deadlineMs.Some? && s.deadlineMs.value <= now {
          streams := streams[i := s.(deadlineMs := None, cancelHook := None)];
          if s.cancelHook.Some? {
            fired := fired + [s.cancelHook.value];
          }
          assert fired == hooks + HookOf(s);
          expired[n] := s.id;
          n := n + 1;
          assert expired[..n] == ids + [s.id];
        }
        i := i + 1;
        assert streams[..i] == done + [streams[i - 1]];
      }
      MarkingEnd(streams0, fired0, i, streams[..i], expired[..n], fired, now);
      assert streams == streams[..i] + streams0[i..];
    }

    /** Disarm and collect up to eight due streams, then finish each by its id; `SweepEnds` says what that comes to. */
    method ExpireDeadlines(now: nat)
      requires IdsOk(streams)
      modifies this`streams, this`fired
      ensures Snapshot() == DeadlinesExpired(old(Snapshot()), now)
    {
      hide Finished, Marks, DueIds, SweptHooks, Swept;
      var expired := new int[EXPIRE_BATCH];
      var n := CollectDue(now, expired);
      FinishExpired(expired[..n]);
      ghost var streams0 := old(streams);
      TwoPhases([], streams0, EXPIRE_BATCH, now) by { assert [] + streams0 == streams0; }
      assert [] + Marks(streams0, EXPIRE_BATCH, now) == Marks(streams0, EXPIRE_BATCH, now);
      assert [] + Swept(streams0, EXPIRE_BATCH, now) == Swept(streams0, EXPIRE_BATCH, now);
    }

    method FinishExpired(ids: seq<int>)
      modifies this`streams
      ensures streams == FinishAll(old(streams), ids)
    {
      hide Finished;
      for j := 0 to |ids|
        invariant FinishAll(streams, ids[j..]) == FinishAll(old(streams), ids)
      {
        assert ids[j..][1..] == ids[j + 1..];
        var _ := FinishCall(ids[j], STATUS_DEADLINE_EXCEEDED, Some(DEADLINE_MESSAGE));
      }
    }

    // ---- output ----

    /**
     * The read callback for the stream at `k`. A large head is promised and stays put; otherwise
     * bytes are copied out of the queue, and with none to copy the response ends or waits.
     */
    method DataProviderRead(k: nat, window: nat) returns (r: ReadResult)
      requires k < |streams| && WellFormed(streams[k].out.q)
      modifies this`streams
      ensures r == ReadResultOf(old(streams)[k], window, fd >= 0)
      ensures Snapshot() == Put(old(Snapshot()), k, AfterRead(old(streams)[k], window, fd >= 0))
      ensures r.Copied? ==> streams[k].out.shipped == old(streams)[k].out.shipped + r.bytes && 0 < |r.bytes| <= window
      ensures r.InPlace? ==> streams[k].out.shipped == old(streams)[k].out.shipped && r.length <= window
      ensures |streams| == |old(streams)| && forall i :: 0 <= i < |streams| && i != k ==> streams[i] == old(streams)[i]
      ensures ReadMeans(old(streams)[k].out.q, window, fd >= 0, r, streams[k].provider)
    {
      hide Pending, Drained, WellFormed, FrontRemaining, Promised, ReadMeans;
      ReadIs(streams[k], window, fd >= 0);
      var s := streams[k];
      var queue := new OutQueue.Load(s.out.q);
      var left := queue.FrontLeft();
      if fd >= 0 && left >= NOCOPY_MIN {
        var n := queue.PromiseFront(window);
        streams := streams[k := WithQueue(s, queue.Model())];
        return InPlace(n);
      }
      var buf := new byte[window];
      var n := queue.DrainInto(buf);
      s := s.(out := s.out.(q := queue.Model(), shipped := s.out.shipped + buf[..n]));
      if n > 0 {
        streams := streams[k := s];
        return Copied(buf[..n]);
      }
      var q := streams[k].out.q;
      if q.finished {
        var text := if q.finalMessage.Some? && q.finalMessage.value != [] then q.finalMessage else None;
        streams := streams[k := s.(provider := Done(q.finalStatus, text))];
        return EndOfData;
      }
      streams := streams[k := s.(provider := Deferred)];
      return Pause;
    }

    /** What a scatter write of three pieces left unsent, whichever pieces the cut falls in. */
    method UnsentTail(hd: seq<byte>, a: seq<byte>, b: seq<byte>, sent: nat) returns (rest: seq<byte>)
      requires sent <= |hd| + |a| + |b|
      ensures rest == (hd + (a + b))[sent..]
    {
      var parts := [hd, a, b];
      var skip: nat := sent;
      rest := [];
      ThreeParts(hd, a, b);
      for j := 0 to |parts|
        invariant skip <= |Flatten(parts[j..])|
        invariant rest + Flatten(parts[j..])[skip..] == (hd + (a + b))[sent..]
      {
        hide Flatten;
        SkipPart(parts[j..], skip);
        assert parts[j..][1..] == parts[j + 1..] && parts[j..][0] == parts[j];
        if skip >= |parts[j]| {
          skip := skip - |parts[j]|;
        } else {
          Assoc(rest, parts[j][skip..], Flatten(parts[j + 1..]));
          rest := rest + parts[j][skip..];
          skip := 0;
        }
      }
      assert Flatten(parts[3..]) == [];
    }

    /** One scatter write of header and both parts of the payload; what did not fit is kept. */
    method WriteFrame(hd: seq<byte>, a: seq<byte>, b: seq<byte>, room: nat) returns (whole: bool)
      modifies this`socket, this`outPending
      ensures var frame := hd + (a + b);
              && (whole <==> |frame| <= room)
              && socket == old(socket) + Take(frame, room) && outPending == frame[Min(room, |frame|)..]
    {
      var frame := hd + (a + b);
      var n := Min(room, |frame|);
      outPending := UnsentTail(hd, a, b, n);
      socket := socket + frame[..n];
      whole := n == |frame|;
    }

    /** The promised bytes leave the stream's queue. */
    method ConsumePromised(k: nat, queue: OutQueue, n: nat, bytes: seq<byte>)
      requires k < |streams| && queue.Valid() && queue.Model() == streams[k].out.q
      requires bytes == FrontBytes(queue.Model(), n)
      modifies this`streams, queue
      ensures streams == old(streams)[k := old(streams)[k].(out := TConsume(old(streams)[k].out, n))]
    {
      hide WellFormed, FrontBytes, Consumed;
      queue.ConsumeFront(n);
      var s := streams[k];
      streams := streams[k := s.(out := s.out.(q := queue.Model(), shipped := s.out.shipped + bytes))];
    }

    /** Whole or not, the frame counts as sent. */
    method ShipFrame(k: nat, p: SendPromise, queue: OutQueue, a: seq<byte>, b: seq<byte>, room: nat) returns (whole: bool)
      requires k < |streams| && queue.Valid() && queue.Model() == streams[k].out.q
      requires a + b == FrontBytes(queue.Model(), p.length) && |a + b| == p.length
      modifies this`streams, this`promise, this`socket, this`outPending, this`log, queue
      ensures whole <==> |p.hd| + p.length <= room
      ensures Snapshot() == FrameSent(old(Snapshot()), k, p, a + b, room)
    {
      hide WellFormed, FrontBytes, TConsume, Take, Min;
      whole := WriteFrame(p.hd, a, b, room);
      ConsumePromised(k, queue, p.length, a + b);
      promise := None;
      log := log + [Data(p.id, p.hd, a + b)];
    }

    /** The send-data callback: one DATA frame straight to a socket that takes `room` bytes. */
    method SendData(room: nat) returns (r: SendResult)
      requires Core(Snapshot()) && promise.Some?
      modifies this`streams, this`promise, this`socket, this`outPending, this`log
      ensures r == SendResultOf(old(Snapshot()), room)
      ensures Snapshot() == AfterSend(old(Snapshot()), room)
      ensures r.Sent? || r.Paused? ==>
                log == old(log) + [Data(old(promise).value.id, old(promise).value.hd, old(promise).value.bytes)]
    {
      if fd < 0 || outPending != [] {
        return WouldBlock;
      }
      var p := promise.value;
      var k := IndexOf(streams, p.id);
      if k == |streams| {
        promise := None;
        return StreamGone;
      }
      HeldPromise(Snapshot(), room);
      hide Core, WellFormed, FrontBytes, TConsume;
      var queue := new OutQueue.Load(streams[k].out.q);
      var a, b := queue.FrontRegions(p.length);
      if |a| + |b| != p.length {
        assert false;
      }
      if room == 0 {
        return WouldBlock;
      }
      SendShape(Snapshot(), room);
      hide AfterSend, SendResultOf;
      var whole := ShipFrame(k, p, queue, a, b, room);
      r := if whole then Sent else Paused;
    }

    /** nghttp2's side of `pull_send`: run the script through the callbacks until a chunk comes out. */
    method PullChunk(env0: Env) returns (env: Env, chunk: seq<byte>)
      requires Core(Snapshot()) && SocketOk(Snapshot(), []) && outPending == [] && ScriptOk(env0.script)
      modifies this`streams, this`promise, this`socket, this`outPending, this`log
      ensures Pulled(Snapshot(), env, chunk) == PullSend(old(Snapshot()), env0)
      ensures Emitting(Snapshot(), chunk) && ScriptOk(env.script)
    {
      hide Core, SocketOk, ReadResultOf, AfterRead, AfterSend, SendResultOf;
      env, chunk := env0, [];
      PullKeeps(Snapshot(), env0);
      while promise.Some? || env.script != []
        invariant Core(Snapshot()) && SocketOk(Snapshot(), []) && outPending == [] && ScriptOk(env.script)
        invariant PullSend(Snapshot(), env) == PullSend(old(Snapshot()), env0)
        decreases |env.script|, if promise.Some? then 1 else 0
      {
        if promise.Some? {
          ghost var st := Snapshot();
          SendKeepsAll(st, NextRoom(env));
          NeverStale(st, NextRoom(env));
          BlockedIsQuiet(st, NextRoom(env));
          var blocked := fd < 0 || outPending != [];
          var r := SendData(NextRoom(env));
          match r {
            case Sent => env := RoomUsed(env);
            case StreamGone => GoneIsQuiet(st, NextRoom(env));
            case _ =>
              env := if blocked then env else RoomUsed(env);
              return;
          }
        } else {
          var next := env.script[0];
          env := env.(script := env.script[1..]);
          match next {
            case EmitControl(bytes) =>
              ControlKeeps(Snapshot(), bytes);
              log := log + [Control(bytes)];
              return env, bytes;
            case EmitData(id, window, hd) =>
              var k := IndexOf(streams, id);
              if Readable(Snapshot(), k) {
                ReadKeepsAll(Snapshot(), k, window, hd);
                var s := streams[k];
                var r := DataProviderRead(k, window);
                match r {
                  case InPlace(n) => promise := Some(PromiseFor(s, hd, n));
                  case Copied(bytes) =>
                    log := log + [Data(id, hd, bytes)];
                    return env, hd + bytes;
                  case _ =>
                }
              }
          }
        }
      }
    }

    /** Sends until everything is out or the socket is full. */
    method WriteSome(data: seq<byte>, env0: Env) returns (written: nat, env: Env)
      modifies this`socket
      ensures written == SendAll(env0, |data|) <= |data| && env == AfterSendAll(env0, |data|)
      ensures socket == old(socket) + data[..written]
    {
      written, env := 0, env0;
      while written < |data|
        invariant written <= |data| && socket == old(socket) + data[..written]
        invariant written + SendAll(env, |data| - written) == SendAll(env0, |data|)
        invariant AfterSendAll(env, |data| - written) == AfterSendAll(env0, |data|)
        decreases |env.rooms|
      {
        var n := Min(NextRoom(env), |data| - written);
        env := RoomUsed(env);
        if n == 0 {
          return;
        }
        assert data[..written] + data[written..written + n] == data[..written + n];
        socket := socket + data[written..written + n];
        written := written + n;
      }
    }

    /** The ordered tail first, then chunk after chunk, until the socket is full or nothing is left. */
    method FlushWrites(env0: Env) returns (env: Env)
      requires ConnOk(Snapshot()) && ScriptOk(env0.script)
      modifies this`streams, this`promise, this`socket, this`outPending, this`log
      ensures Pulled(Snapshot(), env, []) == Flushed(old(Snapshot()), env0)
      ensures ConnOk(Snapshot())
    {
      hide Core, SocketOk, PullSend, SendAll, AfterSendAll;
      env := env0;
      FlushKeeps(Snapshot(), env0);
      while true
        invariant ConnOk(Snapshot()) && ScriptOk(env.script)
        invariant Flushed(Snapshot(), env) == Flushed(old(Snapshot()), env0)
        decreases |env.script| + |env.rooms|
      {
        ghost var left := |env.script| + |env.rooms|;
        while outPending != []
          invariant ConnOk(Snapshot()) && ScriptOk(env.script) && |env.script| + |env.rooms| <= left
          invariant Flushed(Snapshot(), env) == Flushed(old(Snapshot()), env0)
          decreases |env.script| + |env.rooms|
        {
          WriteKeepsSocket(Snapshot(), SendAll(env, |outPending|));
          var written;
          written, env := WriteSome(outPending, env);
          outPending := outPending[written..];
          if written == 0 {
            return;
          }
        }
        var chunk;
        env, chunk := PullChunk(env);
        if chunk == [] {
          return;
        }
        ChunkKeepsSocket(Snapshot(), chunk, SendAll(env, |chunk|));
        var written;
        written, env := WriteSome(chunk, env);
        if written < |chunk| {
          outPending := outPending + chunk[written..];
          return;
        }
        assert outPending + chunk[written..] == outPending;
      }
    }
  }

  /** The frame counts as sent: its payload has left the queue, what the socket did not take is the tail. */
  function FrameSent(st: ConnState, k: nat, p: SendPromise, payload: seq<byte>, room: nat): ConnState
    requires k < |st.streams| && WellFormed(st.streams[k].out.q)
  {
    var s, frame := st.streams[k], p.hd + payload;
    Put(st, k, s.(out := TConsume(s.out, p.length)))
      .(promise := None, log := st.log + [Data(p.id, p.hd, payload)],
        socket := st.socket + Take(frame, room), outPending := frame[Min(room, |frame|)..])
  }

  lemma StreamIsWellFormed(s: StreamCtx)
    requires StreamOk(s)
    ensures WellFormed(s.out.q)
    ensures s.provider.Deferred? ==> s.state == Dispatched && s.out.q.responseStarted
  {
  }

  lemma RecordedKeeps(r: Traced, t: Traced, body: seq<byte>, q: Queue)
    requires r == Recorded(t, body, q) && q == Enqueued(t.q, body)
    ensures r.accepted == t.accepted + [body] && r.q == q
    ensures q.responseStarted == t.q.responseStarted && q.finished == t.q.finished
    ensures |q.messages| > 0 || !Accepts(t.q, body)
  {
  }

  lemma LookupAppended(streams: seq<StreamCtx>, s: StreamCtx, id: int)
    ensures var k, n := IndexOf(streams, id), |streams|;
            IndexOf(streams + [s], id) == if k < n then k else if s.id == id then n else n + 1
  {
    var all, k := streams + [s], IndexOf(streams, id);
    var k' := IndexOf(all, id);
    assert forall i :: 0 <= i < |streams| ==> all[i] == streams[i];
    assert all[|streams|] == s;
    assert k < |streams| ==> all[k].id == id;
  }

  /** Same ids in the same places: the same lookups. */
  lemma SamePlace(a: seq<StreamCtx>, b: seq<StreamCtx>, id: int)
    requires SameIds(a, b)
    ensures IndexOf(a, id) == IndexOf(b, id)
  {
  }

  lemma PolicyKeeps(st: ConnState, i: nat, m: MethodEntry)
    requires Core(st) && i < |st.streams|
    ensures Core(Put(st, i, WithMethodPolicy(st.streams[i], m)))
  {
    hide Core, StreamOk, Replaces;
    StreamAt(st, i);
    PolicyReplaces(st.promise, st.streams[i], m);
    PutKeeps(st, i, WithMethodPolicy(st.streams[i], m));
  }

  lemma PolicyIs(s: StreamCtx, m: MethodEntry)
    ensures WithMethodPolicy(s, m) ==
            if m.backpressure.Some? then WithQueue(s, s.out.q.(backpressure := m.backpressure.value)) else s
  {
  }

  lemma RefusalKeeps(st: ConnState, i: nat, status: GrpcStatus, ok: bool)
    requires Core(st) && i < |st.streams| && st.streams[i].state == Complete
    ensures Core(Put(st, i, Submitted(FinalizedError(st.streams[i], status), ok)))
  {
    hide Core, StreamOk, Replaces;
    StreamAt(st, i);
    RefuseReplaces(st.promise, st.streams[i], status, ok);
    PutKeeps(st, i, Submitted(FinalizedError(st.streams[i], status), ok));
  }

  predicate AwaitsResponse(streams: seq<StreamCtx>, k: int) {
    0 <= k < |streams| && streams[k].state == Dispatched && streams[k].provider.Unsubmitted?
  }

  lemma SubmittedKeeps(st: ConnState, k: nat, taken: bool)
    requires Core(st) && AwaitsResponse(st.streams, k)
    ensures var r := Submitted(st.streams[k], taken);
            && Core(Put(st, k, r))
            && (r.out.q.responseStarted <==> taken) && (r.provider.Active? <==> taken)
  {
    hide Core, Replaces, QueueOk;
    StreamAt(st, k);
    SubmitReplaces(st.promise, st.streams[k], taken);
    PutKeeps(st, k, Submitted(st.streams[k], taken));
  }

  lemma SubmitReplaces(promise: Option<SendPromise>, s: StreamCtx, taken: bool)
    requires StreamOk(s) && s.state == Dispatched && s.provider.Unsubmitted?
    ensures Replaces(promise, s, Submitted(s, taken))
  {
    SubmitKeeps(s, taken);
    hide StreamOk, Pins;
    if promise.Some? { FlagsKeepPins(s.out.q, Submitted(s, taken).out.q, promise.value); }
  }

  /** Installing a hook under the invariant: the number is new, and the replaced one is nowhere. */
  lemma HookIsNew(st: ConnState, id: int)
    requires Core(st)
    ensures var k, r := IndexOf(st.streams, id), HookSet(st, id);
            k < |st.streams| ==>
              && st.nextHook !in st.fired && (forall i :: 0 <= i < |st.streams| ==> st.streams[i].cancelHook != Some(st.nextHook))
              && (st.streams[k].cancelHook.Some? ==>
                    && st.streams[k].cancelHook.value !in st.fired
                    && forall i :: 0 <= i < |r.streams| ==> r.streams[i].cancelHook != st.streams[k].cancelHook)
  {
    assert HooksOk(st.streams, st.fired, st.nextHook);
    hide Core;
  }

  /** One frame, counted in requests waiting for the next pass. */
  lemma FrameCounts(st: ConnState, id: int, headers: bool, endStream: bool)
    requires Core(st) && PeerMayOn(st, id, FrameRecv(headers, endStream))
    ensures var k, r := IndexOf(st.streams, id), OnStream(st, id, FrameRecv(headers, endStream));
            CompleteFrom(r.streams, 0) == CompleteFrom(st.streams, 0) + if endStream && k < |st.streams| then 1 else 0
  {
    var k := IndexOf(st.streams, id);
    if k < |st.streams| {
      StreamAt(st, k);
      var s, s' := st.streams[k], Changed(st.streams[k], FrameRecv(headers, endStream));
      assert (headers || endStream) ==> s.state != Complete by { hide QueueOk; }
      CompleteUpdate(st.streams, k, s', 0);
    }
  }

  lemma {:induction false} CompleteUpdate(a: seq<StreamCtx>, k: nat, s: StreamCtx, i: nat)
    requires i <= k < |a|
    ensures CompleteFrom(a[k := s], i) + (if a[k].state == Complete then 1 else 0) ==
            CompleteFrom(a, i) + if s.state == Complete then 1 else 0
    decreases k - i
  {
    if i == k {
      SameCompleteFrom(a, a[k := s], i + 1);
    } else {
      CompleteUpdate(a, k, s, i + 1);
    }
  }

  lemma BlockedIsQuiet(st: ConnState, room: nat)
    requires st.promise.Some?
    ensures SendResultOf(st, room).WouldBlock? ==> AfterSend(st, room) == st
  {
  }

  /** A promise whose stream is open finds its bytes. */
  lemma HeldPromise(st: ConnState, room: nat)
    requires Core(st) && st.promise.Some? && IndexOf(st.streams, st.promise.value.id) < |st.streams|
    requires st.fd >= 0 && st.outPending == []
    ensures var q := st.streams[IndexOf(st.streams, st.promise.value.id)].out.q;
            && WellFormed(q) && FrontBytes(q, st.promise.value.length) == st.promise.value.bytes
            && |st.promise.value.bytes| == st.promise.value.length && |st.promise.value.hd| == FRAMEHD_LEN
            && (SendResultOf(st, room).WouldBlock? <==> room == 0)
            && (room > 0 ==> SendResultOf(st, room).Sent? || SendResultOf(st, room).Paused?)
  {
    var k := IndexOf(st.streams, st.promise.value.id);
    NeverStale(st, room);
    PromiseHeader(st);
    StreamAt(st, k);
    assert WellFormed(st.streams[k].out.q);
    hide Core, StreamOk, WellFormed, FrontBytes;
  }

  lemma ThreeParts(hd: seq<byte>, a: seq<byte>, b: seq<byte>)
    ensures Flatten([hd, a, b]) == hd + (a + b)
    ensures [hd, a, b][0..] == [hd, a, b]
  {
    assert Flatten([b]) == b by { assert [b][1..] == []; assert b + Flatten([]) == b; }
    assert Flatten([a, b]) == a + b by { assert [a, b][1..] == [b]; }
    assert [hd, a, b][1..] == [a, b];
  }

  function CompleteFrom(streams: seq<StreamCtx>, i: nat): nat
    decreases |streams| - i
  {
    if i >= |streams| then 0 else (if streams[i].state == Complete then 1 else 0) + CompleteFrom(streams, i + 1)
  }

  lemma SameComplete(a: seq<StreamCtx>, b: seq<StreamCtx>, i: nat)
    requires i < |a| == |b| && forall k :: 0 <= k < |a| && k != i ==> a[k].state == b[k].state
    ensures CompleteFrom(a, i) == (if a[i].state == Complete then 1 else 0) + CompleteFrom(b, i + 1)
  {
    SameCompleteFrom(a, b, i + 1);
  }

  lemma {:induction false} SameCompleteFrom(a: seq<StreamCtx>, b: seq<StreamCtx>, i: nat)
    requires |a| == |b| && forall k :: i <= k < |a| ==> a[k].state == b[k].state
    ensures CompleteFrom(a, i) == CompleteFrom(b, i)
    decreases |a| - i
  {
    if i < |a| { SameCompleteFrom(a, b, i + 1); }
  }

  lemma NoMoreComplete(streams: seq<StreamCtx>)
    ensures CompleteFrom(streams, |streams|) == 0
  {
  }
}
