/** Handler dispatch: what one pass does, and that no call is handed out twice. */
module DispatchProofs {
  import opened Bytes
  import opened Framing
  import opened QueueModel
  import opened ConnModel
  import opened StreamProofs
  import opened ConnProofs

  // ---- what handlers cannot touch ----

  /** The request side of a stream: who it is, how far it got, what it asked. */
  predicate SameCall(a: StreamCtx, b: StreamCtx) {
    a.id == b.id && a.state == b.state && a.request == b.request && a.path == b.path && a.endStream == b.endStream
  }

  predicate SameCalls(a: seq<StreamCtx>, b: seq<StreamCtx>) {
    |a| == |b| && forall i :: 0 <= i < |a| ==> SameCall(a[i], b[i])
  }

  /** Everything that is not a stream or a hook number. */
  predicate SameFrame(a: ConnState, b: ConnState) {
    b == a.(streams := b.streams, nextHook := b.nextHook)
  }

  lemma ApplyOpKeeps(st: ConnState, op: CallOp)
    requires Core(st)
    ensures var r := ApplyOp(st, op); Core(r) && SameFrame(st, r) && SameCalls(st.streams, r.streams)
  {
    hide Core;
    match op {
      case OnCall(id, act) => OnStreamKeeps(st, id, Call(act));
      case SetHook(id) => HookSetKeeps(st, id);
    }
  }

  lemma {:induction false} ApplyOpsKeeps(st: ConnState, ops: seq<CallOp>)
    requires Core(st)
    ensures var r := ApplyOps(st, ops); Core(r) && SameFrame(st, r) && SameCalls(st.streams, r.streams)
    decreases |ops|
  {
    hide Core, ApplyOp;
    if ops != [] {
      ApplyOpKeeps(st, ops[0]);
      ApplyOpsKeeps(ApplyOp(st, ops[0]), ops[1..]);
    }
  }

  // ---- one stream of the pass ----

  lemma FlagsKeepPins(a: Queue, b: Queue, p: SendPromise)
    requires a.messages == b.messages && a.frontOffset == b.frontOffset && a.frontCommitted == b.frontCommitted
    ensures Pins(a, p) ==> Pins(b, p)
  {
  }

  /** A stream the pass is done with. */
  predicate Served(was: StreamCtx, s: StreamCtx) {
    s.id == was.id && PastDispatch(s) && s.request == was.request
  }

  lemma RefuseReplaces(promise: Option<SendPromise>, s: StreamCtx, status: GrpcStatus, ok: bool)
    requires StreamOk(s) && s.state == Complete
    ensures var r := Submitted(FinalizedError(s, status), ok);
            Replaces(promise, s, r) && Served(s, r) && r.out.q.finished && r.out.q.finalStatus == status
  {
    RefuseKeeps(s, status, ok);
    hide StreamOk, Pins;
    if promise.Some? {
      FlagsKeepPins(s.out.q, Submitted(FinalizedError(s, status), ok).out.q, promise.value);
    }
  }

  lemma ReturnReplaces(promise: Option<SendPromise>, s: StreamCtx, rc: int, ok: bool)
    requires StreamOk(s) && s.state == Complete
    ensures var r := Launched(HandlerReturned(s, rc), ok); Replaces(promise, s, r) && Served(s, r)
  {
    ReturnKeeps(s, rc, ok);
    hide StreamOk, Pins;
    if promise.Some? {
      FlagsKeepPins(s.out.q, Launched(HandlerReturned(s, rc), ok).out.q, promise.value);
    }
  }

  lemma PolicyReplaces(promise: Option<SendPromise>, s: StreamCtx, m: MethodEntry)
    requires StreamOk(s)
    ensures Replaces(promise, s, WithMethodPolicy(s, m)) && SameCall(s, WithMethodPolicy(s, m))
  {
    MethodPolicyKeeps(s, m);
    hide StreamOk, Pins;
    if promise.Some? {
      FlagsKeepPins(s.out.q, WithMethodPolicy(s, m).out.q, promise.value);
    }
  }

  /** Recording the invocation of a stream that has just left Complete. */
  lemma RecordKeeps(st: ConnState, was: seq<StreamCtx>, i: nat, handler: nat, payload: seq<byte>)
    requires Core(st) && i < |st.streams| == |was| && PastDispatch(st.streams[i])
    requires InvokedOk(was, st.gone, st.invoked) && was[i].id == st.streams[i].id && was[i].state == Complete
    ensures Core(st.(invoked := st.invoked + [Invocation(st.streams[i].id, handler, payload)]))
  {
    hide StreamsOk, DataOk, PromiseOk, HooksOk;
    var id := st.streams[i].id;
    assert (st.streams + st.gone)[i].id == id;
    forall k | 0 <= k < |st.streams| && st.streams[k].id == id ensures k == i {
      assert (st.streams + st.gone)[k] == st.streams[k];
    }
    assert forall j :: 0 <= j < |st.invoked| ==> st.invoked[j].id != id;
    hide Knows;
  }

  /** How one step of the pass leaves the list: the visited stream served if it was due, no other moved. */
  predicate PassStep(st: ConnState, i: nat, r: ConnState) {
    && i < |st.streams| == |r.streams|
    && (st.streams[i].state == Complete ==> Served(st.streams[i], r.streams[i]))
    && (st.streams[i].state != Complete ==> r == st)
    && forall k :: 0 <= k < |st.streams| && k != i ==> SameCall(st.streams[k], r.streams[k])
  }

  /** The handler's own calls, with the method's policy in force. */
  lemma HandlerOpsKeep(st: ConnState, i: nat, m: MethodEntry, ops: seq<CallOp>)
    requires Core(st) && i < |st.streams|
    ensures var r := ApplyOps(Put(st, i, WithMethodPolicy(st.streams[i], m)), ops);
            Core(r) && SameFrame(st, r) && SameCalls(st.streams, r.streams)
  {
    hide Core, StreamOk, Replaces, WithMethodPolicy;
    var s := WithMethodPolicy(st.streams[i], m);
    StreamAt(st, i);
    PolicyReplaces(st.promise, st.streams[i], m);
    PutKeeps(st, i, s);
    ApplyOpsKeeps(Put(st, i, s), ops);
  }

  lemma HandlerRunKeeps(st: ConnState, i: nat, m: MethodEntry, payload: seq<byte>, h: Handlers, submits: int -> bool)
    requires Core(st) && i < |st.streams| && st.streams[i].state == Complete
    ensures var r := HandlerRun(st, i, m, payload, h, submits);
            Core(r) && PassStep(st, i, r) && r.invoked == st.invoked + [Invocation(st.streams[i].id, m.handler, payload)]
  {
    hide Core, StreamOk, Replaces, InvokedOk, WithMethodPolicy, Launched, HandlerReturned, ApplyOps;
    var id := st.streams[i].id;
    var out := h(m.handler, id, payload);
    HandlerOpsKeep(st, i, m, out.ops);
    var st1 := ApplyOps(Put(st, i, WithMethodPolicy(st.streams[i], m)), out.ops);
    var s := Launched(HandlerReturned(st1.streams[i], out.rc), submits(id));
    StreamAt(st1, i);
    ReturnReplaces(st1.promise, st1.streams[i], out.rc, submits(id));
    PutKeeps(st1, i, s);
    CoreParts(st);
    RecordKeeps(Put(st1, i, s), st.streams, i, m.handler, payload);
  }

  lemma CoreParts(st: ConnState)
    requires Core(st)
    ensures InvokedOk(st.streams, st.gone, st.invoked) && IdsOk(st.streams + st.gone)
  {
  }

  lemma DispatchOneKeeps(st: ConnState, i: nat, h: Handlers, submits: int -> bool)
    requires Core(st) && i < |st.streams|
    ensures var r := DispatchedOne(st, i, h, submits); Core(r) && PassStep(st, i, r)
  {
    hide Core, StreamOk, Replaces;
    var s := st.streams[i];
    if s.state == Complete {
      match Refusal(st, s) {
        case Some(status) =>
          StreamAt(st, i);
          RefuseReplaces(st.promise, s, status, submits(s.id));
          PutKeeps(st, i, Submitted(FinalizedError(s, status), submits(s.id)));
        case None =>
          HandlerRunKeeps(st, i, FindMethod(st.methods, s.path).value,
                          RequestPayload(s.request, st.maxMessageLen).value, h, submits);
      }
    }
  }

  // ---- the whole pass ----

  predicate NoneCompleteBelow(streams: seq<StreamCtx>, n: nat) {
    forall k :: 0 <= k < n && k < |streams| ==> streams[k].state != Complete
  }

  lemma {:induction false} DispatchFromKeeps(st: ConnState, i: nat, h: Handlers, submits: int -> bool)
    requires Core(st) && i <= |st.streams| && NoneCompleteBelow(st.streams, i)
    ensures var r := DispatchedFrom(st, i, h, submits); Core(r) && NoneCompleteBelow(r.streams, |r.streams|)
    decreases |st.streams| - i
  {
    hide Core, DispatchedOne;
    if i < |st.streams| {
      DispatchOneKeeps(st, i, h, submits);
      DispatchFromKeeps(DispatchedOne(st, i, h, submits), i + 1, h, submits);
    }
  }

  /** A pass over streams none of which is due does nothing at all. */
  lemma {:induction false} IdlePass(st: ConnState, i: nat, h: Handlers, submits: int -> bool)
    requires i <= |st.streams| && NoneCompleteBelow(st.streams, |st.streams|)
    ensures DispatchedFrom(st, i, h, submits) == st
    decreases |st.streams| - i
  {
    if i < |st.streams| {
      assert DispatchedOne(st, i, h, submits) == st;
      IdlePass(st, i + 1, h, submits);
    }
  }

  /** Dispatch leaves nothing due, so a second pass, with any handlers, changes nothing. */
  lemma DispatchIsIdempotent(st: ConnState, h: Handlers, submits: int -> bool, h': Handlers, submits': int -> bool)
    requires Core(st)
    ensures var r := DispatchedFrom(st, 0, h, submits);
            NoneCompleteBelow(r.streams, |r.streams|) && DispatchedFrom(r, 0, h', submits') == r
  {
    hide Core, DispatchedOne;
    DispatchFromKeeps(st, 0, h, submits);
    IdlePass(DispatchedFrom(st, 0, h, submits), 0, h', submits');
  }

  /** A handler is given the payload of the first frame of the request, and nothing else of it. */
  lemma PayloadIsFirstFrame(request: seq<byte>, maxLen: nat)
    requires RequestPayload(request, maxLen).Some?
    ensures var p := RequestPayload(request, maxLen).value; Frame(p) <= request && |p| <= maxLen && |p| <= U32_MAX
  {
    HeaderIsCanonical(request, maxLen);
    hide EncodeHeader, DecodeHeader;
    var p := RequestPayload(request, maxLen).value;
    assert Frame(p) == request[..FRAME_HEADER_LEN + |p|];
  }

  /** Every request that begins with a whole frame within the limit is understood. */
  lemma FirstFrameIsPayload(p: seq<byte>, rest: seq<byte>, maxLen: nat)
    requires |p| <= maxLen && |p| <= U32_MAX
    ensures RequestPayload(Frame(p) + rest, maxLen) == Some(p)
  {
    HeaderRoundTrip(false, |p|, p + rest, maxLen);
    hide EncodeHeader, DecodeHeader;
    assert Frame(p) + rest == EncodeHeader(false, |p|) + (p + rest);
  }
}
