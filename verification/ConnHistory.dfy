/** What never changes back: shipped bytes, accepted messages, and a call's final status. */
module ConnHistory {
  import opened Bytes
  import opened Framing
  import opened QueueModel
  import opened QueueProofs
  import opened ConnModel
  import opened StreamProofs
  import opened ConnProofs
  import opened DispatchProofs
  import opened DeadlineProofs
  import opened OutputProofs
  import opened ConnRuns
  import Percent

  // ---- what an event may decide ----

  /** What an event allows to happen to calls; `Anything` stands for a whole run. */
  datatype Cause =
    | Nothing
    | ActOn(id: int, act: Act)
    | Arrives(id: int)
    | HandlersRun(handlers: Handlers, before: ConnState)
    | DeadlinesAt(now: nat, at: ConnState)
    | Anything

  /** Stream `k` is handed to its handler by a pass over `st`. */
  predicate Answered(st: ConnState, k: int) {
    0 <= k < |st.streams| && st.streams[k].state == Complete && Refusal(st, st.streams[k]).None?
  }

  function OutcomeOf(st: ConnState, k: int, h: Handlers): Outcome
    requires Answered(st, k)
  {
    h(FindMethod(st.methods, st.streams[k].path).value.handler, st.streams[k].id,
      RequestPayload(st.streams[k].request, st.maxMessageLen).value)
  }

  /** The cause includes `act` on call `id`. */
  ghost predicate Acts(c: Cause, id: int, act: Act) {
    match c
    case ActOn(i, a) => i == id && a == act
    case HandlersRun(h, st) => exists k :: Answered(st, k) && OnCall(id, act) in OutcomeOf(st, k, h).ops
    case Anything => true
    case _ => false
  }

  /** The trailer text of a finish. */
  function TextOf(message: Option<seq<byte>>): Option<seq<byte>> {
    if message.Some? && message.value != [] then Some(Percent.Encoded(message.value)) else None
  }

  /** The pass turns the call away; it keeps whatever text the call has. */
  ghost predicate Refuses(c: Cause, id: int, status: GrpcStatus) {
    && c.HandlersRun?
    && exists k :: (0 <= k < |c.before.streams| && c.before.streams[k].id == id
                    && c.before.streams[k].state == Complete && Refusal(c.before, c.before.streams[k]) == Some(status))
  }

  ghost predicate Returns(c: Cause, id: int, rc: int) {
    && c.HandlersRun?
    && exists k :: (Answered(c.before, k) && c.before.streams[k].id == id
                    && OutcomeOf(c.before, k, c.handlers).rc == rc)
  }

  ghost predicate Expires(c: Cause, id: int) {
    c.DeadlinesAt? && exists k :: 0 <= k < |c.at.streams| && c.at.streams[k].id == id && Due(c.at.streams[k], c.now)
  }

  /**
   * The only ways a call comes by a status and a text: a finish, of the application or of a handler
   * that runs; the non-zero code of its own handler; its refusal; its deadline.
   */
  ghost predicate Decides(c: Cause, id: int, status: GrpcStatus, text: Option<seq<byte>>) {
    || c.Anything?
    || (exists message :: Acts(c, id, Finish(status, message)) && text == TextOf(message))
    || (exists rc :: Returns(c, id, rc) && rc != 0 && status == StatusFromI32(rc) && text == None)
    || Refuses(c, id, status)
    || (Expires(c, id) && status == STATUS_DEADLINE_EXCEEDED && text == TextOf(Some(DEADLINE_MESSAGE)))
  }

  /** The cause may install a policy on the call; its own dispatch does when its method has one. */
  ghost predicate SetsPolicy(c: Cause, id: int) {
    || c.Anything?
    || (exists bp :: Acts(c, id, Policy(bp)))
    || (exists rc :: Returns(c, id, rc))
  }

  // ---- how a call may change ----

  /** A dispatched call whose outcome is decided. */
  predicate Settled(s: StreamCtx) {
    PastDispatch(s) && s.out.q.finished
  }

  predicate SameOutcome(a: Queue, b: Queue) {
    a.finalStatus == b.finalStatus && a.finalMessage == b.finalMessage
  }

  predicate KeepsBound(a: Queue, b: Queue) {
    b.backpressure == a.backpressure && (WithinCapacity(a) ==> WithinCapacity(b))
  }

  /** The cause may add to what the peer asks on the call. */
  predicate AddsToRequest(c: Cause, id: int) {
    c.Anything? || (c.Arrives? && c.id == id)
  }

  /** `b` is a later state of the call `a`, brought about by `c`. */
  ghost predicate Evolves(c: Cause, a: StreamCtx, b: StreamCtx) {
    && a.id == b.id && a.request <= b.request
    && a.out.shipped <= b.out.shipped && a.out.accepted <= b.out.accepted
    && (PastDispatch(a) ==> PastDispatch(b)) && (a.out.q.finished ==> b.out.q.finished)
    && (Settled(a) ==> SameOutcome(a.out.q, b.out.q) && b.out.accepted == a.out.accepted)
    && (a.provider.Done? ==> b.provider == a.provider && b.out.shipped == a.out.shipped)
    && (b.out.q.finished && !(a.out.q.finished && SameOutcome(a.out.q, b.out.q)) ==>
          Decides(c, a.id, b.out.q.finalStatus, b.out.q.finalMessage))
    && (!SetsPolicy(c, a.id) ==> KeepsBound(a.out.q, b.out.q))
    && (!AddsToRequest(c, a.id) ==> b.request == a.request && b.path == a.path)
  }

  ghost predicate Found(c: Cause, s: StreamCtx, later: seq<StreamCtx>) {
    exists j :: 0 <= j < |later| && Evolves(c, s, later[j])
  }

  /** Every call of `a`, open or closed, has its later state in `b`. */
  ghost predicate Follows(c: Cause, a: seq<StreamCtx>, b: seq<StreamCtx>) {
    forall i :: 0 <= i < |a| ==> Found(c, a[i], b)
  }

  function All(st: ConnState): seq<StreamCtx> {
    st.streams + st.gone
  }

  // ---- the relation ----

  lemma EvolvesTrans(w: Cause, a: StreamCtx, b: StreamCtx, c: StreamCtx)
    requires Evolves(w, a, b) && Evolves(w, b, c)
    ensures Evolves(w, a, c)
  {
    hide Decides, SetsPolicy, WithinCapacity;
  }

  lemma FollowsTrans(w: Cause, a: seq<StreamCtx>, b: seq<StreamCtx>, c: seq<StreamCtx>)
    requires Follows(w, a, b) && Follows(w, b, c)
    ensures Follows(w, a, c)
  {
    hide Evolves;
    forall i | 0 <= i < |a| ensures Found(w, a[i], c) {
      assert Found(w, a[i], b);
      var j :| 0 <= j < |b| && Evolves(w, a[i], b[j]);
      assert Found(w, b[j], c);
      var k :| 0 <= k < |c| && Evolves(w, b[j], c[k]);
      EvolvesTrans(w, a[i], b[j], c[k]);
    }
  }

  lemma FollowsPointwise(w: Cause, a: seq<StreamCtx>, b: seq<StreamCtx>)
    requires |a| == |b| && forall i :: 0 <= i < |a| ==> Evolves(w, a[i], b[i])
    ensures Follows(w, a, b)
  {
    hide Evolves;
    forall i | 0 <= i < |a| ensures Found(w, a[i], b) { assert Evolves(w, a[i], b[i]); }
  }

  lemma EvolvesRefl(w: Cause, s: StreamCtx)
    ensures Evolves(w, s, s)
  {
    hide Decides, SetsPolicy;
  }

  lemma FollowsRefl(w: Cause, a: seq<StreamCtx>)
    ensures Follows(w, a, a)
  {
    hide Evolves;
    forall i | 0 <= i < |a| ensures Evolves(w, a[i], a[i]) { EvolvesRefl(w, a[i]); }
    FollowsPointwise(w, a, a);
  }

  lemma PutFollows(w: Cause, st: ConnState, k: nat, s: StreamCtx)
    requires k < |st.streams| && Evolves(w, st.streams[k], s)
    ensures Follows(w, All(st), All(Put(st, k, s)))
  {
    hide Evolves;
    PutAll(st, k, s);
    var a, b := All(st), All(Put(st, k, s));
    forall i | 0 <= i < |a| ensures Evolves(w, a[i], b[i]) { EvolvesRefl(w, a[i]); }
    FollowsPointwise(w, a, b);
  }

  /** Forgetting the cause. */
  lemma FollowsWeaker(w: Cause, a: seq<StreamCtx>, b: seq<StreamCtx>)
    requires Follows(w, a, b)
    ensures Follows(Anything, a, b)
  {
    forall i | 0 <= i < |a| ensures Found(Anything, a[i], b) {
      assert Found(w, a[i], b);
      var j :| 0 <= j < |b| && Evolves(w, a[i], b[j]);
      EvolvesWeaker(w, a[i], b[j]);
      hide Evolves;
    }
  }

  lemma EvolvesWeaker(w: Cause, a: StreamCtx, b: StreamCtx)
    requires Evolves(w, a, b)
    ensures Evolves(Anything, a, b)
  {
  }

  // ---- every event ----

  /** What the finish flags and the policy do not touch. */
  predicate SameFlags(a: Queue, b: Queue) {
    a.finished == b.finished && SameOutcome(a, b) && a.backpressure == b.backpressure
  }

  lemma FlagsKeepBound(a: Queue, b: Queue)
    requires a.messages == b.messages && a.frontOffset == b.frontOffset && a.frontCommitted == b.frontCommitted
    requires a.backpressure == b.backpressure
    ensures KeepsBound(a, b)
  {
  }

  lemma EnqueueFacts(t: Traced, body: seq<byte>)
    requires QueueOk(t)
    ensures var r := TEnqueue(t, body);
            r.shipped == t.shipped && t.accepted <= r.accepted && SameFlags(t.q, r.q) && KeepsBound(t.q, r.q)
  {
    EnqueueKeepsOk(t, body);
    EnqueueKeepsPolicy(t.q, body);
    hide QueueOk, EncodeHeader, Without, WithinCapacity;
  }

  lemma ChangeEvolves(w: Cause, s: StreamCtx, c: Change)
    requires StreamOk(s) && PeerMay(s, c) && (if c.Call? then Acts(w, s.id, c.act) else AddsToRequest(w, s.id))
    ensures Evolves(w, s, Changed(s, c))
  {
    hide QueueOk, Decides, SetsPolicy, Acts, WithinCapacity;
    match c {
      case Call(Write(body)) => WriteEvolves(w, s, body);
      case Call(Finish(status, message)) => FinishEvolves(w, s, status, message);
      case Call(Policy(bp)) => SetPolicyEvolves(w, s, bp);
      case _ =>
    }
  }

  lemma WriteEvolves(w: Cause, s: StreamCtx, body: seq<byte>)
    requires StreamOk(s)
    ensures Evolves(w, s, Written(s, body))
  {
    hide QueueOk, TEnqueue, Decides, SetsPolicy, WithinCapacity, Accepts;
    EnqueueFacts(s.out, body);
  }

  lemma FinishEvolves(w: Cause, s: StreamCtx, status: GrpcStatus, message: Option<seq<byte>>)
    requires StreamOk(s) && Acts(w, s.id, Finish(status, message))
    ensures Evolves(w, s, Finished(s, status, message))
  {
    hide QueueOk, Acts, SetsPolicy, WithinCapacity, Percent.Encoded;
    FlagsKeepBound(s.out.q, MarkFinished(s.out.q, status, message));
    if !s.out.q.finished {
      assert TrailerMessage(s.out.q, message) == TextOf(message);
      assert Decides(w, s.id, status, TextOf(message));
    }
    hide Decides, TextOf, TrailerMessage;
  }

  lemma SetPolicyEvolves(w: Cause, s: StreamCtx, bp: Backpressure)
    requires Acts(w, s.id, Policy(bp))
    ensures Evolves(w, s, Acted(s, Policy(bp)))
  {
    hide Decides, Acts;
  }

  lemma OnStreamFollows(w: Cause, st: ConnState, id: int, c: Change)
    requires Core(st) && PeerMayOn(st, id, c) && (if c.Call? then Acts(w, id, c.act) else AddsToRequest(w, id))
    ensures Follows(w, All(st), All(OnStream(st, id, c)))
  {
    hide Core, Evolves, StreamOk, Changed, PeerMay, Acts;
    var k := IndexOf(st.streams, id);
    if k < |st.streams| {
      StreamAt(st, k);
      ChangeEvolves(w, st.streams[k], c);
      PutFollows(w, st, k, Changed(st.streams[k], c));
    } else {
      FollowsRefl(w, All(st));
    }
  }

  lemma OpenFollows(w: Cause, st: ConnState, id: int)
    ensures Follows(w, All(st), All(Opened(st, id)))
  {
    hide Evolves;
    var a, b, n := All(st), All(Opened(st, id)), |st.streams|;
    forall i | 0 <= i < |a| ensures Found(w, a[i], b) {
      EvolvesRefl(w, a[i]);
      assert b[if i < n then i else i + 1] == a[i];
    }
  }

  lemma HookEvolves(w: Cause, s: StreamCtx, hook: Option<nat>)
    ensures Evolves(w, s, s.(cancelHook := hook))
  {
    hide Decides, SetsPolicy;
  }

  lemma HookSetFollows(w: Cause, st: ConnState, id: int)
    ensures Follows(w, All(st), All(HookSet(st, id)))
  {
    hide Evolves;
    var k := IndexOf(st.streams, id);
    if k < |st.streams| {
      HookEvolves(w, st.streams[k], Some(st.nextHook));
      PutFollows(w, st, k, st.streams[k].(cancelHook := Some(st.nextHook)));
    } else {
      FollowsRefl(w, All(st));
    }
  }

  lemma CloseFollows(w: Cause, st: ConnState, id: int, errorCode: nat)
    ensures Follows(w, All(st), All(StreamClosed(st, id, errorCode)))
  {
    hide Evolves;
    var k, n := IndexOf(st.streams, id), |st.streams|;
    var a, b := All(st), All(StreamClosed(st, id, errorCode));
    if k < n {
      CloseIsRearranged(st.streams, st.gone, k);
      CloseRearranges(a, k, n);
      hide Rearranged, SwapRemove;
      forall i | 0 <= i < |a| ensures Found(w, a[i], b) {
        EvolvesRefl(w, a[i]);
        var j := if i == k then |a| - 1 else if i == n - 1 then k else if i < n then i else i - 1;
        assert b[j] == a[i];
      }
    } else {
      FollowsRefl(w, a);
    }
  }

  // ---- dispatch ----

  /** The cause includes all that these operations do. */
  ghost predicate Includes(w: Cause, ops: seq<CallOp>) {
    forall i :: 0 <= i < |ops| && ops[i].OnCall? ==> Acts(w, ops[i].id, ops[i].act)
  }

  lemma {:induction false} OpsFollow(w: Cause, st: ConnState, ops: seq<CallOp>)
    requires Core(st) && Includes(w, ops)
    ensures Follows(w, All(st), All(ApplyOps(st, ops)))
    decreases |ops|
  {
    hide Core, Follows, ApplyOp, Acts;
    if ops == [] {
      FollowsRefl(w, All(st));
    } else {
      ApplyOpKeeps(st, ops[0]);
      OpFollows(w, st, ops[0]);
      OpsFollow(w, ApplyOp(st, ops[0]), ops[1..]);
      FollowsTrans(w, All(st), All(ApplyOp(st, ops[0])), All(ApplyOps(st, ops)));
    }
  }

  lemma OpFollows(w: Cause, st: ConnState, op: CallOp)
    requires Core(st) && (op.OnCall? ==> Acts(w, op.id, op.act))
    ensures Follows(w, All(st), All(ApplyOp(st, op)))
  {
    hide Core, Follows, OnStream, HookSet, Acts;
    match op {
      case OnCall(id, act) => OnStreamFollows(w, st, id, Call(act));
      case SetHook(id) => HookSetFollows(w, st, id);
    }
  }

  lemma PolicyEvolves(w: Cause, s: StreamCtx, m: MethodEntry)
    requires SetsPolicy(w, s.id)
    ensures Evolves(w, s, WithMethodPolicy(s, m))
  {
    hide Decides, SetsPolicy;
  }

  lemma RefuseEvolves(w: Cause, s: StreamCtx, status: GrpcStatus, ok: bool)
    requires StreamOk(s) && s.state == Complete && Refuses(w, s.id, status)
    ensures Evolves(w, s, Submitted(FinalizedError(s, status), ok))
  {
    hide QueueOk, Refuses, SetsPolicy, WithinCapacity;
    FlagsKeepBound(s.out.q, Submitted(FinalizedError(s, status), ok).out.q);
  }

  lemma ReturnEvolves(w: Cause, s: StreamCtx, rc: int, ok: bool)
    requires StreamOk(s) && s.state == Complete && Returns(w, s.id, rc)
    ensures Evolves(w, s, Launched(HandlerReturned(s, rc), ok))
  {
    hide QueueOk, Returns, SetsPolicy, WithinCapacity;
    FlagsKeepBound(s.out.q, Launched(HandlerReturned(s, rc), ok).out.q);
  }

  /** Stream `i` of `st` is still as the pass found it. */
  predicate Untouched(before: ConnState, st: ConnState, i: int) {
    && 0 <= i < |st.streams| == |before.streams| && SameCall(before.streams[i], st.streams[i])
    && st.methods == before.methods && st.maxMessageLen == before.maxMessageLen
  }

  lemma HandlerRunFollows(w: Cause, st: ConnState, i: nat, submits: int -> bool)
    requires Core(st) && w.HandlersRun? && Untouched(w.before, st, i) && Answered(st, i)
    ensures var s := st.streams[i];
            Follows(w, All(st), All(HandlerRun(st, i, FindMethod(st.methods, s.path).value,
                                               RequestPayload(s.request, st.maxMessageLen).value, w.handlers, submits)))
  {
    var h, m := w.handlers, FindMethod(st.methods, st.streams[i].path).value;
    var id, payload := st.streams[i].id, RequestPayload(st.streams[i].request, st.maxMessageLen).value;
    var out := h(m.handler, id, payload);
    HandlerIsCause(w, st, i);
    assert Includes(w, out.ops) && Returns(w, id, out.rc) && SetsPolicy(w, id);
    hide Core, Follows, Evolves, StreamOk, Replaces, WithMethodPolicy, Launched, HandlerReturned, ApplyOps,
         Includes, Returns, SetsPolicy, FindMethod, RequestPayload, Answered, OutcomeOf;
    var st0 := Put(st, i, WithMethodPolicy(st.streams[i], m));
    StreamAt(st, i);
    PolicyReplaces(st.promise, st.streams[i], m);
    PutKeeps(st, i, WithMethodPolicy(st.streams[i], m));
    PolicyEvolves(w, st.streams[i], m);
    PutFollows(w, st, i, WithMethodPolicy(st.streams[i], m));
    OpsFollow(w, st0, out.ops);
    HandlerOpsKeep(st, i, m, out.ops);
    var st1 := ApplyOps(st0, out.ops);
    StreamAt(st1, i);
    ReturnEvolves(w, st1.streams[i], out.rc, submits(id));
    var s := Launched(HandlerReturned(st1.streams[i], out.rc), submits(id));
    PutFollows(w, st1, i, s);
    FollowsTrans(w, All(st), All(st0), All(st1));
    FollowsTrans(w, All(st), All(st1), All(Put(st1, i, s)));
  }

  lemma HandlerIsCause(w: Cause, st: ConnState, i: nat)
    requires w.HandlersRun? && Untouched(w.before, st, i) && Answered(st, i)
    ensures var out := OutcomeOf(st, i, w.handlers);
            Includes(w, out.ops) && Returns(w, st.streams[i].id, out.rc) && SetsPolicy(w, st.streams[i].id)
  {
    hide RequestPayload, FindMethod;
    assert Answered(w.before, i) && OutcomeOf(w.before, i, w.handlers) == OutcomeOf(st, i, w.handlers);
    assert Returns(w, st.streams[i].id, OutcomeOf(st, i, w.handlers).rc);
  }

  lemma DispatchOneFollows(w: Cause, st: ConnState, i: nat, submits: int -> bool)
    requires Core(st) && i < |st.streams| && w.HandlersRun? && Untouched(w.before, st, i)
    ensures Follows(w, All(st), All(DispatchedOne(st, i, w.handlers, submits)))
  {
    hide Core, Follows, Evolves, StreamOk, HandlerRun, Submitted, FinalizedError, RequestPayload, FindMethod;
    var s := st.streams[i];
    if s.state == Complete {
      match Refusal(st, s) {
        case Some(status) =>
          assert w.before.streams[i].id == s.id && Refusal(w.before, w.before.streams[i]) == Some(status);
          StreamAt(st, i);
          RefuseEvolves(w, s, status, submits(s.id));
          PutFollows(w, st, i, Submitted(FinalizedError(s, status), submits(s.id)));
        case None => HandlerRunFollows(w, st, i, submits);
      }
    } else {
      FollowsRefl(w, All(st));
    }
  }

  lemma {:induction false} DispatchFollows(w: Cause, st: ConnState, i: nat, submits: int -> bool)
    requires Core(st) && i <= |st.streams| && w.HandlersRun?
    requires forall k :: i <= k < |st.streams| ==> Untouched(w.before, st, k)
    ensures Follows(w, All(st), All(DispatchedFrom(st, i, w.handlers, submits)))
    decreases |st.streams| - i
  {
    hide Core, Follows, DispatchedOne;
    if i == |st.streams| {
      FollowsRefl(w, All(st));
    } else {
      DispatchOneKeeps(st, i, w.handlers, submits);
      DispatchOneLeaves(st, i, w.handlers, submits);
      DispatchOneFollows(w, st, i, submits);
      var st' := DispatchedOne(st, i, w.handlers, submits);
      forall k | i + 1 <= k < |st'.streams| ensures Untouched(w.before, st', k) {
        assert Untouched(w.before, st, k) && SameCall(st.streams[k], st'.streams[k]);
      }
      DispatchFollows(w, st', i + 1, submits);
      FollowsTrans(w, All(st), All(st'), All(DispatchedFrom(st', i + 1, w.handlers, submits)));
    }
  }

  lemma DispatchOneLeaves(st: ConnState, i: nat, h: Handlers, submits: int -> bool)
    requires Core(st) && i < |st.streams|
    ensures var r := DispatchedOne(st, i, h, submits);
            r.methods == st.methods && r.maxMessageLen == st.maxMessageLen
  {
    hide Core, RequestPayload, FindMethod, Submitted, FinalizedError;
    var s := st.streams[i];
    if s.state == Complete && Refusal(st, s).None? {
      var m, payload := FindMethod(st.methods, s.path).value, RequestPayload(s.request, st.maxMessageLen).value;
      HandlerOpsKeep(st, i, m, h(m.handler, s.id, payload).ops);
    }
  }

  // ---- deadlines ----

  lemma SweepFollows(w: Cause, st: ConnState, now: nat)
    requires Core(st) && w == DeadlinesAt(now, st)
    ensures Follows(w, All(st), All(DeadlinesExpired(st, now)))
  {
    var a, b := All(st), All(DeadlinesExpired(st, now));
    hide Evolves, Due, Expired, Swept, Core, StreamOk, Expires;
    forall i | 0 <= i < |a| ensures Evolves(w, a[i], b[i]) {
      EvolvesRefl(w, a[i]);
      if i < |st.streams| {
        SweptAt(st.streams, EXPIRE_BATCH, now, i);
        if Due(a[i], now) {
          StreamAt(st, i);
          DueExpires(st, now, i);
          ExpiredEvolves(w, a[i], now);
        }
      }
    }
    FollowsPointwise(w, a, b);
  }

  lemma DueExpires(st: ConnState, now: nat, i: nat)
    requires i < |st.streams| && Due(st.streams[i], now)
    ensures Expires(DeadlinesAt(now, st), st.streams[i].id)
  {
    hide Due;
  }

  lemma ExpiredEvolves(w: Cause, s: StreamCtx, now: nat)
    requires StreamOk(s) && Due(s, now) && Expires(w, s.id)
    ensures Evolves(w, s, Expired(s))
  {
    hide QueueOk, Expires, SetsPolicy, Percent.Encoded, WithinCapacity;
    FlagsKeepBound(s.out.q, Expired(s).out.q);
  }

  // ---- output ----

  lemma DrainFacts(t: Traced, room: nat)
    requires QueueOk(t)
    ensures SameFlags(t.q, TDrain(t, room).q) && KeepsBound(t.q, TDrain(t, room).q)
  {
    hide EncodeHeader, Wire, Frames, Picks, Newest, Drained, Pending;
    StepKeepsOk(t, Drain(room));
    DrainKeepsFlags(t.q, room);
  }

  lemma PromiseFacts(t: Traced, max: nat)
    requires QueueOk(t)
    ensures SameFlags(t.q, Promised(t.q, max)) && KeepsBound(t.q, Promised(t.q, max))
  {
    hide EncodeHeader, Wire, Frames, Picks, Newest;
    StepKeepsOk(t, QueueModel.Promise(max));
  }

  lemma ReadEvolves(w: Cause, s: StreamCtx, window: nat, direct: bool)
    requires StreamOk(s) && s.provider.Active? && WellFormed(s.out.q)
    ensures Evolves(w, s, AfterRead(s, window, direct))
  {
    hide QueueOk, Drained, Pending, WellFormed, FrontRemaining, Promised, Decides, SetsPolicy, WithinCapacity;
    if ReadResultOf(s, window, direct).InPlace? {
      PromiseFacts(s.out, window);
    } else {
      DrainFacts(s.out, window);
    }
  }

  lemma SendEvolves(w: Cause, s: StreamCtx, n: nat)
    requires StreamOk(s) && WellFormed(s.out.q) && s.out.q.messages != [] && 0 < n
    ensures Evolves(w, s, s.(out := TConsume(s.out, n)))
  {
    hide QueueOk, WellFormed, Consumed, FrontBytes, Decides, SetsPolicy, WithinCapacity;
    ConsumeFacts(s.out, n);
  }

  lemma ConsumeFacts(t: Traced, n: nat)
    requires QueueOk(t) && 0 < n
    ensures SameFlags(t.q, Consumed(t.q, n)) && KeepsBound(t.q, Consumed(t.q, n))
  {
    hide EncodeHeader, Wire, Frames, Picks, Newest;
    StepKeepsOk(t, Consume(n));
  }

  lemma SendFollows(w: Cause, st: ConnState, room: nat)
    requires Core(st) && st.promise.Some?
    ensures Follows(w, All(st), All(AfterSend(st, room)))
  {
    NeverStale(st, room);
    PromiseHeader(st);
    var k := IndexOf(st.streams, st.promise.value.id);
    var r := SendResultOf(st, room);
    if r.Sent? || r.Paused? {
      SendShape(st, room);
      StreamAt(st, k);
      hide Core, Follows, Evolves, StreamOk, TConsume, WellFormed, FrontBytes, AfterSend, SendResultOf;
      SendEvolves(w, st.streams[k], st.promise.value.length);
      PutFollows(w, st, k, st.streams[k].(out := TConsume(st.streams[k].out, st.promise.value.length)));
    } else {
      hide Core, Follows;
      FollowsRefl(w, All(st));
    }
  }

  lemma {:induction false} PullFollows(w: Cause, st: ConnState, env: Env)
    requires Core(st) && SocketOk(st, []) && st.outPending == [] && ScriptOk(env.script)
    ensures Follows(w, All(st), All(PullSend(st, env).st))
    decreases |env.script|, if st.promise.Some? then 1 else 0
  {
    hide Core, SocketOk, ReadResultOf, AfterRead, AfterSend, SendResultOf, Follows, StreamOk, Evolves;
    if st.promise.Some? {
      var room := NextRoom(env);
      SendKeepsAll(st, room);
      NeverStale(st, room);
      SendFollows(w, st, room);
      var st', r := AfterSend(st, room), SendResultOf(st, room);
      if r.Sent? {
        PullFollows(w, st', RoomUsed(env));
        FollowsTrans(w, All(st), All(st'), All(PullSend(st', RoomUsed(env)).st));
      } else if r.StreamGone? {
        GoneIsQuiet(st, room);
        PullFollows(w, st', env);
        FollowsTrans(w, All(st), All(st'), All(PullSend(st', env).st));
      }
    } else if env.script == [] {
      FollowsRefl(w, All(st));
    } else {
      var env' := env.(script := env.script[1..]);
      match env.script[0] {
        case EmitControl(bytes) => FollowsRefl(w, All(st));
        case EmitData(id, window, hd) =>
          var k := IndexOf(st.streams, id);
          if !Readable(st, k) {
            PullFollows(w, st, env');
          } else {
            var s := st.streams[k];
            StreamAt(st, k);
            ReadKeepsAll(st, k, window, hd);
            ReadEvolves(w, s, window, st.fd >= 0);
            var st' := Put(st, k, AfterRead(s, window, st.fd >= 0));
            PutFollows(w, st, k, AfterRead(s, window, st.fd >= 0));
            match ReadResultOf(s, window, st.fd >= 0) {
              case InPlace(n) =>
                var st'' := st'.(promise := Some(PromiseFor(s, hd, n)));
                PullFollows(w, st'', env');
                FollowsTrans(w, All(st), All(st''), All(PullSend(st'', env').st));
              case Copied(bytes) =>
              case _ =>
                PullFollows(w, st', env');
                FollowsTrans(w, All(st), All(st'), All(PullSend(st', env').st));
            }
          }
      }
    }
  }

  lemma {:induction false} FlushFollows(w: Cause, st: ConnState, env: Env)
    requires ConnOk(st) && ScriptOk(env.script)
    ensures Follows(w, All(st), All(Flushed(st, env).st))
    decreases |env.script| + |env.rooms|
  {
    hide Core, SocketOk, PullSend, Follows;
    var n := |st.outPending|;
    if n > 0 {
      var sent := SendAll(env, n);
      WriteKeepsSocket(st, sent);
      if sent > 0 {
        FlushFollows(w, st.(socket := st.socket + Take(st.outPending, sent), outPending := st.outPending[Min(sent, n)..]),
                     AfterSendAll(env, n));
      } else {
        FollowsRefl(w, All(st));
      }
    } else {
      PullKeeps(st, env);
      PullFollows(w, st, env);
      var p := PullSend(st, env);
      if p.chunk != [] {
        var sent := SendAll(p.env, |p.chunk|);
        ChunkKeepsSocket(p.st, p.chunk, sent);
        if sent == |p.chunk| {
          var st' := p.st.(socket := p.st.socket + Take(p.chunk, sent),
                           outPending := p.st.outPending + p.chunk[Min(sent, |p.chunk|)..]);
          FlushFollows(w, st', AfterSendAll(p.env, |p.chunk|));
          FollowsTrans(w, All(st), All(st'), All(Flushed(st', AfterSendAll(p.env, |p.chunk|)).st));
        }
      }
    }
  }

  // ---- every run ----

  function CauseOf(st: ConnState, ev: Event): Cause {
    match ev
    case OnCallOf(id, Call(act)) => ActOn(id, act)
    case OnCallOf(id, _) => Arrives(id)
    case Dispatch(handlers, submits) => HandlersRun(handlers, st)
    case Expire(now) => DeadlinesAt(now, st)
    case _ => Nothing
  }

  lemma NextFollows(st: ConnState, ev: Event)
    requires ConnOk(st) && Allowed(st, ev)
    ensures Follows(CauseOf(st, ev), All(st), All(Next(st, ev)))
  {
    hide Core, SocketOk, Follows, Swept, SweptHooks, DispatchedFrom, Flushed, OnStream, StreamClosed, HookSet, DeadlinesExpired;
    var w := CauseOf(st, ev);
    match ev {
      case Open(id) => OpenFollows(w, st, id);
      case OnCallOf(id, change) => OnStreamFollows(w, st, id, change);
      case Close(id, errorCode) => CloseFollows(w, st, id, errorCode);
      case InstallHook(id) => HookSetFollows(w, st, id);
      case Dispatch(handlers, submits) => DispatchFollows(w, st, 0, submits);
      case Expire(now) => SweepFollows(w, st, now);
      case Flush(env) => FlushFollows(w, st, env);
    }
  }

  /** Over every run: a settled call keeps its outcome, and nothing shipped or accepted is taken back. */
  lemma {:induction false} EveryRunFollows(st: ConnState, evs: seq<Event>)
    requires ConnOk(st) && AllowedRun(st, evs)
    ensures Follows(Anything, All(st), All(RunConn(st, evs)))
    decreases |evs|
  {
    hide ConnOk, Next, Allowed, Follows, CauseOf;
    if evs == [] {
      FollowsRefl(Anything, All(st));
    } else {
      NextKeeps(st, evs[0]);
      NextFollows(st, evs[0]);
      FollowsWeaker(CauseOf(st, evs[0]), All(st), All(Next(st, evs[0])));
      EveryRunFollows(Next(st, evs[0]), evs[1..]);
      FollowsTrans(Anything, All(st), All(Next(st, evs[0])), All(RunConn(st, evs)));
    }
  }

  /** The later state of a call is the one stream with its id. */
  lemma LaterState(w: Cause, a: seq<StreamCtx>, b: seq<StreamCtx>, s: StreamCtx, later: StreamCtx)
    requires Follows(w, a, b) && IdsOk(b) && s in a && later in b && later.id == s.id
    ensures Evolves(w, s, later)
  {
    var i :| 0 <= i < |a| && a[i] == s;
    assert Found(w, a[i], b);
    var j :| 0 <= j < |b| && Evolves(w, s, b[j]);
    assert b[j].id == s.id;
    hide Evolves;
    var k :| 0 <= k < |b| && b[k] == later;
  }

  lemma HasLater(w: Cause, a: seq<StreamCtx>, b: seq<StreamCtx>, s: StreamCtx) returns (later: StreamCtx)
    requires Follows(w, a, b) && s in a
    ensures later in b && later.id == s.id && Evolves(w, s, later)
  {
    var i :| 0 <= i < |a| && a[i] == s;
    assert Found(w, a[i], b);
    var j :| 0 <= j < |b| && Evolves(w, s, b[j]);
    later := b[j];
  }

  lemma DistinctIds(st: ConnState)
    requires ConnOk(st)
    ensures IdsOk(All(st))
  {
  }

  /** From dispatch on the first decision stands: no later event of any run alters it. */
  lemma SettledIsFinal(st: ConnState, evs: seq<Event>, s: StreamCtx, later: StreamCtx)
    requires ConnOk(st) && AllowedRun(st, evs)
    requires s in All(st) && Settled(s)
    requires later in All(RunConn(st, evs)) && later.id == s.id
    ensures Settled(later) && later.out.q.finalStatus == s.out.q.finalStatus
    ensures later.out.q.finalMessage == s.out.q.finalMessage && later.out.accepted == s.out.accepted
  {
    hide ConnOk, AllowedRun, RunConn, All, Follows, Evolves, IdsOk;
    EveryRunFollows(st, evs);
    EveryRunKeeps(st, evs);
    DistinctIds(RunConn(st, evs));
    LaterState(Anything, All(st), All(RunConn(st, evs)), s, later);
    EvolvedIsSettled(Anything, s, later);
  }

  lemma EvolvedIsSettled(w: Cause, a: StreamCtx, b: StreamCtx)
    requires Evolves(w, a, b) && Settled(a)
    ensures Settled(b) && b.out.q.finalStatus == a.out.q.finalStatus
    ensures b.out.q.finalMessage == a.out.q.finalMessage && b.out.accepted == a.out.accepted
  {
  }
}
