/** Runs of a connection: any interleaving of peer, application, dispatch, sweep and flush events. */
module ConnRuns {
  import opened ConnModel
  import opened ConnProofs
  import opened DispatchProofs
  import opened DeadlineProofs
  import opened OutputProofs

  datatype Event =
    | Open(id: int)
    | OnCallOf(id: int, change: Change)
    | Close(id: int, errorCode: nat)
    | InstallHook(id: int)
    | Dispatch(handlers: Handlers, submits: int -> bool)
    | Expire(now: nat)
    | Flush(env: Env)

  /**
   * What the peer and nghttp2 guarantee: fresh stream ids, no frame that ends a request twice
   * (sections 5.1 and 5.1.1 of RFC 7540), positive read windows and 9-byte frame headers.
   */
  predicate Allowed(st: ConnState, ev: Event) {
    match ev
    case Open(id) => !Knows(st.streams + st.gone, id)
    case OnCallOf(id, change) => PeerMayOn(st, id, change)
    case Flush(env) => ScriptOk(env.script)
    case _ => true
  }

  function Next(st: ConnState, ev: Event): ConnState {
    match ev
    case Open(id) => Opened(st, id)
    case OnCallOf(id, change) => OnStream(st, id, change)
    case Close(id, errorCode) => StreamClosed(st, id, errorCode)
    case InstallHook(id) => HookSet(st, id)
    case Dispatch(handlers, submits) => DispatchedFrom(st, 0, handlers, submits)
    case Expire(now) => DeadlinesExpired(st, now)
    case Flush(env) => Flushed(st, env).st
  }

  lemma DispatchIs(st: ConnState, ev: Event)
    requires ev.Dispatch?
    ensures Next(st, ev) == DispatchedFrom(st, 0, ev.handlers, ev.submits) && Allowed(st, ev)
  {
  }

  function RunConn(st: ConnState, evs: seq<Event>): ConnState
    decreases |evs|
  {
    if evs == [] then st else RunConn(Next(st, evs[0]), evs[1..])
  }

  predicate AllowedRun(st: ConnState, evs: seq<Event>)
    decreases |evs|
  {
    evs == [] || (Allowed(st, evs[0]) && AllowedRun(Next(st, evs[0]), evs[1..]))
  }

  // ---- what arrives from the peer ----

  /** What nghttp2 makes of received bytes: the receive callbacks, with the connection's own limit. */
  predicate FromPeer(ev: Event, maxLen: nat) {
    match ev
    case Open(id) => true
    case OnCallOf(id, change) => !change.Call? && (change.DataChunk? ==> change.maxLen == maxLen)
    case Close(id, errorCode) => true
    case _ => false
  }

  /** A chunk that would take the request over the limit fails its callback, which ends the session. */
  predicate Fails(st: ConnState, ev: Event) {
    ev.OnCallOf? && ev.change.DataChunk? && var k := IndexOf(st.streams, ev.id);
    k < |st.streams| && |st.streams[k].request| + |ev.change.data| > ev.change.maxLen
  }

  datatype Receipt = Receipt(st: ConnState, failed: bool)

  function Received(st: ConnState, evs: seq<Event>): Receipt
    decreases |evs|
  {
    if evs == [] then Receipt(st, false)
    else if Fails(st, evs[0]) then Receipt(st, true)
    else Received(Next(st, evs[0]), evs[1..])
  }

  predicate RequestsFit(st: ConnState) {
    forall i :: 0 <= i < |st.streams| ==> |st.streams[i].request| <= st.maxMessageLen
  }

  /**
   * What was received is a run of its first events: all of them, or those before the first that
   * fails. Either way no request is over the limit.
   */
  lemma {:induction false} ReceivedIsRun(st: ConnState, evs: seq<Event>) returns (n: nat)
    requires RequestsFit(st) && forall i :: 0 <= i < |evs| ==> FromPeer(evs[i], st.maxMessageLen)
    ensures n <= |evs| && Received(st, evs).st == RunConn(st, evs[..n]) && RequestsFit(RunConn(st, evs[..n]))
    ensures if Received(st, evs).failed then n < |evs| && Fails(RunConn(st, evs[..n]), evs[n]) else n == |evs|
    decreases |evs|
  {
    n := 0;
    if evs != [] && !Fails(st, evs[0]) {
      PeerFits(st, evs[0]);
      hide Next, Fails, RequestsFit, FromPeer;
      n := ReceivedIsRun(Next(st, evs[0]), evs[1..]);
      n := n + 1;
      assert evs[..n][1..] == evs[1..][..n - 1];
    }
  }

  lemma PeerFits(st: ConnState, ev: Event)
    requires RequestsFit(st) && FromPeer(ev, st.maxMessageLen) && !Fails(st, ev)
    ensures RequestsFit(Next(st, ev)) && Next(st, ev).maxMessageLen == st.maxMessageLen
  {
    if ev.Close? && IndexOf(st.streams, ev.id) < |st.streams| { RemovedKeeps(st.streams, IndexOf(st.streams, ev.id)); }
  }

  lemma NothingSent(st: ConnState, st': ConnState)
    requires ConnOk(st) && Core(st') && st'.socket == st.socket && st'.outPending == st.outPending && st'.log == st.log
    ensures ConnOk(st')
  {
    hide Core;
  }

  /** Dispatch touches no byte on its way out. */
  lemma {:induction false} DispatchSendsNothing(st: ConnState, i: nat, h: Handlers, submits: int -> bool)
    requires i <= |st.streams|
    ensures var r := DispatchedFrom(st, i, h, submits);
            r.socket == st.socket && r.outPending == st.outPending && r.log == st.log
    decreases |st.streams| - i
  {
    if i < |st.streams| {
      DispatchOneSendsNothing(st, i, h, submits);
      hide DispatchedOne;
      DispatchSendsNothing(DispatchedOne(st, i, h, submits), i + 1, h, submits);
    }
  }

  lemma DispatchOneSendsNothing(st: ConnState, i: nat, h: Handlers, submits: int -> bool)
    requires i < |st.streams|
    ensures var r := DispatchedOne(st, i, h, submits);
            r.socket == st.socket && r.outPending == st.outPending && r.log == st.log
  {
    hide RequestPayload, FindMethod, Launched, HandlerReturned;
    var s := st.streams[i];
    if s.state == Complete && Refusal(st, s).None? {
      var m := FindMethod(st.methods, s.path).value;
      var out := h(FindMethod(st.methods, s.path).value.handler, s.id, RequestPayload(s.request, st.maxMessageLen).value);
      OpsSendNothing(Put(st, i, WithMethodPolicy(s, m)), out.ops);
    }
  }

  lemma {:induction false} OpsSendNothing(st: ConnState, ops: seq<CallOp>)
    ensures var r := ApplyOps(st, ops);
            r.socket == st.socket && r.outPending == st.outPending && r.log == st.log && r.gone == st.gone
    decreases |ops|
  {
    if ops != [] {
      OpsSendNothing(ApplyOp(st, ops[0]), ops[1..]);
    }
  }

  lemma NextKeeps(st: ConnState, ev: Event)
    requires ConnOk(st) && Allowed(st, ev)
    ensures ConnOk(Next(st, ev))
  {
    hide Core, SocketOk, Swept, SweptHooks, DispatchedFrom, Flushed;
    match ev {
      case Open(id) => OpenKeeps(st, id); NothingSent(st, Next(st, ev));
      case OnCallOf(id, change) => OnStreamKeeps(st, id, change); NothingSent(st, Next(st, ev));
      case Close(id, errorCode) => CloseKeeps(st, id, errorCode); NothingSent(st, Next(st, ev));
      case InstallHook(id) => HookSetKeeps(st, id); NothingSent(st, Next(st, ev));
      case Dispatch(handlers, submits) =>
        DispatchFromKeeps(st, 0, handlers, submits);
        DispatchSendsNothing(st, 0, handlers, submits);
        NothingSent(st, Next(st, ev));
      case Expire(now) => SweepKeeps(st, now); NothingSent(st, Next(st, ev));
      case Flush(env) => FlushKeeps(st, env);
    }
  }

  /** The invariant holds in every state any allowed run reaches. */
  lemma {:induction false} EveryRunKeeps(st: ConnState, evs: seq<Event>)
    requires ConnOk(st) && AllowedRun(st, evs)
    ensures ConnOk(RunConn(st, evs))
    decreases |evs|
  {
    hide ConnOk, Next, Allowed;
    if evs != [] {
      NextKeeps(st, evs[0]);
      EveryRunKeeps(Next(st, evs[0]), evs[1..]);
    }
  }
}
