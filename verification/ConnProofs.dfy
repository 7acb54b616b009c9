/** What every event on a connection keeps, and what follows for every run. */
module ConnProofs {
  import opened Bytes
  import opened Framing
  import opened QueueModel
  import opened QueueProofs
  import opened ConnModel
  import opened StreamProofs

  // ---- the invariant ----

  /** Stream ids are never reused, not even after a close. */
  predicate IdsOk(all: seq<StreamCtx>) {
    forall i, j :: 0 <= i < j < |all| ==> all[i].id != all[j].id
  }

  ghost predicate StreamsOk(all: seq<StreamCtx>) {
    forall i :: 0 <= i < |all| ==> StreamOk(all[i])
  }

  predicate Knows(all: seq<StreamCtx>, id: int) {
    exists i :: 0 <= i < |all| && all[i].id == id
  }

  /** Each stream's emitted DATA is what its queue shipped. */
  ghost predicate DataOk(all: seq<StreamCtx>, log: seq<WireFrame>) {
    && (forall i :: 0 <= i < |all| ==> DataOf(log, all[i].id) == all[i].out.shipped)
    && (forall id :: !Knows(all, id) ==> DataOf(log, id) == [])
  }

  /** Bytes on the socket, then the ordered tail, then a chunk in hand, are the emitted bytes. */
  predicate SocketOk(st: ConnState, chunk: seq<byte>) {
    st.socket + st.outPending + chunk == LogBytes(st.log)
  }

  /** The promised bytes are still pinned at the head of the stream's queue. */
  predicate Pins(q: Queue, p: SendPromise) {
    && WellFormed(q) && q.frontCommitted && q.messages != [] && 0 < p.length <= FrontRemaining(q)
    && FrontBytes(q, p.length) == p.bytes
  }

  predicate PromiseOk(streams: seq<StreamCtx>, gone: seq<StreamCtx>, promise: Option<SendPromise>, fd: int) {
    promise.Some? ==>
      && |promise.value.hd| == FRAMEHD_LEN && 0 < promise.value.length && fd >= 0
      && Knows(streams + gone, promise.value.id)
      && forall i :: 0 <= i < |streams| && streams[i].id == promise.value.id ==> Pins(streams[i].out.q, promise.value)
  }

  /** A hook is in one place only: on one stream, or fired once. */
  predicate HooksOk(streams: seq<StreamCtx>, fired: seq<nat>, nextHook: nat) {
    && (forall i, j :: 0 <= i < j < |fired| ==> fired[i] != fired[j])
    && (forall i :: 0 <= i < |fired| ==> fired[i] < nextHook)
    && (forall i :: 0 <= i < |streams| && streams[i].cancelHook.Some? ==>
          streams[i].cancelHook.value < nextHook && streams[i].cancelHook.value !in fired)
    && (forall i, j :: 0 <= i < j < |streams| && streams[i].cancelHook.Some? ==>
          streams[i].cancelHook != streams[j].cancelHook)
  }

  predicate PastDispatch(s: StreamCtx) {
    s.state == Dispatched || s.state == Cancelled
  }

  /** No call is handed to a handler twice; one that was is past dispatch, or closed. */
  predicate InvokedOk(streams: seq<StreamCtx>, gone: seq<StreamCtx>, invoked: seq<Invocation>) {
    && (forall i, j :: 0 <= i < j < |invoked| ==> invoked[i].id != invoked[j].id)
    && (forall i :: 0 <= i < |invoked| ==> Knows(streams + gone, invoked[i].id))
    && (forall i, k :: 0 <= i < |invoked| && 0 <= k < |streams| && streams[k].id == invoked[i].id ==>
          PastDispatch(streams[k]))
  }

  /** Everything but the position of the bytes between emitter and socket. */
  ghost predicate Core(st: ConnState) {
    && IdsOk(st.streams + st.gone)
    && StreamsOk(st.streams + st.gone)
    && DataOk(st.streams + st.gone, st.log)
    && PromiseOk(st.streams, st.gone, st.promise, st.fd)
    && HooksOk(st.streams, st.fired, st.nextHook)
    && InvokedOk(st.streams, st.gone, st.invoked)
  }

  ghost predicate ConnOk(st: ConnState) {
    Core(st) && SocketOk(st, [])
  }

  function Fresh(methods: seq<MethodEntry>, maxMessageLen: nat, fd: int): ConnState {
    ConnState([], methods, maxMessageLen, fd, [], None, [], [], [], 0, [], [])
  }

  lemma FreshConnOk(methods: seq<MethodEntry>, maxMessageLen: nat, fd: int)
    ensures ConnOk(Fresh(methods, maxMessageLen, fd))
  {
  }

  lemma StreamAt(st: ConnState, k: nat)
    requires Core(st) && k < |st.streams|
    ensures StreamOk(st.streams[k])
  {
    hide StreamOk;
    assert (st.streams + st.gone)[k] == st.streams[k];
  }

  // ---- replacing one stream ----

  /** Looking a stream up by its id finds it. */
  lemma FoundAtHome(st: ConnState, i: nat)
    requires Core(st) && i < |st.streams|
    ensures IndexOf(st.streams, st.streams[i].id) == i
  {
    var all, k := st.streams + st.gone, IndexOf(st.streams, st.streams[i].id);
    assert IdsOk(all);
    hide Core;
    assert all[i] == st.streams[i] && (k < |st.streams| ==> all[k] == st.streams[k]);
  }

  lemma PutAll(st: ConnState, k: nat, s: StreamCtx)
    requires k < |st.streams|
    ensures (Put(st, k, s).streams + st.gone) == (st.streams + st.gone)[k := s]
  {
  }

  /** Same ids in the same places. */
  predicate SameIds(a: seq<StreamCtx>, b: seq<StreamCtx>) {
    |a| == |b| && forall i :: 0 <= i < |a| ==> a[i].id == b[i].id
  }

  lemma SameIdsKeep(a: seq<StreamCtx>, b: seq<StreamCtx>)
    requires SameIds(a, b)
    ensures IdsOk(a) ==> IdsOk(b)
    ensures forall id :: Knows(a, id) <==> Knows(b, id)
  {
    forall id ensures Knows(a, id) <==> Knows(b, id) {
      assert forall i :: 0 <= i < |a| ==> a[i].id == b[i].id;
    }
  }

  lemma SameShippedKeep(a: seq<StreamCtx>, b: seq<StreamCtx>, log: seq<WireFrame>)
    requires SameIds(a, b) && DataOk(a, log)
    requires forall i :: 0 <= i < |a| ==> a[i].out.shipped == b[i].out.shipped
    ensures DataOk(b, log)
  {
    hide DataOf;
    SameIdsKeep(a, b);
    hide Knows;
  }

  /** A replacement that keeps identity, shipped bytes, hook, pinned bytes and dispatch progress. */
  ghost predicate Replaces(promise: Option<SendPromise>, was: StreamCtx, s: StreamCtx) {
    && s.id == was.id && s.out.shipped == was.out.shipped && s.cancelHook == was.cancelHook
    && StreamOk(s)
    && (PastDispatch(was) ==> PastDispatch(s))
    && (promise.Some? && promise.value.id == was.id && Pins(was.out.q, promise.value) ==> Pins(s.out.q, promise.value))
  }

  lemma PutKeepsHooks(streams: seq<StreamCtx>, k: nat, s: StreamCtx, fired: seq<nat>, nextHook: nat)
    requires k < |streams| && s.cancelHook == streams[k].cancelHook && HooksOk(streams, fired, nextHook)
    ensures HooksOk(streams[k := s], fired, nextHook)
  {
    assert forall i :: 0 <= i < |streams| ==> streams[k := s][i].cancelHook == streams[i].cancelHook;
  }

  lemma PutKeepsPromise(streams: seq<StreamCtx>, k: nat, s: StreamCtx, gone: seq<StreamCtx>, promise: Option<SendPromise>, fd: int)
    requires k < |streams| && Replaces(promise, streams[k], s) && PromiseOk(streams, gone, promise, fd)
    ensures PromiseOk(streams[k := s], gone, promise, fd)
  {
    hide StreamOk, Pins;
    SameIdsKeep(streams + gone, streams[k := s] + gone);
    hide Knows;
  }

  lemma PutKeepsInvoked(streams: seq<StreamCtx>, k: nat, s: StreamCtx, gone: seq<StreamCtx>, invoked: seq<Invocation>)
    requires k < |streams| && s.id == streams[k].id && InvokedOk(streams, gone, invoked)
    requires PastDispatch(streams[k]) ==> PastDispatch(s)
    ensures InvokedOk(streams[k := s], gone, invoked)
  {
    SameIdsKeep(streams + gone, streams[k := s] + gone);
    hide Knows;
  }

  lemma PutKeeps(st: ConnState, k: nat, s: StreamCtx)
    requires Core(st) && k < |st.streams| && Replaces(st.promise, st.streams[k], s)
    ensures Core(Put(st, k, s))
  {
    hide StreamOk, Pins, DataOf, Knows, HooksOk, InvokedOk, PromiseOk, DataOk, IdsOk;
    var all, all' := st.streams + st.gone, Put(st, k, s).streams + st.gone;
    PutAll(st, k, s);
    SameIdsKeep(all, all');
    SameShippedKeep(all, all', st.log);
    PutKeepsHooks(st.streams, k, s, st.fired, st.nextHook);
    PutKeepsPromise(st.streams, k, s, st.gone, st.promise, st.fd);
    PutKeepsInvoked(st.streams, k, s, st.gone, st.invoked);
  }

  // ---- application and peer events ----

  lemma ChangeReplaces(promise: Option<SendPromise>, s: StreamCtx, c: Change)
    requires StreamOk(s) && PeerMay(s, c)
    ensures Replaces(promise, s, Changed(s, c))
  {
    hide QueueOk;
    ChangeKeeps(s, c);
    if promise.Some? && Pins(s.out.q, promise.value) && c.Call? && c.act.Write? {
      hide EncodeHeader, Without, Wire;
      PinnedStep(s.out.q, Enqueue(c.act.body), s.out);
    }
  }

  /** The stream an event is about, if any, must allow it. */
  predicate PeerMayOn(st: ConnState, id: int, c: Change) {
    var k := IndexOf(st.streams, id);
    k < |st.streams| ==> PeerMay(st.streams[k], c)
  }

  lemma OnStreamKeeps(st: ConnState, id: int, c: Change)
    requires Core(st) && PeerMayOn(st, id, c)
    ensures Core(OnStream(st, id, c))
  {
    hide Core, Replaces, StreamOk, Changed;
    var k := IndexOf(st.streams, id);
    if k < |st.streams| {
      StreamAt(st, k);
      ChangeReplaces(st.promise, st.streams[k], c);
      PutKeeps(st, k, Changed(st.streams[k], c));
    }
  }

  lemma OpenKeeps(st: ConnState, id: int)
    requires Core(st) && !Knows(st.streams + st.gone, id)
    ensures Core(Opened(st, id))
  {
    hide StreamOk, Pins, DataOf, Knows;
    NewStreamOk(id);
    var st', n := Opened(st, id), |st.streams|;
    var all, all', s := st.streams + st.gone, st'.streams + st'.gone, NewStream(id);
    assert all' == all[..n] + [s] + all[n..];
    InsertKeepsIds(all, n, s);
    assert DataOk(all', st'.log) by {
      assert s.out.shipped == [];
      assert forall i :: 0 <= i < |all'| ==> all'[i] == if i < n then all[i] else if i == n then s else all[i - 1];
    }
    assert HooksOk(st'.streams, st'.fired, st'.nextHook);
    assert InvokedOk(st'.streams, st'.gone, st'.invoked);
    assert PromiseOk(st'.streams, st'.gone, st'.promise, st'.fd);
  }

  lemma InsertKeepsIds(all: seq<StreamCtx>, n: nat, s: StreamCtx)
    requires n <= |all| && IdsOk(all) && !Knows(all, s.id)
    ensures IdsOk(all[..n] + [s] + all[n..])
    ensures forall id :: Knows(all[..n] + [s] + all[n..], id) <==> id == s.id || Knows(all, id)
  {
    var all' := all[..n] + [s] + all[n..];
    assert forall i :: 0 <= i < |all'| ==> all'[i] == if i < n then all[i] else if i == n then s else all[i - 1];
    forall id ensures Knows(all', id) <==> id == s.id || Knows(all, id) {
      if Knows(all, id) {
        var i :| 0 <= i < |all| && all[i].id == id;
        assert all'[if i < n then i else i + 1] == all[i];
      }
      assert all'[n].id == s.id;
    }
  }

  lemma HookSetKeeps(st: ConnState, id: int)
    requires Core(st)
    ensures Core(HookSet(st, id))
  {
    var k := IndexOf(st.streams, id);
    if k < |st.streams| {
      StreamAt(st, k);
      HookKeepsStream(st.streams[k], Some(st.nextHook));
      hide StreamOk, DataOf, Pins, Knows, HooksOk, InvokedOk, DataOk, IdsOk, PromiseOk;
      var s := st.streams[k].(cancelHook := Some(st.nextHook));
      var all, all' := st.streams + st.gone, Put(st, k, s).streams + st.gone;
      PutAll(st, k, s);
      SameIdsKeep(all, all');
      SameShippedKeep(all, all', st.log);
      PutKeepsInvoked(st.streams, k, s, st.gone, st.invoked);
      NewHookKeeps(st.streams, k, s, st.fired, st.nextHook);
      PutKeepsPinned(st.streams, k, s, st.gone, st.promise, st.fd);
    }
  }

  lemma HookKeepsStream(s: StreamCtx, hook: Option<nat>)
    requires StreamOk(s)
    ensures StreamOk(s.(cancelHook := hook))
  {
    hide QueueOk;
  }

  lemma PutKeepsPinned(streams: seq<StreamCtx>, k: nat, s: StreamCtx, gone: seq<StreamCtx>, promise: Option<SendPromise>, fd: int)
    requires k < |streams| && s.id == streams[k].id && s.out.q == streams[k].out.q && PromiseOk(streams, gone, promise, fd)
    ensures PromiseOk(streams[k := s], gone, promise, fd)
  {
    hide Pins;
    SameIdsKeep(streams + gone, streams[k := s] + gone);
    hide Knows;
  }

  lemma NewHookKeeps(streams: seq<StreamCtx>, k: nat, s: StreamCtx, fired: seq<nat>, nextHook: nat)
    requires k < |streams| && s.cancelHook == Some(nextHook) && HooksOk(streams, fired, nextHook)
    ensures HooksOk(streams[k := s], fired, nextHook + 1)
  {
  }

  /** The last stream moves into the gap a closed one leaves; the closed one keeps its history. */
  lemma CloseKeeps(st: ConnState, id: int, errorCode: nat)
    requires Core(st)
    ensures Core(StreamClosed(st, id, errorCode))
  {
    var k := IndexOf(st.streams, id);
    if k < |st.streams| {
      hide StreamOk, DataOf, Pins, Knows, HooksOk, InvokedOk, PromiseOk, DataOk, IdsOk, Rearranged, SwapRemove;
      var n := |st.streams|;
      var all := st.streams + st.gone;
      var streams', gone' := SwapRemove(st.streams, k), st.gone + [st.streams[k]];
      assert streams' + gone' == Rearranged(all, k, n) by { CloseIsRearranged(st.streams, st.gone, k); }
      CloseRearranges(all, k, n);
      CloseKeepsData(all, k, n, st.log);
      CloseKeepsHooks(st.streams, k, st.fired, st.nextHook, errorCode != 0);
      CloseKeepsCalls(st.streams, st.gone, k, st.invoked, st.promise, st.fd);
    }
  }

  lemma CloseIsRearranged(streams: seq<StreamCtx>, gone: seq<StreamCtx>, k: nat)
    requires k < |streams|
    ensures SwapRemove(streams, k) + (gone + [streams[k]]) == Rearranged(streams + gone, k, |streams|)
  {
    assert (streams + gone)[..|streams|] == streams;
    assert (streams + gone)[|streams|..] == gone;
  }

  lemma CloseKeepsData(all: seq<StreamCtx>, k: nat, n: nat, log: seq<WireFrame>)
    requires k < n <= |all| && DataOk(all, log) && StreamsOk(all)
    ensures DataOk(Rearranged(all, k, n), log) && StreamsOk(Rearranged(all, k, n))
  {
    hide StreamOk, DataOf, Knows, Rearranged;
    CloseRearranges(all, k, n);
  }

  lemma CloseKeepsCalls(streams: seq<StreamCtx>, gone: seq<StreamCtx>, k: nat, invoked: seq<Invocation>, promise: Option<SendPromise>, fd: int)
    requires k < |streams| && InvokedOk(streams, gone, invoked) && PromiseOk(streams, gone, promise, fd)
    ensures InvokedOk(SwapRemove(streams, k), gone + [streams[k]], invoked)
    ensures PromiseOk(SwapRemove(streams, k), gone + [streams[k]], promise, fd)
  {
    hide Pins, Knows, Rearranged, SwapRemove;
    CloseIsRearranged(streams, gone, k);
    CloseRearranges(streams + gone, k, |streams|);
    RemovedKeeps(streams, k);
  }

  function Rearranged(all: seq<StreamCtx>, k: nat, n: nat): seq<StreamCtx>
    requires k < n <= |all|
  {
    SwapRemove(all[..n], k) + (all[n..] + [all[k]])
  }

  lemma RemovedKeeps(streams: seq<StreamCtx>, k: nat)
    requires k < |streams|
    ensures var r := SwapRemove(streams, k);
            |r| == |streams| - 1 && forall i :: 0 <= i < |r| ==> r[i] == streams[if i == k then |streams| - 1 else i]
  {
  }

  lemma CloseRearranges(all: seq<StreamCtx>, k: nat, n: nat)
    requires k < n <= |all|
    ensures var all' := Rearranged(all, k, n);
            && |all'| == |all|
            && (forall i :: 0 <= i < |all| ==>
                 all'[i] == all[if i < n - 1 then (if i == k then n - 1 else i) else if i < |all| - 1 then i + 1 else k])
            && (IdsOk(all) ==> IdsOk(all'))
            && forall id :: Knows(all, id) <==> Knows(all', id)
  {
    var all' := Rearranged(all, k, n);
    assert forall i :: 0 <= i < |all| ==>
             all'[i] == all[if i < n - 1 then (if i == k then n - 1 else i) else if i < |all| - 1 then i + 1 else k];
    forall id | Knows(all, id) ensures Knows(all', id) {
      var i :| 0 <= i < |all| && all[i].id == id;
      var j := if i == k then |all| - 1 else if i == n - 1 then k else if i < n then i else i - 1;
      assert all'[j] == all[i];
    }
  }

  lemma CloseKeepsHooks(streams: seq<StreamCtx>, k: nat, fired: seq<nat>, nextHook: nat, fires: bool)
    requires k < |streams| && HooksOk(streams, fired, nextHook)
    ensures HooksOk(SwapRemove(streams, k), fired + if fires then HookOf(streams[k]) else [], nextHook)
  {
    RemovedKeeps(streams, k);
    var r := SwapRemove(streams, k);
    forall i | 0 <= i < |r| && r[i].cancelHook.Some?
      ensures r[i].cancelHook != streams[k].cancelHook
    {
    }
  }
}
