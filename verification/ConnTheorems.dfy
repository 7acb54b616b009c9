/** What the connection invariant means for the peer and for the application, over every run. */
module ConnTheorems {
  import opened Bytes
  import opened Framing
  import opened QueueModel
  import opened QueueProofs
  import opened ConnModel
  import opened StreamProofs
  import opened ConnProofs
  import opened ConnRuns
  import Deframing

  /** A server connection after any allowed run of events. */
  ghost predicate Reachable(st: ConnState) {
    exists methods, maxLen: nat, fd, evs ::
      AllowedRun(Fresh(methods, maxLen, fd), evs) && st == RunConn(Fresh(methods, maxLen, fd), evs)
  }

  lemma ReachableOk(st: ConnState)
    requires Reachable(st)
    ensures ConnOk(st)
  {
    hide ConnOk;
    var methods, maxLen: nat, fd, evs :|
      AllowedRun(Fresh(methods, maxLen, fd), evs) && st == RunConn(Fresh(methods, maxLen, fd), evs);
    FreshConnOk(methods, maxLen, fd);
    EveryRunKeeps(Fresh(methods, maxLen, fd), evs);
  }

  predicate IsStream(st: ConnState, s: StreamCtx) {
    s in st.streams || s in st.gone
  }

  lemma StreamFacts(st: ConnState, s: StreamCtx)
    requires Reachable(st) && IsStream(st, s)
    ensures StreamOk(s) && DataOf(st.log, s.id) == s.out.shipped
  {
    ReachableOk(st);
    hide StreamOk, DataOf, Reachable, Knows, IdsOk, HooksOk, InvokedOk, PromiseOk;
    var all := st.streams + st.gone;
    assert s in all;
    var i :| 0 <= i < |all| && all[i] == s;
  }

  // ---- bytes ----

  /** For every pattern of partial writes, the wire carries the emitted frames in emission order. */
  lemma WireKeepsEmissionOrder(st: ConnState)
    requires Reachable(st)
    ensures st.socket + st.outPending == LogBytes(st.log)
    ensures st.socket <= LogBytes(st.log)
  {
    ReachableOk(st);
    assert st.socket + st.outPending + [] == st.socket + st.outPending;
  }

  /** A stream's DATA, then what it has queued, are the frames of its surviving messages. */
  lemma StreamBytesConserved(st: ConnState, s: StreamCtx)
    requires Reachable(st) && IsStream(st, s)
    ensures WellFormed(s.out.q) && DataOf(st.log, s.id) + Pending(s.out.q) == Frames(s.out.survivors)
  {
    StreamFacts(st, s);
    hide Reachable, IsStream, DataOf;
    Conservation(s.out);
  }

  /** No lost resume: a stream nghttp2 has been told to leave alone has nothing to send or to end. */
  lemma NoLostResume(st: ConnState, s: StreamCtx)
    requires Reachable(st) && IsStream(st, s) && s.provider.Deferred?
    ensures s.out.q.messages == [] && !s.out.q.finished
  {
    StreamFacts(st, s);
  }

  /** The trailer comes last, after every surviving message, with the final status and any text there is. */
  lemma TrailerComesLast(st: ConnState, s: StreamCtx)
    requires Reachable(st) && IsStream(st, s) && s.provider.Done?
    ensures DataOf(st.log, s.id) == Frames(s.out.survivors)
    ensures s.out.q.finished && s.provider.status == s.out.q.finalStatus
    ensures var text := s.out.q.finalMessage;
            s.provider.message == if text.Some? && text.value != [] then text else None
  {
    StreamFacts(st, s);
    StreamBytesConserved(st, s);
    hide Reachable, IsStream, DataOf, QueueOk, Frames;
    assert Pending(s.out.q) == [];
  }

  /** Handlers run at most once per call, and cancel hooks fire at most once. */
  lemma AtMostOnce(st: ConnState)
    requires Reachable(st)
    ensures forall i, j :: 0 <= i < j < |st.invoked| ==> st.invoked[i].id != st.invoked[j].id
    ensures forall i, j :: 0 <= i < j < |st.fired| ==> st.fired[i] != st.fired[j]
    ensures forall i :: 0 <= i < |st.streams| && st.streams[i].cancelHook.Some? ==>
              st.streams[i].cancelHook.value !in st.fired
  {
    ReachableOk(st);
    hide Reachable, StreamsOk, DataOk, PromiseOk, IdsOk, Knows;
  }

  // ---- the peer's view ----

  /** The part of one frame's payload for `id` that lies in its first `n` bytes. */
  function FrameDataWithin(f: WireFrame, n: nat, id: int): seq<byte> {
    if f.Data? && f.id == id && n > |f.hd| then Take(f.payload, n - |f.hd|) else []
  }

  /** The DATA of stream `id` among the first `n` bytes of the connection. */
  function DataWithin(log: seq<WireFrame>, n: nat, id: int): seq<byte> {
    if log == [] then []
    else
      var init := log[..|log| - 1];
      if n <= |LogBytes(init)| then DataWithin(init, n, id)
      else DataOf(init, id) + FrameDataWithin(log[|log| - 1], n - |LogBytes(init)|, id)
  }

  lemma {:induction false} DataWithinIsPrefix(log: seq<WireFrame>, n: nat, id: int)
    ensures DataWithin(log, n, id) <= DataOf(log, id)
    ensures n >= |LogBytes(log)| ==> DataWithin(log, n, id) == DataOf(log, id)
  {
    if log != [] {
      DataWithinIsPrefix(log[..|log| - 1], n, id);
    }
  }

  /**
   * End to end: whatever part of the connection's bytes has reached the client, and however its
   * nghttp2 cuts a stream's DATA into chunks, the client has taken out a prefix of the messages
   * that survived on that stream's queue.
   */
  lemma DeliveredIsPrefix(st: ConnState, s: StreamCtx, n: nat, chunks: seq<seq<byte>>)
    requires Reachable(st) && IsStream(st, s)
    requires n <= |st.socket| && Flatten(chunks) == DataWithin(st.log, n, s.id)
    ensures Deframing.FedAll(Deframing.Inbox([], []), chunks).messages <= s.out.survivors
  {
    StreamFacts(st, s);
    StreamBytesConserved(st, s);
    hide Reachable, IsStream, DataOf, DataWithin, Frames, Pending;
    DataWithinIsPrefix(st.log, n, s.id);
    SurvivorSizes(s.out);
    assert DataOf(st.log, s.id) <= Frames(s.out.survivors);
    assert DataWithin(st.log, n, s.id) <= Frames(s.out.survivors);
    Deframing.PrefixDeliversPrefix(s.out.survivors, chunks);
  }

  /** Once the trailer is out and every byte has arrived, the client has all of them up to its size limit. */
  lemma DeliveredInFull(st: ConnState, s: StreamCtx, chunks: seq<seq<byte>>)
    requires Reachable(st) && IsStream(st, s) && s.provider.Done?
    requires Flatten(chunks) == DataWithin(st.log, |LogBytes(st.log)|, s.id)
    ensures Deframing.FedAll(Deframing.Inbox([], []), chunks).messages ==
            s.out.survivors[..Deframing.Deliverable(s.out.survivors)]
  {
    hide Reachable, IsStream, DataOf, DataWithin, Frames, StreamOk, LogBytes, WellFormed, Deframing.Deframed,
         Deframing.FedAll, Deframing.Refused;
    TrailerComesLast(st, s);
    SizesOf(st, s);
    DataWithinIsPrefix(st.log, |LogBytes(st.log)|, s.id);
    Deframing.EmptyBuffer();
    Deframing.ChunkingIsInvisible(Deframing.Inbox([], []), chunks);
    Deframing.DeframedInvertsFrames(s.out.survivors);
    assert [] + Flatten(chunks) == Flatten(chunks);
  }

  lemma SizesOf(st: ConnState, s: StreamCtx)
    requires Reachable(st) && IsStream(st, s)
    ensures forall i :: 0 <= i < |s.out.survivors| ==> |s.out.survivors[i]| <= U32_MAX
  {
    StreamFacts(st, s);
    hide Reachable, IsStream, DataOf, QueueOk;
    SurvivorSizes(s.out);
  }

  lemma SurvivorSizes(t: Traced)
    requires QueueOk(t)
    ensures forall i :: 0 <= i < |t.survivors| ==> |t.survivors[i]| <= U32_MAX
  {
    hide BytesOk, Newest;
    assert forall i :: 0 <= i < |t.kept| ==> t.survivors[i] == t.accepted[t.kept[i]];
  }
}
