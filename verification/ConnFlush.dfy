/** Progress: with room on the socket a flush leaves nothing behind, and a readable stream's bytes go out. */
module ConnFlush {
  import opened Bytes
  import opened QueueModel
  import opened QueueProofs
  import opened ConnModel
  import opened StreamProofs
  import opened ConnProofs
  import opened OutputProofs
  import opened ConnRequests

  predicate Fits(e: Emit, most: nat) {
    match e
    case EmitControl(bytes) => 0 < |bytes| <= most
    case EmitData(id, window, hd) => |hd| + window <= most
  }

  predicate AllFit(env: Env, most: nat) {
    && (forall i :: 0 <= i < |env.script| ==> Fits(env.script[i], most))
    && (forall i :: 0 <= i < |env.rooms| ==> env.rooms[i] >= most)
  }

  /** Every write takes `most` bytes, no frame is longer, and each frame to come or piece waiting has its write. */
  predicate Ample(st: ConnState, env: Env, most: nat) {
    && 0 < most && |st.outPending| <= most && AllFit(env, most)
    && (st.promise.Some? ==> |st.promise.value.hd| + st.promise.value.length <= most)
    && |env.rooms| >= |env.script| + (if st.promise.Some? then 1 else 0) + (if st.outPending != [] then 1 else 0)
  }

  lemma OneWrite(env: Env, n: nat, most: nat)
    requires 0 < n <= most && env.rooms != [] && env.rooms[0] >= most
    ensures SendAll(env, n) == n && AfterSendAll(env, n) == RoomUsed(env)
  {
    assert SendAll(RoomUsed(env), 0) == 0 && AfterSendAll(RoomUsed(env), 0) == RoomUsed(env);
  }

  /** What is left once the pull is over: nothing promised, and room for the chunk and the rest of the script. */
  predicate PulledAll(p: Pulled, most: nat) {
    && p.st.promise.None? && p.st.outPending == [] && |p.chunk| <= most && AllFit(p.env, most)
    && (p.chunk == [] ==> p.env.script == [])
    && |p.env.rooms| >= |p.env.script| + (if p.chunk != [] then 1 else 0)
  }

  lemma RoomForPromise(st: ConnState, env: Env, most: nat)
    requires Core(st) && st.promise.Some? && st.outPending == [] && Ample(st, env, most)
    ensures var r := SendResultOf(st, NextRoom(env)); r.Sent? || r.StreamGone?
  {
    NeverStale(st, NextRoom(env));
    PromiseHeader(st);
    assert st.fd >= 0 by { hide StreamsOk, DataOk, HooksOk, InvokedOk, IdsOk, Pins, Knows; }
    hide Core, WellFormed, FrontBytes;
  }

  lemma {:induction false} PullAmple(st: ConnState, env: Env, most: nat)
    requires Core(st) && SocketOk(st, []) && st.outPending == [] && ScriptOk(env.script) && Ample(st, env, most)
    ensures PulledAll(PullSend(st, env), most)
    decreases |env.script|, if st.promise.Some? then 1 else 0
  {
    hide Core, SocketOk, ReadResultOf, AfterRead, AfterSend, SendResultOf;
    if st.promise.Some? {
      var room := NextRoom(env);
      RoomForPromise(st, env, most);
      SendKeepsAll(st, room);
      var st', r := AfterSend(st, room), SendResultOf(st, room);
      if r.Sent? {
        PullAmple(st', RoomUsed(env), most);
      } else {
        GoneIsQuiet(st, room);
        PullAmple(st', env, most);
      }
    } else if env.script != [] {
      var env' := env.(script := env.script[1..]);
      assert Fits(env.script[0], most) && AllFit(env', most);
      match env.script[0] {
        case EmitControl(bytes) =>
        case EmitData(id, window, hd) =>
          var k := IndexOf(st.streams, id);
          if !Readable(st, k) {
            PullAmple(st, env', most);
          } else {
            var s := st.streams[k];
            ReadKeepsAll(st, k, window, hd);
            ReadBounds(s, window, st.fd >= 0);
            var st' := Put(st, k, AfterRead(s, window, st.fd >= 0));
            match ReadResultOf(s, window, st.fd >= 0) {
              case InPlace(n) => PullAmple(st'.(promise := Some(PromiseFor(s, hd, n))), env', most);
              case Copied(bytes) =>
              case _ => PullAmple(st', env', most);
            }
          }
      }
    }
  }

  lemma ReadBounds(s: StreamCtx, window: nat, direct: bool)
    requires WellFormed(s.out.q)
    ensures var r := ReadResultOf(s, window, direct);
            (r.InPlace? ==> r.length <= window) && (r.Copied? ==> 0 < |r.bytes| <= window)
  {
    hide WellFormed, Pending, FrontRemaining;
  }

  /** With ample room nothing is left: no tail, no promise, no frame to come, and every byte emitted is out. */
  lemma {:induction false} FlushCompletes(st: ConnState, env: Env, most: nat)
    requires ConnOk(st) && ScriptOk(env.script) && Ample(st, env, most)
    ensures var r := Flushed(st, env);
            && r.st.outPending == [] && r.st.promise.None? && r.env.script == []
            && r.st.socket == LogBytes(r.st.log)
    decreases |env.script| + |env.rooms|
  {
    hide Core, SocketOk, PullSend, SendAll, AfterSendAll, LogBytes;
    var n := |st.outPending|;
    if n > 0 {
      OneWrite(env, n, most);
      WriteKeepsSocket(st, n);
      FlushCompletes(st.(socket := st.socket + Take(st.outPending, n), outPending := st.outPending[Min(n, n)..]),
                     RoomUsed(env), most);
    } else {
      PullKeeps(st, env);
      PullAmple(st, env, most);
      var p := PullSend(st, env);
      if p.chunk != [] {
        OneWrite(p.env, |p.chunk|, most);
        ChunkKeepsSocket(p.st, p.chunk, |p.chunk|);
        FlushCompletes(p.st.(socket := p.st.socket + Take(p.chunk, |p.chunk|),
                             outPending := p.st.outPending + p.chunk[Min(|p.chunk|, |p.chunk|)..]),
                       RoomUsed(p.env), most);
      } else {
        AllOut(p.st);
      }
    }
  }

  lemma AllOut(st: ConnState)
    requires SocketOk(st, []) && st.outPending == []
    ensures st.socket == LogBytes(st.log)
  {
    assert st.socket + [] + [] == st.socket;
  }

  // ---- what is read goes out ----

  /** How many bytes a read of the stream ships: of the head alone when it is sent from place, of the queue otherwise. */
  function ShippedBy(q: Queue, window: nat, direct: bool): nat
    requires WellFormed(q)
  {
    if direct && FrontRemaining(q) >= 4096 then Min(FrontRemaining(q), window) else Min(|Pending(q)|, window)
  }

  /**
   * When nghttp2 asks for DATA of a stream whose response is under way and that has bytes queued, the
   * next frame of the connection carries the first of them, as many as the window and the path allow.
   */
  lemma DataGoesOut(st: ConnState, env: Env, k: nat, most: nat)
    requires Core(st) && SocketOk(st, []) && st.outPending == [] && st.promise.None?
    requires ScriptOk(env.script) && Ample(st, env, most) && env.script != [] && env.script[0].EmitData?
    requires k < |st.streams| && env.script[0].id == st.streams[k].id && st.streams[k].provider.Active?
    requires WellFormed(st.streams[k].out.q) && Pending(st.streams[k].out.q) != []
    ensures var s, e := st.streams[k], env.script[0];
            var n := ShippedBy(s.out.q, e.window, st.fd >= 0);
            && 0 < n <= |Pending(s.out.q)|
            && st.log + [Data(s.id, e.hd, Pending(s.out.q)[..n])] <= PullSend(st, env).st.log
  {
    hide Core, SocketOk, IndexOf, ScriptOk, Pending, FrontRemaining, WellFormed, PullSend, FrontBytes;
    FoundAtHome(st, k);
    var s, e := st.streams[k], env.script[0];
    FirstOk(env.script);
    FrontOfPending(s.out.q, e.window);
    if st.fd >= 0 && FrontRemaining(s.out.q) >= NOCOPY_MIN {
      PromisedGoesOut(st, env, k);
    } else {
      CopiedGoesOut(st, env, k);
    }
  }

  lemma CopiedGoesOut(st: ConnState, env: Env, k: nat)
    requires st.promise.None? && env.script != [] && env.script[0].EmitData? && env.script[0].window > 0
    requires IndexOf(st.streams, env.script[0].id) == k < |st.streams| && env.script[0].id == st.streams[k].id
    requires st.streams[k].provider.Active? && WellFormed(st.streams[k].out.q) && Pending(st.streams[k].out.q) != []
    requires !(st.fd >= 0 && FrontRemaining(st.streams[k].out.q) >= NOCOPY_MIN)
    ensures var s, e := st.streams[k], env.script[0];
            PullSend(st, env).st.log == st.log + [Data(s.id, e.hd, Pending(s.out.q)[..Min(|Pending(s.out.q)|, e.window)])]
  {
    hide Pending, FrontRemaining, WellFormed, IndexOf, Drained;
    var s, e := st.streams[k], env.script[0];
    assert ReadResultOf(s, e.window, st.fd >= 0) == Copied(Take(Pending(s.out.q), e.window));
    assert Take(Pending(s.out.q), e.window) == Pending(s.out.q)[..Min(|Pending(s.out.q)|, e.window)];
  }

  lemma FirstOk(script: seq<Emit>)
    requires ScriptOk(script) && script != [] && script[0].EmitData?
    ensures script[0].window > 0 && |script[0].hd| == FRAMEHD_LEN
  {
  }

  lemma FrontOfPending(q: Queue, n: nat)
    requires WellFormed(q)
    ensures FrontRemaining(q) <= |Pending(q)|
    ensures FrontBytes(q, Min(FrontRemaining(q), n)) == Pending(q)[..Min(FrontRemaining(q), n)]
  {
    if q.messages != [] { assert Framed(q.messages[0]); WireIsFrame(q.messages[0]); }
    hide Wire, WireAll;
  }

  lemma PromisedGoesOut(st: ConnState, env: Env, k: nat)
    requires Core(st) && SocketOk(st, []) && st.outPending == [] && st.promise.None?
    requires env.script != [] && env.script[0].EmitData? && env.script[0].window > 0 && |env.script[0].hd| == FRAMEHD_LEN
    requires IndexOf(st.streams, env.script[0].id) == k < |st.streams| && env.script[0].id == st.streams[k].id
    requires st.streams[k].provider.Active? && WellFormed(st.streams[k].out.q)
    requires st.fd >= 0 && FrontRemaining(st.streams[k].out.q) >= NOCOPY_MIN
    requires env.rooms != [] && env.rooms[0] >= |env.script[0].hd| + env.script[0].window
    ensures var s, e := st.streams[k], env.script[0];
            var n := Min(FrontRemaining(s.out.q), e.window);
            st.log + [Data(s.id, e.hd, FrontBytes(s.out.q, n))] <= PullSend(st, env).st.log
  {
    hide Core, SocketOk, WellFormed, FrontBytes, FrontRemaining;
    var s, e := st.streams[k], env.script[0];
    var env', n := env.(script := env.script[1..]), Min(FrontRemaining(s.out.q), e.window);
    ReadKeepsAll(st, k, e.window, e.hd);
    var st1 := Put(st, k, AfterRead(s, e.window, true)).(promise := Some(PromiseFor(s, e.hd, n)));
    assert PullSend(st, env) == PullSend(st1, env');
    PutKeepsPlace(st.streams, k, AfterRead(s, e.window, true), e.id);
    NeverStale(st1, NextRoom(env'));
    PromiseHeader(st1);
    assert SendResultOf(st1, NextRoom(env')).Sent?;
    SendShape(st1, NextRoom(env'));
    PullInvokesNothing(AfterSend(st1, NextRoom(env')), RoomUsed(env'));
  }

  lemma PutKeepsPlace(streams: seq<StreamCtx>, k: nat, s: StreamCtx, id: int)
    requires IndexOf(streams, id) == k < |streams| && s.id == id
    ensures IndexOf(streams[k := s], id) == k
  {
    var b := streams[k := s];
    assert b[k].id == id && forall j :: 0 <= j < k ==> b[j] == streams[j];
    assert IndexOf(b, id) <= k;
  }
}
