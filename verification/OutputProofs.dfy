/** From the queues to the socket: nothing emitted is lost, repeated or reordered. */
module OutputProofs {
  import opened Bytes
  import opened Framing
  import opened QueueModel
  import opened QueueProofs
  import opened ConnModel
  import opened StreamProofs
  import opened ConnProofs

  // ---- the emission log ----

  lemma LogAppend(log: seq<WireFrame>, f: WireFrame)
    ensures LogBytes(log + [f]) == LogBytes(log) + FrameBytes(f)
  {
    assert (log + [f])[..|log|] == log;
  }

  lemma DataAppend(log: seq<WireFrame>, f: WireFrame, id: int)
    ensures DataOf(log + [f], id) == DataOf(log, id) + FrameData(f, id)
  {
    assert (log + [f])[..|log|] == log;
  }

  lemma ControlKeepsData(all: seq<StreamCtx>, log: seq<WireFrame>, bytes: seq<byte>)
    requires DataOk(all, log)
    ensures DataOk(all, log + [Control(bytes)])
  {
    hide DataOf, Knows;
    forall id ensures DataOf(log + [Control(bytes)], id) == DataOf(log, id) {
      DataAppend(log, Control(bytes), id);
    }
  }

  /** A DATA frame extends the record of its own stream and of no other. */
  lemma EmitKeepsData(all: seq<StreamCtx>, k: nat, s: StreamCtx, log: seq<WireFrame>, hd: seq<byte>, payload: seq<byte>)
    requires k < |all| && IdsOk(all) && DataOk(all, log)
    requires s.id == all[k].id && s.out.shipped == all[k].out.shipped + payload
    ensures DataOk(all[k := s], log + [Data(s.id, hd, payload)])
  {
    hide DataOf;
    var all', f := all[k := s], Data(s.id, hd, payload);
    SameIdsKeep(all, all');
    hide Knows;
    forall id ensures DataOf(log + [f], id) == DataOf(log, id) + (if id == s.id then payload else []) {
      DataAppend(log, f, id);
    }
    forall i | 0 <= i < |all'| ensures DataOf(log + [f], all'[i].id) == all'[i].out.shipped {
      if i != k { assert all[i].id != all[k].id; }
    }
    assert Knows(all, all[k].id) by { AtKnows(all, k); }
  }

  lemma AtKnows(all: seq<StreamCtx>, k: nat)
    requires k < |all|
    ensures Knows(all, all[k].id)
  {
  }

  lemma EmitKeeps(st: ConnState, k: nat, s: StreamCtx, hd: seq<byte>, payload: seq<byte>)
    requires Core(st) && k < |st.streams|
    requires s.id == st.streams[k].id && s.out.shipped == st.streams[k].out.shipped + payload
    requires StreamOk(s) && s.cancelHook == st.streams[k].cancelHook && s.state == st.streams[k].state
    ensures Core(Put(st, k, s).(promise := None, log := st.log + [Data(s.id, hd, payload)]))
  {
    hide StreamOk, DataOf, Knows, HooksOk, InvokedOk, DataOk, IdsOk;
    var all, all' := st.streams + st.gone, Put(st, k, s).streams + st.gone;
    PutAll(st, k, s);
    SameIdsKeep(all, all');
    EmitKeepsData(all, k, s, st.log, hd, payload);
    PutKeepsHooks(st.streams, k, s, st.fired, st.nextHook);
    PutKeepsInvoked(st.streams, k, s, st.gone, st.invoked);
  }

  // ---- the send-data callback ----

  lemma PinsBytes(q: Queue, p: SendPromise)
    requires Pins(q, p)
    ensures |FrontBytes(q, p.length)| == p.length && FrontBytes(q, p.length) == p.bytes
  {
    hide EncodeHeader, Wire;
    assert Framed(q.messages[0]);
  }

  /** A promise is never stale: its stream is gone, or holds exactly the bytes it was made for. */
  lemma NeverStale(st: ConnState, room: nat)
    requires Core(st) && st.promise.Some?
    ensures SendResultOf(st, room) != Stale
    ensures var p, k := st.promise.value, IndexOf(st.streams, st.promise.value.id);
            k < |st.streams| ==>
              && WellFormed(st.streams[k].out.q) && |p.bytes| == p.length
              && FrontBytes(st.streams[k].out.q, p.length) == p.bytes
  {
    hide StreamOk, Pins, Knows, DataOk, FrontBytes, WellFormed, StreamsOk, HooksOk, InvokedOk;
    var k := IndexOf(st.streams, st.promise.value.id);
    if k < |st.streams| {
      assert Pins(st.streams[k].out.q, st.promise.value);
      PinsBytes(st.streams[k].out.q, st.promise.value);
      PinsParts(st.streams[k].out.q, st.promise.value);
    }
  }

  lemma PinsParts(q: Queue, p: SendPromise)
    requires Pins(q, p)
    ensures WellFormed(q) && q.messages != [] && 0 < p.length
  {
  }

  /** A frame cut anywhere: the sent part and the kept tail are the frame. */
  lemma CutFrame(socket: seq<byte>, whole: seq<byte>, room: nat)
    ensures (socket + Take(whole, room)) + whole[Min(room, |whole|)..] == socket + whole
  {
  }

  lemma SendKeepsAll(st: ConnState, room: nat)
    requires Core(st) && st.promise.Some? && SocketOk(st, [])
    ensures Core(AfterSend(st, room)) && SocketOk(AfterSend(st, room), [])
    ensures AfterSend(st, room).promise.Some? ==> SendResultOf(st, room).WouldBlock?
    ensures SendResultOf(st, room).Sent? ==> AfterSend(st, room).outPending == []
    ensures SendResultOf(st, room).Paused? ==> AfterSend(st, room).outPending != []
    ensures SendResultOf(st, room).WouldBlock? ==> AfterSend(st, room) == st
  {
    NeverStale(st, room);
    hide Core, SocketOk;
    var r := SendResultOf(st, room);
    if r.StreamGone? {
      GoneKeeps(st);
      PromiseElsewhere(st, None);
    } else if !r.WouldBlock? {
      ShipKeeps(st, room);
    }
  }

  lemma ShipKeeps(st: ConnState, room: nat)
    requires Core(st) && st.promise.Some? && SocketOk(st, [])
    requires var r := SendResultOf(st, room); r.Sent? || r.Paused?
    ensures Core(AfterSend(st, room)) && SocketOk(AfterSend(st, room), [])
    ensures SendResultOf(st, room).Sent? ==> AfterSend(st, room).outPending == []
    ensures SendResultOf(st, room).Paused? ==> AfterSend(st, room).outPending != []
  {
    SendShape(st, room);
    var p, k := st.promise.value, IndexOf(st.streams, st.promise.value.id);
    StreamAt(st, k);
    PromiseHeader(st);
    hide Core, StreamOk, TConsume, FrontBytes, LogBytes, WellFormed, AfterSend, SendResultOf, SocketOk;
    var s := st.streams[k];
    ConsumeShips(s, p.length);
    var payload, s' := FrontBytes(s.out.q, p.length), s.(out := TConsume(s.out, p.length));
    EmitKeeps(st, k, s', p.hd, payload);
    LogAppend(st.log, Data(p.id, p.hd, payload));
    var st', whole := Put(st, k, s').(promise := None, log := st.log + [Data(p.id, p.hd, payload)]), p.hd + payload;
    SocketSplit(st, st', whole, room);
    CoreElsewhere(st', st.socket + Take(whole, room), whole[Min(room, |whole|)..]);
  }

  lemma SendShape(st: ConnState, room: nat)
    requires st.promise.Some?
    requires var r := SendResultOf(st, room); r.Sent? || r.Paused?
    ensures var p, k := st.promise.value, IndexOf(st.streams, st.promise.value.id);
            && k < |st.streams| && st.outPending == [] && WellFormed(st.streams[k].out.q)
            && |FrontBytes(st.streams[k].out.q, p.length)| == p.length
            && (SendResultOf(st, room).Sent? <==> FRAMEHD_LEN + p.length <= room)
            && var payload := FrontBytes(st.streams[k].out.q, p.length);
               var whole := p.hd + payload;
               AfterSend(st, room) ==
                 Put(st, k, st.streams[k].(out := TConsume(st.streams[k].out, p.length)))
                   .(promise := None, log := st.log + [Data(p.id, p.hd, payload)])
                   .(socket := st.socket + Take(whole, room), outPending := whole[Min(room, |whole|)..])
  {
    hide WellFormed, FrontBytes;
  }

  lemma CoreElsewhere(st: ConnState, socket: seq<byte>, outPending: seq<byte>)
    ensures Core(st.(socket := socket, outPending := outPending)) == Core(st)
  {
    hide IdsOk, StreamsOk, DataOk, PromiseOk, HooksOk, InvokedOk;
  }

  lemma SocketSplit(st: ConnState, st': ConnState, whole: seq<byte>, room: nat)
    requires SocketOk(st, []) && st.outPending == [] && LogBytes(st'.log) == LogBytes(st.log) + whole
    ensures SocketOk(st'.(socket := st.socket + Take(whole, room), outPending := whole[Min(room, |whole|)..]), [])
  {
    hide LogBytes;
    CutFrame(st.socket, whole, room);
    assert st.socket + [] + [] == st.socket;
  }

  lemma PromiseHeader(st: ConnState)
    requires Core(st) && st.promise.Some?
    ensures |st.promise.value.hd| == FRAMEHD_LEN && 0 < st.promise.value.length
    ensures var k := IndexOf(st.streams, st.promise.value.id);
            k < |st.streams| ==> st.streams[k].out.q.messages != []
  {
    hide StreamOk, Knows, DataOk, StreamsOk, HooksOk, InvokedOk;
  }

  lemma GoneKeeps(st: ConnState)
    requires Core(st)
    ensures Core(st.(promise := None))
  {
    hide StreamOk, Knows, DataOk, StreamsOk, HooksOk, InvokedOk;
  }

  lemma ConsumeShips(s: StreamCtx, n: nat)
    requires StreamOk(s) && 0 < n && s.out.q.messages != []
    ensures WellFormed(s.out.q)
    ensures TConsume(s.out, n).shipped == s.out.shipped + FrontBytes(s.out.q, n)
    ensures StreamOk(s.(out := TConsume(s.out, n)))
  {
    SendKeeps(s, n);
  }

  // ---- pulling frames out of the emitter ----

  /** nghttp2 asks for a positive number of bytes and offers a 9-byte frame header. */
  predicate ScriptOk(script: seq<Emit>) {
    forall i :: 0 <= i < |script| && script[i].EmitData? ==> script[i].window > 0 && |script[i].hd| == FRAMEHD_LEN
  }

  lemma ReadShips(s: StreamCtx, window: nat, direct: bool)
    requires StreamOk(s) && s.provider.Active? && 0 < window
    ensures WellFormed(s.out.q)
    ensures var r, s' := ReadResultOf(s, window, direct), AfterRead(s, window, direct);
            && StreamOk(s') && s'.id == s.id && s'.cancelHook == s.cancelHook && s'.state == s.state
            && s'.out.shipped == s.out.shipped + (if r.Copied? then r.bytes else [])
            && (r.InPlace? ==> forall hd :: Pins(s'.out.q, PromiseFor(s, hd, r.length)))
  {
    ReadKeeps(s, window, direct);
    hide EncodeHeader, Wire, Drained, Frames, Picks, Newest, Pending;
  }

  /** The promise just made, on the stream it was made for. */
  lemma PromiseKeeps(st: ConnState, k: nat, p: SendPromise)
    requires Core(st) && k < |st.streams| && st.fd >= 0 && |p.hd| == FRAMEHD_LEN && p.id == st.streams[k].id
    requires Pins(st.streams[k].out.q, p)
    ensures Core(st.(promise := Some(p)))
  {
    PinsParts(st.streams[k].out.q, p);
    hide StreamOk, Pins, Knows, DataOk, StreamsOk, HooksOk, InvokedOk;
    var all := st.streams + st.gone;
    AtKnows(all, k);
    forall i | 0 <= i < |st.streams| && st.streams[i].id == st.streams[k].id ensures i == k {
      assert all[i] == st.streams[i] && all[k] == st.streams[k];
    }
  }

  lemma QuietReadReplaces(s: StreamCtx, s': StreamCtx)
    requires StreamOk(s') && s'.id == s.id && s'.cancelHook == s.cancelHook && s'.state == s.state
    requires s'.out.shipped == s.out.shipped + []
    ensures Replaces(None, s, s')
  {
    hide StreamOk;
  }

  /** A state between two steps of the emitter, with `chunk` handed to the I/O layer. */
  ghost predicate Emitting(st: ConnState, chunk: seq<byte>) {
    Core(st) && SocketOk(st, chunk) && (chunk != [] ==> st.outPending == [])
  }

  lemma CopyKeeps(st: ConnState, k: nat, s: StreamCtx, hd: seq<byte>, bytes: seq<byte>)
    requires Core(st) && SocketOk(st, []) && st.outPending == [] && st.promise.None? && k < |st.streams|
    requires s.id == st.streams[k].id && s.out.shipped == st.streams[k].out.shipped + bytes
    requires StreamOk(s) && s.cancelHook == st.streams[k].cancelHook && s.state == st.streams[k].state
    ensures Emitting(Put(st, k, s).(log := st.log + [Data(s.id, hd, bytes)]), hd + bytes)
  {
    hide Core, StreamOk, LogBytes;
    EmitKeeps(st, k, s, hd, bytes);
    LogAppend(st.log, Data(s.id, hd, bytes));
    assert st.socket + [] + (hd + bytes) == (st.socket + [] + []) + (hd + bytes);
    assert Put(st, k, s).(log := st.log + [Data(s.id, hd, bytes)]) ==
           Put(st, k, s).(promise := None, log := st.log + [Data(s.id, hd, bytes)]);
  }

  lemma QuietKeeps(st: ConnState, k: nat, s: StreamCtx)
    requires Core(st) && SocketOk(st, []) && st.promise.None? && k < |st.streams|
    requires s.id == st.streams[k].id && s.out.shipped == st.streams[k].out.shipped + []
    requires StreamOk(s) && s.cancelHook == st.streams[k].cancelHook && s.state == st.streams[k].state
    ensures Emitting(Put(st, k, s), [])
  {
    hide Core, StreamOk, LogBytes;
    QuietReadReplaces(st.streams[k], s);
    PutKeeps(st, k, s);
  }

  lemma ReadKeepsAll(st: ConnState, k: nat, window: nat, hd: seq<byte>)
    requires Core(st) && SocketOk(st, []) && st.outPending == [] && st.promise.None?
    requires Readable(st, k) && 0 < window && |hd| == FRAMEHD_LEN
    ensures var s := st.streams[k];
            var r, s' := ReadResultOf(s, window, st.fd >= 0), AfterRead(s, window, st.fd >= 0);
            var st' := Put(st, k, s');
            match r
            case InPlace(n) => Emitting(st'.(promise := Some(PromiseFor(s, hd, n))), [])
            case Copied(bytes) => Emitting(st'.(log := st.log + [Data(s.id, hd, bytes)]), hd + bytes)
            case _ => Emitting(st', [])
  {
    StreamAt(st, k);
    hide Core, StreamOk, Pins, WellFormed, LogBytes, AfterRead, ReadResultOf, SocketOk;
    var s := st.streams[k];
    ReadShips(s, window, st.fd >= 0);
    var r, s' := ReadResultOf(s, window, st.fd >= 0), AfterRead(s, window, st.fd >= 0);
    match r {
      case Copied(bytes) => CopyKeeps(st, k, s', hd, bytes);
      case InPlace(n) =>
        QuietKeeps(st, k, s');
        DirectOnly(s, window, st.fd >= 0);
        PromiseKeeps(Put(st, k, s'), k, PromiseFor(s, hd, n));
        PromiseElsewhere(Put(st, k, s'), Some(PromiseFor(s, hd, n)));
      case _ => QuietKeeps(st, k, s');
    }
  }

  lemma PromiseElsewhere(st: ConnState, promise: Option<SendPromise>)
    ensures SocketOk(st.(promise := promise), []) == SocketOk(st, [])
  {
  }

  lemma DirectOnly(s: StreamCtx, window: nat, direct: bool)
    requires WellFormed(s.out.q) && ReadResultOf(s, window, direct).InPlace?
    ensures direct
  {
  }

  lemma ControlKeeps(st: ConnState, bytes: seq<byte>)
    requires Core(st) && SocketOk(st, []) && st.outPending == []
    ensures Emitting(st.(log := st.log + [Control(bytes)]), bytes)
  {
    hide StreamOk, Knows, DataOk, StreamsOk, HooksOk, InvokedOk, PromiseOk, LogBytes;
    ControlKeepsData(st.streams + st.gone, st.log, bytes);
    LogAppend(st.log, Control(bytes));
    assert st.socket + [] + bytes == (st.socket + [] + []) + bytes;
  }

  /** nghttp2 never emits an empty control frame. */
  predicate NoEmptyFrames(script: seq<Emit>) {
    forall i :: 0 <= i < |script| && script[i].EmitControl? ==> script[i].bytes != []
  }

  /** A pull that gives no chunk has run out of frames, or met a full socket. */
  predicate PullEnds(r: Pulled) {
    NoEmptyFrames(r.env.script) && (r.chunk == [] ==> r.env.script == [] || r.st.outPending != [] || r.st.promise.Some?)
  }

  lemma {:induction false} PullKeeps(st: ConnState, env: Env)
    requires Core(st) && SocketOk(st, []) && st.outPending == [] && ScriptOk(env.script)
    ensures var r := PullSend(st, env);
            && Emitting(r.st, r.chunk) && ScriptOk(r.env.script)
            && (NoEmptyFrames(env.script) ==> PullEnds(r))
    decreases |env.script|, if st.promise.Some? then 1 else 0
  {
    hide Core, SocketOk, ReadResultOf, AfterRead, AfterSend, SendResultOf;
    if st.promise.Some? {
      SendKeepsAll(st, NextRoom(env));
      var r := SendResultOf(st, NextRoom(env));
      NeverStale(st, NextRoom(env));
      if r.Sent? {
        PullKeeps(AfterSend(st, NextRoom(env)), RoomUsed(env));
      } else if r.StreamGone? {
        GoneIsQuiet(st, NextRoom(env));
        PullKeeps(AfterSend(st, NextRoom(env)), env);
      }
    } else if env.script != [] {
      var env' := env.(script := env.script[1..]);
      match env.script[0] {
        case EmitControl(bytes) =>
          ControlKeeps(st, bytes);
        case EmitData(id, window, hd) =>
          var k := IndexOf(st.streams, id);
          if !Readable(st, k) {
            PullKeeps(st, env');
          } else {
            ReadKeepsAll(st, k, window, hd);
            var s := st.streams[k];
            var r, st' := ReadResultOf(s, window, st.fd >= 0), Put(st, k, AfterRead(s, window, st.fd >= 0));
            match r {
              case InPlace(n) => PullKeeps(st'.(promise := Some(PromiseFor(s, hd, n))), env');
              case Copied(bytes) => CopiedIsNotEmpty(s, window, st.fd >= 0);
              case _ => PullKeeps(st', env');
            }
          }
      }
    }
  }

  lemma CopiedIsNotEmpty(s: StreamCtx, window: nat, direct: bool)
    requires WellFormed(s.out.q) && ReadResultOf(s, window, direct).Copied?
    ensures ReadResultOf(s, window, direct).bytes != []
  {
  }

  lemma GoneIsQuiet(st: ConnState, room: nat)
    requires st.promise.Some? && SendResultOf(st, room).StreamGone?
    ensures AfterSend(st, room) == st.(promise := None)
  {
  }

  // ---- flushing ----

  lemma WriteKeepsSocket(st: ConnState, w: nat)
    requires ConnOk(st)
    ensures ConnOk(st.(socket := st.socket + Take(st.outPending, w), outPending := st.outPending[Min(w, |st.outPending|)..]))
  {
    hide StreamOk, Knows, DataOk, StreamsOk, HooksOk, InvokedOk, PromiseOk, LogBytes;
    CutFrame(st.socket, st.outPending, w);
  }

  lemma ChunkKeepsSocket(st: ConnState, chunk: seq<byte>, w: nat)
    requires Emitting(st, chunk) && chunk != []
    ensures ConnOk(st.(socket := st.socket + Take(chunk, w), outPending := st.outPending + chunk[Min(w, |chunk|)..]))
  {
    hide StreamOk, Knows, DataOk, StreamsOk, HooksOk, InvokedOk, PromiseOk, LogBytes;
    CutFrame(st.socket, chunk, w);
    assert [] + chunk[Min(w, |chunk|)..] == chunk[Min(w, |chunk|)..];
    assert st.socket + [] + chunk == st.socket + chunk;
  }

  /** Whatever the socket takes and whenever it refuses, the order of emission is the order on the wire. */
  lemma {:induction false} FlushKeeps(st: ConnState, env: Env)
    requires ConnOk(st) && ScriptOk(env.script)
    ensures var r := Flushed(st, env); ConnOk(r.st)
    decreases |env.script| + |env.rooms|
  {
    hide Core, SocketOk, PullSend;
    var n := |st.outPending|;
    if n > 0 {
      var w := SendAll(env, n);
      WriteKeepsSocket(st, w);
      if w > 0 {
        FlushKeeps(st.(socket := st.socket + Take(st.outPending, w), outPending := st.outPending[Min(w, n)..]),
                   AfterSendAll(env, n));
      }
    } else {
      PullKeeps(st, env);
      var p := PullSend(st, env);
      if p.chunk != [] {
        var w := SendAll(p.env, |p.chunk|);
        ChunkKeepsSocket(p.st, p.chunk, w);
        if w == |p.chunk| {
          FlushKeeps(p.st.(socket := p.st.socket + Take(p.chunk, w),
                           outPending := p.st.outPending + p.chunk[Min(w, |p.chunk|)..]),
                     AfterSendAll(p.env, |p.chunk|));
        }
      }
    }
  }

  /** A flush leaves work behind only when the socket would not take it. */
  lemma {:induction false} FlushStops(st: ConnState, env: Env)
    requires ConnOk(st) && ScriptOk(env.script) && NoEmptyFrames(env.script)
    ensures var r := Flushed(st, env); r.env.script == [] || r.st.outPending != [] || r.st.promise.Some?
    decreases |env.script| + |env.rooms|
  {
    hide Core, SocketOk, PullSend;
    var n := |st.outPending|;
    if n > 0 {
      var w := SendAll(env, n);
      WriteKeepsSocket(st, w);
      if w > 0 {
        FlushStops(st.(socket := st.socket + Take(st.outPending, w), outPending := st.outPending[Min(w, n)..]),
                   AfterSendAll(env, n));
      }
    } else {
      PullKeeps(st, env);
      var p := PullSend(st, env);
      if p.chunk != [] {
        var w := SendAll(p.env, |p.chunk|);
        ChunkKeepsSocket(p.st, p.chunk, w);
        if w == |p.chunk| {
          FlushStops(p.st.(socket := p.st.socket + Take(p.chunk, w),
                           outPending := p.st.outPending + p.chunk[Min(w, |p.chunk|)..]),
                     AfterSendAll(p.env, |p.chunk|));
        }
      }
    }
  }
}
