/** What handlers are given, over every run. */
module ConnRequests {
  import opened Bytes
  import opened Framing
  import opened ConnModel
  import opened ConnProofs
  import opened DispatchProofs
  import opened OutputProofs
  import opened ConnRuns
  import opened ConnHistory
  import opened ConnTheorems

  /** What a pass over `streams` hands to handlers: each complete, answerable request, in list order. */
  function Requests(streams: seq<StreamCtx>, methods: seq<MethodEntry>, maxLen: nat): seq<Invocation> {
    if streams == [] then []
    else
      var s := streams[0];
      var payload := RequestPayload(s.request, maxLen);
      (if s.state == Complete && payload.Some? && FindMethod(methods, s.path).Some?
       then [Invocation(s.id, FindMethod(methods, s.path).value.handler, payload.value)] else [])
      + Requests(streams[1..], methods, maxLen)
  }

  lemma {:induction false} RequestsDepend(a: seq<StreamCtx>, b: seq<StreamCtx>, methods: seq<MethodEntry>, maxLen: nat)
    requires SameCalls(a, b)
    ensures Requests(a, methods, maxLen) == Requests(b, methods, maxLen)
  {
    hide RequestPayload, FindMethod;
    if a != [] {
      RequestsDepend(a[1..], b[1..], methods, maxLen);
      assert SameCall(a[0], b[0]);
    }
  }

  lemma DispatchOneInvokes(st: ConnState, i: nat, h: Handlers, submits: int -> bool)
    requires Core(st) && i < |st.streams|
    ensures var r := DispatchedOne(st, i, h, submits);
            r.invoked == st.invoked + Requests([st.streams[i]], st.methods, st.maxMessageLen)
  {
    hide Core, RequestPayload, FindMethod, Submitted, FinalizedError;
    var s := st.streams[i];
    if s.state == Complete && Refusal(st, s).None? {
      var m, payload := FindMethod(st.methods, s.path).value, RequestPayload(s.request, st.maxMessageLen).value;
      HandlerRunKeeps(st, i, m, payload, h, submits);
    }
  }

  /** One pass runs the handler of every answerable request, once, in list order, on its payload. */
  lemma {:induction false} DispatchInvokes(st: ConnState, i: nat, h: Handlers, submits: int -> bool)
    requires Core(st) && i <= |st.streams|
    ensures DispatchedFrom(st, i, h, submits).invoked ==
            st.invoked + Requests(st.streams[i..], st.methods, st.maxMessageLen)
    decreases |st.streams| - i
  {
    hide Core, DispatchedOne, RequestPayload, FindMethod;
    if i < |st.streams| {
      DispatchOneKeeps(st, i, h, submits);
      DispatchOneInvokes(st, i, h, submits);
      DispatchOneLeaves(st, i, h, submits);
      var st' := DispatchedOne(st, i, h, submits);
      DispatchInvokes(st', i + 1, h, submits);
      RequestsDepend(st.streams[i + 1..], st'.streams[i + 1..], st.methods, st.maxMessageLen);
      assert st.streams[i..][1..] == st.streams[i + 1..];
    }
  }

  // ---- payloads and requests ----

  /** A payload handed out is that of the first frame of its call's request. */
  predicate PayloadsOk(all: seq<StreamCtx>, invoked: seq<Invocation>) {
    forall k, i :: 0 <= k < |invoked| && 0 <= i < |all| && all[i].id == invoked[k].id ==>
      |invoked[k].payload| <= U32_MAX && Frame(invoked[k].payload) <= all[i].request
  }

  lemma LaterPayloads(w: Cause, a: seq<StreamCtx>, b: seq<StreamCtx>, invoked: seq<Invocation>)
    requires Follows(w, a, b) && IdsOk(b) && PayloadsOk(a, invoked)
    requires forall k :: 0 <= k < |invoked| ==> Knows(a, invoked[k].id)
    ensures PayloadsOk(b, invoked)
  {
    hide Follows, IdsOk;
    forall k, i | 0 <= k < |invoked| && 0 <= i < |b| && b[i].id == invoked[k].id
      ensures |invoked[k].payload| <= U32_MAX && Frame(invoked[k].payload) <= b[i].request
    {
      assert Knows(a, invoked[k].id);
      var j :| 0 <= j < |a| && a[j].id == invoked[k].id;
      LaterState(w, a, b, a[j], b[i]);
    }
  }

  lemma DispatchOnePayloads(st: ConnState, i: nat, h: Handlers, submits: int -> bool)
    requires Core(st) && i < |st.streams| && PayloadsOk(All(st), st.invoked)
    ensures var r := DispatchedOne(st, i, h, submits); PayloadsOk(All(r), r.invoked)
  {
    hide Core, DispatchedOne, RequestPayload, FindMethod, Follows, Frame, IdsOk, Evolves;
    var r, s := DispatchedOne(st, i, h, submits), st.streams[i];
    DispatchOneKeeps(st, i, h, submits);
    DispatchOneFollows(HandlersRun(h, st), st, i, submits);
    DispatchOneInvokes(st, i, h, submits);
    CoreParts(st);
    CoreParts(r);
    LaterPayloads(HandlersRun(h, st), All(st), All(r), st.invoked);
    if r.invoked != st.invoked {
      var p := RequestPayload(s.request, st.maxMessageLen).value;
      PayloadIsFirstFrame(s.request, st.maxMessageLen);
      forall k | 0 <= k < |All(r)| && All(r)[k].id == s.id
        ensures |p| <= U32_MAX && Frame(p) <= All(r)[k].request
      {
        assert All(st)[i] == s;
        LaterState(HandlersRun(h, st), All(st), All(r), s, All(r)[k]);
        PrefixOfRequest(HandlersRun(h, st), Frame(p), s, All(r)[k]);
      }
      assert r.invoked == st.invoked + [Invocation(s.id, FindMethod(st.methods, s.path).value.handler, p)];
    }
  }

  lemma PrefixOfRequest(w: Cause, f: seq<byte>, s: StreamCtx, later: StreamCtx)
    requires f <= s.request && Evolves(w, s, later)
    ensures f <= later.request
  {
  }

  lemma {:induction false} DispatchPayloads(st: ConnState, i: nat, h: Handlers, submits: int -> bool)
    requires Core(st) && i <= |st.streams| && PayloadsOk(All(st), st.invoked)
    ensures var r := DispatchedFrom(st, i, h, submits); PayloadsOk(All(r), r.invoked)
    decreases |st.streams| - i
  {
    hide Core, DispatchedOne, PayloadsOk;
    if i < |st.streams| {
      DispatchOneKeeps(st, i, h, submits);
      DispatchOnePayloads(st, i, h, submits);
      DispatchPayloads(DispatchedOne(st, i, h, submits), i + 1, h, submits);
    }
  }

  lemma SendInvokesNothing(st: ConnState, room: nat)
    requires st.promise.Some?
    ensures AfterSend(st, room).invoked == st.invoked && AfterSend(st, room).gone == st.gone
    ensures st.log <= AfterSend(st, room).log
  {
    hide SendResultOf;
    if SendResultOf(st, room).Sent? || SendResultOf(st, room).Paused? {
      SendShape(st, room);
    }
  }

  lemma {:induction false} PullInvokesNothing(st: ConnState, env: Env)
    ensures PullSend(st, env).st.invoked == st.invoked && PullSend(st, env).st.gone == st.gone
    ensures st.log <= PullSend(st, env).st.log
    decreases |env.script|, if st.promise.Some? then 1 else 0
  {
    hide AfterSend, SendResultOf, AfterRead, ReadResultOf;
    if st.promise.Some? {
      SendInvokesNothing(st, NextRoom(env));
      var st', r := AfterSend(st, NextRoom(env)), SendResultOf(st, NextRoom(env));
      if r.Sent? || r.StreamGone? || r.Stale? {
        SendSettles(st, NextRoom(env));
        PullInvokesNothing(st', if r.Sent? then RoomUsed(env) else env);
      }
    } else if env.script != [] && env.script[0].EmitData? {
      var env' := env.(script := env.script[1..]);
      var k := IndexOf(st.streams, env.script[0].id);
      if !Readable(st, k) {
        PullInvokesNothing(st, env');
      } else {
        var s, window := st.streams[k], env.script[0].window;
        var st' := Put(st, k, AfterRead(s, window, st.fd >= 0));
        match ReadResultOf(s, window, st.fd >= 0) {
          case InPlace(n) => PullInvokesNothing(st'.(promise := Some(PromiseFor(s, env.script[0].hd, n))), env');
          case Copied(bytes) =>
          case _ => PullInvokesNothing(st', env');
        }
      }
    }
  }

  lemma SendSettles(st: ConnState, room: nat)
    requires st.promise.Some? && !SendResultOf(st, room).WouldBlock?
    ensures AfterSend(st, room).promise == None
  {
    hide SendResultOf;
  }

  lemma {:induction false} FlushInvokesNothing(st: ConnState, env: Env)
    ensures Flushed(st, env).st.invoked == st.invoked && Flushed(st, env).st.gone == st.gone
    decreases |env.script| + |env.rooms|
  {
    hide PullSend;
    var n := |st.outPending|;
    if n > 0 {
      var w := SendAll(env, n);
      if w > 0 {
        FlushInvokesNothing(st.(socket := st.socket + Take(st.outPending, w), outPending := st.outPending[Min(w, n)..]),
                            AfterSendAll(env, n));
      }
    } else {
      PullInvokesNothing(st, env);
      var p := PullSend(st, env);
      if p.chunk != [] {
        var w := SendAll(p.env, |p.chunk|);
        if w == |p.chunk| {
          FlushInvokesNothing(p.st.(socket := p.st.socket + Take(p.chunk, w),
                                    outPending := p.st.outPending + p.chunk[Min(w, |p.chunk|)..]),
                              AfterSendAll(p.env, |p.chunk|));
        }
      }
    }
  }

  lemma OthersInvokeNothing(st: ConnState, ev: Event)
    requires !ev.Dispatch?
    ensures Next(st, ev).invoked == st.invoked
  {
    hide Flushed;
    if ev.Flush? {
      FlushInvokesNothing(st, ev.env);
    }
  }

  lemma NextPayloads(st: ConnState, ev: Event)
    requires ConnOk(st) && Allowed(st, ev) && PayloadsOk(All(st), st.invoked)
    ensures PayloadsOk(All(Next(st, ev)), Next(st, ev).invoked)
  {
    hide PayloadsOk, Next, Follows, Allowed, SocketOk, Core, IdsOk;
    if ev.Dispatch? {
      DispatchPayloads(st, 0, ev.handlers, ev.submits);
      DispatchIs(st, ev);
    } else {
      NextKeeps(st, ev);
      NextFollows(st, ev);
      OthersInvokeNothing(st, ev);
      CoreParts(st);
      CoreParts(Next(st, ev));
      LaterPayloads(CauseOf(st, ev), All(st), All(Next(st, ev)), st.invoked);
    }
  }

  lemma {:induction false} RunPayloads(st: ConnState, evs: seq<Event>)
    requires ConnOk(st) && AllowedRun(st, evs) && PayloadsOk(All(st), st.invoked)
    ensures var r := RunConn(st, evs); PayloadsOk(All(r), r.invoked)
    decreases |evs|
  {
    hide ConnOk, Next, Allowed, PayloadsOk;
    if evs != [] {
      NextKeeps(st, evs[0]);
      NextPayloads(st, evs[0]);
      RunPayloads(Next(st, evs[0]), evs[1..]);
    }
  }

  lemma ReachablePayloads(st: ConnState)
    requires Reachable(st)
    ensures PayloadsOk(All(st), st.invoked)
  {
    hide ConnOk, PayloadsOk;
    var methods, maxLen: nat, fd, evs :|
      AllowedRun(Fresh(methods, maxLen, fd), evs) && st == RunConn(Fresh(methods, maxLen, fd), evs);
    FreshConnOk(methods, maxLen, fd);
    NothingInvoked(methods, maxLen, fd);
    RunPayloads(Fresh(methods, maxLen, fd), evs);
  }

  lemma NothingInvoked(methods: seq<MethodEntry>, maxLen: nat, fd: int)
    ensures PayloadsOk(All(Fresh(methods, maxLen, fd)), Fresh(methods, maxLen, fd).invoked)
  {
  }

  /** In every reachable state: a call a handler was run for began with the frame of what it was given. */
  lemma HandlersSawFirstFrame(st: ConnState, s: StreamCtx, inv: Invocation)
    requires Reachable(st) && IsStream(st, s) && inv in st.invoked && inv.id == s.id
    ensures Frame(inv.payload) <= s.request && |inv.payload| <= U32_MAX
  {
    ReachablePayloads(st);
    hide Reachable, Frame;
    var k :| 0 <= k < |st.invoked| && st.invoked[k] == inv;
    assert s in All(st);
    var i :| 0 <= i < |All(st)| && All(st)[i] == s;
  }
}
