/** Which handler a request reaches and under which policy, in terms of the method table alone. */
module ConnServed {
  import opened Bytes
  import opened Framing
  import opened QueueModel
  import opened QueueProofs
  import opened ConnModel
  import opened StreamProofs
  import opened ConnProofs
  import opened DispatchProofs
  import opened ConnRuns
  import opened ConnHistory
  import opened ConnRequests
  import opened ConnDecisions
  import opened ConnReceipt
  import Percent

  // ---- the method table ----

  predicate Registered(methods: seq<MethodEntry>, path: seq<byte>) {
    exists j :: 0 <= j < |methods| && methods[j].path == path
  }

  /** Entry `j` is the first one for `path`. */
  predicate FirstEntry(methods: seq<MethodEntry>, path: seq<byte>, j: nat) {
    j < |methods| && methods[j].path == path && forall i :: 0 <= i < j ==> methods[i].path != path
  }

  /** A lookup succeeds exactly for a registered path, and then gives the first entry with that path. */
  lemma {:induction false} LookupIsFirst(methods: seq<MethodEntry>, path: seq<byte>)
    ensures FindMethod(methods, path).Some? <==> Registered(methods, path)
    ensures FindMethod(methods, path).Some? ==>
              exists j: nat :: FirstEntry(methods, path, j) && methods[j] == FindMethod(methods, path).value
  {
    if methods != [] {
      if methods[0].path == path {
        assert FirstEntry(methods, path, 0);
      } else {
        LookupIsFirst(methods[1..], path);
        if FindMethod(methods[1..], path).Some? {
          var j: nat :| FirstEntry(methods[1..], path, j) && methods[1..][j] == FindMethod(methods[1..], path).value;
          assert FirstEntry(methods, path, j + 1);
        } else {
          assert forall i :: 1 <= i < |methods| ==> methods[i] == methods[1..][i - 1];
        }
      }
    }
  }

  lemma FirstIsLookup(methods: seq<MethodEntry>, path: seq<byte>, j: nat)
    requires FirstEntry(methods, path, j)
    ensures FindMethod(methods, path) == Some(methods[j])
  {
    hide FindMethod;
    LookupIsFirst(methods, path);
    var k: nat :| FirstEntry(methods, path, k) && methods[k] == FindMethod(methods, path).value;
    assert k == j;
  }

  // ---- requests ----

  /** The request is complete and begins with a whole frame, within the limit, of payload `p`. */
  predicate Asks(s: StreamCtx, p: seq<byte>, maxLen: nat) {
    s.state == Complete && |p| <= maxLen && |p| <= 0xFFFF_FFFF && Frame(p) <= s.request
  }

  lemma AsksIsPayload(s: StreamCtx, p: seq<byte>, maxLen: nat)
    ensures Asks(s, p, maxLen) <==> s.state == Complete && RequestPayload(s.request, maxLen) == Some(p)
  {
    if Asks(s, p, maxLen) {
      FirstFrameIsPayload(p, s.request[|Frame(p)|..], maxLen);
      hide Frame, RequestPayload;
      assert s.request == Frame(p) + s.request[|Frame(p)|..];
    } else if RequestPayload(s.request, maxLen) == Some(p) {
      PayloadIsFirstFrame(s.request, maxLen);
    }
  }

  /** The invocation is the one the table gives this call. */
  ghost predicate IsAnswer(s: StreamCtx, methods: seq<MethodEntry>, maxLen: nat, x: Invocation) {
    && x.id == s.id && Asks(s, x.payload, maxLen)
    && exists j: nat :: FirstEntry(methods, s.path, j) && x.handler == methods[j].handler
  }

  lemma OneRequest(s: StreamCtx, methods: seq<MethodEntry>, maxLen: nat, x: Invocation)
    ensures x in Requests([s], methods, maxLen) <==> IsAnswer(s, methods, maxLen, x)
  {
    var m, payload := FindMethod(methods, s.path), RequestPayload(s.request, maxLen);
    assert [s][1..] == [];
    assert Requests([s], methods, maxLen) ==
           (if s.state == Complete && payload.Some? && m.Some?
            then [Invocation(s.id, m.value.handler, payload.value)] else []);
    AsksIsPayload(s, x.payload, maxLen);
    LookupIsFirst(methods, s.path);
    hide FindMethod, RequestPayload, Asks, Requests;
    if IsAnswer(s, methods, maxLen, x) {
      var j: nat :| FirstEntry(methods, s.path, j) && x.handler == methods[j].handler;
      FirstIsLookup(methods, s.path, j);
    }
  }

  lemma {:induction false} RequestsAre(streams: seq<StreamCtx>, methods: seq<MethodEntry>, maxLen: nat, x: Invocation)
    ensures x in Requests(streams, methods, maxLen) <==>
            exists k :: 0 <= k < |streams| && IsAnswer(streams[k], methods, maxLen, x)
  {
    hide FindMethod, RequestPayload, IsAnswer, Requests;
    RequestsSplit(streams, methods, maxLen);
    if streams != [] {
      var rest := streams[1..];
      RequestsAre(rest, methods, maxLen, x);
      OneRequest(streams[0], methods, maxLen, x);
      if x in Requests(rest, methods, maxLen) {
        var k :| 0 <= k < |rest| && IsAnswer(rest[k], methods, maxLen, x);
        assert streams[k + 1] == rest[k];
      }
      if k :| 0 < k < |streams| && IsAnswer(streams[k], methods, maxLen, x) {
        assert rest[k - 1] == streams[k];
      }
    }
  }

  lemma RequestsSplit(streams: seq<StreamCtx>, methods: seq<MethodEntry>, maxLen: nat)
    ensures Requests(streams, methods, maxLen) ==
            if streams == [] then [] else Requests([streams[0]], methods, maxLen) + Requests(streams[1..], methods, maxLen)
  {
    hide FindMethod, RequestPayload;
    if streams != [] {
      assert [streams[0]][1..] == [];
      assert Requests([], methods, maxLen) == [];
    }
  }

  // ---- a whole pass ----

  /** What the pass that led from `st` to `r` did with call `i`. */
  ghost predicate AnsweredAs(st: ConnState, i: nat, r: ConnState)
    requires i < |st.streams| == |r.streams|
  {
    var s, q := st.streams[i], r.streams[i].out.q;
    && st.invoked <= r.invoked
    && (forall x :: x in r.invoked[|st.invoked|..] && x.id == s.id ==> IsAnswer(s, st.methods, st.maxMessageLen, x))
    && (forall p, j: nat :: Asks(s, p, st.maxMessageLen) && FirstEntry(st.methods, s.path, j) ==>
          Invocation(s.id, st.methods[j].handler, p) in r.invoked[|st.invoked|..])
    && (s.state == Complete && (forall p :: !Asks(s, p, st.maxMessageLen)) ==> q.finished && q.finalStatus == 13)
    && (forall p :: Asks(s, p, st.maxMessageLen) && !Registered(st.methods, s.path) ==> q.finished && q.finalStatus == 12)
  }

  /**
   * A pass hands a request to a handler exactly if the request begins with a whole frame within the
   * limit and some entry has its path: the handler is that of the first such entry, its argument the
   * payload of that frame. A well-framed request with no such entry ends with code 12, any other
   * complete request with code 13, whatever was decided before.
   */
  lemma PassAnswers(st: ConnState, i: nat, h: Handlers, submits: int -> bool)
    requires Core(st) && i < |st.streams|
    ensures AnsweredAs(st, i, DispatchedFrom(st, 0, h, submits))
  {
    hide Core, DispatchedFrom, FindMethod, RequestPayload, Asks, IsAnswer, Requests, Refusal;
    var s, r := st.streams[i], DispatchedFrom(st, 0, h, submits);
    var news := Requests(st.streams, st.methods, st.maxMessageLen);
    DispatchInvokes(st, 0, h, submits);
    assert st.streams[0..] == st.streams;
    assert r.invoked[|st.invoked|..] == news;
    forall x | x in news && x.id == s.id ensures IsAnswer(s, st.methods, st.maxMessageLen, x) {
      RequestsAre(st.streams, st.methods, st.maxMessageLen, x);
      var k :| 0 <= k < |st.streams| && IsAnswer(st.streams[k], st.methods, st.maxMessageLen, x);
      AnswerId(st.streams[k], st.methods, st.maxMessageLen, x);
      FoundAtHome(st, k);
      FoundAtHome(st, i);
    }
    forall p, j: nat | Asks(s, p, st.maxMessageLen) && FirstEntry(st.methods, s.path, j)
      ensures Invocation(s.id, st.methods[j].handler, p) in news
    {
      AnswerFrom(s, st.methods, st.maxMessageLen, p, j);
      RequestsAre(st.streams, st.methods, st.maxMessageLen, Invocation(s.id, st.methods[j].handler, p));
    }
    RefusedStatus(st, i, h, submits);
  }

  lemma AnswerId(s: StreamCtx, methods: seq<MethodEntry>, maxLen: nat, x: Invocation)
    requires IsAnswer(s, methods, maxLen, x)
    ensures x.id == s.id
  {
  }

  lemma AnswerFrom(s: StreamCtx, methods: seq<MethodEntry>, maxLen: nat, p: seq<byte>, j: nat)
    requires Asks(s, p, maxLen) && FirstEntry(methods, s.path, j)
    ensures j < |methods| && IsAnswer(s, methods, maxLen, Invocation(s.id, methods[j].handler, p))
  {
  }

  lemma RefusedStatus(st: ConnState, i: nat, h: Handlers, submits: int -> bool)
    requires Core(st) && i < |st.streams|
    ensures var s, q := st.streams[i], DispatchedFrom(st, 0, h, submits).streams[i].out.q;
            && (s.state == Complete && (forall p :: !Asks(s, p, st.maxMessageLen)) ==> q.finished && q.finalStatus == 13)
            && (forall p :: Asks(s, p, st.maxMessageLen) && !Registered(st.methods, s.path) ==>
                  q.finished && q.finalStatus == 12)
  {
    hide Core, DispatchedFrom, FindMethod, RequestPayload, Asks;
    var s, q := st.streams[i], DispatchedFrom(st, 0, h, submits).streams[i].out.q;
    if RefusedIn(st, i) {
      RefusalStands(st, i, h, submits);
    }
    if s.state == Complete && (forall p :: !Asks(s, p, st.maxMessageLen)) {
      if RequestPayload(s.request, st.maxMessageLen).Some? {
        AsksIsPayload(s, RequestPayload(s.request, st.maxMessageLen).value, st.maxMessageLen);
      }
    }
    forall p | Asks(s, p, st.maxMessageLen) && !Registered(st.methods, s.path) ensures q.finished && q.finalStatus == 12 {
      AsksIsPayload(s, p, st.maxMessageLen);
      LookupIsFirst(st.methods, s.path);
    }
  }

  /** A refusal is the call's status at the end of the pass, whoever finished it before. */
  lemma RefusalStands(st: ConnState, i: nat, h: Handlers, submits: int -> bool)
    requires Core(st) && RefusedIn(st, i)
    ensures var q := DispatchedFrom(st, 0, h, submits).streams[i].out.q;
            q.finished && q.finalStatus == Refusal(st, st.streams[i]).value
  {
    hide Core, DispatchedFrom, Refusal, TextOf, FirstFinish;
    if st.streams[i].out.q.finished {
      PassOnFinished(st, 0, i, h, submits);
    } else {
      PassDecidesFirst(st, 0, i, h, submits);
    }
  }

  /** One step of the pass does for its call what the whole pass does for each. */
  lemma StepAnswers(st: ConnState, i: nat, h: Handlers, submits: int -> bool)
    requires Core(st) && i < |st.streams|
    ensures AnsweredAs(st, i, DispatchedOne(st, i, h, submits))
  {
    hide Core, HandlerRun, FindMethod, RequestPayload, Asks, IsAnswer, Requests;
    var s, r := st.streams[i], DispatchedOne(st, i, h, submits);
    var news := Requests([s], st.methods, st.maxMessageLen);
    DispatchOneInvokes(st, i, h, submits);
    assert r.invoked[|st.invoked|..] == news;
    forall x | x in news && x.id == s.id ensures IsAnswer(s, st.methods, st.maxMessageLen, x) {
      OneRequest(s, st.methods, st.maxMessageLen, x);
    }
    forall p, j: nat | Asks(s, p, st.maxMessageLen) && FirstEntry(st.methods, s.path, j)
      ensures Invocation(s.id, st.methods[j].handler, p) in news
    {
      AnswerFrom(s, st.methods, st.maxMessageLen, p, j);
      OneRequest(s, st.methods, st.maxMessageLen, Invocation(s.id, st.methods[j].handler, p));
    }
    if s.state == Complete && (forall p :: !Asks(s, p, st.maxMessageLen)) {
      if RequestPayload(s.request, st.maxMessageLen).Some? {
        AsksIsPayload(s, RequestPayload(s.request, st.maxMessageLen).value, st.maxMessageLen);
      }
    }
    forall p | Asks(s, p, st.maxMessageLen) && !Registered(st.methods, s.path)
      ensures r.streams[i].out.q.finished && r.streams[i].out.q.finalStatus == 12
    {
      AsksIsPayload(s, p, st.maxMessageLen);
      LookupIsFirst(st.methods, s.path);
    }
  }

  // ---- the policy in force ----

  /** The last policy the operations install on call `id`, or `bp` if they install none. */
  function LastPolicy(ops: seq<CallOp>, id: int, bp: Backpressure): Backpressure
    decreases |ops|
  {
    if ops == [] then bp
    else
      var sets := ops[0].OnCall? && ops[0].id == id && ops[0].act.Policy?;
      LastPolicy(ops[1..], id, if sets then ops[0].act.backpressure else bp)
  }

  lemma {:induction false} LastPolicyAppend(a: seq<CallOp>, b: seq<CallOp>, id: int, bp: Backpressure)
    ensures LastPolicy(a + b, id, bp) == LastPolicy(b, id, LastPolicy(a, id, bp))
    decreases |a|
  {
    if a == [] {
      assert a + b == b;
    } else {
      var sets := a[0].OnCall? && a[0].id == id && a[0].act.Policy?;
      assert (a + b)[1..] == a[1..] + b;
      LastPolicyAppend(a[1..], b, id, if sets then a[0].act.backpressure else bp);
    }
  }

  lemma ActInstalls(s: StreamCtx, act: Act)
    ensures Acted(s, act).out.q.backpressure == if act.Policy? then act.backpressure else s.out.q.backpressure
  {
    hide Percent.Encoded;
    if act.Write? { EnqueueKeepsPolicy(s.out.q, act.body); }
  }

  lemma OpInstalls(st: ConnState, op: CallOp, i: nat)
    requires Core(st) && i < |st.streams|
    ensures var r := ApplyOp(st, op);
            && |r.streams| == |st.streams| && r.streams[i].id == st.streams[i].id
            && r.streams[i].out.q.backpressure ==
               if op.OnCall? && op.id == st.streams[i].id && op.act.Policy? then op.act.backpressure
               else st.streams[i].out.q.backpressure
  {
    FoundAtHome(st, i);
    ApplyOpKeeps(st, op);
    hide Core, Acted, IndexOf;
    if op.OnCall? { ActInstalls(st.streams[i], op.act); }
  }

  lemma {:induction false} OpsInstall(st: ConnState, ops: seq<CallOp>, i: nat)
    requires Core(st) && i < |st.streams|
    ensures ApplyOps(st, ops).streams[i].out.q.backpressure ==
            LastPolicy(ops, st.streams[i].id, st.streams[i].out.q.backpressure)
    decreases |ops|
  {
    hide Core, ApplyOp;
    if ops != [] {
      ApplyOpKeeps(st, ops[0]);
      OpInstalls(st, ops[0], i);
      OpsInstall(ApplyOp(st, ops[0]), ops[1..], i);
    }
  }

  /** The policy a method's handler starts under. */
  function StartPolicy(m: MethodEntry, bp: Backpressure): Backpressure {
    if m.backpressure.Some? then m.backpressure.value else bp
  }

  lemma StepInstalls(st: ConnState, j: nat, i: nat, h: Handlers, submits: int -> bool)
    requires Core(st) && i < |st.streams| && j < |st.streams|
    ensures var id, bp := st.streams[i].id, st.streams[i].out.q.backpressure;
            DispatchedOne(st, j, h, submits).streams[i].out.q.backpressure ==
            if Answered(st, j) then
              LastPolicy(DeedsOf(st, j, h), id,
                         if i == j then StartPolicy(FindMethod(st.methods, st.streams[j].path).value, bp) else bp)
            else bp
  {
    hide Core, FindMethod, RequestPayload, ApplyOps, StatusFromI32, LastPolicy, StreamOk, Replaces;
    if Answered(st, j) {
      var s, m, out := st.streams[j], FindMethod(st.methods, st.streams[j].path).value, OutcomeOf(st, j, h);
      StreamAt(st, j);
      PolicyReplaces(st.promise, s, m);
      PutKeeps(st, j, WithMethodPolicy(s, m));
      var st0 := Put(st, j, WithMethodPolicy(s, m));
      OpsInstall(st0, out.ops, i);
      CodeInstallsNothing(st, j, h, st0.streams[i].id, st0.streams[i].out.q.backpressure);
    }
  }

  lemma CodeInstallsNothing(st: ConnState, j: nat, h: Handlers, id: int, bp: Backpressure)
    requires Answered(st, j)
    ensures LastPolicy(DeedsOf(st, j, h), id, bp) == LastPolicy(OutcomeOf(st, j, h).ops, id, bp)
  {
    hide StatusFromI32, RequestPayload, Refusal, FindMethod;
    var out := OutcomeOf(st, j, h);
    var code := if out.rc != 0 then [OnCall(st.streams[j].id, Finish(StatusFromI32(out.rc), None))] else [];
    LastPolicyAppend(out.ops, code, id, bp);
    assert out.rc != 0 ==> code[1..] == [];
  }

  /** The policy of call `i` after a pass from position `j` on. */
  function PolicyAfter(st: ConnState, j: nat, i: nat, h: Handlers): Backpressure
    requires i < |st.streams|
  {
    var id, n, bp := st.streams[i].id, |st.streams|, st.streams[i].out.q.backpressure;
    if j <= i && Answered(st, i) then
      LastPolicy(Deeds(st, i, n, h), id,
                 StartPolicy(FindMethod(st.methods, st.streams[i].path).value, LastPolicy(Deeds(st, j, i, h), id, bp)))
    else LastPolicy(Deeds(st, j, n, h), id, bp)
  }

  lemma {:induction false} PassInstalls(st: ConnState, j: nat, i: nat, h: Handlers, submits: int -> bool)
    requires Core(st) && i < |st.streams| && j <= |st.streams|
    ensures DispatchedFrom(st, j, h, submits).streams[i].out.q.backpressure == PolicyAfter(st, j, i, h)
    decreases |st.streams| - j
  {
    hide Core, DispatchedOne, PolicyAfter, Deeds, LastPolicy, FindMethod, RequestPayload;
    if j == |st.streams| {
      NoneInstalled(st, j, i, h);
    } else {
      var st' := DispatchedOne(st, j, h, submits);
      DispatchOneKeeps(st, j, h, submits);
      DispatchOneLeaves(st, j, h, submits);
      StepInstalls(st, j, i, h, submits);
      PassInstalls(st', j + 1, i, h, submits);
      PolicyStep(st, st', j, i, h);
    }
  }

  lemma NoneInstalled(st: ConnState, j: nat, i: nat, h: Handlers)
    requires i < |st.streams| == j
    ensures PolicyAfter(st, j, i, h) == st.streams[i].out.q.backpressure
  {
    hide FindMethod, RequestPayload;
    assert Deeds(st, j, j, h) == [];
  }

  lemma PolicyStep(st: ConnState, st': ConnState, j: nat, i: nat, h: Handlers)
    requires i < |st.streams| && PassStep(st, j, st')
    requires st'.methods == st.methods && st'.maxMessageLen == st.maxMessageLen
    requires var id, bp := st.streams[i].id, st.streams[i].out.q.backpressure;
             st'.streams[i].out.q.backpressure ==
             if Answered(st, j) then
               LastPolicy(DeedsOf(st, j, h), id,
                          if i == j then StartPolicy(FindMethod(st.methods, st.streams[j].path).value, bp) else bp)
             else bp
    ensures PolicyAfter(st', j + 1, i, h) == PolicyAfter(st, j, i, h)
  {
    hide LastPolicy, FindMethod, RequestPayload, StatusFromI32;
    var id, n, bp := st.streams[i].id, |st.streams|, st.streams[i].out.q.backpressure;
    assert LastPolicy([], id, bp) == bp by { NothingInstalled(id, bp); }
    SplitPolicy(st, st', j, n, id, h, bp);
    if j < i {
      SplitPolicy(st, st', j, i, id, h, bp);
      assert SameCall(st.streams[i], st'.streams[i]);
      DeedsDepend(st, st', i, n, h);
    } else if j == i && Answered(st, i) {
      assert Deeds(st, i, i, h) == [];
      SplitPolicy(st, st', j, n, id, h, StartPolicy(FindMethod(st.methods, st.streams[i].path).value, bp));
    }
  }

  lemma NothingInstalled(id: int, bp: Backpressure)
    ensures LastPolicy([], id, bp) == bp
  {
  }

  lemma SplitPolicy(st: ConnState, st': ConnState, j: nat, end: nat, id: int, h: Handlers, bp: Backpressure)
    requires PassStep(st, j, st') && j < end <= |st.streams|
    requires st'.methods == st.methods && st'.maxMessageLen == st.maxMessageLen
    ensures LastPolicy(Deeds(st, j, end, h), id, bp) ==
            LastPolicy(Deeds(st', j + 1, end, h), id, LastPolicy(DeedsOf(st, j, h), id, bp))
  {
    hide DeedsOf, LastPolicy;
    DeedsDepend(st, st', j + 1, end, h);
    LastPolicyAppend(DeedsOf(st, j, h), Deeds(st, j + 1, end, h), id, bp);
  }

  /**
   * The policy a served call is under after the pass: the last one handlers installed on it from its
   * own turn on, before those the one its first entry carries, and without one what it was under then.
   */
  lemma PolicyInForce(st: ConnState, i: nat, p: seq<byte>, j: nat, h: Handlers, submits: int -> bool)
    requires Core(st) && i < |st.streams| && Asks(st.streams[i], p, st.maxMessageLen)
    requires FirstEntry(st.methods, st.streams[i].path, j)
    ensures var s, m, n := st.streams[i], st.methods[j], |st.streams|;
            var found := LastPolicy(Deeds(st, 0, i, h), s.id, s.out.q.backpressure);
            DispatchedFrom(st, 0, h, submits).streams[i].out.q.backpressure ==
            LastPolicy(Deeds(st, i, n, h), s.id, if m.backpressure.Some? then m.backpressure.value else found)
  {
    hide Core, DispatchedFrom, Deeds, LastPolicy, FindMethod, RequestPayload, Asks;
    AsksIsPayload(st.streams[i], p, st.maxMessageLen);
    FirstIsLookup(st.methods, st.streams[i].path, j);
    PassInstalls(st, 0, i, h, submits);
  }

  // ---- from the wire ----

  /** From the wire: chunks that make up a frame, in any cut, reach the handler of the path as its payload. */
  lemma ChunksReachHandler(st: ConnState, evs: seq<Event>, s: StreamCtx, k: nat, p: seq<byte>, j: nat,
                           h: Handlers, submits: int -> bool)
    requires ConnOk(st) && AllowedRun(st, evs) && s in st.streams && s.request == [] && s.path == []
    requires Uninterrupted(st, evs, s.id)
    requires var r := RunConn(st, evs);
             && k < |r.streams| && r.streams[k].id == s.id && r.streams[k].state == Complete
             && |p| <= r.maxMessageLen && |p| <= 0xFFFF_FFFF && Frame(p) <= ChunkData(evs, s.id)
             && FirstEntry(r.methods, PathData(evs, s.id), j)
    ensures var r := RunConn(st, evs);
            var r' := DispatchedFrom(r, 0, h, submits);
            r.invoked <= r'.invoked && Invocation(s.id, r.methods[j].handler, p) in r'.invoked[|r.invoked|..]
  {
    hide ConnOk, AllowedRun, RunConn, Uninterrupted, ChunkData, PathData, FirstEntry, DispatchedFrom, Frame;
    var r := RunConn(st, evs);
    EveryRunKeeps(st, evs);
    CoreOf(r);
    assert r.streams[k] in All(r) by { InAll(r, r.streams[k]); }
    RequestIsWhatArrived(st, evs, s, r.streams[k]);
    assert [] + ChunkData(evs, s.id) == ChunkData(evs, s.id) && [] + PathData(evs, s.id) == PathData(evs, s.id);
    PassAnswers(r, k, h, submits);
    assert Asks(r.streams[k], p, r.maxMessageLen);
  }
}
