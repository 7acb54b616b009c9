/** What handlers write on calls is accepted in the order written, over a whole pass. */
module ConnWrites {
  import opened Bytes
  import opened QueueModel
  import opened QueueProofs
  import opened QueueAdmission
  import opened ConnModel
  import opened StreamProofs
  import opened ConnProofs
  import opened DispatchProofs
  import opened ConnHistory
  import opened ConnDecisions
  import Percent

  predicate On(op: CallOp, id: int) {
    op.OnCall? && op.id == id
  }

  /** The messages written on call `id` before its first finish, in order; one too long for its header is not sent. */
  function Writes(ops: seq<CallOp>, id: int): seq<seq<byte>>
    decreases |ops|
  {
    if ops == [] || (On(ops[0], id) && ops[0].act.Finish?) then []
    else
      (if On(ops[0], id) && ops[0].act.Write? && |ops[0].act.body| <= 0xFFFF_FFFF then [ops[0].act.body] else [])
      + Writes(ops[1..], id)
  }

  /** None of the operations makes the call's queue reject. */
  predicate NeverRejects(ops: seq<CallOp>, id: int) {
    forall k :: 0 <= k < |ops| && On(ops[k], id) && ops[k].act.Policy? ==> !Rejects(ops[k].act.backpressure)
  }

  lemma {:induction false} WritesAppend(a: seq<CallOp>, b: seq<CallOp>, id: int)
    ensures Writes(a + b, id) == Writes(a, id) + if FirstFinish(a, id).Some? then [] else Writes(b, id)
    decreases |a|
  {
    if a == [] {
      assert a + b == b;
    } else {
      assert (a + b)[1..] == a[1..] + b;
      WritesAppend(a[1..], b, id);
    }
  }

  /** Call `s` after some operations: what they write is accepted if the call was open. */
  predicate Takes(s: StreamCtx, writes: seq<seq<byte>>, r: StreamCtx) {
    && r.id == s.id && !Rejects(r.out.q.backpressure)
    && r.out.accepted == s.out.accepted + if s.out.q.finished then [] else writes
  }

  lemma ActTakes(s: StreamCtx, act: Act)
    requires StreamOk(s) && !Rejects(s.out.q.backpressure) && (act.Policy? ==> !Rejects(act.backpressure))
    ensures var r := Acted(s, act);
            && Takes(s, if act.Write? && |act.body| <= 0xFFFF_FFFF then [act.body] else [], r)
            && (r.out.q.finished <==> s.out.q.finished || act.Finish?)
  {
    hide Percent.Encoded, QueueOk;
    assert s.out.accepted + [] == s.out.accepted;
    if act.Write? {
      EnqueueKeepsPolicy(s.out.q, act.body);
      EnqueueFacts(s.out, act.body);
    }
  }

  lemma OpTakes(st: ConnState, op: CallOp, i: nat)
    requires Core(st) && i < |st.streams| && !Rejects(st.streams[i].out.q.backpressure)
    requires NeverRejects([op], st.streams[i].id)
    ensures var id, r := st.streams[i].id, ApplyOp(st, op);
            && |r.streams| == |st.streams|
            && Takes(st.streams[i],
                     if On(op, id) && op.act.Write? && |op.act.body| <= 0xFFFF_FFFF then [op.act.body] else [],
                     r.streams[i])
            && (r.streams[i].out.q.finished <==> st.streams[i].out.q.finished || (On(op, id) && op.act.Finish?))
  {
    StreamAt(st, i);
    FoundAtHome(st, i);
    assert [op][0] == op;
    hide Core, StreamOk, Acted, IndexOf;
    assert st.streams[i].out.accepted + [] == st.streams[i].out.accepted;
    if On(op, st.streams[i].id) { ActTakes(st.streams[i], op.act); }
  }

  lemma {:induction false} OpsTake(st: ConnState, ops: seq<CallOp>, i: nat)
    requires Core(st) && i < |st.streams| && !Rejects(st.streams[i].out.q.backpressure)
    requires NeverRejects(ops, st.streams[i].id)
    ensures var id, r := st.streams[i].id, ApplyOps(st, ops).streams[i];
            && Takes(st.streams[i], Writes(ops, id), r)
            && (r.out.q.finished <==> st.streams[i].out.q.finished || FirstFinish(ops, id).Some?)
    decreases |ops|
  {
    hide Core, ApplyOp;
    if ops == [] {
      assert st.streams[i].out.accepted + [] == st.streams[i].out.accepted;
    } else {
      ApplyOpKeeps(st, ops[0]);
      OpTakes(st, ops[0], i);
      OpsTake(ApplyOp(st, ops[0]), ops[1..], i);
    }
  }

  /** No method makes a queue reject. */
  predicate Accepting(methods: seq<MethodEntry>) {
    forall k :: 0 <= k < |methods| && methods[k].backpressure.Some? ==> !Rejects(methods[k].backpressure.value)
  }

  lemma {:induction false} FoundAccepts(methods: seq<MethodEntry>, path: seq<byte>)
    requires Accepting(methods) && FindMethod(methods, path).Some?
    ensures var bp := FindMethod(methods, path).value.backpressure; bp.Some? ==> !Rejects(bp.value)
  {
    if methods[0].path != path { FoundAccepts(methods[1..], path); }
  }

  lemma PolicyTakes(s: StreamCtx, m: MethodEntry)
    requires !Rejects(s.out.q.backpressure) && (m.backpressure.Some? ==> !Rejects(m.backpressure.value))
    ensures var r := WithMethodPolicy(s, m); Takes(s, [], r) && r.out.q.finished == s.out.q.finished
  {
    assert s.out.accepted + [] == s.out.accepted;
  }

  /** One step of the pass, seen from call `i`. */
  lemma StepTakes(st: ConnState, j: nat, i: nat, h: Handlers, submits: int -> bool)
    requires Core(st) && i < |st.streams| && j < |st.streams| && Accepting(st.methods)
    requires !Rejects(st.streams[i].out.q.backpressure) && NeverRejects(DeedsOf(st, j, h), st.streams[i].id)
    ensures var id, r := st.streams[i].id, DispatchedOne(st, j, h, submits).streams[i];
            Takes(st.streams[i], Writes(DeedsOf(st, j, h), id), r)
  {
    hide Core, FindMethod, RequestPayload, ApplyOps, StatusFromI32, Writes, StreamOk, Replaces, NeverRejects;
    assert st.streams[i].out.accepted + [] == st.streams[i].out.accepted;
    if Answered(st, j) {
      var s, m, out := st.streams[j], FindMethod(st.methods, st.streams[j].path).value, OutcomeOf(st, j, h);
      FoundAccepts(st.methods, s.path);
      if i == j { PolicyTakes(s, m); }
      StreamAt(st, j);
      PolicyReplaces(st.promise, s, m);
      PutKeeps(st, j, WithMethodPolicy(s, m));
      OwnOps(st, j, h, st.streams[i].id);
      OpsTake(Put(st, j, WithMethodPolicy(s, m)), out.ops, i);
    } else {
      NoDeeds(st, j, h, st.streams[i].id);
    }
  }

  lemma OwnOps(st: ConnState, j: nat, h: Handlers, id: int)
    requires Answered(st, j) && NeverRejects(DeedsOf(st, j, h), id)
    ensures NeverRejects(OutcomeOf(st, j, h).ops, id)
    ensures Writes(DeedsOf(st, j, h), id) == Writes(OutcomeOf(st, j, h).ops, id)
  {
    hide StatusFromI32, RequestPayload, Refusal, FindMethod;
    var out := OutcomeOf(st, j, h);
    var code := if out.rc != 0 then [OnCall(st.streams[j].id, Finish(StatusFromI32(out.rc), None))] else [];
    var deeds := out.ops + code;
    assert forall k :: 0 <= k < |out.ops| ==> deeds[k] == out.ops[k];
    WritesAppend(out.ops, code, id);
    assert out.rc != 0 ==> code[1..] == [];
    assert Writes(code, id) == [];
  }

  lemma NoDeeds(st: ConnState, j: nat, h: Handlers, id: int)
    requires !Answered(st, j)
    ensures DeedsOf(st, j, h) == [] && Writes([], id) == []
  {
    hide RequestPayload, FindMethod;
  }

  /** The deeds that can still write on call `i`: all of the pass, or those before its refusal. */
  function LastTurn(st: ConnState, j: nat, i: nat): nat
    requires i < |st.streams|
  {
    if j <= i && RefusedIn(st, i) then i else |st.streams|
  }

  /**
   * Over a whole pass, on a call whose queue never rejects: accepted are the messages that the
   * handlers write on it, in pass order, up to its first finish or its refusal, and no others.
   */
  lemma {:induction false} PassTakes(st: ConnState, j: nat, i: nat, h: Handlers, submits: int -> bool)
    requires Core(st) && i < |st.streams| && j <= |st.streams| && Accepting(st.methods)
    requires !Rejects(st.streams[i].out.q.backpressure) && NeverRejects(Deeds(st, j, |st.streams|, h), st.streams[i].id)
    ensures var s, r := st.streams[i], DispatchedFrom(st, j, h, submits).streams[i];
            Takes(s, Writes(Deeds(st, j, LastTurn(st, j, i), h), s.id), r)
    decreases |st.streams| - j
  {
    hide Core, DispatchedOne, Deeds, DeedsOf, Writes, NeverRejects, Refusal, Takes, PassStep, SameCall;
    var s := st.streams[i];
    if j == |st.streams| {
      NothingWritten(st, j, i, h);
    } else {
      var st' := DispatchedOne(st, j, h, submits);
      DispatchOneKeeps(st, j, h, submits);
      DispatchOneLeaves(st, j, h, submits);
      SplitRejects(st, st', j, s.id, h);
      StepTakes(st, j, i, h, submits);
      TakesParts(s, Writes(DeedsOf(st, j, h), s.id), st'.streams[i]);
      PassTakes(st', j + 1, i, h, submits);
      assert DispatchedFrom(st, j, h, submits) == DispatchedFrom(st', j + 1, h, submits);
      var r := DispatchedFrom(st', j + 1, h, submits).streams[i];
      hide DispatchedFrom;
      FinishedBy(st, j, i, h, submits);
      Joined(st, st', j, i, h, r);
    }
  }

  lemma NothingWritten(st: ConnState, j: nat, i: nat, h: Handlers)
    requires i < |st.streams| == j && !Rejects(st.streams[i].out.q.backpressure)
    ensures Takes(st.streams[i], Writes(Deeds(st, j, LastTurn(st, j, i), h), st.streams[i].id), st.streams[i])
  {
    assert Deeds(st, j, j, h) == [];
    assert st.streams[i].out.accepted + [] == st.streams[i].out.accepted;
  }

  lemma TakesParts(s: StreamCtx, writes: seq<seq<byte>>, r: StreamCtx)
    requires Takes(s, writes, r)
    ensures r.id == s.id && !Rejects(r.out.q.backpressure)
  {
  }

  lemma SplitRejects(st: ConnState, st': ConnState, j: nat, id: int, h: Handlers)
    requires PassStep(st, j, st') && j < |st.streams| && NeverRejects(Deeds(st, j, |st.streams|, h), id)
    requires st'.methods == st.methods && st'.maxMessageLen == st.maxMessageLen
    ensures |st'.streams| == |st.streams|
    ensures NeverRejects(DeedsOf(st, j, h), id) && NeverRejects(Deeds(st', j + 1, |st.streams|, h), id)
  {
    hide DeedsOf;
    var a, b := DeedsOf(st, j, h), Deeds(st, j + 1, |st.streams|, h);
    DeedsDepend(st, st', j + 1, |st.streams|, h);
    assert forall k :: 0 <= k < |a| ==> (a + b)[k] == a[k];
    assert forall k :: 0 <= k < |b| ==> (a + b)[|a| + k] == b[k];
  }

  /** Whether a step leaves the call finished. */
  lemma FinishedBy(st: ConnState, j: nat, i: nat, h: Handlers, submits: int -> bool)
    requires Core(st) && i < |st.streams| && j < |st.streams|
    ensures DispatchedOne(st, j, h, submits).streams[i].out.q.finished <==>
            || st.streams[i].out.q.finished
            || (j == i && RefusedIn(st, i)) || FirstFinish(DeedsOf(st, j, h), st.streams[i].id).Some?
  {
    hide Core, DispatchedOne, DeedsOf, FirstFinish, Refusal, TextOf;
    if st.streams[i].out.q.finished {
      if j != i {
        OneKeepsOther(st, j, i, h, submits);
      } else if st.streams[i].state == Complete {
        OwnStep(st, i, h, submits);
      } else {
        DispatchOneKeeps(st, j, h, submits);
      }
    } else if j == i && RefusedIn(st, i) {
      RefusedUndecided(st, i, h, submits);
    } else {
      StepDecidesFirst(st, j, i, h, submits);
    }
  }

  lemma Joined(st: ConnState, st': ConnState, j: nat, i: nat, h: Handlers, r: StreamCtx)
    requires i < |st.streams| && PassStep(st, j, st') && j < |st.streams|
    requires st'.methods == st.methods && st'.maxMessageLen == st.maxMessageLen
    requires Takes(st.streams[i], Writes(DeedsOf(st, j, h), st.streams[i].id), st'.streams[i])
    requires Takes(st'.streams[i], Writes(Deeds(st', j + 1, LastTurn(st', j + 1, i), h), st.streams[i].id), r)
    requires st'.streams[i].out.q.finished <==>
             || st.streams[i].out.q.finished
             || (j == i && RefusedIn(st, i)) || FirstFinish(DeedsOf(st, j, h), st.streams[i].id).Some?
    ensures Takes(st.streams[i], Writes(Deeds(st, j, LastTurn(st, j, i), h), st.streams[i].id), r)
  {
    hide DeedsOf, Writes, FirstFinish, Refusal, RequestPayload, FindMethod, Rejects;
    var s, s', id := st.streams[i], st'.streams[i], st.streams[i].id;
    SameAhead(st, st', j, i);
    var end := LastTurn(st, j, i);
    if end == j {
      RefusedDeeds(st, j, h, id);
    } else {
      assert end == LastTurn(st', j + 1, i);
      DeedsDepend(st, st', j + 1, end, h);
      WritesAppend(DeedsOf(st, j, h), Deeds(st, j + 1, end, h), id);
      var a, b := Writes(DeedsOf(st, j, h), id), Writes(Deeds(st, j + 1, end, h), id);
      assert s.out.accepted + (a + b) == (s.out.accepted + a) + b;
    }
    assert s.out.accepted + [] == s.out.accepted && s'.out.accepted + [] == s'.out.accepted;
    var a := Writes(DeedsOf(st, j, h), id);
    assert a + [] == a;
  }

  lemma RefusedDeeds(st: ConnState, j: nat, h: Handlers, id: int)
    requires RefusedIn(st, j)
    ensures DeedsOf(st, j, h) == [] && Deeds(st, j, j, h) == [] && Writes([], id) == []
  {
    hide RequestPayload, FindMethod;
  }
}
