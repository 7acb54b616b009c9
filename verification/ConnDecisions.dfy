/** How a call comes by its outcome, and when its queue keeps within its bound, over every run. */
module ConnDecisions {
  import opened Bytes
  import opened QueueModel
  import opened QueueProofs
  import opened ConnModel
  import opened StreamProofs
  import opened ConnProofs
  import opened DispatchProofs
  import opened ConnRuns
  import opened ConnHistory
  import Percent
  import Utf8

  lemma NextEvolves(st: ConnState, ev: Event, s: StreamCtx, later: StreamCtx)
    requires ConnOk(st) && Allowed(st, ev) && s in All(st) && later in All(Next(st, ev)) && later.id == s.id
    ensures Evolves(CauseOf(st, ev), s, later)
  {
    hide ConnOk, Next, Allowed, Follows, Evolves, IdsOk, All, CauseOf;
    NextKeeps(st, ev);
    NextFollows(st, ev);
    DistinctIds(Next(st, ev));
    LaterState(CauseOf(st, ev), All(st), All(Next(st, ev)), s, later);
  }

  /** The text of a trailer is what the client shows, if it is UTF-8; an empty one is not sent. */
  lemma TextComesBack(message: Option<seq<byte>>)
    ensures TextOf(message).Some? ==>
              message.Some? && Percent.MessageOf(TextOf(message).value) == if Utf8.Valid(message.value) then message else None
    ensures TextOf(message).None? ==> message.None? || message.value == []
  {
    if message.Some? { Percent.RoundTrip(message.value); }
  }

  lemma DueIsThis(st: ConnState, now: nat, s: StreamCtx)
    requires ConnOk(st) && s in All(st) && Expires(DeadlinesAt(now, st), s.id)
    ensures Due(s, now)
  {
    hide ConnOk, Due;
    var k :| 0 <= k < |st.streams| && st.streams[k].id == s.id && Due(st.streams[k], now);
    assert All(st)[k] == st.streams[k];
    OneCall(st, s, st.streams[k]);
  }

  // ---- inside a handler ----

  /** The first finish of call `id` among the operations. */
  function FirstFinish(ops: seq<CallOp>, id: int): Option<Act> {
    if ops == [] then None
    else if ops[0].OnCall? && ops[0].id == id && ops[0].act.Finish? then Some(ops[0].act)
    else FirstFinish(ops[1..], id)
  }

  predicate Ended(q: Queue, status: GrpcStatus, text: Option<seq<byte>>) {
    q.finished && q.finalStatus == status && q.finalMessage == text
  }

  lemma {:induction false} OpsKeepEnded(st: ConnState, ops: seq<CallOp>, i: nat)
    requires i < |st.streams| && st.streams[i].out.q.finished
    ensures ApplyOps(st, ops).streams[i].out.q.finished
    ensures SameOutcome(st.streams[i].out.q, ApplyOps(st, ops).streams[i].out.q)
    decreases |ops|
  {
    if ops != [] {
      OpKeepsEnded(st, ops[0], i);
      hide ApplyOp;
      OpsKeepEnded(ApplyOp(st, ops[0]), ops[1..], i);
    }
  }

  lemma OpKeepsEnded(st: ConnState, op: CallOp, i: nat)
    requires i < |st.streams| && st.streams[i].out.q.finished
    ensures |ApplyOp(st, op).streams| == |st.streams|
    ensures var q := ApplyOp(st, op).streams[i].out.q; q.finished && SameOutcome(st.streams[i].out.q, q)
  {
    hide TEnqueue, Percent.Encoded;
  }

  /** The first finish among a handler's calls counts, and the others do not. */
  lemma {:induction false} FirstFinishCounts(st: ConnState, ops: seq<CallOp>, i: nat)
    requires Core(st) && i < |st.streams| && !st.streams[i].out.q.finished
    ensures var q, f := ApplyOps(st, ops).streams[i].out.q, FirstFinish(ops, st.streams[i].id);
            match f
            case Some(act) => act.Finish? && Ended(q, act.status, TextOf(act.message))
            case None => !q.finished && q.finalMessage.None?
    decreases |ops|
  {
    StreamAt(st, i);
    hide Core, Percent.Encoded;
    if ops != [] {
      ApplyOpKeeps(st, ops[0]);
      OpOnUndecided(st, ops[0], i);
      hide ApplyOp, TextOf;
      var st' := ApplyOp(st, ops[0]);
      if st'.streams[i].out.q.finished {
        OpsKeepEnded(st', ops[1..], i);
      } else {
        FirstFinishCounts(st', ops[1..], i);
      }
    }
  }

  lemma OpOnUndecided(st: ConnState, op: CallOp, i: nat)
    requires Core(st) && i < |st.streams| && !st.streams[i].out.q.finished
    ensures |ApplyOp(st, op).streams| == |st.streams| && ApplyOp(st, op).streams[i].id == st.streams[i].id
    ensures var q := ApplyOp(st, op).streams[i].out.q;
            if op.OnCall? && op.id == st.streams[i].id && op.act.Finish?
            then Ended(q, op.act.status, TextOf(op.act.message)) else !q.finished
  {
    StreamAt(st, i);
    FoundAtHome(st, i);
    hide Core, StreamOk, Acted, TextOf, IndexOf;
    if op.OnCall? && op.id == st.streams[i].id {
      ActOnUndecided(st.streams[i], op.act);
    }
  }

  lemma ActOnUndecided(s: StreamCtx, act: Act)
    requires StreamOk(s) && !s.out.q.finished
    ensures var r := Acted(s, act);
            && r.id == s.id
            && if act.Finish? then Ended(r.out.q, act.status, TextOf(act.message)) else !r.out.q.finished
  {
    hide QueueOk, TEnqueue, Percent.Encoded;
    if act.Write? { EnqueueFacts(s.out, act.body); }
  }

  /** A non-zero code from 1 to 16 is the status itself, any other is status 2. */
  lemma CodeStatus(rc: int)
    ensures rc != 0 ==> StatusFromI32(rc) == if 1 <= rc <= 16 then rc else 2
  {
  }

  /** The handler's own call: its first finish decides, else a non-zero code, else it stays open. */
  lemma HandlerDecidesFirst(st: ConnState, i: nat, h: Handlers, submits: int -> bool)
    requires Core(st) && Answered(st, i) && !st.streams[i].out.q.finished
    ensures var q, out := DispatchedOne(st, i, h, submits).streams[i].out.q, OutcomeOf(st, i, h);
            match FirstFinish(out.ops, st.streams[i].id)
            case Some(act) => act.Finish? && Ended(q, act.status, TextOf(act.message))
            case None =>
              if out.rc != 0 then Ended(q, if 1 <= out.rc <= 16 then out.rc else 2, None)
              else !q.finished && q.finalMessage.None?
  {
    hide Core, StreamOk, Replaces, FindMethod, RequestPayload, StatusFromI32, ApplyOps, TextOf, FirstFinish;
    var s := st.streams[i];
    var m, out := FindMethod(st.methods, s.path).value, OutcomeOf(st, i, h);
    StreamAt(st, i);
    PolicyReplaces(st.promise, s, m);
    PutKeeps(st, i, WithMethodPolicy(s, m));
    FirstFinishCounts(Put(st, i, WithMethodPolicy(s, m)), out.ops, i);
    CodeStatus(out.rc);
  }

  // ---- inside a pass ----

  lemma OneKeepsOther(st: ConnState, j: nat, i: nat, h: Handlers, submits: int -> bool)
    requires Core(st) && i < |st.streams| && j < |st.streams| && i != j && st.streams[i].out.q.finished
    ensures var r := DispatchedOne(st, j, h, submits);
            && r.streams[i].out.q.finished && SameOutcome(st.streams[i].out.q, r.streams[i].out.q)
            && SameCall(st.streams[i], r.streams[i]) && Refusal(r, r.streams[i]) == Refusal(st, st.streams[i])
  {
    DispatchOneKeeps(st, j, h, submits);
    DispatchOneLeaves(st, j, h, submits);
    hide Core, FindMethod, RequestPayload, ApplyOps;
    var s := st.streams[j];
    if s.state == Complete && Refusal(st, s).None? {
      var m, payload := FindMethod(st.methods, s.path).value, RequestPayload(s.request, st.maxMessageLen).value;
      OpsKeepEnded(Put(st, j, WithMethodPolicy(s, m)), h(m.handler, s.id, payload).ops, i);
    }
  }

  lemma OwnStep(st: ConnState, i: nat, h: Handlers, submits: int -> bool)
    requires i < |st.streams| && st.streams[i].state == Complete && st.streams[i].out.q.finished
    ensures var q, q' := st.streams[i].out.q, DispatchedOne(st, i, h, submits).streams[i].out.q;
            && q'.finished && q'.finalMessage == q.finalMessage
            && q'.finalStatus == if Refusal(st, st.streams[i]).Some? then Refusal(st, st.streams[i]).value else q.finalStatus
  {
    hide FindMethod, RequestPayload, HandlerRun;
    var s := st.streams[i];
    if Refusal(st, s).None? {
      RunKeepsEnded(st, i, FindMethod(st.methods, s.path).value,
                    RequestPayload(s.request, st.maxMessageLen).value, h, submits);
    }
  }

  lemma RunKeepsEnded(st: ConnState, i: nat, m: MethodEntry, payload: seq<byte>, h: Handlers, submits: int -> bool)
    requires i < |st.streams| && st.streams[i].out.q.finished
    ensures var q := HandlerRun(st, i, m, payload, h, submits).streams[i].out.q;
            q.finished && SameOutcome(st.streams[i].out.q, q)
  {
    hide ApplyOps;
    OpsKeepEnded(Put(st, i, WithMethodPolicy(st.streams[i], m)), h(m.handler, st.streams[i].id, payload).ops, i);
  }

  predicate RefusedIn(st: ConnState, k: int) {
    0 <= k < |st.streams| && st.streams[k].state == Complete && Refusal(st, st.streams[k]).Some?
  }

  /** What the rest of a pass does to a finished call: only a refusal still to come changes it, and not its text. */
  lemma {:induction false} PassOnFinished(st: ConnState, j: nat, i: nat, h: Handlers, submits: int -> bool)
    requires Core(st) && i < |st.streams| && j <= |st.streams| && st.streams[i].out.q.finished
    ensures var q, q' := st.streams[i].out.q, DispatchedFrom(st, j, h, submits).streams[i].out.q;
            && q'.finished && q'.finalMessage == q.finalMessage
            && q'.finalStatus == if j <= i && RefusedIn(st, i) then Refusal(st, st.streams[i]).value else q.finalStatus
    decreases |st.streams| - j
  {
    hide Core, Refusal, HandlerRun;
    if j < |st.streams| {
      DispatchOneKeeps(st, j, h, submits);
      if j != i {
        OneKeepsOther(st, j, i, h, submits);
      } else if st.streams[i].state == Complete {
        OwnStep(st, i, h, submits);
      }
      hide DispatchedOne;
      PassOnFinished(DispatchedOne(st, j, h, submits), j + 1, i, h, submits);
    }
  }

  /** What handler `k` does, its non-zero code counting as a last finish of its own call. */
  function DeedsOf(st: ConnState, k: int, h: Handlers): seq<CallOp> {
    if !Answered(st, k) then []
    else
      var out := OutcomeOf(st, k, h);
      out.ops + if out.rc != 0 then [OnCall(st.streams[k].id, Finish(StatusFromI32(out.rc), None))] else []
  }

  /** What the handlers of a pass over positions `at..end` do, in pass order. */
  function Deeds(st: ConnState, at: int, end: int, h: Handlers): seq<CallOp>
    decreases end - at
  {
    if at >= end then [] else DeedsOf(st, at, h) + Deeds(st, at + 1, end, h)
  }

  lemma {:induction false} FirstFinishAppend(a: seq<CallOp>, b: seq<CallOp>, id: int)
    ensures FirstFinish(a + b, id) == if FirstFinish(a, id).Some? then FirstFinish(a, id) else FirstFinish(b, id)
  {
    if a == [] {
      assert a + b == b;
    } else {
      assert (a + b)[1..] == a[1..] + b;
      FirstFinishAppend(a[1..], b, id);
    }
  }

  lemma {:induction false} DeedsDepend(a: ConnState, b: ConnState, at: int, end: int, h: Handlers)
    requires 0 <= at && end <= |a.streams| == |b.streams| && a.methods == b.methods && a.maxMessageLen == b.maxMessageLen
    requires forall k :: at <= k < end ==> SameCall(a.streams[k], b.streams[k])
    ensures Deeds(a, at, end, h) == Deeds(b, at, end, h)
    decreases end - at
  {
    hide RequestPayload, FindMethod, StatusFromI32;
    if at < end {
      assert SameCall(a.streams[at], b.streams[at]);
      DeedsDepend(a, b, at + 1, end, h);
    }
  }

  /** The call ended as the first finish says, or stayed open if there is none. */
  predicate EndsAs(q: Queue, f: Option<Act>) {
    match f
    case Some(act) => act.Finish? && Ended(q, act.status, TextOf(act.message))
    case None => !q.finished && q.finalMessage.None?
  }

  /** Whose finish is first among one handler's deeds. */
  lemma FirstDeed(st: ConnState, j: nat, id: int, h: Handlers)
    requires Answered(st, j)
    ensures var out := OutcomeOf(st, j, h);
            FirstFinish(DeedsOf(st, j, h), id) ==
            if FirstFinish(out.ops, id).Some? then FirstFinish(out.ops, id)
            else if out.rc != 0 && st.streams[j].id == id then Some(Finish(StatusFromI32(out.rc), None)) else None
  {
    hide StatusFromI32, RequestPayload, Refusal;
    var out := OutcomeOf(st, j, h);
    var code := if out.rc != 0 then [OnCall(st.streams[j].id, Finish(StatusFromI32(out.rc), None))] else [];
    FirstFinishAppend(out.ops, code, id);
    assert out.rc != 0 ==> code[1..] == [] && FirstFinish(code[1..], id) == None;
  }

  /** A step of the pass at another call, or at this one when it is not refused: the first finish of its deeds counts. */
  lemma StepDecidesFirst(st: ConnState, j: nat, i: nat, h: Handlers, submits: int -> bool)
    requires Core(st) && i < |st.streams| && j < |st.streams| && !st.streams[i].out.q.finished
    requires !(j == i && RefusedIn(st, i))
    ensures EndsAs(DispatchedOne(st, j, h, submits).streams[i].out.q, FirstFinish(DeedsOf(st, j, h), st.streams[i].id))
  {
    if Answered(st, j) {
      hide Core, StatusFromI32, FindMethod, RequestPayload, DispatchedOne, TextOf, DeedsOf, FirstFinish;
      FirstDeed(st, j, st.streams[i].id, h);
      if i == j {
        HandlerDecidesFirst(st, i, h, submits);
        CodeStatus(OutcomeOf(st, i, h).rc);
        NoText();
      } else {
        OtherHandler(st, j, i, h, submits);
      }
    } else {
      StreamAt(st, i);
      hide Core, FindMethod, RequestPayload, TextOf, QueueOk;
      assert DeedsOf(st, j, h) == [] && FirstFinish([], st.streams[i].id) == None;
    }
  }

  lemma NoText()
    ensures TextOf(None) == None
  {
  }

  /** Another call's handler runs: only what it does counts here, not what it returns. */
  lemma OtherHandler(st: ConnState, j: nat, i: nat, h: Handlers, submits: int -> bool)
    requires Core(st) && i < |st.streams| && j < |st.streams| && i != j && Answered(st, j) && !st.streams[i].out.q.finished
    ensures st.streams[i].id != st.streams[j].id
    ensures EndsAs(DispatchedOne(st, j, h, submits).streams[i].out.q,
                   FirstFinish(OutcomeOf(st, j, h).ops, st.streams[i].id))
  {
    FoundAtHome(st, i);
    FoundAtHome(st, j);
    hide Core, StreamOk, Replaces, FindMethod, RequestPayload, StatusFromI32, ApplyOps, TextOf, FirstFinish, IndexOf;
    var s := st.streams[j];
    var m := FindMethod(st.methods, s.path).value;
    StreamAt(st, j);
    PolicyReplaces(st.promise, s, m);
    PutKeeps(st, j, WithMethodPolicy(s, m));
    FirstFinishCounts(Put(st, j, WithMethodPolicy(s, m)), OutcomeOf(st, j, h).ops, i);
  }

  /** The refusal of a call still undecided: its status, and no text. */
  lemma RefusedUndecided(st: ConnState, i: nat, h: Handlers, submits: int -> bool)
    requires Core(st) && RefusedIn(st, i) && !st.streams[i].out.q.finished
    ensures Ended(DispatchedOne(st, i, h, submits).streams[i].out.q, Refusal(st, st.streams[i]).value, None)
  {
    StreamAt(st, i);
    hide Core, FindMethod, RequestPayload, QueueOk;
  }

  /** How a pass from position `j` on decides call `i`. */
  predicate PassDecides(st: ConnState, j: nat, i: nat, h: Handlers, q: Queue)
    requires i < |st.streams|
  {
    var id, n := st.streams[i].id, |st.streams|;
    if j <= i && RefusedIn(st, i) then
      var f := FirstFinish(Deeds(st, j, i, h), id);
      Ended(q, Refusal(st, st.streams[i]).value,
            if f.Some? && f.value.Finish? then TextOf(f.value.message) else None)
    else EndsAs(q, FirstFinish(Deeds(st, j, n, h), id))
  }

  /**
   * Over a whole pass: an undecided call is decided by the first finish on it among all that the
   * handlers do, in pass order, the non-zero code of its own handler counting where it is returned.
   * A call that is refused gets the refusal's status, with the text of the first finish before it
   * if there was one and no text otherwise.
   */
  lemma {:induction false} PassDecidesFirst(st: ConnState, j: nat, i: nat, h: Handlers, submits: int -> bool)
    requires Core(st) && i < |st.streams| && j <= |st.streams| && !st.streams[i].out.q.finished
    ensures PassDecides(st, j, i, h, DispatchedFrom(st, j, h, submits).streams[i].out.q)
    decreases |st.streams| - j
  {
    hide Core, DispatchedOne, Refusal, RefusedIn, Deeds, DeedsOf, EndsAs, Ended, FirstFinish, PassDecides, PassStep, SameCall;
    if j == |st.streams| {
      NothingDone(st, j, i, h);
    } else {
      var st' := DispatchedOne(st, j, h, submits);
      assert DispatchedFrom(st, j, h, submits) == DispatchedFrom(st', j + 1, h, submits);
      var q := DispatchedFrom(st', j + 1, h, submits).streams[i].out.q;
      DispatchOneKeeps(st, j, h, submits);
      hide DispatchedFrom;
      if st'.streams[i].out.q.finished {
        PassOnFinished(st', j + 1, i, h, submits);
      } else {
        PassDecidesFirst(st', j + 1, i, h, submits);
      }
      if j == i && RefusedIn(st, i) {
        RefusedUndecided(st, i, h, submits);
        RefusalEnds(st, st'.streams[i].out.q, i, h, q);
      } else {
        StepDecidesFirst(st, j, i, h, submits);
        DispatchOneLeaves(st, j, h, submits);
        Combined(st, st', j, i, h, q);
      }
    }
  }

  lemma NothingDone(st: ConnState, j: nat, i: nat, h: Handlers)
    requires Core(st) && i < |st.streams| == j && !st.streams[i].out.q.finished
    ensures PassDecides(st, j, i, h, st.streams[i].out.q)
  {
    StreamAt(st, i);
    hide Core, QueueOk;
    assert FirstFinish([], st.streams[i].id) == None;
  }

  lemma RefusalEnds(st: ConnState, q': Queue, i: nat, h: Handlers, q: Queue)
    requires RefusedIn(st, i) && Ended(q', Refusal(st, st.streams[i]).value, None)
    requires q'.finished ==> q.finished && SameOutcome(q', q)
    ensures PassDecides(st, i, i, h, q)
  {
    hide Refusal;
    assert FirstFinish([], st.streams[i].id) == None;
  }

  /** One step of the pass and the rest of it, put together. */
  lemma Combined(st: ConnState, st': ConnState, j: nat, i: nat, h: Handlers, q: Queue)
    requires i < |st.streams| && PassStep(st, j, st') && !(j == i && RefusedIn(st, i))
    requires st'.methods == st.methods && st'.maxMessageLen == st.maxMessageLen
    requires EndsAs(st'.streams[i].out.q, FirstFinish(DeedsOf(st, j, h), st.streams[i].id))
    requires var q' := st'.streams[i].out.q;
             if q'.finished then
               && q.finished && q.finalMessage == q'.finalMessage
               && q.finalStatus == if j + 1 <= i && RefusedIn(st', i) then Refusal(st', st'.streams[i]).value else q'.finalStatus
             else PassDecides(st', j + 1, i, h, q)
    ensures PassDecides(st, j, i, h, q)
  {
    hide DeedsOf, TextOf, FirstFinish, Refusal, RefusedIn;
    var id, n := st.streams[i].id, |st.streams|;
    SameAhead(st, st', j, i);
    SplitDeeds(st, st', j, n, id, h);
    if j < i { SplitDeeds(st, st', j, i, id, h); }
    hide PassStep, Deeds;
  }

  lemma SameAhead(st: ConnState, st': ConnState, j: nat, i: nat)
    requires i < |st.streams| && PassStep(st, j, st')
    requires st'.methods == st.methods && st'.maxMessageLen == st.maxMessageLen
    ensures st'.streams[i].id == st.streams[i].id
    ensures j < i ==> RefusedIn(st', i) == RefusedIn(st, i) && Refusal(st', st'.streams[i]) == Refusal(st, st.streams[i])
  {
    hide RequestPayload, FindMethod;
  }

  lemma SplitDeeds(st: ConnState, st': ConnState, j: nat, end: nat, id: int, h: Handlers)
    requires PassStep(st, j, st') && j < end <= |st.streams|
    requires st'.methods == st.methods && st'.maxMessageLen == st.maxMessageLen
    ensures var first := FirstFinish(DeedsOf(st, j, h), id);
            FirstFinish(Deeds(st, j, end, h), id) ==
            if first.Some? then first else FirstFinish(Deeds(st', j + 1, end, h), id)
  {
    hide DeedsOf, FirstFinish;
    DeedsDepend(st, st', j + 1, end, h);
    FirstFinishAppend(DeedsOf(st, j, h), Deeds(st, j + 1, end, h), id);
  }

  // ---- one event ----

  /**
   * How an event decides an undecided call: a finish by the application; a pass, by the first finish on
   * it in pass order or by its refusal; its deadline.
   */
  ghost predicate DecidedBy(st: ConnState, ev: Event, s: StreamCtx, q: Queue) {
    match ev
    case OnCallOf(id, Call(Finish(x, message))) => id == s.id && Ended(q, x, TextOf(message))
    case Dispatch(h, submits) => exists i: nat :: i < |st.streams| && st.streams[i] == s && PassDecides(st, 0, i, h, q)
    case Expire(now) => Due(s, now) && Ended(q, STATUS_DEADLINE_EXCEEDED, TextOf(Some(DEADLINE_MESSAGE)))
    case _ => false
  }

  /** An undecided call is decided in one of these ways, with that status and text, and by nothing else. */
  lemma WhatDecides(st: ConnState, ev: Event, s: StreamCtx, later: StreamCtx)
    requires ConnOk(st) && Allowed(st, ev) && s in All(st) && later in All(Next(st, ev)) && later.id == s.id
    requires !s.out.q.finished && later.out.q.finished
    ensures DecidedBy(st, ev, s, later.out.q)
  {
    hide ConnOk, Allowed, Next, Evolves, Due, TextOf, PassDecides, All, Decides;
    NextEvolves(st, ev, s, later);
    EvolvesParts(CauseOf(st, ev), s, later);
    if ev.Expire? {
      OnlyDeadline(ev.now, st, s.id, later.out.q.finalStatus, later.out.q.finalMessage);
      DueIsThis(st, ev.now, s);
    } else if ev.Dispatch? {
      DispatchDecides(st, ev, s, later);
    } else {
      OnlyFinish(st, ev, s.id, later.out.q.finalStatus, later.out.q.finalMessage);
    }
  }

  /** Neither a pass nor a sweep: then only a finish decides. */
  lemma OnlyFinish(st: ConnState, ev: Event, id: int, status: GrpcStatus, text: Option<seq<byte>>)
    requires Decides(CauseOf(st, ev), id, status, text) && !ev.Dispatch? && !ev.Expire?
    ensures ev.OnCallOf? && ev.id == id && ev.change.Call? && ev.change.act.Finish?
    ensures status == ev.change.act.status && text == TextOf(ev.change.act.message)
  {
    hide TextOf;
  }

  lemma DispatchDecides(st: ConnState, ev: Event, s: StreamCtx, later: StreamCtx)
    requires ev.Dispatch? && ConnOk(st) && s in All(st) && later in All(Next(st, ev)) && later.id == s.id
    requires !s.out.q.finished && later.out.q.finished
    ensures DecidedBy(st, ev, s, later.out.q)
  {
    hide ConnOk, Core, Next, Allowed, PassDecides, DispatchedFrom;
    var r := DispatchedFrom(st, 0, ev.handlers, ev.submits);
    DispatchIs(st, ev);
    NextKeeps(st, ev);
    CoreOf(st);
    PlacesFrom(st, 0, ev.handlers, ev.submits);
    var k :| 0 <= k < |All(st)| && All(st)[k] == s;
    OneCall(r, All(r)[k], later);
    if k < |st.streams| {
      PassDecidesFirst(st, 0, k, ev.handlers, ev.submits);
      assert st.streams[k] == s;
    }
  }

  lemma CoreOf(st: ConnState)
    requires ConnOk(st)
    ensures Core(st)
  {
  }

  /** A pass leaves every call where it was, and closed ones as they were. */
  lemma {:induction false} PlacesFrom(st: ConnState, j: nat, h: Handlers, submits: int -> bool)
    requires Core(st) && j <= |st.streams|
    ensures var r := DispatchedFrom(st, j, h, submits);
            r.gone == st.gone && |r.streams| == |st.streams| &&
            forall i :: 0 <= i < |st.streams| ==> r.streams[i].id == st.streams[i].id
    decreases |st.streams| - j
  {
    hide Core, DispatchedOne;
    if j < |st.streams| {
      DispatchOneKeeps(st, j, h, submits);
      GoneStays(st, j, h, submits);
      PlacesFrom(DispatchedOne(st, j, h, submits), j + 1, h, submits);
    }
  }

  lemma GoneStays(st: ConnState, j: nat, h: Handlers, submits: int -> bool)
    requires j < |st.streams|
    ensures DispatchedOne(st, j, h, submits).gone == st.gone
  {
    hide RequestPayload, FindMethod, Submitted, FinalizedError, ApplyOps;
    var s := st.streams[j];
    if Answered(st, j) {
      OpsSendNothing(Put(st, j, WithMethodPolicy(s, FindMethod(st.methods, s.path).value)), OutcomeOf(st, j, h).ops);
    }
  }

  lemma OnlyDeadline(now: nat, st: ConnState, id: int, status: GrpcStatus, text: Option<seq<byte>>)
    requires Decides(DeadlinesAt(now, st), id, status, text)
    ensures Expires(DeadlinesAt(now, st), id)
    ensures status == STATUS_DEADLINE_EXCEEDED && text == TextOf(Some(DEADLINE_MESSAGE))
  {
    hide Expires, TextOf;
  }

  // ---- every run ----

  lemma RunTail(st: ConnState, evs: seq<Event>, n: nat)
    requires evs != [] && n <= |evs| - 1
    ensures RunConn(st, evs[..n + 1]) == RunConn(Next(st, evs[0]), evs[1..][..n])
  {
    hide Next;
    assert evs[..n + 1][1..] == evs[1..][..n];
  }

  /**
   * From dispatch on, the outcome a call ends with is that of the first event to decide it: some
   * event finds the call undecided and decides it, in one of the ways above, and what it decides is
   * what stands at the end.
   */
  lemma {:induction false} FirstDecisionStands(st: ConnState, evs: seq<Event>, s: StreamCtx, last: StreamCtx)
      returns (n: nat, at: StreamCtx, after: StreamCtx)
    requires ConnOk(st) && AllowedRun(st, evs) && s in All(st) && PastDispatch(s) && !s.out.q.finished
    requires last in All(RunConn(st, evs)) && last.id == s.id && last.out.q.finished
    ensures n < |evs|
    ensures at in All(RunConn(st, evs[..n])) && at.id == s.id && !at.out.q.finished
    ensures after in All(RunConn(st, evs[..n + 1])) && after.id == s.id && after.out.q.finished
    ensures SameOutcome(after.out.q, last.out.q)
    ensures DecidedBy(RunConn(st, evs[..n]), evs[n], at, after.out.q)
    decreases |evs|
  {
    hide ConnOk, Next, Allowed, Evolves, Follows, CauseOf, Decides, All, DecidedBy;
    if evs == [] {
      OneCall(st, s, last);
      assert false;
    }
    var st1, rest := Next(st, evs[0]), evs[1..];
    NextKeeps(st, evs[0]);
    NextFollows(st, evs[0]);
    var s1 := HasLater(CauseOf(st, evs[0]), All(st), All(st1), s);
    EvolvesParts(CauseOf(st, evs[0]), s, s1);
    assert RunConn(st, evs[..0]) == st && evs[..1][1..] == [] && RunConn(st, evs[..1]) == st1;
    if s1.out.q.finished {
      WhatDecides(st, evs[0], s, s1);
      SettledIsFinal(st1, rest, s1, last);
      n, at, after := 0, s, s1;
    } else {
      n, at, after := FirstDecisionStands(st1, rest, s1, last);
      RunTail(st, evs, n);
      RunTail(st, evs, n + 1);
      n := n + 1;
    }
  }

  // ---- what the client is told ----

  /** The trailer tells the client this status and, if there is a text and it is UTF-8, this text. */
  predicate Shows(p: Provider, status: GrpcStatus, message: Option<seq<byte>>) {
    && p.Done? && p.status == status
    && if message.Some? && message.value != []
       then p.message.Some? && Percent.MessageOf(p.message.value) == if Utf8.Valid(message.value) then message else None
       else p.message.None?
  }

  /** A settled outcome is the one the trailer carries, however long after. */
  lemma OutcomeGoesOut(st: ConnState, evs: seq<Event>, s: StreamCtx, last: StreamCtx, message: Option<seq<byte>>)
    requires ConnOk(st) && AllowedRun(st, evs) && s in All(st) && Settled(s) && s.out.q.finalMessage == TextOf(message)
    requires last in All(RunConn(st, evs)) && last.id == s.id && last.provider.Done?
    ensures Shows(last.provider, s.out.q.finalStatus, message)
  {
    hide ConnOk, AllowedRun, RunConn, Percent.Encoded, Percent.MessageOf, Utf8.Valid;
    SettledIsFinal(st, evs, s, last);
    EveryRunKeeps(st, evs);
    EndedResponse(RunConn(st, evs), last);
    hide All;
    TextComesBack(message);
    if message.Some? { NonEmptyText(message.value); }
  }

  lemma EndedResponse(st: ConnState, s: StreamCtx)
    requires ConnOk(st) && s in All(st) && s.provider.Done?
    ensures s.provider.status == s.out.q.finalStatus
    ensures var text := s.out.q.finalMessage;
            s.provider.message == if text.Some? && text.value != [] then text else None
  {
    hide QueueOk, DataOf, Knows, IdsOk, HooksOk, InvokedOk, PromiseOk, SocketOk;
    var i :| 0 <= i < |All(st)| && All(st)[i] == s;
    assert StreamOk(All(st)[i]);
  }

  lemma NonEmptyText(text: seq<byte>)
    ensures text != [] ==> Percent.Encoded(text) != []
  {
    Percent.RoundTrip(text);
  }

  /** What the client is told of a call that `ev` decided. */
  ghost predicate Tells(st: ConnState, ev: Event, s: StreamCtx, p: Provider) {
    match ev
    case OnCallOf(id, Call(Finish(x, message))) => Shows(p, x, message)
    case Dispatch(h, submits) => exists i: nat :: i < |st.streams| && st.streams[i] == s && PassShows(st, i, h, p)
    case Expire(now) => Shows(p, 4, Some(Ascii("deadline exceeded")))
    case _ => false
  }

  /**
   * End to end: whatever decides a dispatched call, the client is told that status and text when the
   * response ends: those of the application's finish, those of the first finish in pass order, those
   * of the deadline; a refusal comes with the text of the first finish before it.
   */
  lemma DecisionReachesClient(st: ConnState, ev: Event, s: StreamCtx, later: StreamCtx, evs: seq<Event>, last: StreamCtx)
    requires ConnOk(st) && Allowed(st, ev) && s in All(st) && later in All(Next(st, ev)) && later.id == s.id
    requires !s.out.q.finished && Settled(later) && AllowedRun(Next(st, ev), evs)
    requires last in All(RunConn(Next(st, ev), evs)) && last.id == s.id && last.provider.Done?
    ensures Tells(st, ev, s, last.provider)
  {
    hide ConnOk, Next, Allowed, AllowedRun, RunConn, TextOf, Shows, All, PassDecides, PassShows, Due;
    WhatDecides(st, ev, s, later);
    NextKeeps(st, ev);
    match ev {
      case OnCallOf(id, Call(Finish(x, message))) => OutcomeGoesOut(Next(st, ev), evs, later, last, message);
      case Expire(now) =>
        DeadlineText();
        OutcomeGoesOut(Next(st, ev), evs, later, last, Some(DEADLINE_MESSAGE));
      case Dispatch(h, submits) =>
        var i: nat :| i < |st.streams| && st.streams[i] == s && PassDecides(st, 0, i, h, later.out.q);
        var message := PassText(st, i, h, later.out.q);
        OutcomeGoesOut(Next(st, ev), evs, later, last, message);
        PassShown(st, i, h, later.out.q, message, last.provider);
      case _ => assert false;
    }
  }

  /** What the client is told of call `i` when a pass over `st` decides it. */
  ghost predicate PassShows(st: ConnState, i: nat, h: Handlers, p: Provider)
    requires i < |st.streams|
  {
    var id := st.streams[i].id;
    if RefusedIn(st, i) then
      var f := FirstFinish(Deeds(st, 0, i, h), id);
      Shows(p, Refusal(st, st.streams[i]).value, if f.Some? && f.value.Finish? then f.value.message else None)
    else
      var f := FirstFinish(Deeds(st, 0, |st.streams|, h), id);
      f.Some? && f.value.Finish? && Shows(p, f.value.status, f.value.message)
  }

  ghost function PassText(st: ConnState, i: nat, h: Handlers, q: Queue): (message: Option<seq<byte>>)
    requires i < |st.streams| && PassDecides(st, 0, i, h, q) && q.finished
    ensures q.finalMessage == TextOf(message)
  {
    var f := FirstFinish(Deeds(st, 0, if RefusedIn(st, i) then i else |st.streams|, h), st.streams[i].id);
    if f.Some? && f.value.Finish? then f.value.message else None
  }

  lemma PassShown(st: ConnState, i: nat, h: Handlers, q: Queue, message: Option<seq<byte>>, p: Provider)
    requires i < |st.streams| && PassDecides(st, 0, i, h, q) && q.finished
    requires message == PassText(st, i, h, q) && Shows(p, q.finalStatus, message)
    ensures PassShows(st, i, h, p)
  {
    hide Shows, Deeds, FirstFinish, TextOf, Refusal;
  }

  lemma DeadlineText()
    ensures DEADLINE_MESSAGE == Ascii("deadline exceeded")
  {
  }

  lemma OneCall(st: ConnState, a: StreamCtx, b: StreamCtx)
    requires ConnOk(st) && a in All(st) && b in All(st) && a.id == b.id
    ensures a == b
  {
    DistinctIds(st);
    hide ConnOk;
    var all := All(st);
    var i :| 0 <= i < |all| && all[i] == a;
    var j :| 0 <= j < |all| && all[j] == b;
  }

  lemma EvolvesParts(w: Cause, a: StreamCtx, b: StreamCtx)
    requires Evolves(w, a, b)
    ensures PastDispatch(a) ==> PastDispatch(b)
    ensures !a.out.q.finished && b.out.q.finished ==> Decides(w, a.id, b.out.q.finalStatus, b.out.q.finalMessage)
    ensures !SetsPolicy(w, a.id) ==> KeepsBound(a.out.q, b.out.q)
  {
  }

  // ---- the bound of a call's queue ----

  /** No event of the run installs a policy on the call, its own dispatch included. */
  ghost predicate PolicyFree(st: ConnState, evs: seq<Event>, id: int)
    decreases |evs|
  {
    evs == [] || (!SetsPolicy(CauseOf(st, evs[0]), id) && PolicyFree(Next(st, evs[0]), evs[1..], id))
  }

  /** A call within its bound stays within it, at one message more in all, until its policy is replaced. */
  lemma {:induction false} BoundHolds(st: ConnState, evs: seq<Event>, s: StreamCtx, later: StreamCtx)
    requires ConnOk(st) && AllowedRun(st, evs) && PolicyFree(st, evs, s.id)
    requires s in All(st) && WithinCapacity(s.out.q) && later in All(RunConn(st, evs)) && later.id == s.id
    ensures later.out.q.backpressure == s.out.q.backpressure && WithinCapacity(later.out.q)
    ensures later.out.q.backpressure.Bounded? ==>
              |later.out.q.messages| <= later.out.q.backpressure.capacity + 1
    decreases |evs|
  {
    if evs == [] {
      OneCall(st, s, later);
    } else {
      hide ConnOk, Next, Allowed, Evolves, Follows, CauseOf, SetsPolicy, All, WithinCapacity;
      NextKeeps(st, evs[0]);
      NextFollows(st, evs[0]);
      var s1 := HasLater(CauseOf(st, evs[0]), All(st), All(Next(st, evs[0])), s);
      EvolvesParts(CauseOf(st, evs[0]), s, s1);
      BoundHolds(Next(st, evs[0]), evs[1..], s1, later);
    }
  }

  // ---- a finish before dispatch ----

  /**
   * A status given before dispatch is not safe: a pass that turns the request away overwrites it.
   * It survives the pass exactly when a handler is run, or the refusal carries the same status. Its
   * text stays either way, so a refusal goes out with the text of the finish it overwrote.
   */
  lemma EarlyFinishSurvivesIff(st: ConnState, i: nat, h: Handlers, submits: int -> bool)
    requires Core(st) && i < |st.streams| && st.streams[i].state == Complete && st.streams[i].out.q.finished
    ensures var s, s' := st.streams[i], DispatchedFrom(st, 0, h, submits).streams[i];
            && (s'.out.q.finalStatus == s.out.q.finalStatus <==>
                Refusal(st, s).None? || Refusal(st, s) == Some(s.out.q.finalStatus))
            && s'.out.q.finalMessage == s.out.q.finalMessage
  {
    hide Core, Refusal, DispatchedFrom;
    PassOnFinished(st, 0, i, h, submits);
  }

  /** A run that loses one: finished OK with a text before its request ends, empty; it goes out INTERNAL with that text. */
  lemma EarlyFinishCanBeLost(h: Handlers, submits: int -> bool, text: seq<byte>)
    requires text != []
    ensures var st := Fresh([], 16, 3);
            var evs := [Open(1), OnCallOf(1, Call(Finish(STATUS_OK, Some(text)))), OnCallOf(1, FrameRecv(true, true)),
                        Event.Dispatch(h, submits)];
            && AllowedRun(st, evs)
            && |RunConn(st, evs).streams| == 1
            && Ended(RunConn(st, evs).streams[0].out.q, STATUS_INTERNAL, Some(Percent.Encoded(text)))
  {
    hide Percent.Encoded;
    var st0 := Fresh([], 16, 3);
    var e1, e2, e3, e4 := Open(1), OnCallOf(1, Call(Finish(STATUS_OK, Some(text)))), OnCallOf(1, FrameRecv(true, true)),
                          Event.Dispatch(h, submits);
    var st1 := Next(st0, e1);
    assert st1.streams == [NewStream(1)];
    var st2 := Next(st1, e2);
    var st3 := Next(st2, e3);
    assert |st3.streams| == 1 && st3.streams[0].state == Complete && st3.streams[0].request == [];
    var st4 := Next(st3, e4);
    assert DispatchedFrom(DispatchedOne(st3, 0, h, submits), 1, h, submits) == DispatchedOne(st3, 0, h, submits);
    assert st4 == DispatchedOne(st3, 0, h, submits);
    FourEvents(st0, e1, e2, e3, e4);
  }

  lemma FourEvents(st: ConnState, e1: Event, e2: Event, e3: Event, e4: Event)
    ensures var st1 := Next(st, e1);
            var st2 := Next(st1, e2);
            var st3 := Next(st2, e3);
            && RunConn(st, [e1, e2, e3, e4]) == Next(st3, e4)
            && (Allowed(st, e1) && Allowed(st1, e2) && Allowed(st2, e3) && Allowed(st3, e4) ==>
                AllowedRun(st, [e1, e2, e3, e4]))
  {
    hide Next, Allowed;
    var st1 := Next(st, e1);
    var st2 := Next(st1, e2);
    var st3 := Next(st2, e3);
    assert [e1, e2, e3, e4][1..] == [e2, e3, e4] && [e2, e3, e4][1..] == [e3, e4];
    assert [e3, e4][1..] == [e4] && [e4][1..] == [];
    assert RunConn(st3, [e4]) == Next(st3, e4) && RunConn(st2, [e3, e4]) == RunConn(st3, [e4]);
    assert RunConn(st1, [e2, e3, e4]) == RunConn(st2, [e3, e4]);
    assert Allowed(st3, e4) ==> AllowedRun(st3, [e4]);
    assert Allowed(st2, e3) && AllowedRun(st3, [e4]) ==> AllowedRun(st2, [e3, e4]);
    assert Allowed(st1, e2) && AllowedRun(st2, [e3, e4]) ==> AllowedRun(st1, [e2, e3, e4]);
  }
}
