/**
 * The Rust server's outbound mailbox: writers on any thread, one I/O loop, unique connection tokens,
 * and an eventfd that is poked only by the push that finds the queue empty.
 *
 * Thread 0 is the I/O thread. Every load, swap, critical section and system call is one step.
 */
module TokenMailbox {
  import opened Bytes
  import opened QueueModel

  const IO: nat := 0

  datatype Kind = Write(body: seq<byte>) | Finish(status: GrpcStatus, message: Option<seq<byte>>) | Policy(bp: Backpressure)

  /** `call` numbers the shared state of one call; `origin` is the connection that created the writer. */
  datatype Writer = Writer(token: nat, callId: int, call: nat, origin: nat)

  datatype Op = Op(token: nat, callId: int, kind: Kind, writer: Writer)

  // ---- the queue itself ----

  class Mailbox {
    var ops: seq<Op>

    constructor ()
      ensures ops == []
    {
      ops := [];
    }

    /** Tells the caller whether the queue was empty, so whether a wakeup is due. */
    method Push(op: Op) returns (wasEmpty: bool)
      modifies this`ops
      ensures ops == old(ops) + [op] && (wasEmpty <==> old(ops) == [])
    {
      wasEmpty := ops == [];
      ops := ops + [op];
    }

    method TakeAll() returns (taken: seq<Op>)
      modifies this`ops
      ensures taken == old(ops) && ops == []
    {
      taken := ops;
      ops := [];
    }
  }

  // ---- threads ----

  /** Where a thread stands inside a writer call. */
  datatype Pc =
    | Outside
    | SawUnfinished(writer: Writer, kind: Kind)
    | SawAlive(writer: Writer, kind: Kind)
    | Pushing(op: Op)
    | Poking

  datatype Slot = Slot(token: nat, conn: nat, dead: bool)

  /** Where the I/O loop stands: what poll reported about the eventfd, which connection is being ticked. */
  datatype Phase =
    | Polling
    | Returned(wake: bool)
    | Ticking(conn: Option<nat>)
    | Applying(ops: seq<Op>)
    | Flushing

  datatype Shared = Shared(finished: bool, dead: bool, overflow: bool)

  datatype Applied = Applied(op: Op, onto: nat) | Bounced(op: Op)

  datatype State = State(
    queue: seq<Op>,
    counter: nat,
    threads: map<nat, Pc>,
    phase: Phase,
    slots: seq<Slot>,
    currentToken: nat,
    nextToken: nat,
    accepted: nat,
    issued: map<nat, nat>,
    writers: set<Writer>,
    calls: seq<Shared>,
    pushed: seq<Op>,
    done: seq<Applied>)

  const INITIAL := State([], 0, map[], Polling, [], 0, 1, 0, map[], {}, [], [], [])

  datatype Reply = Ok | QueueFull | Refused

  datatype Action =
    | BeginWrite(thread: nat, writer: Writer, kind: Kind)
    | BeginFinish(thread: nat, writer: Writer, kind: Kind)
    | Proceed(thread: nat)
    | PushOp(thread: nat)
    | Poke(thread: nat)
    | PollReturns
    | PollInterrupted
    | AcceptConn(registers: bool)
    | ClearWakeup
    | StartTick(i: nat)
    | Handle(callId: int)
    | ConnDies(i: nat)
    | TakeOps
    | ApplyNext(reply: Reply)
    | EndApply
    | EndFlush

  function PcOf(s: State, t: nat): Pc {
    if t in s.threads then s.threads[t] else Outside
  }

  function At(s: State, t: nat, pc: Pc): State {
    s.(threads := s.threads[t := pc])
  }

  /** A thread may run writer code; the I/O thread only while handlers run. */
  predicate MayRun(s: State, t: nat) {
    t == IO ==> s.phase.Ticking?
  }

  predicate Enabled(s: State, a: Action) {
    match a
    case BeginWrite(t, w, kind) => MayRun(s, t) && PcOf(s, t).Outside? && w in s.writers && w.call < |s.calls| && !kind.Finish?
    case BeginFinish(t, w, kind) => MayRun(s, t) && PcOf(s, t).Outside? && w in s.writers && w.call < |s.calls| && kind.Finish?
    case Proceed(t) =>
      && MayRun(s, t) && (PcOf(s, t).SawUnfinished? || PcOf(s, t).SawAlive?)
      && PcOf(s, t).writer.call < |s.calls|
    case PushOp(t) => MayRun(s, t) && PcOf(s, t).Pushing?
    case Poke(t) => PcOf(s, t).Poking?
    case PollReturns => s.phase.Polling?
    case PollInterrupted => s.phase.Polling?
    case AcceptConn(registers) => s.phase.Returned?
    case ClearWakeup => s.phase.Returned?
    case StartTick(i) => s.phase.Ticking? && PcOf(s, IO).Outside? && i < |s.slots|
    case Handle(callId) => s.phase.Ticking? && PcOf(s, IO).Outside? && s.phase.conn.Some? && s.phase.conn.value < |s.slots|
    case ConnDies(i) => (s.phase.Ticking? || s.phase.Flushing?) && i < |s.slots|
    case TakeOps => s.phase.Ticking? && PcOf(s, IO).Outside?
    case ApplyNext(reply) => s.phase.Applying? && s.phase.ops != []
    case EndApply => s.phase == Applying([])
    case EndFlush => s.phase.Flushing?
  }

  /** The first live connection with the op's token. */
  function FindSlot(slots: seq<Slot>, token: nat): Option<nat> {
    if slots == [] then None
    else if slots[0].token == token && !slots[0].dead then Some(slots[0].conn)
    else FindSlot(slots[1..], token)
  }

  function Kill(s: State, call: nat): State {
    if call < |s.calls| then s.(calls := s.calls[call := s.calls[call].(dead := true)]) else s
  }

  function Live(slots: seq<Slot>): seq<Slot> {
    if slots == [] then [] else (if slots[0].dead then [] else [slots[0]]) + Live(slots[1..])
  }

  function OpOf(w: Writer, kind: Kind): Op {
    Op(w.token, w.callId, kind, w)
  }

  function Proceeded(s: State, t: nat): State
    requires Enabled(s, Proceed(t))
  {
    var pc := PcOf(s, t);
    var w, shared := pc.writer, s.calls[pc.writer.call];
    match pc
    case SawUnfinished(_, kind) =>
      // write and set_backpressure: the second of two loads
      if shared.dead then At(s, t, Outside) else At(s, t, Pushing(OpOf(w, kind)))
    case SawAlive(_, kind) =>
      // finish: swap(true), and only the first swap goes on
      if shared.finished then At(s, t, Outside)
      else At(s, t, Pushing(OpOf(w, kind))).(calls := s.calls[w.call := shared.(finished := true)])
    case _ => s
  }

  function ApplyResult(s: State, reply: Reply): State
    requires s.phase.Applying? && s.phase.ops != []
  {
    var op, rest := s.phase.ops[0], s.(phase := Applying(s.phase.ops[1..]));
    match FindSlot(s.slots, op.token)
    case None => Kill(rest, op.writer.call).(done := s.done + [Bounced(op)])
    case Some(conn) =>
      var hit := rest.(done := s.done + [Applied(op, conn)]);
      match reply
      case Ok => hit
      case QueueFull =>
        if op.writer.call < |s.calls| then hit.(calls := s.calls[op.writer.call := s.calls[op.writer.call].(overflow := true)]) else hit
      case Refused => Kill(hit, op.writer.call)
  }

  function Next(s: State, a: Action): State
    requires Enabled(s, a)
  {
    match a
    case BeginWrite(t, w, kind) => if s.calls[w.call].finished then s else At(s, t, SawUnfinished(w, kind))
    case BeginFinish(t, w, kind) => if s.calls[w.call].dead then s else At(s, t, SawAlive(w, kind))
    case Proceed(t) => Proceeded(s, t)
    case PushOp(t) =>
      var op := PcOf(s, t).op;
      At(s, t, if s.queue == [] && t != IO then Poking else Outside).(queue := s.queue + [op], pushed := s.pushed + [op])
    case Poke(t) => At(s, t, Outside).(counter := s.counter + 1)
    case PollReturns => s.(phase := Returned(s.counter > 0))
    case PollInterrupted => s
    case AcceptConn(registers) =>
      if registers then
        s.(slots := s.slots + [Slot(s.nextToken, s.accepted, false)],
           issued := s.issued[s.nextToken := s.accepted],
           nextToken := s.nextToken + 1, accepted := s.accepted + 1)
      else s.(accepted := s.accepted + 1)
    case ClearWakeup => s.(counter := if s.phase.wake then 0 else s.counter, phase := Ticking(None))
    case StartTick(i) => s.(currentToken := s.slots[i].token, phase := Ticking(Some(i)))
    case Handle(callId) =>
      var w := Writer(s.currentToken, callId, |s.calls|, s.slots[s.phase.conn.value].conn);
      s.(writers := s.writers + {w}, calls := s.calls + [Shared(false, false, false)])
    case ConnDies(i) => s.(slots := s.slots[i := s.slots[i].(dead := true)])
    case TakeOps => s.(queue := [], phase := Applying(s.queue))
    case ApplyNext(reply) => ApplyResult(s, reply)
    case EndApply => s.(phase := Flushing)
    case EndFlush => s.(slots := Live(s.slots), phase := Polling)
  }

  // ---- no lost wakeup ----

  predicate SomePoking(s: State) {
    exists t :: t in s.threads && s.threads[t].Poking?
  }

  /** Between reading the eventfd and taking the queue the loop needs no wakeup; otherwise one is due. */
  predicate WakeOk(s: State) {
    s.queue != [] && !s.phase.Ticking? ==> s.counter > 0 || SomePoking(s)
  }

  lemma AtKeepsPoking(s: State, t: nat, pc: Pc)
    requires SomePoking(s) && !PcOf(s, t).Poking?
    ensures SomePoking(At(s, t, pc))
  {
    var u :| u in s.threads && s.threads[u].Poking?;
    assert At(s, t, pc).threads[u].Poking?;
  }

  lemma WakeStep(s: State, a: Action)
    requires WakeOk(s) && Enabled(s, a)
    ensures WakeOk(Next(s, a))
  {
    var s' := Next(s, a);
    match a {
      case BeginWrite(t, w, kind) => if SomePoking(s) { AtKeepsPoking(s, t, SawUnfinished(w, kind)); }
      case BeginFinish(t, w, kind) => if SomePoking(s) { AtKeepsPoking(s, t, SawAlive(w, kind)); }
      case Proceed(t) => if SomePoking(s) { AtKeepsPoking(s, t, PcOf(s', t)); }
      case PushOp(t) =>
        if SomePoking(s) { AtKeepsPoking(s, t, PcOf(s', t)); }
        if s.queue == [] && t != IO { assert s'.threads[t].Poking?; }
      case Poke(t) =>
      case _ => assert s'.threads == s.threads;
    }
  }

  // ---- first finish wins ----

  predicate FinishesCall(op: Op, call: nat) {
    op.kind.Finish? && op.writer.call == call
  }

  predicate AboutToFinish(threads: map<nat, Pc>, t: nat, call: nat) {
    t in threads && threads[t].Pushing? && FinishesCall(threads[t].op, call)
  }

  /** A finish about to be queued: its flag was won, and no other finish of the call exists. */
  predicate SoleFinish(threads: map<nat, Pc>, calls: seq<Shared>, pushed: seq<Op>, t: nat, c: nat) {
    && c < |calls| && calls[c].finished
    && (forall i :: 0 <= i < |pushed| ==> !FinishesCall(pushed[i], c))
    && (forall u :: u in threads && u != t ==> !AboutToFinish(threads, u, c))
  }

  /** At most one finish per call is queued or about to be, and only after the flag was won. */
  ghost predicate FinishOk(threads: map<nat, Pc>, calls: seq<Shared>, pushed: seq<Op>) {
    && (forall t, c: nat :: AboutToFinish(threads, t, c) ==> SoleFinish(threads, calls, pushed, t, c))
    && (forall i :: 0 <= i < |pushed| && pushed[i].kind.Finish? ==>
          pushed[i].writer.call < |calls| && calls[pushed[i].writer.call].finished)
    && (forall i, j :: 0 <= i < j < |pushed| && pushed[i].kind.Finish? && pushed[j].kind.Finish? ==>
          pushed[i].writer.call != pushed[j].writer.call)
    && (forall t :: t in threads && threads[t].SawUnfinished? ==> !threads[t].kind.Finish?)
  }

  /** Flags only go up and calls are only added. */
  predicate FlagsGrow(a: seq<Shared>, b: seq<Shared>) {
    |a| <= |b| && forall c :: 0 <= c < |a| ==> (a[c].finished ==> b[c].finished)
  }

  lemma FlagsKeepFinish(threads: map<nat, Pc>, a: seq<Shared>, b: seq<Shared>, pushed: seq<Op>)
    requires FinishOk(threads, a, pushed) && FlagsGrow(a, b)
    ensures FinishOk(threads, b, pushed)
  {
    hide AboutToFinish;
  }

  /** A thread moves to a point from which it does not push a finish next. */
  lemma QuietMove(threads: map<nat, Pc>, calls: seq<Shared>, pushed: seq<Op>, t: nat, pc: Pc)
    requires FinishOk(threads, calls, pushed)
    requires !(pc.Pushing? && pc.op.kind.Finish?) && !(pc.SawUnfinished? && pc.kind.Finish?)
    ensures FinishOk(threads[t := pc], calls, pushed)
  {
    var threads' := threads[t := pc];
    forall u, c: nat | AboutToFinish(threads', u, c) ensures SoleFinish(threads', calls, pushed, u, c) {
      assert AboutToFinish(threads, u, c);
      assert forall v :: v in threads' && v != u && AboutToFinish(threads', v, c) ==> AboutToFinish(threads, v, c);
    }
  }

  /** The winning swap. */
  lemma WinFinish(threads: map<nat, Pc>, calls: seq<Shared>, pushed: seq<Op>, t: nat, op: Op)
    requires FinishOk(threads, calls, pushed) && op.kind.Finish? && op.writer.call < |calls|
    requires !calls[op.writer.call].finished && !AboutToFinish(threads, t, op.writer.call)
    ensures var calls' := calls[op.writer.call := calls[op.writer.call].(finished := true)];
            FinishOk(threads[t := Pushing(op)], calls', pushed)
  {
    var c := op.writer.call;
    var calls' := calls[c := calls[c].(finished := true)];
    var threads' := threads[t := Pushing(op)];
    assert forall v :: !AboutToFinish(threads, v, c);
    assert forall i :: 0 <= i < |pushed| ==> !FinishesCall(pushed[i], c);
    forall u, d: nat | AboutToFinish(threads', u, d) ensures SoleFinish(threads', calls', pushed, u, d) {
      if u == t {
        assert d == c;
        assert forall v :: v in threads' && v != t && AboutToFinish(threads', v, c) ==> AboutToFinish(threads, v, c);
      } else {
        assert AboutToFinish(threads, u, d);
        assert d != c;
        assert forall v :: v in threads' && v != u && AboutToFinish(threads', v, d) ==> AboutToFinish(threads, v, d);
      }
    }
  }

  lemma PushKeepsFinish(threads: map<nat, Pc>, calls: seq<Shared>, pushed: seq<Op>, t: nat, pc: Pc)
    requires FinishOk(threads, calls, pushed) && t in threads && threads[t].Pushing? && (pc.Poking? || pc.Outside?)
    ensures FinishOk(threads[t := pc], calls, pushed + [threads[t].op])
  {
    var op, threads' := threads[t].op, threads[t := pc];
    var pushed' := pushed + [op];
    if op.kind.Finish? {
      assert AboutToFinish(threads, t, op.writer.call);
      assert SoleFinish(threads, calls, pushed, t, op.writer.call);
    }
    forall u, c: nat | AboutToFinish(threads', u, c) ensures SoleFinish(threads', calls, pushed', u, c) {
      assert AboutToFinish(threads, u, c) && u != t;
      assert !AboutToFinish(threads, t, c);
      assert forall v :: v in threads' && v != u && AboutToFinish(threads', v, c) ==> AboutToFinish(threads, v, c);
    }
  }

  lemma FinishStep(s: State, a: Action)
    requires FinishOk(s.threads, s.calls, s.pushed) && Enabled(s, a)
    ensures FinishOk(Next(s, a).threads, Next(s, a).calls, Next(s, a).pushed)
  {
    hide FinishOk;
    match a {
      case BeginWrite(t, w, kind) => QuietMove(s.threads, s.calls, s.pushed, t, SawUnfinished(w, kind));
      case BeginFinish(t, w, kind) => QuietMove(s.threads, s.calls, s.pushed, t, SawAlive(w, kind));
      case Proceed(t) => ProceedKeepsFinish(s, t);
      case PushOp(t) => PushKeepsFinish(s.threads, s.calls, s.pushed, t, PcOf(Next(s, a), t));
      case Poke(t) => QuietMove(s.threads, s.calls, s.pushed, t, Outside);
      case _ => FlagsKeepFinish(s.threads, s.calls, Next(s, a).calls, s.pushed);
    }
  }

  lemma ProceedKeepsFinish(s: State, t: nat)
    requires FinishOk(s.threads, s.calls, s.pushed) && Enabled(s, Proceed(t))
    ensures FinishOk(Proceeded(s, t).threads, Proceeded(s, t).calls, s.pushed) && Proceeded(s, t).pushed == s.pushed
  {
    var pc := PcOf(s, t);
    var op := OpOf(pc.writer, pc.kind);
    assert pc.SawUnfinished? ==> !pc.kind.Finish?;
    hide FinishOk;
    QuietMove(s.threads, s.calls, s.pushed, t, Outside);
    if !op.kind.Finish? {
      QuietMove(s.threads, s.calls, s.pushed, t, Pushing(op));
      FlagsKeepFinish(s.threads[t := Pushing(op)], s.calls, Proceeded(s, t).calls, s.pushed);
    } else if !s.calls[op.writer.call].finished {
      WinFinish(s.threads, s.calls, s.pushed, t, op);
    }
  }

  // ---- routing ----

  predicate WriterOk(issued: map<nat, nat>, w: Writer) {
    w.token in issued && issued[w.token] == w.origin
  }

  predicate OpOk(issued: map<nat, nat>, op: Op) {
    op.token == op.writer.token && op.callId == op.writer.callId && WriterOk(issued, op.writer)
  }

  predicate PcOk(issued: map<nat, nat>, pc: Pc) {
    match pc
    case SawUnfinished(w, _) => WriterOk(issued, w)
    case SawAlive(w, _) => WriterOk(issued, w)
    case Pushing(op) => OpOk(issued, op)
    case _ => true
  }

  /** Tokens are issued once, each to one connection. */
  predicate SlotsOk(issued: map<nat, nat>, nextToken: nat, slots: seq<Slot>) {
    && (forall k :: k in issued ==> k < nextToken)
    && (forall i :: 0 <= i < |slots| ==> slots[i].token in issued && issued[slots[i].token] == slots[i].conn)
  }

  /** The token a handler's writer will get is that of the connection being ticked. */
  predicate TickOk(s: State) {
    s.phase.Ticking? && s.phase.conn.Some? ==>
      s.phase.conn.value < |s.slots| && s.slots[s.phase.conn.value].token == s.currentToken
  }

  predicate HoldersOk(s: State) {
    && (forall w :: w in s.writers ==> WriterOk(s.issued, w))
    && (forall t :: t in s.threads ==> PcOk(s.issued, s.threads[t]))
    && (forall i :: 0 <= i < |s.pushed| ==> OpOk(s.issued, s.pushed[i]))
  }

  predicate RoutesOk(s: State) {
    SlotsOk(s.issued, s.nextToken, s.slots) && TickOk(s) && HoldersOk(s)
  }

  lemma {:induction false} LiveKeepsSlots(issued: map<nat, nat>, nextToken: nat, slots: seq<Slot>)
    requires SlotsOk(issued, nextToken, slots)
    ensures SlotsOk(issued, nextToken, Live(slots))
  {
    if slots != [] { LiveKeepsSlots(issued, nextToken, slots[1..]); }
  }

  /** Whatever slot an op's token finds is the connection of the op's writer. */
  lemma {:induction false} FindSlotFindsOrigin(issued: map<nat, nat>, nextToken: nat, slots: seq<Slot>, op: Op)
    requires SlotsOk(issued, nextToken, slots) && OpOk(issued, op)
    ensures FindSlot(slots, op.token).Some? ==> FindSlot(slots, op.token).value == op.writer.origin
  {
    if slots != [] { FindSlotFindsOrigin(issued, nextToken, slots[1..], op); }
  }

  lemma AcceptKeepsHolders(s: State)
    requires RoutesOk(s) && Enabled(s, AcceptConn(true))
    ensures RoutesOk(Next(s, AcceptConn(true)))
  {
    var issued' := s.issued[s.nextToken := s.accepted];
    assert forall w :: WriterOk(s.issued, w) ==> WriterOk(issued', w);
    assert forall t :: t in s.threads && PcOk(s.issued, s.threads[t]) ==> PcOk(issued', s.threads[t]);
  }

  lemma MoveKeepsRoutes(s: State, t: nat, pc: Pc)
    requires RoutesOk(s) && PcOk(s.issued, pc)
    ensures RoutesOk(At(s, t, pc))
  {
    hide SlotsOk, PcOk, OpOk, WriterOk;
  }

  lemma PcAt(s: State, t: nat)
    requires RoutesOk(s)
    ensures PcOk(s.issued, PcOf(s, t))
  {
  }

  /** Only flags, the log or the eventfd changed. */
  lemma ElsewhereKeepsRoutes(s: State, s': State)
    requires RoutesOk(s)
    requires s'.issued == s.issued && s'.nextToken == s.nextToken && s'.slots == s.slots && s'.writers == s.writers
    requires s'.threads == s.threads && s'.pushed == s.pushed && s'.currentToken == s.currentToken
    requires s'.phase.Ticking? && s'.phase.conn.Some? ==> s'.phase == s.phase
    ensures RoutesOk(s')
  {
    hide SlotsOk, PcOk, OpOk, WriterOk;
  }

  lemma RoutesStepThread(s: State, a: Action)
    requires RoutesOk(s) && Enabled(s, a) && (a.BeginWrite? || a.BeginFinish? || a.Proceed? || a.PushOp? || a.Poke?)
    ensures RoutesOk(Next(s, a))
  {
    var t := a.thread;
    PcAt(s, t);
    var pc' := PcOf(Next(s, a), t);
    assert PcOk(s.issued, pc');
    MoveKeepsRoutes(s, t, pc');
    hide SlotsOk, PcOk, WriterOk;
    if a.PushOp? {
      assert OpOk(s.issued, PcOf(s, t).op);
      hide OpOk;
      assert HoldersOk(Next(s, a));
    } else if Next(s, a).threads == s.threads {
      ElsewhereKeepsRoutes(s, Next(s, a));
    } else {
      ElsewhereKeepsRoutes(At(s, t, pc'), Next(s, a));
    }
  }

  lemma RoutesStep(s: State, a: Action)
    requires RoutesOk(s) && Enabled(s, a)
    ensures RoutesOk(Next(s, a))
  {
    match a {
      case AcceptConn(registers) => if registers { AcceptKeepsHolders(s); }
      case EndFlush => LiveKeepsSlots(s.issued, s.nextToken, s.slots); hide SlotsOk, PcOk, OpOk, WriterOk;
      case StartTick(i) => hide SlotsOk, PcOk, OpOk, WriterOk;
      case Handle(callId) => hide PcOk, OpOk;
      case ConnDies(i) => hide PcOk, OpOk, WriterOk;
      case BeginWrite(t, w, kind) => RoutesStepThread(s, a);
      case BeginFinish(t, w, kind) => RoutesStepThread(s, a);
      case Proceed(t) => RoutesStepThread(s, a);
      case PushOp(t) => RoutesStepThread(s, a);
      case Poke(t) => RoutesStepThread(s, a);
      case _ => hide RoutesOk; ElsewhereKeepsRoutes(s, Next(s, a));
    }
  }

  // ---- mailbox order ----

  function InHand(s: State): seq<Op> {
    if s.phase.Applying? then s.phase.ops else []
  }

  /** Nothing pushed is lost, repeated or overtaken on its way to its connection. */
  predicate Ordered(pushed: seq<Op>, done: seq<Applied>, todo: seq<Op>) {
    && |done| <= |pushed|
    && pushed[|done|..] == todo
    && (forall i :: 0 <= i < |done| ==> done[i].op == pushed[i])
    && (forall i :: 0 <= i < |done| && done[i].Applied? ==> done[i].onto == done[i].op.writer.origin)
  }

  predicate OrderOk(s: State) {
    Ordered(s.pushed, s.done, InHand(s) + s.queue)
  }

  lemma PushOrdered(pushed: seq<Op>, done: seq<Applied>, todo: seq<Op>, op: Op)
    requires Ordered(pushed, done, todo)
    ensures Ordered(pushed + [op], done, todo + [op])
  {
  }

  lemma ApplyOrdered(pushed: seq<Op>, done: seq<Applied>, todo: seq<Op>, a: Applied)
    requires Ordered(pushed, done, todo) && todo != [] && a.op == todo[0]
    requires a.Applied? ==> a.onto == a.op.writer.origin
    ensures Ordered(pushed, done + [a], todo[1..])
  {
  }

  lemma NextInHand(s: State)
    requires OrderOk(s) && RoutesOk(s) && s.phase.Applying? && s.phase.ops != []
    ensures OpOk(s.issued, s.phase.ops[0])
  {
    var n := |s.done|;
    assert s.pushed[n..][0] == (s.phase.ops + s.queue)[0] == s.phase.ops[0];
    assert OpOk(s.issued, s.pushed[n]);
  }

  lemma ApplyKeepsOrder(s: State, reply: Reply)
    requires OrderOk(s) && RoutesOk(s) && Enabled(s, ApplyNext(reply))
    ensures OrderOk(Next(s, ApplyNext(reply)))
  {
    NextInHand(s);
    assert SlotsOk(s.issued, s.nextToken, s.slots);
    hide RoutesOk, Ordered, SlotsOk, OpOk, FindSlot;
    var s', op, todo := Next(s, ApplyNext(reply)), s.phase.ops[0], s.phase.ops + s.queue;
    FindSlotFindsOrigin(s.issued, s.nextToken, s.slots, op);
    var a := if FindSlot(s.slots, op.token).None? then Bounced(op) else Applied(op, FindSlot(s.slots, op.token).value);
    ApplyOrdered(s.pushed, s.done, todo, a);
    assert todo[1..] == s.phase.ops[1..] + s.queue;
    assert s'.done == s.done + [a] && s'.pushed == s.pushed && InHand(s') == s.phase.ops[1..] && s'.queue == s.queue;
  }

  lemma OrderStep(s: State, a: Action)
    requires OrderOk(s) && RoutesOk(s) && Enabled(s, a)
    ensures OrderOk(Next(s, a))
  {
    match a {
      case ApplyNext(reply) => ApplyKeepsOrder(s, reply);
      case PushOp(t) =>
        hide RoutesOk, Ordered;
        PushOrdered(s.pushed, s.done, InHand(s) + s.queue, PcOf(s, t).op);
        assert (InHand(s) + s.queue) + [PcOf(s, t).op] == InHand(s) + (s.queue + [PcOf(s, t).op]);
      case TakeOps =>
        hide RoutesOk, Ordered;
        assert [] + s.queue == s.queue + [];
      case _ =>
        hide RoutesOk, Ordered;
        assert InHand(Next(s, a)) == InHand(s) && Next(s, a).queue == s.queue;
    }
  }

  // ---- bounced ops ----

  predicate NoLive(slots: seq<Slot>, conn: nat) {
    forall i :: 0 <= i < |slots| && slots[i].conn == conn ==> slots[i].dead
  }

  /** A connection has one token; one that bounced an op has no live slot, then or ever after. */
  ghost predicate GoneOk(issued: map<nat, nat>, accepted: nat, slots: seq<Slot>, done: seq<Applied>) {
    && (forall k :: k in issued ==> issued[k] < accepted)
    && (forall j, k :: j in issued && k in issued && issued[j] == issued[k] ==> j == k)
    && (forall i :: 0 <= i < |done| && done[i].Bounced? ==>
          done[i].op.writer.origin < accepted && NoLive(slots, done[i].op.writer.origin))
  }

  lemma {:induction false} LiveIsPart(slots: seq<Slot>, slot: Slot)
    requires slot in Live(slots)
    ensures slot in slots
  {
    if slot != slots[0] {
      var head := if slots[0].dead then [] else [slots[0]];
      assert slot in head + Live(slots[1..]);
      LiveIsPart(slots[1..], slot);
    }
  }

  lemma LiveKeepsNoLive(slots: seq<Slot>, conn: nat)
    requires NoLive(slots, conn)
    ensures NoLive(Live(slots), conn)
  {
    hide Live;
    forall i | 0 <= i < |Live(slots)| && Live(slots)[i].conn == conn ensures Live(slots)[i].dead {
      LiveIsPart(slots, Live(slots)[i]);
    }
  }

  lemma NoLiveCons(slots: seq<Slot>, conn: nat)
    requires slots != []
    ensures NoLive(slots, conn) <==> (slots[0].conn == conn ==> slots[0].dead) && NoLive(slots[1..], conn)
  {
    if (slots[0].conn == conn ==> slots[0].dead) && NoLive(slots[1..], conn) {
      forall i | 0 <= i < |slots| && slots[i].conn == conn ensures slots[i].dead {
        if i > 0 { assert slots[1..][i - 1] == slots[i]; }
      }
    }
  }

  /** A token is not found exactly if the connection it was issued to has no live slot. */
  lemma {:induction false} NotFoundIff(issued: map<nat, nat>, nextToken: nat, slots: seq<Slot>, op: Op)
    requires SlotsOk(issued, nextToken, slots) && OpOk(issued, op)
    requires forall j, k :: j in issued && k in issued && issued[j] == issued[k] ==> j == k
    ensures FindSlot(slots, op.token).None? <==> NoLive(slots, op.writer.origin)
  {
    if slots != [] {
      NotFoundIff(issued, nextToken, slots[1..], op);
      NoLiveCons(slots, op.writer.origin);
    }
  }

  lemma ApplyKeepsGone(s: State, reply: Reply)
    requires OrderOk(s) && RoutesOk(s) && GoneOk(s.issued, s.accepted, s.slots, s.done) && Enabled(s, ApplyNext(reply))
    ensures var s' := Next(s, ApplyNext(reply)); GoneOk(s'.issued, s'.accepted, s'.slots, s'.done)
  {
    NextInHand(s);
    var op := s.phase.ops[0];
    NotFoundIff(s.issued, s.nextToken, s.slots, op);
    hide OrderOk, RoutesOk, NoLive, FindSlot;
    var a := if FindSlot(s.slots, op.token).None? then Bounced(op) else Applied(op, FindSlot(s.slots, op.token).value);
    assert Next(s, ApplyNext(reply)).done == s.done + [a];
  }

  lemma RegisterKeepsGone(issued: map<nat, nat>, nextToken: nat, accepted: nat, slots: seq<Slot>, done: seq<Applied>)
    requires SlotsOk(issued, nextToken, slots) && GoneOk(issued, accepted, slots, done)
    ensures GoneOk(issued[nextToken := accepted], accepted + 1, slots + [Slot(nextToken, accepted, false)], done)
  {
  }

  lemma DeathKeepsGone(issued: map<nat, nat>, accepted: nat, slots: seq<Slot>, done: seq<Applied>, i: nat)
    requires GoneOk(issued, accepted, slots, done) && i < |slots|
    ensures GoneOk(issued, accepted, slots[i := slots[i].(dead := true)], done)
  {
    forall k | 0 <= k < |done| && done[k].Bounced?
      ensures NoLive(slots[i := slots[i].(dead := true)], done[k].op.writer.origin)
    {
      assert NoLive(slots, done[k].op.writer.origin);
    }
  }

  lemma FlushKeepsGone(issued: map<nat, nat>, accepted: nat, slots: seq<Slot>, done: seq<Applied>)
    requires GoneOk(issued, accepted, slots, done)
    ensures GoneOk(issued, accepted, Live(slots), done)
  {
    hide NoLive, Live;
    forall i | 0 <= i < |done| && done[i].Bounced? ensures NoLive(Live(slots), done[i].op.writer.origin) {
      LiveKeepsNoLive(slots, done[i].op.writer.origin);
    }
  }

  lemma GoneStep(s: State, a: Action)
    requires OrderOk(s) && RoutesOk(s) && GoneOk(s.issued, s.accepted, s.slots, s.done) && Enabled(s, a)
    ensures var s' := Next(s, a); GoneOk(s'.issued, s'.accepted, s'.slots, s'.done)
  {
    assert SlotsOk(s.issued, s.nextToken, s.slots);
    hide OrderOk, RoutesOk, SlotsOk, NoLive, GoneOk, Live;
    match a {
      case ApplyNext(reply) => ApplyKeepsGone(s, reply);
      case AcceptConn(registers) =>
        if registers {
          RegisterKeepsGone(s.issued, s.nextToken, s.accepted, s.slots, s.done);
        } else {
          TurnedAwayKeepsGone(s.issued, s.accepted, s.slots, s.done);
        }
      case ConnDies(i) => DeathKeepsGone(s.issued, s.accepted, s.slots, s.done, i);
      case EndFlush => FlushKeepsGone(s.issued, s.accepted, s.slots, s.done);
      case _ =>
        var s' := Next(s, a);
        assert s'.issued == s.issued && s'.accepted == s.accepted && s'.slots == s.slots && s'.done == s.done;
    }
  }

  lemma TurnedAwayKeepsGone(issued: map<nat, nat>, accepted: nat, slots: seq<Slot>, done: seq<Applied>)
    requires GoneOk(issued, accepted, slots, done)
    ensures GoneOk(issued, accepted + 1, slots, done)
  {
    hide NoLive;
  }

  // ---- every run ----

  ghost predicate MailboxOk(s: State) {
    && WakeOk(s) && FinishOk(s.threads, s.calls, s.pushed) && RoutesOk(s) && OrderOk(s)
    && GoneOk(s.issued, s.accepted, s.slots, s.done)
  }

  predicate Runs(s: State, acts: seq<Action>)
    decreases |acts|
  {
    acts == [] || (Enabled(s, acts[0]) && Runs(Next(s, acts[0]), acts[1..]))
  }

  function After(s: State, acts: seq<Action>): State
    requires Runs(s, acts)
    decreases |acts|
  {
    if acts == [] then s else After(Next(s, acts[0]), acts[1..])
  }

  lemma {:induction false} EveryRunKeeps(s: State, acts: seq<Action>)
    requires MailboxOk(s) && Runs(s, acts)
    ensures MailboxOk(After(s, acts))
    decreases |acts|
  {
    hide Next, Enabled, WakeOk, FinishOk, RoutesOk, OrderOk, GoneOk;
    if acts != [] {
      WakeStep(s, acts[0]);
      FinishStep(s, acts[0]);
      RoutesStep(s, acts[0]);
      OrderStep(s, acts[0]);
      GoneStep(s, acts[0]);
      EveryRunKeeps(Next(s, acts[0]), acts[1..]);
    }
  }

  lemma InitialOk()
    ensures MailboxOk(INITIAL)
  {
  }

  /**
   * No lost wakeup despite the elided pokes: a loop that is about to sleep, or asleep, with ops in
   * the queue has a readable eventfd, or a producer is on its way to make it readable.
   */
  lemma NoLostWakeup(acts: seq<Action>)
    requires Runs(INITIAL, acts)
    ensures var s := After(INITIAL, acts);
            s.phase.Polling? && s.queue != [] ==> s.counter > 0 || exists t :: t in s.threads && s.threads[t].Poking?
  {
    InitialOk();
    EveryRunKeeps(INITIAL, acts);
    hide Runs, After, FinishOk, RoutesOk, OrderOk, GoneOk;
  }

  /** Across all clones and threads at most one finish per call ever enters the mailbox. */
  lemma OneFinishPerCall(acts: seq<Action>, i: nat, j: nat)
    requires Runs(INITIAL, acts) && i < j < |After(INITIAL, acts).pushed|
    ensures var p := After(INITIAL, acts).pushed;
            p[i].kind.Finish? && p[j].kind.Finish? ==> p[i].writer.call != p[j].writer.call
  {
    InitialOk();
    EveryRunKeeps(INITIAL, acts);
    hide Runs, After, WakeOk, RoutesOk, OrderOk, GoneOk;
  }

  /**
   * Ops are dealt with in mailbox order. An op that is applied reaches the connection and call of its
   * writer; one that bounces belongs to a connection that has no live slot, from then on.
   */
  lemma AppliedWhereWritten(acts: seq<Action>, i: nat)
    requires Runs(INITIAL, acts) && i < |After(INITIAL, acts).done|
    ensures var s := After(INITIAL, acts);
            && |s.done| <= |s.pushed| && s.done[i].op == s.pushed[i]
            && s.done[i].op.token == s.done[i].op.writer.token && s.done[i].op.callId == s.done[i].op.writer.callId
            && (s.done[i].Applied? ==> s.done[i].onto == s.done[i].op.writer.origin)
            && (s.done[i].Bounced? ==> NoLive(s.slots, s.done[i].op.writer.origin))
  {
    InitialOk();
    EveryRunKeeps(INITIAL, acts);
    hide Runs, After, WakeOk, FinishOk, NoLive;
    var s := After(INITIAL, acts);
    assert OpOk(s.issued, s.pushed[i]);
  }

  /** At the step itself: an op bounces exactly if its writer's connection has no live slot. */
  lemma BouncesIff(acts: seq<Action>, reply: Reply)
    requires Runs(INITIAL, acts) && Enabled(After(INITIAL, acts), ApplyNext(reply))
    ensures var s := After(INITIAL, acts);
            var done := Next(s, ApplyNext(reply)).done;
            && |done| == |s.done| + 1 && done[|s.done|].op == s.phase.ops[0]
            && (done[|s.done|].Bounced? <==> NoLive(s.slots, s.phase.ops[0].writer.origin))
  {
    InitialOk();
    EveryRunKeeps(INITIAL, acts);
    var s := After(INITIAL, acts);
    NextInHand(s);
    NotFoundIff(s.issued, s.nextToken, s.slots, s.phase.ops[0]);
    hide Runs, After, WakeOk, FinishOk, OrderOk, RoutesOk, GoneOk, NoLive, FindSlot;
  }
}
