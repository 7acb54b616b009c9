/** What a call's two flags mean for its writers, over every run of the token mailbox. */
module WriterFlags {
  import opened Bytes
  import opened TokenMailbox

  /** Thread `t` pushes an op of call `c` if it goes on: no flag it has still to look at stops it. */
  predicate WillPush(s: State, t: nat, c: nat)
    requires c < |s.calls|
  {
    match PcOf(s, t)
    case Pushing(op) => op.writer.call == c
    case SawUnfinished(w, _) => w.call == c && !s.calls[c].dead
    case SawAlive(w, _) => w.call == c && !s.calls[c].finished
    case _ => false
  }

  /** The call is finished or dead, and no thread is still on its way past the flags. */
  predicate Over(s: State, c: nat) {
    && c < |s.calls| && (s.calls[c].finished || s.calls[c].dead)
    && forall t :: t in s.threads ==> !WillPush(s, t, c)
  }

  /** The run adds no op of call `c` to the mailbox. */
  predicate NonePushed(s: State, acts: seq<Action>, c: nat)
    requires Runs(s, acts)
  {
    var p := After(s, acts).pushed;
    s.pushed <= p && forall i :: |s.pushed| <= i < |p| ==> p[i].writer.call != c
  }

  // ---- a call that is over stays over ----

  lemma MoveKeepsOver(s: State, t: nat, pc: Pc, c: nat)
    requires Over(s, c) && !WillPush(At(s, t, pc), t, c)
    ensures Over(At(s, t, pc), c)
  {
    var s' := At(s, t, pc);
    forall u | u in s'.threads ensures !WillPush(s', u, c) {
      if u != t { assert PcOf(s', u) == PcOf(s, u); }
    }
  }

  lemma FlagsKeepOver(s: State, s': State, c: nat)
    requires Over(s, c) && s'.threads == s.threads && c < |s'.calls|
    requires (s.calls[c].finished ==> s'.calls[c].finished) && (s.calls[c].dead ==> s'.calls[c].dead)
    ensures Over(s', c)
  {
    forall u | u in s'.threads ensures !WillPush(s', u, c) { assert !WillPush(s, u, c); }
  }

  lemma OverStep(s: State, a: Action, c: nat)
    requires Over(s, c) && Enabled(s, a)
    ensures var s' := Next(s, a);
            && Over(s', c)
            && (s'.pushed == s.pushed ||
                (|s'.pushed| == |s.pushed| + 1 && s.pushed <= s'.pushed && s'.pushed[|s.pushed|].writer.call != c))
  {
    var s' := Next(s, a);
    OverCall(s, c);
    if a.BeginWrite? || a.BeginFinish? || a.Proceed? || a.PushOp? || a.Poke? {
      NoneWillPush(s, a.thread, c);
      hide Over;
      if s'.threads != s.threads {
        ThreadKeepsOver(s, a, c);
      } else {
        FlagsKeepOver(s, s', c);
      }
    } else {
      hide Over;
      FlagsKeepOver(s, s', c);
    }
  }

  lemma NoneWillPush(s: State, t: nat, c: nat)
    requires Over(s, c)
    ensures !WillPush(s, t, c)
  {
    if t in s.threads { assert !WillPush(s, t, c); }
  }

  lemma ThreadKeepsOver(s: State, a: Action, c: nat)
    requires Over(s, c) && Enabled(s, a) && (a.BeginWrite? || a.BeginFinish? || a.Proceed? || a.PushOp? || a.Poke?)
    requires Next(s, a).threads != s.threads
    ensures Over(Next(s, a), c)
  {
    NoneWillPush(s, a.thread, c);
    OverCall(s, c);
    hide Over;
    var s', pc := Next(s, a), PcOf(Next(s, a), a.thread);
    assert s'.threads == At(s, a.thread, pc).threads;
    MoveKeepsOver(s, a.thread, pc, c);
    FlagsKeepOver(At(s, a.thread, pc), s', c);
  }

  lemma OverCall(s: State, c: nat)
    requires Over(s, c)
    ensures c < |s.calls| && (s.calls[c].finished || s.calls[c].dead)
  {
  }

  /** From a state where the call is over no run ever pushes for it again. */
  lemma {:induction false} OverIsQuiet(s: State, acts: seq<Action>, c: nat)
    requires Over(s, c) && Runs(s, acts)
    ensures NonePushed(s, acts, c)
    decreases |acts|
  {
    hide Over, Next, Enabled;
    if acts != [] {
      OverStep(s, acts[0], c);
      OverIsQuiet(Next(s, acts[0]), acts[1..], c);
      assert After(s, acts) == After(Next(s, acts[0]), acts[1..]);
    }
  }

  // ---- one that is not can still be pushed for ----

  predicate Midway(pc: Pc) {
    pc.SawUnfinished? || pc.SawAlive? || pc.Pushing?
  }

  /** Writers name calls that exist; a bounced op has marked its call dead; the loop is in no writer outside its ticks. */
  predicate CallsOk(s: State) {
    && (forall w :: w in s.writers ==> w.call < |s.calls|)
    && (forall t :: t in s.threads && s.threads[t].Pushing? ==> s.threads[t].op.writer.call < |s.calls|)
    && (forall i :: 0 <= i < |s.pushed| ==> s.pushed[i].writer.call < |s.calls|)
    && (forall i :: 0 <= i < |s.done| && s.done[i].Bounced? ==>
          s.done[i].op.writer.call < |s.calls| && s.calls[s.done[i].op.writer.call].dead)
    && (Midway(PcOf(s, IO)) ==> s.phase.Ticking?)
  }

  predicate CallsGrow(a: seq<Shared>, b: seq<Shared>) {
    |a| <= |b| && forall c :: 0 <= c < |a| ==> (a[c].dead ==> b[c].dead)
  }

  lemma CallsStep(s: State, a: Action)
    requires CallsOk(s) && OrderOk(s) && Enabled(s, a)
    ensures CallsOk(Next(s, a))
  {
    hide OrderOk, FindSlot, Live;
    if a.ApplyNext? {
      OpInHand(s);
      ApplyKeepsCalls(s, a.reply);
    } else if a.Proceed? {
      ProceedKeepsCalls(s, a.thread);
    } else if a.BeginWrite? || a.BeginFinish? || a.PushOp? || a.Poke? {
      assert Next(s, a).calls == s.calls;
    }
  }

  lemma OpInHand(s: State)
    requires CallsOk(s) && OrderOk(s) && s.phase.Applying? && s.phase.ops != []
    ensures s.phase.ops[0].writer.call < |s.calls|
  {
    assert s.pushed[|s.done|..][0] == (s.phase.ops + s.queue)[0];
  }

  lemma ApplyKeepsCalls(s: State, reply: Reply)
    requires CallsOk(s) && Enabled(s, ApplyNext(reply)) && s.phase.ops[0].writer.call < |s.calls|
    ensures CallsOk(Next(s, ApplyNext(reply)))
  {
    hide FindSlot;
    var s', op := Next(s, ApplyNext(reply)), s.phase.ops[0];
    assert CallsGrow(s.calls, s'.calls);
    forall i | 0 <= i < |s'.done| && s'.done[i].Bounced?
      ensures s'.done[i].op.writer.call < |s'.calls| && s'.calls[s'.done[i].op.writer.call].dead
    {
      if i < |s.done| { assert s'.done[i] == s.done[i]; }
    }
  }

  lemma ProceedKeepsCalls(s: State, t: nat)
    requires CallsOk(s) && Enabled(s, Proceed(t))
    ensures CallsOk(Next(s, Proceed(t)))
  {
    var s' := Next(s, Proceed(t));
    assert |s'.calls| == |s.calls| && CallsGrow(s.calls, s'.calls);
    forall u | u in s'.threads && s'.threads[u].Pushing? ensures s'.threads[u].op.writer.call < |s'.calls| {
      if u != t { assert s'.threads[u] == s.threads[u]; }
    }
  }

  lemma {:induction false} EveryRunKeepsCalls(s: State, acts: seq<Action>)
    requires MailboxOk(s) && CallsOk(s) && Runs(s, acts)
    ensures CallsOk(After(s, acts))
    decreases |acts|
  {
    hide Next, Enabled, WakeOk, FinishOk, RoutesOk, OrderOk, GoneOk, CallsOk;
    if acts != [] {
      WakeStep(s, acts[0]);
      FinishStep(s, acts[0]);
      RoutesStep(s, acts[0]);
      OrderStep(s, acts[0]);
      GoneStep(s, acts[0]);
      CallsStep(s, acts[0]);
      EveryRunKeepsCalls(Next(s, acts[0]), acts[1..]);
    }
  }

  lemma ReachedCallsOk(acts: seq<Action>)
    requires Runs(INITIAL, acts)
    ensures CallsOk(After(INITIAL, acts))
  {
    hide MailboxOk, Runs, After;
    InitialOk();
    EveryRunKeepsCalls(INITIAL, acts);
  }

  /** A bounced op leaves its call dead, for good. */
  lemma BouncedIsDead(acts: seq<Action>, i: nat)
    requires Runs(INITIAL, acts) && i < |After(INITIAL, acts).done| && After(INITIAL, acts).done[i].Bounced?
    ensures var s := After(INITIAL, acts);
            s.done[i].op.writer.call < |s.calls| && s.calls[s.done[i].op.writer.call].dead
  {
    ReachedCallsOk(acts);
    hide Runs, After;
  }

  lemma UnusedThread(threads: set<nat>) returns (t: nat)
    ensures t > 0 && forall u :: u in threads ==> u < t
    decreases threads
  {
    if threads == {} {
      t := 1;
    } else {
      var u :| u in threads;
      var above := UnusedThread(threads - {u});
      t := if u < above then above else u + 1;
      assert forall v :: v in threads ==> v == u || v in threads - {u};
    }
  }

  predicate Adds(s: State, acts: seq<Action>, c: nat) {
    && Runs(s, acts)
    && var p := After(s, acts).pushed;
    |p| == |s.pushed| + 1 && p[|s.pushed|].writer.call == c
  }

  lemma PushNow(s: State, t: nat, c: nat) returns (acts: seq<Action>)
    requires PcOf(s, t).Pushing? && PcOf(s, t).op.writer.call == c && MayRun(s, t)
    ensures Adds(s, acts, c)
  {
    acts := [PushOp(t)];
    assert acts[1..] == [];
    assert Runs(Next(s, PushOp(t)), []) && After(s, acts) == After(Next(s, PushOp(t)), []);
  }

  lemma StepThen(s: State, a: Action, acts: seq<Action>, c: nat)
    requires Enabled(s, a) && Next(s, a).pushed == s.pushed && Adds(Next(s, a), acts, c)
    ensures Adds(s, [a] + acts, c)
  {
    hide Next, Enabled;
    assert ([a] + acts)[1..] == acts && ([a] + acts)[0] == a;
  }

  lemma ProceedThenPush(s: State, t: nat, c: nat) returns (acts: seq<Action>)
    requires c < |s.calls| && WillPush(s, t, c) && MayRun(s, t)
    ensures Adds(s, acts, c)
  {
    if PcOf(s, t).Pushing? {
      acts := PushNow(s, t, c);
    } else {
      var s' := Next(s, Proceed(t));
      assert PcOf(s', t) == Pushing(OpOf(PcOf(s, t).writer, PcOf(s, t).kind)) && s'.phase == s.phase;
      acts := PushNow(s', t, c);
      StepThen(s, Proceed(t), acts, c);
      acts := [Proceed(t)] + acts;
    }
  }

  lemma CanStillPush(s: State, c: nat, w: Writer) returns (acts: seq<Action>)
    requires CallsOk(s) && w in s.writers && w.call == c && !Over(s, c)
    ensures Adds(s, acts, c)
  {
    if t :| t in s.threads && WillPush(s, t, c) {
      acts := ProceedThenPush(s, t, c);
    } else {
      var t := UnusedThread(s.threads.Keys);
      assert t !in s.threads;
      var begin := BeginWrite(t, w, Kind.Write([]));
      var s' := Next(s, begin);
      acts := ProceedThenPush(s', t, c);
      StepThen(s, begin, acts, c);
      acts := [begin] + acts;
    }
  }

  /**
   * Exactly when a call's writers have fallen silent for good: it is finished or dead, and no thread
   * is past the check of the flag that would stop it. A write that saw the call unfinished may
   * therefore still enter the mailbox after the finish; one begun later may not.
   */
  lemma SilentIff(reached: seq<Action>, c: nat, w: Writer)
    requires Runs(INITIAL, reached) && w in After(INITIAL, reached).writers && w.call == c
    ensures var s := After(INITIAL, reached);
            Over(s, c) <==> forall acts | Runs(s, acts) :: NonePushed(s, acts, c)
  {
    ReachedCallsOk(reached);
    var s := After(INITIAL, reached);
    hide Runs, After, CallsOk, Over, Adds;
    if Over(s, c) {
      forall acts | Runs(s, acts) ensures NonePushed(s, acts, c) { OverIsQuiet(s, acts, c); }
    } else {
      var acts := CanStillPush(s, c, w);
      AddedIsPushed(s, acts, c);
    }
  }

  lemma {:induction false} Extend(s: State, acts: seq<Action>, a: Action)
    requires Runs(s, acts) && Enabled(After(s, acts), a)
    ensures Runs(s, acts + [a]) && After(s, acts + [a]) == Next(After(s, acts), a)
    decreases |acts|
  {
    hide Next, Enabled;
    if acts == [] {
      assert acts + [a] == [a];
      assert Runs(Next(s, a), []);
    } else {
      Extend(Next(s, acts[0]), acts[1..], a);
      assert (acts + [a])[1..] == acts[1..] + [a];
    }
  }

  /** One connection, one call, and a writer for it. */
  lemma OneCallStarted(w: Writer) returns (acts: seq<Action>, s: State)
    requires w == Writer(1, 1, 0, 0)
    ensures Runs(INITIAL, acts) && After(INITIAL, acts) == s
    ensures s == INITIAL.(phase := Ticking(Some(0)), slots := [Slot(1, 0, false)], currentToken := 1, nextToken := 2,
                          accepted := 1, issued := map[1 := 0], writers := {w}, calls := [Shared(false, false, false)])
  {
    acts, s := [], INITIAL;
    Extend(INITIAL, acts, PollReturns);
    acts, s := acts + [PollReturns], Next(s, PollReturns);
    Extend(INITIAL, acts, AcceptConn(true));
    acts, s := acts + [AcceptConn(true)], Next(s, AcceptConn(true));
    Extend(INITIAL, acts, ClearWakeup);
    acts, s := acts + [ClearWakeup], Next(s, ClearWakeup);
    Extend(INITIAL, acts, StartTick(0));
    acts, s := acts + [StartTick(0)], Next(s, StartTick(0));
    Extend(INITIAL, acts, Handle(1));
    acts, s := acts + [Handle(1)], Next(s, Handle(1));
  }

  /** A run in which a write enters the mailbox behind the finish of its call: it had seen the call unfinished. */
  lemma WriteCanFollowFinish()
    ensures exists acts :: Runs(INITIAL, acts) &&
              var p := After(INITIAL, acts).pushed;
              |p| == 2 && p[0].kind.Finish? && p[1].kind.Write? && p[0].writer == p[1].writer
  {
    var w := Writer(1, 1, 0, 0);
    var write, finish := Kind.Write([]), Kind.Finish(0, None);
    var acts, s := OneCallStarted(w);
    Extend(INITIAL, acts, BeginWrite(1, w, write));
    acts, s := acts + [BeginWrite(1, w, write)], Next(s, BeginWrite(1, w, write));
    Extend(INITIAL, acts, BeginFinish(2, w, finish));
    acts, s := acts + [BeginFinish(2, w, finish)], Next(s, BeginFinish(2, w, finish));
    Extend(INITIAL, acts, Proceed(2));
    acts, s := acts + [Proceed(2)], Next(s, Proceed(2));
    Extend(INITIAL, acts, PushOp(2));
    acts, s := acts + [PushOp(2)], Next(s, PushOp(2));
    Extend(INITIAL, acts, Proceed(1));
    acts, s := acts + [Proceed(1)], Next(s, Proceed(1));
    Extend(INITIAL, acts, PushOp(1));
    acts, s := acts + [PushOp(1)], Next(s, PushOp(1));
    assert s.pushed == [OpOf(w, finish), OpOf(w, write)];
  }

  /**
   * The op the loop deals with changes the flags of its own call only: dead if its connection has no
   * live slot or the core refuses it, overflow if the core's queue is full, nothing otherwise.
   */
  lemma ReplyMarks(acts: seq<Action>, reply: Reply, c: nat)
    requires Runs(INITIAL, acts) && Enabled(After(INITIAL, acts), ApplyNext(reply))
    requires c < |After(INITIAL, acts).calls|
    ensures var s := After(INITIAL, acts);
            var s', w, was := Next(s, ApplyNext(reply)), s.phase.ops[0].writer, s.calls[c];
            var lost := NoLive(s.slots, w.origin) || reply == Refused;
            && |s'.calls| == |s.calls|
            && s'.calls[c] == if c != w.call then was
                              else if lost then was.(dead := true)
                              else if reply == QueueFull then was.(overflow := true)
                              else was
  {
    hide Runs, After, CallsOk, RoutesOk, OrderOk, GoneOk, WakeOk, FinishOk, NoLive, Next, Enabled;
    ReachedCallsOk(acts);
    InitialOk();
    EveryRunKeeps(INITIAL, acts);
    BouncesIff(acts, reply);
    MarksOwn(After(INITIAL, acts), reply, c);
  }

  lemma MarksOwn(s: State, reply: Reply, c: nat)
    requires Enabled(s, ApplyNext(reply)) && c < |s.calls|
    requires var done := Next(s, ApplyNext(reply)).done;
             |done| == |s.done| + 1 && (done[|s.done|].Bounced? <==> NoLive(s.slots, s.phase.ops[0].writer.origin))
    ensures var s', w, was := Next(s, ApplyNext(reply)), s.phase.ops[0].writer, s.calls[c];
            var lost := NoLive(s.slots, w.origin) || reply == Refused;
            && |s'.calls| == |s.calls|
            && s'.calls[c] == if c != w.call then was
                              else if lost then was.(dead := true)
                              else if reply == QueueFull then was.(overflow := true)
                              else was
  {
    hide NoLive, FindSlot;
  }

  // ---- only a death makes ops bounce ----

  /** The connection does not die during the run. */
  predicate Spared(s: State, acts: seq<Action>, conn: nat)
    requires Runs(s, acts)
    decreases |acts|
  {
    acts == [] ||
    (&& !(acts[0].ConnDies? && s.slots[acts[0].i].conn == conn)
     && Spared(Next(s, acts[0]), acts[1..], conn))
  }

  lemma {:induction false} LiveKeepsLive(slots: seq<Slot>, conn: nat)
    ensures NoLive(Live(slots), conn) <==> NoLive(slots, conn)
  {
    if slots != [] {
      LiveKeepsLive(slots[1..], conn);
      NoLiveCons(slots, conn);
      if !slots[0].dead {
        assert Live(slots)[0] == slots[0] && Live(slots)[1..] == Live(slots[1..]);
        NoLiveCons(Live(slots), conn);
      } else {
        assert Live(slots) == Live(slots[1..]);
      }
    }
  }

  lemma SparedStep(s: State, a: Action, conn: nat)
    requires Enabled(s, a) && !NoLive(s.slots, conn) && !(a.ConnDies? && s.slots[a.i].conn == conn)
    ensures !NoLive(Next(s, a).slots, conn)
  {
    hide FindSlot, Live;
    var i :| 0 <= i < |s.slots| && s.slots[i].conn == conn && !s.slots[i].dead;
    match a {
      case EndFlush => LiveKeepsLive(s.slots, conn);
      case AcceptConn(registers) => assert Next(s, a).slots[i] == s.slots[i];
      case ConnDies(k) => assert Next(s, a).slots[i] == s.slots[i];
      case _ => assert Next(s, a).slots == s.slots;
    }
  }

  /** A connection with a live slot keeps one until it dies, so that until then none of its writers' ops bounces. */
  lemma {:induction false} SparedStaysLive(s: State, acts: seq<Action>, conn: nat)
    requires Runs(s, acts) && !NoLive(s.slots, conn) && Spared(s, acts, conn)
    ensures !NoLive(After(s, acts).slots, conn)
    decreases |acts|
  {
    hide Next, NoLive;
    if acts != [] {
      SparedStep(s, acts[0], conn);
      SparedStaysLive(Next(s, acts[0]), acts[1..], conn);
    }
  }

  lemma AddedIsPushed(s: State, acts: seq<Action>, c: nat)
    requires Adds(s, acts, c)
    ensures Runs(s, acts) && !NonePushed(s, acts, c)
  {
    hide Runs, After;
  }
}
