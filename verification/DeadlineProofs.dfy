/** The deadline sweep: which calls it ends, how many sweeps it takes, and that hooks fire once. */
module DeadlineProofs {
  import opened Bytes
  import opened QueueModel
  import opened ConnModel
  import opened StreamProofs
  import opened ConnProofs
  import opened DispatchProofs

  // ---- which calls a sweep ends ----

  /** A stream is expired exactly if it is due and fewer than `budget` due streams come before it. */
  lemma {:induction false} SweptAt(streams: seq<StreamCtx>, budget: nat, now: nat, i: nat)
    requires i < |streams|
    ensures Swept(streams, budget, now)[i] ==
            if Due(streams[i], now) && DueCount(streams[..i], now) < budget then Expired(streams[i]) else streams[i]
  {
    hide Due, Expired;
    if i > 0 {
      var rest := streams[1..];
      assert streams[..i] == [streams[0]] + rest[..i - 1];
      assert streams[..i][1..] == rest[..i - 1];
      SweptAt(rest, if budget > 0 && Due(streams[0], now) then budget - 1 else budget, now, i - 1);
    }
  }

  predicate InBatch(streams: seq<StreamCtx>, budget: nat, now: nat, i: int) {
    0 <= i < |streams| && Due(streams[i], now) && DueCount(streams[..i], now) < budget
  }

  lemma BatchTail(streams: seq<StreamCtx>, budget: nat, now: nat, i: nat)
    requires 0 < i < |streams|
    ensures InBatch(streams, budget, now, i) <==>
            if Due(streams[0], now) then budget > 0 && InBatch(streams[1..], budget - 1, now, i - 1)
            else InBatch(streams[1..], budget, now, i - 1)
  {
    hide Due;
    assert streams[..i] == [streams[0]] + streams[1..][..i - 1];
    assert streams[..i][1..] == streams[1..][..i - 1];
  }

  /** The hooks a sweep fires are those of the streams it expires. */
  lemma {:induction false} SweptHooksAre(streams: seq<StreamCtx>, budget: nat, now: nat, hook: nat)
    ensures hook in SweptHooks(streams, budget, now) <==>
            exists i :: InBatch(streams, budget, now, i) && streams[i].cancelHook == Some(hook)
  {
    hide Due, InBatch;
    if streams == [] {
      assert forall i :: !InBatch(streams, budget, now, i) by { NoBatch(budget, now); }
    } else {
      var rest, left := streams[1..], if budget > 0 && Due(streams[0], now) then budget - 1 else budget;
      SweptHooksAre(rest, left, now, hook);
      FirstInBatch(streams, budget, now);
      forall i ensures InBatch(streams, budget, now, i) ==> 0 <= i < |streams| { BatchBounds(streams, budget, now, i); }
      forall i ensures InBatch(rest, left, now, i) ==> 0 <= i < |rest| { BatchBounds(rest, left, now, i); }
      forall i | 0 < i < |streams| ensures InBatch(streams, budget, now, i) <==> InBatch(rest, left, now, i - 1) {
        BatchTail(streams, budget, now, i);
        if budget == 0 { EmptyBatch(streams, now, i); EmptyBatch(rest, now, i - 1); }
      }
      if exists i :: InBatch(rest, left, now, i) && rest[i].cancelHook == Some(hook) {
        var i :| InBatch(rest, left, now, i) && rest[i].cancelHook == Some(hook);
        assert InBatch(rest, left, now, i + 1 - 1);
        assert InBatch(streams, budget, now, i + 1) && streams[i + 1].cancelHook == Some(hook);
      }
    }
  }

  lemma NoBatch(budget: nat, now: nat)
    ensures forall i :: !InBatch([], budget, now, i)
  {
  }

  lemma BatchBounds(streams: seq<StreamCtx>, budget: nat, now: nat, i: int)
    ensures InBatch(streams, budget, now, i) ==> 0 <= i < |streams|
  {
  }

  lemma EmptyBatch(streams: seq<StreamCtx>, now: nat, i: int)
    ensures !InBatch(streams, 0, now, i)
  {
  }

  lemma FirstInBatch(streams: seq<StreamCtx>, budget: nat, now: nat)
    requires streams != []
    ensures InBatch(streams, budget, now, 0) <==> budget > 0 && Due(streams[0], now)
  {
    assert streams[..0] == [];
  }

  /**
   * One sweep: the first eight due calls end with code 4, their deadlines and hooks gone, and exactly
   * their hooks fire; every other call is left alone.
   */
  lemma SweepEnds(st: ConnState, now: nat)
    ensures var r := DeadlinesExpired(st, now);
            && |r.streams| == |st.streams| && st.fired <= r.fired
            && (forall i :: 0 <= i < |st.streams| ==>
                  if InBatch(st.streams, 8, now, i) then
                    && r.streams[i].out.q.finished && r.streams[i].out.q.finalStatus == 4
                    && r.streams[i].deadlineMs == None && r.streams[i].cancelHook == None
                  else r.streams[i] == st.streams[i])
            && forall hook: nat :: hook in r.fired[|st.fired|..] <==>
                 exists i :: InBatch(st.streams, 8, now, i) && st.streams[i].cancelHook == Some(hook)
  {
    hide Expired, Swept, SweptHooks;
    var r := DeadlinesExpired(st, now);
    forall i | 0 <= i < |st.streams|
      ensures if InBatch(st.streams, 8, now, i) then
                && r.streams[i].out.q.finished && r.streams[i].out.q.finalStatus == 4
                && r.streams[i].deadlineMs == None && r.streams[i].cancelHook == None
              else r.streams[i] == st.streams[i]
    {
      SweptAt(st.streams, EXPIRE_BATCH, now, i);
      if Due(st.streams[i], now) { ExpiredEnds(st.streams[i], now); }
    }
    hide InBatch;
    assert r.fired[|st.fired|..] == SweptHooks(st.streams, EXPIRE_BATCH, now);
    forall hook: nat ensures hook in SweptHooks(st.streams, EXPIRE_BATCH, now) <==>
                        exists i :: InBatch(st.streams, 8, now, i) && st.streams[i].cancelHook == Some(hook)
    {
      SweptHooksAre(st.streams, EXPIRE_BATCH, now, hook);
    }
  }

  /** What expiry does to a call, whatever was asked of it before. */
  lemma ExpiredEnds(s: StreamCtx, now: nat)
    requires Due(s, now)
    ensures var r := Expired(s);
            && r.out.q.finished && r.out.q.finalStatus == STATUS_DEADLINE_EXCEEDED
            && r.deadlineMs == None && r.cancelHook == None && r.state == Dispatched
            && (s.out.q.responseStarted ==> !r.provider.Deferred?)
    ensures forall t: nat :: !Due(Expired(s), t)
  {
  }

  lemma DueCountCons(s: StreamCtx, rest: seq<StreamCtx>, now: nat)
    ensures DueCount([s] + rest, now) == (if Due(s, now) then 1 else 0) + DueCount(rest, now)
  {
    assert ([s] + rest)[1..] == rest;
  }

  lemma SweptCons(s: StreamCtx, rest: seq<StreamCtx>, budget: nat, now: nat)
    ensures Swept([s] + rest, budget, now) ==
            if budget > 0 && Due(s, now) then [Expired(s)] + Swept(rest, budget - 1, now)
            else [s] + Swept(rest, budget, now)
  {
    hide Due, Expired;
    assert ([s] + rest)[1..] == rest;
  }

  lemma {:induction false} SweepCounts(streams: seq<StreamCtx>, budget: nat, now: nat)
    ensures DueCount(Swept(streams, budget, now), now) == DueCount(streams, now) - Min(budget, DueCount(streams, now))
  {
    if streams != [] {
      var s, rest := streams[0], streams[1..];
      assert streams == [s] + rest;
      hide Due, Expired, DueCount, Swept;
      DueCountCons(s, rest, now);
      SweptCons(s, rest, budget, now);
      var left := if budget > 0 && Due(s, now) then budget - 1 else budget;
      SweepCounts(rest, left, now);
      if budget > 0 && Due(s, now) {
        ExpiredEnds(s, now);
        DueCountCons(Expired(s), Swept(rest, left, now), now);
      } else {
        DueCountCons(s, Swept(rest, left, now), now);
      }
    }
  }

  function Sweeps(streams: seq<StreamCtx>, n: nat, now: nat): seq<StreamCtx>
    decreases n
  {
    if n == 0 then streams else Sweeps(Swept(streams, EXPIRE_BATCH, now), n - 1, now)
  }

  /** Eight due calls a tick: nothing is due any more after `n` sweeps exactly if there were at most `8 n`. */
  lemma {:induction false} SweepsNeeded(streams: seq<StreamCtx>, n: nat, now: nat)
    ensures DueCount(Sweeps(streams, n, now), now) == 0 <==> DueCount(streams, now) <= n * 8
    decreases n
  {
    if n > 0 {
      SweepCounts(streams, EXPIRE_BATCH, now);
      SweepsNeeded(Swept(streams, EXPIRE_BATCH, now), n - 1, now);
    }
  }

  // ---- the poll bound ----

  predicate Armed(s: StreamCtx) {
    s.state == Dispatched && !s.out.q.finished && s.deadlineMs.Some?
  }

  /** The earliest armed deadline. */
  predicate IsEarliest(streams: seq<StreamCtx>, d: nat) {
    && (exists i :: 0 <= i < |streams| && Armed(streams[i]) && streams[i].deadlineMs.value == d)
    && (forall i :: 0 <= i < |streams| && Armed(streams[i]) ==> d <= streams[i].deadlineMs.value)
  }

  /** The loop over the streams, keeping the least deadline seen. */
  method NextDeadlineMs(streams: seq<StreamCtx>, now: nat) returns (r: Option<nat>)
    ensures r.None? <==> forall i :: 0 <= i < |streams| ==> !Armed(streams[i])
    ensures r.Some? ==> exists d: nat :: IsEarliest(streams, d) && r.value == (if d <= now then 0 else d - now)
    ensures r == Some(0) <==> DueCount(streams, now) > 0
  {
    var least: Option<nat> := None;
    for i := 0 to |streams|
      invariant least.None? ==> forall j :: 0 <= j < i ==> !Armed(streams[j])
      invariant least.Some? ==> IsEarliest(streams[..i], least.value)
    {
      var s := streams[i];
      assert forall j :: 0 <= j < i ==> streams[..i][j] == streams[..i + 1][j];
      assert streams[..i + 1][i] == s;
      if s.state == Dispatched && !s.out.q.finished && s.deadlineMs.Some? {
        if least.None? || s.deadlineMs.value < least.value {
          least := Some(s.deadlineMs.value);
        }
      }
    }
    assert streams[..|streams|] == streams;
    SomeDue(streams, now);
    if least.None? {
      return None;
    }
    return Some(if least.value <= now then 0 else least.value - now);
  }

  lemma {:induction false} SomeDue(streams: seq<StreamCtx>, now: nat)
    ensures DueCount(streams, now) > 0 <==> exists i :: 0 <= i < |streams| && Due(streams[i], now)
  {
    hide Due;
    if streams != [] {
      SomeDue(streams[1..], now);
      if exists i :: 0 <= i < |streams| && Due(streams[i], now) {
        var i :| 0 <= i < |streams| && Due(streams[i], now);
        if i > 0 { assert Due(streams[1..][i - 1], now); }
      }
      if exists i :: 0 <= i < |streams[1..]| && Due(streams[1..][i], now) {
        var i :| 0 <= i < |streams[1..]| && Due(streams[1..][i], now);
        assert Due(streams[i + 1], now);
      }
    }
  }

  // ---- the sweep keeps the connection invariant ----

  function HookFired(st: ConnState, k: nat): ConnState
    requires k < |st.streams|
  {
    Put(st, k, st.streams[k].(cancelHook := None)).(fired := st.fired + HookOf(st.streams[k]))
  }

  lemma FireKeepsHooks(streams: seq<StreamCtx>, k: nat, fired: seq<nat>, nextHook: nat)
    requires k < |streams| && HooksOk(streams, fired, nextHook)
    ensures HooksOk(streams[k := streams[k].(cancelHook := None)], fired + HookOf(streams[k]), nextHook)
  {
  }

  lemma FireKeeps(st: ConnState, k: nat)
    requires Core(st) && k < |st.streams|
    ensures Core(HookFired(st, k))
  {
    StreamAt(st, k);
    HookKeepsStream(st.streams[k], None);
    hide StreamOk, DataOf, Pins, Knows, HooksOk, InvokedOk, DataOk, IdsOk, PromiseOk;
    var s := st.streams[k].(cancelHook := None);
    var all, all' := st.streams + st.gone, Put(st, k, s).streams + st.gone;
    PutAll(st, k, s);
    SameIdsKeep(all, all');
    SameShippedKeep(all, all', st.log);
    PutKeepsInvoked(st.streams, k, s, st.gone, st.invoked);
    PutKeepsPinned(st.streams, k, s, st.gone, st.promise, st.fd);
    FireKeepsHooks(st.streams, k, st.fired, st.nextHook);
  }

  lemma ExpireReplaces(promise: Option<SendPromise>, s: StreamCtx)
    requires StreamOk(s) && s.cancelHook == None
    ensures Replaces(promise, s, Expired(s))
  {
    ExpireKeeps(s);
    hide StreamOk, Pins;
    if promise.Some? {
      FlagsKeepPins(s.out.q, Expired(s).out.q, promise.value);
    }
  }

  /** One due stream at position `i`: its hook fires, then the call ends. */
  function ExpiredAt(st: ConnState, i: nat): ConnState
    requires i < |st.streams|
  {
    Put(st, i, Expired(st.streams[i])).(fired := st.fired + HookOf(st.streams[i]))
  }

  lemma ExpireAtKeeps(st: ConnState, i: nat)
    requires Core(st) && i < |st.streams|
    ensures Core(ExpiredAt(st, i))
  {
    hide Core, StreamOk, Replaces;
    FireKeeps(st, i);
    var st1 := HookFired(st, i);
    StreamAt(st1, i);
    ExpireReplaces(st1.promise, st1.streams[i]);
    PutKeeps(st1, i, Expired(st1.streams[i]));
    assert Expired(st1.streams[i]) == Expired(st.streams[i]);
    assert Put(st1, i, Expired(st1.streams[i])) == ExpiredAt(st, i);
  }

  /** The sweep from position `i` on. */
  function SweptFrom(st: ConnState, i: nat, budget: nat, now: nat): ConnState
    requires i <= |st.streams|
    decreases |st.streams| - i
  {
    if i == |st.streams| then st
    else if budget > 0 && Due(st.streams[i], now) then SweptFrom(ExpiredAt(st, i), i + 1, budget - 1, now)
    else SweptFrom(st, i + 1, budget, now)
  }

  lemma {:induction false} SweptFromIs(st: ConnState, i: nat, budget: nat, now: nat)
    requires i <= |st.streams|
    ensures SweptFrom(st, i, budget, now) ==
            st.(streams := st.streams[..i] + Swept(st.streams[i..], budget, now),
                fired := st.fired + SweptHooks(st.streams[i..], budget, now))
    decreases |st.streams| - i
  {
    hide Due, Expired, HookOf;
    if i == |st.streams| {
      assert st.streams[..i] + [] == st.streams && st.fired + [] == st.fired;
    } else {
      var s, rest := st.streams[i], st.streams[i + 1..];
      assert st.streams[i..][1..] == rest && st.streams[i..][0] == s;
      if budget > 0 && Due(s, now) {
        var st' := ExpiredAt(st, i);
        SweptFromIs(st', i + 1, budget - 1, now);
        assert st'.streams[i + 1..] == rest && st'.streams[..i + 1] == st.streams[..i] + [Expired(s)];
        Assoc(st.streams[..i], [Expired(s)], Swept(rest, budget - 1, now));
        Assoc(st.fired, HookOf(s), SweptHooks(rest, budget - 1, now));
      } else {
        SweptFromIs(st, i + 1, budget, now);
        assert st.streams[..i + 1] == st.streams[..i] + [s];
        Assoc(st.streams[..i], [s], Swept(rest, budget, now));
      }
    }
  }

  lemma Assoc<T>(a: seq<T>, b: seq<T>, c: seq<T>)
    ensures (a + b) + c == a + (b + c)
  {
  }

  lemma {:induction false} SweptFromKeeps(st: ConnState, i: nat, budget: nat, now: nat)
    requires Core(st) && i <= |st.streams|
    ensures Core(SweptFrom(st, i, budget, now))
    decreases |st.streams| - i
  {
    hide Core, Due, Expired;
    if i < |st.streams| {
      if budget > 0 && Due(st.streams[i], now) {
        ExpireAtKeeps(st, i);
        SweptFromKeeps(ExpiredAt(st, i), i + 1, budget - 1, now);
      } else {
        SweptFromKeeps(st, i + 1, budget, now);
      }
    }
  }

  lemma SweepKeeps(st: ConnState, now: nat)
    requires Core(st)
    ensures Core(DeadlinesExpired(st, now))
  {
    hide Core, Swept, SweptHooks;
    SweptFromKeeps(st, 0, EXPIRE_BATCH, now);
    SweptFromIs(st, 0, EXPIRE_BATCH, now);
    assert st.streams[0..] == st.streams;
    assert st.streams[..0] + Swept(st.streams, EXPIRE_BATCH, now) == Swept(st.streams, EXPIRE_BATCH, now);
  }
}
