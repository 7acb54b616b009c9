/**
 * The C ABI's outbound mailbox: raw call handles, tombstones for freed connections, and an eventfd.
 *
 * The lock makes each critical section one step. Producers push and then poke, in separate steps;
 * the I/O thread drains in steps, and is the only thread that accepts and frees connections.
 */
module HandleMailbox {
  import opened Bytes

  const NULL: int := 0

  datatype Item = Item(call: int, callId: int, payload: seq<byte>, finish: bool, status: nat)

  // ---- the critical sections ----

  function Scrubbed(queue: seq<Item>, call: int): (r: seq<Item>)
    ensures |r| == |queue|
    ensures forall i :: 0 <= i < |queue| ==> r[i] == if queue[i].call == call then queue[i].(call := NULL) else queue[i]
  {
    if queue == [] then []
    else [if queue[0].call == call then queue[0].(call := NULL) else queue[0]] + Scrubbed(queue[1..], call)
  }

  function Survivors(items: seq<Item>, dead: seq<int>): seq<Item> {
    if items == [] then []
    else (if items[0].call == NULL || items[0].call in dead then [] else [items[0]]) + Survivors(items[1..], dead)
  }

  /** `at` lists the positions of the ops that are neither nulled nor buried: what is replayed, in queue order. */
  predicate Picked(queue: seq<Item>, dead: seq<int>, replayed: seq<Item>, at: seq<nat>) {
    && |at| == |replayed|
    && (forall j :: 0 <= j < |at| ==> at[j] < |queue| && replayed[j] == queue[at[j]])
    && (forall i, j :: 0 <= i < j < |at| ==> at[i] < at[j])
    && (forall i :: 0 <= i < |queue| ==> (i in at <==> queue[i].call != 0 && queue[i].call !in dead))
  }

  predicate NoDuplicates(dead: seq<int>) {
    forall i, j :: 0 <= i < j < |dead| ==> dead[i] != dead[j]
  }

  class Mailbox {
    var queue: seq<Item>
    var dead: seq<int>
    /** The eventfd's counter; there is no eventfd until the host asks for it or registers its thread. */
    var wakeup: Option<nat>
    var ioThread: Option<nat>

    /** A registered I/O thread has its eventfd. */
    predicate Valid()
      reads this
    {
      ioThread.Some? ==> wakeup.Some?
    }

    constructor ()
      ensures Valid() && queue == [] && dead == [] && wakeup == None && ioThread == None
    {
      queue := [];
      dead := [];
      wakeup := None;
      ioThread := None;
    }

    /** Whether `me` may touch the core directly: every thread may until one is registered. */
    predicate OnIoThread(me: nat)
      reads this
    {
      ioThread.None? || ioThread.value == me
    }

    /** The eventfd first, so that no producer is sent here before it can be heard. */
    method RegisterIoThread(me: nat)
      modifies this`wakeup, this`ioThread
      ensures Valid() && ioThread == Some(me)
      ensures wakeup == if old(wakeup).None? then Some(0) else old(wakeup)
    {
      WakeupFd();
      ioThread := Some(me);
    }

    /** A write or finish from thread `me`: handed to the mailbox, and then its poke is heard; or left to the caller. */
    method Submit(me: nat, item: Item) returns (direct: bool)
      requires Valid()
      modifies this`queue, this`wakeup
      ensures Valid() && (direct <==> OnIoThread(me))
      ensures direct ==> queue == old(queue) && wakeup == old(wakeup)
      ensures !direct ==>
                queue == old(queue) + [item] && old(wakeup).Some? && wakeup == Some(old(wakeup).value + 1)
    {
      direct := OnIoThread(me);
      if !direct {
        Push(item);
      }
    }

    method WakeupFd()
      modifies this`wakeup
      ensures wakeup == if old(wakeup).None? then Some(0) else old(wakeup)
    {
      if wakeup.None? {
        wakeup := Some(0);
      }
    }

    /** Every push is followed by a poke, which goes nowhere while there is no eventfd. */
    method Push(item: Item)
      modifies this`queue, this`wakeup
      ensures queue == old(queue) + [item]
      ensures wakeup.Some? <==> old(wakeup).Some?
      ensures wakeup.Some? ==> wakeup.value == old(wakeup).value + 1
    {
      queue := queue + [item];
      if wakeup.Some? {
        wakeup := Some(wakeup.value + 1);
      }
    }

    method TakeAll() returns (items: seq<Item>)
      modifies this`queue
      ensures items == old(queue) && queue == []
    {
      items := queue;
      queue := [];
    }

    /**
     * With no other thread in the way: clears the counter, then hands to the core, in queue order,
     * every queued op whose handle is neither null nor buried, and no other.
     */
    method Drain() returns (replayed: seq<Item>)
      modifies this`queue, this`wakeup
      ensures queue == [] && replayed == Survivors(old(queue), dead)
      ensures forall j :: 0 <= j < |replayed| ==> replayed[j].call != 0 && replayed[j].call !in dead
      ensures exists at :: Picked(old(queue), dead, replayed, at)
      ensures wakeup == if old(wakeup).Some? then Some(0) else None
    {
      hide Picked, ReplayedTo, Survivors;
      if wakeup.Some? {
        wakeup := Some(0);
      }
      var items := TakeAll();
      replayed := [];
      ghost var at: seq<nat> := [];
      ReplayStart(items, dead);
      for i := 0 to |items|
        invariant queue == [] && ReplayedTo(items, dead, i, replayed, at)
        invariant wakeup == if old(wakeup).Some? then Some(0) else None
      {
        ReplayStep(items, dead, i, replayed, at);
        var gone := items[i].call == NULL || items[i].call in dead;
        if gone {
          continue;
        }
        replayed, at := replayed + [items[i]], at + [i];
      }
      ReplayEnd(items, dead, replayed, at);
    }

    /** On accept: the address may be a reused one. */
    method RegisterCall(call: int)
      requires NoDuplicates(dead)
      modifies this`dead
      ensures NoDuplicates(dead)
      ensures forall h :: h in dead <==> h in old(dead) && h != call
    {
      var pos := 0;
      while pos < |dead| && dead[pos] != call
        invariant 0 <= pos <= |dead| && call !in dead[..pos]
      {
        pos := pos + 1;
      }
      if pos < |dead| {
        ghost var was := dead;
        dead := dead[pos := dead[|dead| - 1]][..|dead| - 1];
        assert forall i :: 0 <= i < |dead| ==> dead[i] == was[if i == pos then |was| - 1 else i];
        forall h ensures h in dead <==> h in was && h != call {
          if h in was && h != call {
            var i :| 0 <= i < |was| && was[i] == h;
            assert dead[if i == |was| - 1 then pos else i] == h;
          }
        }
      } else {
        assert dead[..pos] == dead;
      }
    }

    /** On free: what is queued for the handle is nulled, what comes later will meet the tombstone. */
    method UnregisterCall(call: int)
      requires NoDuplicates(dead)
      modifies this`queue, this`dead
      ensures queue == Scrubbed(old(queue), call)
      ensures NoDuplicates(dead)
      ensures forall h :: h in dead <==> h in old(dead) || h == call
    {
      var i := 0;
      while i < |queue|
        invariant 0 <= i <= |queue| == |old(queue)| && dead == old(dead)
        invariant forall j :: 0 <= j < i ==>
                    queue[j] == if old(queue)[j].call == call then old(queue)[j].(call := NULL) else old(queue)[j]
        invariant forall j :: i <= j < |queue| ==> queue[j] == old(queue)[j]
      {
        if queue[i].call == call {
          queue := queue[i := queue[i].(call := NULL)];
        }
        i := i + 1;
      }
      if call !in dead {
        dead := dead + [call];
      }
    }
  }

  /** The first `i` ops are dealt with. */
  predicate ReplayedTo(items: seq<Item>, dead: seq<int>, i: nat, replayed: seq<Item>, at: seq<nat>) {
    && i <= |items| && Picked(items[..i], dead, replayed, at)
    && replayed + Survivors(items[i..], dead) == Survivors(items, dead)
  }

  lemma ReplayStart(items: seq<Item>, dead: seq<int>)
    ensures ReplayedTo(items, dead, 0, [], [])
  {
    hide Survivors;
    assert items[0..] == items && [] + Survivors(items, dead) == Survivors(items, dead);
  }

  lemma ReplayStep(items: seq<Item>, dead: seq<int>, i: nat, replayed: seq<Item>, at: seq<nat>)
    requires ReplayedTo(items, dead, i, replayed, at) && i < |items|
    ensures if items[i].call == NULL || items[i].call in dead then ReplayedTo(items, dead, i + 1, replayed, at)
            else ReplayedTo(items, dead, i + 1, replayed + [items[i]], at + [i])
  {
    hide Picked;
    var rest := Survivors(items[i + 1..], dead);
    assert items[i..][1..] == items[i + 1..];
    assert items[..i + 1] == items[..i] + [items[i]];
    if items[i].call == NULL || items[i].call in dead {
      PickedPast(items[..i], dead, replayed, at, items[i]);
      assert [] + rest == rest;
    } else {
      PickedNext(items[..i], dead, replayed, at, items[i]);
      assert replayed + ([items[i]] + rest) == (replayed + [items[i]]) + rest;
    }
  }

  lemma ReplayEnd(items: seq<Item>, dead: seq<int>, replayed: seq<Item>, at: seq<nat>)
    requires ReplayedTo(items, dead, |items|, replayed, at)
    ensures replayed == Survivors(items, dead) && Picked(items, dead, replayed, at)
    ensures forall j :: 0 <= j < |replayed| ==> replayed[j].call != NULL && replayed[j].call !in dead
  {
    hide Picked;
    assert items[..|items|] == items && Survivors(items[|items|..], dead) == [] && replayed + [] == replayed;
    PickedIsLive(items, dead, replayed, at);
  }

  lemma PickedIsLive(queue: seq<Item>, dead: seq<int>, replayed: seq<Item>, at: seq<nat>)
    requires Picked(queue, dead, replayed, at)
    ensures forall j :: 0 <= j < |replayed| ==> replayed[j].call != NULL && replayed[j].call !in dead
  {
    forall j | 0 <= j < |replayed| ensures replayed[j].call != NULL && replayed[j].call !in dead {
      assert at[j] in at;
    }
  }

  lemma PickedPast(queue: seq<Item>, dead: seq<int>, replayed: seq<Item>, at: seq<nat>, item: Item)
    requires Picked(queue, dead, replayed, at) && (item.call == NULL || item.call in dead)
    ensures Picked(queue + [item], dead, replayed, at)
  {
  }

  lemma PickedNext(queue: seq<Item>, dead: seq<int>, replayed: seq<Item>, at: seq<nat>, item: Item)
    requires Picked(queue, dead, replayed, at) && item.call != NULL && item.call !in dead
    ensures Picked(queue + [item], dead, replayed + [item], at + [|queue|])
  {
    var at' := at + [|queue|];
    assert at'[|at|] == |queue|;
    forall i | 0 <= i < |queue| ensures i in at' <==> i in at { }
  }

  // ---- the protocol ----

  /** `owner` is the connection the producer's handle came from; `inTime` says it was live at the push. */
  datatype Entry = Entry(item: Item, owner: nat, inTime: bool, number: nat)

  /** `Dangling` is a replay onto a handle that is not live: a use after free. */
  datatype Outcome = Replayed(entry: Entry, onto: nat) | Dropped(entry: Entry) | Dangling(entry: Entry)

  datatype Phase = Waiting | Cleared | Replaying(items: seq<Entry>)

  /** `registering` are the threads inside `register_io_thread` that have the eventfd but are not yet published. */
  datatype State = State(
    queue: seq<Entry>,
    dead: set<int>,
    live: map<int, nat>,
    handleOf: seq<int>,
    freed: set<nat>,
    counter: nat,
    pokesDue: nat,
    hasWakeup: bool,
    registering: set<nat>,
    ioThread: Option<nat>,
    phase: Phase,
    outcomes: seq<Outcome>,
    pushed: nat)

  const INITIAL := State([], {}, map[], [], {}, 0, 0, false, {}, None, Waiting, [], 0)

  datatype Action =
    | OpenWakeup
    | BeginRegister(thread: nat)
    | Publish(thread: nat)
    | Push(thread: nat, owner: nat, item: Item)
    | Poke
    | Clear
    | TakeQueue
    | ReplayNext
    | EndDrain
    | Accept(handle: int)
    | Free(handle: int)

  /** The routing of every write and finish: on the I/O thread, or before there is one, the mailbox is not used. */
  predicate OnIoThread(s: State, thread: nat) {
    s.ioThread.None? || s.ioThread.value == thread
  }

  predicate Enabled(s: State, a: Action) {
    match a
    case OpenWakeup => true
    case BeginRegister(thread) => true
    case Publish(thread) => thread in s.registering
    case Push(thread, owner, item) =>
      !OnIoThread(s, thread) && owner < |s.handleOf| && item.call == s.handleOf[owner]
    case Poke => s.pokesDue > 0
    case Clear => s.phase.Waiting?
    case TakeQueue => s.phase.Cleared?
    case ReplayNext => s.phase.Replaying? && s.phase.items != []
    case EndDrain => s.phase == Replaying([])
    case Accept(handle) => s.phase.Waiting? && handle != NULL && handle !in s.live
    case Free(handle) => s.phase.Waiting? && handle in s.live
  }

  function ScrubEntries(es: seq<Entry>, call: int): (r: seq<Entry>)
    ensures |r| == |es|
    ensures forall i :: 0 <= i < |es| ==>
              r[i] == if es[i].item.call == call then es[i].(item := es[i].item.(call := NULL)) else es[i]
  {
    if es == [] then []
    else
      [if es[0].item.call == call then es[0].(item := es[0].item.(call := NULL)) else es[0]] + ScrubEntries(es[1..], call)
  }

  function ReplayOne(s: State, e: Entry): Outcome {
    if e.item.call == NULL || e.item.call in s.dead then Dropped(e)
    else if e.item.call in s.live then Replayed(e, s.live[e.item.call])
    else Dangling(e)
  }

  function Next(s: State, a: Action): State
    requires Enabled(s, a)
  {
    match a
    case OpenWakeup => s.(hasWakeup := true)
    case BeginRegister(thread) => s.(hasWakeup := true, registering := s.registering + {thread})
    case Publish(thread) => s.(registering := s.registering - {thread}, ioThread := Some(thread))
    case Push(thread, owner, item) =>
      var inTime := item.call in s.live && s.live[item.call] == owner;
      s.(queue := s.queue + [Entry(item, owner, inTime, s.pushed)], pokesDue := s.pokesDue + 1, pushed := s.pushed + 1)
    case Poke => s.(counter := if s.hasWakeup then s.counter + 1 else s.counter, pokesDue := s.pokesDue - 1)
    case Clear => s.(counter := 0, phase := Cleared)
    case TakeQueue => s.(queue := [], phase := Replaying(s.queue))
    case ReplayNext =>
      s.(outcomes := s.outcomes + [ReplayOne(s, s.phase.items[0])], phase := Replaying(s.phase.items[1..]))
    case EndDrain => s.(phase := Waiting)
    case Accept(handle) =>
      s.(live := s.live[handle := |s.handleOf|], handleOf := s.handleOf + [handle], dead := s.dead - {handle})
    case Free(handle) =>
      s.(queue := ScrubEntries(s.queue, handle), dead := s.dead + {handle},
         live := s.live - {handle}, freed := s.freed + {s.live[handle]})
  }

  // ---- the invariant ----

  /** Everything not yet dealt with, oldest first. */
  function Undone(s: State): seq<Entry> {
    (if s.phase.Replaying? then s.phase.items else []) + s.queue
  }

  /** Every connection is live at its handle or freed; every handle ever used is live or buried, not both. */
  predicate ConnectionsOk(s: State) {
    && (forall u :: 0 <= u < |s.handleOf| ==>
          && s.handleOf[u] != NULL
          && (s.handleOf[u] in s.live || s.handleOf[u] in s.dead)
          && (u in s.freed <==> !(s.handleOf[u] in s.live && s.live[s.handleOf[u]] == u)))
    && (forall u :: u in s.freed ==> u < |s.handleOf|)
    && (forall h :: h in s.live ==> s.live[h] < |s.handleOf| && s.handleOf[s.live[h]] == h && h !in s.dead)
  }

  /** An op still carries its owner's handle, or was nulled because its owner is gone. */
  predicate EntryOk(s: State, e: Entry) {
    && e.owner < |s.handleOf|
    && (e.item.call == NULL ==> e.owner in s.freed)
    && (e.item.call != NULL ==> e.item.call == s.handleOf[e.owner] && (e.inTime <==> e.owner !in s.freed))
  }

  predicate OutcomeOk(s: State, o: Outcome) {
    match o
    case Replayed(e, onto) => onto < |s.handleOf| && (e.inTime <==> onto == e.owner) && e.item.call == s.handleOf[onto]
    case Dropped(e) => e.owner in s.freed
    case Dangling(e) => false
  }


  /** Ops are dealt with in the order they were pushed, each once. */
  predicate InOrder(s: State) {
    && |s.outcomes| + |Undone(s)| == s.pushed
    && (forall i :: 0 <= i < |s.outcomes| ==> s.outcomes[i].entry.number == i)
    && (forall i :: 0 <= i < |Undone(s)| ==> Undone(s)[i].number == |s.outcomes| + i)
  }

  /** A loop about to sleep with ops queued will be woken; whoever may poke finds the eventfd. */
  predicate WakeOk(s: State) {
    && (s.queue != [] && !s.phase.Cleared? ==> s.counter > 0 || s.pokesDue > 0)
    && (s.registering != {} || s.ioThread.Some? || s.pokesDue > 0 ==> s.hasWakeup)
  }

  predicate MailboxOk(s: State) {
    && ConnectionsOk(s)
    && (forall i :: 0 <= i < |Undone(s)| ==> EntryOk(s, Undone(s)[i]))
    && (forall i :: 0 <= i < |s.outcomes| ==> OutcomeOk(s, s.outcomes[i]))
    && InOrder(s)
    && WakeOk(s)
  }

  // ---- every step ----

  lemma PushKeeps(s: State, thread: nat, owner: nat, item: Item)
    requires MailboxOk(s) && Enabled(s, Push(thread, owner, item))
    ensures MailboxOk(Next(s, Push(thread, owner, item)))
  {
    var s' := Next(s, Push(thread, owner, item));
    assert Undone(s') == Undone(s) + [s'.queue[|s.queue|]];
  }

  lemma DrainStepsKeep(s: State, a: Action)
    requires MailboxOk(s) && Enabled(s, a)
    requires a.Clear? || a.TakeQueue? || a.EndDrain? || a.Poke? || a.OpenWakeup? || a.BeginRegister? || a.Publish?
    ensures MailboxOk(Next(s, a))
  {
    assert Undone(Next(s, a)) == Undone(s);
  }

  lemma ReplayKeeps(s: State)
    requires MailboxOk(s) && Enabled(s, ReplayNext)
    ensures MailboxOk(Next(s, ReplayNext))
  {
    var s', e := Next(s, ReplayNext), s.phase.items[0];
    assert Undone(s)[0] == e && Undone(s') == Undone(s)[1..];
    assert EntryOk(s, e);
    assert OutcomeOk(s, ReplayOne(s, e));
  }

  lemma AcceptKeeps(s: State, handle: int)
    requires MailboxOk(s) && Enabled(s, Accept(handle))
    ensures MailboxOk(Next(s, Accept(handle)))
  {
    var s', n := Next(s, Accept(handle)), |s.handleOf|;
    assert n !in s.freed;
    assert Undone(s') == Undone(s);
    forall u | 0 <= u < n ensures s'.handleOf[u] == s.handleOf[u] { }
  }

  lemma FreeKeepsConnections(s: State, handle: int)
    requires ConnectionsOk(s) && Enabled(s, Free(handle))
    ensures ConnectionsOk(Next(s, Free(handle)))
  {
    hide ScrubEntries;
  }

  lemma FreeKeepsEntry(s: State, handle: int, e: Entry)
    requires ConnectionsOk(s) && Enabled(s, Free(handle)) && EntryOk(s, e)
    ensures EntryOk(Next(s, Free(handle)), if e.item.call == handle then e.(item := e.item.(call := NULL)) else e)
  {
    hide ScrubEntries;
  }

  lemma FreeKeeps(s: State, handle: int)
    requires MailboxOk(s) && Enabled(s, Free(handle))
    ensures MailboxOk(Next(s, Free(handle)))
  {
    hide ScrubEntries, ConnectionsOk, EntryOk;
    var s' := Next(s, Free(handle));
    assert Undone(s) == s.queue && Undone(s') == s'.queue;
    FreeKeepsConnections(s, handle);
    forall i | 0 <= i < |s'.queue| ensures EntryOk(s', s'.queue[i]) {
      assert EntryOk(s, s.queue[i]);
      FreeKeepsEntry(s, handle, s.queue[i]);
    }
  }

  lemma NextKeeps(s: State, a: Action)
    requires MailboxOk(s) && Enabled(s, a)
    ensures MailboxOk(Next(s, a))
  {
    hide MailboxOk, Next;
    match a {
      case Push(thread, owner, item) => PushKeeps(s, thread, owner, item);
      case ReplayNext => ReplayKeeps(s);
      case Accept(handle) => AcceptKeeps(s, handle);
      case Free(handle) => FreeKeeps(s, handle);
      case _ => DrainStepsKeep(s, a);
    }
  }

  // ---- every run ----

  predicate Runs(s: State, acts: seq<Action>)
    decreases |acts|
  {
    acts == [] || (Enabled(s, acts[0]) && Runs(Next(s, acts[0]), acts[1..]))
  }

  function After(s: State, acts: seq<Action>): State
    requires Runs(s, acts)
    decreases |acts|
  {
    if acts == [] then s else After(Next(s, acts[0]), acts[1..])
  }

  /** Over every interleaving of producers, drains, frees and address-reusing accepts. */
  lemma {:induction false} EveryRunKeeps(s: State, acts: seq<Action>)
    requires MailboxOk(s) && Runs(s, acts)
    ensures MailboxOk(After(s, acts))
    decreases |acts|
  {
    hide MailboxOk, Next, Enabled;
    if acts != [] {
      NextKeeps(s, acts[0]);
      EveryRunKeeps(Next(s, acts[0]), acts[1..]);
    }
  }

  /**
   * No lost wakeup: over every interleaving of registration, producers and drains, with ops queued and
   * no drain under way the eventfd is readable or a poke is due, and every poke finds the eventfd.
   */
  lemma NoLostWakeup(acts: seq<Action>)
    requires Runs(INITIAL, acts)
    ensures var s := After(INITIAL, acts);
            && (s.phase.Waiting? && s.queue != [] ==> s.counter > 0 || s.pokesDue > 0)
            && (Enabled(s, Poke) ==> s.hasWakeup && Next(s, Poke).counter > 0)
  {
    EveryRunKeeps(INITIAL, acts);
  }

  /**
   * A replay reaches a live connection only, in push order; it reaches the writer's own connection
   * exactly if that was live when the op was pushed; and only ops of freed connections are dropped.
   */
  lemma ReplaysAreSafe(acts: seq<Action>)
    requires Runs(INITIAL, acts)
    ensures var s := After(INITIAL, acts);
            forall i :: 0 <= i < |s.outcomes| ==>
              && s.outcomes[i].entry.number == i
              && !s.outcomes[i].Dangling?
              && (s.outcomes[i].Replayed? ==> (s.outcomes[i].onto == s.outcomes[i].entry.owner <==> s.outcomes[i].entry.inTime))
              && (s.outcomes[i].Dropped? ==> s.outcomes[i].entry.owner in s.freed)
  {
    EveryRunKeeps(INITIAL, acts);
    hide ConnectionsOk, EntryOk;
    var s := After(INITIAL, acts);
    assert forall i :: 0 <= i < |s.outcomes| ==> OutcomeOk(s, s.outcomes[i]);
  }

  /** The step that replays an op finds its target live at that moment. */
  lemma ReplayTargetIsLive(acts: seq<Action>)
    requires Runs(INITIAL, acts)
    ensures var s := After(INITIAL, acts);
            Enabled(s, ReplayNext) ==>
              var o := ReplayOne(s, s.phase.items[0]);
              && !o.Dangling?
              && (o.Replayed? ==> o.onto !in s.freed && o.entry.item.call in s.live && s.live[o.entry.item.call] == o.onto)
  {
    EveryRunKeeps(INITIAL, acts);
    var s := After(INITIAL, acts);
    hide Runs, After, MailboxOk;
    if Enabled(s, ReplayNext) {
      TargetIsLive(s);
    }
  }

  lemma TargetIsLive(s: State)
    requires MailboxOk(s) && Enabled(s, ReplayNext)
    ensures var o := ReplayOne(s, s.phase.items[0]);
            && !o.Dangling?
            && (o.Replayed? ==> o.onto !in s.freed && o.entry.item.call in s.live && s.live[o.entry.item.call] == o.onto)
  {
    assert EntryOk(s, Undone(s)[0]);
    hide InOrder, WakeOk, OutcomeOk;
  }

  /** Freeing a connection settles every op of its own still queued: none of them is replayed. */
  lemma FreedOpsAreNulled(acts: seq<Action>)
    requires Runs(INITIAL, acts)
    ensures var s := After(INITIAL, acts);
            forall i :: 0 <= i < |Undone(s)| && Undone(s)[i].inTime && Undone(s)[i].owner in s.freed ==>
              Undone(s)[i].item.call == NULL && ReplayOne(s, Undone(s)[i]).Dropped?
  {
    EveryRunKeeps(INITIAL, acts);
    hide ConnectionsOk;
    var s := After(INITIAL, acts);
    assert forall i :: 0 <= i < |Undone(s)| ==> EntryOk(s, Undone(s)[i]);
  }

  /** The stronger claim fails: pushed after the free, an op reaches the next connection at that address. */
  lemma StaleOpCanReachAnother()
    ensures exists acts, i: nat :: Runs(INITIAL, acts) && i < |After(INITIAL, acts).outcomes| &&
              var o := After(INITIAL, acts).outcomes[i]; o.Replayed? && o.onto != o.entry.owner
  {
    var item := Item(8, 1, [], false, 0);
    var a3, s3 := FreedThenPushed(item);
    var s4 := Next(s3, Accept(8));
    Extend(INITIAL, a3, Accept(8));
    var a4 := a3 + [Accept(8)];
    var s5 := Next(s4, Clear);
    Extend(INITIAL, a4, Clear);
    var a5 := a4 + [Clear];
    var s6 := Next(s5, TakeQueue);
    Extend(INITIAL, a5, TakeQueue);
    var a6 := a5 + [TakeQueue];
    Extend(INITIAL, a6, ReplayNext);
    var s7 := Next(s6, ReplayNext);
    assert s7.outcomes[0] == Replayed(Entry(item, 0, false, 0), 1);
    assert After(INITIAL, a6 + [ReplayNext]) == s7;
  }

  /** Thread 0 is the I/O thread; thread 1 still holds the handle of a connection freed meanwhile. */
  lemma FreedThenPushed(item: Item) returns (acts: seq<Action>, s: State)
    requires item.call == 8
    ensures Runs(INITIAL, acts) && After(INITIAL, acts) == s
    ensures s == INITIAL.(queue := [Entry(item, 0, false, 0)], dead := {8}, handleOf := [8], freed := {0}, pokesDue := 1,
                          hasWakeup := true, ioThread := Some(0), pushed := 1)
  {
    acts := [];
    Extend(INITIAL, acts, BeginRegister(0));
    acts := acts + [BeginRegister(0)];
    s := Next(INITIAL, BeginRegister(0));
    Extend(INITIAL, acts, Publish(0));
    acts := acts + [Publish(0)];
    s := Next(s, Publish(0));
    assert s == INITIAL.(hasWakeup := true, ioThread := Some(0));
    Extend(INITIAL, acts, Accept(8));
    acts := acts + [Accept(8)];
    s := Next(s, Accept(8));
    Extend(INITIAL, acts, Free(8));
    acts := acts + [Free(8)];
    s := Next(s, Free(8));
    assert s.live == map[] && s.queue == [];
    Extend(INITIAL, acts, Push(1, 0, item));
    acts := acts + [Push(1, 0, item)];
    s := Next(s, Push(1, 0, item));
  }

  lemma {:induction false} Extend(s: State, acts: seq<Action>, a: Action)
    requires Runs(s, acts) && Enabled(After(s, acts), a)
    ensures Runs(s, acts + [a]) && After(s, acts + [a]) == Next(After(s, acts), a)
    decreases |acts|
  {
    hide Next, Enabled;
    if acts == [] {
      assert acts + [a] == [a];
      assert Runs(Next(s, a), []);
    } else {
      Extend(Next(s, acts[0]), acts[1..], a);
      assert (acts + [a])[1..] == acts[1..] + [a];
    }
  }

  // ---- the object carries out the protocol's steps ----

  function Items(es: seq<Entry>): (r: seq<Item>)
    ensures |r| == |es| && forall i :: 0 <= i < |es| ==> r[i] == es[i].item
  {
    seq(|es|, i requires 0 <= i < |es| => es[i].item)
  }

  lemma ScrubAgrees(es: seq<Entry>, call: int)
    ensures Items(ScrubEntries(es, call)) == Scrubbed(Items(es), call)
  {
  }

  /** The entries the protocol does not drop. */
  function Undropped(s: State, es: seq<Entry>): seq<Entry> {
    if es == [] then []
    else (if ReplayOne(s, es[0]).Dropped? then [] else [es[0]]) + Undropped(s, es[1..])
  }

  /** With the protocol's tombstones the object replays exactly the entries the protocol does not drop. */
  lemma {:induction false} DrainAgrees(s: State, es: seq<Entry>, dead: seq<int>)
    requires forall h :: h in dead <==> h in s.dead
    ensures Survivors(Items(es), dead) == Items(Undropped(s, es))
  {
    if es != [] {
      DrainAgrees(s, es[1..], dead);
      assert Items(es)[1..] == Items(es[1..]);
      assert Items([es[0]]) == [es[0].item];
      assert forall a: seq<Entry>, b: seq<Entry> :: Items(a + b) == Items(a) + Items(b);
    } else {
      assert Items(es) == [];
    }
  }
}
