/** What the server has of a request is what arrived for it, over every run. */
module ConnReceipt {
  import opened Bytes
  import opened ConnModel
  import opened ConnProofs
  import opened ConnRuns
  import opened ConnHistory
  import opened ConnRequests
  import opened ConnDecisions

  /** The DATA of call `id` among the events, in order of arrival. */
  function ChunkData(evs: seq<Event>, id: int): seq<byte> {
    if evs == [] then []
    else
      (if evs[0].OnCallOf? && evs[0].id == id && evs[0].change.DataChunk? then evs[0].change.data else [])
      + ChunkData(evs[1..], id)
  }

  /** The path values of call `id` among the events. */
  function PathData(evs: seq<Event>, id: int): seq<byte> {
    if evs == [] then []
    else
      (if evs[0].OnCallOf? && evs[0].id == id && evs[0].change.PathHeader? then evs[0].change.value else [])
      + PathData(evs[1..], id)
  }

  /** The call is not closed during the run, and no chunk of it is over the limit. */
  predicate Uninterrupted(st: ConnState, evs: seq<Event>, id: int)
    decreases |evs|
  {
    evs == [] ||
    (&& !(evs[0].Close? && evs[0].id == id) && !(Fails(st, evs[0]) && evs[0].id == id)
     && Uninterrupted(Next(st, evs[0]), evs[1..], id))
  }

  // ---- open calls stay open ----

  lemma OnlyCloseBuries(st: ConnState, ev: Event)
    requires ConnOk(st) && Allowed(st, ev) && !ev.Close?
    ensures Next(st, ev).gone == st.gone
  {
    hide ConnOk, Core, DispatchedFrom, Flushed, OnStream, Swept, SweptHooks;
    match ev {
      case Dispatch(h, submits) => CoreOf(st); PlacesFrom(st, 0, h, submits);
      case Flush(env) => FlushInvokesNothing(st, env);
      case OnCallOf(id, change) => OnStreamBuriesNothing(st, id, change);
      case _ =>
    }
  }

  lemma OnStreamBuriesNothing(st: ConnState, id: int, c: Change)
    ensures OnStream(st, id, c).gone == st.gone
  {
  }

  lemma StaysOpen(st: ConnState, ev: Event, s: StreamCtx, later: StreamCtx)
    requires ConnOk(st) && Allowed(st, ev) && s in st.streams && !(ev.Close? && ev.id == s.id)
    requires later in All(Next(st, ev)) && later.id == s.id
    ensures later in Next(st, ev).streams
  {
    var st' := Next(st, ev);
    if ev.Close? { CloseBuriesOne(st, ev.id, ev.errorCode); } else { OnlyCloseBuries(st, ev); }
    NotBuried(st, s);
    hide ConnOk, Next, Allowed;
    assert later in st'.streams || later in st'.gone;
  }

  lemma CloseBuriesOne(st: ConnState, id: int, errorCode: nat)
    ensures forall x :: x in StreamClosed(st, id, errorCode).gone ==> x in st.gone || x.id == id
  {
  }

  lemma NotBuried(st: ConnState, s: StreamCtx)
    requires ConnOk(st) && s in st.streams
    ensures forall x :: x in st.gone ==> x.id != s.id
  {
    DistinctIds(st);
    hide ConnOk;
    var i :| 0 <= i < |st.streams| && st.streams[i] == s;
    forall x | x in st.gone ensures x.id != s.id {
      var j :| 0 <= j < |st.gone| && st.gone[j] == x;
      assert All(st)[i] == s && All(st)[|st.streams| + j] == x;
    }
  }

  // ---- one event ----

  /** A chunk that fits is appended, a path value too; no other event changes what the call asks. */
  lemma ArrivesOnce(st: ConnState, ev: Event, s: StreamCtx, later: StreamCtx)
    requires ConnOk(st) && Allowed(st, ev) && s in st.streams && !(Fails(st, ev) && ev.id == s.id)
    requires later in All(Next(st, ev)) && later.id == s.id
    ensures later.request == s.request + ChunkData([ev], s.id) && later.path == s.path + PathData([ev], s.id)
  {
    hide ConnOk, Allowed, Next, Evolves, All, Changed, ChunkData, PathData, IndexOf;
    OneEvent(ev, s.id);
    assert s in All(st) by { InAll(st, s); }
    if ev.OnCallOf? && ev.id == s.id && !ev.change.Call? {
      FoundFirst(st, s);
      NextKeeps(st, ev);
      ChangesThis(st, ev, s);
      OneCall(Next(st, ev), Changed(s, ev.change), later);
      Appended(s, ev.change);
    } else {
      NextEvolves(st, ev, s, later);
      Unasked(CauseOf(st, ev), s, later);
    }
  }

  lemma InAll(st: ConnState, s: StreamCtx)
    requires s in st.streams
    ensures s in All(st)
  {
  }

  lemma Appended(s: StreamCtx, c: Change)
    requires !c.Call?
    ensures var r := Changed(s, c);
            && r.id == s.id
            && r.path == s.path + (if c.PathHeader? then c.value else [])
            && (!(c.DataChunk? && |s.request| + |c.data| > c.maxLen) ==>
                  r.request == s.request + if c.DataChunk? then c.data else [])
  {
    assert s.path + [] == s.path && s.request + [] == s.request;
  }

  lemma OneEvent(ev: Event, id: int)
    ensures ChunkData([ev], id) == if ev.OnCallOf? && ev.id == id && ev.change.DataChunk? then ev.change.data else []
    ensures PathData([ev], id) == if ev.OnCallOf? && ev.id == id && ev.change.PathHeader? then ev.change.value else []
  {
    assert [ev][1..] == [];
  }

  lemma FoundFirst(st: ConnState, s: StreamCtx)
    requires ConnOk(st) && s in st.streams
    ensures var k := IndexOf(st.streams, s.id); k < |st.streams| && st.streams[k] == s
  {
    CoreOf(st);
    hide ConnOk;
    var i :| 0 <= i < |st.streams| && st.streams[i] == s;
    FoundAtHome(st, i);
  }

  lemma ChangesThis(st: ConnState, ev: Event, s: StreamCtx)
    requires ev.OnCallOf? && ev.id == s.id && !ev.change.Call?
    requires var k := IndexOf(st.streams, s.id); k < |st.streams| && st.streams[k] == s
    ensures Changed(s, ev.change) in All(Next(st, ev)) && Changed(s, ev.change).id == s.id
  {
    Appended(s, ev.change);
    hide Changed;
    assert All(Next(st, ev))[IndexOf(st.streams, s.id)] == Changed(s, ev.change);
  }

  lemma Unasked(w: Cause, s: StreamCtx, later: StreamCtx)
    requires Evolves(w, s, later) && !AddsToRequest(w, s.id)
    ensures later.request == s.request && later.path == s.path
  {
  }

  // ---- every run ----

  lemma {:induction false} HeadAndTail(evs: seq<Event>, id: int)
    requires evs != []
    ensures ChunkData(evs, id) == ChunkData([evs[0]], id) + ChunkData(evs[1..], id)
    ensures PathData(evs, id) == PathData([evs[0]], id) + PathData(evs[1..], id)
  {
    OneEvent(evs[0], id);
  }

  /**
   * Over every run, interleaved with dispatch, output, deadlines and other calls in any way: a call
   * that stays open has the request it had, followed by all the DATA received for it in the order of
   * arrival, and likewise its path.
   */
  lemma {:induction false} RequestIsWhatArrived(st: ConnState, evs: seq<Event>, s: StreamCtx, later: StreamCtx)
    requires ConnOk(st) && AllowedRun(st, evs) && s in st.streams && Uninterrupted(st, evs, s.id)
    requires later in All(RunConn(st, evs)) && later.id == s.id
    ensures later in RunConn(st, evs).streams
    ensures later.request == s.request + ChunkData(evs, s.id)
    ensures later.path == s.path + PathData(evs, s.id)
    decreases |evs|
  {
    hide ConnOk, Next, Allowed, Evolves, Follows, CauseOf, ChunkData, PathData, Fails, IdsOk;
    assert s in All(st);
    if evs == [] {
      OneCall(st, s, later);
      Silence(s.id);
    } else {
      NextKeeps(st, evs[0]);
      NextFollows(st, evs[0]);
      var s1 := HasLater(CauseOf(st, evs[0]), All(st), All(Next(st, evs[0])), s);
      StaysOpen(st, evs[0], s, s1);
      ArrivesOnce(st, evs[0], s, s1);
      RequestIsWhatArrived(Next(st, evs[0]), evs[1..], s1, later);
      HeadAndTail(evs, s.id);
      hide All;
    }
  }

  lemma Silence(id: int)
    ensures ChunkData([], id) == [] && PathData([], id) == []
  {
  }

  /** A call just opened has asked for nothing. */
  lemma OpensEmpty(st: ConnState, id: int)
    requires ConnOk(st) && Allowed(st, Open(id))
    ensures exists s :: s in Next(st, Open(id)).streams && s.id == id && s.request == [] && s.path == []
  {
    var st' := Next(st, Open(id));
    assert st'.streams[|st.streams|].id == id;
  }

  /** The same for bytes received in one go, which stop at the first chunk over the limit. */
  lemma ReceivedIsWhatArrived(st: ConnState, evs: seq<Event>, s: StreamCtx, later: StreamCtx)
    requires ConnOk(st) && AllowedRun(st, evs) && s in st.streams && !Received(st, evs).failed
    requires forall i :: 0 <= i < |evs| ==> !(evs[i].Close? && evs[i].id == s.id)
    requires later in All(Received(st, evs).st) && later.id == s.id
    ensures later.request == s.request + ChunkData(evs, s.id)
    ensures later.path == s.path + PathData(evs, s.id)
  {
    hide ConnOk, AllowedRun, ChunkData, PathData;
    NothingFails(st, evs, s.id);
    RequestIsWhatArrived(st, evs, s, later);
  }

  lemma {:induction false} NothingFails(st: ConnState, evs: seq<Event>, id: int)
    requires !Received(st, evs).failed && forall i :: 0 <= i < |evs| ==> !(evs[i].Close? && evs[i].id == id)
    ensures Uninterrupted(st, evs, id) && Received(st, evs).st == RunConn(st, evs)
    decreases |evs|
  {
    hide Next, Fails;
    if evs != [] { NothingFails(Next(st, evs[0]), evs[1..], id); }
  }
}
