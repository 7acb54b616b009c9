/** What every callback and every call of the application keeps of a single stream. */
module StreamProofs {
  import opened Bytes
  import opened Framing
  import opened QueueModel
  import opened QueueProofs
  import opened ConnModel

  /** The response side: when nghttp2 may be waiting, what an ended response has sent, no text before the finish. */
  predicate ProviderOk(s: StreamCtx) {
    && (!s.out.q.finished ==> s.out.q.finalMessage.None?)
    && (s.provider.Unsubmitted? <==> !s.out.q.responseStarted)
    && (!s.provider.Unsubmitted? ==> s.state == Dispatched)
    && (s.provider.Deferred? ==> s.out.q.messages == [] && !s.out.q.finished)
    && (s.provider.Done? ==>
          && s.out.q.messages == [] && s.out.q.finished
          && s.provider == Done(s.out.q.finalStatus, TrailerText(s.out.q)))
  }

  predicate RequestSideOk(s: StreamCtx) {
    s.endStream <==> s.state == Complete || s.state == Dispatched || s.state == Cancelled
  }

  ghost predicate StreamOk(s: StreamCtx) {
    QueueOk(s.out) && ProviderOk(s) && RequestSideOk(s)
  }

  /** The queue guarantees do not depend on the finish flags or the policy. */
  lemma FlagsKeepQueue(t: Traced, q: Queue)
    requires QueueOk(t)
    requires q.messages == t.q.messages && q.frontOffset == t.q.frontOffset && q.frontCommitted == t.q.frontCommitted
    ensures QueueOk(t.(q := q))
  {
    hide Frames, EncodeHeader, Wire, Picks, Newest;
  }

  lemma NewStreamOk(id: int)
    ensures StreamOk(NewStream(id))
  {
    hide QueueOk;
    FreshOk();
  }

  lemma WriteKeeps(s: StreamCtx, body: seq<byte>)
    requires StreamOk(s)
    ensures StreamOk(Written(s, body))
  {
    hide QueueOk, EncodeHeader, Without;
    EnqueueKeepsOk(s.out, body);
  }

  lemma FinishKeeps(s: StreamCtx, status: GrpcStatus, message: Option<seq<byte>>)
    requires StreamOk(s)
    ensures StreamOk(Finished(s, status, message))
  {
    hide QueueOk;
    FlagsKeepQueue(s.out, MarkFinished(s.out.q, status, message));
  }

  /** Frames the peer may still send: nothing that ends the request, once it has ended. */
  predicate PeerMay(s: StreamCtx, c: Change) {
    c.FrameRecv? && (c.headers || c.endStream) ==> !s.endStream
  }

  lemma ChangeKeeps(s: StreamCtx, c: Change)
    requires StreamOk(s) && PeerMay(s, c)
    ensures StreamOk(Changed(s, c))
    ensures Changed(s, c).id == s.id && Changed(s, c).out.shipped == s.out.shipped
    ensures Changed(s, c).cancelHook == s.cancelHook
  {
    hide QueueOk;
    match c {
      case Call(Write(body)) => WriteKeeps(s, body);
      case Call(Finish(status, message)) => FinishKeeps(s, status, message);
      case Call(Policy(bp)) => FlagsKeepQueue(s.out, s.out.q.(backpressure := bp));
      case _ =>
    }
  }

  lemma SubmitKeeps(s: StreamCtx, ok: bool)
    requires QueueOk(s.out) && RequestSideOk(s) && ProviderOk(s) && s.state == Dispatched && s.provider.Unsubmitted?
    ensures StreamOk(Submitted(s, ok)) && StreamOk(Launched(s, ok))
  {
    hide QueueOk;
    FlagsKeepQueue(s.out, s.out.q.(responseStarted := true));
  }

  /** A request turned away: dispatched, finished, and its answer submitted. */
  lemma RefuseKeeps(s: StreamCtx, status: GrpcStatus, ok: bool)
    requires StreamOk(s) && s.state == Complete
    ensures StreamOk(Submitted(FinalizedError(s, status), ok))
  {
    hide QueueOk;
    FlagsKeepQueue(s.out, s.out.q.(finished := true, finalStatus := status));
    SubmitKeeps(FinalizedError(s, status), ok);
  }

  lemma ReturnKeeps(s: StreamCtx, rc: int, ok: bool)
    requires StreamOk(s) && s.state == Complete
    ensures StreamOk(Launched(HandlerReturned(s, rc), ok))
  {
    hide QueueOk;
    FlagsKeepQueue(s.out, HandlerReturned(s, rc).out.q);
    SubmitKeeps(HandlerReturned(s, rc), ok);
  }

  lemma MethodPolicyKeeps(s: StreamCtx, m: MethodEntry)
    requires StreamOk(s)
    ensures StreamOk(WithMethodPolicy(s, m))
  {
    hide QueueOk;
    FlagsKeepQueue(s.out, WithMethodPolicy(s, m).out.q);
  }

  lemma ExpireKeeps(s: StreamCtx)
    requires StreamOk(s)
    ensures StreamOk(Expired(s))
    ensures Expired(s).id == s.id && Expired(s).out.shipped == s.out.shipped
  {
    hide QueueOk;
    FinishKeeps(s.(deadlineMs := None, cancelHook := None), STATUS_DEADLINE_EXCEEDED, Some(DEADLINE_MESSAGE));
  }

  // ---- the read callback ----

  /** A drain that finds no byte to hand out leaves no message behind. */
  lemma EmptyDrainEmpties(q: Queue, room: nat)
    requires WellFormed(q) && Pending(q) == [] && 0 < room
    ensures Drained(q, room).messages == []
  {
    hide EncodeHeader, Wire;
    if q.messages != [] {
      assert Framed(q.messages[0]);
      assert |Wire(q.messages[0])[q.frontOffset..]| == 0;
    }
  }

  lemma DrainKeepsFlags(q: Queue, room: nat)
    requires WellFormed(q)
    ensures var r := Drained(q, room);
            && r.finished == q.finished && r.finalStatus == q.finalStatus && r.finalMessage == q.finalMessage
            && r.responseStarted == q.responseStarted
    decreases |q.messages|, room
  {
    hide EncodeHeader, Wire;
    if 0 < room && q.messages != [] && q.frontOffset + room > FRAME_HEADER_LEN {
      DrainUnfolds(q, room);
      var n := Min(FrontRemaining(q), room);
      DrainKeepsFlags(Popped(Advanced(q, n)), room - n);
    }
  }

  lemma ReadKeeps(s: StreamCtx, window: nat, direct: bool)
    requires StreamOk(s) && s.provider.Active? && 0 < window
    ensures StreamOk(AfterRead(s, window, direct))
  {
    hide EncodeHeader, Wire, Drained, Frames, Picks, Newest, Pending, Promised;
    var r := ReadResultOf(s, window, direct);
    if r.InPlace? {
      StepKeepsOk(s.out, QueueModel.Promise(window));
      PromiseKeepsFlags(s.out.q, window);
    } else {
      StepKeepsOk(s.out, Drain(window));
      DrainKeepsFlags(s.out.q, window);
      if !r.Copied? {
        assert Pending(s.out.q) == [];
        EmptyDrainEmpties(s.out.q, window);
      }
    }
  }

  lemma PromiseKeepsFlags(q: Queue, max: nat)
    requires WellFormed(q)
    ensures Promised(q, max) == q.(frontCommitted := Promised(q, max).frontCommitted)
  {
  }

  lemma SendKeeps(s: StreamCtx, n: nat)
    requires StreamOk(s) && 0 < n && s.out.q.messages != []
    ensures StreamOk(s.(out := TConsume(s.out, n)))
  {
    hide EncodeHeader, Wire, Frames, Picks, Newest;
    StepKeepsOk(s.out, Consume(n));
  }
}
