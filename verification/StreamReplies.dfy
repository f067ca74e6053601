/**
 A reply in the Response channel: `select` may pass it over once Done is closed
 or the timer has fired, and until then, whatever else happens, it cannot be lost.
 In runs of any length, whatever the clients send.
 */
module StreamReplies {
  import opened Results
  import opened Text
  import opened Streams
  import opened StreamIds
  import opened StreamLifecycle
  import opened StreamProgress

  /** The handler waits, the reply is in its Response channel, and Done is open. */
  predicate Buffered(s: State, p: nat, reply: Reply)
    requires Valid(s)
  {
    && ProxyAt(s, p, Waiting)
    && s.streams[s.proxies[p].stream].response == Some(reply) && s.streams[s.proxies[p].stream].closes == 0
  }

  /** `ServeHTTP` has its outcome and is closing its stream. */
  predicate Decided(s: State, p: nat, outcome: Outcome) {
    p < |s.proxies| && (s.proxies[p].phase.Closing? || s.proxies[p].phase.Finished?) && s.proxies[p].outcome == outcome
  }

  /** The reply is still there for the handler to take, or the handler has taken it. */
  predicate Kept(s: State, p: nat, reply: Reply)
    requires Valid(s)
  {
    Buffered(s, p, reply) || Decided(s, p, Replied(reply))
  }

  /** The handler's timer fires, or its stream's Done is closed. */
  predicate Disturbs(s: State, step: Step, p: nat)
    requires Valid(s) && ProxyAt(s, p, Waiting)
  {
    step == OfProxy(p, TimeOut) || Closes(s, step, s.proxies[p].stream)
  }

  lemma OwnStepKeepsIff(s: State, step: Step, p: nat, reply: Reply)
    requires Base(s) && Buffered(s, p, reply) && Moves(s, step, p)
    ensures Kept(Next(s, step), p, reply) <==> !Disturbs(s, step, p)
  {
  }

  /** One step keeps a buffered reply exactly when it neither fires the handler's timer nor closes its Done. */
  lemma StepKeepsReplyIff(s: State, step: Step, p: nat, reply: Reply)
    requires Base(s) && Buffered(s, p, reply)
    ensures Kept(Next(s, step), p, reply) <==> !Disturbs(s, step, p)
  {
    var n := s.proxies[p].stream;
    assert ProxyBase(s, p) && StreamBase(s, n);
    if Moves(s, step, p) {
      OwnStepKeepsIff(s, step, p, reply);
    } else {
      OnlyMovesChangeHandler(s, step, p);
      ResponseStaysUntilTaken(s, step, n);
      DoneClosesIff(s, step, n);
    }
  }

  lemma DecidedStays(s: State, step: Step, p: nat, outcome: Outcome)
    requires Valid(s) && Decided(s, p, outcome)
    ensures Decided(Next(s, step), p, outcome)
  {
    if !Moves(s, step, p) {
      OnlyMovesChangeHandler(s, step, p);
    }
  }

  /** Nothing disturbs the handler in this run while it waits. */
  predicate Undisturbed(s: State, steps: seq<Step>, p: nat)
    requires Valid(s)
    decreases |steps|
  {
    || steps == []
    || (&& (ProxyAt(s, p, Waiting) ==> !Disturbs(s, steps[0], p))
        && Undisturbed(Next(s, steps[0]), steps[1..], p))
  }

  lemma {:induction false} RunKeepsReply(s: State, p: nat, reply: Reply, after: seq<Step>)
    requires Base(s) && Kept(s, p, reply) && Undisturbed(s, after, p)
    ensures Kept(Exec(s, after), p, reply)
    decreases |after|
  {
    if after == [] {
    } else {
      if Buffered(s, p, reply) {
        StepKeepsReplyIff(s, after[0], p, reply);
      } else {
        DecidedStays(s, after[0], p, Replied(reply));
      }
      StepKeepsBase(s, after[0]);
      RunKeepsReply(Next(s, after[0]), p, reply, after[1..]);
    }
  }

  /**
   From every reachable state with a buffered reply, every continuation in
   which the handler's timer does not fire and its stream's Done is not closed
   while it waits leaves the reply in the channel or the handler with that reply.
   */
  lemma BufferedReplyIsKept(s: State, p: nat, reply: Reply, after: seq<Step>)
    requires Valid(s) && Reachable(s) && Buffered(s, p, reply) && Undisturbed(s, after, p)
    ensures Kept(Exec(s, after), p, reply)
  {
    ReachableBase(s);
    RunKeepsReply(s, p, reply, after);
  }

  lemma ClosedDoneMayBeTaken(s: State, step: Step, p: nat)
    requires Base(s) && ProxyAt(s, p, Waiting) && s.streams[s.proxies[p].stream].closes == 0
    requires Closes(s, step, s.proxies[p].stream)
    ensures ProxyEnabled(Next(s, step), p, TakeDone)
  {
    DoneClosesIff(s, step, s.proxies[p].stream);
    OnlyMovesChangeHandler(s, step, p);
  }

  lemma TakenDoneFails(s: State, p: nat)
    requires Valid(s) && ProxyEnabled(s, p, TakeDone)
    ensures Decided(Exec(s, [OfProxy(p, TakeDone)]), p, BadGateway)
  {
    ExecOne(s, OfProxy(p, TakeDone));
  }

  /**
   And after a disturbance the reply can be passed over at once: the caller has
   504 already, or the handler may take Done and give it 502.
   */
  lemma DisturbedReplyMayBePassedOver(s: State, step: Step, p: nat, reply: Reply)
    requires Base(s) && Buffered(s, p, reply) && Disturbs(s, step, p)
    ensures if step == OfProxy(p, TimeOut) then Decided(Next(s, step), p, GatewayTimeout)
            else Decided(Exec(Next(s, step), [OfProxy(p, TakeDone)]), p, BadGateway)
  {
    if step != OfProxy(p, TimeOut) {
      ClosedDoneMayBeTaken(s, step, p);
      TakenDoneFails(Next(s, step), p);
    }
  }

  lemma FewOpensAlone(s: State, n: nat)
    requires Base(s) && |s.streams| <= UINT32 && n < |s.streams|
    ensures Alone(s, n)
  {
    forall q | 0 <= q < |s.proxies| && q != s.streams[n].opener && Held(s.proxies[q].phase)
      ensures s.streams[s.proxies[q].stream].id != s.streams[n].id
    {
      assert ProxyBase(s, q) && StreamBase(s, n) && StreamBase(s, s.proxies[q].stream);
      StreamIdsCollideIff(s.proxies[q].stream, n);
    }
  }

  /**
   What closes the Done of a waiting handler is the read loop of its own
   connection, which reads a close frame for the stream's ID or ends; or else
   the deferred close of a handler at work there whose stream has the same ID,
   so one a multiple of 2^32 opens away.
   */
  lemma OnlyReadLoopCloses(s: State, step: Step, p: nat)
    requires Base(s) && ProxyAt(s, p, Waiting) && Closes(s, step, s.proxies[p].stream)
    ensures || step == OfServer(s.proxies[p].conn, Read) || step == OfServer(s.proxies[p].conn, Exit)
            || (&& step.OfProxy? && step.proxy < |s.proxies| && step.proxy != p && step.proxyStep.CloseOwn?
                && s.proxies[step.proxy].conn == s.proxies[p].conn
                && (s.proxies[step.proxy].stream - s.proxies[p].stream) % UINT32 == 0)
  {
    assert ProxyBase(s, p) && StreamBase(s, s.proxies[p].stream);
    if step.OfProxy? {
      assert ProxyBase(s, step.proxy) && StreamBase(s, s.proxies[step.proxy].stream);
      StreamIdsCollideIff(s.proxies[step.proxy].stream, s.proxies[p].stream);
    }
  }

  /** So only the read loop, while no other such handler is at work. */
  lemma AloneOnlyReadLoopCloses(s: State, step: Step, p: nat)
    requires Base(s) && ProxyAt(s, p, Waiting) && Closes(s, step, s.proxies[p].stream) && Alone(s, s.proxies[p].stream)
    ensures step == OfServer(s.proxies[p].conn, Read) || step == OfServer(s.proxies[p].conn, Exit)
  {
    assert ProxyBase(s, p) && StreamBase(s, s.proxies[p].stream);
  }
}
