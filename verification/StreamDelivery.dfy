/**
 When request data reaches its handler in the client. The client registers a
 handler in a goroutine of its own, forgets all handlers when it reconnects, and
 drops data that finds no handler; the data finds its handler exactly when that
 handler has registered since the last reset and has not ended. In runs of any
 length with this repository's clients in which fewer than 2^32 streams are
 opened during the life of any one handler.
 */
module StreamDelivery {
  import opened Results
  import opened Text
  import opened Streams
  import opened StreamIds
  import opened StreamDuty
  import opened StreamCorrelation
  import opened StreamCrossing
  import opened StreamCounts
  import opened StreamRecent

  // ---------------------------------------------------------------------------
  // Frames and handlers are where they belong

  function SenderOf(f: DownFrame): nat {
    match f
    case OpenFrame(_, p) => p
    case RequestFrame(_, e) => e.proxy
  }

  /** Every frame on the connection was sent by a handler of this connection. */
  predicate ConnPlace(s: State, c: nat)
    requires c < |s.conns|
  {
    forall i | 0 <= i < |s.conns[c].down| ::
      SenderOf(s.conns[c].down[i]) < |s.proxies| && s.proxies[SenderOf(s.conns[c].down[i])].conn == c
  }

  /** The client's current connection is one of its own. */
  predicate ClientPlace(s: State, k: nat)
    requires Valid(s) && k < |s.clients|
  {
    s.clients[k].conn.Some? ==> s.conns[s.clients[k].conn.value].client == k
  }

  /** The handler is in the client whose connection its open frame was sent on. */
  predicate HandlerPlace(s: State, h: nat)
    requires Valid(s) && h < |s.handlers|
  {
    var x := s.handlers[h];
    x.opener < |s.proxies| && s.conns[s.proxies[x.opener].conn].client == x.client
  }

  predicate Places(s: State) {
    && Valid(s)
    && (forall c | 0 <= c < |s.conns| :: ConnPlace(s, c))
    && (forall k | 0 <= k < |s.clients| :: ClientPlace(s, k))
    && (forall h | 0 <= h < |s.handlers| :: HandlerPlace(s, h))
  }

  /** Handlers stay on their connections, and connections with their clients. */
  predicate Fixed(s: State, r: State) {
    && |s.proxies| <= |r.proxies| && (forall p | 0 <= p < |s.proxies| :: r.proxies[p].conn == s.proxies[p].conn)
    && |s.conns| <= |r.conns| && (forall c | 0 <= c < |s.conns| :: r.conns[c].client == s.conns[c].client)
    && |s.clients| == |r.clients|
  }

  lemma PlacesFromChanges(s: State, r: State)
    requires Places(s) && Valid(r) && Grows(s, r) && Fixed(s, r)
    requires forall c | 0 <= c < |r.conns| :: (c < |s.conns| && r.conns[c].down == s.conns[c].down) || ConnPlace(r, c)
    requires forall k | 0 <= k < |s.clients| :: r.clients[k].conn == s.clients[k].conn || ClientPlace(r, k)
    requires forall h | |s.handlers| <= h < |r.handlers| :: HandlerPlace(r, h)
    ensures Places(r)
  {
    forall c | 0 <= c < |r.conns|
      ensures ConnPlace(r, c)
    {
      if c < |s.conns| && r.conns[c].down == s.conns[c].down {
        assert ConnPlace(s, c);
      }
    }
    forall k | 0 <= k < |r.clients|
      ensures ClientPlace(r, k)
    {
      assert ClientPlace(s, k);
    }
    forall h | 0 <= h < |r.handlers|
      ensures HandlerPlace(r, h)
    {
      if h < |s.handlers| {
        assert HandlerPlace(s, h) && SameHandler(s.handlers[h], r.handlers[h]);
      }
    }
  }

  lemma ProxyStepKeepsPlaces(s: State, p: nat, step: ProxyStep)
    requires Places(s) && ProxyEnabled(s, p, step)
    ensures Places(DoProxy(s, p, step))
  {
    PlacesFromChanges(s, DoProxy(s, p, step));
  }

  lemma ServerStepKeepsPlaces(s: State, c: nat, step: ServerStep)
    requires Places(s) && ServerEnabled(s, c, step)
    ensures Places(DoServer(s, c, step))
  {
    PlacesFromChanges(s, DoServer(s, c, step));
  }

  lemma HandlerStepKeepsPlaces(s: State, h: nat, step: HandlerStep)
    requires Places(s) && HandlerEnabled(s, h, step)
    ensures Places(DoHandler(s, h, step))
  {
    PlacesFromChanges(s, DoHandler(s, h, step));
  }

  lemma ClientReadKeepsPlaces(s: State, k: nat)
    requires Places(s) && ClientEnabled(s, k, Receive)
    ensures Places(DoClientRead(s, k))
  {
    var c := s.clients[k].conn.value;
    var r := DoClientRead(s, k);
    assert ClientPlace(s, k) && ConnPlace(s, c);
    assert forall i | 0 <= i < |r.conns[c].down| :: r.conns[c].down[i] == s.conns[c].down[i + 1];
    assert ConnPlace(r, c);
    PlacesFromChanges(s, r);
  }

  lemma ClientStepKeepsPlaces(s: State, k: nat, step: ClientStep)
    requires Places(s) && ClientEnabled(s, k, step)
    ensures Places(DoClient(s, k, step))
  {
    match step
    case Receive => ClientReadKeepsPlaces(s, k);
    case _ => PlacesFromChanges(s, DoClient(s, k, step));
  }

  lemma WrittenKeepsPlaces(s: State, c: nat, ok: bool)
    requires Places(s) && WriterAt(s, c)
    ensures Places(DoWritten(s, c, ok))
  {
    var r := DoWritten(s, c, ok);
    assert ConnPlace(s, c);
    assert ConnPlace(r, c);
    PlacesFromChanges(s, r);
  }

  lemma LoseDownKeepsPlaces(s: State, c: nat, kept: nat)
    requires Places(s) && c < |s.conns| && kept <= |s.conns[c].down|
    ensures Places(DoLoseDown(s, c, kept))
  {
    assert ConnPlace(s, c);
    PlacesFromChanges(s, DoLoseDown(s, c, kept));
  }

  lemma StepKeepsPlaces(s: State, step: Step)
    requires Places(s)
    ensures Places(Next(s, step))
  {
    if Enabled(s, step) {
      match step
      case Arrive(c, request) => PlacesFromChanges(s, DoArrive(s, c, request));
      case Body(p, ok) => PlacesFromChanges(s, DoBody(s, p, ok));
      case Written(c, ok) => WrittenKeepsPlaces(s, c, ok);
      case OfProxy(p, x) => ProxyStepKeepsPlaces(s, p, x);
      case OfServer(c, x) => ServerStepKeepsPlaces(s, c, x);
      case OfClient(k, x) => ClientStepKeepsPlaces(s, k, x);
      case OfHandler(h, x) => HandlerStepKeepsPlaces(s, h, x);
      case LoseDown(c, kept) => LoseDownKeepsPlaces(s, c, kept);
      case LoseUp(c, kept) => PlacesFromChanges(s, DoLoseUp(s, c, kept));
      case Foreign(c, f) => PlacesFromChanges(s, DoForeign(s, c, f));
    }
  }

  // ---------------------------------------------------------------------------
  // Every run

  /** Fewer than 2^32 streams have been opened since the one that a handler was spawned for, while it lives. */
  predicate HandlersNear(s: State) {
    forall h | 0 <= h < |s.handlers| && !s.handlers[h].phase.Ended? && s.handlers[h].opener < |s.proxies| ::
      Near(s, s.handlers[h].opener)
  }

  predicate HandlersStayNear(s: State, steps: seq<Step>)
    requires Valid(s)
    decreases |steps|
  {
    HandlersNear(s) && (steps == [] || HandlersStayNear(Next(s, steps[0]), steps[1..]))
  }

  /** The states of all runs of this repository's clients in which that is so throughout. */
  ghost predicate ReachableWithHandlersNear(s: State) {
    exists init: State, steps: seq<Step> ::
      Initial(init) && OwnClients(steps) && HandlersStayNear(init, steps) && s == Exec(init, steps)
  }

  lemma {:induction false} FewOpensHandlersStayNear(s: State, steps: seq<Step>)
    requires Valid(s) && |Exec(s, steps).streams| <= UINT32
    ensures HandlersStayNear(s, steps)
    decreases |steps|
  {
    if steps == [] {
    } else {
      FewOpensHandlersStayNear(Next(s, steps[0]), steps[1..]);
    }
  }

  /** In particular of all runs with at most 2^32 opens. */
  lemma FewOpensReachable(s: State)
    requires ReachableByOwnClients(s) && |s.streams| <= UINT32
    ensures ReachableWithHandlersNear(s)
  {
    var init: State, steps: seq<Step> :| Initial(init) && OwnClients(steps) && s == Exec(init, steps);
    FewOpensHandlersStayNear(init, steps);
  }

  /** Everything this module knows of a state. */
  ghost predicate InOrder(s: State) {
    Base(s) && Inv(s) && Places(s) && Duty(s) && AllSingle(s)
  }

  /** Two handlers near each other with streams of the same ID are one. */
  lemma SameIdSameHandler(s: State, p: nat, q: nat, id: nat)
    requires Base(s) && HasId(s, p, id) && HasId(s, q, id)
    requires p < |s.proxies| && q < |s.proxies| && Near(s, p) && Near(s, q)
    ensures p == q
  {
    OwnId(s, p, id);
    SameIdIff(s, q, s.proxies[p].stream);
    NearHaveNoTwins(s, p, q);
  }

  /** No two handlers that have not ended have the same wire ID. */
  ghost predicate Distinct(s: State) {
    forall g, h | 0 <= g < |s.handlers| && 0 <= h < |s.handlers| && s.handlers[g].streamId == s.handlers[h].streamId ::
      g == h || s.handlers[g].phase.Ended? || s.handlers[h].phase.Ended?
  }

  lemma HandlersDistinct(s: State, g: nat, h: nat)
    requires InOrder(s) && HandlersNear(s) && g < h < |s.handlers|
    requires !s.handlers[g].phase.Ended? && !s.handlers[h].phase.Ended?
    ensures s.handlers[g].streamId != s.handlers[h].streamId
  {
    assert HandlerOk(s, s.handlers[g]) && HandlerOk(s, s.handlers[h]);
    assert HandlerPlace(s, g) && HandlerPlace(s, h) && Single(s, Opening(s.handlers[g].opener));
    if s.handlers[g].streamId == s.handlers[h].streamId {
      SameIdSameHandler(s, s.handlers[g].opener, s.handlers[h].opener, ParseUint32(s.handlers[g].streamId).value);
      TotalAtTwo(s.handlers, InHandler, Opening(s.handlers[g].opener), g, h);
      assert false;
    }
  }

  lemma AllDistinct(s: State)
    requires InOrder(s) && HandlersNear(s)
    ensures Distinct(s)
  {
    forall g, h | 0 <= g < |s.handlers| && 0 <= h < |s.handlers| && g != h
      ensures s.handlers[g].streamId == s.handlers[h].streamId ==>
                s.handlers[g].phase.Ended? || s.handlers[h].phase.Ended?
    {
      if !s.handlers[g].phase.Ended? && !s.handlers[h].phase.Ended? {
        HandlersDistinct(s, if g < h then g else h, if g < h then h else g);
      }
    }
  }

  lemma DistinctDoNotClash(s: State, step: Step)
    requires Valid(s) && Distinct(s)
    ensures !Clashes(s, step)
  {
  }

  lemma StepKeepsAllSingle(s: State, step: Step)
    requires Valid(s) && AllSingle(s) && !step.Foreign?
    ensures AllSingle(Next(s, step))
  {
    forall t
      ensures Single(Next(s, step), t)
    {
      StepKeepsSingle(s, step, t);
    }
  }

  lemma StepKeepsOrder(s: State, step: Step)
    requires InOrder(s) && HandlersNear(s) && !step.Foreign?
    ensures InOrder(Next(s, step))
  {
    AllDistinct(s);
    StepKeepsBase(s, step);
    StepKeepsInv(s, step);
    StepKeepsPlaces(s, step);
    DistinctDoNotClash(s, step);
    StepKeepsDutyIff(s, step);
    StepKeepsAllSingle(s, step);
  }

  lemma {:induction false} RunKeepsOrder(s: State, steps: seq<Step>)
    requires InOrder(s) && OwnClients(steps) && HandlersStayNear(s, steps)
    ensures InOrder(Exec(s, steps)) && HandlersNear(Exec(s, steps))
    decreases |steps|
  {
    if steps == [] {
    } else {
      StepKeepsOrder(s, steps[0]);
      RunKeepsOrder(Next(s, steps[0]), steps[1..]);
    }
  }

  lemma InitialOrder(s: State)
    requires Initial(s)
    ensures InOrder(s)
  {
    InitialInv(s);
    forall t
      ensures Single(s, t)
    {
      InitialSingle(s, t);
    }
  }

  lemma ReachableInOrder(s: State)
    requires ReachableWithHandlersNear(s)
    ensures InOrder(s) && HandlersNear(s)
  {
    var init: State, steps: seq<Step> :|
      Initial(init) && OwnClients(steps) && HandlersStayNear(init, steps) && s == Exec(init, steps);
    InitialOrder(init);
    RunKeepsOrder(init, steps);
  }

  // ---------------------------------------------------------------------------
  // Request data

  /** The client is about to read a request frame. */
  predicate AtRequest(s: State, k: nat)
    requires Valid(s)
  {
    ClientEnabled(s, k, Receive) && s.conns[s.clients[k].conn.value].down[0].RequestFrame?
  }

  function NextFrame(s: State, k: nat): DownFrame
    requires Valid(s) && ClientEnabled(s, k, Receive)
  {
    s.conns[s.clients[k].conn.value].down[0]
  }

  /** And fewer than 2^32 streams have been opened since its sender's. */
  predicate AtRecentRequest(s: State, k: nat)
    requires Valid(s)
  {
    && AtRequest(s, k)
    && (NextFrame(s, k).envelope.proxy < |s.proxies| ==> Near(s, NextFrame(s, k).envelope.proxy))
  }

  lemma DataMeetsHandler(s: State, k: nat, h: nat)
    requires InOrder(s) && HandlersNear(s) && AtRecentRequest(s, k)
    requires h < |s.handlers| && !s.handlers[h].phase.Ended? && s.handlers[h].streamId == NextFrame(s, k).streamId
    ensures s.handlers[h].client == k && s.handlers[h].opener == NextFrame(s, k).envelope.proxy
  {
    var c := s.clients[k].conn.value;
    assert ConnOk(s, s.conns[c]) && DownOk(s, s.conns[c].down[0]) && HandlerOk(s, s.handlers[h]);
    assert ConnPlace(s, c) && ClientPlace(s, k) && HandlerPlace(s, h);
    SameIdSameHandler(s, s.handlers[h].opener, NextFrame(s, k).envelope.proxy,
                      ParseUint32(s.handlers[h].streamId).value);
  }

  lemma PendingIffOnDuty(s: State, k: nat, h: nat)
    requires Duty(s) && k < |s.clients| && h < |s.handlers|
    requires !s.handlers[h].phase.Ended? ==> s.handlers[h].client == k
    ensures s.handlers[h].streamId in s.clients[k].pending && s.clients[k].pending[s.handlers[h].streamId] == h
            <==> OnDuty(s, h)
  {
    assert ClientDuty(s, k) && HandlerDuty(s, h);
  }

  lemma HandsOverIff(s: State, k: nat, h: nat)
    requires Valid(s) && AtRequest(s, k)
    ensures var id := NextFrame(s, k).streamId;
            Next(s, OfClient(k, Receive)).clients[k].reader == Handing(h, NextFrame(s, k).envelope)
            <==> id in s.clients[k].pending && s.clients[k].pending[id] == h
  {
  }

  /**
   When the client reads a request frame, a handler for its wire ID that has not
   ended was spawned for the open frame of the same proxy handler; and the data
   is on its way to a handler for its wire ID if and only if that has registered
   since the last reset and has not ended.
   */
  lemma RequestReachesHandlerIff(s: State, k: nat, h: nat)
    requires Valid(s) && ReachableWithHandlersNear(s) && AtRecentRequest(s, k)
    requires h < |s.handlers| && s.handlers[h].streamId == NextFrame(s, k).streamId
    ensures !s.handlers[h].phase.Ended? ==>
              s.handlers[h].client == k && s.handlers[h].opener == NextFrame(s, k).envelope.proxy
    ensures Next(s, OfClient(k, Receive)).clients[k].reader == Handing(h, NextFrame(s, k).envelope) <==> OnDuty(s, h)
  {
    ReachableInOrder(s);
    if !s.handlers[h].phase.Ended? {
      DataMeetsHandler(s, k, h);
    }
    PendingIffOnDuty(s, k, h);
    HandsOverIff(s, k, h);
  }

  predicate NobodyOnDuty(s: State, id: string)
    requires Valid(s)
  {
    forall h | 0 <= h < |s.handlers| :: !(s.handlers[h].streamId == id && OnDuty(s, h))
  }

  lemma PendingIffSomebodyOnDuty(s: State, k: nat)
    requires InOrder(s) && HandlersNear(s) && AtRecentRequest(s, k)
    ensures NextFrame(s, k).streamId in s.clients[k].pending <==> !NobodyOnDuty(s, NextFrame(s, k).streamId)
  {
    var id := NextFrame(s, k).streamId;
    assert ClientDuty(s, k);
    if id in s.clients[k].pending {
      var h := s.clients[k].pending[id];
      assert s.handlers[h].streamId == id && OnDuty(s, h);
    }
    forall h | 0 <= h < |s.handlers| && s.handlers[h].streamId == id && OnDuty(s, h)
      ensures id in s.clients[k].pending
    {
      DataMeetsHandler(s, k, h);
      PendingIffOnDuty(s, k, h);
    }
  }

  lemma DropsIffNotPending(s: State, k: nat)
    requires Valid(s) && AtRequest(s, k)
    ensures Next(s, OfClient(k, Receive)).clients[k].reader.ClientIdle?
            <==> NextFrame(s, k).streamId !in s.clients[k].pending
  {
  }

  /** Data is dropped exactly when no handler for its wire ID is on duty. */
  lemma RequestDroppedIff(s: State, k: nat)
    requires Valid(s) && ReachableWithHandlersNear(s) && AtRecentRequest(s, k)
    ensures Next(s, OfClient(k, Receive)).clients[k].reader.ClientIdle? <==> NobodyOnDuty(s, NextFrame(s, k).streamId)
  {
    ReachableInOrder(s);
    PendingIffSomebodyOnDuty(s, k);
    DropsIffNotPending(s, k);
  }

  /** No request of a handler whose stream is a multiple of 2^32 opens from that of `p` is anywhere. */
  ghost predicate OnlyOneAsked(s: State, p: nat) {
    p < |s.proxies| ==> forall q | Twin(s, q, s.proxies[p].stream) :: !Asked(s, q)
  }

  /** What is in the channel is not the same request again, and it is somewhere. */
  lemma SlotHoldsAnother(s: State, k: nat)
    requires Valid(s) && AllSingle(s) && ClientEnabled(s, k, Hand)
    requires s.handlers[s.clients[k].reader.handler].slot.Some?
    ensures var q := s.handlers[s.clients[k].reader.handler].slot.value.proxy;
            q != s.clients[k].reader.envelope.proxy && Asked(s, q)
  {
    var r := s.clients[k].reader;
    var q := s.handlers[r.handler].slot.value.proxy;
    assert Single(s, Asking(q));
    TotalAt(s.clients, InClient, Asking(q), k);
    TotalAt(s.handlers, InHandler, Asking(q), r.handler);
  }

  /** Requests that one handler was given have the same ID. */
  lemma SlotHoldsSameId(s: State, k: nat)
    requires Base(s) && Inv(s) && ClientEnabled(s, k, Hand)
    requires s.handlers[s.clients[k].reader.handler].slot.Some?
    ensures var p, q := s.clients[k].reader.envelope.proxy, s.handlers[s.clients[k].reader.handler].slot.value.proxy;
            p < |s.proxies| && (p == q || Twin(s, q, s.proxies[p].stream))
  {
    var r := s.clients[k].reader;
    assert ClientOk(s, s.clients[k]) && HandlerOk(s, s.handlers[r.handler]);
    OwnId(s, r.envelope.proxy, ParseUint32(s.handlers[r.handler].streamId).value);
    SameIdIff(s, s.handlers[r.handler].slot.value.proxy, s.proxies[r.envelope.proxy].stream);
  }

  lemma SlotIsEmpty(s: State, k: nat)
    requires Base(s) && Inv(s) && AllSingle(s) && ClientEnabled(s, k, Hand)
    requires OnlyOneAsked(s, s.clients[k].reader.envelope.proxy)
    ensures s.handlers[s.clients[k].reader.handler].slot.None?
  {
    if s.handlers[s.clients[k].reader.handler].slot.Some? {
      SlotHoldsSameId(s, k);
      SlotHoldsAnother(s, k);
      assert false;
    }
  }

  lemma EmptySlotIsFilled(s: State, k: nat)
    requires Valid(s) && ClientEnabled(s, k, Hand) && s.handlers[s.clients[k].reader.handler].slot.None?
    ensures var r := s.clients[k].reader;
            Next(s, OfClient(k, Hand)).handlers[r.handler] == s.handlers[r.handler].(slot := Some(r.envelope))
  {
  }

  /**
   And data on its way finds the handler's channel empty, in runs of any length,
   unless another request with its ID is somewhere: the client does not drop it
   for a full channel.
   */
  lemma HandedDataIsTaken(s: State, k: nat)
    requires Valid(s) && ReachableByOwnClients(s) && ClientEnabled(s, k, Hand)
    requires OnlyOneAsked(s, s.clients[k].reader.envelope.proxy)
    ensures var r := s.clients[k].reader;
            Next(s, OfClient(k, Hand)).handlers[r.handler] == s.handlers[r.handler].(slot := Some(r.envelope))
  {
    OwnIsReachable(s);
    AllSentAtMostOnce(s);
    SlotIsEmpty(s, k);
    EmptySlotIsFilled(s, k);
  }
}
