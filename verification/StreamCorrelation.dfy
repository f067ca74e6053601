/**
 End-to-end correlation by stream ID: whatever the interleaving, a reply travels
 under the ID of the stream whose handler's request it answers. In runs of any
 length with this repository's clients.
 */
module StreamCorrelation {
  import opened Text
  import opened Streams

  // ---------------------------------------------------------------------------
  // The invariant

  /** The envelope is the one its proxy handler builds. */
  predicate Genuine(s: State, e: Envelope) {
    e.proxy < |s.proxies| && s.proxies[e.proxy].request == e.request
  }

  /** The proxy handler `p` has opened a stream with this ID. */
  predicate HasId(s: State, p: nat, id: nat) {
    exists n :: 0 <= n < |s.streams| && s.streams[n].opener == p && s.streams[n].id == id
  }

  /** The wire ID `id` is that of a stream which proxy handler `p` opened. */
  predicate Names(s: State, id: string, p: nat) {
    ParseUint32(id).Some? && HasId(s, p, ParseUint32(id).value)
  }

  /** Wire ID and envelope belong to the same request. */
  predicate Paired(s: State, id: string, e: Envelope) {
    Genuine(s, e) && Names(s, id, e.proxy)
  }

  /** The reply answers the request of a handler whose stream has the ID of stream `n`. */
  predicate ReplyFor(s: State, n: nat, r: Reply) {
    n < |s.streams| && Genuine(s, r.to) && HasId(s, r.to.proxy, s.streams[n].id)
  }

  predicate ProxyOk(s: State, p: nat)
    requires p < |s.proxies|
  {
    var x := s.proxies[p];
    && (x.phase != Chosen ==> x.stream < |s.streams| && s.streams[x.stream].opener == p)
    && (x.outcome.Replied? ==> x.phase != Chosen && ReplyFor(s, x.stream, x.outcome.reply))
  }

  predicate StreamOk(s: State, n: nat)
    requires n < |s.streams|
  {
    s.streams[n].id == StreamIdOf(n) && (s.streams[n].response.Some? ==> ReplyFor(s, n, s.streams[n].response.value))
  }

  predicate DownOk(s: State, f: DownFrame) {
    match f
    case OpenFrame(id, p) => Names(s, id, p)
    case RequestFrame(id, e) => Paired(s, id, e)
  }

  predicate UpOk(s: State, f: UpFrame) {
    f.ReplyFrame? ==> Paired(s, f.streamId, f.reply.to)
  }

  predicate ConnOk(s: State, c: Conn) {
    && (forall i | 0 <= i < |c.down| :: DownOk(s, c.down[i]))
    && (forall i | 0 <= i < |c.up| :: UpOk(s, c.up[i]))
    && (forall id | id in c.table :: c.table[id] < |s.streams| && s.streams[c.table[id]].id == id)
    && (c.reader.Delivering? ==> ReplyFor(s, c.reader.stream, c.reader.reply))
  }

  predicate ClientOk(s: State, k: Client) {
    && (forall id | id in k.pending :: k.pending[id] < |s.handlers| && s.handlers[k.pending[id]].streamId == id)
    && (k.reader.Handing? ==>
          k.reader.handler < |s.handlers| && Paired(s, s.handlers[k.reader.handler].streamId, k.reader.envelope))
  }

  predicate HandlerOk(s: State, h: Handler) {
    && Names(s, h.streamId, h.opener)
    && (h.slot.Some? ==> Paired(s, h.streamId, h.slot.value))
    && (h.phase.Working? ==> Paired(s, h.streamId, h.phase.envelope))
  }

  predicate Inv(s: State) {
    && Valid(s)
    && (forall p | 0 <= p < |s.proxies| :: ProxyOk(s, p))
    && (forall n | 0 <= n < |s.streams| :: StreamOk(s, n))
    && (forall c | 0 <= c < |s.conns| :: ConnOk(s, s.conns[c]))
    && (forall k | 0 <= k < |s.clients| :: ClientOk(s, s.clients[k]))
    && (forall h | 0 <= h < |s.handlers| :: HandlerOk(s, s.handlers[h]))
  }

  // ---------------------------------------------------------------------------
  // What a step leaves alone stays good

  lemma StreamStays(s: State, r: State, n: nat)
    requires n < |s.streams| && StreamOk(s, n) && Grows(s, r)
    requires r.streams[n].response == s.streams[n].response
    ensures StreamOk(r, n)
  {
  }

  lemma DownStays(s: State, r: State, f: DownFrame)
    requires DownOk(s, f) && Grows(s, r)
    ensures DownOk(r, f)
  {
  }

  lemma ConnStays(s: State, r: State, c: Conn)
    requires ConnOk(s, c) && Grows(s, r)
    ensures ConnOk(r, c)
  {
  }

  lemma ClientStays(s: State, r: State, k: Client)
    requires ClientOk(s, k) && Grows(s, r)
    ensures ClientOk(r, k)
  {
  }

  lemma HandlerStays(s: State, r: State, h: Handler)
    requires HandlerOk(s, h) && Grows(s, r)
    ensures HandlerOk(r, h)
  {
  }

  /** To keep the invariant it is enough to look at what the step changed. */
  lemma InvFromChanges(s: State, r: State)
    requires Inv(s) && Valid(r) && Grows(s, r)
    requires forall p | 0 <= p < |r.proxies| ::
               (p < |s.proxies| && r.proxies[p] == s.proxies[p]) || ProxyOk(r, p)
    requires forall n | 0 <= n < |r.streams| ::
               (n < |s.streams| && r.streams[n].response == s.streams[n].response) || StreamOk(r, n)
    requires forall c | 0 <= c < |r.conns| ::
               (c < |s.conns| && r.conns[c] == s.conns[c]) || ConnOk(r, r.conns[c])
    requires forall k | 0 <= k < |r.clients| ::
               (k < |s.clients| && r.clients[k] == s.clients[k]) || ClientOk(r, r.clients[k])
    requires forall h | 0 <= h < |r.handlers| ::
               (h < |s.handlers| && r.handlers[h] == s.handlers[h]) || HandlerOk(r, r.handlers[h])
    ensures Inv(r)
  {
    forall p | 0 <= p < |r.proxies|
      ensures ProxyOk(r, p)
    {
      if p < |s.proxies| && r.proxies[p] == s.proxies[p] {
        assert ProxyOk(s, p);
      }
    }
    forall n | 0 <= n < |r.streams|
      ensures StreamOk(r, n)
    {
      if n < |s.streams| && r.streams[n].response == s.streams[n].response {
        StreamStays(s, r, n);
      }
    }
    forall c | 0 <= c < |r.conns|
      ensures ConnOk(r, r.conns[c])
    {
      if c < |s.conns| && r.conns[c] == s.conns[c] {
        ConnStays(s, r, s.conns[c]);
      }
    }
    forall k | 0 <= k < |r.clients|
      ensures ClientOk(r, r.clients[k])
    {
      if k < |s.clients| && r.clients[k] == s.clients[k] {
        ClientStays(s, r, s.clients[k]);
      }
    }
    forall h | 0 <= h < |r.handlers|
      ensures HandlerOk(r, r.handlers[h])
    {
      if h < |s.handlers| && r.handlers[h] == s.handlers[h] {
        HandlerStays(s, r, s.handlers[h]);
      }
    }
  }

  // ---------------------------------------------------------------------------
  // Every step keeps the invariant

  lemma AllocateKeeps(s: State, p: nat)
    requires Inv(s) && ProxyAt(s, p, Chosen)
    ensures Inv(DoAllocate(s, p))
  {
    assert ProxyOk(s, p);
    InvFromChanges(s, DoAllocate(s, p));
  }

  lemma TakeResponseKeeps(s: State, p: nat)
    requires Inv(s) && ProxyEnabled(s, p, TakeResponse)
    ensures Inv(DoTakeResponse(s, p))
  {
    assert ProxyOk(s, p) && StreamOk(s, s.proxies[p].stream);
    InvFromChanges(s, DoTakeResponse(s, p));
  }

  lemma FailKeeps(s: State, p: nat, outcome: Outcome)
    requires Inv(s) && ProxyAt(s, p, Waiting) && !outcome.Replied?
    ensures Inv(DoFail(s, p, outcome))
  {
    assert ProxyOk(s, p);
    InvFromChanges(s, DoFail(s, p, outcome));
  }

  lemma InsertKeeps(s: State, p: nat)
    requires Inv(s) && ProxyAt(s, p, Allocated)
    ensures Inv(DoInsert(s, p))
  {
    assert ProxyOk(s, p);
    var r := DoInsert(s, p);
    ConnStays(s, r, s.conns[s.proxies[p].conn]);
    InvFromChanges(s, r);
  }

  lemma LockKeeps(s: State, p: nat)
    requires Inv(s) && ProxyEnabled(s, p, Lock)
    ensures Inv(DoLock(s, p))
  {
    assert ProxyOk(s, p);
    var r := DoLock(s, p);
    ConnStays(s, r, s.conns[s.proxies[p].conn]);
    InvFromChanges(s, r);
  }

  lemma BodyKeeps(s: State, p: nat, ok: bool)
    requires Inv(s) && ProxyAt(s, p, OpenSent)
    ensures Inv(DoBody(s, p, ok))
  {
    assert ProxyOk(s, p);
    InvFromChanges(s, DoBody(s, p, ok));
  }

  /** The frame that a handler writes pairs its stream's wire ID with its own request. */
  lemma FrameIsPaired(s: State, p: nat)
    requires Inv(s) && p < |s.proxies| && Writing(s.proxies[p].phase)
    ensures DownOk(s, FrameOf(s, p))
  {
    var n := s.proxies[p].stream;
    assert ProxyOk(s, p) && StreamOk(s, n);
    ParseOfDecimal(StreamIdOf(n));
  }

  lemma WriteFailedKeeps(s: State, c: nat)
    requires Inv(s) && WriterAt(s, c)
    ensures Inv(DoWritten(s, c, false))
  {
    var r := DoWritten(s, c, false);
    assert ProxyOk(s, s.conns[c].writer.value);
    ConnStays(s, r, s.conns[c]);
    InvFromChanges(s, r);
  }

  lemma WrittenKeeps(s: State, c: nat)
    requires Inv(s) && WriterAt(s, c)
    ensures Inv(DoWritten(s, c, true))
  {
    var p := s.conns[c].writer.value;
    var r := DoWritten(s, c, true);
    assert ProxyOk(s, p);
    FrameIsPaired(s, p);
    ConnStays(s, r, s.conns[c]);
    DownStays(s, r, FrameOf(s, p));
    InvFromChanges(s, r);
  }

  lemma CloseStreamKeeps(s: State, c: nat, id: nat)
    requires Inv(s) && c < |s.conns|
    ensures Inv(CloseStream(s, c, id))
  {
    var r := CloseStream(s, c, id);
    ConnStays(s, r, s.conns[c]);
    InvFromChanges(s, r);
  }

  lemma CloseOwnKeeps(s: State, p: nat)
    requires Inv(s) && ProxyAt(s, p, Closing)
    ensures Inv(DoCloseOwn(s, p))
  {
    var m := CloseStream(s, s.proxies[p].conn, s.streams[s.proxies[p].stream].id);
    CloseStreamKeeps(s, s.proxies[p].conn, s.streams[s.proxies[p].stream].id);
    assert ProxyOk(m, p);
    InvFromChanges(m, DoCloseOwn(s, p));
  }

  lemma PopKeeps(s: State, c: nat)
    requires Inv(s) && c < |s.conns| && s.conns[c].up != []
    ensures Inv(SetConn(s, c, s.conns[c].(up := s.conns[c].up[1..])))
  {
    var r := SetConn(s, c, s.conns[c].(up := s.conns[c].up[1..]));
    ConnStays(s, r, s.conns[c]);
    InvFromChanges(s, r);
  }

  lemma StartDeliveryKeeps(s: State, c: nat, n: nat, reply: Reply)
    requires Inv(s) && c < |s.conns| && ReplyFor(s, n, reply)
    ensures Inv(StartDelivery(s, c, n, reply))
  {
    var r := StartDelivery(s, c, n, reply);
    ConnStays(s, r, s.conns[c]);
    InvFromChanges(s, r);
  }

  /** The stream that the read loop finds under a reply's wire ID has the ID of the sender's stream. */
  lemma LookupFindsSameId(s: State, c: nat, id: string, e: Envelope)
    requires Inv(s) && c < |s.conns| && Paired(s, id, e)
    requires ParseUint32(id).value in s.conns[c].table
    ensures var n := s.conns[c].table[ParseUint32(id).value];
            n < |s.streams| && HasId(s, e.proxy, s.streams[n].id)
  {
    assert ConnOk(s, s.conns[c]);
  }

  lemma ServerReadKeeps(s: State, c: nat)
    requires Inv(s) && c < |s.conns| && s.conns[c].up != []
    ensures Inv(DoServerRead(s, c))
  {
    var f := s.conns[c].up[0];
    var popped := SetConn(s, c, s.conns[c].(up := s.conns[c].up[1..]));
    PopKeeps(s, c);
    var id := ParseUint32(f.streamId);
    if id.Some? && f.CloseFrame? {
      CloseStreamKeeps(popped, c, id.value);
    } else if id.Some? && id.value in s.conns[c].table {
      assert UpOk(s, f);
      LookupFindsSameId(s, c, f.streamId, f.reply.to);
      StartDeliveryKeeps(popped, c, s.conns[c].table[id.value], f.reply);
    }
  }

  lemma ServerDeliverKeeps(s: State, c: nat)
    requires Inv(s) && ServerEnabled(s, c, Deliver)
    ensures Inv(DoServerDeliver(s, c))
  {
    var r := DoServerDeliver(s, c);
    assert StreamOk(s, s.conns[c].reader.stream);
    ConnStays(s, r, s.conns[c]);
    InvFromChanges(s, r);
  }

  lemma ServerEndKeeps(s: State, c: nat)
    requires Inv(s) && c < |s.conns|
    ensures Inv(DoServerGiveUp(s, c)) && Inv(DoServerExit(s, c))
  {
    ConnStays(s, DoServerGiveUp(s, c), s.conns[c]);
    InvFromChanges(s, DoServerGiveUp(s, c));
    ConnStays(s, DoServerExit(s, c), s.conns[c]);
    InvFromChanges(s, DoServerExit(s, c));
  }

  lemma LoseDownKeeps(s: State, c: nat, kept: nat)
    requires Inv(s) && c < |s.conns| && kept <= |s.conns[c].down|
    ensures Inv(DoLoseDown(s, c, kept))
  {
    ConnStays(s, DoLoseDown(s, c, kept), s.conns[c]);
    InvFromChanges(s, DoLoseDown(s, c, kept));
  }

  lemma LoseUpKeeps(s: State, c: nat, kept: nat)
    requires Inv(s) && c < |s.conns| && kept <= |s.conns[c].up|
    ensures Inv(DoLoseUp(s, c, kept))
  {
    ConnStays(s, DoLoseUp(s, c, kept), s.conns[c]);
    InvFromChanges(s, DoLoseUp(s, c, kept));
  }

  lemma ClientReadKeeps(s: State, k: nat)
    requires Inv(s) && ClientEnabled(s, k, Receive)
    ensures Inv(DoClientRead(s, k))
  {
    var r := DoClientRead(s, k);
    var conn := s.conns[s.clients[k].conn.value];
    ConnStays(s, r, conn);
    ClientStays(s, r, s.clients[k]);
    assert DownOk(r, conn.down[0]);
    InvFromChanges(s, r);
  }

  lemma ClientHandKeeps(s: State, k: nat)
    requires Inv(s) && ClientEnabled(s, k, Hand)
    ensures Inv(DoClientHand(s, k))
  {
    var r := DoClientHand(s, k);
    ClientStays(s, r, s.clients[k]);
    HandlerStays(s, r, s.handlers[s.clients[k].reader.handler]);
    InvFromChanges(s, r);
  }

  lemma ResetKeeps(s: State, k: nat)
    requires Inv(s) && k < |s.clients|
    ensures Inv(DoClientReset(s, k))
  {
    ClientStays(s, DoClientReset(s, k), s.clients[k]);
    InvFromChanges(s, DoClientReset(s, k));
  }

  lemma AttachKeeps(s: State, k: nat)
    requires Inv(s) && k < |s.clients|
    ensures Inv(DoClientAttach(s, k))
  {
    ClientStays(s, DoClientAttach(s, k), s.clients[k]);
    InvFromChanges(s, DoClientAttach(s, k));
  }

  lemma HandlerLocalKeeps(s: State, h: nat)
    requires Inv(s) && h < |s.handlers|
    ensures Inv(DoHandlerAbandon(s, h))
    ensures s.handlers[h].slot.Some? ==> Inv(DoHandlerTake(s, h))
  {
    HandlerStays(s, DoHandlerAbandon(s, h), s.handlers[h]);
    InvFromChanges(s, DoHandlerAbandon(s, h));
    if s.handlers[h].slot.Some? {
      HandlerStays(s, DoHandlerTake(s, h), s.handlers[h]);
      InvFromChanges(s, DoHandlerTake(s, h));
    }
  }

  lemma HandlerPendingKeeps(s: State, h: nat)
    requires Inv(s) && h < |s.handlers|
    ensures Inv(DoHandlerRegister(s, h)) && Inv(DoHandlerEnd(s, h))
  {
    var r, q := DoHandlerRegister(s, h), DoHandlerEnd(s, h);
    HandlerStays(s, r, s.handlers[h]);
    ClientStays(s, r, s.clients[s.handlers[h].client]);
    InvFromChanges(s, r);
    HandlerStays(s, q, s.handlers[h]);
    ClientStays(s, q, s.clients[s.handlers[h].client]);
    InvFromChanges(s, q);
  }

  lemma HandlerReplyKeeps(s: State, h: nat, body: string, ok: bool)
    requires Inv(s) && HandlerEnabled(s, h, Answer(body, ok))
    ensures Inv(DoHandlerReply(s, h, body, ok))
  {
    var r := DoHandlerReply(s, h, body, ok);
    HandlerStays(s, r, s.handlers[h]);
    if ok {
      ConnStays(s, r, s.conns[s.clients[s.handlers[h].client].conn.value]);
    }
    InvFromChanges(s, r);
  }

  lemma HandlerCloseKeeps(s: State, h: nat, ok: bool)
    requires Inv(s) && HandlerEnabled(s, h, SendClose(ok))
    ensures Inv(DoHandlerClose(s, h, ok))
  {
    var r := DoHandlerClose(s, h, ok);
    HandlerStays(s, r, s.handlers[h]);
    if ok {
      ConnStays(s, r, s.conns[s.clients[s.handlers[h].client].conn.value]);
    }
    InvFromChanges(s, r);
  }

  lemma ProxyStepKeeps(s: State, p: nat, step: ProxyStep)
    requires Inv(s) && ProxyEnabled(s, p, step)
    ensures Inv(DoProxy(s, p, step))
  {
    match step
    case Allocate => AllocateKeeps(s, p);
    case Insert => InsertKeeps(s, p);
    case Lock => LockKeeps(s, p);
    case TakeResponse => TakeResponseKeeps(s, p);
    case TakeDone => FailKeeps(s, p, BadGateway);
    case TimeOut => FailKeeps(s, p, GatewayTimeout);
    case CloseOwn => CloseOwnKeeps(s, p);
  }

  lemma ServerStepKeeps(s: State, c: nat, step: ServerStep)
    requires Inv(s) && ServerEnabled(s, c, step)
    ensures Inv(DoServer(s, c, step))
  {
    match step
    case Read => ServerReadKeeps(s, c);
    case Deliver => ServerDeliverKeeps(s, c);
    case GiveUp => ServerEndKeeps(s, c);
    case Exit => ServerEndKeeps(s, c);
  }

  lemma ClientStepKeeps(s: State, k: nat, step: ClientStep)
    requires Inv(s) && ClientEnabled(s, k, step)
    ensures Inv(DoClient(s, k, step))
  {
    match step
    case Receive => ClientReadKeeps(s, k);
    case Hand => ClientHandKeeps(s, k);
    case Reset => ResetKeeps(s, k);
    case Attach => AttachKeeps(s, k);
  }

  lemma HandlerStepKeeps(s: State, h: nat, step: HandlerStep)
    requires Inv(s) && HandlerEnabled(s, h, step)
    ensures Inv(DoHandler(s, h, step))
  {
    match step
    case Register => HandlerPendingKeeps(s, h);
    case Take => HandlerLocalKeeps(s, h);
    case Answer(body, ok) => HandlerReplyKeeps(s, h, body, ok);
    case SendClose(ok) => HandlerCloseKeeps(s, h, ok);
    case Abandon => HandlerLocalKeeps(s, h);
    case End => HandlerPendingKeeps(s, h);
  }

  lemma StepKeepsInv(s: State, step: Step)
    requires Inv(s) && !step.Foreign?
    ensures Inv(Next(s, step))
  {
    if Enabled(s, step) {
      match step
      case Arrive(c, request) => InvFromChanges(s, DoArrive(s, c, request));
      case Body(p, ok) => BodyKeeps(s, p, ok);
      case Written(c, ok) =>
        if ok {
          WrittenKeeps(s, c);
        } else {
          WriteFailedKeeps(s, c);
        }
      case OfProxy(p, x) => ProxyStepKeeps(s, p, x);
      case OfServer(c, x) => ServerStepKeeps(s, c, x);
      case OfClient(k, x) => ClientStepKeeps(s, k, x);
      case OfHandler(h, x) => HandlerStepKeeps(s, h, x);
      case LoseDown(c, kept) => LoseDownKeeps(s, c, kept);
      case LoseUp(c, kept) => LoseUpKeeps(s, c, kept);
    }
  }

  // ---------------------------------------------------------------------------
  // Every run

  lemma {:induction false} RunKeepsInv(s: State, steps: seq<Step>)
    requires Inv(s) && OwnClients(steps)
    ensures Inv(Exec(s, steps))
    decreases |steps|
  {
    if steps == [] {
    } else {
      StepKeepsInv(s, steps[0]);
      RunKeepsInv(Next(s, steps[0]), steps[1..]);
    }
  }

  lemma InitialInv(s: State)
    requires Initial(s)
    ensures Inv(s)
  {
  }

  lemma ReachableInv(s: State)
    requires ReachableByOwnClients(s)
    ensures Inv(s)
  {
    var init: State, steps: seq<Step> :| Initial(init) && OwnClients(steps) && s == Exec(init, steps);
    InitialInv(init);
    RunKeepsInv(init, steps);
  }
}
