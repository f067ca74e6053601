/**
 The stream multiplexing protocol: proxy handlers, the gateway's per-connection
 read loops, and clients, interleaved at the granularity of single
 lock-protected or channel operations.

 Objects the Go code shares by pointer (streams, connections, client handlers)
 are named by their position in a sequence, in creation order, so that a stale
 pointer stays meaningful after the object has left every map. A run is a
 sequence of labels; a label that is not enabled changes nothing, so the runs
 over all label sequences are exactly all interleavings.
 */
module Streams {
  import opened Results
  import opened Text

  /** The JSON request envelope, with the proxy handler that built it. */
  datatype Envelope = Envelope(proxy: nat, request: string)

  /** A JSON response envelope, with the request envelope it was computed from. */
  datatype Reply = Reply(to: Envelope, body: string)

  /** Frames from the gateway to a client; an open frame with the proxy handler that sent it. */
  datatype DownFrame = OpenFrame(streamId: string, opener: nat) | RequestFrame(streamId: string, envelope: Envelope)

  /** Frames from a client to the gateway. */
  datatype UpFrame = ReplyFrame(streamId: string, reply: Reply) | CloseFrame(streamId: string)

  /** `broker.Stream`: the one-slot Response channel, and how often Done was closed. */
  datatype Stream = Stream(id: nat, opener: nat, conn: nat, response: Option<Reply>, closes: nat)

  /**
   How far `ServeHTTP` has come. In `OpenWriting` and `RequestWriting` it is
   inside `WriteMessage` and holds the connection's `sendMu`; in `OpenSent` it is
   reading the caller's body.
   */
  datatype Phase = Chosen | Allocated | Opened | OpenWriting | OpenSent | BodyRead | RequestWriting | Waiting | Closing
                 | Finished

  datatype Outcome = Pending | Replied(reply: Reply) | BadGateway | GatewayTimeout

  datatype Proxy = Proxy(request: string, conn: nat, stream: nat, phase: Phase, outcome: Outcome)

  datatype ServerReader = ServerIdle | Delivering(stream: nat, reply: Reply) | Exited

  /** `broker.ClientConn` with its socket, two FIFO queues, and the holder of `sendMu`. */
  datatype Conn = Conn(client: nat, down: seq<DownFrame>, up: seq<UpFrame>, table: map<nat, nat>,
                       writer: Option<nat>, reader: ServerReader)

  datatype ClientReader = ClientIdle | Handing(handler: nat, envelope: Envelope)

  /** `client.Client`: its current socket, `pendingStreams`, how often `Run` has reset them, and its read loop. */
  datatype Client = Client(conn: Option<nat>, pending: map<string, nat>, resets: nat, reader: ClientReader)

  datatype HandlerPhase = Spawned | Listening | Working(envelope: Envelope) | Answered | Ending | Ended

  /**
   One `handleOpenStream` goroutine with its one-slot `dataCh`: `opener` sent the
   open frame it was spawned for, and `epoch` is how often the client had reset
   its pending streams when it registered.
   */
  datatype Handler = Handler(client: nat, streamId: string, opener: nat, epoch: nat, slot: Option<Envelope>,
                             phase: HandlerPhase)

  datatype State = State(proxies: seq<Proxy>, streams: seq<Stream>, conns: seq<Conn>,
                         clients: seq<Client>, handlers: seq<Handler>)

  /** The steps that one proxy handler takes by itself after it has found its connection. */
  datatype ProxyStep =
    | Allocate
    | Insert
    | Lock
    | TakeResponse
    | TakeDone
    | TimeOut
    | CloseOwn

  /** The steps of one connection's read loop in the gateway. */
  datatype ServerStep = Read | Deliver | GiveUp | Exit

  /** The steps of a client's read loop and of its `Run` loop. */
  datatype ClientStep = Receive | Hand | Reset | Attach

  /** The steps of one client handler. */
  datatype HandlerStep = Register | Take | Answer(body: string, ok: bool) | SendClose(ok: bool) | Abandon | End

  /**
   Besides the parties' own steps: a request arrives, the caller's body ends or
   fails, the network accepts or refuses the frame being written, a dying socket
   loses frames, and a foreign client sends a frame.
   */
  datatype Step =
    | Arrive(conn: nat, request: string)
    | Body(proxy: nat, ok: bool)
    | Written(conn: nat, ok: bool)
    | OfProxy(proxy: nat, proxyStep: ProxyStep)
    | OfServer(conn: nat, serverStep: ServerStep)
    | OfClient(client: nat, clientStep: ClientStep)
    | OfHandler(handler: nat, handlerStep: HandlerStep)
    | LoseDown(conn: nat, kept: nat)
    | LoseUp(conn: nat, kept: nat)
    | Foreign(conn: nat, frame: UpFrame)

  // ---------------------------------------------------------------------------
  // References

  predicate ValidConn(s: State, c: Conn) {
    && c.client < |s.clients|
    && (forall id | id in c.table :: c.table[id] < |s.streams|)
    && (c.reader.Delivering? ==> c.reader.stream < |s.streams|)
  }

  predicate ValidClient(s: State, k: Client) {
    && (k.conn.Some? ==> k.conn.value < |s.conns|)
    && (forall id | id in k.pending :: k.pending[id] < |s.handlers|)
    && (k.reader.Handing? ==> k.reader.handler < |s.handlers|)
  }

  /** Every reference held anywhere names an existing object. */
  predicate Valid(s: State) {
    && (forall p | 0 <= p < |s.proxies| ::
          s.proxies[p].conn < |s.conns| && (s.proxies[p].phase != Chosen ==> s.proxies[p].stream < |s.streams|))
    && (forall n | 0 <= n < |s.streams| :: s.streams[n].opener < |s.proxies| && s.streams[n].conn < |s.conns|)
    && (forall c | 0 <= c < |s.conns| :: ValidConn(s, s.conns[c]))
    && (forall k | 0 <= k < |s.clients| :: ValidClient(s, s.clients[k]))
    && (forall h | 0 <= h < |s.handlers| :: s.handlers[h].client < |s.clients|)
  }

  predicate SameStream(a: Stream, b: Stream) {
    b.opener == a.opener && b.id == a.id && b.conn == a.conn && a.closes <= b.closes
  }

  predicate SameHandler(a: Handler, b: Handler) {
    b.client == a.client && b.streamId == a.streamId && b.opener == a.opener
  }

  /** Nothing is forgotten: requests, openers, IDs and closed Done channels stay as they are. */
  predicate Grows(s: State, r: State) {
    && |s.proxies| <= |r.proxies|
    && (forall p | 0 <= p < |s.proxies| :: r.proxies[p].request == s.proxies[p].request)
    && |s.streams| <= |r.streams|
    && (forall n | 0 <= n < |s.streams| :: SameStream(s.streams[n], r.streams[n]))
    && |s.handlers| <= |r.handlers|
    && (forall h | 0 <= h < |s.handlers| :: SameHandler(s.handlers[h], r.handlers[h]))
  }

  /** A gateway without connections, and any number of clients that have not connected yet. */
  predicate Initial(s: State) {
    && s.proxies == [] && s.streams == [] && s.conns == [] && s.handlers == []
    && (forall k | 0 <= k < |s.clients| :: s.clients[k] == Client(None, map[], 0, ClientIdle))
  }

  // ---------------------------------------------------------------------------
  // Broker operations

  /** `broker.OpenStream`'s counter: the ID of the n-th stream opened, counting from 0. */
  function StreamIdOf(n: nat): nat {
    (n + 1) % UINT32
  }

  /** `select { case <-s.Done: default: close(s.Done) }`. */
  function CloseDone(st: Stream): Stream {
    if st.closes > 0 then st else st.(closes := st.closes + 1)
  }

  /** `broker.CloseStream`. */
  function CloseStream(s: State, c: nat, id: nat): (r: State)
    requires Valid(s) && c < |s.conns|
    ensures Valid(r) && Grows(s, r)
  {
    var table := s.conns[c].table;
    if id !in table then s
    else
      s.(streams := s.streams[table[id] := CloseDone(s.streams[table[id]])],
         conns := s.conns[c := s.conns[c].(table := table - {id})])
  }

  /** The part of `broker.RemoveConnection` that touches streams. */
  function CloseAll(streams: seq<Stream>, table: map<nat, nat>): (r: seq<Stream>)
    ensures |r| == |streams|
  {
    seq(|streams|, i requires 0 <= i < |streams| =>
      if i in table.Values then CloseDone(streams[i]) else streams[i])
  }

  // ---------------------------------------------------------------------------
  // Small updates

  function SetProxy(s: State, p: nat, x: Proxy): State
    requires p < |s.proxies|
  {
    s.(proxies := s.proxies[p := x])
  }

  function SetConn(s: State, c: nat, x: Conn): State
    requires c < |s.conns|
  {
    s.(conns := s.conns[c := x])
  }

  function SetClient(s: State, k: nat, x: Client): State
    requires k < |s.clients|
  {
    s.(clients := s.clients[k := x])
  }

  function SetHandler(s: State, h: nat, x: Handler): State
    requires h < |s.handlers|
  {
    s.(handlers := s.handlers[h := x])
  }

  function SetStream(s: State, n: nat, x: Stream): State
    requires n < |s.streams|
  {
    s.(streams := s.streams[n := x])
  }

  function PushUp(s: State, c: nat, f: UpFrame): State
    requires c < |s.conns|
  {
    SetConn(s, c, s.conns[c].(up := s.conns[c].up + [f]))
  }

  // ---------------------------------------------------------------------------
  // Steps

  predicate ProxyAt(s: State, p: nat, f: Phase) {
    p < |s.proxies| && s.proxies[p].phase == f
  }

  /** Inside `WriteMessage`. */
  predicate Writing(f: Phase) {
    f.OpenWriting? || f.RequestWriting?
  }

  /** About to lock `sendMu`. */
  predicate Sending(f: Phase) {
    f.Opened? || f.BodyRead?
  }

  predicate ProxyEnabled(s: State, p: nat, step: ProxyStep)
    requires Valid(s)
  {
    match step
    case Allocate => ProxyAt(s, p, Chosen)
    case Insert => ProxyAt(s, p, Allocated)
    case Lock => p < |s.proxies| && Sending(s.proxies[p].phase) && s.conns[s.proxies[p].conn].writer.None?
    case TakeResponse => ProxyAt(s, p, Waiting) && s.streams[s.proxies[p].stream].response.Some?
    case TakeDone => ProxyAt(s, p, Waiting) && s.streams[s.proxies[p].stream].closes > 0
    case TimeOut => ProxyAt(s, p, Waiting)
    case CloseOwn => ProxyAt(s, p, Closing)
  }

  predicate ServerEnabled(s: State, c: nat, step: ServerStep)
    requires Valid(s)
  {
    && c < |s.conns|
    && match step
       case Read => s.conns[c].reader.ServerIdle? && s.conns[c].up != []
       case Deliver => s.conns[c].reader.Delivering? && s.streams[s.conns[c].reader.stream].response.None?
       case GiveUp => s.conns[c].reader.Delivering? && s.streams[s.conns[c].reader.stream].closes > 0
       case Exit => s.conns[c].reader.ServerIdle?
  }

  predicate ClientEnabled(s: State, k: nat, step: ClientStep)
    requires Valid(s)
  {
    && k < |s.clients|
    && match step
       case Receive =>
         s.clients[k].reader.ClientIdle? && s.clients[k].conn.Some? && s.conns[s.clients[k].conn.value].down != []
       case Hand => s.clients[k].reader.Handing?
       case Reset => s.clients[k].reader.ClientIdle?
       case Attach => s.clients[k].reader.ClientIdle?
  }

  predicate HandlerEnabled(s: State, h: nat, step: HandlerStep)
    requires Valid(s)
  {
    && h < |s.handlers|
    && match step
       case Register => s.handlers[h].phase.Spawned?
       case Take => s.handlers[h].phase.Listening? && s.handlers[h].slot.Some?
       case Answer(_, ok) => s.handlers[h].phase.Working? && (ok ==> s.clients[s.handlers[h].client].conn.Some?)
       case SendClose(ok) => s.handlers[h].phase.Answered? && (ok ==> s.clients[s.handlers[h].client].conn.Some?)
       case Abandon => s.handlers[h].phase.Listening? || s.handlers[h].phase.Working?
       case End => s.handlers[h].phase.Ending?
  }

  /** The holder of the connection's `sendMu` is inside `WriteMessage` on it. */
  predicate WriterAt(s: State, c: nat) {
    && c < |s.conns| && s.conns[c].writer.Some? && s.conns[c].writer.value < |s.proxies|
    && s.proxies[s.conns[c].writer.value].conn == c && Writing(s.proxies[s.conns[c].writer.value].phase)
  }

  predicate Enabled(s: State, step: Step)
    requires Valid(s)
  {
    match step
    case Arrive(c, _) => c < |s.conns|
    case Body(p, _) => ProxyAt(s, p, OpenSent)
    case Written(c, _) => WriterAt(s, c)
    case OfProxy(p, x) => ProxyEnabled(s, p, x)
    case OfServer(c, x) => ServerEnabled(s, c, x)
    case OfClient(k, x) => ClientEnabled(s, k, x)
    case OfHandler(h, x) => HandlerEnabled(s, h, x)
    case LoseDown(c, kept) => c < |s.conns| && kept <= |s.conns[c].down|
    case LoseUp(c, kept) => c < |s.conns| && kept <= |s.conns[c].up|
    case Foreign(c, _) => c < |s.conns|
  }

  /** The broker has returned connection `c` for the request's subdomain. */
  function DoArrive(s: State, c: nat, request: string): (r: State)
    requires Valid(s) && c < |s.conns|
    ensures Valid(r) && Grows(s, r)
  {
    s.(proxies := s.proxies + [Proxy(request, c, 0, Chosen, Pending)])
  }

  /** `nextStreamID.Add(1)` and the new Stream object, before the table is locked. */
  function DoAllocate(s: State, p: nat): (r: State)
    requires Valid(s) && p < |s.proxies|
    ensures Valid(r) && Grows(s, r)
  {
    var n := |s.streams|;
    SetProxy(s.(streams := s.streams + [Stream(StreamIdOf(n), p, s.proxies[p].conn, None, 0)]),
             p, s.proxies[p].(stream := n, phase := Allocated))
  }

  /** `conn.Streams[id] = s` under the connection's lock. */
  function DoInsert(s: State, p: nat): (r: State)
    requires Valid(s) && ProxyAt(s, p, Allocated)
    ensures Valid(r) && Grows(s, r)
  {
    var n, c := s.proxies[p].stream, s.proxies[p].conn;
    SetProxy(SetConn(s, c, s.conns[c].(table := s.conns[c].table[s.streams[n].id := n])),
             p, s.proxies[p].(phase := Opened))
  }

  /** `conn.sendMu.Lock()` has returned. */
  function DoLock(s: State, p: nat): (r: State)
    requires Valid(s) && ProxyEnabled(s, p, Lock)
    ensures Valid(r) && Grows(s, r)
  {
    var x := s.proxies[p];
    SetProxy(SetConn(s, x.conn, s.conns[x.conn].(writer := Some(p))),
             p, x.(phase := if x.phase.Opened? then OpenWriting else RequestWriting))
  }

  /** The frame that a proxy handler writes: first the open frame, then the request. */
  function FrameOf(s: State, p: nat): DownFrame
    requires Valid(s) && p < |s.proxies| && Writing(s.proxies[p].phase)
  {
    var x := s.proxies[p];
    var id := Decimal(s.streams[x.stream].id);
    if x.phase.OpenWriting? then OpenFrame(id, p) else RequestFrame(id, Envelope(p, x.request))
  }

  /** `WriteMessage` returns and `sendMu` is unlocked. */
  function DoWritten(s: State, c: nat, ok: bool): (r: State)
    requires Valid(s) && WriterAt(s, c)
    ensures Valid(r) && Grows(s, r)
  {
    var p := s.conns[c].writer.value;
    var x := s.proxies[p];
    var conn := s.conns[c].(writer := None);
    if ok
    then SetProxy(SetConn(s, c, conn.(down := conn.down + [FrameOf(s, p)])),
                  p, x.(phase := if x.phase.OpenWriting? then OpenSent else Waiting))
    else SetProxy(SetConn(s, c, conn), p, x.(phase := Closing, outcome := BadGateway))
  }

  /** `io.ReadAll` of the caller's body returns. */
  function DoBody(s: State, p: nat, ok: bool): (r: State)
    requires Valid(s) && ProxyAt(s, p, OpenSent)
    ensures Valid(r) && Grows(s, r)
  {
    var x := s.proxies[p];
    SetProxy(s, p, if ok then x.(phase := BodyRead) else x.(phase := Closing, outcome := BadGateway))
  }

  function DoTakeResponse(s: State, p: nat): (r: State)
    requires Valid(s) && ProxyAt(s, p, Waiting) && s.streams[s.proxies[p].stream].response.Some?
    ensures Valid(r) && Grows(s, r)
  {
    var x := s.proxies[p];
    var st := s.streams[x.stream];
    SetProxy(SetStream(s, x.stream, st.(response := None)),
             p, x.(phase := Closing, outcome := Replied(st.response.value)))
  }

  function DoFail(s: State, p: nat, outcome: Outcome): (r: State)
    requires Valid(s) && ProxyAt(s, p, Waiting)
    ensures Valid(r) && Grows(s, r)
  {
    SetProxy(s, p, s.proxies[p].(phase := Closing, outcome := outcome))
  }

  /** The deferred `CloseStream`. */
  function DoCloseOwn(s: State, p: nat): (r: State)
    requires Valid(s) && ProxyAt(s, p, Closing)
    ensures Valid(r) && Grows(s, r)
  {
    var x := s.proxies[p];
    SetProxy(CloseStream(s, x.conn, s.streams[x.stream].id), p, x.(phase := Finished))
  }

  /** The read loop has looked the stream up and is about to send on its Response channel. */
  function StartDelivery(s: State, c: nat, n: nat, reply: Reply): (r: State)
    requires Valid(s) && c < |s.conns| && n < |s.streams|
    ensures Valid(r) && Grows(s, r)
  {
    SetConn(s, c, s.conns[c].(reader := Delivering(n, reply)))
  }

  /** One iteration of the gateway's `readLoop`, up to the blocking `select`. */
  function DoServerRead(s: State, c: nat): (r: State)
    requires Valid(s) && c < |s.conns| && s.conns[c].up != []
    ensures Valid(r) && Grows(s, r)
  {
    var conn := s.conns[c];
    var popped := SetConn(s, c, conn.(up := conn.up[1..]));
    var id := ParseUint32(conn.up[0].streamId);
    if id.None? then popped
    else
      match conn.up[0]
      case ReplyFrame(_, reply) =>
        if id.value in conn.table then StartDelivery(popped, c, conn.table[id.value], reply) else popped
      case CloseFrame(_) => CloseStream(popped, c, id.value)
  }

  function DoServerDeliver(s: State, c: nat): (r: State)
    requires Valid(s) && c < |s.conns| && s.conns[c].reader.Delivering?
    ensures Valid(r) && Grows(s, r)
  {
    var r := s.conns[c].reader;
    SetConn(SetStream(s, r.stream, s.streams[r.stream].(response := Some(r.reply))),
            c, s.conns[c].(reader := ServerIdle))
  }

  function DoServerGiveUp(s: State, c: nat): (r: State)
    requires Valid(s) && c < |s.conns|
    ensures Valid(r) && Grows(s, r)
  {
    SetConn(s, c, s.conns[c].(reader := ServerIdle))
  }

  /** The read loop ends and `cleanupConnection` removes the connection. */
  function DoServerExit(s: State, c: nat): (r: State)
    requires Valid(s) && c < |s.conns|
    ensures Valid(r) && Grows(s, r)
  {
    SetConn(s.(streams := CloseAll(s.streams, s.conns[c].table)), c, s.conns[c].(reader := Exited))
  }

  /** One iteration of the client's `readLoop`: spawn a handler, or look the data's handler up. */
  function DoClientRead(s: State, k: nat): (r: State)
    requires Valid(s) && k < |s.clients| && s.clients[k].conn.Some?
    requires s.conns[s.clients[k].conn.value].down != []
    ensures Valid(r) && Grows(s, r)
  {
    var c := s.clients[k].conn.value;
    var conn := s.conns[c];
    var popped := SetConn(s, c, conn.(down := conn.down[1..]));
    match conn.down[0]
    case OpenFrame(id, p) => popped.(handlers := s.handlers + [Handler(k, id, p, 0, None, Spawned)])
    case RequestFrame(id, envelope) =>
      if id in s.clients[k].pending
      then SetClient(popped, k, s.clients[k].(reader := Handing(s.clients[k].pending[id], envelope)))
      else popped
  }

  /** `select { case ch <- data: default: }`. */
  function DoClientHand(s: State, k: nat): (r: State)
    requires Valid(s) && k < |s.clients| && s.clients[k].reader.Handing?
    ensures Valid(r) && Grows(s, r)
  {
    var r := s.clients[k].reader;
    var idle := SetClient(s, k, s.clients[k].(reader := ClientIdle));
    if s.handlers[r.handler].slot.None?
    then SetHandler(idle, r.handler, s.handlers[r.handler].(slot := Some(r.envelope)))
    else idle
  }

  /** `Run` forgets the pending streams of the dropped connection. */
  function DoClientReset(s: State, k: nat): (r: State)
    requires Valid(s) && k < |s.clients|
    ensures Valid(r) && Grows(s, r)
  {
    SetClient(s, k, s.clients[k].(pending := map[], resets := s.clients[k].resets + 1))
  }

  /** A successful `Connect`: a new socket and a new `ClientConn`. */
  function DoClientAttach(s: State, k: nat): (r: State)
    requires Valid(s) && k < |s.clients|
    ensures Valid(r) && Grows(s, r)
  {
    SetClient(s.(conns := s.conns + [Conn(k, [], [], map[], None, ServerIdle)]), k, s.clients[k].(conn := Some(|s.conns|)))
  }

  /** `c.pendingStreams[id] = dataCh`. */
  function DoHandlerRegister(s: State, h: nat): (r: State)
    requires Valid(s) && h < |s.handlers|
    ensures Valid(r) && Grows(s, r)
  {
    var x := s.handlers[h];
    SetHandler(SetClient(s, x.client, s.clients[x.client].(pending := s.clients[x.client].pending[x.streamId := h])),
               h, x.(phase := Listening, epoch := s.clients[x.client].resets))
  }

  function DoHandlerTake(s: State, h: nat): (r: State)
    requires Valid(s) && h < |s.handlers| && s.handlers[h].slot.Some?
    ensures Valid(r) && Grows(s, r)
  {
    SetHandler(s, h, s.handlers[h].(slot := None, phase := Working(s.handlers[h].slot.value)))
  }

  /** A timeout, a closed client, a bad envelope, no port: the handler returns without an answer. */
  function DoHandlerAbandon(s: State, h: nat): (r: State)
    requires Valid(s) && h < |s.handlers|
    ensures Valid(r) && Grows(s, r)
  {
    SetHandler(s, h, s.handlers[h].(phase := Ending))
  }

  /** The frame goes out on the client's current socket, which may be a later one. */
  function DoHandlerReply(s: State, h: nat, body: string, ok: bool): (r: State)
    requires Valid(s) && h < |s.handlers| && s.handlers[h].phase.Working?
    requires ok ==> s.clients[s.handlers[h].client].conn.Some?
    ensures Valid(r) && Grows(s, r)
  {
    var x := s.handlers[h];
    var answered := SetHandler(s, h, x.(phase := Answered));
    if ok then PushUp(answered, s.clients[x.client].conn.value, ReplyFrame(x.streamId, Reply(x.phase.envelope, body)))
    else answered
  }

  function DoHandlerClose(s: State, h: nat, ok: bool): (r: State)
    requires Valid(s) && h < |s.handlers|
    requires ok ==> s.clients[s.handlers[h].client].conn.Some?
    ensures Valid(r) && Grows(s, r)
  {
    var x := s.handlers[h];
    var ending := SetHandler(s, h, x.(phase := Ending));
    if ok then PushUp(ending, s.clients[x.client].conn.value, CloseFrame(x.streamId)) else ending
  }

  /** The deferred `delete(c.pendingStreams, id)`, on whatever map the client now has. */
  function DoHandlerEnd(s: State, h: nat): (r: State)
    requires Valid(s) && h < |s.handlers|
    ensures Valid(r) && Grows(s, r)
  {
    var x := s.handlers[h];
    SetHandler(SetClient(s, x.client, s.clients[x.client].(pending := s.clients[x.client].pending - {x.streamId})),
               h, x.(phase := Ended))
  }

  /** A dying socket loses the tail of a queue. */
  function DoLoseDown(s: State, c: nat, kept: nat): (r: State)
    requires Valid(s) && c < |s.conns| && kept <= |s.conns[c].down|
    ensures Valid(r) && Grows(s, r)
  {
    SetConn(s, c, s.conns[c].(down := s.conns[c].down[..kept]))
  }

  function DoLoseUp(s: State, c: nat, kept: nat): (r: State)
    requires Valid(s) && c < |s.conns| && kept <= |s.conns[c].up|
    ensures Valid(r) && Grows(s, r)
  {
    SetConn(s, c, s.conns[c].(up := s.conns[c].up[..kept]))
  }

  /** A peer that is not this repository's client may send the gateway any frame at any time. */
  function DoForeign(s: State, c: nat, f: UpFrame): (r: State)
    requires Valid(s) && c < |s.conns|
    ensures Valid(r) && Grows(s, r)
  {
    PushUp(s, c, f)
  }

  function DoProxy(s: State, p: nat, step: ProxyStep): (r: State)
    requires Valid(s) && ProxyEnabled(s, p, step)
    ensures Valid(r) && Grows(s, r)
  {
    match step
    case Allocate => DoAllocate(s, p)
    case Insert => DoInsert(s, p)
    case Lock => DoLock(s, p)
    case TakeResponse => DoTakeResponse(s, p)
    case TakeDone => DoFail(s, p, BadGateway)
    case TimeOut => DoFail(s, p, GatewayTimeout)
    case CloseOwn => DoCloseOwn(s, p)
  }

  function DoServer(s: State, c: nat, step: ServerStep): (r: State)
    requires Valid(s) && ServerEnabled(s, c, step)
    ensures Valid(r) && Grows(s, r)
  {
    match step
    case Read => DoServerRead(s, c)
    case Deliver => DoServerDeliver(s, c)
    case GiveUp => DoServerGiveUp(s, c)
    case Exit => DoServerExit(s, c)
  }

  function DoClient(s: State, k: nat, step: ClientStep): (r: State)
    requires Valid(s) && ClientEnabled(s, k, step)
    ensures Valid(r) && Grows(s, r)
  {
    match step
    case Receive => DoClientRead(s, k)
    case Hand => DoClientHand(s, k)
    case Reset => DoClientReset(s, k)
    case Attach => DoClientAttach(s, k)
  }

  function DoHandler(s: State, h: nat, step: HandlerStep): (r: State)
    requires Valid(s) && HandlerEnabled(s, h, step)
    ensures Valid(r) && Grows(s, r)
  {
    match step
    case Register => DoHandlerRegister(s, h)
    case Take => DoHandlerTake(s, h)
    case Answer(body, ok) => DoHandlerReply(s, h, body, ok)
    case SendClose(ok) => DoHandlerClose(s, h, ok)
    case Abandon => DoHandlerAbandon(s, h)
    case End => DoHandlerEnd(s, h)
  }

  function Apply(s: State, step: Step): (r: State)
    requires Valid(s) && Enabled(s, step)
    ensures Valid(r) && Grows(s, r)
  {
    match step
    case Arrive(c, request) => DoArrive(s, c, request)
    case Body(p, ok) => DoBody(s, p, ok)
    case Written(c, ok) => DoWritten(s, c, ok)
    case OfProxy(p, x) => DoProxy(s, p, x)
    case OfServer(c, x) => DoServer(s, c, x)
    case OfClient(k, x) => DoClient(s, k, x)
    case OfHandler(h, x) => DoHandler(s, h, x)
    case LoseDown(c, kept) => DoLoseDown(s, c, kept)
    case LoseUp(c, kept) => DoLoseUp(s, c, kept)
    case Foreign(c, f) => DoForeign(s, c, f)
  }

  // ---------------------------------------------------------------------------
  // Runs

  /** One label: its effect where it is enabled, nothing otherwise. */
  function Next(s: State, step: Step): (r: State)
    requires Valid(s)
    ensures Valid(r) && Grows(s, r)
  {
    if Enabled(s, step) then Apply(s, step) else s
  }

  /** The run of a sequence of labels. */
  function Exec(s: State, steps: seq<Step>): (r: State)
    requires Valid(s)
    ensures Valid(r) && Grows(s, r)
    decreases |steps|
  {
    if steps == [] then s else Exec(Next(s, steps[0]), steps[1..])
  }

  /** The states of all runs, with any number of clients that may send anything. */
  ghost predicate Reachable(s: State) {
    exists init: State, steps: seq<Step> :: Initial(init) && s == Exec(init, steps)
  }

  /** Every client is this repository's. */
  predicate OwnClients(steps: seq<Step>) {
    forall i | 0 <= i < |steps| :: !steps[i].Foreign?
  }

  /** The states of all runs with any number of this repository's clients. */
  ghost predicate ReachableByOwnClients(s: State) {
    exists init: State, steps: seq<Step> :: Initial(init) && OwnClients(steps) && s == Exec(init, steps)
  }
}
