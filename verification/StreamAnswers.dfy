/**
 What travels between gateway and client, and how a client handler comes to
 answer: which steps put a frame on a socket, and which bring a handler from one
 stage to the next. A handler answers and then closes its stream whether or not
 its frames get out. In runs of any length, whatever the clients send.
 */
module StreamAnswers {
  import opened Results
  import opened Text
  import opened Streams

  // ---------------------------------------------------------------------------
  // Frames

  /** The step puts this frame on the socket to the client: the write of the handler that holds the lock succeeds. */
  predicate Writes(s: State, step: Step, c: nat, f: DownFrame)
    requires Valid(s)
  {
    && step == Written(c, true) && WriterAt(s, c)
    && var p := s.conns[c].writer.value;
       var x := s.proxies[p];
       var id := Decimal(s.streams[x.stream].id);
       if x.phase.OpenWriting? then f == OpenFrame(id, p) else f == RequestFrame(id, Envelope(p, x.request))
  }

  /** Handler `h` sends the frame, on its client's current socket. */
  predicate SendsFrom(s: State, step: Step, h: nat, c: nat, f: UpFrame)
    requires Valid(s) && h < |s.handlers|
  {
    var x := s.handlers[h];
    && s.clients[x.client].conn == Some(c)
    && match f
       case ReplyFrame(id, reply) =>
         x.phase == Working(reply.to) && id == x.streamId && step == OfHandler(h, Answer(reply.body, true))
       case CloseFrame(id) => x.phase.Answered? && id == x.streamId && step == OfHandler(h, SendClose(true))
  }

  /** The step puts this frame on the socket to the gateway. */
  predicate Sends(s: State, step: Step, c: nat, f: UpFrame)
    requires Valid(s)
  {
    || step == Foreign(c, f)
    || (step.OfHandler? && step.handler < |s.handlers| && SendsFrom(s, step, step.handler, c, f))
  }

  lemma SameLast<T>(xs: seq<T>, x: T, y: T)
    ensures xs + [x] == xs + [y] <==> x == y
    ensures xs + [x] != xs
  {
    assert (xs + [x])[|xs|] == x && (xs + [y])[|xs|] == y;
  }

  lemma ProxyStepPutsNothing(s: State, p: nat, step: ProxyStep, c: nat)
    requires Valid(s) && ProxyEnabled(s, p, step) && c < |s.conns|
    ensures var r := DoProxy(s, p, step);
            c < |r.conns| && r.conns[c].down == s.conns[c].down && r.conns[c].up == s.conns[c].up
  {
  }

  lemma ServerStepPutsNothing(s: State, c: nat, step: ServerStep, d: nat)
    requires Valid(s) && ServerEnabled(s, c, step) && d < |s.conns|
    ensures var r := DoServer(s, c, step);
            d < |r.conns| && r.conns[d].down == s.conns[d].down && |r.conns[d].up| <= |s.conns[d].up|
  {
  }

  lemma ClientStepPutsNothing(s: State, k: nat, step: ClientStep, c: nat)
    requires Valid(s) && ClientEnabled(s, k, step) && c < |s.conns|
    ensures var r := DoClient(s, k, step);
            c < |r.conns| && |r.conns[c].down| <= |s.conns[c].down| && r.conns[c].up == s.conns[c].up
  {
  }

  lemma HandlerStepSends(s: State, h: nat, step: HandlerStep, c: nat, f: UpFrame)
    requires Valid(s) && HandlerEnabled(s, h, step) && c < |s.conns|
    ensures var r := DoHandler(s, h, step);
            && c < |r.conns| && r.conns[c].down == s.conns[c].down
            && (r.conns[c].up == s.conns[c].up + [f] <==> Sends(s, OfHandler(h, step), c, f))
  {
    var x := s.handlers[h];
    match step
    case Answer(body, _) => SameLast(s.conns[c].up, ReplyFrame(x.streamId, Reply(x.phase.envelope, body)), f);
    case SendClose(_) => SameLast(s.conns[c].up, CloseFrame(x.streamId), f);
    case _ => SameLast(s.conns[c].up, f, f);
  }

  lemma WrittenPuts(s: State, c: nat, ok: bool, d: nat, f: DownFrame)
    requires Valid(s) && WriterAt(s, c) && d < |s.conns|
    ensures var r := DoWritten(s, c, ok);
            && d < |r.conns| && r.conns[d].up == s.conns[d].up
            && (r.conns[d].down == s.conns[d].down + [f] <==> Writes(s, Written(c, ok), d, f))
  {
    SameLast(s.conns[d].down, FrameOf(s, s.conns[c].writer.value), f);
  }

  /** A frame comes to the client's end of a socket exactly by such a write. */
  lemma WritesIff(s: State, step: Step, c: nat, f: DownFrame)
    requires Valid(s) && c < |s.conns|
    ensures c < |Next(s, step).conns|
    ensures Next(s, step).conns[c].down == s.conns[c].down + [f] <==> Writes(s, step, c, f)
  {
    if Enabled(s, step) {
      match step
      case Arrive(_, _) =>
      case Body(_, _) =>
      case Written(d, ok) => WrittenPuts(s, d, ok, c, f);
      case OfProxy(p, x) => ProxyStepPutsNothing(s, p, x, c);
      case OfServer(d, x) => ServerStepPutsNothing(s, d, x, c);
      case OfClient(k, x) => ClientStepPutsNothing(s, k, x, c);
      case OfHandler(h, x) => HandlerStepSends(s, h, x, c, CloseFrame(""));
      case LoseDown(_, _) =>
      case LoseUp(_, _) =>
      case Foreign(_, _) =>
    }
  }

  /** A frame comes to the gateway's end exactly when a handler answers or closes, or a foreign client sends it. */
  lemma SendsIff(s: State, step: Step, c: nat, f: UpFrame)
    requires Valid(s) && c < |s.conns|
    ensures c < |Next(s, step).conns|
    ensures Next(s, step).conns[c].up == s.conns[c].up + [f] <==> Sends(s, step, c, f)
  {
    if Enabled(s, step) {
      match step
      case Arrive(_, _) =>
      case Body(_, _) =>
      case Written(d, ok) => WrittenPuts(s, d, ok, c, OpenFrame("", 0));
      case OfProxy(p, x) => ProxyStepPutsNothing(s, p, x, c);
      case OfServer(d, x) => ServerStepPutsNothing(s, d, x, c);
      case OfClient(k, x) => ClientStepPutsNothing(s, k, x, c);
      case OfHandler(h, x) => HandlerStepSends(s, h, x, c, f);
      case LoseDown(_, _) =>
      case LoseUp(_, _) =>
      case Foreign(_, g) => SameLast(s.conns[c].up, g, f);
    }
  }

  // ---------------------------------------------------------------------------
  // Stage by stage

  /** The step brings client handler `h` to stage `g`. */
  predicate Brings(s: State, step: Step, h: nat, g: HandlerPhase)
    requires Valid(s) && h < |s.handlers|
  {
    var x := s.handlers[h];
    && step.OfHandler? && step.handler == h
    && match g
       case Spawned => false
       case Listening => x.phase.Spawned? && step.handlerStep.Register?
       case Working(e) => x.phase.Listening? && step.handlerStep.Take? && x.slot == Some(e)
       case Answered =>
         x.phase.Working? && step.handlerStep.Answer? && (step.handlerStep.ok ==> s.clients[x.client].conn.Some?)
       case Ending =>
         || ((x.phase.Listening? || x.phase.Working?) && step.handlerStep.Abandon?)
         || (&& x.phase.Answered? && step.handlerStep.SendClose?
             && (step.handlerStep.ok ==> s.clients[x.client].conn.Some?))
       case Ended => x.phase.Ending? && step.handlerStep.End?
  }

  lemma HandlerStepBrings(s: State, h: nat, step: HandlerStep, i: nat, g: HandlerPhase)
    requires Valid(s) && HandlerEnabled(s, h, step) && i < |s.handlers| && g != s.handlers[i].phase
    ensures var r := DoHandler(s, h, step);
            i < |r.handlers| && (r.handlers[i].phase == g <==> Brings(s, OfHandler(h, step), i, g))
  {
  }

  lemma ClientStepKeepsPhase(s: State, k: nat, step: ClientStep, i: nat)
    requires Valid(s) && ClientEnabled(s, k, step) && i < |s.handlers|
    ensures i < |DoClient(s, k, step).handlers| && DoClient(s, k, step).handlers[i].phase == s.handlers[i].phase
  {
  }

  lemma DisabledBringsNothing(s: State, step: Step, h: nat, g: HandlerPhase)
    requires Valid(s) && h < |s.handlers| && !Enabled(s, step)
    ensures !Brings(s, step, h, g)
  {
  }

  /** A client handler comes to a stage by exactly these steps; a close follows an answer even if that was not sent. */
  lemma HandlerComesToIff(s: State, step: Step, h: nat, g: HandlerPhase)
    requires Valid(s) && h < |s.handlers| && g != s.handlers[h].phase
    ensures Next(s, step).handlers[h].phase == g <==> Brings(s, step, h, g)
  {
    if Enabled(s, step) {
      match step
      case OfHandler(i, x) => HandlerStepBrings(s, i, x, h, g);
      case OfClient(k, x) => ClientStepKeepsPhase(s, k, x, h);
      case _ =>
    } else {
      DisabledBringsNothing(s, step, h, g);
    }
  }

  // ---------------------------------------------------------------------------
  // The gateway's read loops

  /** The step brings the read loop of connection `c` to this point. */
  predicate BringsReader(s: State, step: Step, c: nat, g: ServerReader)
    requires Valid(s) && c < |s.conns|
  {
    var conn := s.conns[c];
    && step.OfServer? && step.conn == c
    && match g
       case ServerIdle =>
         && conn.reader.Delivering?
         && ((step.serverStep.Deliver? && s.streams[conn.reader.stream].response.None?)
             || (step.serverStep.GiveUp? && s.streams[conn.reader.stream].closes > 0))
       case Delivering(n, reply) =>
         && conn.reader.ServerIdle? && step.serverStep.Read?
         && conn.up != [] && conn.up[0].ReplyFrame? && conn.up[0].reply == reply
         && ParseUint32(conn.up[0].streamId).Some? && ParseUint32(conn.up[0].streamId).value in conn.table
         && conn.table[ParseUint32(conn.up[0].streamId).value] == n
       case Exited => conn.reader.ServerIdle? && step.serverStep.Exit?
  }

  lemma ServerStepBrings(s: State, d: nat, step: ServerStep, c: nat, g: ServerReader)
    requires Valid(s) && ServerEnabled(s, d, step) && c < |s.conns| && g != s.conns[c].reader
    ensures var r := DoServer(s, d, step);
            c < |r.conns| && (r.conns[c].reader == g <==> BringsReader(s, OfServer(d, step), c, g))
  {
  }

  lemma DisabledBringsNoReader(s: State, step: Step, c: nat, g: ServerReader)
    requires Valid(s) && c < |s.conns| && !Enabled(s, step)
    ensures !BringsReader(s, step, c, g)
  {
  }

  lemma ProxyStepLeavesReaders(s: State, p: nat, step: ProxyStep, c: nat)
    requires Valid(s) && ProxyEnabled(s, p, step) && c < |s.conns|
    ensures c < |DoProxy(s, p, step).conns| && DoProxy(s, p, step).conns[c].reader == s.conns[c].reader
  {
  }

  lemma ClientStepLeavesReaders(s: State, k: nat, step: ClientStep, c: nat)
    requires Valid(s) && ClientEnabled(s, k, step) && c < |s.conns|
    ensures c < |DoClient(s, k, step).conns| && DoClient(s, k, step).conns[c].reader == s.conns[c].reader
  {
  }

  lemma HandlerStepLeavesServers(s: State, h: nat, step: HandlerStep, c: nat)
    requires Valid(s) && HandlerEnabled(s, h, step) && c < |s.conns|
    ensures c < |DoHandler(s, h, step).conns| && DoHandler(s, h, step).conns[c].reader == s.conns[c].reader
  {
  }

  lemma OthersLeaveReaders(s: State, step: Step, c: nat)
    requires Valid(s) && c < |s.conns| && Enabled(s, step) && !step.OfServer?
    ensures c < |Next(s, step).conns| && Next(s, step).conns[c].reader == s.conns[c].reader
  {
    match step
    case OfProxy(p, x) => ProxyStepLeavesReaders(s, p, x, c);
    case OfClient(k, x) => ClientStepLeavesReaders(s, k, x, c);
    case OfHandler(h, x) => HandlerStepLeavesServers(s, h, x, c);
    case _ =>
  }

  /**
   A read loop comes to each point by exactly these steps: it starts a delivery
   by reading a reply whose stream is in the table, is done with it when the
   channel takes the reply or Done is closed, and can end whenever it is idle.
   */
  lemma ReaderComesToIff(s: State, step: Step, c: nat, g: ServerReader)
    requires Valid(s) && c < |s.conns| && g != s.conns[c].reader
    ensures c < |Next(s, step).conns|
    ensures Next(s, step).conns[c].reader == g <==> BringsReader(s, step, c, g)
  {
    if !Enabled(s, step) {
      DisabledBringsNoReader(s, step, c, g);
    } else if step.OfServer? {
      ServerStepBrings(s, step.conn, step.serverStep, c, g);
    } else {
      OthersLeaveReaders(s, step, c);
    }
  }

  /** Whatever a frame is, an idle read loop that reads takes it off the socket; nothing else it does takes any. */
  lemma ReadTakesOne(s: State, c: nat, step: ServerStep)
    requires Valid(s) && c < |s.conns|
    ensures var up := Next(s, OfServer(c, step)).conns[c].up;
            up == if step.Read? && s.conns[c].reader.ServerIdle? && s.conns[c].up != [] then s.conns[c].up[1..]
                  else s.conns[c].up
  {
  }

  // ---------------------------------------------------------------------------
  // The clients

  /** The step brings the client's read loop to this point. */
  predicate BringsClient(s: State, step: Step, k: nat, g: ClientReader)
    requires Valid(s) && k < |s.clients|
  {
    var x := s.clients[k];
    && step.OfClient? && step.client == k
    && match g
       case ClientIdle => x.reader.Handing? && step.clientStep.Hand?
       case Handing(h, e) =>
         && x.reader.ClientIdle? && step.clientStep.Receive? && x.conn.Some? && s.conns[x.conn.value].down != []
         && var f := s.conns[x.conn.value].down[0];
            f.RequestFrame? && f.envelope == e && f.streamId in x.pending && x.pending[f.streamId] == h
  }

  /** A client is reset, or attached to a new socket, whenever its read loop is idle, and by nothing else. */
  predicate Reconnects(s: State, step: Step, k: nat, x: Client)
    requires Valid(s) && k < |s.clients|
  {
    var idle := s.clients[k].reader.ClientIdle?;
    && (x.resets == if step == OfClient(k, Reset) && idle then s.clients[k].resets + 1 else s.clients[k].resets)
    && (x.conn == if step == OfClient(k, Attach) && idle then Some(|s.conns|) else s.clients[k].conn)
  }

  lemma ClientStepBrings(s: State, j: nat, step: ClientStep, k: nat, g: ClientReader)
    requires Valid(s) && ClientEnabled(s, j, step) && k < |s.clients| && g != s.clients[k].reader
    ensures var r := DoClient(s, j, step);
            && k < |r.clients| && Reconnects(s, OfClient(j, step), k, r.clients[k])
            && (r.clients[k].reader == g <==> BringsClient(s, OfClient(j, step), k, g))
  {
  }

  lemma HandlerStepLeavesReaders(s: State, h: nat, step: HandlerStep, k: nat)
    requires Valid(s) && HandlerEnabled(s, h, step) && k < |s.clients|
    ensures var r := DoHandler(s, h, step);
            && k < |r.clients| && r.clients[k].reader == s.clients[k].reader
            && r.clients[k].resets == s.clients[k].resets && r.clients[k].conn == s.clients[k].conn
  {
  }

  lemma OthersLeaveClients(s: State, step: Step)
    requires Valid(s) && Enabled(s, step) && !step.OfClient? && !step.OfHandler?
    ensures Next(s, step).clients == s.clients
  {
  }

  lemma DisabledBringsNoClient(s: State, step: Step, k: nat, g: ClientReader)
    requires Valid(s) && k < |s.clients| && !Enabled(s, step)
    ensures !BringsClient(s, step, k, g) && Reconnects(s, step, k, s.clients[k])
  {
  }

  /** A client's read loop comes to each point by exactly these steps, and its resets and sockets change as said. */
  lemma ClientComesToIff(s: State, step: Step, k: nat, g: ClientReader)
    requires Valid(s) && k < |s.clients| && g != s.clients[k].reader
    ensures k < |Next(s, step).clients| && Reconnects(s, step, k, Next(s, step).clients[k])
    ensures Next(s, step).clients[k].reader == g <==> BringsClient(s, step, k, g)
  {
    if !Enabled(s, step) {
      DisabledBringsNoClient(s, step, k, g);
    } else if step.OfClient? {
      ClientStepBrings(s, step.client, step.clientStep, k, g);
    } else if step.OfHandler? {
      HandlerStepLeavesReaders(s, step.handler, step.handlerStep, k);
    } else {
      OthersLeaveClients(s, step);
    }
  }

  /** A client that reads takes one frame off its socket. */
  lemma ReceiveTakesOne(s: State, k: nat)
    requires Valid(s) && ClientEnabled(s, k, Receive)
    ensures var c := s.clients[k].conn.value;
            Next(s, OfClient(k, Receive)).conns[c].down == s.conns[c].down[1..]
  {
  }

  /** A new socket is the client's, empty, not locked, and its read loop idle. */
  lemma AttachOpens(s: State, k: nat)
    requires Valid(s) && ClientEnabled(s, k, Attach)
    ensures Next(s, OfClient(k, Attach)).conns == s.conns + [Conn(k, [], [], map[], None, ServerIdle)]
  {
  }
}
