/**
 What one proxy handler sends is nowhere twice. Its open frame, and the client
 handler spawned for it, exist at most once; and so does its request's data, on
 its way from the request frame through the client to the reply in the Response
 channel. For runs of any length with this repository's clients.
 */
module StreamCounts {
  import opened Results
  import opened Text
  import opened Streams
  import opened StreamProgress

  // ---------------------------------------------------------------------------
  // Totals

  /** Something that a proxy handler has set in motion: the opening of its stream, or its request. */
  datatype Token = Opening(proxy: nat) | Asking(proxy: nat)

  /** How much of the token the elements of a sequence hold. */
  function Total<T>(xs: seq<T>, f: (T, Token) -> nat, t: Token): nat {
    if xs == [] then 0 else Total(xs[..|xs| - 1], f, t) + f(xs[|xs| - 1], t)
  }

  lemma TotalSnoc<T>(xs: seq<T>, f: (T, Token) -> nat, t: Token, y: T)
    ensures Total(xs + [y], f, t) == Total(xs, f, t) + f(y, t)
  {
    assert (xs + [y])[..|xs|] == xs;
  }

  lemma {:induction false} TotalUpdate<T>(xs: seq<T>, f: (T, Token) -> nat, t: Token, i: nat, y: T)
    requires i < |xs|
    ensures Total(xs[i := y], f, t) + f(xs[i], t) == Total(xs, f, t) + f(y, t)
    decreases |xs|
  {
    var front, last := xs[..|xs| - 1], xs[|xs| - 1];
    if i == |xs| - 1 {
      assert xs[i := y][..|xs| - 1] == front;
    } else {
      assert xs[i := y][..|xs| - 1] == front[i := y];
      TotalUpdate(front, f, t, i, y);
    }
  }

  lemma {:induction false} TotalUncons<T>(xs: seq<T>, f: (T, Token) -> nat, t: Token)
    requires xs != []
    ensures Total(xs, f, t) == f(xs[0], t) + Total(xs[1..], f, t)
    decreases |xs|
  {
    if |xs| == 1 {
      assert xs[..0] == [] && xs[1..] == [];
    } else {
      TotalUncons(xs[..|xs| - 1], f, t);
      assert xs[..|xs| - 1][1..] == xs[1..][..|xs| - 2];
    }
  }

  lemma {:induction false} TotalPrefix<T>(xs: seq<T>, f: (T, Token) -> nat, t: Token, k: nat)
    requires k <= |xs|
    ensures Total(xs[..k], f, t) <= Total(xs, f, t)
    decreases |xs|
  {
    if k == |xs| {
      assert xs[..k] == xs;
    } else {
      TotalPrefix(xs[..|xs| - 1], f, t, k);
      assert xs[..|xs| - 1][..k] == xs[..k];
    }
  }

  lemma {:induction false} TotalSame<T>(xs: seq<T>, ys: seq<T>, f: (T, Token) -> nat, t: Token)
    requires |xs| == |ys| && (forall i | 0 <= i < |xs| :: f(xs[i], t) == f(ys[i], t))
    ensures Total(xs, f, t) == Total(ys, f, t)
    decreases |xs|
  {
    if xs == [] {
    } else {
      TotalSame(xs[..|xs| - 1], ys[..|ys| - 1], f, t);
    }
  }

  lemma {:induction false} TotalAt<T>(xs: seq<T>, f: (T, Token) -> nat, t: Token, i: nat)
    requires i < |xs|
    ensures f(xs[i], t) <= Total(xs, f, t)
    decreases |xs|
  {
    if i == |xs| - 1 {
    } else {
      TotalAt(xs[..|xs| - 1], f, t, i);
    }
  }

  lemma {:induction false} TotalAtTwo<T>(xs: seq<T>, f: (T, Token) -> nat, t: Token, i: nat, j: nat)
    requires i < j < |xs|
    ensures f(xs[i], t) + f(xs[j], t) <= Total(xs, f, t)
    decreases |xs|
  {
    if j == |xs| - 1 {
      TotalAt(xs[..|xs| - 1], f, t, i);
    } else {
      TotalAtTwo(xs[..|xs| - 1], f, t, i, j);
    }
  }

  // ---------------------------------------------------------------------------
  // Where tokens are

  function One(b: bool): nat {
    if b then 1 else 0
  }

  function InDown(f: DownFrame, t: Token): nat {
    match f
    case OpenFrame(_, p) => One(t == Opening(p))
    case RequestFrame(_, e) => One(t == Asking(e.proxy))
  }

  function InUp(f: UpFrame, t: Token): nat {
    One(f.ReplyFrame? && t == Asking(f.reply.to.proxy))
  }

  function InConn(c: Conn, t: Token): nat {
    Total(c.down, InDown, t) + Total(c.up, InUp, t) + One(c.reader.Delivering? && t == Asking(c.reader.reply.to.proxy))
  }

  function InClient(k: Client, t: Token): nat {
    One(k.reader.Handing? && t == Asking(k.reader.envelope.proxy))
  }

  function InHandler(h: Handler, t: Token): nat {
    One(t == Opening(h.opener)) + One(h.slot.Some? && t == Asking(h.slot.value.proxy))
    + One(h.phase.Working? && t == Asking(h.phase.envelope.proxy))
  }

  function InStream(st: Stream, t: Token): nat {
    One(st.response.Some? && t == Asking(st.response.value.to.proxy))
  }

  /** How often the token is anywhere. */
  function Count(s: State, t: Token): nat {
    Total(s.conns, InConn, t) + Total(s.clients, InClient, t) + Total(s.handlers, InHandler, t)
    + Total(s.streams, InStream, t)
  }

  lemma SetConnCounts(s: State, c: nat, x: Conn, t: Token)
    requires c < |s.conns|
    ensures Count(SetConn(s, c, x), t) + InConn(s.conns[c], t) == Count(s, t) + InConn(x, t)
  {
    TotalUpdate(s.conns, InConn, t, c, x);
  }

  lemma SetClientCounts(s: State, k: nat, x: Client, t: Token)
    requires k < |s.clients|
    ensures Count(SetClient(s, k, x), t) + InClient(s.clients[k], t) == Count(s, t) + InClient(x, t)
  {
    TotalUpdate(s.clients, InClient, t, k, x);
  }

  lemma SetHandlerCounts(s: State, h: nat, x: Handler, t: Token)
    requires h < |s.handlers|
    ensures Count(SetHandler(s, h, x), t) + InHandler(s.handlers[h], t) == Count(s, t) + InHandler(x, t)
  {
    TotalUpdate(s.handlers, InHandler, t, h, x);
  }

  lemma SetStreamCounts(s: State, n: nat, x: Stream, t: Token)
    requires n < |s.streams|
    ensures Count(SetStream(s, n, x), t) + InStream(s.streams[n], t) == Count(s, t) + InStream(x, t)
  {
    TotalUpdate(s.streams, InStream, t, n, x);
  }

  /** Proxies do not hold tokens. */
  lemma ProxiesDoNotCount(s: State, r: State, t: Token)
    requires r == s.(proxies := r.proxies)
    ensures Count(r, t) == Count(s, t)
  {
  }

  // ---------------------------------------------------------------------------
  // No step but a write makes a token

  lemma CloseStreamCounts(s: State, c: nat, id: nat, t: Token)
    requires Valid(s) && c < |s.conns|
    ensures Count(CloseStream(s, c, id), t) == Count(s, t)
  {
    var table := s.conns[c].table;
    if id in table {
      SetStreamCounts(s, table[id], CloseDone(s.streams[table[id]]), t);
      var m := SetStream(s, table[id], CloseDone(s.streams[table[id]]));
      SetConnCounts(m, c, s.conns[c].(table := table - {id}), t);
    }
  }

  lemma OpenCounts(s: State, p: nat, t: Token)
    requires Valid(s) && p < |s.proxies|
    ensures Count(DoAllocate(s, p), t) == Count(s, t)
    ensures ProxyAt(s, p, Allocated) ==> Count(DoInsert(s, p), t) == Count(s, t)
  {
    var x := s.proxies[p];
    TotalSnoc(s.streams, InStream, t, Stream(StreamIdOf(|s.streams|), p, x.conn, None, 0));
    if ProxyAt(s, p, Allocated) {
      var conn := s.conns[x.conn];
      SetConnCounts(s, x.conn, conn.(table := conn.table[s.streams[x.stream].id := x.stream]), t);
    }
  }

  lemma LockCounts(s: State, p: nat, t: Token)
    requires Valid(s) && ProxyEnabled(s, p, Lock)
    ensures Count(DoLock(s, p), t) == Count(s, t)
  {
    var c := s.proxies[p].conn;
    SetConnCounts(s, c, s.conns[c].(writer := Some(p)), t);
  }

  lemma ProxyStepCounts(s: State, p: nat, step: ProxyStep, t: Token)
    requires Valid(s) && ProxyEnabled(s, p, step)
    ensures Count(DoProxy(s, p, step), t) <= Count(s, t)
  {
    var x := s.proxies[p];
    match step
    case Allocate => OpenCounts(s, p, t);
    case Insert => OpenCounts(s, p, t);
    case Lock => LockCounts(s, p, t);
    case TakeResponse => SetStreamCounts(s, x.stream, s.streams[x.stream].(response := None), t);
    case CloseOwn => CloseStreamCounts(s, x.conn, s.streams[x.stream].id, t);
    case _ => ProxiesDoNotCount(s, DoProxy(s, p, step), t);
  }

  /** The token of the frame that the holder of the connection's `sendMu` writes. */
  function TokenOf(s: State, c: nat): Token
    requires Valid(s) && WriterAt(s, c)
  {
    var p := s.conns[c].writer.value;
    if s.proxies[p].phase.OpenWriting? then Opening(p) else Asking(p)
  }

  lemma WrittenCounts(s: State, c: nat, ok: bool, t: Token)
    requires Valid(s) && WriterAt(s, c)
    ensures Count(DoWritten(s, c, ok), t) == Count(s, t) + One(ok && t == TokenOf(s, c))
  {
    var conn := s.conns[c].(writer := None);
    if ok {
      var f := FrameOf(s, s.conns[c].writer.value);
      TotalSnoc(conn.down, InDown, t, f);
      SetConnCounts(s, c, conn.(down := conn.down + [f]), t);
    } else {
      SetConnCounts(s, c, conn, t);
    }
  }

  lemma ServerReadCounts(s: State, c: nat, t: Token)
    requires Valid(s) && ServerEnabled(s, c, Read)
    ensures Count(DoServerRead(s, c), t) <= Count(s, t)
  {
    var conn := s.conns[c];
    var x := conn.(up := conn.up[1..]);
    var popped := SetConn(s, c, x);
    TotalUncons(conn.up, InUp, t);
    SetConnCounts(s, c, x, t);
    var id := ParseUint32(conn.up[0].streamId);
    if id.Some? && conn.up[0].CloseFrame? {
      CloseStreamCounts(popped, c, id.value, t);
    } else if id.Some? && id.value in conn.table {
      SetConnCounts(popped, c, x.(reader := Delivering(conn.table[id.value], conn.up[0].reply)), t);
    }
  }

  lemma ServerDeliverCounts(s: State, c: nat, t: Token)
    requires Valid(s) && ServerEnabled(s, c, Deliver)
    ensures Count(DoServerDeliver(s, c), t) == Count(s, t)
  {
    var r := s.conns[c].reader;
    var x := s.streams[r.stream].(response := Some(r.reply));
    SetStreamCounts(s, r.stream, x, t);
    SetConnCounts(SetStream(s, r.stream, x), c, s.conns[c].(reader := ServerIdle), t);
  }

  lemma ServerEndCounts(s: State, c: nat, t: Token)
    requires Valid(s) && c < |s.conns|
    ensures Count(DoServerGiveUp(s, c), t) <= Count(s, t)
    ensures Count(DoServerExit(s, c), t) <= Count(s, t)
  {
    SetConnCounts(s, c, s.conns[c].(reader := ServerIdle), t);
    var closed := CloseAll(s.streams, s.conns[c].table);
    TotalSame(s.streams, closed, InStream, t);
    SetConnCounts(s.(streams := closed), c, s.conns[c].(reader := Exited), t);
  }

  lemma ServerStepCounts(s: State, c: nat, step: ServerStep, t: Token)
    requires Valid(s) && ServerEnabled(s, c, step)
    ensures Count(DoServer(s, c, step), t) <= Count(s, t)
  {
    match step
    case Read => ServerReadCounts(s, c, t);
    case Deliver => ServerDeliverCounts(s, c, t);
    case GiveUp => ServerEndCounts(s, c, t);
    case Exit => ServerEndCounts(s, c, t);
  }

  lemma ClientReadCounts(s: State, k: nat, t: Token)
    requires Valid(s) && ClientEnabled(s, k, Receive)
    ensures Count(DoClientRead(s, k), t) <= Count(s, t)
  {
    var c := s.clients[k].conn.value;
    var conn := s.conns[c];
    var x := conn.(down := conn.down[1..]);
    var popped := SetConn(s, c, x);
    TotalUncons(conn.down, InDown, t);
    SetConnCounts(s, c, x, t);
    match conn.down[0] {
      case OpenFrame(id, p) => TotalSnoc(s.handlers, InHandler, t, Handler(k, id, p, 0, None, Spawned));
      case RequestFrame(id, e) =>
        if id in s.clients[k].pending {
          SetClientCounts(popped, k, s.clients[k].(reader := Handing(s.clients[k].pending[id], e)), t);
        }
    }
  }

  lemma ClientHandCounts(s: State, k: nat, t: Token)
    requires Valid(s) && ClientEnabled(s, k, Hand)
    ensures Count(DoClientHand(s, k), t) <= Count(s, t)
  {
    var r := s.clients[k].reader;
    var idle := SetClient(s, k, s.clients[k].(reader := ClientIdle));
    SetClientCounts(s, k, s.clients[k].(reader := ClientIdle), t);
    if s.handlers[r.handler].slot.None? {
      SetHandlerCounts(idle, r.handler, s.handlers[r.handler].(slot := Some(r.envelope)), t);
    }
  }

  lemma ReconnectCounts(s: State, k: nat, t: Token)
    requires Valid(s) && k < |s.clients|
    ensures Count(DoClientReset(s, k), t) == Count(s, t) == Count(DoClientAttach(s, k), t)
  {
    SetClientCounts(s, k, s.clients[k].(pending := map[], resets := s.clients[k].resets + 1), t);
    var conn := Conn(k, [], [], map[], None, ServerIdle);
    TotalSnoc(s.conns, InConn, t, conn);
    var m := s.(conns := s.conns + [conn]);
    SetClientCounts(m, k, s.clients[k].(conn := Some(|s.conns|)), t);
  }

  lemma ClientStepCounts(s: State, k: nat, step: ClientStep, t: Token)
    requires Valid(s) && ClientEnabled(s, k, step)
    ensures Count(DoClient(s, k, step), t) <= Count(s, t)
  {
    match step
    case Receive => ClientReadCounts(s, k, t);
    case Hand => ClientHandCounts(s, k, t);
    case Reset => ReconnectCounts(s, k, t);
    case Attach => ReconnectCounts(s, k, t);
  }

  lemma PushUpCounts(s: State, c: nat, f: UpFrame, t: Token)
    requires c < |s.conns|
    ensures Count(PushUp(s, c, f), t) == Count(s, t) + InUp(f, t)
  {
    TotalSnoc(s.conns[c].up, InUp, t, f);
    SetConnCounts(s, c, s.conns[c].(up := s.conns[c].up + [f]), t);
  }

  lemma HandlerPendingCounts(s: State, h: nat, t: Token)
    requires Valid(s) && h < |s.handlers| && !s.handlers[h].phase.Working?
    ensures Count(DoHandlerRegister(s, h), t) == Count(s, t) == Count(DoHandlerEnd(s, h), t)
  {
    var x := s.handlers[h];
    var k := s.clients[x.client];
    var a, b := k.(pending := k.pending[x.streamId := h]), k.(pending := k.pending - {x.streamId});
    SetClientCounts(s, x.client, a, t);
    SetHandlerCounts(SetClient(s, x.client, a), h, x.(phase := Listening, epoch := k.resets), t);
    SetClientCounts(s, x.client, b, t);
    SetHandlerCounts(SetClient(s, x.client, b), h, x.(phase := Ended), t);
  }

  lemma HandlerReplyCounts(s: State, h: nat, body: string, ok: bool, t: Token)
    requires Valid(s) && HandlerEnabled(s, h, Answer(body, ok))
    ensures Count(DoHandlerReply(s, h, body, ok), t) <= Count(s, t)
  {
    var x := s.handlers[h];
    SetHandlerCounts(s, h, x.(phase := Answered), t);
    if ok {
      PushUpCounts(SetHandler(s, h, x.(phase := Answered)), s.clients[x.client].conn.value,
                   ReplyFrame(x.streamId, Reply(x.phase.envelope, body)), t);
    }
  }

  lemma HandlerCloseCounts(s: State, h: nat, ok: bool, t: Token)
    requires Valid(s) && HandlerEnabled(s, h, SendClose(ok))
    ensures Count(DoHandlerClose(s, h, ok), t) <= Count(s, t)
  {
    var x := s.handlers[h];
    SetHandlerCounts(s, h, x.(phase := Ending), t);
    if ok {
      PushUpCounts(SetHandler(s, h, x.(phase := Ending)), s.clients[x.client].conn.value, CloseFrame(x.streamId), t);
    }
  }

  lemma HandlerStepCounts(s: State, h: nat, step: HandlerStep, t: Token)
    requires Valid(s) && HandlerEnabled(s, h, step)
    ensures Count(DoHandler(s, h, step), t) <= Count(s, t)
  {
    var x := s.handlers[h];
    match step
    case Register => HandlerPendingCounts(s, h, t);
    case Take => SetHandlerCounts(s, h, x.(slot := None, phase := Working(x.slot.value)), t);
    case Answer(body, ok) => HandlerReplyCounts(s, h, body, ok, t);
    case SendClose(ok) => HandlerCloseCounts(s, h, ok, t);
    case Abandon => SetHandlerCounts(s, h, x.(phase := Ending), t);
    case End => HandlerPendingCounts(s, h, t);
  }

  lemma LoseCounts(s: State, c: nat, kept: nat, t: Token)
    requires Valid(s) && c < |s.conns|
    ensures kept <= |s.conns[c].down| ==> Count(DoLoseDown(s, c, kept), t) <= Count(s, t)
    ensures kept <= |s.conns[c].up| ==> Count(DoLoseUp(s, c, kept), t) <= Count(s, t)
  {
    var conn := s.conns[c];
    if kept <= |conn.down| {
      TotalPrefix(conn.down, InDown, t, kept);
      SetConnCounts(s, c, conn.(down := conn.down[..kept]), t);
    }
    if kept <= |conn.up| {
      TotalPrefix(conn.up, InUp, t, kept);
      SetConnCounts(s, c, conn.(up := conn.up[..kept]), t);
    }
  }

  /** With this repository's clients, only a write makes a token, and it makes one. */
  lemma StepCounts(s: State, step: Step, t: Token)
    requires Valid(s) && !step.Foreign?
    ensures Count(Next(s, step), t)
            <= Count(s, t) + One(Enabled(s, step) && step.Written? && step.ok && t == TokenOf(s, step.conn))
  {
    if Enabled(s, step) {
      match step
      case Arrive(c, request) => ProxiesDoNotCount(s, DoArrive(s, c, request), t);
      case Body(p, ok) => ProxiesDoNotCount(s, DoBody(s, p, ok), t);
      case Written(c, ok) => WrittenCounts(s, c, ok, t);
      case OfProxy(p, x) => ProxyStepCounts(s, p, x, t);
      case OfServer(c, x) => ServerStepCounts(s, c, x, t);
      case OfClient(k, x) => ClientStepCounts(s, k, x, t);
      case OfHandler(h, x) => HandlerStepCounts(s, h, x, t);
      case LoseDown(c, kept) => LoseCounts(s, c, kept, t);
      case LoseUp(c, kept) => LoseCounts(s, c, kept, t);
    }
  }

  // ---------------------------------------------------------------------------
  // Nothing is anywhere twice

  /** The handler has got its open frame, or its request, out. */
  predicate Sent(s: State, t: Token) {
    && t.proxy < |s.proxies|
    && var n := Remaining(s.proxies[t.proxy].phase);
       if t.Opening? then n <= Remaining(OpenSent) else n <= Remaining(Waiting)
  }

  lemma SentStays(s: State, step: Step, t: Token)
    requires Valid(s) && Sent(s, t)
    ensures Sent(Next(s, step), t)
  {
    if Moves(s, step, t.proxy) {
      MoveUsesUp(s, step, t.proxy);
    } else {
      OnlyMovesChangeHandler(s, step, t.proxy);
    }
  }

  lemma WriteSends(s: State, c: nat)
    requires Valid(s) && WriterAt(s, c)
    ensures !Sent(s, TokenOf(s, c)) && Sent(DoWritten(s, c, true), TokenOf(s, c))
  {
  }

  predicate Single(s: State, t: Token) {
    Count(s, t) <= One(Sent(s, t))
  }

  lemma StepKeepsSingle(s: State, step: Step, t: Token)
    requires Valid(s) && !step.Foreign? && Single(s, t)
    ensures Single(Next(s, step), t)
  {
    StepCounts(s, step, t);
    if Sent(s, t) {
      SentStays(s, step, t);
    }
    if Enabled(s, step) && step.Written? && step.ok {
      WriteSends(s, step.conn);
    }
  }

  lemma {:induction false} RunKeepsSingle(s: State, steps: seq<Step>, t: Token)
    requires Valid(s) && OwnClients(steps) && Single(s, t)
    ensures Single(Exec(s, steps), t)
    decreases |steps|
  {
    if steps == [] {
    } else {
      StepKeepsSingle(s, steps[0], t);
      RunKeepsSingle(Next(s, steps[0]), steps[1..], t);
    }
  }

  lemma {:induction false} NoTokens(ks: seq<Client>, t: Token)
    requires forall i | 0 <= i < |ks| :: ks[i].reader.ClientIdle?
    ensures Total(ks, InClient, t) == 0
    decreases |ks|
  {
    if ks == [] {
    } else {
      NoTokens(ks[..|ks| - 1], t);
    }
  }

  lemma InitialSingle(s: State, t: Token)
    requires Initial(s)
    ensures Single(s, t)
  {
    NoTokens(s.clients, t);
  }

  /** In every run of this repository's clients, what a handler has sent exists at most once. */
  lemma SentAtMostOnce(s: State, t: Token)
    requires ReachableByOwnClients(s)
    ensures Single(s, t)
  {
    var init: State, steps: seq<Step> :| Initial(init) && OwnClients(steps) && s == Exec(init, steps);
    InitialSingle(init, t);
    RunKeepsSingle(init, steps, t);
  }

  ghost predicate AllSingle(s: State) {
    forall t :: Single(s, t)
  }

  lemma AllSentAtMostOnce(s: State)
    requires ReachableByOwnClients(s)
    ensures AllSingle(s)
  {
    forall t
      ensures Single(s, t)
    {
      SentAtMostOnce(s, t);
    }
  }
}
