/**
 The life of a stream across proxy close, client close frame and connection
 removal, in runs of any length and whatever the clients send: which step closes
 Done, and when a stream is lost, neither in its table nor ever done.
 */
module StreamLifecycle {
  import opened Results
  import opened Text
  import opened Streams
  import opened StreamIds

  // ---------------------------------------------------------------------------
  // Lost streams

  /** The stream was put in its table, is there no longer, and is not done. */
  predicate Lost(s: State, n: nat)
    requires Valid(s)
  {
    n < |s.streams| && Entered(s.proxies[s.streams[n].opener].phase) && !InTable(s, n) && s.streams[n].closes == 0
  }

  /** The step enters another stream under the ID of stream `n`, which is in the table and not done. */
  predicate Overwrites(s: State, step: Step, n: nat)
    requires Valid(s)
  {
    && Enabled(s, step) && step.OfProxy? && step.proxyStep.Insert?
    && n < |s.streams| && InTable(s, n) && s.streams[n].closes == 0
    && s.proxies[step.proxy].conn == s.streams[n].conn
    && s.streams[s.proxies[step.proxy].stream].id == s.streams[n].id
  }

  lemma LostFromFrame(s: State, r: State, n: nat)
    requires Valid(s) && Valid(r) && Grows(s, r) && |r.streams| == |s.streams| && n < |s.streams|
    requires s.streams[n].conn < |r.conns| && r.conns[s.streams[n].conn].table == s.conns[s.streams[n].conn].table
    requires r.streams[n].closes == s.streams[n].closes
    requires Entered(r.proxies[s.streams[n].opener].phase) <==> Entered(s.proxies[s.streams[n].opener].phase)
    ensures Lost(r, n) <==> Lost(s, n)
  {
  }

  lemma CloseStreamLoses(s: State, c: nat, id: nat, n: nat)
    requires Base(s) && c < |s.conns| && n < |s.streams|
    ensures Lost(CloseStream(s, c, id), n) <==> Lost(s, n)
  {
    assert ConnBase(s, c) && StreamBase(s, n);
  }

  /** After an insert the handler's stream is in the table, and what was there under its ID is not. */
  lemma InsertEnters(s: State, p: nat, n: nat)
    requires Base(s) && ProxyAt(s, p, Allocated) && n < |s.streams|
    ensures var i, st := s.proxies[p].stream, s.streams[n];
            InTable(DoInsert(s, p), n)
            <==> n == i || (InTable(s, n) && !(s.proxies[p].conn == st.conn && s.streams[i].id == st.id))
  {
    assert ProxyBase(s, p);
  }

  lemma InsertLoses(s: State, p: nat, n: nat)
    requires Base(s) && ProxyAt(s, p, Allocated) && n < |s.streams|
    ensures Lost(DoInsert(s, p), n) <==> Lost(s, n) || Overwrites(s, OfProxy(p, Insert), n)
  {
    InsertEnters(s, p, n);
    assert ProxyBase(s, p) && StreamBase(s, n);
    assert InTable(s, n) ==> ConnBase(s, s.streams[n].conn);
  }

  lemma CloseOwnLoses(s: State, p: nat, n: nat)
    requires Base(s) && ProxyAt(s, p, Closing) && n < |s.streams|
    ensures Lost(DoCloseOwn(s, p), n) <==> Lost(s, n)
  {
    var m := CloseStream(s, s.proxies[p].conn, s.streams[s.proxies[p].stream].id);
    CloseStreamLoses(s, s.proxies[p].conn, s.streams[s.proxies[p].stream].id, n);
    LostFromFrame(m, DoCloseOwn(s, p), n);
  }

  lemma ProxyStepLoses(s: State, p: nat, step: ProxyStep, n: nat)
    requires Base(s) && ProxyEnabled(s, p, step) && n < |s.streams|
    ensures Lost(DoProxy(s, p, step), n) <==> Lost(s, n) || Overwrites(s, OfProxy(p, step), n)
  {
    match step
    case Allocate => assert StreamBase(s, n);
    case Insert => InsertLoses(s, p, n);
    case CloseOwn => CloseOwnLoses(s, p, n);
    case _ => LostFromFrame(s, DoProxy(s, p, step), n);
  }

  lemma ServerReadLoses(s: State, c: nat, n: nat)
    requires Base(s) && ServerEnabled(s, c, Read) && n < |s.streams|
    ensures Lost(DoServerRead(s, c), n) <==> Lost(s, n)
  {
    var popped := SetConn(s, c, s.conns[c].(up := s.conns[c].up[1..]));
    FrameKeepsBase(s, popped);
    LostFromFrame(s, popped, n);
    var id := ParseUint32(s.conns[c].up[0].streamId);
    if id.Some? && s.conns[c].up[0].CloseFrame? {
      CloseStreamLoses(popped, c, id.value, n);
    } else {
      LostFromFrame(s, DoServerRead(s, c), n);
    }
  }

  lemma ServerExitLoses(s: State, c: nat, n: nat)
    requires Base(s) && c < |s.conns| && n < |s.streams|
    ensures Lost(DoServerExit(s, c), n) <==> Lost(s, n)
  {
    assert ConnBase(s, c) && ConnBase(s, s.streams[n].conn);
  }

  lemma ServerStepLoses(s: State, c: nat, step: ServerStep, n: nat)
    requires Base(s) && ServerEnabled(s, c, step) && n < |s.streams|
    ensures Lost(DoServer(s, c, step), n) <==> Lost(s, n)
  {
    match step
    case Read => ServerReadLoses(s, c, n);
    case Exit => ServerExitLoses(s, c, n);
    case _ => LostFromFrame(s, DoServer(s, c, step), n);
  }

  /** State `r` has the streams, tables and read loops of `s`, and the same handlers between open and close. */
  predicate LeavesStreams(s: State, r: State) {
    && r.streams == s.streams && |s.conns| <= |r.conns| && |s.proxies| <= |r.proxies|
    && (forall c | 0 <= c < |s.conns| ::
          r.conns[c].table == s.conns[c].table && r.conns[c].reader == s.conns[c].reader)
    && (forall p | 0 <= p < |s.proxies| :: Entered(r.proxies[p].phase) <==> Entered(s.proxies[p].phase))
  }

  lemma ClientsLeaveStreams(s: State, k: nat, step: ClientStep)
    requires Valid(s) && ClientEnabled(s, k, step)
    ensures LeavesStreams(s, DoClient(s, k, step))
  {
  }

  lemma HandlersLeaveStreams(s: State, h: nat, step: HandlerStep)
    requires Valid(s) && HandlerEnabled(s, h, step)
    ensures LeavesStreams(s, DoHandler(s, h, step))
  {
  }

  lemma WrittenLeavesStreams(s: State, c: nat, ok: bool)
    requires Valid(s) && WriterAt(s, c)
    ensures LeavesStreams(s, DoWritten(s, c, ok))
  {
  }

  lemma BodyLeavesStreams(s: State, p: nat, ok: bool)
    requires Valid(s) && ProxyAt(s, p, OpenSent)
    ensures LeavesStreams(s, DoBody(s, p, ok))
  {
  }

  /** Steps other than those of proxy handlers and of the gateway's read loops leave tables and Done channels alone. */
  lemma OthersLeaveStreams(s: State, step: Step)
    requires Valid(s) && Enabled(s, step) && !step.OfProxy? && !step.OfServer?
    ensures LeavesStreams(s, Next(s, step))
  {
    match step
    case Body(p, ok) => BodyLeavesStreams(s, p, ok);
    case Written(c, ok) => WrittenLeavesStreams(s, c, ok);
    case OfClient(k, x) => ClientsLeaveStreams(s, k, x);
    case OfHandler(h, x) => HandlersLeaveStreams(s, h, x);
    case _ =>
  }

  lemma NewStreamsAreNotLost(s: State, step: Step, n: nat)
    requires Base(s) && |s.streams| <= n
    ensures !Lost(Next(s, step), n)
  {
    if Enabled(s, step) && !step.OfProxy? && !step.OfServer? {
      OthersLeaveStreams(s, step);
    }
  }

  /** A step loses a stream exactly when it overwrites it, and a lost stream stays lost. */
  lemma StepLoses(s: State, step: Step, n: nat)
    requires Base(s)
    ensures Lost(Next(s, step), n) <==> Lost(s, n) || Overwrites(s, step, n)
  {
    if n >= |s.streams| {
      NewStreamsAreNotLost(s, step, n);
    } else if Enabled(s, step) {
      match step
      case OfProxy(p, x) => ProxyStepLoses(s, p, x, n);
      case OfServer(c, x) => ServerStepLoses(s, c, x, n);
      case _ =>
        OthersLeaveStreams(s, step);
        LostFromFrame(s, Next(s, step), n);
    }
  }

  /** Some step of the run overwrites stream `n`. */
  predicate OverwrittenIn(s: State, steps: seq<Step>, n: nat)
    requires Valid(s)
    decreases |steps|
  {
    steps != [] && (Overwrites(s, steps[0], n) || OverwrittenIn(Next(s, steps[0]), steps[1..], n))
  }

  lemma {:induction false} RunLoses(s: State, steps: seq<Step>, n: nat)
    requires Base(s)
    ensures Lost(Exec(s, steps), n) <==> Lost(s, n) || OverwrittenIn(s, steps, n)
    decreases |steps|
  {
    if steps == [] {
    } else {
      StepLoses(s, steps[0], n);
      StepKeepsBase(s, steps[0]);
      RunLoses(Next(s, steps[0]), steps[1..], n);
    }
  }

  // ---------------------------------------------------------------------------
  // What it means for every run

  /** No Done channel is closed twice, and a finished handler's stream is in no table. */
  lemma DoneAtMostOnce(s: State, n: nat)
    requires Base(s) && n < |s.streams|
    ensures s.streams[n].closes <= 1
    ensures s.proxies[s.streams[n].opener].phase.Finished? ==> !InTable(s, n)
  {
    assert StreamBase(s, n) && ConnBase(s, s.streams[n].conn);
  }

  /**
   In every run of any length, whatever the clients send: no Done channel is
   closed twice, and a finished handler's stream is in no table. A stream that
   was put in its table is still there or is done, and that of a finished
   handler is done, if and only if no later open on its connection has
   overwritten it.
   */
  lemma StreamsAreAccountedFor(init: State, steps: seq<Step>, n: nat)
    requires Initial(init) && n < |Exec(init, steps).streams|
    ensures var s := Exec(init, steps);
            var f := s.proxies[s.streams[n].opener].phase;
            && s.streams[n].closes <= 1
            && (f.Allocated? || InTable(s, n) || s.streams[n].closes == 1 <==> !OverwrittenIn(init, steps, n))
            && (f.Finished? ==> !InTable(s, n) && (s.streams[n].closes == 1 <==> !OverwrittenIn(init, steps, n)))
  {
    RunKeepsBase(init, steps);
    RunLoses(init, steps, n);
    DoneAtMostOnce(Exec(init, steps), n);
    assert StreamBase(Exec(init, steps), n);
  }

  /** At every open in the run, fewer than 2^32 opens separate the new stream from those in the table. */
  predicate OpensStayNear(s: State, steps: seq<Step>)
    requires Valid(s)
    decreases |steps|
  {
    || steps == []
    || (&& (steps[0].OfProxy? && steps[0].proxyStep.Insert? && Enabled(s, steps[0]) ==> OpensNear(s, steps[0].proxy))
        && OpensStayNear(Next(s, steps[0]), steps[1..]))
  }

  lemma NearOpenOverwritesNothing(s: State, step: Step, n: nat)
    requires Base(s) && Enabled(s, step) && step.OfProxy? && step.proxyStep.Insert? && OpensNear(s, step.proxy)
    ensures !Overwrites(s, step, n)
  {
    SlotIsFree(s, step.proxy);
  }

  /** A run overwrites no stream while fewer than 2^32 opens happen during any stream's life. */
  lemma {:induction false} NearOpensOverwriteNothing(s: State, steps: seq<Step>, n: nat)
    requires Base(s) && OpensStayNear(s, steps)
    ensures !OverwrittenIn(s, steps, n)
    decreases |steps|
  {
    if steps == [] {
    } else {
      if Overwrites(s, steps[0], n) {
        NearOpenOverwritesNothing(s, steps[0], n);
      }
      StepKeepsBase(s, steps[0]);
      NearOpensOverwriteNothing(Next(s, steps[0]), steps[1..], n);
    }
  }

  /** In particular in a gateway that has opened at most 2^32 streams. */
  lemma {:induction false} FewOpensStayNear(s: State, steps: seq<Step>)
    requires Valid(s) && |Exec(s, steps).streams| <= UINT32
    ensures OpensStayNear(s, steps)
    decreases |steps|
  {
    if steps == [] {
    } else {
      FewOpensStayNear(Next(s, steps[0]), steps[1..]);
    }
  }

  lemma ExitClosesTable(s: State, c: nat, id: nat)
    requires Valid(s) && ServerEnabled(s, c, Exit) && id in s.conns[c].table
    ensures var n := s.conns[c].table[id];
            n < |Next(s, OfServer(c, Exit)).streams| && Next(s, OfServer(c, Exit)).streams[n].closes > 0
  {
    assert s.conns[c].table[id] in s.conns[c].table.Values;
  }

  lemma DoneStays(s: State, steps: seq<Step>, n: nat)
    requires Valid(s) && n < |s.streams| && s.streams[n].closes > 0
    ensures n < |Exec(s, steps).streams| && Exec(s, steps).streams[n].closes > 0
  {
    assert SameStream(s.streams[n], Exec(s, steps).streams[n]);
  }

  /** Every stream in the table when a connection is removed is done from then on, whatever happens next. */
  lemma RemovalClosesForGood(s: State, c: nat, id: nat, steps: seq<Step>)
    requires Valid(s) && ServerEnabled(s, c, Exit) && id in s.conns[c].table
    ensures var n := s.conns[c].table[id];
            var r := Exec(Next(s, OfServer(c, Exit)), steps);
            n < |r.streams| && r.streams[n].closes > 0
  {
    ExitClosesTable(s, c, id);
    DoneStays(Next(s, OfServer(c, Exit)), steps, s.conns[c].table[id]);
  }

  // ---------------------------------------------------------------------------
  // Which steps close Done and drain Response

  /** The step closes Done of stream `n`: a deferred close or a close frame for its ID, or the removal of its connection. */
  predicate Closes(s: State, step: Step, n: nat)
    requires Valid(s) && n < |s.streams|
  {
    var st := s.streams[n];
    && InTable(s, n) && Enabled(s, step)
    && match step
       case OfProxy(p, CloseOwn) => s.proxies[p].conn == st.conn && s.streams[s.proxies[p].stream].id == st.id
       case OfServer(c, Read) =>
         c == st.conn && s.conns[c].up[0].CloseFrame? && ParseUint32(s.conns[c].up[0].streamId) == Some(st.id)
       case OfServer(c, Exit) => c == st.conn
       case _ => false
  }

  lemma CloseStreamCloses(s: State, c: nat, id: nat, n: nat)
    requires Base(s) && c < |s.conns| && n < |s.streams| && s.streams[n].closes == 0
    ensures CloseStream(s, c, id).streams[n].closes > 0
            <==> InTable(s, n) && s.streams[n].conn == c && s.streams[n].id == id
  {
    assert ConnBase(s, c);
  }

  lemma ServerReadCloses(s: State, c: nat, n: nat)
    requires Base(s) && ServerEnabled(s, c, Read) && n < |s.streams| && s.streams[n].closes == 0
    ensures DoServerRead(s, c).streams[n].closes > 0 <==> Closes(s, OfServer(c, Read), n)
  {
    var popped := SetConn(s, c, s.conns[c].(up := s.conns[c].up[1..]));
    FrameKeepsBase(s, popped);
    var id := ParseUint32(s.conns[c].up[0].streamId);
    if id.Some? {
      CloseStreamCloses(popped, c, id.value, n);
    }
  }

  lemma ServerExitCloses(s: State, c: nat, n: nat)
    requires Base(s) && ServerEnabled(s, c, Exit) && n < |s.streams| && s.streams[n].closes == 0
    ensures DoServerExit(s, c).streams[n].closes > 0 <==> Closes(s, OfServer(c, Exit), n)
  {
    assert ConnBase(s, c);
  }

  lemma ServerStepCloses(s: State, c: nat, step: ServerStep, n: nat)
    requires Base(s) && ServerEnabled(s, c, step) && n < |s.streams| && s.streams[n].closes == 0
    ensures DoServer(s, c, step).streams[n].closes > 0 <==> Closes(s, OfServer(c, step), n)
  {
    match step
    case Read => ServerReadCloses(s, c, n);
    case Exit => ServerExitCloses(s, c, n);
    case _ =>
  }

  lemma ProxyStepCloses(s: State, p: nat, step: ProxyStep, n: nat)
    requires Base(s) && ProxyEnabled(s, p, step) && n < |s.streams| && s.streams[n].closes == 0
    ensures DoProxy(s, p, step).streams[n].closes > 0 <==> Closes(s, OfProxy(p, step), n)
  {
    if step.CloseOwn? {
      CloseStreamCloses(s, s.proxies[p].conn, s.streams[s.proxies[p].stream].id, n);
    }
  }

  /** Done of an open stream is closed by exactly these steps. */
  lemma DoneClosesIff(s: State, step: Step, n: nat)
    requires Base(s) && n < |s.streams| && s.streams[n].closes == 0
    ensures Next(s, step).streams[n].closes > 0 <==> Closes(s, step, n)
  {
    if Enabled(s, step) {
      match step
      case OfProxy(p, x) => ProxyStepCloses(s, p, x, n);
      case OfServer(c, x) => ServerStepCloses(s, c, x, n);
      case _ => OthersLeaveStreams(s, step);
    }
  }

  /** The handler of stream `n` takes the buffered reply. */
  predicate Takes(s: State, step: Step, n: nat)
    requires Valid(s) && n < |s.streams|
  {
    Enabled(s, step) && step == OfProxy(s.streams[n].opener, TakeResponse)
  }

  lemma ReadLoopsLeaveResponse(s: State, c: nat, step: ServerStep, n: nat)
    requires Valid(s) && ServerEnabled(s, c, step) && n < |s.streams| && s.streams[n].response.Some?
    ensures DoServer(s, c, step).streams[n].response == s.streams[n].response
  {
  }

  /** A buffered reply stays as it is until the handler of its stream takes it. */
  lemma ResponseStaysUntilTaken(s: State, step: Step, n: nat)
    requires Base(s) && n < |s.streams| && s.streams[n].response.Some?
    ensures Next(s, step).streams[n].response == if Takes(s, step, n) then None else s.streams[n].response
  {
    assert StreamBase(s, n);
    if Enabled(s, step) {
      match step
      case OfProxy(p, x) => assert ProxyBase(s, p);
      case OfServer(c, x) => ReadLoopsLeaveResponse(s, c, x, n);
      case _ => OthersLeaveStreams(s, step);
    }
  }
}
