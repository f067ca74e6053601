/**
 Stream IDs and stream tables in runs of any length, with clients that may send
 anything: when two streams share an ID, and when opening one finds its ID taken.
 */
module StreamIds {
  import opened Text
  import opened Streams

  lemma SameRemainder(x: int, y: int)
    requires x % 0x1_0000_0000 == y % 0x1_0000_0000
    ensures (x - y) % 0x1_0000_0000 == 0
  {
    var k := x / 0x1_0000_0000 - y / 0x1_0000_0000;
    assert x - y == 0x1_0000_0000 * k;
  }

  lemma RemainderOfShift(y: int, k: int)
    ensures (y + 0x1_0000_0000 * k) % 0x1_0000_0000 == y % 0x1_0000_0000
  {
  }

  /** Two opens share an ID exactly when they are a multiple of 2^32 opens apart. */
  lemma StreamIdsCollideIff(m: nat, n: nat)
    ensures StreamIdOf(m) == StreamIdOf(n) <==> (m - n) % UINT32 == 0
  {
    if StreamIdOf(m) == StreamIdOf(n) {
      SameRemainder(m + 1, n + 1);
    }
    if (m - n) % UINT32 == 0 {
      RemainderOfShift(n + 1, (m - n) / 0x1_0000_0000);
    }
  }

  // ---------------------------------------------------------------------------
  // What holds of every run

  /** The handler has put its stream in the table and not yet run its deferred close. */
  predicate Held(f: Phase) {
    !f.Chosen? && !f.Allocated? && !f.Finished?
  }

  predicate Entered(f: Phase) {
    Held(f) || f.Finished?
  }

  predicate InTable(s: State, n: nat)
    requires n < |s.streams|
  {
    var st := s.streams[n];
    st.conn < |s.conns| && st.id in s.conns[st.conn].table && s.conns[st.conn].table[st.id] == n
  }

  /** A handler that has a stream opened it, on its own connection. */
  predicate ProxyBase(s: State, p: nat)
    requires Valid(s) && p < |s.proxies|
  {
    var x := s.proxies[p];
    x.phase != Chosen ==> s.streams[x.stream].opener == p && s.streams[x.stream].conn == x.conn
  }

  /** A stream is the one its opener has, and its Done was closed at most once. */
  predicate StreamBase(s: State, n: nat)
    requires Valid(s) && n < |s.streams|
  {
    var st := s.streams[n];
    && st.id == StreamIdOf(n) && st.closes <= 1
    && s.proxies[st.opener].phase != Chosen && s.proxies[st.opener].stream == n
  }

  /** Table entries are streams of this connection, under their IDs, with handlers still at work. */
  predicate ConnBase(s: State, c: nat)
    requires Valid(s) && c < |s.conns|
  {
    var conn := s.conns[c];
    && (forall id | id in conn.table ::
          var st := s.streams[conn.table[id]];
          st.conn == c && st.id == id && Held(s.proxies[st.opener].phase))
    && (conn.reader.Delivering? ==>
          var st := s.streams[conn.reader.stream];
          st.conn == c && Entered(s.proxies[st.opener].phase))
  }

  predicate Base(s: State) {
    && Valid(s)
    && (forall p | 0 <= p < |s.proxies| :: ProxyBase(s, p))
    && (forall n | 0 <= n < |s.streams| :: StreamBase(s, n))
    && (forall c | 0 <= c < |s.conns| :: ConnBase(s, c))
  }

  predicate SameProxy(x: Proxy, y: Proxy) {
    && x.conn == y.conn && x.stream == y.stream
    && x.phase.Chosen? == y.phase.Chosen? && x.phase.Allocated? == y.phase.Allocated?
    && x.phase.Finished? == y.phase.Finished?
  }

  /** Entries are only taken out, and the read loop serves a stream it found in the table. */
  predicate TableShrinks(a: Conn, b: Conn) {
    && (forall id | id in b.table :: id in a.table && b.table[id] == a.table[id])
    && (b.reader.Delivering? ==>
          || (a.reader.Delivering? && a.reader.stream == b.reader.stream)
          || (exists id :: id in a.table && a.table[id] == b.reader.stream))
  }

  /** Steps that open no stream, only take entries out of tables, and move no handler in or out of `Held`. */
  lemma BaseFromFrame(s: State, r: State)
    requires Base(s) && Valid(r) && Grows(s, r) && |r.streams| == |s.streams| && |s.conns| <= |r.conns|
    requires forall n | 0 <= n < |s.streams| :: r.streams[n].closes <= 1
    requires forall p | 0 <= p < |s.proxies| :: SameProxy(s.proxies[p], r.proxies[p])
    requires forall p | |s.proxies| <= p < |r.proxies| :: r.proxies[p].phase.Chosen?
    requires forall c | 0 <= c < |s.conns| :: TableShrinks(s.conns[c], r.conns[c])
    requires forall c | |s.conns| <= c < |r.conns| :: r.conns[c].table == map[] && !r.conns[c].reader.Delivering?
    ensures Base(r)
  {
    forall p | 0 <= p < |r.proxies|
      ensures ProxyBase(r, p)
    {
      assert p < |s.proxies| ==> ProxyBase(s, p) && SameProxy(s.proxies[p], r.proxies[p]);
    }
    forall n | 0 <= n < |r.streams|
      ensures StreamBase(r, n)
    {
      assert StreamBase(s, n) && SameProxy(s.proxies[s.streams[n].opener], r.proxies[s.streams[n].opener]);
    }
    forall c | 0 <= c < |r.conns|
      ensures ConnBase(r, c)
    {
      if c < |s.conns| {
        assert ConnBase(s, c) && TableShrinks(s.conns[c], r.conns[c]);
        assert forall n | 0 <= n < |s.streams| ::
                 SameProxy(s.proxies[s.streams[n].opener], r.proxies[r.streams[n].opener]);
      }
    }
  }

  // ---------------------------------------------------------------------------
  // Every step keeps it

  lemma DoneOnce(s: State)
    requires Base(s)
    ensures forall n | 0 <= n < |s.streams| :: s.streams[n].closes <= 1
  {
    forall n | 0 <= n < |s.streams|
      ensures s.streams[n].closes <= 1
    {
      assert StreamBase(s, n);
    }
  }

  lemma FrameKeepsBase(s: State, r: State)
    requires Base(s) && Valid(r) && Grows(s, r) && |r.streams| == |s.streams| && |s.conns| <= |r.conns|
    requires forall n | 0 <= n < |s.streams| :: r.streams[n].closes == s.streams[n].closes
    requires forall p | 0 <= p < |s.proxies| :: SameProxy(s.proxies[p], r.proxies[p])
    requires forall p | |s.proxies| <= p < |r.proxies| :: r.proxies[p].phase.Chosen?
    requires forall c | 0 <= c < |s.conns| :: TableShrinks(s.conns[c], r.conns[c])
    requires forall c | |s.conns| <= c < |r.conns| :: r.conns[c].table == map[] && !r.conns[c].reader.Delivering?
    ensures Base(r)
  {
    DoneOnce(s);
    BaseFromFrame(s, r);
  }

  lemma AllocateKeepsBase(s: State, p: nat)
    requires Base(s) && ProxyAt(s, p, Chosen)
    ensures Base(DoAllocate(s, p))
  {
    var r := DoAllocate(s, p);
    forall q | 0 <= q < |r.proxies|
      ensures ProxyBase(r, q)
    {
      assert ProxyBase(s, q);
    }
    forall n | 0 <= n < |r.streams|
      ensures StreamBase(r, n)
    {
      assert n < |s.streams| ==> StreamBase(s, n);
    }
    forall c | 0 <= c < |r.conns|
      ensures ConnBase(r, c)
    {
      assert ConnBase(s, c);
    }
  }

  lemma InsertKeepsBase(s: State, p: nat)
    requires Base(s) && ProxyAt(s, p, Allocated)
    ensures Base(DoInsert(s, p))
  {
    var r := DoInsert(s, p);
    assert ProxyBase(s, p);
    forall q | 0 <= q < |r.proxies|
      ensures ProxyBase(r, q)
    {
      assert ProxyBase(s, q);
    }
    forall n | 0 <= n < |r.streams|
      ensures StreamBase(r, n)
    {
      assert StreamBase(s, n);
    }
    forall c | 0 <= c < |r.conns|
      ensures ConnBase(r, c)
    {
      assert ConnBase(s, c);
    }
  }

  lemma CloseStreamKeepsBase(s: State, c: nat, id: nat)
    requires Base(s) && c < |s.conns|
    ensures Base(CloseStream(s, c, id))
  {
    DoneOnce(s);
    BaseFromFrame(s, CloseStream(s, c, id));
  }

  /** The deferred close has run, so no table holds the handler's stream. */
  lemma FinishKeepsBase(s: State, p: nat, r: State)
    requires Base(s) && ProxyAt(s, p, Closing) && !InTable(s, s.proxies[p].stream)
    requires r == SetProxy(s, p, s.proxies[p].(phase := Finished))
    ensures Base(r)
  {
    forall q | 0 <= q < |r.proxies|
      ensures ProxyBase(r, q)
    {
      assert ProxyBase(s, q);
    }
    forall n | 0 <= n < |r.streams|
      ensures StreamBase(r, n)
    {
      assert StreamBase(s, n);
    }
    forall c | 0 <= c < |r.conns|
      ensures ConnBase(r, c)
    {
      assert ConnBase(s, c);
      assert forall id | id in s.conns[c].table :: StreamBase(s, s.conns[c].table[id]);
    }
  }

  lemma CloseOwnKeepsBase(s: State, p: nat)
    requires Base(s) && ProxyAt(s, p, Closing)
    ensures Base(DoCloseOwn(s, p))
  {
    assert ProxyBase(s, p);
    var m := CloseStream(s, s.proxies[p].conn, s.streams[s.proxies[p].stream].id);
    CloseStreamKeepsBase(s, s.proxies[p].conn, s.streams[s.proxies[p].stream].id);
    FinishKeepsBase(m, p, DoCloseOwn(s, p));
  }

  lemma ProxyStepKeepsBase(s: State, p: nat, step: ProxyStep)
    requires Base(s) && ProxyEnabled(s, p, step)
    ensures Base(DoProxy(s, p, step))
  {
    match step
    case Allocate => AllocateKeepsBase(s, p);
    case Insert => InsertKeepsBase(s, p);
    case Lock => FrameKeepsBase(s, DoLock(s, p));
    case TakeResponse => FrameKeepsBase(s, DoTakeResponse(s, p));
    case TakeDone => FrameKeepsBase(s, DoFail(s, p, BadGateway));
    case TimeOut => FrameKeepsBase(s, DoFail(s, p, GatewayTimeout));
    case CloseOwn => CloseOwnKeepsBase(s, p);
  }

  lemma ServerReadKeepsBase(s: State, c: nat)
    requires Base(s) && ServerEnabled(s, c, Read)
    ensures Base(DoServerRead(s, c))
  {
    var popped := SetConn(s, c, s.conns[c].(up := s.conns[c].up[1..]));
    FrameKeepsBase(s, popped);
    var f := s.conns[c].up[0];
    var id := ParseUint32(f.streamId);
    if id.Some? && f.CloseFrame? {
      CloseStreamKeepsBase(popped, c, id.value);
    } else if id.Some? && id.value in s.conns[c].table {
      FrameKeepsBase(popped, StartDelivery(popped, c, s.conns[c].table[id.value], f.reply));
    }
  }

  lemma ServerExitKeepsBase(s: State, c: nat)
    requires Base(s) && c < |s.conns|
    ensures Base(DoServerExit(s, c))
  {
    DoneOnce(s);
    BaseFromFrame(s, DoServerExit(s, c));
  }

  lemma ServerStepKeepsBase(s: State, c: nat, step: ServerStep)
    requires Base(s) && ServerEnabled(s, c, step)
    ensures Base(DoServer(s, c, step))
  {
    match step
    case Read => ServerReadKeepsBase(s, c);
    case Deliver => FrameKeepsBase(s, DoServerDeliver(s, c));
    case GiveUp => FrameKeepsBase(s, DoServerGiveUp(s, c));
    case Exit => ServerExitKeepsBase(s, c);
  }

  lemma ClientStepKeepsBase(s: State, k: nat, step: ClientStep)
    requires Base(s) && ClientEnabled(s, k, step)
    ensures Base(DoClient(s, k, step))
  {
    FrameKeepsBase(s, DoClient(s, k, step));
  }

  lemma HandlerStepKeepsBase(s: State, h: nat, step: HandlerStep)
    requires Base(s) && HandlerEnabled(s, h, step)
    ensures Base(DoHandler(s, h, step))
  {
    FrameKeepsBase(s, DoHandler(s, h, step));
  }

  lemma WrittenKeepsBase(s: State, c: nat, ok: bool)
    requires Base(s) && WriterAt(s, c)
    ensures Base(DoWritten(s, c, ok))
  {
    FrameKeepsBase(s, DoWritten(s, c, ok));
  }

  /** Arrivals, bodies, written frames, lost frames and frames of foreign clients. */
  lemma OutsideStepKeepsBase(s: State, step: Step)
    requires Base(s) && Enabled(s, step)
    requires !step.OfProxy? && !step.OfServer? && !step.OfClient? && !step.OfHandler?
    ensures Base(Next(s, step))
  {
    match step
    case Arrive(c, request) => FrameKeepsBase(s, DoArrive(s, c, request));
    case Body(p, ok) => FrameKeepsBase(s, DoBody(s, p, ok));
    case Written(c, ok) => WrittenKeepsBase(s, c, ok);
    case LoseDown(c, kept) => FrameKeepsBase(s, DoLoseDown(s, c, kept));
    case LoseUp(c, kept) => FrameKeepsBase(s, DoLoseUp(s, c, kept));
    case Foreign(c, f) => FrameKeepsBase(s, DoForeign(s, c, f));
  }

  lemma StepKeepsBase(s: State, step: Step)
    requires Base(s)
    ensures Base(Next(s, step))
  {
    if Enabled(s, step) {
      match step
      case OfProxy(p, x) => ProxyStepKeepsBase(s, p, x);
      case OfServer(c, x) => ServerStepKeepsBase(s, c, x);
      case OfClient(k, x) => ClientStepKeepsBase(s, k, x);
      case OfHandler(h, x) => HandlerStepKeepsBase(s, h, x);
      case _ => OutsideStepKeepsBase(s, step);
    }
  }

  lemma {:induction false} RunKeepsBase(s: State, steps: seq<Step>)
    requires Base(s)
    ensures Base(Exec(s, steps))
    decreases |steps|
  {
    if steps == [] {
    } else {
      StepKeepsBase(s, steps[0]);
      RunKeepsBase(Next(s, steps[0]), steps[1..]);
    }
  }

  lemma ReachableBase(s: State)
    requires Reachable(s)
    ensures Base(s)
  {
    var init: State, steps: seq<Step> :| Initial(init) && s == Exec(init, steps);
    RunKeepsBase(init, steps);
  }

  // ---------------------------------------------------------------------------
  // Taken IDs

  /** The table that handler `p` is about to enter its stream in. */
  function TableOf(s: State, p: nat): map<nat, nat>
    requires Valid(s) && p < |s.proxies|
  {
    s.conns[s.proxies[p].conn].table
  }

  lemma SlotTakenIff(s: State, p: nat)
    requires Base(s) && ProxyAt(s, p, Allocated)
    ensures var i, table := s.proxies[p].stream, TableOf(s, p);
            s.streams[i].id in table <==> exists id | id in table :: (table[id] - i) % UINT32 == 0
  {
    var i, table := s.proxies[p].stream, TableOf(s, p);
    assert ConnBase(s, s.proxies[p].conn) && StreamBase(s, i);
    forall id | id in table
      ensures id == s.streams[i].id <==> (table[id] - i) % UINT32 == 0
    {
      assert StreamBase(s, table[id]);
      StreamIdsCollideIff(table[id], i);
    }
  }

  /**
   In a run of any length, `OpenStream` finds its ID taken exactly when its
   connection's table holds a stream opened a multiple of 2^32 opens earlier or later.
   */
  lemma IdTakenIff(s: State, p: nat)
    requires Valid(s) && Reachable(s) && ProxyAt(s, p, Allocated)
    ensures var i, table := s.proxies[p].stream, TableOf(s, p);
            s.streams[i].id in table <==> exists id | id in table :: (table[id] - i) % UINT32 == 0
  {
    ReachableBase(s);
    SlotTakenIff(s, p);
  }

  /** Fewer than 2^32 opens separate the handler's stream from every stream in the table. */
  predicate OpensNear(s: State, p: nat)
    requires Valid(s) && p < |s.proxies|
  {
    forall id | id in TableOf(s, p) ::
      TableOf(s, p)[id] < s.proxies[p].stream + UINT32 && s.proxies[p].stream < TableOf(s, p)[id] + UINT32
  }

  lemma SlotIsFree(s: State, p: nat)
    requires Base(s) && ProxyAt(s, p, Allocated) && OpensNear(s, p)
    ensures s.streams[s.proxies[p].stream].id !in TableOf(s, p)
  {
    var i, table := s.proxies[p].stream, TableOf(s, p);
    assert ProxyBase(s, p) && ConnBase(s, s.proxies[p].conn) && StreamBase(s, i);
    if s.streams[i].id in table {
      assert StreamBase(s, table[s.streams[i].id]);
      StreamIdsCollideIff(table[s.streams[i].id], i);
    }
  }

  /**
   So it overwrites nothing while fewer than 2^32 opens separate the new stream
   from every stream still in the table.
   */
  lemma OpenOverwritesNothing(s: State, p: nat)
    requires Valid(s) && Reachable(s) && ProxyAt(s, p, Allocated) && OpensNear(s, p)
    ensures s.streams[s.proxies[p].stream].id !in TableOf(s, p)
  {
    ReachableBase(s);
    SlotIsFree(s, p);
  }
}
