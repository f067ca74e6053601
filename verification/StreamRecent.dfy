/**
 Replies never cross, and read loops never block, while fewer than 2^32 streams
 are opened during the life of any one request. In runs of any length with this
 repository's clients.
 */
module StreamRecent {
  import opened Text
  import opened Streams
  import opened StreamIds
  import opened StreamCorrelation
  import opened StreamProgress
  import opened StreamCrossing
  import opened StreamCounts

  // ---------------------------------------------------------------------------
  // Requests that are still around

  /** The handler's request, its data or its reply is somewhere between gateway and client. */
  predicate Asked(s: State, p: nat) {
    Count(s, Asking(p)) > 0
  }

  /** Fewer than 2^32 streams have been opened since the handler opened its own. */
  predicate Near(s: State, p: nat)
    requires p < |s.proxies|
  {
    |s.streams| <= s.proxies[p].stream + UINT32
  }

  /** So it is for every handler that is at work, or whose request, data or reply is somewhere. */
  predicate Recent(s: State) {
    forall p | 0 <= p < |s.proxies| && s.proxies[p].phase != Chosen && (Held(s.proxies[p].phase) || Asked(s, p)) ::
      Near(s, p)
  }

  predicate StaysRecent(s: State, steps: seq<Step>)
    requires Valid(s)
    decreases |steps|
  {
    Recent(s) && (steps == [] || StaysRecent(Next(s, steps[0]), steps[1..]))
  }

  lemma FarApart(d: int)
    requires d % 0x1_0000_0000 == 0 && -0x1_0000_0000 < d < 0x1_0000_0000
    ensures d == 0
  {
  }

  /** Handlers that are near have no twins that are near. */
  lemma NearHaveNoTwins(s: State, p: nat, q: nat)
    requires Base(s) && p < |s.proxies| && s.proxies[p].phase != Chosen && Near(s, p)
    requires q < |s.proxies| && Near(s, q)
    ensures !Twin(s, q, s.proxies[p].stream)
  {
    if Twin(s, q, s.proxies[p].stream) {
      FarApart(s.proxies[q].stream - s.proxies[p].stream);
    }
  }

  lemma ReplyIsSomewhere(s: State, c: nat)
    requires c < |s.conns| && s.conns[c].up != [] && s.conns[c].up[0].ReplyFrame?
    ensures Asked(s, s.conns[c].up[0].reply.to.proxy)
  {
    var t := Asking(s.conns[c].up[0].reply.to.proxy);
    TotalAt(s.conns[c].up, InUp, t, 0);
    TotalAt(s.conns, InConn, t, c);
  }

  // ---------------------------------------------------------------------------
  // Replies

  lemma RecentDoesNotCross(s: State, step: Step)
    requires Base(s) && Recent(s)
    ensures !Crosses(s, step)
  {
    if Crosses(s, step) {
      var c := step.conn;
      var q, table := s.conns[c].up[0].reply.to.proxy, s.conns[c].table;
      var id :| id in table && Twin(s, q, table[id]);
      assert ConnBase(s, c) && StreamBase(s, table[id]);
      ReplyIsSomewhere(s, c);
      NearHaveNoTwins(s, s.streams[table[id]].opener, q);
      assert false;
    }
  }

  lemma {:induction false} RecentNeverCrosses(s: State, steps: seq<Step>)
    requires Base(s) && StaysRecent(s, steps)
    ensures NeverCrosses(s, steps)
    decreases |steps|
  {
    if steps == [] {
    } else {
      RecentDoesNotCross(s, steps[0]);
      StepKeepsBase(s, steps[0]);
      RecentNeverCrosses(Next(s, steps[0]), steps[1..]);
    }
  }

  /**
   In every run of this repository's clients, of any length, in which fewer than
   2^32 streams are opened while a handler is at work or its request, its data
   or its reply is anywhere, a handler that returns a reply returns one computed
   from its own request's envelope.
   */
  lemma RepliesAnswerTheirRequest(init: State, steps: seq<Step>, p: nat)
    requires Initial(init) && OwnClients(steps) && StaysRecent(init, steps)
    requires p < |Exec(init, steps).proxies| && Exec(init, steps).proxies[p].outcome.Replied?
    ensures var x := Exec(init, steps).proxies[p];
            x.outcome.reply.to == Envelope(p, x.request)
  {
    RecentNeverCrosses(init, steps);
    UncrossedRepliesAnswer(init, steps, p);
  }

  lemma {:induction false} FewOpensStayRecent(s: State, steps: seq<Step>)
    requires Valid(s) && |Exec(s, steps).streams| <= UINT32
    ensures StaysRecent(s, steps)
    decreases |steps|
  {
    if steps == [] {
    } else {
      FewOpensStayRecent(Next(s, steps[0]), steps[1..]);
    }
  }

  lemma EarlyRunsAnswer(init: State, steps: seq<Step>, p: nat)
    requires Initial(init) && OwnClients(steps) && |Exec(init, steps).streams| <= UINT32
    requires p < |Exec(init, steps).proxies| && Exec(init, steps).proxies[p].outcome.Replied?
    ensures var x := Exec(init, steps).proxies[p];
            x.outcome.reply.to == Envelope(p, x.request)
  {
    FewOpensStayRecent(init, steps);
    RepliesAnswerTheirRequest(init, steps, p);
  }

  /** In particular while the gateway has opened at most 2^32 streams. */
  lemma EarlyRepliesAnswerTheirRequest(s: State, p: nat)
    requires ReachableByOwnClients(s) && |s.streams| <= UINT32 && p < |s.proxies|
    ensures s.proxies[p].outcome.Replied? ==> s.proxies[p].outcome.reply.to == Envelope(p, s.proxies[p].request)
  {
    var init: State, steps: seq<Step> :| Initial(init) && OwnClients(steps) && s == Exec(init, steps);
    if s.proxies[p].outcome.Replied? {
      EarlyRunsAnswer(init, steps, p);
    }
  }

  // ---------------------------------------------------------------------------
  // Blocked read loops

  /** The two replies in the way of each other answer two requests, of which one is a twin's. */
  lemma BlockedByTwin(s: State, c: nat, n: nat) returns (q: nat)
    requires Base(s) && Inv(s) && Blocked(s, c, n) && AllSingle(s)
    ensures Twin(s, q, n) && Asked(s, q)
  {
    var a, b := s.conns[c].reader.reply.to.proxy, s.streams[n].response.value.to.proxy;
    assert ConnOk(s, s.conns[c]) && StreamOk(s, n);
    SameIdIff(s, a, n);
    SameIdIff(s, b, n);
    TotalAt(s.conns, InConn, Asking(a), c);
    TotalAt(s.streams, InStream, Asking(a), n);
    TotalAt(s.streams, InStream, Asking(b), n);
    assert Single(s, Asking(a));
    q := if a == s.streams[n].opener then b else a;
  }

  /**
   With this repository's clients a read loop does not block on a stream unless
   the request of a handler whose stream is a multiple of 2^32 opens away, its
   data or its reply, is somewhere.
   */
  lemma OwnClientsNeverBlock(s: State, c: nat, n: nat)
    requires Valid(s) && ReachableByOwnClients(s) && (forall q | Twin(s, q, n) :: !Asked(s, q))
    ensures !Blocked(s, c, n)
  {
    if Blocked(s, c, n) {
      OwnIsReachable(s);
      AllSentAtMostOnce(s);
      var q := BlockedByTwin(s, c, n);
      assert false;
    }
  }

  /** So not at all while the gateway has opened at most 2^32 streams. */
  lemma EarlyReadLoopsNeverBlock(s: State, c: nat, n: nat)
    requires Valid(s) && ReachableByOwnClients(s) && |s.streams| <= UINT32
    ensures !Blocked(s, c, n)
  {
    if Blocked(s, c, n) {
      OwnIsReachable(s);
      assert StreamBase(s, n);
      forall q
        ensures !Twin(s, q, n)
      {
        if Twin(s, q, n) {
          NearHaveNoTwins(s, s.streams[n].opener, q);
        }
      }
      OwnClientsNeverBlock(s, c, n);
    }
  }
}
