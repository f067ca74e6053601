/**
 When replies cross. A reply is matched with a stream by the stream's ID, and
 IDs come again after 2^32 opens; so a reply reaches a handler whose request it
 does not answer exactly when, as the read loop reads it, the connection's table
 holds a stream a multiple of 2^32 opens away from the sender's.
 In runs of any length with this repository's clients.
 */
module StreamCrossing {
  import opened Results
  import opened Text
  import opened Streams
  import opened StreamIds
  import opened StreamCorrelation
  import opened StreamProgress

  // ---------------------------------------------------------------------------
  // Streams with the same ID

  /** The stream of handler `q` is not stream `n`, but a multiple of 2^32 opens away from it. */
  predicate Twin(s: State, q: nat, n: nat) {
    && q < |s.proxies| && s.proxies[q].phase != Chosen && s.proxies[q].stream != n
    && (s.proxies[q].stream - n) % UINT32 == 0
  }

  /** A handler's stream is the only one it has, and its ID follows from its position. */
  lemma OwnId(s: State, q: nat, id: nat)
    requires Base(s) && HasId(s, q, id)
    ensures q < |s.proxies| && s.proxies[q].phase != Chosen
    ensures var st := s.streams[s.proxies[q].stream];
            st.opener == q && st.id == id == StreamIdOf(s.proxies[q].stream)
  {
    var n :| 0 <= n < |s.streams| && s.streams[n].opener == q && s.streams[n].id == id;
    assert StreamBase(s, n);
  }

  /** Handlers that have opened streams with the ID of stream `n` are its opener and those of its twins. */
  lemma SameIdIff(s: State, q: nat, n: nat)
    requires Base(s) && n < |s.streams|
    ensures HasId(s, q, s.streams[n].id) <==> q == s.streams[n].opener || Twin(s, q, n)
  {
    assert StreamBase(s, n);
    if HasId(s, q, s.streams[n].id) {
      OwnId(s, q, s.streams[n].id);
      StreamIdsCollideIff(s.proxies[q].stream, n);
    } else if Twin(s, q, n) {
      assert ProxyBase(s, q) && StreamBase(s, s.proxies[q].stream);
      StreamIdsCollideIff(s.proxies[q].stream, n);
    }
  }

  /** The opener of a stream has no other, so it is not its twin's. */
  lemma TwinsDiffer(s: State, q: nat, n: nat)
    requires Base(s) && n < |s.streams| && Twin(s, q, n)
    ensures q != s.streams[n].opener
  {
    assert StreamBase(s, n);
  }

  lemma OwnIsReachable(s: State)
    requires ReachableByOwnClients(s)
    ensures Reachable(s) && Base(s) && Inv(s)
  {
    var init: State, steps: seq<Step> :| Initial(init) && OwnClients(steps) && s == Exec(init, steps);
    ReachableBase(s);
    ReachableInv(s);
  }

  /**
   In runs of any length a reply that a handler returns answers a request that
   was really made, by the handler itself or by one whose stream is a multiple
   of 2^32 opens away from its own; so by itself if there is no such handler.
   */
  lemma RepliesAnswerSameId(s: State, p: nat)
    requires ReachableByOwnClients(s) && p < |s.proxies| && s.proxies[p].outcome.Replied?
    ensures var e := s.proxies[p].outcome.reply.to;
            && Genuine(s, e)
            && (e.proxy == p || Twin(s, e.proxy, s.proxies[p].stream))
            && ((forall q :: !Twin(s, q, s.proxies[p].stream)) ==> e == Envelope(p, s.proxies[p].request))
  {
    OwnIsReachable(s);
    assert ProxyOk(s, p);
    SameIdIff(s, s.proxies[p].outcome.reply.to.proxy, s.proxies[p].stream);
  }

  // ---------------------------------------------------------------------------
  // The read that crosses

  /** The reply in the read loop's hands answers the request of the stream's own handler. */
  predicate ReaderMatched(s: State, c: nat)
    requires Valid(s) && c < |s.conns|
  {
    var r := s.conns[c].reader;
    r.Delivering? ==> r.reply.to.proxy == s.streams[r.stream].opener
  }

  predicate ChannelMatched(s: State, n: nat)
    requires n < |s.streams|
  {
    s.streams[n].response.Some? ==> s.streams[n].response.value.to.proxy == s.streams[n].opener
  }

  predicate OutcomeMatched(s: State, p: nat)
    requires p < |s.proxies|
  {
    s.proxies[p].outcome.Replied? ==> s.proxies[p].outcome.reply.to.proxy == p
  }

  /** No reply is with a handler whose request it does not answer, nor on its way there. */
  predicate Matched(s: State) {
    && Valid(s)
    && (forall c | 0 <= c < |s.conns| :: ReaderMatched(s, c))
    && (forall n | 0 <= n < |s.streams| :: ChannelMatched(s, n))
    && (forall p | 0 <= p < |s.proxies| :: OutcomeMatched(s, p))
  }

  /** The read loop of `c` is about to read a reply. */
  predicate AtReply(s: State, c: nat)
    requires Valid(s)
  {
    ServerEnabled(s, c, Read) && s.conns[c].up[0].ReplyFrame?
  }

  /** The read loop of a connection reads a reply while its table holds a twin of the sender's stream. */
  predicate Crosses(s: State, step: Step)
    requires Valid(s)
  {
    && step.OfServer? && step.serverStep.Read? && AtReply(s, step.conn)
    && var q, table := s.conns[step.conn].up[0].reply.to.proxy, s.conns[step.conn].table;
       exists id :: id in table && Twin(s, q, table[id])
  }

  /** The reply's wire ID is that of its sender's stream, whose twin would be found under it. */
  lemma TwinFoundIff(s: State, c: nat)
    requires Base(s) && Inv(s) && AtReply(s, c)
    ensures var f, table := s.conns[c].up[0], s.conns[c].table;
            var id := ParseUint32(f.streamId);
            && id.Some?
            && (Crosses(s, OfServer(c, Read)) <==> id.value in table && Twin(s, f.reply.to.proxy, table[id.value]))
  {
    var f, table := s.conns[c].up[0], s.conns[c].table;
    assert ConnOk(s, s.conns[c]) && UpOk(s, f);
    OwnId(s, f.reply.to.proxy, ParseUint32(f.streamId).value);
    forall id | id in table && Twin(s, f.reply.to.proxy, table[id])
      ensures id == ParseUint32(f.streamId).value
    {
      SameIdIff(s, f.reply.to.proxy, table[id]);
      OwnId(s, f.reply.to.proxy, s.streams[table[id]].id);
    }
  }

  /** What is found there is the sender's own stream or a twin. */
  lemma FoundIsOwnOrTwin(s: State, c: nat)
    requires Base(s) && Inv(s) && AtReply(s, c)
    ensures var f, table := s.conns[c].up[0], s.conns[c].table;
            var id := ParseUint32(f.streamId);
            id.Some? && (id.value in table ==>
              (s.streams[table[id.value]].opener == f.reply.to.proxy <==> !Twin(s, f.reply.to.proxy, table[id.value])))
  {
    var f, table := s.conns[c].up[0], s.conns[c].table;
    assert ConnOk(s, s.conns[c]) && UpOk(s, f);
    var id := ParseUint32(f.streamId).value;
    if id in table {
      SameIdIff(s, f.reply.to.proxy, table[id]);
      if Twin(s, f.reply.to.proxy, table[id]) {
        TwinsDiffer(s, f.reply.to.proxy, table[id]);
      }
    }
  }

  /** Exactly then the read loop pairs the reply with a stream whose handler's request it does not answer. */
  lemma ReadCrossesIff(s: State, c: nat)
    requires Base(s) && Inv(s) && AtReply(s, c)
    ensures !ReaderMatched(Next(s, OfServer(c, Read)), c) <==> Crosses(s, OfServer(c, Read))
  {
    TwinFoundIff(s, c);
    FoundIsOwnOrTwin(s, c);
  }

  // ---------------------------------------------------------------------------
  // Every run

  lemma MatchedFromFrame(s: State, r: State)
    requires Matched(s) && Valid(r) && Grows(s, r)
    requires forall c | 0 <= c < |r.conns| ::
               (c < |s.conns| && r.conns[c].reader == s.conns[c].reader) || ReaderMatched(r, c)
    requires forall n | 0 <= n < |r.streams| ::
               (n < |s.streams| && r.streams[n].response == s.streams[n].response) || ChannelMatched(r, n)
    requires forall p | 0 <= p < |r.proxies| ::
               (p < |s.proxies| && r.proxies[p].outcome == s.proxies[p].outcome) || OutcomeMatched(r, p)
    ensures Matched(r)
  {
    forall c | 0 <= c < |r.conns|
      ensures ReaderMatched(r, c)
    {
      assert c < |s.conns| ==> ReaderMatched(s, c);
    }
    forall n | 0 <= n < |r.streams|
      ensures ChannelMatched(r, n)
    {
      assert n < |s.streams| ==> ChannelMatched(s, n);
    }
    forall p | 0 <= p < |r.proxies|
      ensures OutcomeMatched(r, p)
    {
      assert p < |s.proxies| ==> OutcomeMatched(s, p);
    }
  }

  lemma ProxyStepKeepsMatched(s: State, p: nat, step: ProxyStep)
    requires Base(s) && Matched(s) && ProxyEnabled(s, p, step)
    ensures Matched(DoProxy(s, p, step))
  {
    assert ProxyBase(s, p);
    assert step.TakeResponse? ==> ChannelMatched(s, s.proxies[p].stream);
    MatchedFromFrame(s, DoProxy(s, p, step));
  }

  lemma ReadLeavesOthers(s: State, c: nat)
    requires Matched(s) && ServerEnabled(s, c, Read) && ReaderMatched(DoServerRead(s, c), c)
    ensures Matched(DoServerRead(s, c))
  {
    MatchedFromFrame(s, DoServerRead(s, c));
  }

  lemma OtherReadsStartNothing(s: State, c: nat)
    requires Valid(s) && ServerEnabled(s, c, Read) && !AtReply(s, c)
    ensures DoServerRead(s, c).conns[c].reader.ServerIdle?
  {
  }

  lemma ServerReadMatchesIff(s: State, c: nat)
    requires Base(s) && Inv(s) && Matched(s) && ServerEnabled(s, c, Read)
    ensures Matched(DoServerRead(s, c)) <==> !Crosses(s, OfServer(c, Read))
  {
    if AtReply(s, c) {
      ReadCrossesIff(s, c);
    } else {
      OtherReadsStartNothing(s, c);
    }
    if ReaderMatched(DoServerRead(s, c), c) {
      ReadLeavesOthers(s, c);
    }
  }

  lemma ServerStepMatchesIff(s: State, c: nat, step: ServerStep)
    requires Base(s) && Inv(s) && Matched(s) && ServerEnabled(s, c, step)
    ensures Matched(DoServer(s, c, step)) <==> !Crosses(s, OfServer(c, step))
  {
    match step
    case Read => ServerReadMatchesIff(s, c);
    case Deliver =>
      assert ReaderMatched(s, c);
      MatchedFromFrame(s, DoServerDeliver(s, c));
    case GiveUp => MatchedFromFrame(s, DoServerGiveUp(s, c));
    case Exit => MatchedFromFrame(s, DoServerExit(s, c));
  }

  lemma ClientStepKeepsMatched(s: State, k: nat, step: ClientStep)
    requires Matched(s) && ClientEnabled(s, k, step)
    ensures Matched(DoClient(s, k, step))
  {
    MatchedFromFrame(s, DoClient(s, k, step));
  }

  lemma HandlerStepKeepsMatched(s: State, h: nat, step: HandlerStep)
    requires Matched(s) && HandlerEnabled(s, h, step)
    ensures Matched(DoHandler(s, h, step))
  {
    MatchedFromFrame(s, DoHandler(s, h, step));
  }

  lemma OutsideStepKeepsMatched(s: State, step: Step)
    requires Matched(s) && Enabled(s, step)
    requires !step.OfProxy? && !step.OfServer? && !step.OfClient? && !step.OfHandler?
    ensures Matched(Next(s, step))
  {
    MatchedFromFrame(s, Next(s, step));
  }

  /** A step brings the first wrong reply on its way exactly when it is a read that crosses. */
  lemma StepMatchesIff(s: State, step: Step)
    requires Base(s) && Inv(s) && Matched(s)
    ensures Matched(Next(s, step)) <==> !Crosses(s, step)
  {
    if Enabled(s, step) {
      match step
      case OfProxy(p, x) => ProxyStepKeepsMatched(s, p, x);
      case OfServer(c, x) => ServerStepMatchesIff(s, c, x);
      case OfClient(k, x) => ClientStepKeepsMatched(s, k, x);
      case OfHandler(h, x) => HandlerStepKeepsMatched(s, h, x);
      case _ => OutsideStepKeepsMatched(s, step);
    }
  }

  /** Replies are matched in every state of the run. */
  predicate StaysMatched(s: State, steps: seq<Step>)
    requires Valid(s)
    decreases |steps|
  {
    Matched(s) && (steps == [] || StaysMatched(Next(s, steps[0]), steps[1..]))
  }

  /** No step of the run crosses. */
  predicate NeverCrosses(s: State, steps: seq<Step>)
    requires Valid(s)
    decreases |steps|
  {
    steps == [] || (!Crosses(s, steps[0]) && NeverCrosses(Next(s, steps[0]), steps[1..]))
  }

  lemma {:induction false} RunMatchesIff(s: State, steps: seq<Step>)
    requires Base(s) && Inv(s) && Matched(s) && OwnClients(steps)
    ensures StaysMatched(s, steps) <==> NeverCrosses(s, steps)
    decreases |steps|
  {
    if steps == [] {
    } else {
      var r := Next(s, steps[0]);
      StepMatchesIff(s, steps[0]);
      StepKeepsBase(s, steps[0]);
      StepKeepsInv(s, steps[0]);
      if Matched(r) {
        RunMatchesIff(r, steps[1..]);
      }
    }
  }

  /**
   In every run of this repository's clients, of any length: no reply is ever
   with a handler whose request it does not answer, or on its way there, if and
   only if no read loop ever reads a reply while its table holds a stream a
   multiple of 2^32 opens away from the sender's.
   */
  lemma RepliesMatchIff(init: State, steps: seq<Step>)
    requires Initial(init) && OwnClients(steps)
    ensures StaysMatched(init, steps) <==> NeverCrosses(init, steps)
  {
    InitialInv(init);
    RunMatchesIff(init, steps);
  }

  lemma {:induction false} MatchedAtEnd(s: State, steps: seq<Step>)
    requires Valid(s) && StaysMatched(s, steps)
    ensures Matched(Exec(s, steps))
    decreases |steps|
  {
    if steps == [] {
    } else {
      MatchedAtEnd(Next(s, steps[0]), steps[1..]);
    }
  }

  /** So without such a read a handler that returns a reply returns one to its own request. */
  lemma UncrossedRepliesAnswer(init: State, steps: seq<Step>, p: nat)
    requires Initial(init) && OwnClients(steps) && NeverCrosses(init, steps)
    requires p < |Exec(init, steps).proxies| && Exec(init, steps).proxies[p].outcome.Replied?
    ensures var x := Exec(init, steps).proxies[p];
            x.outcome.reply.to == Envelope(p, x.request)
  {
    RepliesMatchIff(init, steps);
    MatchedAtEnd(init, steps);
    var s := Exec(init, steps);
    ReachableInv(s);
    assert OutcomeMatched(s, p) && ProxyOk(s, p);
  }

  // ---------------------------------------------------------------------------
  // After a read that crosses

  lemma DeliveryFills(s: State, c: nat)
    requires Base(s) && Writers(s) && ServerEnabled(s, c, Deliver)
    ensures var r := Next(s, OfServer(c, Deliver));
            && Base(r) && Writers(r) && r.proxies == s.proxies
            && r.streams[s.conns[c].reader.stream].response == Some(s.conns[c].reader.reply)
  {
    StepKeepsBase(s, OfServer(c, Deliver));
    StepKeepsWriters(s, OfServer(c, Deliver));
  }

  lemma TakesReply(s: State, n: nat, reply: Reply)
    requires Base(s) && n < |s.streams| && ProxyAt(s, s.streams[n].opener, Waiting)
    requires s.streams[n].response == Some(reply)
    ensures var r := Exec(s, [OfProxy(s.streams[n].opener, TakeResponse)]);
            s.streams[n].opener < |r.proxies| && r.proxies[s.streams[n].opener].outcome == Replied(reply)
  {
    assert StreamBase(s, n);
    ExecOne(s, OfProxy(s.streams[n].opener, TakeResponse));
  }

  predicate NoOutcomeYet(f: Phase) {
    BeforeWait(f) || f.Waiting?
  }

  /** A handler without an outcome can come to its wait and take the reply in its stream's channel. */
  lemma CanTakeReply(s: State, n: nat, reply: Reply) returns (after: seq<Step>)
    requires Base(s) && Writers(s) && n < |s.streams| && s.streams[n].response == Some(reply)
    requires NoOutcomeYet(s.proxies[s.streams[n].opener].phase)
    ensures var p, r := s.streams[n].opener, Exec(s, after);
            p < |r.proxies| && r.proxies[p].outcome == Replied(reply)
  {
    var p := s.streams[n].opener;
    var wait := CanComeToWait(s, p);
    TakesReply(Exec(s, wait), n, reply);
    ExecAppend(s, wait, [OfProxy(p, TakeResponse)]);
    after := wait + [OfProxy(p, TakeResponse)];
  }

  lemma CanReturn(s: State, c: nat) returns (after: seq<Step>)
    requires Base(s) && Writers(s) && ServerEnabled(s, c, Deliver)
    requires NoOutcomeYet(s.proxies[s.streams[s.conns[c].reader.stream].opener].phase)
    ensures var p, r := s.streams[s.conns[c].reader.stream].opener, Exec(s, after);
            p < |r.proxies| && r.proxies[p].outcome == Replied(s.conns[c].reader.reply)
  {
    var m := Next(s, OfServer(c, Deliver));
    DeliveryFills(s, c);
    var more := CanTakeReply(m, s.conns[c].reader.stream, s.conns[c].reader.reply);
    ExecCons(s, OfServer(c, Deliver), more);
    after := [OfServer(c, Deliver)] + more;
  }

  lemma ReadFinds(s: State, c: nat)
    requires Valid(s) && AtReply(s, c) && ParseUint32(s.conns[c].up[0].streamId).Some?
    requires ParseUint32(s.conns[c].up[0].streamId).value in s.conns[c].table
    ensures var f, r := s.conns[c].up[0], Next(s, OfServer(c, Read));
            && r.conns[c].reader == Delivering(s.conns[c].table[ParseUint32(f.streamId).value], f.reply)
            && r.streams == s.streams && r.proxies == s.proxies
  {
  }

  /** The stream that a crossing read finds in the table, with a handler that is another one than the reply's. */
  lemma CrossedStream(s: State, c: nat) returns (n: nat)
    requires Base(s) && Inv(s) && Crosses(s, OfServer(c, Read))
    ensures n < |s.streams| && InTable(s, n) && s.conns[c].up[0].reply.to.proxy != s.streams[n].opener
    ensures var r := Next(s, OfServer(c, Read));
            && r.conns[c].reader == Delivering(n, s.conns[c].up[0].reply)
            && r.streams == s.streams && r.proxies == s.proxies
    ensures NoOutcomeYet(s.proxies[s.streams[n].opener].phase) || s.proxies[s.streams[n].opener].phase.Closing?
  {
    var f := s.conns[c].up[0];
    TwinFoundIff(s, c);
    n := s.conns[c].table[ParseUint32(f.streamId).value];
    ReadFinds(s, c);
    assert ConnBase(s, c);
    TwinsDiffer(s, f.reply.to.proxy, n);
  }

  /**
   After a read that crosses, a wrong caller may be given the reply: there is a
   continuation in which the other stream's handler returns it, unless that
   handler has its outcome already or another reply in its channel.
   */
  lemma CrossedReplyMayBeReturned(s: State, c: nat) returns (n: nat, after: seq<Step>)
    requires Base(s) && Inv(s) && Writers(s) && Crosses(s, OfServer(c, Read))
    ensures n < |s.streams| && InTable(s, n) && s.conns[c].up[0].reply.to.proxy != s.streams[n].opener
    ensures var p, r := s.streams[n].opener, Exec(Next(s, OfServer(c, Read)), after);
            s.streams[n].response.None? && !s.proxies[p].phase.Closing? ==>
              p < |r.proxies| && r.proxies[p].outcome == Replied(s.conns[c].up[0].reply)
  {
    n := CrossedStream(s, c);
    after := [];
    if s.streams[n].response.None? && !s.proxies[s.streams[n].opener].phase.Closing? {
      StepKeepsBase(s, OfServer(c, Read));
      StepKeepsWriters(s, OfServer(c, Read));
      after := CanReturn(Next(s, OfServer(c, Read)), c);
    }
  }
}
