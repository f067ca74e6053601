/**
 Runs that show where the stream protocol's guarantees end: a reply that
 reached the gateway need not reach the caller, a request that reached the
 client need not reach a handler, a read loop can block while its handler waits
 for the caller, a stream can be overwritten in its table, a client handler can
 lose its place in the pending map, and the 2^32 bound on opens is tight.
 */
module StreamWitnesses {
  import opened Results
  import opened Text
  import opened Streams
  import opened StreamIds
  import opened StreamLifecycle
  import opened StreamProgress
  import opened StreamDuty

  // ---------------------------------------------------------------------------
  // Building runs

  lemma RunReaches(init: State, steps: seq<Step>)
    requires Initial(init) && OwnClients(steps)
    ensures ReachableByOwnClients(Exec(init, steps))
  {
  }

  lemma OneMoreOwn(steps: seq<Step>, step: Step)
    requires OwnClients(steps) && !step.Foreign?
    ensures OwnClients(steps + [step])
  {
  }

  lemma ReachableNext(s: State, step: Step)
    requires Valid(s) && ReachableByOwnClients(s) && !step.Foreign?
    ensures ReachableByOwnClients(Next(s, step))
  {
    var init: State, steps: seq<Step> :| Initial(init) && OwnClients(steps) && s == Exec(init, steps);
    ExecAppend(init, steps, [step]);
    ExecOne(s, step);
    OneMoreOwn(steps, step);
    RunReaches(init, steps + [step]);
  }

  /** The set holds every initial state and whatever a step leads to from one of its states. */
  ghost predicate Closed(all: iset<State>) {
    && (forall s | Initial(s) :: s in all)
    && (forall s, step | s in all && Valid(s) && Enabled(s, step) && !step.Foreign? :: Apply(s, step) in all)
  }

  lemma ReachableIsClosed()
    ensures Closed(iset s: State | ReachableByOwnClients(s))
  {
    forall s | Initial(s)
      ensures ReachableByOwnClients(s)
    {
      assert s == Exec(s, []);
    }
    forall s, step | ReachableByOwnClients(s) && Valid(s) && Enabled(s, step) && !step.Foreign?
      ensures ReachableByOwnClients(Apply(s, step))
    {
      ReachableNext(s, step);
    }
  }

  /** One enabled step to a given state. */
  lemma Reach(all: iset<State>, s: State, step: Step, r: State)
    requires Closed(all) && s in all && Valid(s) && Enabled(s, step) && !step.Foreign? && Apply(s, step) == r
    ensures r in all && Valid(r)
  {
  }

  // ---------------------------------------------------------------------------
  // A request on its way

  /** One proxy handler, its stream, one connection, one client. */
  function Scene(x: Proxy, st: Stream, conn: Conn, client: Client, handlers: seq<Handler>): State {
    State([x], [st], [conn], [client], handlers)
  }

  const OPEN := OpenFrame("1", 0)

  function Asked(request: string): DownFrame {
    RequestFrame("1", Envelope(0, request))
  }

  function Handling(request: string, f: Phase): Proxy {
    Proxy(request, 0, 0, f, Pending)
  }

  const FRESH := Stream(1, 0, 0, None, 0)
  const ATTACHED := Client(Some(0), map[], 0, ClientIdle)

  /** The handler in the client, with nothing in its channel. */
  function Worker(f: HandlerPhase): Handler {
    Handler(0, "1", 0, 0, None, f)
  }

  /** The connection after `down` has been sent on it, with the stream in its table. */
  function Line(down: seq<DownFrame>): Conn {
    Conn(0, down, [], map[1 := 0], None, ServerIdle)
  }

  lemma AttachedReached(all: iset<State>)
    requires Closed(all)
    ensures var s := State([], [], [Conn(0, [], [], map[], None, ServerIdle)], [ATTACHED], []);
            Valid(s) && s in all
  {
    var s := State([], [], [], [Client(None, map[], 0, ClientIdle)], []);
    assert Initial(s);
    Reach(all, s, OfClient(0, Attach), State([], [], [Conn(0, [], [], map[], None, ServerIdle)], [ATTACHED], []));
  }

  lemma AllocatedReached(all: iset<State>, request: string)
    requires Closed(all)
    ensures var s := Scene(Handling(request, Allocated), FRESH, Conn(0, [], [], map[], None, ServerIdle), ATTACHED, []);
            Valid(s) && s in all
  {
    AttachedReached(all);
    var s1 := State([], [], [Conn(0, [], [], map[], None, ServerIdle)], [ATTACHED], []);
    var s2 := s1.(proxies := [Handling(request, Chosen)]);
    Reach(all, s1, Arrive(0, request), s2);
    Reach(all, s2, OfProxy(0, Allocate), s2.(proxies := [Handling(request, Allocated)], streams := [FRESH]));
  }

  /** The same while the handler writes. */
  function LockedLine(down: seq<DownFrame>): Conn {
    Conn(0, down, [], map[1 := 0], Some(0), ServerIdle)
  }

  lemma OpenSentReached(all: iset<State>, request: string)
    requires Closed(all)
    ensures var s := Scene(Handling(request, OpenSent), FRESH, Line([OPEN]), ATTACHED, []);
            Valid(s) && s in all
  {
    AllocatedReached(all, request);
    var s0 := Scene(Handling(request, Allocated), FRESH, Conn(0, [], [], map[], None, ServerIdle), ATTACHED, []);
    var s1 := Scene(Handling(request, Opened), FRESH, Line([]), ATTACHED, []);
    Reach(all, s0, OfProxy(0, Insert), s1);
    var s2 := Scene(Handling(request, OpenWriting), FRESH, LockedLine([]), ATTACHED, []);
    Reach(all, s1, OfProxy(0, Lock), s2);
    assert Decimal(1) == "1" && [] + [OPEN] == [OPEN];
    Reach(all, s2, Written(0, true), Scene(Handling(request, OpenSent), FRESH, Line([OPEN]), ATTACHED, []));
  }

  lemma SentReached(all: iset<State>, request: string)
    requires Closed(all)
    ensures var s := Scene(Handling(request, Waiting), FRESH, Line([OPEN, Asked(request)]), ATTACHED, []);
            Valid(s) && s in all
  {
    OpenSentReached(all, request);
    var s0 := Scene(Handling(request, OpenSent), FRESH, Line([OPEN]), ATTACHED, []);
    var s1 := Scene(Handling(request, BodyRead), FRESH, Line([OPEN]), ATTACHED, []);
    Reach(all, s0, Body(0, true), s1);
    var s2 := Scene(Handling(request, RequestWriting), FRESH, LockedLine([OPEN]), ATTACHED, []);
    Reach(all, s1, OfProxy(0, Lock), s2);
    assert Decimal(1) == "1" && [OPEN] + [Asked(request)] == [OPEN, Asked(request)];
    Reach(all, s2, Written(0, true),
          Scene(Handling(request, Waiting), FRESH, Line([OPEN, Asked(request)]), ATTACHED, []));
  }

  /** The client has read the open frame and started a handler, which has not registered yet. */
  lemma SpawnedReached(all: iset<State>, request: string)
    requires Closed(all)
    ensures var s := Scene(Handling(request, Waiting), FRESH, Line([Asked(request)]), ATTACHED,
                           [Worker(Spawned)]);
            Valid(s) && s in all
  {
    SentReached(all, request);
    var sent := Scene(Handling(request, Waiting), FRESH, Line([OPEN, Asked(request)]), ATTACHED, []);
    var spawned := [Worker(Spawned)];
    assert [OPEN, Asked(request)][1..] == [Asked(request)] && [] + spawned == spawned;
    Reach(all, sent, OfClient(0, Receive), sent.(conns := [Line([Asked(request)])], handlers := spawned));
  }

  // ---------------------------------------------------------------------------
  // The request data may find no handler

  lemma DroppedReached(all: iset<State>, request: string)
    requires Closed(all)
    ensures Scene(Proxy(request, 0, 0, Closing, GatewayTimeout), FRESH, Line([]),
                  Client(Some(0), map["1" := 0], 0, ClientIdle), [Worker(Listening)]) in all
  {
    SpawnedReached(all, request);
    var s1 := Scene(Handling(request, Waiting), FRESH, Line([Asked(request)]), ATTACHED, [Worker(Spawned)]);
    assert [Asked(request)][1..] == [];
    var s2 := s1.(conns := [Line([])]);
    Reach(all, s1, OfClient(0, Receive), s2);
    var s3 := s2.(clients := [Client(Some(0), map["1" := 0], 0, ClientIdle)],
                  handlers := [Worker(Listening)]);
    Reach(all, s2, OfHandler(0, Register), s3);
    Reach(all, s3, OfProxy(0, TimeOut), s3.(proxies := [Proxy(request, 0, 0, Closing, GatewayTimeout)]));
  }

  /** The client has taken both frames off its socket; its handler has not registered in time. */
  lemma RequestMayBeDropped(request: string)
    ensures exists s: State ::
              && ReachableByOwnClients(s) && |s.proxies| == |s.conns| == |s.handlers| == 1
              && s.conns[0].down == [] && s.handlers[0].phase.Listening? && s.handlers[0].slot.None?
              && s.proxies[0].request == request && s.proxies[0].outcome.GatewayTimeout?
  {
    var all := iset s: State | ReachableByOwnClients(s);
    ReachableIsClosed();
    DroppedReached(all, request);
  }

  // ---------------------------------------------------------------------------
  // A buffered reply may be passed over

  function Pending1(reader: ClientReader): Client {
    Client(Some(0), map["1" := 0], 0, reader)
  }

  lemma HandedReached(all: iset<State>, request: string)
    requires Closed(all)
    ensures var s := Scene(Handling(request, Waiting), FRESH, Line([]), Pending1(Handing(0, Envelope(0, request))),
                           [Worker(Listening)]);
            Valid(s) && s in all
  {
    SpawnedReached(all, request);
    var s1 := Scene(Handling(request, Waiting), FRESH, Line([Asked(request)]), ATTACHED, [Worker(Spawned)]);
    var s2 := s1.(clients := [Pending1(ClientIdle)], handlers := [Worker(Listening)]);
    Reach(all, s1, OfHandler(0, Register), s2);
    assert [Asked(request)][1..] == [];
    Reach(all, s2, OfClient(0, Receive),
          s2.(conns := [Line([])], clients := [Pending1(Handing(0, Envelope(0, request)))]));
  }

  /** The client has the request and works on it. */
  function AtWork(x: Proxy, request: string): State {
    Scene(x, FRESH, Line([]), Pending1(ClientIdle), [Worker(Working(Envelope(0, request)))])
  }

  lemma AtWorkReached(all: iset<State>, request: string)
    requires Closed(all)
    ensures var s := AtWork(Handling(request, Waiting), request);
            Valid(s) && s in all
  {
    HandedReached(all, request);
    var e := Envelope(0, request);
    var s0 := Scene(Handling(request, Waiting), FRESH, Line([]), Pending1(Handing(0, e)), [Worker(Listening)]);
    var s1 := s0.(clients := [Pending1(ClientIdle)], handlers := [Handler(0, "1", 0, 0, Some(e), Listening)]);
    Reach(all, s0, OfClient(0, Hand), s1);
    Reach(all, s1, OfHandler(0, Take), AtWork(Handling(request, Waiting), request));
  }

  lemma AnsweredReached(all: iset<State>, request: string, body: string)
    requires Closed(all)
    ensures var reply := Reply(Envelope(0, request), body);
            var s := Scene(Handling(request, Waiting), FRESH,
                           Conn(0, [], [ReplyFrame("1", reply), CloseFrame("1")], map[1 := 0], None, ServerIdle),
                           Pending1(ClientIdle), [Worker(Ending)]);
            Valid(s) && s in all
  {
    AtWorkReached(all, request);
    var f, g := ReplyFrame("1", Reply(Envelope(0, request), body)), CloseFrame("1");
    var s0 := AtWork(Handling(request, Waiting), request);
    assert [] + [f] == [f] && [f] + [g] == [f, g];
    var s1 := s0.(conns := [Conn(0, [], [f], map[1 := 0], None, ServerIdle)], handlers := [Worker(Answered)]);
    Reach(all, s0, OfHandler(0, Answer(body, true)), s1);
    Reach(all, s1, OfHandler(0, SendClose(true)),
          s1.(conns := [Conn(0, [], [f, g], map[1 := 0], None, ServerIdle)], handlers := [Worker(Ending)]));
  }

  lemma DeliveredReached(all: iset<State>, request: string, body: string)
    requires Closed(all)
    ensures var reply := Reply(Envelope(0, request), body);
            var s := Scene(Handling(request, Waiting), FRESH.(response := Some(reply)),
                           Conn(0, [], [CloseFrame("1")], map[1 := 0], None, ServerIdle),
                           Pending1(ClientIdle), [Worker(Ending)]);
            Valid(s) && s in all
  {
    AnsweredReached(all, request, body);
    var reply := Reply(Envelope(0, request), body);
    var f, g := ReplyFrame("1", reply), CloseFrame("1");
    var s0 := Scene(Handling(request, Waiting), FRESH, Conn(0, [], [f, g], map[1 := 0], None, ServerIdle),
                    Pending1(ClientIdle), [Worker(Ending)]);
    ParseOfDecimal(1);
    assert Decimal(1) == "1" && [f, g][1..] == [g];
    var s1 := s0.(conns := [Conn(0, [], [g], map[1 := 0], None, Delivering(0, reply))]);
    Reach(all, s0, OfServer(0, Read), s1);
    Reach(all, s1, OfServer(0, Deliver),
          s1.(conns := [Conn(0, [], [g], map[1 := 0], None, ServerIdle)], streams := [FRESH.(response := Some(reply))]));
  }

  lemma TakenReached(all: iset<State>, request: string, body: string)
    requires Closed(all)
    ensures Scene(Proxy(request, 0, 0, Closing, Replied(Reply(Envelope(0, request), body))), FRESH,
                  Conn(0, [], [CloseFrame("1")], map[1 := 0], None, ServerIdle), Pending1(ClientIdle),
                  [Worker(Ending)]) in all
  {
    DeliveredReached(all, request, body);
    var reply := Reply(Envelope(0, request), body);
    var s0 := Scene(Handling(request, Waiting), FRESH.(response := Some(reply)),
                    Conn(0, [], [CloseFrame("1")], map[1 := 0], None, ServerIdle), Pending1(ClientIdle),
                    [Worker(Ending)]);
    Reach(all, s0, OfProxy(0, TakeResponse),
          s0.(proxies := [Proxy(request, 0, 0, Closing, Replied(reply))], streams := [FRESH]));
  }

  /** The normal course: the caller gets the reply to its request. */
  lemma RequestMayBeAnswered(request: string, body: string)
    ensures exists s: State ::
              && ReachableByOwnClients(s) && |s.proxies| == 1 && s.proxies[0].request == request
              && s.proxies[0].outcome == Replied(Reply(Envelope(0, request), body))
  {
    var all := iset s: State | ReachableByOwnClients(s);
    ReachableIsClosed();
    TakenReached(all, request, body);
  }

  lemma PassedOverReached(all: iset<State>, request: string, body: string)
    requires Closed(all)
    ensures Scene(Proxy(request, 0, 0, Closing, BadGateway), Stream(1, 0, 0, Some(Reply(Envelope(0, request), body)), 1),
                  Conn(0, [], [], map[], None, ServerIdle), Pending1(ClientIdle), [Worker(Ending)]) in all
  {
    DeliveredReached(all, request, body);
    var st := FRESH.(response := Some(Reply(Envelope(0, request), body)));
    var g := CloseFrame("1");
    var s0 := Scene(Handling(request, Waiting), st, Conn(0, [], [g], map[1 := 0], None, ServerIdle),
                    Pending1(ClientIdle), [Worker(Ending)]);
    ParseOfDecimal(1);
    assert Decimal(1) == "1" && [g][1..] == [] && map[1 := 0] - {1} == map[];
    var s1 := s0.(conns := [Conn(0, [], [], map[], None, ServerIdle)], streams := [st.(closes := 1)]);
    Reach(all, s0, OfServer(0, Read), s1);
    Reach(all, s1, OfProxy(0, TakeDone), s1.(proxies := [Proxy(request, 0, 0, Closing, BadGateway)]));
  }

  /** The caller gets 502 although the reply to its request is in the Response channel. */
  lemma BufferedReplyMayBePassedOver(request: string, body: string)
    ensures exists s: State ::
              && ReachableByOwnClients(s) && |s.proxies| == |s.streams| == 1
              && s.proxies[0].request == request && s.proxies[0].outcome.BadGateway?
              && s.streams[0].response == Some(Reply(Envelope(0, request), body))
  {
    var all := iset s: State | ReachableByOwnClients(s);
    ReachableIsClosed();
    PassedOverReached(all, request, body);
  }

  // ---------------------------------------------------------------------------
  // A read loop may block

  lemma AnyRunReaches(init: State, steps: seq<Step>)
    requires Initial(init)
    ensures Reachable(Exec(init, steps))
  {
  }

  lemma AnyReachableNext(s: State, step: Step)
    requires Valid(s) && Reachable(s)
    ensures Reachable(Next(s, step))
  {
    var init: State, steps: seq<Step> :| Initial(init) && s == Exec(init, steps);
    ExecAppend(init, steps, [step]);
    ExecOne(s, step);
    AnyRunReaches(init, steps + [step]);
  }

  /** The set also holds whatever a foreign client's frame leads to. */
  ghost predicate ClosedUnderForeign(all: iset<State>) {
    forall s, c, f | s in all && Valid(s) && 0 <= c < |s.conns| :: Next(s, Foreign(c, f)) in all
  }

  lemma AnyReachableIsClosed()
    ensures Closed(iset s: State | Reachable(s))
  {
    forall s | Initial(s)
      ensures Reachable(s)
    {
      assert s == Exec(s, []);
    }
    forall s, step | Reachable(s) && Valid(s) && Enabled(s, step)
      ensures Reachable(Apply(s, step))
    {
      AnyReachableNext(s, step);
    }
  }

  lemma AnyReachableIsClosedUnderForeign()
    ensures ClosedUnderForeign(iset s: State | Reachable(s))
  {
    forall s, c, f | Reachable(s) && Valid(s) && 0 <= c < |s.conns|
      ensures Reachable(Next(s, Foreign(c, f)))
    {
      AnyReachableNext(s, Foreign(c, f));
    }
  }

  lemma ReachForeign(all: iset<State>, s: State, f: UpFrame, r: State)
    requires ClosedUnderForeign(all) && s in all && Valid(s) && |s.conns| > 0 && DoForeign(s, 0, f) == r
    ensures r in all && Valid(r)
  {
    assert Next(s, Foreign(0, f)) == r;
  }

  /** The proxy handler reads its caller's body; the client has sent `up`. */
  function Answering(request: string, st: Stream, up: seq<UpFrame>, reader: ServerReader): State {
    Scene(Handling(request, OpenSent), st, Conn(0, [OPEN], up, map[1 := 0], None, reader), ATTACHED, [])
  }

  lemma TwoRepliesReached(all: iset<State>, request: string, reply: Reply)
    requires Closed(all) && ClosedUnderForeign(all)
    ensures var f := ReplyFrame("1", reply);
            var s := Answering(request, FRESH, [f, f], ServerIdle);
            Valid(s) && s in all
  {
    OpenSentReached(all, request);
    var f := ReplyFrame("1", reply);
    assert [] + [f] == [f] && [f] + [f] == [f, f];
    var s0, s1 := Answering(request, FRESH, [], ServerIdle), Answering(request, FRESH, [f], ServerIdle);
    ReachForeign(all, s0, f, s1);
    ReachForeign(all, s1, f, Answering(request, FRESH, [f, f], ServerIdle));
  }

  /** The caller of proxy handler `p` does not end its request's body. */
  predicate NoBody(steps: seq<Step>, p: nat) {
    forall i | 0 <= i < |steps| :: !(steps[i].Body? && steps[i].proxy == p)
  }

  /** One of them is in the Response channel. */
  lemma OneReplyBuffered(all: iset<State>, request: string, reply: Reply)
    requires Closed(all) && ClosedUnderForeign(all)
    ensures var s := Answering(request, FRESH.(response := Some(reply)), [ReplyFrame("1", reply)], ServerIdle);
            Valid(s) && s in all
  {
    TwoRepliesReached(all, request, reply);
    var f := ReplyFrame("1", reply);
    ParseOfDecimal(1);
    assert Decimal(1) == "1" && [f, f][1..] == [f];
    var s0, s1 := Answering(request, FRESH, [f, f], ServerIdle), Answering(request, FRESH, [f], Delivering(0, reply));
    Reach(all, s0, OfServer(0, Read), s1);
    Reach(all, s1, OfServer(0, Deliver), Answering(request, FRESH.(response := Some(reply)), [f], ServerIdle));
  }

  lemma BlockedReached(all: iset<State>, request: string, reply: Reply)
    requires Closed(all) && ClosedUnderForeign(all)
    ensures var s := Answering(request, FRESH.(response := Some(reply)), [], Delivering(0, reply));
            Valid(s) && s in all
  {
    OneReplyBuffered(all, request, reply);
    var st, f := FRESH.(response := Some(reply)), ReplyFrame("1", reply);
    ParseOfDecimal(1);
    assert Decimal(1) == "1" && [f][1..] == [];
    Reach(all, Answering(request, st, [f], ServerIdle), OfServer(0, Read),
          Answering(request, st, [], Delivering(0, reply)));
  }

  /** The read loop of connection 0 stays blocked until the caller of handler 0 ends its request's body. */
  ghost predicate Stalls(s: State)
    requires Valid(s)
  {
    forall after: seq<Step> | NoBody(after, 0) :: Blocked(Exec(s, after), 0, 0)
  }

  lemma AnsweringTwiceStalls(request: string, reply: Reply)
    requires var s := Answering(request, FRESH.(response := Some(reply)), [], Delivering(0, reply));
             Valid(s) && Reachable(s)
    ensures var s := Answering(request, FRESH.(response := Some(reply)), [], Delivering(0, reply));
            Blocked(s, 0, 0) && Stalls(s)
  {
    var s := Answering(request, FRESH.(response := Some(reply)), [], Delivering(0, reply));
    forall after: seq<Step> | NoBody(after, 0)
      ensures Blocked(Exec(s, after), 0, 0)
    {
      StalledReadLoop(s, 0, 0, after);
    }
  }

  /**
   A client that answers twice makes the gateway's read loop wait for a handler
   that waits for its caller, and it waits for as long as the caller does not
   end its request's body, whatever else happens.
   */
  lemma CallerMayStallReadLoop(request: string, reply: Reply)
    ensures exists s: State ::
              && Valid(s) && Reachable(s) && Blocked(s, 0, 0) && Stalls(s)
              && |s.proxies| == 1 && s.proxies[0].request == request
  {
    var all := iset s: State | Reachable(s);
    AnyReachableIsClosed();
    AnyReachableIsClosedUnderForeign();
    BlockedReached(all, request, reply);
    AnsweringTwiceStalls(request, reply);
  }

  // ---------------------------------------------------------------------------
  // 2^32 opens are the limit

  /** The caller has given up, but the client still works on the request. */
  function Late(request: string): State {
    Scene(Proxy(request, 0, 0, Finished, GatewayTimeout), Stream(1, 0, 0, None, 1), Conn(0, [], [], map[], None, ServerIdle),
          Pending1(ClientIdle), [Worker(Working(Envelope(0, request)))])
  }

  lemma LateReached(all: iset<State>, request: string)
    requires Closed(all)
    ensures Valid(Late(request)) && Late(request) in all
  {
    AtWorkReached(all, request);
    var s0 := AtWork(Handling(request, Waiting), request);
    var s1 := AtWork(Proxy(request, 0, 0, Closing, GatewayTimeout), request);
    Reach(all, s0, OfProxy(0, TimeOut), s1);
    assert map[1 := 0] - {1} == map[];
    Reach(all, s1, OfProxy(0, CloseOwn), Late(request));
  }

  /** Requests that only get as far as drawing a stream ID advance the counter and nothing else. */
  lemma CounterAdvances(all: iset<State>, s: State, k: nat) returns (r: State)
    requires Closed(all) && s in all && Valid(s) && |s.conns| > 0
    ensures r in all && Valid(r)
    ensures r.conns == s.conns && r.clients == s.clients && r.handlers == s.handlers
    ensures |r.streams| == |s.streams| + k && |r.proxies| == |s.proxies| + k
    ensures r.streams[..|s.streams|] == s.streams && r.proxies[..|s.proxies|] == s.proxies
  {
    r := s;
    for i := 0 to k
      invariant r in all && Valid(r)
      invariant r.conns == s.conns && r.clients == s.clients && r.handlers == s.handlers
      invariant |r.streams| == |s.streams| + i && |r.proxies| == |s.proxies| + i
      invariant r.streams[..|s.streams|] == s.streams && r.proxies[..|s.proxies|] == s.proxies
    {
      var m := DoArrive(r, 0, "");
      Reach(all, r, Arrive(0, ""), m);
      Reach(all, m, OfProxy(|r.proxies|, Allocate), DoAllocate(m, |r.proxies|));
      r := DoAllocate(m, |r.proxies|);
    }
  }

  /** The counter has wrapped around: a new request draws the old request's stream ID. */
  lemma IdReused(all: iset<State>, request: string) returns (r: State, p: nat)
    requires Closed(all)
    ensures r in all && Valid(r)
    ensures r.conns == [Conn(0, [], [], map[1 := UINT32], None, ServerIdle)] && r.clients == [Pending1(ClientIdle)]
    ensures r.handlers == [Worker(Working(Envelope(0, request)))]
    ensures 0 < p < |r.proxies| && r.proxies[p] == Proxy("", 0, UINT32, Opened, Pending)
    ensures |r.streams| == UINT32 + 1 && r.streams[UINT32] == Stream(1, p, 0, None, 0)
  {
    LateReached(all, request);
    var s := CounterAdvances(all, Late(request), UINT32 - 1);
    p := |s.proxies|;
    var s1 := DoArrive(s, 0, "");
    Reach(all, s, Arrive(0, ""), s1);
    var s2 := DoAllocate(s1, p);
    Reach(all, s1, OfProxy(p, Allocate), s2);
    r := DoInsert(s2, p);
    Reach(all, s2, OfProxy(p, Insert), r);
  }

  lemma LateReplyDelivered(all: iset<State>, request: string, body: string) returns (r: State, p: nat)
    requires Closed(all)
    ensures r in all && Valid(r)
    ensures |r.conns| == 1 && r.conns[0].writer.None?
    ensures 0 < p < |r.proxies| && r.proxies[p] == Proxy("", 0, UINT32, Opened, Pending)
    ensures |r.streams| == UINT32 + 1
    ensures r.streams[UINT32] == Stream(1, p, 0, Some(Reply(Envelope(0, request), body)), 0)
  {
    var s;
    s, p := IdReused(all, request);
    var f := ReplyFrame("1", Reply(Envelope(0, request), body));
    var s1 := DoHandlerReply(s, 0, body, true);
    Reach(all, s, OfHandler(0, Answer(body, true)), s1);
    assert [] + [f] == [f] && s1.conns[0] == Conn(0, [], [f], map[1 := UINT32], None, ServerIdle);
    ParseOfDecimal(1);
    assert Decimal(1) == "1";
    var s2 := DoServerRead(s1, 0);
    Reach(all, s1, OfServer(0, Read), s2);
    assert s2.conns[0].reader == Delivering(UINT32, f.reply);
    r := DoServerDeliver(s2, 0);
    Reach(all, s2, OfServer(0, Deliver), r);
  }

  lemma LateReplyAwaited(all: iset<State>, request: string, body: string) returns (r: State, p: nat)
    requires Closed(all)
    ensures r in all && Valid(r)
    ensures |r.conns| == 1 && 0 < p < |r.proxies| && |r.streams| == UINT32 + 1
    ensures r.conns[0].writer == Some(p) && r.proxies[p] == Proxy("", 0, UINT32, RequestWriting, Pending)
    ensures r.streams[UINT32] == Stream(1, p, 0, Some(Reply(Envelope(0, request), body)), 0)
  {
    var s;
    s, p := LateReplyDelivered(all, request, body);
    var s1 := DoLock(s, p);
    Reach(all, s, OfProxy(p, Lock), s1);
    var s2 := DoWritten(s1, 0, true);
    Reach(all, s1, Written(0, true), s2);
    var s3 := DoBody(s2, p, true);
    Reach(all, s2, Body(p, true), s3);
    r := DoLock(s3, p);
    Reach(all, s3, OfProxy(p, Lock), r);
  }

  lemma LateReplyTaken(all: iset<State>, request: string, body: string) returns (r: State, p: nat)
    requires Closed(all)
    ensures r in all && Valid(r)
    ensures |r.streams| == UINT32 + 1 && 0 < p < |r.proxies|
    ensures r.proxies[p].outcome == Replied(Reply(Envelope(0, request), body))
  {
    var s;
    s, p := LateReplyAwaited(all, request, body);
    var s1 := DoWritten(s, 0, true);
    Reach(all, s, Written(0, true), s1);
    r := DoTakeResponse(s1, p);
    Reach(all, s1, OfProxy(p, TakeResponse), r);
  }

  /** With 2^32 + 1 opens a proxy handler can return the reply to someone else's request. */
  lemma RepliesMayCrossAfterWrapAround(request: string, body: string)
    ensures exists s: State, p: nat ::
              && ReachableByOwnClients(s) && |s.streams| == UINT32 + 1 && 0 < p < |s.proxies|
              && s.proxies[p].outcome == Replied(Reply(Envelope(0, request), body))
  {
    var all := iset s: State | ReachableByOwnClients(s);
    ReachableIsClosed();
    var s, p := LateReplyTaken(all, request, body);
  }

  // ---------------------------------------------------------------------------
  // A handler may lose its place

  lemma OpenedAgain(all: iset<State>, request: string) returns (r: State, p: nat)
    requires Closed(all)
    ensures r in all && Valid(r) && |r.streams| == UINT32 + 1 && r.clients == [Pending1(ClientIdle)]
    ensures r.handlers == [Worker(Working(Envelope(0, request)))]
    ensures |r.conns| == 1 && r.conns[0].down == [OpenFrame("1", p)]
  {
    var s;
    s, p := IdReused(all, request);
    var s1 := DoLock(s, p);
    Reach(all, s, OfProxy(p, Lock), s1);
    assert Decimal(1) == "1" && [] + [OpenFrame("1", p)] == [OpenFrame("1", p)];
    r := DoWritten(s1, 0, true);
    Reach(all, s1, Written(0, true), r);
  }

  /** Two handlers of one client with the same wire ID: the first at work, the second about to register. */
  predicate Rivals(s: State, request: string) {
    && s.clients == [Pending1(ClientIdle)] && |s.handlers| == 2
    && s.handlers[0] == Worker(Working(Envelope(0, request)))
    && s.handlers[1].client == 0 && s.handlers[1].streamId == "1" && s.handlers[1].phase.Spawned?
  }

  lemma RivalSpawned(all: iset<State>, request: string) returns (r: State)
    requires Closed(all)
    ensures r in all && Valid(r) && |r.streams| == UINT32 + 1 && Rivals(r, request)
  {
    var s, p := OpenedAgain(all, request);
    r := DoClientRead(s, 0);
    Reach(all, s, OfClient(0, Receive), r);
  }

  /** The first handler is on duty when the second one registers, and stays on duty, but has lost its place. */
  predicate LosesPlace(s: State)
    requires Valid(s)
  {
    var r := Next(s, OfHandler(1, Register));
    Clashes(s, OfHandler(1, Register)) && |r.handlers| == 2 && OnDuty(r, 0) && !HandlerDuty(r, 0)
  }

  lemma RivalTakesPlace(s: State, request: string)
    requires Valid(s) && Rivals(s, request)
    ensures LosesPlace(s)
  {
    assert Rival(s, 1, 0);
  }

  /** With 2^32 + 1 opens a handler at work can lose its place in the pending map to another one. */
  lemma HandlersMayClash(request: string)
    ensures exists s: State ::
              && Valid(s) && ReachableByOwnClients(s) && |s.streams| == UINT32 + 1
              && Rivals(s, request) && LosesPlace(s)
  {
    var all := iset s: State | ReachableByOwnClients(s);
    ReachableIsClosed();
    var s := RivalSpawned(all, request);
    RivalTakesPlace(s, request);
  }

  // ---------------------------------------------------------------------------
  // A stream may be overwritten

  /** From a state with one stream on one connection: a new handler has drawn the same stream ID. */
  lemma IdReusedFrom(all: iset<State>, s0: State) returns (r: State, p: nat)
    requires Closed(all) && s0 in all && Valid(s0) && |s0.streams| == |s0.conns| == |s0.proxies| == 1
    ensures r in all && Valid(r) && r.conns == s0.conns
    ensures 0 < p < |r.proxies| && r.proxies[0] == s0.proxies[0]
    ensures r.proxies[p] == Proxy("", 0, UINT32, Allocated, Pending)
    ensures |r.streams| == UINT32 + 1 && r.streams[0] == s0.streams[0] && r.streams[UINT32] == Stream(1, p, 0, None, 0)
  {
    var s := CounterAdvances(all, s0, UINT32 - 1);
    assert s.proxies[..1][0] == s.proxies[0] && s.streams[..1][0] == s.streams[0];
    p := |s.proxies|;
    var s1 := DoArrive(s, 0, "");
    Reach(all, s, Arrive(0, ""), s1);
    r := DoAllocate(s1, p);
    Reach(all, s1, OfProxy(p, Allocate), r);
  }

  lemma OverwrittenReached(all: iset<State>, s0: State) returns (r: State)
    requires Closed(all) && s0 in all && Valid(s0) && |s0.streams| == |s0.conns| == |s0.proxies| == 1
    requires s0.streams[0].id == 1 && s0.streams[0].conn == 0 && s0.streams[0].closes == 0
    requires Entered(s0.proxies[0].phase)
    ensures r in all && Valid(r) && Lost(r, 0) && |r.streams| == UINT32 + 1 && r.streams[0] == s0.streams[0]
    ensures 0 < |r.proxies| && r.proxies[0] == s0.proxies[0]
    ensures |r.conns| == 1 && r.conns[0].reader == s0.conns[0].reader
  {
    var s, p := IdReusedFrom(all, s0);
    r := DoInsert(s, p);
    Reach(all, s, OfProxy(p, Insert), r);
  }

  lemma LostReached(all: iset<State>, request: string) returns (r: State)
    requires Closed(all)
    ensures r in all && Valid(r) && |r.streams| == UINT32 + 1 && Lost(r, 0)
    ensures 0 < |r.proxies| && r.proxies[0] == Handling(request, Waiting)
  {
    SentReached(all, request);
    var sent := Scene(Handling(request, Waiting), FRESH, Line([OPEN, Asked(request)]), ATTACHED, []);
    r := OverwrittenReached(all, sent);
  }

  /** With 2^32 + 1 opens a waiting handler's stream can be lost: neither in its table nor done. */
  lemma StreamMayBeLost(request: string)
    ensures exists s: State ::
              && Valid(s) && ReachableByOwnClients(s) && |s.streams| == UINT32 + 1 && Lost(s, 0)
              && 0 < |s.proxies| && s.proxies[0].request == request && s.proxies[0].phase.Waiting?
  {
    var all := iset s: State | ReachableByOwnClients(s);
    ReachableIsClosed();
    var s := LostReached(all, request);
  }

  lemma StuckReached(all: iset<State>, request: string, reply: Reply) returns (r: State)
    requires Closed(all) && ClosedUnderForeign(all)
    ensures r in all && Valid(r) && |r.streams| == UINT32 + 1 && Blocked(r, 0, 0) && Lost(r, 0)
    ensures r.proxies[r.streams[0].opener].phase.Closing?
  {
    BlockedReached(all, request, reply);
    var s := OverwrittenReached(all, Answering(request, FRESH.(response := Some(reply)), [], Delivering(0, reply)));
    r := DoBody(s, 0, false);
    Reach(all, s, Body(0, false), r);
  }

  /** And a read loop that waits for it can then be stuck for good. */
  lemma ReadLoopMayBeStuck(request: string, reply: Reply)
    ensures exists s: State ::
              Valid(s) && Reachable(s) && |s.streams| == UINT32 + 1 && Blocked(s, 0, 0) && Stuck(s, 0, 0)
  {
    var all := iset s: State | Reachable(s);
    AnyReachableIsClosed();
    AnyReachableIsClosedUnderForeign();
    var s := StuckReached(all, request, reply);
    StuckForGoodIff(s, 0, 0);
  }
}
