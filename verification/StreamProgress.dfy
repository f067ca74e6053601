/**
 The gateway's read loop and the proxy handler it may have to wait for: when a
 blocked read loop gets on, whom it depends on meanwhile, and when it is stuck
 for good. In runs of any length, whatever the clients send.
 */
module StreamProgress {
  import opened Results
  import opened Streams
  import opened StreamIds
  import opened StreamLifecycle

  // ---------------------------------------------------------------------------
  // Who unblocks a read loop

  /** The read loop of `c` waits for stream `n`: Response is full and Done is open. */
  predicate Blocked(s: State, c: nat, n: nat)
    requires Valid(s)
  {
    && c < |s.conns| && s.conns[c].reader.Delivering? && s.conns[c].reader.stream == n
    && s.streams[n].response.Some? && s.streams[n].closes == 0
  }

  /** The step unblocks stream `n`: its handler takes the reply, or a deferred close for its ID finds it in the table. */
  predicate Unblocks(s: State, step: Step, n: nat)
    requires Valid(s) && n < |s.streams|
  {
    Takes(s, step, n) || (step.OfProxy? && step.proxyStep.CloseOwn? && Closes(s, step, n))
  }

  lemma BlockedReaderStays(s: State, step: Step, c: nat, n: nat)
    requires Base(s) && Blocked(s, c, n)
    ensures var r := Next(s, step);
            c < |r.conns| && r.conns[c].reader == s.conns[c].reader
  {
    if Enabled(s, step) && !step.OfProxy? && !step.OfServer? {
      OthersLeaveStreams(s, step);
    }
  }

  /** Exactly these steps unblock a blocked read loop. */
  lemma UnblocksIff(s: State, step: Step, c: nat, n: nat)
    requires Base(s) && Blocked(s, c, n)
    ensures !Blocked(Next(s, step), c, n) <==> Unblocks(s, step, n)
  {
    BlockedReaderStays(s, step, c, n);
    DoneClosesIff(s, step, n);
    ResponseStaysUntilTaken(s, step, n);
    assert ConnBase(s, c);
  }

  // ---------------------------------------------------------------------------
  // What a handler has left to do

  /** How many more moves the proxy handler has at most. */
  function Remaining(f: Phase): nat {
    match f
    case Chosen => 9
    case Allocated => 8
    case Opened => 7
    case OpenWriting => 6
    case OpenSent => 5
    case BodyRead => 4
    case RequestWriting => 3
    case Waiting => 2
    case Closing => 1
    case Finished => 0
  }

  /** The step moves proxy handler `p`: its own step, the end of its caller's body, or the end of its write. */
  predicate Moves(s: State, step: Step, p: nat)
    requires Valid(s)
  {
    && Enabled(s, step)
    && match step
       case OfProxy(q, _) => q == p
       case Body(q, _) => q == p
       case Written(c, _) => s.conns[c].writer == Some(p)
       case _ => false
  }

  /** State `r` has the proxy handlers and the locks of `s`; new connections are not locked. */
  predicate LeavesHandlers(s: State, r: State) {
    && r.proxies == s.proxies && |s.conns| <= |r.conns|
    && (forall c | 0 <= c < |s.conns| :: r.conns[c].writer == s.conns[c].writer)
    && (forall c | |s.conns| <= c < |r.conns| :: r.conns[c].writer.None?)
  }

  lemma ReadLoopsLeaveHandlers(s: State, c: nat, step: ServerStep)
    requires Valid(s) && ServerEnabled(s, c, step)
    ensures LeavesHandlers(s, DoServer(s, c, step))
  {
  }

  lemma ClientsLeaveHandlers(s: State, k: nat, step: ClientStep)
    requires Valid(s) && ClientEnabled(s, k, step)
    ensures LeavesHandlers(s, DoClient(s, k, step))
  {
  }

  lemma ClientHandlersLeaveHandlers(s: State, h: nat, step: HandlerStep)
    requires Valid(s) && HandlerEnabled(s, h, step)
    ensures LeavesHandlers(s, DoHandler(s, h, step))
  {
  }

  /** Steps of the other parties leave proxy handlers and locks alone. */
  lemma OthersLeaveHandlers(s: State, step: Step)
    requires Valid(s) && Enabled(s, step)
    requires !step.Arrive? && !step.Body? && !step.Written? && !step.OfProxy?
    ensures LeavesHandlers(s, Next(s, step))
  {
    match step
    case OfServer(c, x) => ReadLoopsLeaveHandlers(s, c, x);
    case OfClient(k, x) => ClientsLeaveHandlers(s, k, x);
    case OfHandler(h, x) => ClientHandlersLeaveHandlers(s, h, x);
    case _ =>
  }

  lemma ProxyStepLeavesOthers(s: State, q: nat, step: ProxyStep, p: nat)
    requires Valid(s) && p < |s.proxies| && p != q && ProxyEnabled(s, q, step)
    ensures var r := DoProxy(s, q, step);
            p < |r.proxies| && r.proxies[p] == s.proxies[p]
  {
  }

  /** Only these steps change the handler. */
  lemma OnlyMovesChangeHandler(s: State, step: Step, p: nat)
    requires Valid(s) && p < |s.proxies| && !Moves(s, step, p)
    ensures p < |Next(s, step).proxies| && Next(s, step).proxies[p] == s.proxies[p]
  {
    if Enabled(s, step) {
      match step
      case Arrive(_, _) =>
      case Body(_, _) =>
      case Written(_, _) =>
      case OfProxy(q, x) => ProxyStepLeavesOthers(s, q, x, p);
      case _ => OthersLeaveHandlers(s, step);
    }
  }

  lemma ProxyStepUsesUp(s: State, p: nat, step: ProxyStep)
    requires Valid(s) && ProxyEnabled(s, p, step)
    ensures Remaining(DoProxy(s, p, step).proxies[p].phase) < Remaining(s.proxies[p].phase)
  {
  }

  lemma MoveUsesUp(s: State, step: Step, p: nat)
    requires Valid(s) && p < |s.proxies| && Moves(s, step, p)
    ensures Remaining(Next(s, step).proxies[p].phase) < Remaining(s.proxies[p].phase)
  {
    if step.OfProxy? {
      ProxyStepUsesUp(s, p, step.proxyStep);
    }
  }

  /** How many labels of the run move proxy handler `p`. */
  function MovesIn(s: State, steps: seq<Step>, p: nat): nat
    requires Valid(s)
    decreases |steps|
  {
    if steps == [] then 0
    else (if Moves(s, steps[0], p) then 1 else 0) + MovesIn(Next(s, steps[0]), steps[1..], p)
  }

  /** Its moves use up what remains, and nobody else's step gives any back. */
  lemma {:induction false} RunUsesUp(s: State, steps: seq<Step>, p: nat)
    requires Valid(s) && p < |s.proxies|
    ensures p < |Exec(s, steps).proxies|
    ensures Remaining(Exec(s, steps).proxies[p].phase) + MovesIn(s, steps, p) <= Remaining(s.proxies[p].phase)
    decreases |steps|
  {
    if steps == [] {
    } else {
      if Moves(s, steps[0], p) {
        MoveUsesUp(s, steps[0], p);
      } else {
        OnlyMovesChangeHandler(s, steps[0], p);
      }
      RunUsesUp(Next(s, steps[0]), steps[1..], p);
    }
  }

  /** In state `r`, stream `n` no longer holds the read loop of `c` up. */
  predicate Freed(r: State, c: nat, n: nat)
    requires Valid(r)
  {
    && n < |r.streams| && r.streams[n].closes > 0 && !Blocked(r, c, n)
    && (c < |r.conns| && r.conns[c].reader.Delivering? && r.conns[c].reader.stream == n ==>
          ServerEnabled(r, c, GiveUp))
  }

  lemma FinishedFreesUnlessLost(s: State, c: nat, n: nat)
    requires Base(s) && n < |s.streams| && s.proxies[s.streams[n].opener].phase.Finished?
    ensures Freed(s, c, n) <==> !Lost(s, n)
  {
    DoneAtMostOnce(s, n);
  }

  /**
   The stream's handler has at most seven moves left, and once it has made them,
   among whatever else happens, the read loop is free if and only if the stream
   has not been overwritten in its table.
   */
  predicate MovesFree(s: State, c: nat, n: nat, after: seq<Step>)
    requires Valid(s) && n < |s.streams|
  {
    var p := s.streams[n].opener;
    && Remaining(s.proxies[p].phase) <= 7
    && (MovesIn(s, after, p) >= Remaining(s.proxies[p].phase) ==>
          (Freed(Exec(s, after), c, n) <==> !Lost(s, n) && !OverwrittenIn(s, after, n)))
  }

  lemma MovesMadeFinish(s: State, n: nat, after: seq<Step>)
    requires Base(s) && n < |s.streams|
    requires MovesIn(s, after, s.streams[n].opener) >= Remaining(s.proxies[s.streams[n].opener].phase)
    ensures var r := Exec(s, after);
            r.streams[n].opener == s.streams[n].opener && r.proxies[s.streams[n].opener].phase.Finished?
  {
    RunUsesUp(s, after, s.streams[n].opener);
    assert SameStream(s.streams[n], Exec(s, after).streams[n]);
  }

  lemma MovesMadeFree(s: State, c: nat, n: nat, after: seq<Step>)
    requires Base(s) && Blocked(s, c, n)
    requires MovesIn(s, after, s.streams[n].opener) >= Remaining(s.proxies[s.streams[n].opener].phase)
    ensures Freed(Exec(s, after), c, n) <==> !Lost(s, n) && !OverwrittenIn(s, after, n)
  {
    MovesMadeFinish(s, n, after);
    RunKeepsBase(s, after);
    RunLoses(s, after, n);
    FinishedFreesUnlessLost(Exec(s, after), c, n);
  }

  lemma BlockedMovesFree(s: State, c: nat, n: nat, after: seq<Step>)
    requires Base(s) && Blocked(s, c, n)
    ensures MovesFree(s, c, n, after)
  {
    assert ConnBase(s, c);
    if MovesIn(s, after, s.streams[n].opener) >= Remaining(s.proxies[s.streams[n].opener].phase) {
      MovesMadeFree(s, c, n, after);
    }
  }

  /**
   Whenever a read loop is blocked in a run, every continuation in which the
   handler of its stream makes its moves frees it, unless the stream was overwritten.
   */
  lemma BlockedReadLoopGetsFree(s: State, c: nat, n: nat, after: seq<Step>)
    requires Valid(s) && Reachable(s) && Blocked(s, c, n)
    ensures MovesFree(s, c, n, after)
  {
    ReachableBase(s);
    BlockedMovesFree(s, c, n, after);
  }

  // ---------------------------------------------------------------------------
  // Writers

  /** A handler inside `WriteMessage` holds its connection's `sendMu`, and nobody else holds one. */
  predicate Writers(s: State)
    requires Valid(s)
  {
    && (forall p | 0 <= p < |s.proxies| && Writing(s.proxies[p].phase) :: s.conns[s.proxies[p].conn].writer == Some(p))
    && (forall c | 0 <= c < |s.conns| && s.conns[c].writer.Some? :: WriterAt(s, c))
  }

  lemma WritersFromFrame(s: State, r: State)
    requires Valid(s) && Valid(r) && Writers(s) && |s.proxies| <= |r.proxies| && |s.conns| <= |r.conns|
    requires forall p | 0 <= p < |s.proxies| ::
               && r.proxies[p].conn == s.proxies[p].conn
               && (Writing(r.proxies[p].phase) <==> Writing(s.proxies[p].phase))
    requires forall p | |s.proxies| <= p < |r.proxies| :: r.proxies[p].phase.Chosen?
    requires forall c | 0 <= c < |s.conns| :: r.conns[c].writer == s.conns[c].writer
    requires forall c | |s.conns| <= c < |r.conns| :: r.conns[c].writer.None?
    ensures Writers(r)
  {
    forall c | 0 <= c < |r.conns| && r.conns[c].writer.Some?
      ensures WriterAt(r, c)
    {
      assert WriterAt(s, c);
    }
  }

  lemma LockKeepsWriters(s: State, p: nat)
    requires Valid(s) && Writers(s) && ProxyEnabled(s, p, Lock)
    ensures Writers(DoLock(s, p))
  {
    var r := DoLock(s, p);
    forall c | 0 <= c < |r.conns| && r.conns[c].writer.Some?
      ensures WriterAt(r, c)
    {
      assert c != s.proxies[p].conn ==> WriterAt(s, c);
    }
  }

  lemma WrittenKeepsWriters(s: State, c: nat, ok: bool)
    requires Valid(s) && Writers(s) && WriterAt(s, c)
    ensures Writers(DoWritten(s, c, ok))
  {
    var r := DoWritten(s, c, ok);
    forall d | 0 <= d < |r.conns| && r.conns[d].writer.Some?
      ensures WriterAt(r, d)
    {
      assert WriterAt(s, d);
    }
  }

  lemma ProxyStepKeepsWriters(s: State, p: nat, step: ProxyStep)
    requires Valid(s) && Writers(s) && ProxyEnabled(s, p, step)
    ensures Writers(DoProxy(s, p, step))
  {
    if step.Lock? {
      LockKeepsWriters(s, p);
    } else {
      WritersFromFrame(s, DoProxy(s, p, step));
    }
  }

  lemma StepKeepsWriters(s: State, step: Step)
    requires Valid(s) && Writers(s)
    ensures Writers(Next(s, step))
  {
    if Enabled(s, step) {
      match step
      case Written(c, ok) => WrittenKeepsWriters(s, c, ok);
      case OfProxy(p, x) => ProxyStepKeepsWriters(s, p, x);
      case Arrive(c, request) => WritersFromFrame(s, DoArrive(s, c, request));
      case Body(p, ok) => WritersFromFrame(s, DoBody(s, p, ok));
      case _ =>
        OthersLeaveHandlers(s, step);
        WritersFromFrame(s, Next(s, step));
    }
  }

  lemma {:induction false} RunKeepsWriters(s: State, steps: seq<Step>)
    requires Valid(s) && Writers(s)
    ensures Writers(Exec(s, steps))
    decreases |steps|
  {
    if steps == [] {
    } else {
      StepKeepsWriters(s, steps[0]);
      RunKeepsWriters(Next(s, steps[0]), steps[1..]);
    }
  }

  lemma ReachableWriters(s: State)
    requires Valid(s) && Reachable(s)
    ensures Writers(s)
  {
    var init: State, steps: seq<Step> :| Initial(init) && s == Exec(init, steps);
    RunKeepsWriters(init, steps);
  }

  // ---------------------------------------------------------------------------
  // Whom a handler waits for

  /** The handler can do nothing by itself: it writes, reads its caller's body, or wants a `sendMu` that is held. */
  predicate Dependent(s: State, p: nat)
    requires Valid(s) && p < |s.proxies|
  {
    var f := s.proxies[p].phase;
    Writing(f) || f.OpenSent? || (Sending(f) && s.conns[s.proxies[p].conn].writer.Some?)
  }

  /** What a dependent handler waits for: the end of its caller's body, or that of the write on its connection. */
  predicate Awaited(s: State, step: Step, p: nat)
    requires Valid(s) && p < |s.proxies|
  {
    if s.proxies[p].phase.OpenSent? then step.Body? && step.proxy == p
    else step.Written? && step.conn == s.proxies[p].conn
  }

  /** An unfinished handler can take a step by itself exactly when it is not dependent; so always when it waits or closes. */
  lemma OwnStepIff(s: State, p: nat)
    requires Valid(s) && p < |s.proxies| && !s.proxies[p].phase.Finished?
    ensures (exists step :: ProxyEnabled(s, p, step)) <==> !Dependent(s, p)
    ensures s.proxies[p].phase.Waiting? || s.proxies[p].phase.Closing? ==> !Dependent(s, p)
  {
    if !Dependent(s, p) {
      var step := match s.proxies[p].phase
        case Chosen => Allocate
        case Allocated => Insert
        case Waiting => TimeOut
        case Closing => CloseOwn
        case _ => Lock;
      assert ProxyEnabled(s, p, step);
    }
  }

  lemma ProxyStepLeavesHeldLock(s: State, p: nat, step: ProxyStep, c: nat)
    requires Valid(s) && ProxyEnabled(s, p, step) && c < |s.conns| && s.conns[c].writer.Some?
    ensures c < |DoProxy(s, p, step).conns| && DoProxy(s, p, step).conns[c].writer == s.conns[c].writer
  {
  }

  /** Only the end of the write on the connection unlocks its `sendMu`. */
  lemma HeldLockStays(s: State, step: Step, c: nat)
    requires Valid(s) && c < |s.conns| && s.conns[c].writer.Some? && !(step.Written? && step.conn == c)
    ensures c < |Next(s, step).conns| && Next(s, step).conns[c].writer == s.conns[c].writer
  {
    if Enabled(s, step) {
      match step
      case Arrive(_, _) =>
      case Body(_, _) =>
      case Written(_, _) =>
      case OfProxy(p, x) => ProxyStepLeavesHeldLock(s, p, x, c);
      case _ => OthersLeaveHandlers(s, step);
    }
  }

  /** Until what it waits for happens, a dependent handler stays where it is, and dependent. */
  lemma DependentStays(s: State, step: Step, p: nat)
    requires Valid(s) && Writers(s) && p < |s.proxies| && Dependent(s, p) && !Awaited(s, step, p)
    ensures var r := Next(s, step);
            && p < |r.proxies| && r.proxies[p] == s.proxies[p]
            && Dependent(r, p) && (forall x :: Awaited(r, x, p) <==> Awaited(s, x, p))
  {
    assert !Moves(s, step, p);
    OnlyMovesChangeHandler(s, step, p);
    if !s.proxies[p].phase.OpenSent? {
      HeldLockStays(s, step, s.proxies[p].conn);
    }
  }

  /** And it can happen: the caller's body can end, and the holder of the `sendMu` is inside a write that can. */
  lemma AwaitedCanHappen(s: State, p: nat)
    requires Valid(s) && Writers(s) && p < |s.proxies| && Dependent(s, p)
    ensures exists step :: Awaited(s, step, p) && Enabled(s, step)
  {
    var step := if s.proxies[p].phase.OpenSent? then Body(p, true) else Written(s.proxies[p].conn, true);
    assert Awaited(s, step, p) && Enabled(s, step);
  }

  // ---------------------------------------------------------------------------
  // Stalled read loops

  /** No other handler between open and close has a stream with this ID on this connection. */
  predicate Alone(s: State, n: nat)
    requires Valid(s) && n < |s.streams|
  {
    forall q | 0 <= q < |s.proxies| && q != s.streams[n].opener && Held(s.proxies[q].phase) ::
      s.proxies[q].conn != s.streams[n].conn || s.streams[s.proxies[q].stream].id != s.streams[n].id
  }

  lemma ProxyStepHeldBefore(s: State, p: nat, step: ProxyStep)
    requires Valid(s) && ProxyEnabled(s, p, step) && !step.Insert? && Held(DoProxy(s, p, step).proxies[p].phase)
    ensures var x, y := s.proxies[p], DoProxy(s, p, step).proxies[p];
            Held(x.phase) && x.conn == y.conn && x.stream == y.stream
  {
  }

  /** A handler comes between open and close by its insert only. */
  lemma HeldBefore(s: State, step: Step, q: nat)
    requires Valid(s) && q < |Next(s, step).proxies| && Held(Next(s, step).proxies[q].phase)
    requires step != OfProxy(q, Insert)
    ensures q < |s.proxies| && Held(s.proxies[q].phase)
    ensures s.proxies[q].conn == Next(s, step).proxies[q].conn && s.proxies[q].stream == Next(s, step).proxies[q].stream
  {
    if q < |s.proxies| {
      if !Moves(s, step, q) {
        OnlyMovesChangeHandler(s, step, q);
      } else if step.OfProxy? {
        ProxyStepHeldBefore(s, q, step.proxyStep);
      }
    } else if Enabled(s, step) && !step.Arrive? && !step.Body? && !step.Written? && !step.OfProxy? {
      OthersLeaveHandlers(s, step);
    }
  }

  lemma ReadLoopsShrinkTables(s: State, c: nat, step: ServerStep, n: nat)
    requires Valid(s) && ServerEnabled(s, c, step) && n < |s.streams| && InTable(DoServer(s, c, step), n)
    ensures InTable(s, n)
  {
  }

  /** Once its handler has put it there, a stream does not come into its table again. */
  lemma InTableBefore(s: State, step: Step, n: nat)
    requires Base(s) && n < |s.streams| && InTable(Next(s, step), n) && Entered(s.proxies[s.streams[n].opener].phase)
    ensures InTable(s, n)
  {
    if Enabled(s, step) {
      match step
      case OfProxy(p, x) => assert x.Insert? ==> ProxyBase(s, p);
      case OfServer(c, x) => ReadLoopsShrinkTables(s, c, x, n);
      case _ => OthersLeaveStreams(s, step);
    }
  }

  /** As long as it is in its table, the stream stays alone. */
  lemma StaysAlone(s: State, step: Step, n: nat)
    requires Base(s) && n < |s.streams| && Entered(s.proxies[s.streams[n].opener].phase)
    requires InTable(s, n) ==> Alone(s, n)
    ensures InTable(Next(s, step), n) ==> Alone(Next(s, step), n)
  {
    var r := Next(s, step);
    if InTable(r, n) {
      InTableBefore(s, step, n);
      forall q | 0 <= q < |r.proxies| && q != s.streams[n].opener && Held(r.proxies[q].phase)
        ensures r.proxies[q].conn != r.streams[n].conn || r.streams[r.proxies[q].stream].id != r.streams[n].id
      {
        if step != OfProxy(q, Insert) {
          HeldBefore(s, step, q);
        } else if Enabled(s, step) {
          assert ProxyBase(s, q);
        }
      }
    }
  }

  lemma DependentIsNotUnblocked(s: State, step: Step, n: nat)
    requires Base(s) && n < |s.streams| && Dependent(s, s.streams[n].opener) && (InTable(s, n) ==> Alone(s, n))
    ensures !Unblocks(s, step, n)
  {
    assert StreamBase(s, n);
  }

  /** While its handler does not get what it waits for, a read loop stays blocked. */
  lemma {:induction false} StalledFrom(s: State, c: nat, n: nat, after: seq<Step>)
    requires Base(s) && Writers(s) && Blocked(s, c, n) && Dependent(s, s.streams[n].opener)
    requires InTable(s, n) ==> Alone(s, n)
    requires forall i | 0 <= i < |after| :: !Awaited(s, after[i], s.streams[n].opener)
    ensures Blocked(Exec(s, after), c, n)
    ensures Exec(s, after).proxies[s.streams[n].opener] == s.proxies[s.streams[n].opener]
    decreases |after|
  {
    if after == [] {
    } else {
      var r := Next(s, after[0]);
      DependentIsNotUnblocked(s, after[0], n);
      UnblocksIff(s, after[0], c, n);
      DependentStays(s, after[0], s.streams[n].opener);
      assert ConnBase(s, c);
      StaysAlone(s, after[0], n);
      StepKeepsBase(s, after[0]);
      StepKeepsWriters(s, after[0]);
      StalledFrom(r, c, n, after[1..]);
    }
  }

  /**
   A read loop blocked on a stream whose handler depends on its caller or on the
   network stays blocked for as long as these like: in every continuation
   without the end of the caller's body, or of the write on the connection.
   */
  lemma StalledReadLoop(s: State, c: nat, n: nat, after: seq<Step>)
    requires Valid(s) && Reachable(s) && Blocked(s, c, n) && Alone(s, n) && Dependent(s, s.streams[n].opener)
    requires forall i | 0 <= i < |after| :: !Awaited(s, after[i], s.streams[n].opener)
    ensures Blocked(Exec(s, after), c, n)
  {
    ReachableBase(s);
    ReachableWriters(s);
    StalledFrom(s, c, n, after);
  }

  lemma ExecOne(s: State, step: Step)
    requires Valid(s)
    ensures Exec(s, [step]) == Next(s, step)
  {
    assert [step][1..] == [];
  }

  lemma ExecCons(s: State, step: Step, steps: seq<Step>)
    requires Valid(s)
    ensures Exec(s, [step] + steps) == Exec(Next(s, step), steps)
  {
    assert ([step] + steps)[1..] == steps;
  }

  lemma ClosingFrees(s: State, c: nat, n: nat)
    requires Base(s) && Blocked(s, c, n) && ProxyAt(s, s.streams[n].opener, Closing)
    ensures Freed(Next(s, OfProxy(s.streams[n].opener, CloseOwn)), c, n) <==> !Lost(s, n)
  {
    var step := OfProxy(s.streams[n].opener, CloseOwn);
    StepKeepsBase(s, step);
    StepLoses(s, step, n);
    FinishedFreesUnlessLost(Next(s, step), c, n);
  }

  lemma TimeOutKeepsBlocked(s: State, c: nat, n: nat)
    requires Base(s) && Blocked(s, c, n) && ProxyAt(s, s.streams[n].opener, Waiting)
    ensures var r := Next(s, OfProxy(s.streams[n].opener, TimeOut));
            && Base(r) && Blocked(r, c, n) && (Lost(r, n) <==> Lost(s, n))
            && r.streams == s.streams && ProxyAt(r, s.streams[n].opener, Closing)
  {
    var step := OfProxy(s.streams[n].opener, TimeOut);
    StepKeepsBase(s, step);
    StepLoses(s, step, n);
    UnblocksIff(s, step, c, n);
  }

  /**
   Once its handler waits for the reply or closes, the handler's own steps free
   the read loop without anyone else, unless the stream was overwritten.
   */
  lemma OwnStepsFree(s: State, c: nat, n: nat)
    requires Base(s) && Blocked(s, c, n)
    ensures var p := s.streams[n].opener;
            && (ProxyAt(s, p, Closing) ==> (Freed(Exec(s, [OfProxy(p, CloseOwn)]), c, n) <==> !Lost(s, n)))
            && (ProxyAt(s, p, Waiting) ==>
                  (Freed(Exec(s, [OfProxy(p, TimeOut)] + [OfProxy(p, CloseOwn)]), c, n) <==> !Lost(s, n)))
  {
    var p := s.streams[n].opener;
    if ProxyAt(s, p, Closing) {
      ClosingFrees(s, c, n);
      ExecOne(s, OfProxy(p, CloseOwn));
    } else if ProxyAt(s, p, Waiting) {
      TimeOutKeepsBlocked(s, c, n);
      ClosingFrees(Next(s, OfProxy(p, TimeOut)), c, n);
      ExecOne(Next(s, OfProxy(p, TimeOut)), OfProxy(p, CloseOwn));
      ExecCons(s, OfProxy(p, TimeOut), [OfProxy(p, CloseOwn)]);
    }
  }

  // ---------------------------------------------------------------------------
  // Read loops that are stuck for good

  lemma {:induction false} LostStaysBlocked(s: State, c: nat, n: nat, after: seq<Step>)
    requires Base(s) && Blocked(s, c, n) && Lost(s, n)
    requires var f := s.proxies[s.streams[n].opener].phase;
             f.Closing? || f.Finished?
    ensures Blocked(Exec(s, after), c, n)
    decreases |after|
  {
    if after == [] {
    } else {
      var p := s.streams[n].opener;
      UnblocksIff(s, after[0], c, n);
      StepLoses(s, after[0], n);
      StepKeepsBase(s, after[0]);
      if Moves(s, after[0], p) {
        MoveUsesUp(s, after[0], p);
      } else {
        OnlyMovesChangeHandler(s, after[0], p);
      }
      LostStaysBlocked(Next(s, after[0]), c, n, after[1..]);
    }
  }

  /** A step that brings the handler nearer to its wait for the reply. */
  function Onward(s: State, p: nat): Step
    requires Valid(s) && p < |s.proxies|
  {
    var f := s.proxies[p].phase;
    if f.OpenSent? then Body(p, true)
    else if Sending(f) && s.conns[s.proxies[p].conn].writer.None? then OfProxy(p, Lock)
    else Written(s.proxies[p].conn, true)
  }

  /** Twice the moves left, and one more while the connection is locked. */
  function Distance(s: State, p: nat): nat
    requires Valid(s) && p < |s.proxies|
  {
    2 * Remaining(s.proxies[p].phase) + (if s.conns[s.proxies[p].conn].writer.Some? then 1 else 0)
  }

  predicate BeforeWait(f: Phase) {
    Sending(f) || Writing(f) || f.OpenSent?
  }

  lemma OnwardGetsNearer(s: State, p: nat)
    requires Valid(s) && Writers(s) && p < |s.proxies| && BeforeWait(s.proxies[p].phase)
    ensures Enabled(s, Onward(s, p))
    ensures var r := Next(s, Onward(s, p));
            && p < |r.proxies| && Distance(r, p) < Distance(s, p)
            && (BeforeWait(r.proxies[p].phase) || r.proxies[p].phase.Waiting?)
  {
    assert s.conns[s.proxies[p].conn].writer.Some? ==> WriterAt(s, s.proxies[p].conn);
  }

  /** The two states have the same streams and the same read loops. */
  predicate SameDeliveries(s: State, r: State) {
    && r.streams == s.streams && |r.conns| == |s.conns|
    && (forall c | 0 <= c < |s.conns| :: r.conns[c].reader == s.conns[c].reader)
  }

  lemma OnwardLeavesDeliveries(s: State, p: nat)
    requires Valid(s) && p < |s.proxies|
    ensures SameDeliveries(s, Next(s, Onward(s, p)))
  {
  }

  /** A handler that has not come to its wait can get there without anything being delivered meanwhile. */
  lemma {:induction false} CanComeToWait(s: State, p: nat) returns (after: seq<Step>)
    requires Base(s) && Writers(s) && p < |s.proxies|
    requires BeforeWait(s.proxies[p].phase) || s.proxies[p].phase.Waiting?
    ensures Base(Exec(s, after)) && ProxyAt(Exec(s, after), p, Waiting) && SameDeliveries(s, Exec(s, after))
    decreases Distance(s, p)
  {
    if s.proxies[p].phase.Waiting? {
      after := [];
    } else {
      var step := Onward(s, p);
      OnwardGetsNearer(s, p);
      OnwardLeavesDeliveries(s, p);
      StepKeepsBase(s, step);
      StepKeepsWriters(s, step);
      var rest := CanComeToWait(Next(s, step), p);
      ExecCons(s, step, rest);
      after := [step] + rest;
    }
  }

  lemma WaitingCanTake(s: State, c: nat, n: nat)
    requires Base(s) && Blocked(s, c, n) && ProxyAt(s, s.streams[n].opener, Waiting)
    ensures !Blocked(Next(s, OfProxy(s.streams[n].opener, TakeResponse)), c, n)
  {
    assert StreamBase(s, n);
    UnblocksIff(s, OfProxy(s.streams[n].opener, TakeResponse), c, n);
  }

  lemma {:induction false} ExecAppend(s: State, steps: seq<Step>, more: seq<Step>)
    requires Valid(s)
    ensures Exec(s, steps + more) == Exec(Exec(s, steps), more)
    decreases |steps|
  {
    if steps == [] {
      assert [] + more == more;
    } else {
      assert (steps + more)[1..] == steps[1..] + more;
      ExecAppend(Next(s, steps[0]), steps[1..], more);
    }
  }

  lemma FreeingRun(s: State, c: nat, n: nat) returns (after: seq<Step>)
    requires Base(s) && Writers(s) && Blocked(s, c, n)
    requires var f := s.proxies[s.streams[n].opener].phase;
             !(Lost(s, n) && (f.Closing? || f.Finished?))
    ensures !Blocked(Exec(s, after), c, n)
  {
    var p := s.streams[n].opener;
    assert ConnBase(s, c);
    if s.proxies[p].phase.Finished? {
      FinishedFreesUnlessLost(s, c, n);
    }
    if s.proxies[p].phase.Closing? {
      ClosingFrees(s, c, n);
      ExecOne(s, OfProxy(p, CloseOwn));
      after := [OfProxy(p, CloseOwn)];
    } else {
      var wait := CanComeToWait(s, p);
      assert Blocked(Exec(s, wait), c, n);
      WaitingCanTake(Exec(s, wait), c, n);
      ExecOne(Exec(s, wait), OfProxy(p, TakeResponse));
      ExecAppend(s, wait, [OfProxy(p, TakeResponse)]);
      after := wait + [OfProxy(p, TakeResponse)];
    }
  }

  /** Whatever anyone does, the read loop stays blocked. */
  ghost predicate Stuck(s: State, c: nat, n: nat)
    requires Valid(s)
  {
    forall after: seq<Step> :: Blocked(Exec(s, after), c, n)
  }

  /**
   A blocked read loop is stuck exactly when its stream was overwritten in the
   table and the stream's handler is closing or finished.
   */
  lemma StuckForGoodIff(s: State, c: nat, n: nat)
    requires Valid(s) && Reachable(s) && Blocked(s, c, n)
    ensures var f := s.proxies[s.streams[n].opener].phase;
            Stuck(s, c, n) <==> Lost(s, n) && (f.Closing? || f.Finished?)
  {
    ReachableBase(s);
    ReachableWriters(s);
    var f := s.proxies[s.streams[n].opener].phase;
    if Lost(s, n) && (f.Closing? || f.Finished?) {
      forall after: seq<Step>
        ensures Blocked(Exec(s, after), c, n)
      {
        LostStaysBlocked(s, c, n, after);
      }
    } else {
      var after := FreeingRun(s, c, n);
      assert !Blocked(Exec(s, after), c, n);
    }
  }
}
