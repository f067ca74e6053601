/**
 The handshake as `handleConnect` runs it, and the connection handlers of the
 gateway: without interruption, the handler's calls do to the shared state what
 the method does, so what is proved of either holds of the other.
 */
module HandshakeRuns {
  import opened TunnelIds
  import opened Gateway
  import GatewayLock
  import opened GatewayCalls
  import opened GatewayPieces
  import opened Handshake
  import A = GatewayAdmin
  import R = Registry

  /** What a gateway state holds of the shared maps and the gauge. */
  function SharedOf(s: State): Shared {
    Shared(s.reg, s.connections, s.routes, s.gauge)
  }

  // ---------------------------------------------------------------------------
  // Registering

  /** The calls of a handler that connects and gets `k` registrations done. */
  function Registrations(c: string, owner: string, tunnels: seq<TunnelConfig>, clock: nat -> Reading,
                         k: nat): seq<Step> {
    if k == 0 then [Connect(c, owner, tunnels)]
    else Registrations(c, owner, tunnels, clock, k - 1) + Calls(Register(c, clock(k - 1)))
  }

  /** One registration and mapping is one round of the loop of `handleConnect`. */
  lemma RegistrationEnrolls(cfg: R.Config, s: State, c: string, at: Reading)
    requires Accepted(cfg, s, c)
    ensures var h := s.handlers[c];
            var k := h.phase.next;
            var t := NewTunnel(c, h, k, at);
            var r := Exec(cfg, s, Calls(Register(c, at)));
            && SharedOf(r) == Enroll(cfg, SharedOf(s), t)
            && c in r.handlers && r.handlers[c] == h.(ids := h.ids + [t.id], phase := Registering(k + 1))
  {
    ExecTwo(cfg, s, Register(c, at), Map(c));
  }

  lemma NextRegistration(cfg: R.Config, s: State, c: string, owner: string, tunnels: seq<TunnelConfig>,
                         at: Reading, k: nat)
    requires k < |tunnels| && c in s.handlers && R.RegisterError(cfg, s.reg, tunnels[k].subdomain).None?
    requires s.handlers[c] == Handler(owner, tunnels, IdsOf(c, tunnels[..k]), Registering(k))
    ensures var r := Exec(cfg, s, Calls(Register(c, at)));
            && SharedOf(r) == Enroll(cfg, SharedOf(s), TunnelFor(c, owner, tunnels[k], at))
            && c in r.handlers && r.handlers[c] == Handler(owner, tunnels, IdsOf(c, tunnels[..k + 1]), Registering(k + 1))
  {
    RegistrationEnrolls(cfg, s, c, at);
    IdsOfNext(c, tunnels, k);
  }

  /** Without interruption, `k` accepted registrations leave the shared state as the loop of `handleConnect` does. */
  lemma {:induction false} RegistrationsEnroll(cfg: R.Config, s: State, c: string, owner: string,
                                               tunnels: seq<TunnelConfig>, clock: nat -> Reading, k: nat)
    requires Generated(c) && c !in s.handlers && k <= |tunnels|
    requires AcceptedUpTo(cfg, Join(SharedOf(s), c), c, owner, tunnels, clock, k)
    ensures var r := Exec(cfg, s, Registrations(c, owner, tunnels, clock, k));
            && SharedOf(r) == Enrolled(cfg, Join(SharedOf(s), c), c, owner, tunnels, clock, k)
            && c in r.handlers && r.handlers[c] == Handler(owner, tunnels, IdsOf(c, tunnels[..k]), Registering(k))
    decreases k
  {
    if k == 0 {
      ExecOne(cfg, s, Connect(c, owner, tunnels));
      assert IdsOf(c, tunnels[..0]) == [];
    } else {
      RegistrationsEnroll(cfg, s, c, owner, tunnels, clock, k - 1);
      var steps := Registrations(c, owner, tunnels, clock, k - 1);
      ExecAppend(cfg, s, steps, Calls(Register(c, clock(k - 1))));
      assert FailureAt(cfg, Join(SharedOf(s), c), c, owner, tunnels, clock, k - 1).None?;
      NextRegistration(cfg, Exec(cfg, s, steps), c, owner, tunnels, clock(k - 1), k - 1);
    }
  }

  /** So each tunnel that was accepted is stored and routed as the connection asked for it. */
  lemma RegistrationsServe(cfg: R.Config, s: State, c: string, owner: string, tunnels: seq<TunnelConfig>,
                           clock: nat -> Reading, k: nat, i: nat)
    requires Generated(c) && c !in s.handlers && i < k <= |tunnels|
    requires AcceptedUpTo(cfg, Join(SharedOf(s), c), c, owner, tunnels, clock, k)
    ensures var r := Exec(cfg, s, Registrations(c, owner, tunnels, clock, k));
            ServedAsAsked(cfg, SharedOf(r), c, owner, tunnels[i], clock(i))
  {
    RegistrationsEnroll(cfg, s, c, owner, tunnels, clock, k);
    EnrolledServes(cfg, Join(SharedOf(s), c), c, owner, tunnels, clock, k, i);
  }

  // ---------------------------------------------------------------------------
  // Cleaning up

  /** The calls of a handler that cleans `n` tunnels up. */
  function Cleanups(c: string, n: nat): seq<Step> {
    if n == 0 then [] else Calls(Check(c)) + Cleanups(c, n - 1)
  }

  /** One lookup, unmapping and unregistration is one round of the loop of `cleanupConnection`. */
  lemma CheckEvicts(cfg: R.Config, s: State, c: string)
    requires c in s.handlers && s.handlers[c].phase.Checking? && s.handlers[c].phase.next < |s.handlers[c].ids|
    ensures var h := s.handlers[c];
            var r := Exec(cfg, s, Calls(Check(c)));
            && SharedOf(r) == Evict(SharedOf(s), h.ids[h.phase.next])
            && r.handlers == s.handlers[c := h.(phase := Checking(h.phase.next + 1))]
  {
    EvictEffect(cfg, s, c);
  }

  /** Without interruption, a handler's cleanups leave the shared state as the loop of `cleanupConnection` does. */
  lemma {:induction false} CleanupsEvict(cfg: R.Config, s: State, c: string, n: nat)
    requires c in s.handlers && s.handlers[c].phase.Checking? && s.handlers[c].phase.next + n == |s.handlers[c].ids|
    ensures var h := s.handlers[c];
            Exec(cfg, s, Cleanups(c, n)).handlers == s.handlers[c := h.(phase := Checking(|h.ids|))]
    ensures SharedOf(Exec(cfg, s, Cleanups(c, n)))
            == EvictAll(SharedOf(s), s.handlers[c].ids[s.handlers[c].phase.next..])
    decreases n
  {
    var h := s.handlers[c];
    if n == 0 {
      assert s.handlers[c := h] == s.handlers;
    } else {
      CheckEvicts(cfg, s, c);
      assert h.ids[h.phase.next..][0] == h.ids[h.phase.next];
      assert h.ids[h.phase.next..][1..] == h.ids[h.phase.next + 1..];
      CleanupsEvict(cfg, Exec(cfg, s, Calls(Check(c))), c, n - 1);
      ExecAppend(cfg, s, Calls(Check(c)), Cleanups(c, n - 1));
    }
  }

  lemma LastCheckLeaves(cfg: R.Config, s: State, c: string)
    requires c in s.handlers && s.handlers[c].phase == Checking(|s.handlers[c].ids|) && c in s.connections
    ensures var r := Exec(cfg, s, [Check(c)]);
            SharedOf(r) == Leave(SharedOf(s), c) && r.handlers == s.handlers - {c}
  {
    ExecOne(cfg, s, Check(c));
  }

  lemma {:induction false} EvictAllKeepsConnections(s: Shared, ids: seq<string>)
    ensures EvictAll(s, ids).connections == s.connections
    decreases |ids|
  {
    if ids == [] {
    } else {
      EvictAllKeepsConnections(Evict(s, ids[0]), ids[1..]);
    }
  }

  /** A handler that starts to clean up and is not interrupted. */
  lemma CleanupIsARun(cfg: R.Config, s: State, c: string)
    requires c in s.handlers && s.handlers[c].phase == Checking(0) && c in s.connections
    ensures var r := Exec(cfg, s, Cleanups(c, |s.handlers[c].ids|) + [Check(c)]);
            && SharedOf(r) == Leave(EvictAll(SharedOf(s), s.handlers[c].ids), c)
            && r.handlers == s.handlers - {c}
  {
    var h := s.handlers[c];
    var steps := Cleanups(c, |h.ids|);
    ExecAppend(cfg, s, steps, [Check(c)]);
    CleanupsEvict(cfg, s, c, |h.ids|);
    assert h.ids[0..] == h.ids;
    EvictAllKeepsConnections(SharedOf(s), h.ids);
    LastCheckLeaves(cfg, Exec(cfg, s, steps), c);
    assert s.handlers[c := h.(phase := Checking(|h.ids|))] - {c} == s.handlers - {c};
  }

  // ---------------------------------------------------------------------------
  // A handshake that fails

  /** The calls of a handler whose registration number `k` fails, up to the end of its cleanup. */
  function FailedHandshake(c: string, owner: string, tunnels: seq<TunnelConfig>, clock: nat -> Reading,
                           k: nat): seq<Step> {
    Registrations(c, owner, tunnels, clock, k) + [Register(c, clock(k))] + (Cleanups(c, k) + [Check(c)])
  }

  lemma RefusalStartsCleanup(cfg: R.Config, s: State, c: string, at: Reading)
    requires c in s.handlers && s.handlers[c].phase.Registering?
    requires s.handlers[c].phase.next < |s.handlers[c].tunnels|
    requires R.RegisterError(cfg, s.reg, s.handlers[c].tunnels[s.handlers[c].phase.next].subdomain).Some?
    ensures Exec(cfg, s, [Register(c, at)]) == SetPhase(s, c, Checking(0))
  {
    ExecOne(cfg, s, Register(c, at));
  }

  lemma {:induction false} EnrolledKeepsConnections(cfg: R.Config, s: Shared, c: string, owner: string,
                                                    tunnels: seq<TunnelConfig>, clock: nat -> Reading, k: nat)
    requires k <= |tunnels|
    ensures Enrolled(cfg, s, c, owner, tunnels, clock, k).connections == s.connections
    decreases k
  {
    if k == 0 {
    } else {
      EnrolledKeepsConnections(cfg, s, c, owner, tunnels, clock, k - 1);
    }
  }

  /** Without interruption, a failing handler leaves the shared state as `handleConnect` leaves it, and itself goes away. */
  lemma FailedHandshakeIsARun(cfg: R.Config, s: State, c: string, owner: string, tunnels: seq<TunnelConfig>,
                              clock: nat -> Reading, k: nat)
    requires Generated(c) && c !in s.handlers && k < |tunnels|
    requires AcceptedUpTo(cfg, Join(SharedOf(s), c), c, owner, tunnels, clock, k)
    requires FailureAt(cfg, Join(SharedOf(s), c), c, owner, tunnels, clock, k).Some?
    ensures var r := Exec(cfg, s, FailedHandshake(c, owner, tunnels, clock, k));
            SharedOf(r) == AfterFailure(cfg, SharedOf(s), c, owner, tunnels, clock, k) && c !in r.handlers
  {
    var steps := Registrations(c, owner, tunnels, clock, k);
    RegistrationsEnroll(cfg, s, c, owner, tunnels, clock, k);
    var m := Exec(cfg, s, steps);
    EnrolledKeepsConnections(cfg, Join(SharedOf(s), c), c, owner, tunnels, clock, k);
    ExecAppend(cfg, s, steps, [Register(c, clock(k))]);
    RefusalStartsCleanup(cfg, m, c, clock(k));
    var q := SetPhase(m, c, Checking(0));
    ExecAppend(cfg, s, steps + [Register(c, clock(k))], Cleanups(c, k) + [Check(c)]);
    CleanupIsARun(cfg, q, c);
  }

  // ---------------------------------------------------------------------------
  // From every reachable state

  /** Nothing in the gateway uses the ID of a connection that is not live. */
  lemma UnusedConnIsFresh(cfg: R.Config, s: State, c: string)
    requires Core(cfg, s) && Generated(c) && c !in s.handlers
    ensures FreshConn(SharedOf(s), c)
  {
    forall x: string
      ensures TunnelId(c, x) !in s.reg.tunnels
    {
      if TunnelId(c, x) in s.reg.tunnels {
        var t := s.reg.tunnels[TunnelId(c, x)];
        assert GatewayLock.Shape(t.connId, s.handlers[t.connId]);
        GeneratedDecodable(c, x, t.connId, t.subdomain);
      }
    }
    forall sub | sub in s.routes
      ensures s.routes[sub] != c
    {
      assert RouteAsked(s, sub);
    }
  }

  /**
   In every state of every run, with other handlers half way through and with
   deletes and expiry at any point: a new connection whose handshake fails, at
   any tunnel and for any reason, leaves registry, index, broker maps and gauge
   exactly as they were if and only if none of the subdomains it had enrolled
   had a left-over route.
   */
  lemma FailedHandshakeRestoresIff(cfg: R.Config, steps: seq<Step>, c: string, owner: string,
                                   tunnels: seq<TunnelConfig>, clock: nat -> Reading, k: nat)
    requires Generated(c) && c !in Exec(cfg, INIT, steps).handlers && k < |tunnels|
    requires var joined := Join(SharedOf(Exec(cfg, INIT, steps)), c);
             && AcceptedUpTo(cfg, joined, c, owner, tunnels, clock, k)
             && FailureAt(cfg, joined, c, owner, tunnels, clock, k).Some?
    ensures var s := Exec(cfg, INIT, steps);
            SharedOf(Exec(cfg, s, FailedHandshake(c, owner, tunnels, clock, k))) == SharedOf(s)
            <==> forall i | 0 <= i < k :: tunnels[i].subdomain !in s.routes
  {
    var s := Exec(cfg, INIT, steps);
    RunKeepsCore(cfg, INIT, steps);
    FailedHandshakeIsARun(cfg, s, c, owner, tunnels, clock, k);
    UnusedConnIsFresh(cfg, s, c);
    FailureRestoresIff(cfg, SharedOf(s), c, owner, tunnels, clock, k);
  }

  // ---------------------------------------------------------------------------
  // A left-over route

  /** A connection is served with one tunnel, and the admin deletes it: the route is left over. */
  function LeftOver(a: string, sub: string): seq<Step> {
    A.Takeover(a, sub) + [AdminDelete(TunnelId(a, sub))]
  }

  /** A request for the same subdomain twice. */
  function Twice(sub: string): seq<TunnelConfig> {
    A.OneTunnel(sub) + A.OneTunnel(sub)
  }

  lemma DeletedLeavesEmpty(cfg: R.Config, t: R.Tunnel)
    requires R.RegisterError(cfg, R.EMPTY, t.subdomain).None?
    ensures R.Unregistered(R.Registered(cfg, R.EMPTY, t), t.id) == R.EMPTY
  {
    var r := R.Unregistered(R.Registered(cfg, R.EMPTY, t), t.id);
    assert r.tunnels == map[] && r.index == map[];
  }

  lemma LeftOverRun(cfg: R.Config, a: string, sub: string)
    requires Generated(a) && R.RegisterError(cfg, R.EMPTY, sub).None?
    ensures var s := Exec(cfg, INIT, LeftOver(a, sub));
            s.reg == R.EMPTY && s.routes == map[sub := a] && s.handlers.Keys == {a}
  {
    A.TakeoverRun(cfg, INIT, a, sub);
    ExecAppend(cfg, INIT, A.Takeover(a, sub), [AdminDelete(TunnelId(a, sub))]);
    ExecOne(cfg, Exec(cfg, INIT, A.Takeover(a, sub)), AdminDelete(TunnelId(a, sub)));
    DeletedLeavesEmpty(cfg, TunnelFor(a, "", A.OneTunnel(sub)[0], A.CLOCK));
  }

  /** The second tunnel of such a request is refused. */
  lemma TwiceFails(cfg: R.Config, s: Shared, b: string, sub: string, clock: nat -> Reading)
    requires s.reg == R.EMPTY && R.RegisterError(cfg, R.EMPTY, sub).None?
    ensures AcceptedUpTo(cfg, s, b, "", Twice(sub), clock, 1)
    ensures FailureAt(cfg, s, b, "", Twice(sub), clock, 1).Some?
  {
    assert Twice(sub)[0].subdomain == sub == Twice(sub)[1].subdomain;
    assert Enrolled(cfg, s, b, "", Twice(sub), clock, 0) == s;
    assert Enrolled(cfg, s, b, "", Twice(sub), clock, 1) == Enroll(cfg, s, TunnelFor(b, "", Twice(sub)[0], clock(0)));
  }

  /**
   A failed handshake can leave its mark: for any two connections and any
   acceptable subdomain, a route that is left over after a delete is gone after
   the other connection has asked for the subdomain twice and was refused.
   */
  lemma FailedHandshakeMayUnroute(cfg: R.Config, a: string, b: string, sub: string, clock: nat -> Reading)
    requires Generated(a) && Generated(b) && a != b && R.RegisterError(cfg, R.EMPTY, sub).None?
    ensures var s := Exec(cfg, INIT, LeftOver(a, sub));
            var r := Exec(cfg, s, FailedHandshake(b, "", Twice(sub), clock, 1));
            && sub in s.routes && s.routes[sub] == a && a in s.handlers && b !in s.handlers
            && SharedOf(r) != SharedOf(s) && sub !in r.routes && b !in r.handlers
  {
    var s := Exec(cfg, INIT, LeftOver(a, sub));
    LeftOverRun(cfg, a, sub);
    TwiceFails(cfg, Join(SharedOf(s), b), b, sub, clock);
    RunKeepsCore(cfg, INIT, LeftOver(a, sub));
    UnusedConnIsFresh(cfg, s, b);
    FailedHandshakeIsARun(cfg, s, b, "", Twice(sub), clock, 1);
    FailureTakesBack(cfg, SharedOf(s), b, "", Twice(sub), clock, 1);
    var es := EntriesOf(b, Twice(sub)[..1]);
    assert es[0].subdomain == sub && es[0].subdomain in Subdomains(es);
  }

  // ---------------------------------------------------------------------------
  // Handlers alone

  lemma InvGivesIndexedRoutes(cfg: R.Config, s: State)
    requires GatewayLock.Inv(cfg, s)
    ensures s.routes.Keys <= s.reg.index.Keys
  {
    forall sub | sub in s.routes
      ensures sub in s.reg.index
    {
      GatewayLock.RouteMeansHeld(cfg, s, sub);
    }
  }

  /**
   In every state that handlers alone can lead to, call by call and with other
   handshakes and cleanups half done: a new connection whose handshake fails at
   any tunnel and for any reason leaves registry, index, broker maps and gauge
   exactly as they were.
   */
  lemma FailedHandshakeLeavesNoTrace(cfg: R.Config, steps: seq<Step>, c: string, owner: string,
                                     tunnels: seq<TunnelConfig>, clock: nat -> Reading, k: nat)
    requires GatewayLock.HandlersOnly(steps) && Generated(c) && c !in Exec(cfg, INIT, steps).handlers && k < |tunnels|
    requires var joined := Join(SharedOf(Exec(cfg, INIT, steps)), c);
             && AcceptedUpTo(cfg, joined, c, owner, tunnels, clock, k)
             && FailureAt(cfg, joined, c, owner, tunnels, clock, k).Some?
    ensures var s := Exec(cfg, INIT, steps);
            SharedOf(Exec(cfg, s, FailedHandshake(c, owner, tunnels, clock, k))) == SharedOf(s)
  {
    var s := Exec(cfg, INIT, steps);
    GatewayLock.RunKeeps(cfg, INIT, steps);
    FailedHandshakeIsARun(cfg, s, c, owner, tunnels, clock, k);
    RunKeepsCore(cfg, INIT, steps);
    UnusedConnIsFresh(cfg, s, c);
    InvGivesIndexedRoutes(cfg, s);
    FailureRestoresConsistentState(cfg, SharedOf(s), c, owner, tunnels, clock, k);
  }
}
