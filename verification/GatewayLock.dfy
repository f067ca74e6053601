/**
 The registry entry is a lock on the subdomain. With handlers interleaved call
 by call and nobody else removing tunnels, a route always leads to the live
 connection that holds the subdomain in the registry.
 */
module GatewayLock {
  import opened TunnelIds
  import opened Gateway
  import R = Registry

  // ---------------------------------------------------------------------------
  // Who holds a subdomain, and whom it is routed to

  /** The subdomains that the registry holds for connection `c`. */
  function HeldBy(reg: R.State, c: string): set<string> {
    set sub | sub in reg.index && reg.index[sub] in reg.tunnels && reg.tunnels[reg.index[sub]].connId == c
  }

  function RoutedTo(routes: map<string, string>, c: string): set<string> {
    set sub | sub in routes && routes[sub] == c
  }

  /** The registry is in order, and every tunnel's ID is made from its connection and subdomain. */
  predicate RegistryOk(cfg: R.Config, reg: R.State, live: set<string>) {
    && R.Indexed(cfg, reg) && R.Exact(reg)
    && (forall id | id in reg.tunnels ::
          id == TunnelId(reg.tunnels[id].connId, reg.tunnels[id].subdomain) && reg.tunnels[id].connId in live)
  }

  /** The taken check and distinct generated connection IDs make a new tunnel's ID fresh. */
  lemma NewIdFresh(cfg: R.Config, reg: R.State, live: set<string>, c: string, sub: string)
    requires RegistryOk(cfg, reg, live) && c in live && (forall d | d in live :: Generated(d)) && sub !in reg.index
    ensures TunnelId(c, sub) !in reg.tunnels
  {
    var id := TunnelId(c, sub);
    if id in reg.tunnels {
      GeneratedDecodable(c, sub, reg.tunnels[id].connId, reg.tunnels[id].subdomain);
    }
  }

  lemma RegisterKeepsRegistry(cfg: R.Config, reg: R.State, live: set<string>, t: R.Tunnel)
    requires RegistryOk(cfg, reg, live) && t.connId in live && t.id == TunnelId(t.connId, t.subdomain)
    requires t.id !in reg.tunnels && R.RegisterError(cfg, reg, t.subdomain).None?
    ensures RegistryOk(cfg, R.Registered(cfg, reg, t), live)
  {
    R.OpKeepsIndexed(cfg, reg, R.OpRegister(t));
    R.OpKeepsExactIffFresh(cfg, reg, R.OpRegister(t));
  }

  lemma RegisterHolds(cfg: R.Config, reg: R.State, t: R.Tunnel)
    requires R.Indexed(cfg, reg) && R.Exact(reg) && t.id !in reg.tunnels && R.RegisterError(cfg, reg, t.subdomain).None?
    ensures t.subdomain !in HeldBy(reg, t.connId)
    ensures forall d :: HeldBy(R.Registered(cfg, reg, t), d)
                        == HeldBy(reg, d) + (if d == t.connId then {t.subdomain} else {})
  {
    assert forall sub | sub in reg.index :: !R.Stale(reg, sub);
  }

  lemma UnregisterKeepsRegistry(cfg: R.Config, reg: R.State, live: set<string>, id: string)
    requires RegistryOk(cfg, reg, live)
    ensures RegistryOk(cfg, R.Unregistered(reg, id), live)
  {
    R.OpKeepsIndexed(cfg, reg, R.OpUnregister(id));
    R.OpKeepsExactIffFresh(cfg, reg, R.OpUnregister(id));
  }

  lemma UnregisterReleases(cfg: R.Config, reg: R.State, id: string)
    requires R.Indexed(cfg, reg) && R.Exact(reg) && id in reg.tunnels
    ensures reg.tunnels[id].subdomain in HeldBy(reg, reg.tunnels[id].connId)
    ensures forall d :: HeldBy(R.Unregistered(reg, id), d) == HeldBy(reg, d) - {reg.tunnels[id].subdomain}
  {
    assert forall sub | sub in reg.index :: !R.Stale(reg, sub);
  }

  lemma CleanedKeepsRegistry(cfg: R.Config, reg: R.State, live: set<string>, now: int)
    requires RegistryOk(cfg, reg, live)
    ensures RegistryOk(cfg, R.Cleaned(reg, now), live)
  {
    R.OpKeepsIndexed(cfg, reg, R.OpCleanExpired(now));
    R.OpKeepsExactIffFresh(cfg, reg, R.OpCleanExpired(now));
  }

  lemma HeartbeatKeepsRegistry(cfg: R.Config, reg: R.State, live: set<string>, id: string, now: int)
    requires RegistryOk(cfg, reg, live)
    ensures RegistryOk(cfg, R.WithHeartbeat(reg, id, now), live)
    ensures forall d :: HeldBy(R.WithHeartbeat(reg, id, now), d) == HeldBy(reg, d)
  {
    R.OpKeepsIndexed(cfg, reg, R.OpHeartbeat(id, now));
    R.OpKeepsExactIffFresh(cfg, reg, R.OpHeartbeat(id, now));
  }

  // ---------------------------------------------------------------------------
  // What a handler believes it holds

  /** The first of the handler's tunnels that is in the registry. */
  function Lo(h: Handler): nat {
    match h.phase
    case Checking(j) => j
    case Unmapping(j, _) => j
    case Unregistering(j) => j
    case _ => 0
  }

  /** One past the last of the handler's tunnels that is in the registry. */
  function Hi(h: Handler): nat {
    if h.phase.Mapping? then |h.ids| + 1 else |h.ids|
  }

  /** The first of the handler's tunnels that is routed; the last is that of the last ID. */
  function RouteLo(h: Handler): nat {
    if h.phase.Unregistering? then h.phase.next + 1 else Lo(h)
  }

  predicate PhaseOk(h: Handler)
    requires |h.ids| <= |h.tunnels|
  {
    match h.phase
    case Registering(k) => k == |h.ids|
    case Mapping(k) => k == |h.ids| < |h.tunnels|
    case Serving => |h.ids| == |h.tunnels|
    case Checking(j) => j <= |h.ids|
    case Unmapping(j, sub) => j < |h.ids| && sub == h.tunnels[j].subdomain
    case Unregistering(j) => j < |h.ids|
  }

  /** The handler is somewhere in its code, and remembers the IDs of its own tunnels, in order. */
  predicate Shape(c: string, h: Handler) {
    && Generated(c) && |h.ids| <= |h.tunnels| && PhaseOk(h)
    && (forall i | 0 <= i < |h.ids| :: h.ids[i] == TunnelId(c, h.tunnels[i].subdomain))
  }

  predicate HandlerOk(c: string, h: Handler) {
    && Shape(c, h)
    && (forall i, j | Lo(h) <= i < j < Hi(h) :: h.tunnels[i].subdomain != h.tunnels[j].subdomain)
  }

  function Held(h: Handler): set<string>
    requires Hi(h) <= |h.tunnels|
  {
    set i | Lo(h) <= i < Hi(h) :: h.tunnels[i].subdomain
  }

  function Routed(h: Handler): set<string>
    requires |h.ids| <= |h.tunnels|
  {
    set i | RouteLo(h) <= i < |h.ids| :: h.tunnels[i].subdomain
  }

  lemma RoutedIsHeld(c: string, h: Handler)
    requires HandlerOk(c, h)
    ensures Routed(h) <= Held(h)
  {
  }

  lemma AfterRegister(c: string, h: Handler, g: Handler)
    requires HandlerOk(c, h) && h.phase.Registering? && h.phase.next < |h.tunnels|
    requires h.tunnels[h.phase.next].subdomain !in Held(h) && g == h.(phase := Mapping(h.phase.next))
    ensures HandlerOk(c, g)
    ensures Held(g) == Held(h) + {h.tunnels[h.phase.next].subdomain} && Routed(g) == Routed(h)
  {
    assert forall i | 0 <= i < |h.ids| :: h.tunnels[i].subdomain in Held(h);
  }

  lemma AfterMap(c: string, h: Handler, g: Handler)
    requires HandlerOk(c, h) && h.phase.Mapping?
    requires var sub := h.tunnels[h.phase.next].subdomain;
             g == h.(ids := h.ids + [TunnelId(c, sub)], phase := Registering(h.phase.next + 1))
    ensures HandlerOk(c, g)
    ensures var sub := h.tunnels[h.phase.next].subdomain;
            Held(g) == Held(h) && sub in Held(h) && sub !in Routed(h) && Routed(g) == Routed(h) + {sub}
  {
  }

  lemma AfterUnmap(c: string, h: Handler, g: Handler)
    requires HandlerOk(c, h) && h.phase.Unmapping? && g == h.(phase := Unregistering(h.phase.next))
    ensures HandlerOk(c, g)
    ensures Held(g) == Held(h) && h.phase.subdomain in Routed(h) && Routed(g) == Routed(h) - {h.phase.subdomain}
  {
  }

  lemma AfterUnregister(c: string, h: Handler, g: Handler)
    requires HandlerOk(c, h) && h.phase.Unregistering? && g == h.(phase := Checking(h.phase.next + 1))
    ensures HandlerOk(c, g)
    ensures var sub := h.tunnels[h.phase.next].subdomain;
            sub in Held(h) && Held(g) == Held(h) - {sub} && Routed(g) == Routed(h)
  {
  }

  // ---------------------------------------------------------------------------
  // The invariant

  /** What a handler believes it holds and has routed is what the shared maps say. */
  predicate Agrees(reg: R.State, routes: map<string, string>, c: string, h: Handler) {
    HandlerOk(c, h) && HeldBy(reg, c) == Held(h) && RoutedTo(routes, c) == Routed(h)
  }

  predicate Inv(cfg: R.Config, s: State) {
    && s.connections == s.handlers.Keys
    && RegistryOk(cfg, s.reg, s.handlers.Keys)
    && (forall c | c in s.handlers :: Agrees(s.reg, s.routes, c, s.handlers[c]))
    && (forall sub | sub in s.routes :: s.routes[sub] in s.handlers)
  }

  /** A step of handler `c` keeps the invariant if it leaves alone what the others hold and have routed. */
  lemma InvFromOwnChange(cfg: R.Config, s: State, c: string, r: State)
    requires Inv(cfg, s) && c in s.handlers && c in r.handlers && r.handlers == s.handlers[c := r.handlers[c]]
    requires r.connections == s.connections && RegistryOk(cfg, r.reg, s.handlers.Keys)
    requires Agrees(r.reg, r.routes, c, r.handlers[c])
    requires forall d | d in s.handlers && d != c ::
               HeldBy(r.reg, d) == HeldBy(s.reg, d) && RoutedTo(r.routes, d) == RoutedTo(s.routes, d)
    requires forall sub | sub in r.routes :: r.routes[sub] in s.handlers
    ensures Inv(cfg, r)
  {
    assert r.handlers.Keys == s.handlers.Keys;
    forall d | d in r.handlers
      ensures Agrees(r.reg, r.routes, d, r.handlers[d])
    {
      if d != c {
        assert Agrees(s.reg, s.routes, d, s.handlers[d]);
      }
    }
  }

  lemma ConnectKeeps(cfg: R.Config, s: State, c: string, owner: string, tunnels: seq<TunnelConfig>)
    requires Inv(cfg, s) && Generated(c) && c !in s.handlers
    ensures Inv(cfg, DoConnect(s, c, owner, tunnels))
  {
    var r := DoConnect(s, c, owner, tunnels);
    assert Held(r.handlers[c]) == {} && Routed(r.handlers[c]) == {};
    assert HeldBy(s.reg, c) == {} && RoutedTo(s.routes, c) == {};
  }

  lemma MoveKeeps(cfg: R.Config, s: State, c: string, f: Phase)
    requires Inv(cfg, s) && c in s.handlers
    requires var h := s.handlers[c];
             var g := h.(phase := f);
             |h.ids| <= |h.tunnels| && PhaseOk(g) && Lo(g) == Lo(h) && Hi(g) == Hi(h) && RouteLo(g) == RouteLo(h)
    ensures Inv(cfg, SetPhase(s, c, f))
  {
    var h := s.handlers[c];
    assert Agrees(s.reg, s.routes, c, h);
    assert Held(h.(phase := f)) == Held(h) && Routed(h.(phase := f)) == Routed(h);
    assert Agrees(s.reg, s.routes, c, h.(phase := f));
  }

  lemma RegisterKeeps(cfg: R.Config, s: State, c: string, at: Reading)
    requires Inv(cfg, s) && c in s.handlers && s.handlers[c].phase.Registering?
    requires s.handlers[c].phase.next < |s.handlers[c].tunnels|
    requires R.RegisterError(cfg, s.reg, s.handlers[c].tunnels[s.handlers[c].phase.next].subdomain).None?
    ensures Inv(cfg, DoRegister(cfg, s, c, at))
  {
    var r := DoRegister(cfg, s, c, at);
    var h := s.handlers[c];
    var t := NewTunnel(c, h, h.phase.next, at);
    assert Agrees(s.reg, s.routes, c, h);
    assert forall d | d in s.handlers :: Agrees(s.reg, s.routes, d, s.handlers[d]) ==> Generated(d);
    NewIdFresh(cfg, s.reg, s.handlers.Keys, c, t.subdomain);
    RegisterKeepsRegistry(cfg, s.reg, s.handlers.Keys, t);
    RegisterHolds(cfg, s.reg, t);
    AfterRegister(c, h, r.handlers[c]);
    InvFromOwnChange(cfg, s, c, r);
  }

  /** The holder of a subdomain is the only connection it can be routed to. */
  lemma HeldMeansRoutedNowhereElse(cfg: R.Config, s: State, c: string, sub: string)
    requires Inv(cfg, s) && sub in HeldBy(s.reg, c)
    ensures sub in s.routes ==> s.routes[sub] == c
  {
    if sub in s.routes {
      var d := s.routes[sub];
      assert Agrees(s.reg, s.routes, d, s.handlers[d]) && sub in RoutedTo(s.routes, d);
      RoutedIsHeld(d, s.handlers[d]);
    }
  }

  lemma RoutesAfterMap(routes: map<string, string>, sub: string, c: string)
    requires sub in routes ==> routes[sub] == c
    ensures forall d :: RoutedTo(routes[sub := c], d) == RoutedTo(routes, d) + (if d == c then {sub} else {})
  {
  }

  lemma RoutesAfterUnmap(routes: map<string, string>, sub: string, c: string)
    requires sub in routes && routes[sub] == c
    ensures forall d :: RoutedTo(routes - {sub}, d) == RoutedTo(routes, d) - (if d == c then {sub} else {})
  {
  }

  lemma MapKeeps(cfg: R.Config, s: State, c: string)
    requires Inv(cfg, s) && Enabled(s, Map(c))
    ensures Inv(cfg, DoMap(s, c))
  {
    var r := DoMap(s, c);
    var h := s.handlers[c];
    var sub := h.tunnels[h.phase.next].subdomain;
    assert Agrees(s.reg, s.routes, c, h);
    AfterMap(c, h, r.handlers[c]);
    HeldMeansRoutedNowhereElse(cfg, s, c, sub);
    RoutesAfterMap(s.routes, sub, c);
    InvFromOwnChange(cfg, s, c, r);
  }

  lemma RemoveKeeps(cfg: R.Config, s: State, c: string)
    requires Inv(cfg, s) && c in s.handlers && s.handlers[c].phase == Checking(|s.handlers[c].ids|)
    ensures Inv(cfg, DoCheck(s, c)) && DoCheck(s, c).routes == s.routes
  {
    var r := DoCheck(s, c);
    assert Agrees(s.reg, s.routes, c, s.handlers[c]);
    assert Held(s.handlers[c]) == {} && Routed(s.handlers[c]) == {};
    assert forall sub | sub in s.routes :: s.routes[sub] == c ==> sub in RoutedTo(s.routes, c);
    assert r.routes == s.routes;
    forall id | id in s.reg.tunnels
      ensures s.reg.tunnels[id].connId != c
    {
      assert s.reg.tunnels[id].subdomain in HeldBy(s.reg, s.reg.tunnels[id].connId);
    }
  }

  /** A handler finds its own tunnels under the IDs it remembers. */
  lemma OwnTunnelIsThere(cfg: R.Config, s: State, c: string, j: nat)
    requires Inv(cfg, s) && c in s.handlers && Lo(s.handlers[c]) <= j < |s.handlers[c].ids|
    ensures |s.handlers[c].ids| <= |s.handlers[c].tunnels| && s.handlers[c].ids[j] in s.reg.tunnels
    ensures var t := s.reg.tunnels[s.handlers[c].ids[j]];
            t.subdomain == s.handlers[c].tunnels[j].subdomain && t.connId == c
  {
    var h := s.handlers[c];
    assert Agrees(s.reg, s.routes, c, h);
    var sub := h.tunnels[j].subdomain;
    assert sub in Held(h);
    var id := s.reg.index[sub];
    assert !R.Stale(s.reg, sub);
    assert id == TunnelId(c, sub);
  }

  lemma CheckKeeps(cfg: R.Config, s: State, c: string)
    requires Inv(cfg, s) && c in s.handlers && s.handlers[c].phase.Checking?
    ensures Inv(cfg, DoCheck(s, c))
  {
    var h := s.handlers[c];
    var j := h.phase.next;
    assert Agrees(s.reg, s.routes, c, h);
    if j < |h.ids| {
      OwnTunnelIsThere(cfg, s, c, j);
      MoveKeeps(cfg, s, c, Unmapping(j, h.tunnels[j].subdomain));
    } else {
      RemoveKeeps(cfg, s, c);
    }
  }

  lemma UnmapKeeps(cfg: R.Config, s: State, c: string)
    requires Inv(cfg, s) && Enabled(s, Unmap(c))
    ensures Inv(cfg, DoUnmap(s, c))
  {
    var r := DoUnmap(s, c);
    var h := s.handlers[c];
    assert Agrees(s.reg, s.routes, c, h);
    AfterUnmap(c, h, r.handlers[c]);
    RoutesAfterUnmap(s.routes, h.phase.subdomain, c);
    InvFromOwnChange(cfg, s, c, r);
  }

  lemma UnregisterKeeps(cfg: R.Config, s: State, c: string)
    requires Inv(cfg, s) && Enabled(s, Unregister(c))
    ensures Inv(cfg, DoUnregister(s, c))
  {
    var r := DoUnregister(s, c);
    var h := s.handlers[c];
    var j := h.phase.next;
    assert Agrees(s.reg, s.routes, c, h);
    OwnTunnelIsThere(cfg, s, c, j);
    UnregisterKeepsRegistry(cfg, s.reg, s.handlers.Keys, h.ids[j]);
    UnregisterReleases(cfg, s.reg, h.ids[j]);
    AfterUnregister(c, h, r.handlers[c]);
    assert forall d | d != c :: h.tunnels[j].subdomain !in HeldBy(s.reg, d);
    InvFromOwnChange(cfg, s, c, r);
  }

  lemma HeartbeatKeeps(cfg: R.Config, s: State, id: string, now: int)
    requires Inv(cfg, s)
    ensures Inv(cfg, s.(reg := R.WithHeartbeat(s.reg, id, now)))
  {
    HeartbeatKeepsRegistry(cfg, s.reg, s.handlers.Keys, id, now);
    forall d | d in s.handlers
      ensures Agrees(R.WithHeartbeat(s.reg, id, now), s.routes, d, s.handlers[d])
    {
      assert Agrees(s.reg, s.routes, d, s.handlers[d]);
      assert HeldBy(R.WithHeartbeat(s.reg, id, now), d) == HeldBy(s.reg, d);
    }
  }

  /** No label of the run removes tunnels from outside the handlers. */
  predicate HandlersOnly(steps: seq<Step>) {
    forall i | 0 <= i < |steps| :: !steps[i].AdminDelete? && !steps[i].Expire?
  }

  lemma RegisterStepKeeps(cfg: R.Config, s: State, c: string, at: Reading)
    requires Inv(cfg, s) && Enabled(s, Register(c, at))
    ensures Inv(cfg, DoRegister(cfg, s, c, at))
  {
    var h := s.handlers[c];
    assert Agrees(s.reg, s.routes, c, h);
    if h.phase.next >= |h.tunnels| {
      MoveKeeps(cfg, s, c, Serving);
    } else if R.RegisterError(cfg, s.reg, h.tunnels[h.phase.next].subdomain).Some? {
      MoveKeeps(cfg, s, c, Checking(0));
    } else {
      RegisterKeeps(cfg, s, c, at);
    }
  }

  lemma StepKeeps(cfg: R.Config, s: State, step: Step)
    requires Inv(cfg, s) && !step.AdminDelete? && !step.Expire?
    ensures Inv(cfg, Next(cfg, s, step))
  {
    if Enabled(s, step) {
      if !step.Connect? {
        assert Agrees(s.reg, s.routes, step.conn, s.handlers[step.conn]);
      }
      match step
      case Connect(c, owner, tunnels) => ConnectKeeps(cfg, s, c, owner, tunnels);
      case Register(c, at) => RegisterStepKeeps(cfg, s, c, at);
      case Map(c) => MapKeeps(cfg, s, c);
      case Disconnect(c) => MoveKeeps(cfg, s, c, Checking(0));
      case Check(c) => CheckKeeps(cfg, s, c);
      case Unmap(c) => UnmapKeeps(cfg, s, c);
      case Unregister(c) => UnregisterKeeps(cfg, s, c);
      case Heartbeat(c, i, now) => HeartbeatKeeps(cfg, s, s.handlers[c].ids[i], now);
    }
  }

  lemma {:induction false} RunKeeps(cfg: R.Config, s: State, steps: seq<Step>)
    requires Inv(cfg, s) && HandlersOnly(steps)
    ensures Inv(cfg, Exec(cfg, s, steps))
    decreases |steps|
  {
    if steps == [] {
    } else {
      StepKeeps(cfg, s, steps[0]);
      RunKeeps(cfg, Next(cfg, s, steps[0]), steps[1..]);
    }
  }

  // ---------------------------------------------------------------------------
  // What it means for every run

  lemma RouteMeansHeld(cfg: R.Config, s: State, sub: string)
    requires Inv(cfg, s) && sub in s.routes
    ensures s.routes[sub] in s.connections
    ensures match R.GetBySubdomain(s.reg, sub)
            case Ok(Some(t)) => t.subdomain == sub && t.connId == s.routes[sub]
            case _ => false
  {
    var c := s.routes[sub];
    assert Agrees(s.reg, s.routes, c, s.handlers[c]) && sub in RoutedTo(s.routes, c);
    RoutedIsHeld(c, s.handlers[c]);
    assert sub in HeldBy(s.reg, c) && !R.Stale(s.reg, sub);
  }

  /** A route leads to a live connection that holds the subdomain in the registry. */
  lemma RoutesLeadToHolders(cfg: R.Config, steps: seq<Step>, sub: string)
    requires HandlersOnly(steps) && sub in Exec(cfg, INIT, steps).routes
    ensures var s := Exec(cfg, INIT, steps);
            && s.routes[sub] in s.connections
            && (match R.GetBySubdomain(s.reg, sub)
                case Ok(Some(t)) => t.subdomain == sub && t.connId == s.routes[sub]
                case _ => false)
  {
    RunKeeps(cfg, INIT, steps);
    RouteMeansHeld(cfg, Exec(cfg, INIT, steps), sub);
  }

  /** A connection that is being served has every one of its tunnels registered and routed to it. */
  lemma ServedTunnelsAreRouted(cfg: R.Config, steps: seq<Step>, c: string, i: nat)
    requires HandlersOnly(steps) && c in Exec(cfg, INIT, steps).handlers
    requires Exec(cfg, INIT, steps).handlers[c].phase.Serving?
    requires i < |Exec(cfg, INIT, steps).handlers[c].tunnels|
    ensures var s := Exec(cfg, INIT, steps);
            var sub := s.handlers[c].tunnels[i].subdomain;
            sub in HeldBy(s.reg, c) && sub in s.routes && s.routes[sub] == c
  {
    RunKeeps(cfg, INIT, steps);
    var s := Exec(cfg, INIT, steps);
    var h := s.handlers[c];
    assert Agrees(s.reg, s.routes, c, h);
    assert h.tunnels[i].subdomain in Held(h) && h.tunnels[i].subdomain in Routed(h);
  }
}
