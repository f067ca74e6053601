/**
 Connection handlers interleaved call by call, while the admin API and expiry
 remove tunnels at any point: what holds of every such run. Handlers remember
 their tunnels, routes lead to live connections that asked for the subdomain,
 and the gauge counts tunnels.
 */
module GatewayCalls {
  import opened TunnelIds
  import opened Gateway
  import opened GatewayLock
  import R = Registry

  // ---------------------------------------------------------------------------
  // The invariant

  /** The handler will still clean the tunnel up, or is about to write its ID down. */
  predicate Remembers(c: string, h: Handler, id: string)
    requires |h.ids| <= |h.tunnels| && PhaseOk(h)
  {
    id in h.ids[Lo(h)..] || (h.phase.Mapping? && id == TunnelId(c, h.tunnels[h.phase.next].subdomain))
  }

  predicate Remembered(s: State, id: string)
    requires id in s.reg.tunnels
  {
    var c := s.reg.tunnels[id].connId;
    && c in s.handlers && |s.handlers[c].ids| <= |s.handlers[c].tunnels| && PhaseOk(s.handlers[c])
    && Remembers(c, s.handlers[c], id)
  }

  /** The subdomains a handler has mapped, whether or not they still lead to it. */
  function Asked(h: Handler): set<string>
    requires |h.ids| <= |h.tunnels|
  {
    set i | 0 <= i < |h.ids| :: h.tunnels[i].subdomain
  }

  predicate RouteAsked(s: State, sub: string)
    requires sub in s.routes
  {
    var c := s.routes[sub];
    c in s.handlers && |s.handlers[c].ids| <= |s.handlers[c].tunnels| && sub in Asked(s.handlers[c])
  }

  predicate Core(cfg: R.Config, s: State) {
    && s.connections == s.handlers.Keys
    && RegistryOk(cfg, s.reg, s.handlers.Keys)
    && (forall c | c in s.handlers :: Shape(c, s.handlers[c]))
    && (forall id | id in s.reg.tunnels :: Remembered(s, id))
    && (forall sub | sub in s.routes :: RouteAsked(s, sub))
  }

  // ---------------------------------------------------------------------------
  // Every call keeps it

  /** A step of handler `c` keeps the invariant if the handler remembers its tunnels and asked for its routes. */
  lemma CoreFromOwnChange(cfg: R.Config, s: State, c: string, r: State)
    requires Core(cfg, s) && c in s.handlers && c in r.handlers && r.handlers == s.handlers[c := r.handlers[c]]
    requires r.connections == s.connections && Shape(c, r.handlers[c]) && RegistryOk(cfg, r.reg, s.handlers.Keys)
    requires forall id | id in r.reg.tunnels && r.reg.tunnels[id].connId == c :: Remembers(c, r.handlers[c], id)
    requires forall id | id in r.reg.tunnels && r.reg.tunnels[id].connId != c ::
               id in s.reg.tunnels && s.reg.tunnels[id].connId == r.reg.tunnels[id].connId
    requires forall sub | sub in r.routes :: RouteAsked(r, sub)
    ensures Core(cfg, r)
  {
    assert r.handlers.Keys == s.handlers.Keys;
    forall id | id in r.reg.tunnels
      ensures Remembered(r, id)
    {
      if r.reg.tunnels[id].connId != c {
        assert Remembered(s, id);
      }
    }
  }

  lemma OwnRemembered(cfg: R.Config, s: State, c: string, id: string)
    requires Core(cfg, s) && id in s.reg.tunnels && s.reg.tunnels[id].connId == c
    ensures c in s.handlers && Shape(c, s.handlers[c]) && Remembers(c, s.handlers[c], id)
    ensures id == TunnelId(c, s.reg.tunnels[id].subdomain)
  {
    assert Remembered(s, id);
  }

  /** Routes stay asked for while no handler goes away or forgets an ID. */
  lemma RoutesStayAsked(cfg: R.Config, s: State, r: State)
    requires Core(cfg, s) && r.handlers.Keys == s.handlers.Keys
    requires forall c | c in s.handlers ::
               s.handlers[c].ids <= r.handlers[c].ids && r.handlers[c].tunnels == s.handlers[c].tunnels
    requires forall c | c in s.handlers :: |r.handlers[c].ids| <= |r.handlers[c].tunnels|
    requires forall sub | sub in r.routes :: sub in s.routes && r.routes[sub] == s.routes[sub]
    ensures forall sub | sub in r.routes :: RouteAsked(r, sub)
  {
    forall sub | sub in r.routes
      ensures RouteAsked(r, sub)
    {
      assert RouteAsked(s, sub);
      var h, g := s.handlers[s.routes[sub]], r.handlers[s.routes[sub]];
      var i :| 0 <= i < |h.ids| && h.tunnels[i].subdomain == sub;
      assert i < |g.ids| && g.tunnels[i].subdomain == sub;
    }
  }

  /** The handler moves on without changing anything else. */
  lemma MoveKeepsCore(cfg: R.Config, s: State, c: string, f: Phase)
    requires Core(cfg, s) && c in s.handlers && !s.handlers[c].phase.Mapping?
    requires var g := s.handlers[c].(phase := f);
             |g.ids| <= |g.tunnels| && PhaseOk(g) && Lo(g) == Lo(s.handlers[c])
    ensures Core(cfg, SetPhase(s, c, f))
  {
    var r := SetPhase(s, c, f);
    assert Shape(c, s.handlers[c]);
    forall id | id in r.reg.tunnels && r.reg.tunnels[id].connId == c
      ensures Remembers(c, r.handlers[c], id)
    {
      OwnRemembered(cfg, s, c, id);
    }
    RoutesStayAsked(cfg, s, r);
    CoreFromOwnChange(cfg, s, c, r);
  }

  lemma MoreLive(cfg: R.Config, reg: R.State, live: set<string>, more: set<string>)
    requires RegistryOk(cfg, reg, live) && live <= more
    ensures RegistryOk(cfg, reg, more)
  {
  }

  lemma ConnectKeepsCore(cfg: R.Config, s: State, c: string, owner: string, tunnels: seq<TunnelConfig>)
    requires Core(cfg, s) && Generated(c) && c !in s.handlers
    ensures Core(cfg, DoConnect(s, c, owner, tunnels))
  {
    var r := DoConnect(s, c, owner, tunnels);
    assert r.handlers.Keys == s.handlers.Keys + {c};
    MoreLive(cfg, s.reg, s.handlers.Keys, r.handlers.Keys);
    forall id | id in r.reg.tunnels
      ensures Remembered(r, id)
    {
      assert Remembered(s, id);
    }
    forall sub | sub in r.routes
      ensures RouteAsked(r, sub)
    {
      assert RouteAsked(s, sub);
    }
  }

  /** The registration of a new tunnel is accepted. */
  predicate Accepted(cfg: R.Config, s: State, c: string) {
    && c in s.handlers && s.handlers[c].phase.Registering? && s.handlers[c].phase.next < |s.handlers[c].tunnels|
    && R.RegisterError(cfg, s.reg, s.handlers[c].tunnels[s.handlers[c].phase.next].subdomain).None?
  }

  lemma AcceptedIsFresh(cfg: R.Config, s: State, c: string, at: Reading)
    requires Core(cfg, s) && Accepted(cfg, s, c)
    ensures var t := NewTunnel(c, s.handlers[c], s.handlers[c].phase.next, at);
            t.id !in s.reg.tunnels && RegistryOk(cfg, R.Registered(cfg, s.reg, t), s.handlers.Keys)
  {
    var t := NewTunnel(c, s.handlers[c], s.handlers[c].phase.next, at);
    assert forall d | d in s.handlers :: Shape(d, s.handlers[d]) ==> Generated(d);
    NewIdFresh(cfg, s.reg, s.handlers.Keys, c, t.subdomain);
    RegisterKeepsRegistry(cfg, s.reg, s.handlers.Keys, t);
  }

  lemma RegisterKeepsCore(cfg: R.Config, s: State, c: string, at: Reading)
    requires Core(cfg, s) && Accepted(cfg, s, c)
    ensures Core(cfg, DoRegister(cfg, s, c, at))
  {
    var r := DoRegister(cfg, s, c, at);
    assert Shape(c, s.handlers[c]);
    AcceptedIsFresh(cfg, s, c, at);
    forall id | id in r.reg.tunnels && r.reg.tunnels[id].connId == c
      ensures Remembers(c, r.handlers[c], id)
    {
      if id in s.reg.tunnels {
        OwnRemembered(cfg, s, c, id);
      }
    }
    RoutesStayAsked(cfg, s, r);
    CoreFromOwnChange(cfg, s, c, r);
  }

  lemma RegisterStepKeepsCore(cfg: R.Config, s: State, c: string, at: Reading)
    requires Core(cfg, s) && Enabled(s, Register(c, at))
    ensures Core(cfg, DoRegister(cfg, s, c, at))
  {
    var h := s.handlers[c];
    assert Shape(c, h);
    if h.phase.next >= |h.tunnels| {
      MoveKeepsCore(cfg, s, c, Serving);
    } else if R.RegisterError(cfg, s.reg, h.tunnels[h.phase.next].subdomain).Some? {
      MoveKeepsCore(cfg, s, c, Checking(0));
    } else {
      RegisterKeepsCore(cfg, s, c, at);
    }
  }

  lemma MapKeepsRoutes(cfg: R.Config, s: State, c: string)
    requires Core(cfg, s) && Enabled(s, Map(c))
    ensures forall sub | sub in DoMap(s, c).routes :: RouteAsked(DoMap(s, c), sub)
  {
    var r := DoMap(s, c);
    assert Shape(c, s.handlers[c]);
    var m := r.(routes := s.routes);
    RoutesStayAsked(cfg, s, m);
    var mapped := s.handlers[c].tunnels[s.handlers[c].phase.next].subdomain;
    forall sub | sub in r.routes
      ensures RouteAsked(r, sub)
    {
      if sub == mapped {
        assert r.handlers[c].tunnels[|s.handlers[c].ids|].subdomain == sub;
      } else {
        assert RouteAsked(m, sub);
      }
    }
  }

  lemma MapKeepsCore(cfg: R.Config, s: State, c: string)
    requires Core(cfg, s) && Enabled(s, Map(c))
    ensures Core(cfg, DoMap(s, c))
  {
    var r := DoMap(s, c);
    assert Shape(c, s.handlers[c]);
    forall id | id in r.reg.tunnels && r.reg.tunnels[id].connId == c
      ensures Remembers(c, r.handlers[c], id)
    {
      OwnRemembered(cfg, s, c, id);
      var mapped := s.handlers[c].tunnels[s.handlers[c].phase.next].subdomain;
      assert r.handlers[c].ids == s.handlers[c].ids + [TunnelId(c, mapped)];
    }
    MapKeepsRoutes(cfg, s, c);
    CoreFromOwnChange(cfg, s, c, r);
  }

  /** The tunnel a handler finds under an ID it remembers is the one it registered. */
  lemma FoundIsOwn(cfg: R.Config, s: State, c: string, j: nat)
    requires Core(cfg, s) && c in s.handlers && j < |s.handlers[c].ids| && s.handlers[c].ids[j] in s.reg.tunnels
    ensures j < |s.handlers[c].tunnels|
    ensures var t := s.reg.tunnels[s.handlers[c].ids[j]];
            t.connId == c && t.subdomain == s.handlers[c].tunnels[j].subdomain
  {
    var h := s.handlers[c];
    var t := s.reg.tunnels[h.ids[j]];
    assert Shape(c, h) && Shape(t.connId, s.handlers[t.connId]);
    GeneratedDecodable(c, h.tunnels[j].subdomain, t.connId, t.subdomain);
  }

  lemma LeaveKeepsCore(cfg: R.Config, s: State, c: string)
    requires Core(cfg, s) && c in s.handlers && s.handlers[c].phase == Checking(|s.handlers[c].ids|)
    ensures Core(cfg, DoCheck(s, c))
    ensures forall id | id in s.reg.tunnels :: s.reg.tunnels[id].connId != c
  {
    var r := DoCheck(s, c);
    forall id | id in s.reg.tunnels
      ensures s.reg.tunnels[id].connId != c && s.reg.tunnels[id].connId in s.handlers
    {
      assert Remembered(s, id);
    }
    forall id | id in r.reg.tunnels
      ensures Remembered(r, id)
    {
      assert Remembered(s, id);
    }
    forall sub | sub in r.routes
      ensures RouteAsked(r, sub)
    {
      assert RouteAsked(s, sub);
    }
  }

  lemma CheckKeepsCore(cfg: R.Config, s: State, c: string)
    requires Core(cfg, s) && Enabled(s, Check(c))
    ensures Core(cfg, DoCheck(s, c))
  {
    var h := s.handlers[c];
    var j := h.phase.next;
    assert Shape(c, h);
    if j >= |h.ids| {
      LeaveKeepsCore(cfg, s, c);
    } else if h.ids[j] in s.reg.tunnels {
      FoundIsOwn(cfg, s, c, j);
      MoveKeepsCore(cfg, s, c, Unmapping(j, h.tunnels[j].subdomain));
    } else {
      MoveKeepsCore(cfg, s, c, Unregistering(j));
    }
  }

  lemma UnmapKeepsCore(cfg: R.Config, s: State, c: string)
    requires Core(cfg, s) && Enabled(s, Unmap(c))
    ensures Core(cfg, DoUnmap(s, c))
  {
    var r := DoUnmap(s, c);
    assert Shape(c, s.handlers[c]);
    forall id | id in r.reg.tunnels && r.reg.tunnels[id].connId == c
      ensures Remembers(c, r.handlers[c], id)
    {
      OwnRemembered(cfg, s, c, id);
    }
    RoutesStayAsked(cfg, s, r);
    CoreFromOwnChange(cfg, s, c, r);
  }

  lemma UnregisterKeepsCore(cfg: R.Config, s: State, c: string)
    requires Core(cfg, s) && Enabled(s, Unregister(c))
    ensures Core(cfg, DoUnregister(s, c))
  {
    var r := DoUnregister(s, c);
    var h := s.handlers[c];
    var j := h.phase.next;
    assert Shape(c, h);
    UnregisterKeepsRegistry(cfg, s.reg, s.handlers.Keys, h.ids[j]);
    assert h.ids[j..] == [h.ids[j]] + h.ids[j + 1..];
    forall id | id in r.reg.tunnels && r.reg.tunnels[id].connId == c
      ensures Remembers(c, r.handlers[c], id)
    {
      OwnRemembered(cfg, s, c, id);
    }
    RoutesStayAsked(cfg, s, r);
    CoreFromOwnChange(cfg, s, c, r);
  }

  /** Steps that change nothing but the registry, where they take tunnels out or renew heartbeats. */
  lemma CoreFromRegistry(cfg: R.Config, s: State, r: State)
    requires Core(cfg, s) && r == s.(reg := r.reg, outside := r.outside) && RegistryOk(cfg, r.reg, s.handlers.Keys)
    requires forall id | id in r.reg.tunnels ::
               id in s.reg.tunnels && r.reg.tunnels[id].connId == s.reg.tunnels[id].connId
    ensures Core(cfg, r)
  {
    forall id | id in r.reg.tunnels
      ensures Remembered(r, id)
    {
      assert Remembered(s, id);
    }
    forall sub | sub in r.routes
      ensures RouteAsked(r, sub)
    {
      assert RouteAsked(s, sub);
    }
  }

  lemma OutsideKeepsCore(cfg: R.Config, s: State, step: Step)
    requires Core(cfg, s) && Enabled(s, step) && (step.Heartbeat? || step.AdminDelete? || step.Expire?)
    ensures Core(cfg, Next(cfg, s, step))
  {
    match step
    case Heartbeat(c, i, now) =>
      HeartbeatKeepsRegistry(cfg, s.reg, s.handlers.Keys, s.handlers[c].ids[i], now);
      CoreFromRegistry(cfg, s, Next(cfg, s, step));
    case AdminDelete(id) =>
      UnregisterKeepsRegistry(cfg, s.reg, s.handlers.Keys, id);
      CoreFromRegistry(cfg, s, Next(cfg, s, step));
    case Expire(now) =>
      CleanedKeepsRegistry(cfg, s.reg, s.handlers.Keys, now);
      CoreFromRegistry(cfg, s, Next(cfg, s, step));
  }

  lemma StepKeepsCore(cfg: R.Config, s: State, step: Step)
    requires Core(cfg, s)
    ensures Core(cfg, Next(cfg, s, step))
  {
    if Enabled(s, step) {
      match step
      case Connect(c, owner, tunnels) => ConnectKeepsCore(cfg, s, c, owner, tunnels);
      case Register(c, at) => RegisterStepKeepsCore(cfg, s, c, at);
      case Map(c) => MapKeepsCore(cfg, s, c);
      case Disconnect(c) =>
        assert Shape(c, s.handlers[c]);
        MoveKeepsCore(cfg, s, c, Checking(0));
      case Check(c) => CheckKeepsCore(cfg, s, c);
      case Unmap(c) => UnmapKeepsCore(cfg, s, c);
      case Unregister(c) => UnregisterKeepsCore(cfg, s, c);
      case _ => OutsideKeepsCore(cfg, s, step);
    }
  }

  lemma {:induction false} RunKeepsCore(cfg: R.Config, s: State, steps: seq<Step>)
    requires Core(cfg, s)
    ensures Core(cfg, Exec(cfg, s, steps))
    decreases |steps|
  {
    if steps == [] {
    } else {
      StepKeepsCore(cfg, s, steps[0]);
      RunKeepsCore(cfg, Next(cfg, s, steps[0]), steps[1..]);
    }
  }

  /**
   In every run, call by call and with deletes and expiry at any point, a route
   leads to a live connection that asked for the subdomain.
   */
  lemma RoutesLeadToAskers(cfg: R.Config, steps: seq<Step>, sub: string)
    requires sub in Exec(cfg, INIT, steps).routes
    ensures var s := Exec(cfg, INIT, steps);
            && s.routes[sub] in s.connections && s.routes[sub] in s.handlers
            && var h := s.handlers[s.routes[sub]];
               exists i :: 0 <= i < |h.tunnels| && h.tunnels[i].subdomain == sub
  {
    RunKeepsCore(cfg, INIT, steps);
    assert RouteAsked(Exec(cfg, INIT, steps), sub);
  }

  // ---------------------------------------------------------------------------
  // The gauge

  /** The handlers between `Register` and the gauge. */
  function Mappers(handlers: map<string, Handler>): set<string> {
    set c | c in handlers && handlers[c].phase.Mapping?
  }

  predicate GaugeOk(s: State) {
    s.gauge + |Mappers(s.handlers)| == |s.reg.tunnels| + s.outside
  }

  lemma MappersSame(a: map<string, Handler>, b: map<string, Handler>)
    requires forall c :: c in a && a[c].phase.Mapping? <==> c in b && b[c].phase.Mapping?
    ensures Mappers(b) == Mappers(a)
  {
  }

  lemma MappersChange(handlers: map<string, Handler>, c: string, g: Handler)
    requires c in handlers
    ensures |Mappers(handlers[c := g])| + (if handlers[c].phase.Mapping? then 1 else 0)
            == |Mappers(handlers)| + (if g.phase.Mapping? then 1 else 0)
  {
    var others := Mappers(handlers) - {c};
    assert Mappers(handlers) == others + (if handlers[c].phase.Mapping? then {c} else {});
    assert Mappers(handlers[c := g]) == others + (if g.phase.Mapping? then {c} else {});
  }

  lemma RegisteredGrows(cfg: R.Config, reg: R.State, t: R.Tunnel)
    requires t.id !in reg.tunnels && R.RegisterError(cfg, reg, t.subdomain).None?
    ensures |R.Registered(cfg, reg, t).tunnels| == |reg.tunnels| + 1
  {
    var after := R.Registered(cfg, reg, t).tunnels;
    R.RemoveShrinks(after, {t.id});
    assert after - {t.id} == reg.tunnels;
  }

  lemma RegisterKeepsGauge(cfg: R.Config, s: State, c: string, at: Reading)
    requires Core(cfg, s) && GaugeOk(s) && Enabled(s, Register(c, at))
    ensures GaugeOk(DoRegister(cfg, s, c, at))
  {
    var r := DoRegister(cfg, s, c, at);
    MappersChange(s.handlers, c, r.handlers[c]);
    if Accepted(cfg, s, c) {
      AcceptedIsFresh(cfg, s, c, at);
      RegisteredGrows(cfg, s.reg, NewTunnel(c, s.handlers[c], s.handlers[c].phase.next, at));
    }
  }

  lemma MapKeepsGauge(s: State, c: string)
    requires GaugeOk(s) && Enabled(s, Map(c))
    ensures GaugeOk(DoMap(s, c))
  {
    MappersChange(s.handlers, c, DoMap(s, c).handlers[c]);
  }

  lemma UnregisterKeepsGauge(s: State, c: string)
    requires GaugeOk(s) && Enabled(s, Unregister(c))
    ensures GaugeOk(DoUnregister(s, c))
  {
    var id := s.handlers[c].ids[s.handlers[c].phase.next];
    MappersChange(s.handlers, c, DoUnregister(s, c).handlers[c]);
    if id in s.reg.tunnels {
      R.RemoveShrinks(s.reg.tunnels, {id});
    }
  }

  lemma OutsideKeepsGauge(cfg: R.Config, s: State, step: Step)
    requires GaugeOk(s) && Enabled(s, step) && (step.Heartbeat? || step.AdminDelete? || step.Expire?)
    ensures GaugeOk(Next(cfg, s, step))
  {
    match step
    case Heartbeat(c, i, now) =>
      assert Next(cfg, s, step).reg.tunnels.Keys == s.reg.tunnels.Keys;
    case AdminDelete(id) =>
      if id in s.reg.tunnels {
        R.RemoveShrinks(s.reg.tunnels, {id});
      }
    case Expire(now) => R.CleanedCounts(s.reg, now);
  }

  /** The other calls move a handler, or add or remove one, that is not between `Register` and the gauge. */
  lemma QuietKeepsGauge(cfg: R.Config, s: State, step: Step)
    requires GaugeOk(s) && Enabled(s, step) && (step.Connect? || step.Disconnect? || step.Check? || step.Unmap?)
    ensures GaugeOk(Next(cfg, s, step))
  {
    MappersSame(s.handlers, Next(cfg, s, step).handlers);
  }

  lemma StepKeepsGauge(cfg: R.Config, s: State, step: Step)
    requires Core(cfg, s) && GaugeOk(s)
    ensures GaugeOk(Next(cfg, s, step))
  {
    if Enabled(s, step) {
      match step
      case Register(c, at) => RegisterKeepsGauge(cfg, s, c, at);
      case Map(c) => MapKeepsGauge(s, c);
      case Unregister(c) => UnregisterKeepsGauge(s, c);
      case Heartbeat(_, _, _) => OutsideKeepsGauge(cfg, s, step);
      case AdminDelete(_) => OutsideKeepsGauge(cfg, s, step);
      case Expire(_) => OutsideKeepsGauge(cfg, s, step);
      case _ => QuietKeepsGauge(cfg, s, step);
    }
  }

  lemma {:induction false} RunKeepsGauge(cfg: R.Config, s: State, steps: seq<Step>)
    requires Core(cfg, s) && GaugeOk(s)
    ensures GaugeOk(Exec(cfg, s, steps))
    decreases |steps|
  {
    if steps == [] {
    } else {
      StepKeepsGauge(cfg, s, steps[0]);
      StepKeepsCore(cfg, s, steps[0]);
      RunKeepsGauge(cfg, Next(cfg, s, steps[0]), steps[1..]);
    }
  }

  /**
   In every run, call by call and with deletes and expiry at any point: the
   gauge, plus the handlers that have registered a tunnel and not yet counted
   it, is the number of registered tunnels plus those removed from outside.
   */
  lemma GaugeCountsTunnels(cfg: R.Config, steps: seq<Step>)
    ensures var s := Exec(cfg, INIT, steps);
            s.gauge + |Mappers(s.handlers)| == |s.reg.tunnels| + s.outside
  {
    assert Mappers(INIT.handlers) == {};
    RunKeepsGauge(cfg, INIT, steps);
  }
}
