/**
 A public request from its Host header to a local port, over every run of the
 gateway: the proxy looks the subdomain up in the registry, then in the broker,
 and whatever happens between the two lookups, the client that gets the request
 resolves the tunnel ID of the first lookup among its own tunnels.
 */
module HostToPort {
  import opened Results
  import opened TunnelIds
  import opened Gateway
  import GatewayLock
  import opened GatewayCalls
  import opened HostNames
  import opened Routing
  import R = Registry

  /** The tunnels of a client, as it registers them. */
  function ClientTunnels(tunnels: seq<TunnelConfig>): seq<ClientTunnel> {
    seq(|tunnels|, i requires 0 <= i < |tunnels| => ClientTunnel(tunnels[i].subdomain, tunnels[i].port))
  }

  /** The registry lookup finds this tunnel. */
  predicate Finds(s: State, sub: string, t: R.Tunnel) {
    R.GetBySubdomain(s.reg, sub) == Ok(Some(t))
  }

  /** A tunnel that is found has the subdomain, and an ID made from it and a generated connection ID. */
  lemma FoundTunnel(cfg: R.Config, s: State, sub: string, t: R.Tunnel)
    requires Core(cfg, s) && Finds(s, sub, t)
    ensures Generated(t.connId) && t.subdomain == sub && t.id == TunnelId(t.connId, sub)
  {
    assert !R.Stale(s.reg, sub);
    assert GatewayLock.Shape(t.connId, s.handlers[t.connId]);
  }

  /** The client of connection `c` resolves the tunnel ID to its tunnel number `i` exactly when none before shadows it. */
  lemma ResolvesOwnTunnelIff(s: State, c: string, t: R.Tunnel, i: nat)
    requires c in s.handlers && i < |s.handlers[c].tunnels| && s.handlers[c].tunnels[i].subdomain == t.subdomain
    requires Generated(t.connId) && t.id == TunnelId(t.connId, t.subdomain)
    ensures FirstMatch(ClientTunnels(s.handlers[c].tunnels), t.id) == Some(i)
            <==> forall j | 0 <= j < i :: !Shadows(t.connId, s.handlers[c].tunnels[j].subdomain, t.subdomain)
  {
    var tunnels := ClientTunnels(s.handlers[c].tunnels);
    assert forall j | 0 <= j <= i :: tunnels[j].subdomain == s.handlers[c].tunnels[j].subdomain;
    ResolvesIffUnshadowed(t.connId, tunnels, i);
  }

  /**
   In every run, call by call and with deletes and expiry at any point: if the
   registry lookup finds a tunnel and the broker lookup, any number of steps
   later, finds a route, the request goes to a live connection that asked for
   the subdomain, even if that is no longer the tunnel's; and the client there
   resolves the tunnel's ID to its own tunnel for the subdomain exactly when no
   earlier one of its tunnels shadows it.
   */
  lemma RequestReachesOwnPortIff(cfg: R.Config, steps: seq<Step>, more: seq<Step>, sub: string, t: R.Tunnel)
    requires Finds(Exec(cfg, INIT, steps), sub, t) && sub in Exec(cfg, Exec(cfg, INIT, steps), more).routes
    ensures var r := Exec(cfg, Exec(cfg, INIT, steps), more);
            var c := r.routes[sub];
            && c in r.connections && c in r.handlers
            && (exists i :: 0 <= i < |r.handlers[c].tunnels| && r.handlers[c].tunnels[i].subdomain == sub)
            && (forall i | 0 <= i < |r.handlers[c].tunnels| && r.handlers[c].tunnels[i].subdomain == sub ::
                  FirstMatch(ClientTunnels(r.handlers[c].tunnels), t.id) == Some(i)
                  <==> forall j | 0 <= j < i :: !Shadows(t.connId, r.handlers[c].tunnels[j].subdomain, sub))
  {
    var s := Exec(cfg, INIT, steps);
    var r := Exec(cfg, s, more);
    RunKeepsCore(cfg, INIT, steps);
    RunKeepsCore(cfg, s, more);
    FoundTunnel(cfg, s, sub, t);
    assert RouteAsked(r, sub);
    var c := r.routes[sub];
    forall i | 0 <= i < |r.handlers[c].tunnels| && r.handlers[c].tunnels[i].subdomain == sub
      ensures FirstMatch(ClientTunnels(r.handlers[c].tunnels), t.id) == Some(i)
              <==> forall j | 0 <= j < i :: !Shadows(t.connId, r.handlers[c].tunnels[j].subdomain, sub)
    {
      ResolvesOwnTunnelIff(r, c, t, i);
    }
  }

  /** After a run of handlers alone, connection `c` is served and has a tunnel number `i`. */
  predicate Served(cfg: R.Config, steps: seq<Step>, s: State, c: string, i: nat) {
    && GatewayLock.HandlersOnly(steps) && s == Exec(cfg, INIT, steps)
    && c in s.handlers && s.handlers[c].phase.Serving? && i < |s.handlers[c].tunnels|
  }

  /** It is found in both lookups for this tunnel's subdomain. */
  lemma ServedIsFound(cfg: R.Config, steps: seq<Step>, s: State, c: string, i: nat) returns (t: R.Tunnel)
    requires Served(cfg, steps, s, c, i)
    ensures var sub := s.handlers[c].tunnels[i].subdomain;
            && Finds(s, sub, t) && t.connId == c && t.subdomain == sub && t.id == TunnelId(c, sub) && Generated(c)
            && sub in s.routes && s.routes[sub] == c
  {
    var sub := s.handlers[c].tunnels[i].subdomain;
    GatewayLock.ServedTunnelsAreRouted(cfg, steps, c, i);
    GatewayLock.RoutesLeadToHolders(cfg, steps, sub);
    t := R.GetBySubdomain(s.reg, sub).value.value;
    RunKeepsCore(cfg, INIT, steps);
    FoundTunnel(cfg, s, sub, t);
  }

  /** No earlier tunnel of the client's shadows tunnel number `i`. */
  predicate Unshadowed(c: string, tunnels: seq<TunnelConfig>, i: nat)
    requires i < |tunnels|
  {
    forall j | 0 <= j < i :: !Shadows(c, tunnels[j].subdomain, tunnels[i].subdomain)
  }

  /** Without dashes nothing shadows a served connection's tunnel. */
  lemma DashFreeIsUnshadowed(cfg: R.Config, steps: seq<Step>, s: State, c: string, i: nat)
    requires Served(cfg, steps, s, c, i) && DashFree(ClientTunnels(s.handlers[c].tunnels))
    ensures Unshadowed(c, s.handlers[c].tunnels, i)
  {
    GatewayLock.RunKeeps(cfg, INIT, steps);
    assert GatewayLock.Agrees(s.reg, s.routes, c, s.handlers[c]);
    var tunnels := s.handlers[c].tunnels;
    forall j | 0 <= j < i
      ensures !Shadows(c, tunnels[j].subdomain, tunnels[i].subdomain)
    {
      assert ClientTunnels(tunnels)[j].subdomain == tunnels[j].subdomain;
      assert ClientTunnels(tunnels)[i].subdomain == tunnels[i].subdomain;
      UnshadowedWithoutDashes(c, tunnels[j].subdomain, tunnels[i].subdomain);
    }
  }

  /**
   In every run of handlers alone: a request for a host that names a tunnel of
   a served connection, in any letter case and with or without a port, finds
   that connection in both lookups, and its client sends it to that tunnel's
   port exactly when no earlier tunnel of the client shadows it; without dashes,
   always.
   */
  lemma HostReachesServedPort(cfg: R.Config, steps: seq<Step>, s: State, c: string, i: nat,
                              host: string, port: string, publicHostname: string) returns (t: R.Tunnel)
    requires Served(cfg, steps, s, c, i)
    requires Names(host, s.handlers[c].tunnels[i].subdomain, publicHostname) && IsInt(port)
    ensures var sub := ExtractSubdomain(host, publicHostname);
            && sub == ExtractSubdomain(host + ":" + port, publicHostname)
            && Finds(s, sub, t) && sub in s.routes && s.routes[sub] == c
    ensures FirstMatch(ClientTunnels(s.handlers[c].tunnels), t.id) == Some(i) <==> Unshadowed(c, s.handlers[c].tunnels, i)
    ensures DashFree(ClientTunnels(s.handlers[c].tunnels)) ==> Unshadowed(c, s.handlers[c].tunnels, i)
  {
    NamedHostExtracts(host, s.handlers[c].tunnels[i].subdomain, publicHostname, port);
    t := ServedIsFound(cfg, steps, s, c, i);
    ResolvesOwnTunnelIff(s, c, t, i);
    if DashFree(ClientTunnels(s.handlers[c].tunnels)) {
      DashFreeIsUnshadowed(cfg, steps, s, c, i);
    }
  }
}
