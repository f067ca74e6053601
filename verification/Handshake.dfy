/**
 The handshake: `handleConnect` registers, maps and counts one tunnel after the
 other, and on the first failure `cleanupConnection` takes everything back.
 */
module Handshake {
  import opened Results
  import opened TunnelIds
  import opened Gateway
  import R = Registry
  import B = Broker

  /** What the handlers share: registry, broker maps and the active-tunnels gauge. */
  datatype Shared = Shared(reg: R.State, connections: set<string>, routes: map<string, string>, gauge: int)

  /** One tunnel a handshake has enrolled. */
  datatype Entry = Entry(id: string, subdomain: string)

  // ---------------------------------------------------------------------------
  // Value-level steps

  function Enroll(cfg: R.Config, s: Shared, t: R.Tunnel): Shared {
    s.(reg := R.Registered(cfg, s.reg, t), routes := s.routes[t.subdomain := t.connId], gauge := s.gauge + 1)
  }

  function Evict(s: Shared, id: string): Shared {
    if id !in s.reg.tunnels then s
    else
      s.(reg := R.Unregistered(s.reg, id), routes := s.routes - {s.reg.tunnels[id].subdomain}, gauge := s.gauge - 1)
  }

  function EvictAll(s: Shared, ids: seq<string>): Shared
    decreases |ids|
  {
    if ids == [] then s else EvictAll(Evict(s, ids[0]), ids[1..])
  }

  function Join(s: Shared, c: string): Shared {
    s.(connections := s.connections + {c})
  }

  /** `RemoveConnection`. */
  function Leave(s: Shared, c: string): Shared {
    if c !in s.connections then s
    else s.(connections := s.connections - {c}, routes := RoutesWithout(s.routes, c))
  }

  /** The first `k` tunnels of a request enrolled, one after the other. */
  function Enrolled(cfg: R.Config, s: Shared, c: string, owner: string, tunnels: seq<TunnelConfig>,
                    clock: nat -> Reading, k: nat): Shared
    requires k <= |tunnels|
  {
    if k == 0 then s
    else Enroll(cfg, Enrolled(cfg, s, c, owner, tunnels, clock, k - 1), TunnelFor(c, owner, tunnels[k - 1], clock(k - 1)))
  }

  /** Why the k-th registration of the request fails, if it does. */
  function FailureAt(cfg: R.Config, s: Shared, c: string, owner: string, tunnels: seq<TunnelConfig>,
                     clock: nat -> Reading, k: nat): Option<R.Error>
    requires k < |tunnels|
  {
    R.RegisterError(cfg, Enrolled(cfg, s, c, owner, tunnels, clock, k).reg, tunnels[k].subdomain)
  }

  predicate AcceptedUpTo(cfg: R.Config, s: Shared, c: string, owner: string, tunnels: seq<TunnelConfig>,
                         clock: nat -> Reading, k: nat)
    requires k <= |tunnels|
  {
    forall i | 0 <= i < k :: FailureAt(cfg, s, c, owner, tunnels, clock, i).None?
  }

  lemma AcceptedNext(cfg: R.Config, s: Shared, c: string, owner: string, tunnels: seq<TunnelConfig>,
                     clock: nat -> Reading, k: nat)
    requires k < |tunnels| && AcceptedUpTo(cfg, s, c, owner, tunnels, clock, k)
    requires FailureAt(cfg, s, c, owner, tunnels, clock, k).None?
    ensures AcceptedUpTo(cfg, s, c, owner, tunnels, clock, k + 1)
    ensures Enrolled(cfg, s, c, owner, tunnels, clock, k + 1)
            == Enroll(cfg, Enrolled(cfg, s, c, owner, tunnels, clock, k), TunnelFor(c, owner, tunnels[k], clock(k)))
  {
  }

  /** The tunnel that the connection asked for is stored and routed as it asked for it, at these times. */
  predicate ServedAsAsked(cfg: R.Config, s: Shared, c: string, owner: string, asked: TunnelConfig, at: Reading) {
    var id := c + "-" + asked.subdomain;
    && id in s.reg.tunnels
    && var t := s.reg.tunnels[id];
       && t.id == id && t.connId == c && t.ownerId == owner
       && t.subdomain == asked.subdomain && t.protocol == asked.protocol && t.targetPort == asked.port
       && t.createdAt == at.created && t.lastHeartbeatAt == at.heartbeat
       && t.ttl == cfg.defaultTTL && t.bandwidthLimit == 0
       && t.subdomain in s.reg.index && s.reg.index[t.subdomain] == id
       && t.subdomain in s.routes && s.routes[t.subdomain] == c
  }

  lemma IdsDiffer(c: string, x: string, y: string)
    requires x != y
    ensures c + "-" + x != c + "-" + y
  {
    assert (c + "-" + x)[|c| + 1..] == x && (c + "-" + y)[|c| + 1..] == y;
  }

  lemma EnrollServes(cfg: R.Config, s: Shared, c: string, owner: string, asked: TunnelConfig, at: Reading)
    requires R.RegisterError(cfg, s.reg, asked.subdomain).None?
    ensures ServedAsAsked(cfg, Enroll(cfg, s, TunnelFor(c, owner, asked, at)), c, owner, asked, at)
  {
  }

  lemma EnrollServesOthers(cfg: R.Config, s: Shared, c: string, owner: string, asked: TunnelConfig, at: Reading,
                           next: TunnelConfig, later: Reading)
    requires ServedAsAsked(cfg, s, c, owner, asked, at) && R.RegisterError(cfg, s.reg, next.subdomain).None?
    ensures ServedAsAsked(cfg, Enroll(cfg, s, TunnelFor(c, owner, next, later)), c, owner, asked, at)
  {
    IdsDiffer(c, asked.subdomain, next.subdomain);
  }

  /** Everything that was accepted is stored and routed as asked for. */
  lemma {:induction false} EnrolledServes(cfg: R.Config, s: Shared, c: string, owner: string,
                                          tunnels: seq<TunnelConfig>, clock: nat -> Reading, k: nat, i: nat)
    requires i < k <= |tunnels| && AcceptedUpTo(cfg, s, c, owner, tunnels, clock, k)
    ensures ServedAsAsked(cfg, Enrolled(cfg, s, c, owner, tunnels, clock, k), c, owner, tunnels[i], clock(i))
    decreases k
  {
    var before := Enrolled(cfg, s, c, owner, tunnels, clock, k - 1);
    assert FailureAt(cfg, s, c, owner, tunnels, clock, k - 1).None?;
    if i == k - 1 {
      EnrollServes(cfg, before, c, owner, tunnels[i], clock(i));
    } else {
      EnrolledServes(cfg, s, c, owner, tunnels, clock, k - 1, i);
      EnrollServesOthers(cfg, before, c, owner, tunnels[i], clock(i), tunnels[k - 1], clock(k - 1));
    }
  }

  function IdsOf(c: string, tunnels: seq<TunnelConfig>): seq<string> {
    seq(|tunnels|, i requires 0 <= i < |tunnels| => TunnelId(c, tunnels[i].subdomain))
  }

  lemma IdsOfNext(c: string, tunnels: seq<TunnelConfig>, k: nat)
    requires k < |tunnels|
    ensures IdsOf(c, tunnels[..k + 1]) == IdsOf(c, tunnels[..k]) + [TunnelId(c, tunnels[k].subdomain)]
  {
  }

  // ---------------------------------------------------------------------------
  // What a handshake adds

  predicate Distinct(es: seq<Entry>) {
    forall i, j | 0 <= i < j < |es| :: es[i].id != es[j].id && es[i].subdomain != es[j].subdomain
  }

  function Ids(es: seq<Entry>): set<string> {
    set i | 0 <= i < |es| :: es[i].id
  }

  function Subdomains(es: seq<Entry>): set<string> {
    set i | 0 <= i < |es| :: es[i].subdomain
  }

  /** State `r` is `s` with exactly the entries added. */
  predicate Adds(s: Shared, r: Shared, es: seq<Entry>) {
    && Distinct(es) && r.connections == s.connections && r.gauge == s.gauge + |es|
    && Ids(es) <= r.reg.tunnels.Keys && r.reg.tunnels - Ids(es) == s.reg.tunnels
    && Subdomains(es) <= r.reg.index.Keys && r.reg.index - Subdomains(es) == s.reg.index
    && Subdomains(es) <= r.routes.Keys && r.routes - Subdomains(es) == s.routes
    && (forall i | 0 <= i < |es| :: r.reg.tunnels[es[i].id].subdomain == es[i].subdomain)
  }

  lemma AddsNothing(s: Shared, r: Shared)
    requires Adds(s, r, [])
    ensures r == s
  {
    assert r.reg.tunnels - {} == r.reg.tunnels && r.reg.index - {} == r.reg.index && r.routes - {} == r.routes;
  }

  lemma OneMore(es: seq<Entry>, e: Entry)
    ensures Ids(es + [e]) == Ids(es) + {e.id} && Subdomains(es + [e]) == Subdomains(es) + {e.subdomain}
  {
    var fs := es + [e];
    assert fs[|es|] == e;
    assert forall i | 0 <= i < |es| :: fs[i] == es[i];
  }

  lemma OneLess(es: seq<Entry>)
    requires es != [] && Distinct(es)
    ensures Distinct(es[1..])
    ensures Ids(es) == Ids(es[1..]) + {es[0].id} && es[0].id !in Ids(es[1..])
    ensures Subdomains(es) == Subdomains(es[1..]) + {es[0].subdomain} && es[0].subdomain !in Subdomains(es[1..])
  {
    var fs := es[1..];
    assert forall i | 0 < i < |es| :: es[i] == fs[i - 1];
  }

  lemma MinusMore<K, V>(m: map<K, V>, ks: set<K>, k: K, v: V)
    ensures m - (ks + {k}) == (m - {k}) - ks == (m - ks) - {k}
    ensures m[k := v] - (ks + {k}) == m - (ks + {k})
    ensures k !in m ==> m - (ks + {k}) == m - ks
  {
  }

  /** Enrolling also overwrites whatever route the subdomain had. */
  lemma EnrollAdds(cfg: R.Config, s: Shared, r: Shared, es: seq<Entry>, t: R.Tunnel)
    requires Adds(s, r, es) && R.RegisterError(cfg, r.reg, t.subdomain).None? && t.id !in r.reg.tunnels
    ensures Adds(s.(routes := s.routes - {t.subdomain}), Enroll(cfg, r, t), es + [Entry(t.id, t.subdomain)])
  {
    OneMore(es, Entry(t.id, t.subdomain));
    assert forall i | 0 <= i < |es| :: es[i].id in Ids(es) && es[i].subdomain in Subdomains(es);
    MinusMore(r.reg.tunnels, Ids(es), t.id, R.WithTTL(cfg, t));
    MinusMore(r.reg.index, Subdomains(es), t.subdomain, t.id);
    MinusMore(r.routes, Subdomains(es), t.subdomain, t.connId);
  }

  lemma EvictTakesBack(s: Shared, r: Shared, es: seq<Entry>)
    requires Adds(s, r, es) && es != []
    ensures Adds(s, Evict(r, es[0].id), es[1..])
  {
    OneLess(es);
    assert es[0].id in Ids(es);
    var t := r.reg.tunnels[es[0].id];
    MinusMore(r.reg.tunnels, Ids(es[1..]), es[0].id, t);
    MinusMore(r.reg.index, Subdomains(es[1..]), es[0].subdomain, "");
    MinusMore(r.routes, Subdomains(es[1..]), es[0].subdomain, "");
    assert forall i | 0 <= i < |es[1..]| :: es[1..][i] == es[i + 1] && es[1..][i].id in Ids(es[1..]);
  }

  function EntriesOf(c: string, tunnels: seq<TunnelConfig>): seq<Entry> {
    seq(|tunnels|, i requires 0 <= i < |tunnels| => Entry(TunnelId(c, tunnels[i].subdomain), tunnels[i].subdomain))
  }

  /** Nobody uses the connection ID: not the broker, and not the registry in any tunnel ID. */
  ghost predicate FreshConn(s: Shared, c: string) {
    && c !in s.connections
    && (forall sub | sub in s.routes :: s.routes[sub] != c)
    && (forall x: string :: TunnelId(c, x) !in s.reg.tunnels)
  }

  /** The taken check makes the next tunnel's ID new. */
  lemma NextIdNew(s: Shared, r: Shared, c: string, tunnels: seq<TunnelConfig>, sub: string)
    requires Adds(s, r, EntriesOf(c, tunnels)) && TunnelId(c, sub) !in s.reg.tunnels && sub !in r.reg.index
    ensures TunnelId(c, sub) !in r.reg.tunnels
  {
    var es, id := EntriesOf(c, tunnels), TunnelId(c, sub);
    forall i | 0 <= i < |es|
      ensures es[i].id != id
    {
      assert es[i].subdomain in Subdomains(es) && es[i].subdomain != sub;
      assert es[i].subdomain == es[i].id[|c| + 1..] && sub == id[|c| + 1..];
    }
    assert id in r.reg.tunnels ==> id in r.reg.tunnels - Ids(es);
  }

  /** State `r` is `s` with the first `k` tunnels of the request enrolled, and their earlier routes gone. */
  predicate EnrolledIn(s: Shared, r: Shared, c: string, tunnels: seq<TunnelConfig>, k: nat)
    requires k <= |tunnels|
  {
    var es := EntriesOf(c, tunnels[..k]);
    Adds(s.(routes := s.routes - Subdomains(es)), r, es)
  }

  lemma EnrollOneMore(cfg: R.Config, s: Shared, r: Shared, c: string, tunnels: seq<TunnelConfig>, k: nat, t: R.Tunnel)
    requires k < |tunnels| && t.id == TunnelId(c, tunnels[k].subdomain) && t.subdomain == tunnels[k].subdomain
    requires EnrolledIn(s, r, c, tunnels, k)
    requires t.id !in s.reg.tunnels && R.RegisterError(cfg, r.reg, t.subdomain).None?
    ensures EnrolledIn(s, Enroll(cfg, r, t), c, tunnels, k + 1)
  {
    var fs := EntriesOf(c, tunnels[..k]);
    var b := s.(routes := s.routes - Subdomains(fs));
    NextIdNew(b, r, c, tunnels[..k], t.subdomain);
    EnrollAdds(cfg, b, r, fs, t);
    assert EntriesOf(c, tunnels[..k + 1]) == fs + [Entry(t.id, t.subdomain)];
    OneMore(fs, Entry(t.id, t.subdomain));
    MinusMore(s.routes, Subdomains(fs), t.subdomain, "");
  }

  lemma EnrolledNothing(s: Shared, c: string, tunnels: seq<TunnelConfig>)
    ensures EnrolledIn(s, s, c, tunnels, 0)
  {
    assert EntriesOf(c, tunnels[..0]) == [] && Ids([]) == {} && Subdomains([]) == {};
    assert s.routes - {} == s.routes && s.reg.tunnels - {} == s.reg.tunnels && s.reg.index - {} == s.reg.index;
  }

  lemma {:induction false} EnrolledAdds(cfg: R.Config, s: Shared, c: string, owner: string,
                                        tunnels: seq<TunnelConfig>, clock: nat -> Reading, k: nat)
    requires k <= |tunnels| && AcceptedUpTo(cfg, s, c, owner, tunnels, clock, k)
    requires forall x: string :: TunnelId(c, x) !in s.reg.tunnels
    ensures EnrolledIn(s, Enrolled(cfg, s, c, owner, tunnels, clock, k), c, tunnels, k)
  {
    if k == 0 {
      EnrolledNothing(s, c, tunnels);
    } else {
      EnrolledAdds(cfg, s, c, owner, tunnels, clock, k - 1);
      assert FailureAt(cfg, s, c, owner, tunnels, clock, k - 1).None?;
      EnrollOneMore(cfg, s, Enrolled(cfg, s, c, owner, tunnels, clock, k - 1), c, tunnels, k - 1,
                    TunnelFor(c, owner, tunnels[k - 1], clock(k - 1)));
    }
  }

  lemma {:induction false} EvictAllTakesBack(s: Shared, r: Shared, es: seq<Entry>, ids: seq<string>)
    requires Adds(s, r, es) && |ids| == |es| && (forall i | 0 <= i < |es| :: ids[i] == es[i].id)
    ensures EvictAll(r, ids) == s
    decreases |ids|
  {
    if ids == [] {
      AddsNothing(s, r);
    } else {
      EvictTakesBack(s, r, es);
      EvictAllTakesBack(s, Evict(r, ids[0]), es[1..], ids[1..]);
    }
  }

  /** What the shared state is after the k-th registration failed and the connection was cleaned up. */
  function AfterFailure(cfg: R.Config, s: Shared, c: string, owner: string, tunnels: seq<TunnelConfig>,
                        clock: nat -> Reading, k: nat): Shared
    requires k <= |tunnels|
  {
    Leave(EvictAll(Enrolled(cfg, Join(s, c), c, owner, tunnels, clock, k), IdsOf(c, tunnels[..k])), c)
  }

  /** A failed handshake undoes itself, except that the routes of what it had enrolled are gone. */
  lemma FailureTakesBack(cfg: R.Config, s: Shared, c: string, owner: string, tunnels: seq<TunnelConfig>,
                         clock: nat -> Reading, k: nat)
    requires k <= |tunnels| && FreshConn(s, c) && AcceptedUpTo(cfg, Join(s, c), c, owner, tunnels, clock, k)
    ensures AfterFailure(cfg, s, c, owner, tunnels, clock, k)
            == s.(routes := s.routes - Subdomains(EntriesOf(c, tunnels[..k])))
  {
    var es := EntriesOf(c, tunnels[..k]);
    var joined := Join(s, c);
    EnrolledAdds(cfg, joined, c, owner, tunnels, clock, k);
    var b := joined.(routes := s.routes - Subdomains(es));
    EvictAllTakesBack(b, Enrolled(cfg, joined, c, owner, tunnels, clock, k), es, IdsOf(c, tunnels[..k]));
    assert RoutesWithout(b.routes, c) == b.routes;
    assert s.connections + {c} - {c} == s.connections;
  }

  /**
   All or nothing: whichever registration fails and why, the handshake restores
   registry, index, broker maps and gauge exactly if and only if none of the
   subdomains it had enrolled had a left-over route.
   */
  lemma FailureRestoresIff(cfg: R.Config, s: Shared, c: string, owner: string, tunnels: seq<TunnelConfig>,
                           clock: nat -> Reading, k: nat)
    requires k < |tunnels| && FreshConn(s, c) && AcceptedUpTo(cfg, Join(s, c), c, owner, tunnels, clock, k)
    ensures AfterFailure(cfg, s, c, owner, tunnels, clock, k) == s
            <==> forall i | 0 <= i < k :: tunnels[i].subdomain !in s.routes
  {
    FailureTakesBack(cfg, s, c, owner, tunnels, clock, k);
    var es := EntriesOf(c, tunnels[..k]);
    var routes := s.routes - Subdomains(es);
    assert forall i | 0 <= i < k :: es[i].subdomain == tunnels[i].subdomain && es[i].subdomain in Subdomains(es);
    if forall i | 0 <= i < k :: tunnels[i].subdomain !in s.routes {
      assert routes == s.routes;
    }
  }

  /** When every route has a registry entry, as it does unless tunnels are removed from outside, nothing remains. */
  lemma FailureRestoresConsistentState(cfg: R.Config, s: Shared, c: string, owner: string,
                                       tunnels: seq<TunnelConfig>, clock: nat -> Reading, k: nat)
    requires k < |tunnels| && FreshConn(s, c) && AcceptedUpTo(cfg, Join(s, c), c, owner, tunnels, clock, k)
    requires s.routes.Keys <= s.reg.index.Keys
    ensures AfterFailure(cfg, s, c, owner, tunnels, clock, k) == s
  {
    forall i | 0 <= i < k
      ensures tunnels[i].subdomain !in s.routes
    {
      assert FailureAt(cfg, Join(s, c), c, owner, tunnels, clock, i).None?;
      EnrolledAdds(cfg, Join(s, c), c, owner, tunnels, clock, i);
      var r := Enrolled(cfg, Join(s, c), c, owner, tunnels, clock, i);
      assert s.reg.index == r.reg.index - Subdomains(EntriesOf(c, tunnels[..i]));
    }
    FailureRestoresIff(cfg, s, c, owner, tunnels, clock, k);
  }

  // ---------------------------------------------------------------------------
  // The server object

  class Server {
    const registry: R.MemoryRegistry
    const broker: B.Broker
    var activeTunnels: int

    constructor (registry: R.MemoryRegistry, broker: B.Broker)
      ensures this.registry == registry && this.broker == broker && activeTunnels == 0
    {
      this.registry := registry;
      this.broker := broker;
      activeTunnels := 0;
    }

    ghost function View(): Shared
      reads this, registry, broker
    {
      Shared(registry.Contents(), broker.connections.Keys, broker.subdomainToConn, activeTunnels)
    }

    /** `cleanupConnection`. */
    method CleanupConnection(connId: string, tunnelIds: seq<string>)
      modifies this, registry, broker, broker.StreamsOf(connId)
      ensures View() == Leave(EvictAll(old(View()), tunnelIds), connId)
    {
      for i := 0 to |tunnelIds|
        invariant broker.connections == old(broker.connections)
        invariant EvictAll(View(), tunnelIds[i..]) == EvictAll(old(View()), tunnelIds)
      {
        var id := tunnelIds[i];
        ghost var before := View();
        var t := registry.GetByID(id);
        if t.Ok? {
          broker.UnmapSubdomain(t.value.subdomain);
        }
        var err := registry.Unregister(id);
        if err.None? {
          activeTunnels := activeTunnels - 1;
        }
        assert View() == Evict(before, id);
        assert tunnelIds[i..][1..] == tunnelIds[i + 1..];
      }
      assert tunnelIds[|tunnelIds|..] == [];
      ghost var before := View();
      broker.RemoveConnection(connId);
      assert View() == Leave(before, connId);
    }

    /** One iteration of the loop in `handleConnect`. */
    method RegisterAndMap(tunnel: R.Tunnel) returns (err: Option<R.Error>)
      modifies this, registry, broker`subdomainToConn
      ensures err == R.RegisterError(registry.cfg, old(View()).reg, tunnel.subdomain)
      ensures View() == if err.None? then Enroll(registry.cfg, old(View()), tunnel) else old(View())
    {
      err := registry.Register(tunnel);
      if err.None? {
        broker.MapSubdomain(tunnel.subdomain, tunnel.connId);
        activeTunnels := activeTunnels + 1;
      }
    }

    /** The registration part of `handleConnect`, up to the control response; `clock` gives the readings for each tunnel. */
    method HandleConnect(connId: string, userId: string, tunnels: seq<TunnelConfig>, clock: nat -> Reading)
      returns (err: Option<R.Error>, registered: nat, tunnelIds: seq<string>)
      modifies this, registry, broker, broker.StreamsOf(connId)
      ensures registered <= |tunnels| && (err.None? <==> registered == |tunnels|)
      ensures var joined := Join(old(View()), connId);
              && AcceptedUpTo(registry.cfg, joined, connId, userId, tunnels, clock, registered)
              && (err.Some? ==> err == FailureAt(registry.cfg, joined, connId, userId, tunnels, clock, registered))
              && View() == if err.None? then Enrolled(registry.cfg, joined, connId, userId, tunnels, clock, |tunnels|)
                           else AfterFailure(registry.cfg, old(View()), connId, userId, tunnels, clock, registered)
      ensures tunnelIds == IdsOf(connId, tunnels[..registered])
      ensures err.None? ==> connId in View().connections && forall i | 0 <= i < |tunnels| ::
                              ServedAsAsked(registry.cfg, View(), connId, userId, tunnels[i], clock(i))
    {
      var conn := broker.AddConnection(connId, userId);
      ghost var joined := Join(old(View()), connId);
      assert View() == joined;
      tunnelIds := [];
      for k := 0 to |tunnels|
        invariant tunnelIds == IdsOf(connId, tunnels[..k])
        invariant connId in broker.connections && broker.connections[connId] == conn && conn.streams == map[]
        invariant AcceptedUpTo(registry.cfg, joined, connId, userId, tunnels, clock, k)
        invariant View() == Enrolled(registry.cfg, joined, connId, userId, tunnels, clock, k)
      {
        var tunnel := TunnelFor(connId, userId, tunnels[k], clock(k));
        err := RegisterAndMap(tunnel);
        if err.Some? {
          CleanupConnection(connId, tunnelIds);
          return err, k, tunnelIds;
        }
        tunnelIds := tunnelIds + [tunnel.id];
        IdsOfNext(connId, tunnels, k);
        AcceptedNext(registry.cfg, joined, connId, userId, tunnels, clock, k);
      }
      forall i | 0 <= i < |tunnels|
        ensures ServedAsAsked(registry.cfg, View(), connId, userId, tunnels[i], clock(i))
      {
        EnrolledServes(registry.cfg, joined, connId, userId, tunnels, clock, |tunnels|, i);
      }
      return None, |tunnels|, tunnelIds;
    }
  }
}
