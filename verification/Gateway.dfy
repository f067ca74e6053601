/**
 The connection and subdomain protocol: any number of connection handlers over
 the shared registry, the broker's maps and the gauge, interleaved at the
 granularity of single locked calls.

 A run is a sequence of labels; a label that is not enabled changes nothing.
 Handlers are keyed by connection ID: the gateway gives every live connection
 its own.
 */
module Gateway {
  import opened TunnelIds
  import R = Registry

  datatype TunnelConfig = TunnelConfig(name: string, protocol: string, port: int, subdomain: string)

  /** The two clock readings of one registration. */
  datatype Reading = Reading(created: int, heartbeat: int)

  /** Where a handler stands in `handleConnect`, `readLoop` or `cleanupConnection`. */
  datatype Phase =
    | Registering(next: nat)
    | Mapping(next: nat)
    | Serving
    | Checking(next: nat)
    | Unmapping(next: nat, subdomain: string)
    | Unregistering(next: nat)

  datatype Handler = Handler(owner: string, tunnels: seq<TunnelConfig>, ids: seq<string>, phase: Phase)

  /** `outside` counts the tunnels that something other than a handler removed. */
  datatype State = State(reg: R.State, connections: set<string>, routes: map<string, string>,
                         handlers: map<string, Handler>, gauge: int, outside: nat)

  const INIT := State(R.EMPTY, {}, map[], map[], 0, 0)

  datatype Step =
    | Connect(conn: string, owner: string, tunnels: seq<TunnelConfig>)
    | Register(conn: string, at: Reading)
    | Map(conn: string)
    | Disconnect(conn: string)
    | Check(conn: string)
    | Unmap(conn: string)
    | Unregister(conn: string)
    | Heartbeat(conn: string, i: nat, now: int)
    | AdminDelete(id: string)
    | Expire(now: int)

  // ---------------------------------------------------------------------------
  // Steps

  function SetPhase(s: State, c: string, f: Phase): State
    requires c in s.handlers
  {
    s.(handlers := s.handlers[c := s.handlers[c].(phase := f)])
  }

  /** The tunnel that connection `c` registers for one entry of its request. */
  function TunnelFor(c: string, owner: string, t: TunnelConfig, at: Reading): R.Tunnel {
    R.Tunnel(TunnelId(c, t.subdomain), owner, t.subdomain, t.protocol, t.port, at.created, at.heartbeat, c, 0, 0)
  }

  function NewTunnel(c: string, h: Handler, k: nat, at: Reading): R.Tunnel
    requires k < |h.tunnels|
  {
    TunnelFor(c, h.owner, h.tunnels[k], at)
  }

  /** `AddConnection`, for a connection ID that no live connection has. */
  function DoConnect(s: State, c: string, owner: string, tunnels: seq<TunnelConfig>): State {
    s.(connections := s.connections + {c}, handlers := s.handlers[c := Handler(owner, tunnels, [], Registering(0))])
  }

  /** One `registry.Register`, or the end of the loop. */
  function DoRegister(cfg: R.Config, s: State, c: string, at: Reading): State
    requires c in s.handlers && s.handlers[c].phase.Registering?
  {
    var h := s.handlers[c];
    var k := h.phase.next;
    if k >= |h.tunnels| then SetPhase(s, c, Serving)
    else if R.RegisterError(cfg, s.reg, h.tunnels[k].subdomain).Some? then SetPhase(s, c, Checking(0))
    else SetPhase(s.(reg := R.Registered(cfg, s.reg, NewTunnel(c, h, k, at))), c, Mapping(k))
  }

  /** `MapSubdomain`, the append to `tunnelIDs`, and the gauge. */
  function DoMap(s: State, c: string): State
    requires c in s.handlers && s.handlers[c].phase.Mapping? && s.handlers[c].phase.next < |s.handlers[c].tunnels|
  {
    var h := s.handlers[c];
    var k := h.phase.next;
    var sub := h.tunnels[k].subdomain;
    s.(routes := s.routes[sub := c], gauge := s.gauge + 1,
       handlers := s.handlers[c := h.(ids := h.ids + [TunnelId(c, sub)], phase := Registering(k + 1))])
  }

  /** The routes `RemoveConnection` leaves. */
  function RoutesWithout(routes: map<string, string>, c: string): map<string, string> {
    map sub | sub in routes && routes[sub] != c :: routes[sub]
  }

  /** `GetByID` for the next tunnel, or `RemoveConnection` when there is none left. */
  function DoCheck(s: State, c: string): State
    requires c in s.handlers && s.handlers[c].phase.Checking?
  {
    var h := s.handlers[c];
    var j := h.phase.next;
    if j >= |h.ids| then
      s.(connections := s.connections - {c}, handlers := s.handlers - {c}, routes := RoutesWithout(s.routes, c))
    else if h.ids[j] in s.reg.tunnels then SetPhase(s, c, Unmapping(j, s.reg.tunnels[h.ids[j]].subdomain))
    else SetPhase(s, c, Unregistering(j))
  }

  function DoUnmap(s: State, c: string): State
    requires c in s.handlers && s.handlers[c].phase.Unmapping?
  {
    var f := s.handlers[c].phase;
    SetPhase(s.(routes := s.routes - {f.subdomain}), c, Unregistering(f.next))
  }

  function DoUnregister(s: State, c: string): State
    requires c in s.handlers && s.handlers[c].phase.Unregistering? && s.handlers[c].phase.next < |s.handlers[c].ids|
  {
    var j := s.handlers[c].phase.next;
    var id := s.handlers[c].ids[j];
    SetPhase(s.(reg := R.Unregistered(s.reg, id), gauge := if id in s.reg.tunnels then s.gauge - 1 else s.gauge),
             c, Checking(j + 1))
  }

  /** The admin API unregisters by ID; it touches neither the broker nor the gauge. */
  function DoAdminDelete(s: State, id: string): State {
    s.(reg := R.Unregistered(s.reg, id), outside := if id in s.reg.tunnels then s.outside + 1 else s.outside)
  }

  function DoExpire(s: State, now: int): State {
    s.(reg := R.Cleaned(s.reg, now), outside := s.outside + |R.ExpiredIds(s.reg, now)|)
  }

  predicate Enabled(s: State, step: Step) {
    match step
    case Connect(c, _, _) => Generated(c) && c !in s.handlers
    case Register(c, _) => c in s.handlers && s.handlers[c].phase.Registering?
    case Map(c) => c in s.handlers && s.handlers[c].phase.Mapping? && s.handlers[c].phase.next < |s.handlers[c].tunnels|
    case Disconnect(c) => c in s.handlers && s.handlers[c].phase.Serving?
    case Check(c) => c in s.handlers && s.handlers[c].phase.Checking?
    case Unmap(c) => c in s.handlers && s.handlers[c].phase.Unmapping?
    case Unregister(c) =>
      c in s.handlers && s.handlers[c].phase.Unregistering? && s.handlers[c].phase.next < |s.handlers[c].ids|
    case Heartbeat(c, i, _) => c in s.handlers && s.handlers[c].phase.Serving? && i < |s.handlers[c].ids|
    case AdminDelete(_) => true
    case Expire(_) => true
  }

  function Apply(cfg: R.Config, s: State, step: Step): State
    requires Enabled(s, step)
  {
    match step
    case Connect(c, owner, tunnels) => DoConnect(s, c, owner, tunnels)
    case Register(c, at) => DoRegister(cfg, s, c, at)
    case Map(c) => DoMap(s, c)
    case Disconnect(c) => SetPhase(s, c, Checking(0))
    case Check(c) => DoCheck(s, c)
    case Unmap(c) => DoUnmap(s, c)
    case Unregister(c) => DoUnregister(s, c)
    case Heartbeat(c, i, now) => s.(reg := R.WithHeartbeat(s.reg, s.handlers[c].ids[i], now))
    case AdminDelete(id) => DoAdminDelete(s, id)
    case Expire(now) => DoExpire(s, now)
  }

  function Next(cfg: R.Config, s: State, step: Step): State {
    if Enabled(s, step) then Apply(cfg, s, step) else s
  }

  function Exec(cfg: R.Config, s: State, steps: seq<Step>): State
    decreases |steps|
  {
    if steps == [] then s else Exec(cfg, Next(cfg, s, steps[0]), steps[1..])
  }

  lemma {:induction false} ExecAppend(cfg: R.Config, s: State, steps: seq<Step>, more: seq<Step>)
    ensures Exec(cfg, s, steps + more) == Exec(cfg, Exec(cfg, s, steps), more)
    decreases |steps|
  {
    if steps == [] {
      assert [] + more == more;
    } else {
      assert (steps + more)[1..] == steps[1..] + more;
      ExecAppend(cfg, Next(cfg, s, steps[0]), steps[1..], more);
    }
  }

  lemma ExecOne(cfg: R.Config, s: State, x: Step)
    ensures Exec(cfg, s, [x]) == Next(cfg, s, x)
  {
    assert [x][1..] == [];
  }

  lemma ExecTwo(cfg: R.Config, s: State, x: Step, y: Step)
    ensures Exec(cfg, s, [x, y]) == Next(cfg, Next(cfg, s, x), y)
  {
    assert [x, y][1..] == [y];
    ExecOne(cfg, Next(cfg, s, x), y);
  }
}
