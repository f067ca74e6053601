/**
 Where the gateway's tunnels come from. Over every run, call by call and with
 deletes and expiry at any point, the registry is what its own operations make
 of what clients asked for, and every tunnel in it is one its live connection
 asked for: same subdomain, protocol, port and owner, with the time of its
 registration and of its last heartbeat.
 */
module GatewayHistory {
  import opened Results
  import opened Gateway
  import opened GatewayCalls
  import R = Registry
  import H = RegistryHistory

  // ---------------------------------------------------------------------------
  // The registry's operations

  /** The tunnel that a connection asks the registry for. */
  function AskedFor(c: string, h: Handler, k: nat, at: Reading): R.Tunnel
    requires k < |h.tunnels|
  {
    R.Tunnel(id := c + "-" + h.tunnels[k].subdomain, ownerId := h.owner, subdomain := h.tunnels[k].subdomain,
             protocol := h.tunnels[k].protocol, targetPort := h.tunnels[k].port, createdAt := at.created,
             lastHeartbeatAt := at.heartbeat, connId := c, ttl := 0, bandwidthLimit := 0)
  }

  /** The phase of the connection's handler, if there is one. */
  function PhaseOf(s: State, c: string): Option<Phase> {
    if c in s.handlers then Some(s.handlers[c].phase) else None
  }

  /** What the step asks of the registry. */
  function Calls(s: State, step: Step): seq<R.Op> {
    match step
    case Register(c, at) =>
      if PhaseOf(s, c).Some? && s.handlers[c].phase.Registering? && s.handlers[c].phase.next < |s.handlers[c].tunnels|
      then [R.OpRegister(AskedFor(c, s.handlers[c], s.handlers[c].phase.next, at))]
      else []
    case Unregister(c) =>
      if PhaseOf(s, c).Some? && s.handlers[c].phase.Unregistering? && s.handlers[c].phase.next < |s.handlers[c].ids|
      then [R.OpUnregister(s.handlers[c].ids[s.handlers[c].phase.next])]
      else []
    case Heartbeat(c, i, now) =>
      if PhaseOf(s, c) == Some(Serving) && i < |s.handlers[c].ids|
      then [R.OpHeartbeat(s.handlers[c].ids[i], now)]
      else []
    case AdminDelete(id) => [R.OpUnregister(id)]
    case Expire(now) => [R.OpCleanExpired(now)]
    case _ => []
  }

  function AllCalls(cfg: R.Config, s: State, steps: seq<Step>): seq<R.Op>
    decreases |steps|
  {
    if steps == [] then [] else Calls(s, steps[0]) + AllCalls(cfg, Next(cfg, s, steps[0]), steps[1..])
  }

  lemma StepRunsRegistry(cfg: R.Config, s: State, step: Step)
    ensures Next(cfg, s, step).reg == R.Run(cfg, s.reg, Calls(s, step))
    ensures |Calls(s, step)| <= 1
  {
    if Calls(s, step) != [] {
      var op := Calls(s, step)[0];
      assert Calls(s, step) == [] + [op];
      H.RunSnoc(cfg, s.reg, [], op);
    }
  }

  lemma RunAfterCalls(cfg: R.Config, s: R.State, ops: seq<R.Op>, more: seq<R.Op>)
    requires |ops| <= 1
    ensures R.Run(cfg, s, ops + more) == R.Run(cfg, R.Run(cfg, s, ops), more)
  {
    if ops == [] {
      assert ops + more == more;
    } else {
      assert (ops + more)[1..] == more && ops[1..] == [];
    }
  }

  /** Over any steps the registry does what these calls make it do. */
  lemma {:induction false} RegistryRuns(cfg: R.Config, s: State, steps: seq<Step>)
    ensures Exec(cfg, s, steps).reg == R.Run(cfg, s.reg, AllCalls(cfg, s, steps))
    decreases |steps|
  {
    if steps == [] {
    } else {
      StepRunsRegistry(cfg, s, steps[0]);
      RegistryRuns(cfg, Next(cfg, s, steps[0]), steps[1..]);
      RunAfterCalls(cfg, s.reg, Calls(s, steps[0]), AllCalls(cfg, Next(cfg, s, steps[0]), steps[1..]));
    }
  }

  /**
   In every run a stored tunnel is, field by field, the one a connection last
   asked for under its ID, with the default TTL, and was last heard of at its
   last heartbeat or else when it was registered.
   */
  lemma TunnelsAreAsAskedFor(cfg: R.Config, steps: seq<Step>, id: string)
    requires id in Exec(cfg, INIT, steps).reg.tunnels
    ensures var calls := AllCalls(cfg, INIT, steps);
            var origin := H.Origin(cfg, calls, id);
            && origin.Some?
            && H.Keeps(origin.value, Exec(cfg, INIT, steps).reg.tunnels[id], H.Lifetime(cfg, origin.value),
                       H.LastBeat(cfg, calls, id))
  {
    RegistryRuns(cfg, INIT, steps);
    H.StoredAsRegistered(cfg, AllCalls(cfg, INIT, steps), id);
  }

  // ---------------------------------------------------------------------------
  // Every tunnel is its connection's

  /** The handler asked for this tunnel. */
  predicate AskedBy(h: Handler, t: R.Tunnel) {
    && t.ownerId == h.owner
    && exists i :: 0 <= i < |h.tunnels| && h.tunnels[i].subdomain == t.subdomain
                   && h.tunnels[i].protocol == t.protocol && h.tunnels[i].port == t.targetPort
  }

  predicate Owned(s: State, id: string)
    requires id in s.reg.tunnels
  {
    var t := s.reg.tunnels[id];
    t.connId in s.handlers && AskedBy(s.handlers[t.connId], t) && t.id == id == t.connId + "-" + t.subdomain
  }

  predicate AllOwned(s: State) {
    forall id | id in s.reg.tunnels :: Owned(s, id)
  }

  /** Handlers keep what they were asked for. */
  lemma RequestsStay(cfg: R.Config, s: State, step: Step, c: string)
    requires c in s.handlers && c in Next(cfg, s, step).handlers
    ensures var g, h := s.handlers[c], Next(cfg, s, step).handlers[c];
            g.owner == h.owner && g.tunnels == h.tunnels
  {
  }

  lemma RegistrationIsAskedFor(s: State, step: Step, op: R.Op, t: R.Tunnel, ttl: int, beat: int)
    requires Calls(s, step) == [op] && op.OpRegister? && H.Keeps(op.tunnel, t, ttl, beat)
    ensures t.connId in s.handlers && AskedBy(s.handlers[t.connId], t) && t.id == t.connId + "-" + t.subdomain
  {
    var h := s.handlers[step.conn];
    assert h.tunnels[h.phase.next].subdomain == t.subdomain;
  }

  /** A tunnel that was there has the same fields, but for the heartbeat; a new one is what a handler asked for. */
  lemma TunnelBefore(cfg: R.Config, s: State, step: Step, id: string)
    requires id in Next(cfg, s, step).reg.tunnels
    ensures var t := Next(cfg, s, step).reg.tunnels[id];
            || (id in s.reg.tunnels && H.Keeps(s.reg.tunnels[id], t, s.reg.tunnels[id].ttl, t.lastHeartbeatAt))
            || (t.connId in s.handlers && AskedBy(s.handlers[t.connId], t) && t.id == id == t.connId + "-" + t.subdomain)
  {
    StepRunsRegistry(cfg, s, step);
    if Calls(s, step) != [] {
      var op := Calls(s, step)[0];
      assert Calls(s, step) == [] + [op] == [op];
      H.RunSnoc(cfg, s.reg, [], op);
      H.StoredBefore(cfg, s.reg, op, id);
      if H.Accepts(cfg, s.reg, op, id) {
        RegistrationIsAskedFor(s, step, op, Next(cfg, s, step).reg.tunnels[id], H.Lifetime(cfg, op.tunnel),
                               op.tunnel.lastHeartbeatAt);
      }
    }
  }

  lemma StepKeepsOwned(cfg: R.Config, s: State, step: Step)
    requires Core(cfg, s) && AllOwned(s)
    ensures AllOwned(Next(cfg, s, step))
  {
    StepKeepsCore(cfg, s, step);
    var r := Next(cfg, s, step);
    forall id | id in r.reg.tunnels
      ensures Owned(r, id)
    {
      TunnelBefore(cfg, s, step, id);
      assert Remembered(r, id);
      assert id in s.reg.tunnels ==> Owned(s, id);
      var c := r.reg.tunnels[id].connId;
      RequestsStay(cfg, s, step, c);
    }
  }

  lemma {:induction false} RunKeepsOwned(cfg: R.Config, s: State, steps: seq<Step>)
    requires Core(cfg, s) && AllOwned(s)
    ensures AllOwned(Exec(cfg, s, steps))
    decreases |steps|
  {
    if steps == [] {
    } else {
      StepKeepsCore(cfg, s, steps[0]);
      StepKeepsOwned(cfg, s, steps[0]);
      RunKeepsOwned(cfg, Next(cfg, s, steps[0]), steps[1..]);
    }
  }

  /**
   In every run a stored tunnel belongs to a live connection that asked for it:
   with that subdomain, protocol and port, and for that owner.
   */
  lemma TunnelsAreOwned(cfg: R.Config, steps: seq<Step>, id: string)
    requires id in Exec(cfg, INIT, steps).reg.tunnels
    ensures Owned(Exec(cfg, INIT, steps), id)
  {
    RunKeepsOwned(cfg, INIT, steps);
  }
}
