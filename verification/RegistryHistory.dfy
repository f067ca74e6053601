/**
 What the registry stores, told from its history: a stored tunnel is the one
 last registered under its ID, field by field, with the default TTL if it came
 without one and with the time of its last heartbeat, or else of its
 registration; and it expires when that is longer ago than its TTL.
 */
module RegistryHistory {
  import opened Results
  import opened Registry

  // ---------------------------------------------------------------------------
  // History

  lemma {:induction false} RunSnoc(cfg: Config, s: State, ops: seq<Op>, op: Op)
    ensures Run(cfg, s, ops + [op]) == Do(cfg, Run(cfg, s, ops), op)
    decreases |ops|
  {
    if ops == [] {
      assert [op][1..] == [];
    } else {
      assert (ops + [op])[1..] == ops[1..] + [op];
      RunSnoc(cfg, Do(cfg, s, ops[0]), ops[1..], op);
    }
  }

  /** The operation registers a tunnel under this ID: its subdomain is free, not reserved and not too long. */
  predicate Accepts(cfg: Config, s: State, op: Op, id: string) {
    && op.OpRegister? && op.tunnel.id == id
    && op.tunnel.subdomain !in cfg.reserved && op.tunnel.subdomain !in s.index
    && (cfg.maxSubdomainLength > 0 ==> |op.tunnel.subdomain| <= cfg.maxSubdomainLength)
  }

  /** Why a subdomain is refused: reserved before too long before taken. */
  lemma RefusedIff(cfg: Config, s: State, subdomain: string)
    ensures var err := RegisterError(cfg, s, subdomain);
            var long := cfg.maxSubdomainLength > 0 && |subdomain| > cfg.maxSubdomainLength;
            && (err == Some(SubdomainReserved) <==> subdomain in cfg.reserved)
            && (err == Some(SubdomainTooLong) <==> subdomain !in cfg.reserved && long)
            && (err == Some(SubdomainTaken) <==> subdomain !in cfg.reserved && !long && subdomain in s.index)
            && (err.None? <==> subdomain !in cfg.reserved && !long && subdomain !in s.index)
  {
  }

  /** A registration changes the registry exactly when it is accepted, and its subdomain then leads to its ID. */
  lemma RegistersIff(cfg: Config, s: State, t: Tunnel)
    ensures var r := Do(cfg, s, OpRegister(t));
            && (r != s <==> Accepts(cfg, s, OpRegister(t), t.id))
            && (r != s ==> t.id in r.tunnels && r.tunnels.Keys == s.tunnels.Keys + {t.id}
                           && r.index == s.index[t.subdomain := t.id])
  {
    var r := Do(cfg, s, OpRegister(t));
    assert Accepts(cfg, s, OpRegister(t), t.id) ==> t.subdomain in r.index && t.subdomain !in s.index;
  }

  /** The tunnel last registered under this ID. */
  function Origin(cfg: Config, ops: seq<Op>, id: string): Option<Tunnel>
    decreases |ops|
  {
    if ops == [] then None
    else
      var front, op := ops[..|ops| - 1], ops[|ops| - 1];
      if Accepts(cfg, Run(cfg, EMPTY, front), op, id) then Some(op.tunnel) else Origin(cfg, front, id)
  }

  /** When it was last heard of: at its last heartbeat, or else as it was registered. */
  function LastBeat(cfg: Config, ops: seq<Op>, id: string): int
    decreases |ops|
  {
    if ops == [] then 0
    else
      var front, op := ops[..|ops| - 1], ops[|ops| - 1];
      if op.OpHeartbeat? && op.id == id then op.now
      else if Accepts(cfg, Run(cfg, EMPTY, front), op, id) then op.tunnel.lastHeartbeatAt
      else LastBeat(cfg, front, id)
  }

  /** Its TTL in seconds: its own, or else the registry's. */
  function Lifetime(cfg: Config, t: Tunnel): int {
    if t.ttl == 0 then cfg.defaultTTL else t.ttl
  }

  /** Tunnel `t` is what was registered, with this lifetime, and was last heard of then. */
  predicate Keeps(registered: Tunnel, t: Tunnel, ttl: int, beat: int) {
    && t.id == registered.id && t.ownerId == registered.ownerId && t.connId == registered.connId
    && t.subdomain == registered.subdomain && t.protocol == registered.protocol
    && t.targetPort == registered.targetPort && t.createdAt == registered.createdAt
    && t.bandwidthLimit == registered.bandwidthLimit && t.ttl == ttl && t.lastHeartbeatAt == beat
  }

  /** What is stored under the ID after the operations is what their history says. */
  predicate AsTold(cfg: Config, ops: seq<Op>, id: string) {
    id in Run(cfg, EMPTY, ops).tunnels ==>
      var origin := Origin(cfg, ops, id);
      && origin.Some?
      && Keeps(origin.value, Run(cfg, EMPTY, ops).tunnels[id], Lifetime(cfg, origin.value), LastBeat(cfg, ops, id))
  }

  /** What is stored is what was registered now, or else was there before, the same but for the heartbeat. */
  lemma StoredBefore(cfg: Config, s: State, op: Op, id: string)
    requires id in Do(cfg, s, op).tunnels
    ensures var t := Do(cfg, s, op).tunnels[id];
            if Accepts(cfg, s, op, id) then
              Keeps(op.tunnel, t, Lifetime(cfg, op.tunnel), op.tunnel.lastHeartbeatAt)
            else
              id in s.tunnels && Keeps(s.tunnels[id], t, s.tunnels[id].ttl,
                                       if op.OpHeartbeat? && op.id == id then op.now else s.tunnels[id].lastHeartbeatAt)
  {
  }

  lemma HistorySnoc(cfg: Config, ops: seq<Op>, op: Op, id: string)
    ensures var s, more := Run(cfg, EMPTY, ops), ops + [op];
            && Run(cfg, EMPTY, more) == Do(cfg, s, op)
            && Origin(cfg, more, id) == (if Accepts(cfg, s, op, id) then Some(op.tunnel) else Origin(cfg, ops, id))
            && LastBeat(cfg, more, id) == (if op.OpHeartbeat? && op.id == id then op.now
                                           else if Accepts(cfg, s, op, id) then op.tunnel.lastHeartbeatAt
                                           else LastBeat(cfg, ops, id))
  {
    assert (ops + [op])[..|ops|] == ops;
    RunSnoc(cfg, EMPTY, ops, op);
  }

  lemma OneMoreAsTold(cfg: Config, ops: seq<Op>, op: Op, id: string)
    requires AsTold(cfg, ops, id)
    ensures AsTold(cfg, ops + [op], id)
  {
    var s := Run(cfg, EMPTY, ops);
    HistorySnoc(cfg, ops, op, id);
    if id in Do(cfg, s, op).tunnels {
      StoredBefore(cfg, s, op, id);
    }
  }

  /**
   After any operations, a stored tunnel is the one last registered under its
   ID, in every field, but for a TTL of 0, which is the registry's default
   instead, and the time it was last heard of, which is that of its last
   heartbeat.
   */
  lemma {:induction false} StoredAsRegistered(cfg: Config, ops: seq<Op>, id: string)
    ensures AsTold(cfg, ops, id)
    decreases |ops|
  {
    if ops == [] {
    } else {
      var front := ops[..|ops| - 1];
      StoredAsRegistered(cfg, front, id);
      OneMoreAsTold(cfg, front, ops[|ops| - 1], id);
      assert front + [ops[|ops| - 1]] == ops;
    }
  }

  // ---------------------------------------------------------------------------
  // Expiry

  const MAX_TTL := 9_223_372_036

  /** Longer ago than the TTL in seconds, if there is one. */
  predicate Overdue(ttl: int, beat: int, now: int) {
    ttl > 0 && now - beat > ttl * 1_000_000_000
  }

  lemma ExpiredIffOverdue(t: Tunnel, now: int)
    requires t.ttl <= MAX_TTL
    ensures Expired(t, now) <==> Overdue(t.ttl, t.lastHeartbeatAt, now)
  {
    if t.ttl > 0 {
      WrapFits(t.ttl * SECOND);
    }
  }

  /** A tunnel leaves the registry exactly when it is unregistered, or when expiry finds it overdue. */
  lemma LeavesIff(cfg: Config, s: State, op: Op, id: string)
    requires id in s.tunnels && s.tunnels[id].ttl <= MAX_TTL
    ensures id !in Do(cfg, s, op).tunnels
            <==> || op == OpUnregister(id)
                 || (op.OpCleanExpired? && Overdue(s.tunnels[id].ttl, s.tunnels[id].lastHeartbeatAt, op.now))
  {
    if op.OpCleanExpired? {
      ExpiredIffOverdue(s.tunnels[id], op.now);
    }
  }

  /**
   After any operations, expiry keeps a stored tunnel if and only if it was
   registered without a lifetime, or its last heartbeat, or else its
   registration, is no longer ago than its lifetime.
   */
  lemma SurvivesIff(cfg: Config, ops: seq<Op>, id: string, now: int)
    requires id in Run(cfg, EMPTY, ops).tunnels
    ensures Origin(cfg, ops, id).Some?
    ensures var ttl := Lifetime(cfg, Origin(cfg, ops, id).value);
            ttl <= MAX_TTL ==>
              (id in Run(cfg, EMPTY, ops + [OpCleanExpired(now)]).tunnels
               <==> !Overdue(ttl, LastBeat(cfg, ops, id), now))
  {
    StoredAsRegistered(cfg, ops, id);
    var s := Run(cfg, EMPTY, ops);
    RunSnoc(cfg, EMPTY, ops, OpCleanExpired(now));
    if s.tunnels[id].ttl <= MAX_TTL {
      LeavesIff(cfg, s, OpCleanExpired(now), id);
    }
  }

  /**
   A heartbeat puts the expiry of its own tunnel off until a lifetime later, and
   makes no difference to any other tunnel, or to any other field.
   */
  lemma HeartbeatPutsOff(cfg: Config, s: State, id: string, beat: int, now: int, other: string)
    requires id in s.tunnels && s.tunnels[id].ttl <= MAX_TTL && other != id
    ensures var r := Do(cfg, s, OpHeartbeat(id, beat));
            && (id in Do(cfg, r, OpCleanExpired(now)).tunnels <==> !Overdue(s.tunnels[id].ttl, beat, now))
            && Keeps(s.tunnels[id], r.tunnels[id], s.tunnels[id].ttl, beat)
            && (other in Do(cfg, r, OpCleanExpired(now)).tunnels <==> other in Do(cfg, s, OpCleanExpired(now)).tunnels)
            && (other in s.tunnels <==> other in r.tunnels)
            && (other in s.tunnels ==> r.tunnels[other] == s.tunnels[other]) && r.index == s.index
  {
    var r := Do(cfg, s, OpHeartbeat(id, beat));
    LeavesIff(cfg, r, OpCleanExpired(now), id);
  }
}
