/**
 The in-memory tunnel registry: a map of tunnels by ID and an index from
 subdomain to ID, and what the two have to do with each other.

 Times are nanoseconds.
 */
module Registry {
  import opened Results

  datatype Error = SubdomainReserved | SubdomainTaken | SubdomainTooLong | TunnelNotFound

  datatype Tunnel = Tunnel(id: string, ownerId: string, subdomain: string, protocol: string, targetPort: int,
                           createdAt: int, lastHeartbeatAt: int, connId: string, ttl: int, bandwidthLimit: int)

  datatype Config = Config(reserved: set<string>, maxSubdomainLength: int, defaultTTL: int)

  datatype State = State(tunnels: map<string, Tunnel>, index: map<string, string>)

  const EMPTY := State(map[], map[])

  // ---------------------------------------------------------------------------
  // Expiry in 64-bit durations

  const TWO63: int := 0x8000_0000_0000_0000
  const SECOND: int := 1_000_000_000

  /** What an int64 multiplication leaves of the product `x`. */
  function Wrap64(x: int): int {
    (x + 0x8000_0000_0000_0000) % 0x1_0000_0000_0000_0000 - 0x8000_0000_0000_0000
  }

  /** `time.Time.Sub` saturates. */
  function Saturate64(x: int): int {
    if x >= TWO63 then TWO63 - 1 else if x < -TWO63 then -TWO63 else x
  }

  predicate Expired(t: Tunnel, now: int) {
    t.ttl > 0 && Saturate64(now - t.lastHeartbeatAt) > Wrap64(t.ttl * SECOND)
  }

  lemma WrapFits(x: int)
    requires -TWO63 <= x < TWO63
    ensures Wrap64(x) == x
  {
  }

  lemma WrapOfEven(half: int)
    ensures Wrap64(2 * half) < TWO63 - 1
  {
    var turns := (2 * half + TWO63) / (2 * TWO63);
    assert Wrap64(2 * half) == 2 * (half - turns * TWO63);
  }

  /** A tunnel expires when its heartbeat is older than its TTL: for every age that fits, exactly up to 9223372036 s. */
  lemma ExpiryMeansAgeIff(t: Tunnel)
    requires t.ttl > 0
    ensures (forall now | -TWO63 <= now - t.lastHeartbeatAt < TWO63 ::
               Expired(t, now) <==> now - t.lastHeartbeatAt > t.ttl * SECOND)
            <==> t.ttl <= 9_223_372_036
  {
    if t.ttl <= 9_223_372_036 {
      WrapFits(t.ttl * SECOND);
    } else {
      var now := t.lastHeartbeatAt + TWO63 - 1;
      WrapOfEven(t.ttl * 500_000_000);
      assert Expired(t, now) && !(now - t.lastHeartbeatAt > t.ttl * SECOND);
    }
  }

  // ---------------------------------------------------------------------------
  // Operations

  function RegisterError(cfg: Config, s: State, subdomain: string): Option<Error> {
    if subdomain in cfg.reserved then Some(SubdomainReserved)
    else if cfg.maxSubdomainLength > 0 && |subdomain| > cfg.maxSubdomainLength then Some(SubdomainTooLong)
    else if subdomain in s.index then Some(SubdomainTaken)
    else None
  }

  function WithTTL(cfg: Config, t: Tunnel): Tunnel {
    if t.ttl == 0 then t.(ttl := cfg.defaultTTL) else t
  }

  /** `Register`; note that an existing tunnel with the same ID is overwritten. */
  function Registered(cfg: Config, s: State, t: Tunnel): State {
    if RegisterError(cfg, s, t.subdomain).Some? then s
    else State(s.tunnels[t.id := WithTTL(cfg, t)], s.index[t.subdomain := t.id])
  }

  function Unregistered(s: State, id: string): State {
    if id !in s.tunnels then s
    else State(s.tunnels - {id}, s.index - {s.tunnels[id].subdomain})
  }

  /** `GetBySubdomain`; `Ok(None)` is Go's nil tunnel with a nil error. */
  function GetBySubdomain(s: State, subdomain: string): Result<Option<Tunnel>, Error> {
    if subdomain !in s.index then Err(TunnelNotFound)
    else if s.index[subdomain] !in s.tunnels then Ok(None)
    else Ok(Some(s.tunnels[s.index[subdomain]]))
  }

  function WithHeartbeat(s: State, id: string, now: int): State {
    if id !in s.tunnels then s
    else s.(tunnels := s.tunnels[id := s.tunnels[id].(lastHeartbeatAt := now)])
  }

  function ExpiredIds(s: State, now: int): set<string> {
    set id | id in s.tunnels && Expired(s.tunnels[id], now)
  }

  function SubdomainsOf(s: State, ids: set<string>): set<string>
    requires ids <= s.tunnels.Keys
  {
    set id | id in ids :: s.tunnels[id].subdomain
  }

  /** The given tunnels and their subdomains deleted from the two maps. */
  function Without(s: State, ids: set<string>): State
    requires ids <= s.tunnels.Keys
  {
    State(s.tunnels - ids, s.index - SubdomainsOf(s, ids))
  }

  function Cleaned(s: State, now: int): State {
    Without(s, ExpiredIds(s, now))
  }

  lemma WithoutOneMore(s: State, ids: set<string>, id: string)
    requires ids <= s.tunnels.Keys && id in s.tunnels
    ensures var r := Without(s, ids);
            Without(s, ids + {id}) == State(r.tunnels - {id}, r.index - {s.tunnels[id].subdomain})
  {
    assert SubdomainsOf(s, ids + {id}) == SubdomainsOf(s, ids) + {s.tunnels[id].subdomain};
    assert s.tunnels - (ids + {id}) == s.tunnels - ids - {id};
    var sub := s.tunnels[id].subdomain;
    assert s.index - (SubdomainsOf(s, ids) + {sub}) == s.index - SubdomainsOf(s, ids) - {sub};
  }

  /** The state once the loop of `CleanExpired` has visited all but the entries in `toVisit`. */
  function CleanedOutside(s: State, now: int, toVisit: set<string>): State {
    Without(s, ExpiredIds(s, now) - toVisit)
  }

  lemma RemoveShrinks<K, V>(m: map<K, V>, keys: set<K>)
    requires keys <= m.Keys
    ensures |m - keys| == |m| - |keys|
  {
    assert (m - keys).Keys == m.Keys - keys;
    assert |m.Keys - keys| == |m.Keys| - |keys|;
    assert |m - keys| == |(m - keys).Keys|;
  }

  lemma RemoveOneShrinks<K, V>(m: map<K, V>, key: K)
    requires key in m
    ensures |m - {key}| == |m| - 1
  {
    RemoveShrinks(m, {key});
  }

  /** Expiry removes as many tunnels as have expired and leaves the others as they are. */
  lemma CleanedCounts(s: State, now: int)
    ensures |Cleaned(s, now).tunnels| == |s.tunnels| - |ExpiredIds(s, now)|
    ensures forall id | id in Cleaned(s, now).tunnels :: id in s.tunnels && Cleaned(s, now).tunnels[id] == s.tunnels[id]
  {
    RemoveShrinks(s.tunnels, ExpiredIds(s, now));
  }

  lemma CleanStart(s: State, now: int)
    ensures CleanedOutside(s, now, s.tunnels.Keys) == s
  {
    assert ExpiredIds(s, now) - s.tunnels.Keys == {};
    assert SubdomainsOf(s, {}) == {};
    assert s.tunnels - {} == s.tunnels && s.index - {} == s.index;
  }

  lemma CleanEnd(s: State, now: int)
    ensures CleanedOutside(s, now, {}) == Cleaned(s, now)
  {
    assert ExpiredIds(s, now) - {} == ExpiredIds(s, now);
  }

  /** What visiting one more entry does. */
  lemma CleanVisit(s: State, now: int, toVisit: set<string>, id: string)
    requires id in toVisit && toVisit <= s.tunnels.Keys
    ensures var before, after := CleanedOutside(s, now, toVisit), CleanedOutside(s, now, toVisit - {id});
            && id in before.tunnels && before.tunnels[id] == s.tunnels[id]
            && (if Expired(s.tunnels[id], now)
                then after == State(before.tunnels - {id}, before.index - {s.tunnels[id].subdomain})
                else after == before)
  {
    var gone, more := ExpiredIds(s, now) - toVisit, ExpiredIds(s, now) - (toVisit - {id});
    if Expired(s.tunnels[id], now) {
      assert more == gone + {id};
      WithoutOneMore(s, gone, id);
    } else {
      assert more == gone;
    }
  }

  // ---------------------------------------------------------------------------
  // Agreement of the two maps

  /** Every stored tunnel is indexed under its own ID and its subdomain was acceptable. */
  predicate Indexed(cfg: Config, s: State) {
    forall id | id in s.tunnels ::
      var t := s.tunnels[id];
      && t.id == id && t.subdomain in s.index && s.index[t.subdomain] == id
      && t.subdomain !in cfg.reserved
      && (cfg.maxSubdomainLength > 0 ==> |t.subdomain| <= cfg.maxSubdomainLength)
  }

  /** The index entry is not the subdomain of the tunnel it leads to. */
  predicate Stale(s: State, subdomain: string) {
    && subdomain in s.index
    && (s.index[subdomain] in s.tunnels ==> s.tunnels[s.index[subdomain]].subdomain != subdomain)
  }

  /** Every index entry leads to a tunnel with that subdomain. */
  predicate Exact(s: State) {
    forall subdomain | subdomain in s.index :: !Stale(s, subdomain)
  }

  // ---------------------------------------------------------------------------
  // Runs

  datatype Op = OpRegister(tunnel: Tunnel) | OpUnregister(id: string) | OpHeartbeat(id: string, now: int)
              | OpCleanExpired(now: int)

  function Do(cfg: Config, s: State, op: Op): State {
    match op
    case OpRegister(t) => Registered(cfg, s, t)
    case OpUnregister(id) => Unregistered(s, id)
    case OpHeartbeat(id, now) => WithHeartbeat(s, id, now)
    case OpCleanExpired(now) => Cleaned(s, now)
  }

  function Run(cfg: Config, s: State, ops: seq<Op>): State
    decreases |ops|
  {
    if ops == [] then s else Run(cfg, Do(cfg, s, ops[0]), ops[1..])
  }

  /** The operation does not register a tunnel under an ID that is in use. */
  predicate Fresh(cfg: Config, s: State, op: Op) {
    op.OpRegister? && RegisterError(cfg, s, op.tunnel.subdomain).None? ==> op.tunnel.id !in s.tunnels
  }

  predicate AllFresh(cfg: Config, s: State, ops: seq<Op>)
    decreases |ops|
  {
    ops == [] || (Fresh(cfg, s, ops[0]) && AllFresh(cfg, Do(cfg, s, ops[0]), ops[1..]))
  }

  lemma OpKeepsIndexed(cfg: Config, s: State, op: Op)
    requires Indexed(cfg, s)
    ensures Indexed(cfg, Do(cfg, s, op))
  {
    if op.OpCleanExpired? {
      var gone := ExpiredIds(s, op.now);
      forall id | id in s.tunnels && id !in gone
        ensures s.tunnels[id].subdomain !in SubdomainsOf(s, gone)
      {
      }
    }
  }

  /** An operation keeps the index exact if and only if it does not reuse an ID. */
  lemma OpKeepsExactIffFresh(cfg: Config, s: State, op: Op)
    requires Indexed(cfg, s) && Exact(s)
    ensures Exact(Do(cfg, s, op)) <==> Fresh(cfg, s, op)
  {
    var r := Do(cfg, s, op);
    if !Fresh(cfg, s, op) {
      assert Stale(r, s.tunnels[op.tunnel.id].subdomain);
    } else {
      forall sub | sub in r.index
        ensures !Stale(r, sub)
      {
        assert sub in s.index ==> !Stale(s, sub);
      }
    }
  }

  /** No operation ever gets rid of a stale entry: its subdomain is lost for good. */
  lemma StaleStays(cfg: Config, s: State, op: Op, subdomain: string)
    requires Indexed(cfg, s) && Stale(s, subdomain)
    ensures Stale(Do(cfg, s, op), subdomain)
    ensures RegisterError(cfg, Do(cfg, s, op), subdomain).Some?
  {
  }

  lemma {:induction false} RunKeepsStale(cfg: Config, s: State, ops: seq<Op>, subdomain: string)
    requires Indexed(cfg, s) && Stale(s, subdomain)
    ensures Stale(Run(cfg, s, ops), subdomain)
    decreases |ops|
  {
    if ops == [] {
    } else {
      StaleStays(cfg, s, ops[0], subdomain);
      OpKeepsIndexed(cfg, s, ops[0]);
      RunKeepsStale(cfg, Do(cfg, s, ops[0]), ops[1..], subdomain);
    }
  }

  lemma {:induction false} RunKeepsIndexed(cfg: Config, s: State, ops: seq<Op>)
    requires Indexed(cfg, s)
    ensures Indexed(cfg, Run(cfg, s, ops))
    decreases |ops|
  {
    if ops == [] {
    } else {
      OpKeepsIndexed(cfg, s, ops[0]);
      RunKeepsIndexed(cfg, Do(cfg, s, ops[0]), ops[1..]);
    }
  }

  /**
   Over every sequence of operations each stored tunnel is indexed under its
   own ID with an acceptable subdomain, and the index is exact at the end if and
   only if no registration ever reused an ID.
   */
  lemma {:induction false} RunIsExactIffFresh(cfg: Config, s: State, ops: seq<Op>)
    requires Indexed(cfg, s) && Exact(s)
    ensures Indexed(cfg, Run(cfg, s, ops))
    ensures Exact(Run(cfg, s, ops)) <==> AllFresh(cfg, s, ops)
    decreases |ops|
  {
    if ops == [] {
    } else {
      var m := Do(cfg, s, ops[0]);
      OpKeepsIndexed(cfg, s, ops[0]);
      OpKeepsExactIffFresh(cfg, s, ops[0]);
      if Fresh(cfg, s, ops[0]) {
        RunIsExactIffFresh(cfg, m, ops[1..]);
      } else {
        var sub :| sub in m.index && Stale(m, sub);
        RunKeepsIndexed(cfg, m, ops[1..]);
        RunKeepsStale(cfg, m, ops[1..], sub);
      }
    }
  }

  // ---------------------------------------------------------------------------
  // The index as a scan

  /** The tunnels a scan of the whole map finds for a subdomain. */
  function Scan(s: State, subdomain: string): set<Tunnel> {
    set id | id in s.tunnels && s.tunnels[id].subdomain == subdomain :: s.tunnels[id]
  }

  /** Stored tunnels have pairwise distinct subdomains. */
  lemma SubdomainsDistinct(cfg: Config, s: State, a: string, b: string)
    requires Indexed(cfg, s) && a in s.tunnels && b in s.tunnels
    requires s.tunnels[a].subdomain == s.tunnels[b].subdomain
    ensures a == b
  {
  }

  /** After a run without reused IDs, an index lookup is a scan, and never yields a missing tunnel. */
  lemma LookupIsScan(cfg: Config, ops: seq<Op>, subdomain: string)
    requires AllFresh(cfg, EMPTY, ops)
    ensures var s := Run(cfg, EMPTY, ops);
            match GetBySubdomain(s, subdomain)
            case Ok(Some(t)) => Scan(s, subdomain) == {t}
            case Ok(None) => false
            case Err(e) => e == TunnelNotFound && Scan(s, subdomain) == {}
  {
    RunIsExactIffFresh(cfg, EMPTY, ops);
    var s := Run(cfg, EMPTY, ops);
    if subdomain in s.index {
      assert !Stale(s, subdomain);
      assert s.tunnels[s.index[subdomain]] in Scan(s, subdomain);
    }
  }

  /** With a reused ID, a lookup can find the nil tunnel. */
  lemma ReusedIdYieldsMissingTunnel(cfg: Config, t: Tunnel, u: Tunnel)
    requires t.id == u.id && t.subdomain != u.subdomain
    requires RegisterError(cfg, EMPTY, t.subdomain).None? && RegisterError(cfg, EMPTY, u.subdomain).None?
    ensures var s := Run(cfg, EMPTY, [OpRegister(t), OpRegister(u), OpUnregister(t.id)]);
            GetBySubdomain(s, t.subdomain) == Ok(None) && s.tunnels == map[]
  {
    var ops := [OpRegister(t), OpRegister(u), OpUnregister(t.id)];
    var s1 := Registered(cfg, EMPTY, t);
    var s2 := Registered(cfg, s1, u);
    assert Run(cfg, EMPTY, ops) == Run(cfg, s1, ops[1..]) == Run(cfg, s2, ops[1..][1..]);
    assert ops[1..][1..] == [OpUnregister(t.id)];
    assert Run(cfg, s2, [OpUnregister(t.id)]) == Run(cfg, Unregistered(s2, t.id), []);
  }

  // ---------------------------------------------------------------------------
  // Expiry of tunnels

  /** Expiry frees exactly the subdomains of the tunnels it removes, and doing it twice changes nothing. */
  lemma CleanExpiredFreesExactly(cfg: Config, s: State, now: int, subdomain: string)
    requires Indexed(cfg, s) && Exact(s)
    ensures var r := Cleaned(s, now);
            && Indexed(cfg, r) && Exact(r)
            && ExpiredIds(r, now) == {} && Cleaned(r, now) == r
            && (forall id :: id in r.tunnels <==> id in s.tunnels && !Expired(s.tunnels[id], now))
            && (subdomain in s.index ==>
                  (subdomain !in r.index <==> Expired(s.tunnels[s.index[subdomain]], now)))
  {
    OpKeepsIndexed(cfg, s, OpCleanExpired(now));
    OpKeepsExactIffFresh(cfg, s, OpCleanExpired(now));
    var r := Cleaned(s, now);
    assert ExpiredIds(r, now) == {};
    assert r.tunnels - {} == r.tunnels && r.index - {} == r.index;
    assert SubdomainsOf(r, {}) == {};
    if subdomain in s.index {
      assert !Stale(s, subdomain);
    }
  }

  // ---------------------------------------------------------------------------
  // The registry object

  class MemoryRegistry {
    var tunnels: map<string, Tunnel>
    var subdomainIndex: map<string, string>
    const cfg: Config

    function Contents(): State
      reads this
    {
      State(tunnels, subdomainIndex)
    }

    constructor (reservedSubdomains: seq<string>, maxSubdomainLength: int, defaultTTL: int)
      ensures Contents() == EMPTY
      ensures cfg == Config((set s | s in reservedSubdomains), maxSubdomainLength, defaultTTL)
    {
      var reserved: set<string> := {};
      for i := 0 to |reservedSubdomains|
        invariant reserved == set s | s in reservedSubdomains[..i]
      {
        reserved := reserved + {reservedSubdomains[i]};
      }
      assert reservedSubdomains[..|reservedSubdomains|] == reservedSubdomains;
      tunnels := map[];
      subdomainIndex := map[];
      cfg := Config(reserved, maxSubdomainLength, defaultTTL);
    }

    method Register(tunnel: Tunnel) returns (err: Option<Error>)
      modifies this
      ensures err == RegisterError(cfg, old(Contents()), tunnel.subdomain)
      ensures Contents() == Registered(cfg, old(Contents()), tunnel)
    {
      if tunnel.subdomain in cfg.reserved {
        return Some(SubdomainReserved);
      }
      if cfg.maxSubdomainLength > 0 && |tunnel.subdomain| > cfg.maxSubdomainLength {
        return Some(SubdomainTooLong);
      }
      if tunnel.subdomain in subdomainIndex {
        return Some(SubdomainTaken);
      }
      var stored := tunnel;
      if stored.ttl == 0 {
        stored := stored.(ttl := cfg.defaultTTL);
      }
      tunnels := tunnels[tunnel.id := stored];
      subdomainIndex := subdomainIndex[tunnel.subdomain := tunnel.id];
      return None;
    }

    method Unregister(id: string) returns (err: Option<Error>)
      modifies this
      ensures err == if id in old(tunnels) then None else Some(TunnelNotFound)
      ensures Contents() == Unregistered(old(Contents()), id)
    {
      if id !in tunnels {
        return Some(TunnelNotFound);
      }
      subdomainIndex := subdomainIndex - {tunnels[id].subdomain};
      tunnels := tunnels - {id};
      return None;
    }

    method GetByID(id: string) returns (r: Result<Tunnel, Error>)
      ensures r == if id in tunnels then Ok(tunnels[id]) else Err(TunnelNotFound)
    {
      if id !in tunnels {
        return Err(TunnelNotFound);
      }
      return Ok(tunnels[id]);
    }

    method LookUp(subdomain: string) returns (r: Result<Option<Tunnel>, Error>)
      ensures r == GetBySubdomain(Contents(), subdomain)
    {
      if subdomain !in subdomainIndex {
        return Err(TunnelNotFound);
      }
      var id := subdomainIndex[subdomain];
      return Ok(if id in tunnels then Some(tunnels[id]) else None);
    }

    method UpdateHeartbeat(id: string, now: int) returns (err: Option<Error>)
      modifies this
      ensures err == if id in old(tunnels) then None else Some(TunnelNotFound)
      ensures Contents() == WithHeartbeat(old(Contents()), id, now)
    {
      if id !in tunnels {
        return Some(TunnelNotFound);
      }
      tunnels := tunnels[id := tunnels[id].(lastHeartbeatAt := now)];
      return None;
    }

    /** The loop visits the entries in any order and deletes as it goes. */
    method CleanExpired(now: int) returns (count: nat)
      modifies this
      ensures Contents() == Cleaned(old(Contents()), now)
      ensures count == |ExpiredIds(old(Contents()), now)|
    {
      ghost var start := Contents();
      count := 0;
      var toVisit := tunnels.Keys;
      CleanStart(start, now);
      while toVisit != {}
        invariant toVisit <= start.tunnels.Keys
        invariant Contents() == CleanedOutside(start, now, toVisit)
        invariant count + |tunnels| == |start.tunnels|
      {
        var id :| id in toVisit;
        var t := tunnels[id];
        CleanVisit(start, now, toVisit, id);
        toVisit := toVisit - {id};
        if Expired(t, now) {
          subdomainIndex := subdomainIndex - {t.subdomain};
          RemoveOneShrinks(tunnels, id);
          tunnels := tunnels - {id};
          count := count + 1;
        }
      }
      CleanEnd(start, now);
      CleanedCounts(start, now);
    }
  }
}
