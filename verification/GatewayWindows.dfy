/**
 When may the admin API and expiry remove a tunnel? A handler works on a tunnel
 in two windows: between its `Register` and its `MapSubdomain`, and between its
 `GetByID` and its `UnmapSubdomain`. Call by call, every registered tunnel stays
 routed to its own connection exactly as long as no tunnel is removed in its window.
 */
module GatewayWindows {
  import opened Results
  import opened TunnelIds
  import opened Gateway
  import opened GatewayLock
  import opened GatewayCalls
  import R = Registry

  // ---------------------------------------------------------------------------
  // Windows

  /** The tunnel that the handler is in the middle of mapping or unmapping. */
  function Window(c: string, h: Handler): Option<string>
    requires |h.ids| <= |h.tunnels| && PhaseOk(h)
  {
    match h.phase
    case Mapping(k) => Some(TunnelId(c, h.tunnels[k].subdomain))
    case Unmapping(j, _) => Some(h.ids[j])
    case _ => None
  }

  predicate WindowOk(s: State, c: string)
    requires c in s.handlers
  {
    var h := s.handlers[c];
    && |h.ids| <= |h.tunnels| && PhaseOk(h)
    && (Window(c, h).Some? ==> Window(c, h).value in s.reg.tunnels)
  }

  predicate RoutedToOwner(s: State, t: R.Tunnel) {
    t.subdomain in s.routes && s.routes[t.subdomain] == t.connId
  }

  /** The tunnel is routed to its own connection, or its handler is just about to map it, or has just unmapped it. */
  predicate Placed(s: State, id: string)
    requires id in s.reg.tunnels
  {
    var t := s.reg.tunnels[id];
    || RoutedToOwner(s, t)
    || (t.connId in s.handlers
        && var h := s.handlers[t.connId];
           match h.phase
           case Mapping(k) => k < |h.tunnels| && h.tunnels[k].subdomain == t.subdomain
           case Unregistering(j) => j < |h.ids| && h.ids[j] == id
           case _ => false)
  }

  predicate AllPlaced(s: State) {
    forall id | id in s.reg.tunnels :: Placed(s, id)
  }

  predicate Sound(cfg: R.Config, s: State) {
    Core(cfg, s) && (forall c | c in s.handlers :: WindowOk(s, c)) && AllPlaced(s)
  }

  /** The subdomain of the tunnel that the handler is in the middle of mapping or unmapping. */
  function WindowSubdomain(h: Handler): string
    requires |h.ids| <= |h.tunnels| && PhaseOk(h)
  {
    match h.phase
    case Mapping(k) => h.tunnels[k].subdomain
    case Unmapping(_, sub) => sub
    case _ => ""
  }

  /** A tunnel in a window is the handler's own. */
  lemma WindowIsOwn(cfg: R.Config, s: State, c: string)
    requires Core(cfg, s) && c in s.handlers && Shape(c, s.handlers[c])
    requires Window(c, s.handlers[c]).Some? && Window(c, s.handlers[c]).value in s.reg.tunnels
    ensures var t := s.reg.tunnels[Window(c, s.handlers[c]).value];
            t.connId == c && t.subdomain == WindowSubdomain(s.handlers[c])
  {
    var h := s.handlers[c];
    var t := s.reg.tunnels[Window(c, h).value];
    assert Shape(t.connId, s.handlers[t.connId]);
    GeneratedDecodable(c, WindowSubdomain(h), t.connId, t.subdomain);
  }

  // ---------------------------------------------------------------------------
  // A handler's calls leave the tunnels of others alone

  /** From `s` to `r`, the tunnels of connections other than `c` stay as they are and stay routed. */
  predicate LeavesOthers(s: State, r: State, c: string) {
    && (forall id | id in s.reg.tunnels && s.reg.tunnels[id].connId != c ::
          && id in r.reg.tunnels && r.reg.tunnels[id] == s.reg.tunnels[id]
          && (RoutedToOwner(s, s.reg.tunnels[id]) ==> RoutedToOwner(r, s.reg.tunnels[id])))
    && (forall id | id in r.reg.tunnels && r.reg.tunnels[id].connId != c ::
          id in s.reg.tunnels && s.reg.tunnels[id] == r.reg.tunnels[id])
  }

  lemma RegisterLeavesOthers(cfg: R.Config, s: State, c: string, at: Reading)
    requires Core(cfg, s) && Enabled(s, Register(c, at))
    ensures LeavesOthers(s, DoRegister(cfg, s, c, at), c)
  {
    if Accepted(cfg, s, c) {
      AcceptedIsFresh(cfg, s, c, at);
    }
  }

  /** Nobody else has a tunnel with the subdomain of a tunnel in a handler's window. */
  lemma WindowIsExclusive(cfg: R.Config, s: State, c: string, id: string)
    requires Core(cfg, s) && c in s.handlers && WindowOk(s, c) && Window(c, s.handlers[c]).Some?
    requires id in s.reg.tunnels && s.reg.tunnels[id].connId != c
    ensures s.reg.tunnels[id].subdomain != WindowSubdomain(s.handlers[c])
  {
    assert Shape(c, s.handlers[c]);
    WindowIsOwn(cfg, s, c);
    var own := Window(c, s.handlers[c]).value;
    if s.reg.tunnels[id].subdomain == s.reg.tunnels[own].subdomain {
      R.SubdomainsDistinct(cfg, s.reg, id, own);
    }
  }

  lemma MapLeavesOthers(cfg: R.Config, s: State, c: string)
    requires Sound(cfg, s) && Enabled(s, Map(c))
    ensures LeavesOthers(s, DoMap(s, c), c)
  {
    forall id | id in s.reg.tunnels && s.reg.tunnels[id].connId != c
      ensures RoutedToOwner(s, s.reg.tunnels[id]) ==> RoutedToOwner(DoMap(s, c), s.reg.tunnels[id])
    {
      WindowIsExclusive(cfg, s, c, id);
    }
  }

  lemma UnmapLeavesOthers(cfg: R.Config, s: State, c: string)
    requires Sound(cfg, s) && Enabled(s, Unmap(c))
    ensures LeavesOthers(s, DoUnmap(s, c), c)
  {
    forall id | id in s.reg.tunnels && s.reg.tunnels[id].connId != c
      ensures RoutedToOwner(s, s.reg.tunnels[id]) ==> RoutedToOwner(DoUnmap(s, c), s.reg.tunnels[id])
    {
      WindowIsExclusive(cfg, s, c, id);
    }
  }

  lemma RemovalLeavesOthers(s: State, r: State, c: string, id: string)
    requires r.routes == s.routes && r.reg.tunnels == s.reg.tunnels - {id}
    requires id in s.reg.tunnels ==> s.reg.tunnels[id].connId == c
    ensures LeavesOthers(s, r, c)
  {
  }

  lemma UnregisterLeavesOthers(cfg: R.Config, s: State, c: string)
    requires Core(cfg, s) && Enabled(s, Unregister(c))
    ensures LeavesOthers(s, DoUnregister(s, c), c)
  {
    var j := s.handlers[c].phase.next;
    var id := s.handlers[c].ids[j];
    if id in s.reg.tunnels {
      FoundIsOwn(cfg, s, c, j);
    }
    assert id !in s.reg.tunnels ==> s.reg.tunnels - {id} == s.reg.tunnels;
    RemovalLeavesOthers(s, DoUnregister(s, c), c, id);
  }

  lemma HeartbeatLeavesOthers(cfg: R.Config, s: State, c: string, i: nat, now: int)
    requires Core(cfg, s) && Enabled(s, Heartbeat(c, i, now))
    ensures LeavesOthers(s, Next(cfg, s, Heartbeat(c, i, now)), c)
  {
    if s.handlers[c].ids[i] in s.reg.tunnels {
      FoundIsOwn(cfg, s, c, i);
    }
  }

  /** The connection whose handler takes the step. */
  function Actor(step: Step): Option<string> {
    match step
    case AdminDelete(_) => None
    case Expire(_) => None
    case _ => Some(step.conn)
  }

  lemma QuietLeavesOthers(cfg: R.Config, s: State, step: Step, c: string)
    requires Actor(step) == Some(c) && Enabled(s, step) && (step.Connect? || step.Disconnect? || step.Check?)
    ensures LeavesOthers(s, Next(cfg, s, step), c)
  {
  }

  lemma CallLeavesOthers(cfg: R.Config, s: State, step: Step, c: string)
    requires Sound(cfg, s) && Actor(step) == Some(c)
    ensures LeavesOthers(s, Next(cfg, s, step), c)
  {
    if Enabled(s, step) {
      match step
      case Register(_, at) => RegisterLeavesOthers(cfg, s, c, at);
      case Map(_) => MapLeavesOthers(cfg, s, c);
      case Unmap(_) => UnmapLeavesOthers(cfg, s, c);
      case Unregister(_) => UnregisterLeavesOthers(cfg, s, c);
      case Heartbeat(_, i, now) => HeartbeatLeavesOthers(cfg, s, c, i, now);
      case _ => QuietLeavesOthers(cfg, s, step, c);
    }
  }

  // ---------------------------------------------------------------------------
  // Every call keeps the tunnels placed

  lemma OtherWindowStays(cfg: R.Config, s: State, r: State, c: string, d: string)
    requires Core(cfg, s) && LeavesOthers(s, r, c) && d != c && d in s.handlers && WindowOk(s, d)
    requires d in r.handlers && r.handlers[d] == s.handlers[d]
    ensures WindowOk(r, d)
  {
    assert Shape(d, s.handlers[d]);
    if Window(d, s.handlers[d]).Some? {
      WindowIsOwn(cfg, s, d);
    }
  }

  lemma OtherStaysPlaced(s: State, r: State, c: string, id: string)
    requires LeavesOthers(s, r, c) && id in s.reg.tunnels && s.reg.tunnels[id].connId != c && Placed(s, id)
    requires var d := s.reg.tunnels[id].connId;
             d in s.handlers ==> d in r.handlers && r.handlers[d] == s.handlers[d]
    ensures Placed(r, id)
  {
  }

  lemma WindowsStay(cfg: R.Config, s: State, c: string, r: State)
    requires Core(cfg, s) && (forall d | d in s.handlers :: WindowOk(s, d)) && LeavesOthers(s, r, c)
    requires c in s.handlers && c in r.handlers && r.handlers == s.handlers[c := r.handlers[c]] && WindowOk(r, c)
    ensures forall d | d in r.handlers :: WindowOk(r, d)
  {
    forall d | d in r.handlers
      ensures WindowOk(r, d)
    {
      if d != c {
        OtherWindowStays(cfg, s, r, c, d);
      }
    }
  }

  lemma StayPlaced(s: State, c: string, r: State)
    requires AllPlaced(s) && LeavesOthers(s, r, c) && c in r.handlers && r.handlers == s.handlers[c := r.handlers[c]]
    requires forall id | id in r.reg.tunnels && r.reg.tunnels[id].connId == c :: Placed(r, id)
    ensures AllPlaced(r)
  {
    forall id | id in r.reg.tunnels && r.reg.tunnels[id].connId != c
      ensures Placed(r, id)
    {
      OtherStaysPlaced(s, r, c, id);
    }
  }

  /** A call of handler `c` keeps the invariant if it leaves others alone and its own tunnels placed. */
  lemma SoundFromOwnChange(cfg: R.Config, s: State, c: string, r: State)
    requires Sound(cfg, s) && Core(cfg, r) && LeavesOthers(s, r, c)
    requires c in s.handlers && c in r.handlers && r.handlers == s.handlers[c := r.handlers[c]]
    requires WindowOk(r, c) && (forall id | id in r.reg.tunnels && r.reg.tunnels[id].connId == c :: Placed(r, id))
    ensures Sound(cfg, r)
  {
    WindowsStay(cfg, s, c, r);
    StayPlaced(s, c, r);
  }

  lemma RegisterPlaces(cfg: R.Config, s: State, c: string, at: Reading, id: string)
    requires Enabled(s, Register(c, at)) && id in s.reg.tunnels && s.reg.tunnels[id].connId == c && Placed(s, id)
    requires Accepted(cfg, s, c) ==> id != TunnelId(c, s.handlers[c].tunnels[s.handlers[c].phase.next].subdomain)
    ensures id in DoRegister(cfg, s, c, at).reg.tunnels && Placed(DoRegister(cfg, s, c, at), id)
  {
  }

  lemma RegisterKeepsSound(cfg: R.Config, s: State, c: string, at: Reading)
    requires Sound(cfg, s) && Enabled(s, Register(c, at))
    ensures Sound(cfg, DoRegister(cfg, s, c, at))
  {
    var r := DoRegister(cfg, s, c, at);
    RegisterStepKeepsCore(cfg, s, c, at);
    RegisterLeavesOthers(cfg, s, c, at);
    assert Shape(c, r.handlers[c]);
    if Accepted(cfg, s, c) {
      AcceptedIsFresh(cfg, s, c, at);
    }
    forall id | id in r.reg.tunnels && r.reg.tunnels[id].connId == c
      ensures Placed(r, id)
    {
      if id in s.reg.tunnels {
        RegisterPlaces(cfg, s, c, at, id);
      }
    }
    SoundFromOwnChange(cfg, s, c, r);
  }

  lemma MapPlaces(s: State, c: string, id: string)
    requires Enabled(s, Map(c)) && id in s.reg.tunnels && s.reg.tunnels[id].connId == c && Placed(s, id)
    ensures Placed(DoMap(s, c), id)
  {
  }

  lemma MapKeepsSound(cfg: R.Config, s: State, c: string)
    requires Sound(cfg, s) && Enabled(s, Map(c))
    ensures Sound(cfg, DoMap(s, c))
  {
    var r := DoMap(s, c);
    MapKeepsCore(cfg, s, c);
    MapLeavesOthers(cfg, s, c);
    assert Shape(c, r.handlers[c]);
    forall id | id in r.reg.tunnels && r.reg.tunnels[id].connId == c
      ensures Placed(r, id)
    {
      MapPlaces(s, c, id);
    }
    SoundFromOwnChange(cfg, s, c, r);
  }

  lemma MoveKeepsSound(cfg: R.Config, s: State, c: string, f: Phase)
    requires Sound(cfg, s) && c in s.handlers && Core(cfg, SetPhase(s, c, f))
    requires !s.handlers[c].phase.Mapping? && !s.handlers[c].phase.Unregistering?
    requires WindowOk(SetPhase(s, c, f), c)
    ensures Sound(cfg, SetPhase(s, c, f))
  {
    var r := SetPhase(s, c, f);
    forall id | id in r.reg.tunnels && r.reg.tunnels[id].connId == c
      ensures Placed(r, id)
    {
      assert Placed(s, id);
    }
    SoundFromOwnChange(cfg, s, c, r);
  }

  lemma LeaveKeepsSound(cfg: R.Config, s: State, c: string)
    requires Sound(cfg, s) && c in s.handlers && s.handlers[c].phase == Checking(|s.handlers[c].ids|)
    ensures Sound(cfg, DoCheck(s, c))
  {
    var r := DoCheck(s, c);
    LeaveKeepsCore(cfg, s, c);
    forall d | d in r.handlers
      ensures WindowOk(r, d)
    {
      assert WindowOk(s, d);
    }
    forall id | id in r.reg.tunnels
      ensures Placed(r, id)
    {
      assert Placed(s, id);
    }
  }

  lemma CheckKeepsSound(cfg: R.Config, s: State, c: string)
    requires Sound(cfg, s) && Enabled(s, Check(c))
    ensures Sound(cfg, DoCheck(s, c))
  {
    var h := s.handlers[c];
    assert Shape(c, h);
    CheckKeepsCore(cfg, s, c);
    if h.phase.next >= |h.ids| {
      LeaveKeepsSound(cfg, s, c);
    } else {
      var f := DoCheck(s, c).handlers[c].phase;
      assert DoCheck(s, c) == SetPhase(s, c, f) && Shape(c, DoCheck(s, c).handlers[c]);
      MoveKeepsSound(cfg, s, c, f);
    }
  }

  lemma UnmapPlaces(s: State, c: string, id: string)
    requires Enabled(s, Unmap(c)) && s.handlers[c].phase.next < |s.handlers[c].ids|
    requires id in s.reg.tunnels && s.reg.tunnels[id].connId == c && Placed(s, id)
    requires s.reg.tunnels[id].subdomain == s.handlers[c].phase.subdomain ==> id == s.handlers[c].ids[s.handlers[c].phase.next]
    ensures Placed(DoUnmap(s, c), id)
  {
  }

  lemma SameSubdomainSameTunnel(cfg: R.Config, s: State, c: string, id: string)
    requires Core(cfg, s) && c in s.handlers && WindowOk(s, c) && Window(c, s.handlers[c]).Some? && id in s.reg.tunnels
    ensures s.reg.tunnels[id].subdomain == WindowSubdomain(s.handlers[c]) ==> id == Window(c, s.handlers[c]).value
  {
    assert Shape(c, s.handlers[c]);
    WindowIsOwn(cfg, s, c);
    if s.reg.tunnels[id].subdomain == WindowSubdomain(s.handlers[c]) {
      R.SubdomainsDistinct(cfg, s.reg, id, Window(c, s.handlers[c]).value);
    }
  }

  lemma UnmapKeepsSound(cfg: R.Config, s: State, c: string)
    requires Sound(cfg, s) && Enabled(s, Unmap(c))
    ensures Sound(cfg, DoUnmap(s, c))
  {
    var r := DoUnmap(s, c);
    UnmapKeepsCore(cfg, s, c);
    UnmapLeavesOthers(cfg, s, c);
    assert Shape(c, s.handlers[c]) && Shape(c, r.handlers[c]);
    forall id | id in r.reg.tunnels && r.reg.tunnels[id].connId == c
      ensures Placed(r, id)
    {
      SameSubdomainSameTunnel(cfg, s, c, id);
      UnmapPlaces(s, c, id);
    }
    SoundFromOwnChange(cfg, s, c, r);
  }

  lemma UnregisterPlaces(s: State, c: string, id: string)
    requires Enabled(s, Unregister(c)) && id in s.reg.tunnels && s.reg.tunnels[id].connId == c && Placed(s, id)
    requires id != s.handlers[c].ids[s.handlers[c].phase.next]
    ensures id in DoUnregister(s, c).reg.tunnels && Placed(DoUnregister(s, c), id)
  {
  }

  lemma UnregisterKeepsSound(cfg: R.Config, s: State, c: string)
    requires Sound(cfg, s) && Enabled(s, Unregister(c))
    ensures Sound(cfg, DoUnregister(s, c))
  {
    var r := DoUnregister(s, c);
    UnregisterKeepsCore(cfg, s, c);
    UnregisterLeavesOthers(cfg, s, c);
    assert Shape(c, r.handlers[c]);
    forall id | id in r.reg.tunnels && r.reg.tunnels[id].connId == c
      ensures Placed(r, id)
    {
      UnregisterPlaces(s, c, id);
    }
    SoundFromOwnChange(cfg, s, c, r);
  }

  lemma ConnectKeepsSound(cfg: R.Config, s: State, c: string, owner: string, tunnels: seq<TunnelConfig>)
    requires Sound(cfg, s) && Generated(c) && c !in s.handlers
    ensures Sound(cfg, DoConnect(s, c, owner, tunnels))
  {
    var r := DoConnect(s, c, owner, tunnels);
    ConnectKeepsCore(cfg, s, c, owner, tunnels);
    forall d | d in r.handlers
      ensures WindowOk(r, d)
    {
      assert d != c ==> WindowOk(s, d);
    }
    forall id | id in r.reg.tunnels
      ensures Placed(r, id)
    {
      assert Placed(s, id) && Remembered(s, id);
    }
  }

  /** Steps that change nothing but the registry, and take no tunnel out in its window. */
  lemma SoundFromRegistry(cfg: R.Config, s: State, r: State)
    requires Sound(cfg, s) && Core(cfg, r) && r == s.(reg := r.reg, outside := r.outside)
    requires forall c | c in s.handlers :: WindowOk(r, c)
    requires forall id | id in r.reg.tunnels ::
               && id in s.reg.tunnels && r.reg.tunnels[id].connId == s.reg.tunnels[id].connId
               && r.reg.tunnels[id].subdomain == s.reg.tunnels[id].subdomain
    ensures Sound(cfg, r)
  {
    forall id | id in r.reg.tunnels
      ensures Placed(r, id)
    {
      assert Placed(s, id);
    }
  }

  lemma WindowsSame(s: State, r: State)
    requires r.handlers == s.handlers && r.reg.tunnels.Keys == s.reg.tunnels.Keys
    requires forall c | c in s.handlers :: WindowOk(s, c)
    ensures forall c | c in s.handlers :: WindowOk(r, c)
  {
    forall c | c in s.handlers
      ensures WindowOk(r, c)
    {
      assert WindowOk(s, c);
    }
  }

  lemma HeartbeatTunnels(reg: R.State, id: string, now: int)
    ensures var r := R.WithHeartbeat(reg, id, now);
            && r.tunnels.Keys == reg.tunnels.Keys
            && (forall i | i in r.tunnels ::
                  r.tunnels[i].connId == reg.tunnels[i].connId && r.tunnels[i].subdomain == reg.tunnels[i].subdomain)
  {
  }

  lemma HeartbeatKeepsSound(cfg: R.Config, s: State, c: string, i: nat, now: int)
    requires Sound(cfg, s) && Enabled(s, Heartbeat(c, i, now))
    ensures Sound(cfg, Next(cfg, s, Heartbeat(c, i, now)))
  {
    OutsideKeepsCore(cfg, s, Heartbeat(c, i, now));
    HeartbeatTunnels(s.reg, s.handlers[c].ids[i], now);
    var r := s.(reg := R.WithHeartbeat(s.reg, s.handlers[c].ids[i], now));
    WindowsSame(s, r);
    SoundFromRegistry(cfg, s, r);
  }

  lemma CallKeepsSound(cfg: R.Config, s: State, step: Step)
    requires Sound(cfg, s) && Actor(step).Some?
    ensures Sound(cfg, Next(cfg, s, step))
  {
    if Enabled(s, step) {
      match step
      case Connect(c, owner, tunnels) => ConnectKeepsSound(cfg, s, c, owner, tunnels);
      case Register(c, at) => RegisterKeepsSound(cfg, s, c, at);
      case Map(c) => MapKeepsSound(cfg, s, c);
      case Disconnect(c) =>
        assert Shape(c, s.handlers[c]);
        StepKeepsCore(cfg, s, step);
        assert Shape(c, Next(cfg, s, step).handlers[c]);
        MoveKeepsSound(cfg, s, c, Checking(0));
      case Check(c) => CheckKeepsSound(cfg, s, c);
      case Unmap(c) => UnmapKeepsSound(cfg, s, c);
      case Unregister(c) => UnregisterKeepsSound(cfg, s, c);
      case Heartbeat(c, i, now) => HeartbeatKeepsSound(cfg, s, c, i, now);
    }
  }

  // ---------------------------------------------------------------------------
  // Removals outside the windows

  /** The tunnels that a step removes from outside the handlers. */
  function Removed(s: State, step: Step): set<string> {
    match step
    case AdminDelete(id) => if id in s.reg.tunnels then {id} else {}
    case Expire(now) => R.ExpiredIds(s.reg, now)
    case _ => {}
  }

  /** The step removes no tunnel that a handler is in the middle of mapping or unmapping. */
  predicate Guarded(s: State, step: Step) {
    forall c | c in s.handlers && |s.handlers[c].ids| <= |s.handlers[c].tunnels| && PhaseOk(s.handlers[c])
               && Window(c, s.handlers[c]).Some? ::
      Window(c, s.handlers[c]).value !in Removed(s, step)
  }

  lemma GuardedKeepsSound(cfg: R.Config, s: State, step: Step)
    requires Sound(cfg, s) && Actor(step).None? && Guarded(s, step)
    ensures Sound(cfg, Next(cfg, s, step))
  {
    var r := Next(cfg, s, step);
    OutsideKeepsCore(cfg, s, step);
    forall c | c in s.handlers
      ensures WindowOk(r, c)
    {
      assert WindowOk(s, c);
    }
    SoundFromRegistry(cfg, s, r);
  }

  /** No step of the run removes a tunnel in its window. */
  predicate GuardedRun(cfg: R.Config, s: State, steps: seq<Step>)
    decreases |steps|
  {
    steps == [] || (Guarded(s, steps[0]) && GuardedRun(cfg, Next(cfg, s, steps[0]), steps[1..]))
  }

  lemma {:induction false} HandlersAreGuarded(cfg: R.Config, s: State, steps: seq<Step>)
    requires HandlersOnly(steps)
    ensures GuardedRun(cfg, s, steps)
    decreases |steps|
  {
    if steps == [] {
    } else {
      HandlersAreGuarded(cfg, Next(cfg, s, steps[0]), steps[1..]);
    }
  }

  lemma {:induction false} GuardedRunKeepsSound(cfg: R.Config, s: State, steps: seq<Step>)
    requires Sound(cfg, s) && GuardedRun(cfg, s, steps)
    ensures Sound(cfg, Exec(cfg, s, steps))
    decreases |steps|
  {
    if steps == [] {
    } else {
      if Actor(steps[0]).Some? {
        CallKeepsSound(cfg, s, steps[0]);
      } else {
        GuardedKeepsSound(cfg, s, steps[0]);
      }
      GuardedRunKeepsSound(cfg, Next(cfg, s, steps[0]), steps[1..]);
    }
  }

  predicate Serves(s: State, c: string) {
    c in s.handlers && s.handlers[c].phase.Serving?
  }

  /**
   In every run, call by call, with deletes and expiry outside the windows: a
   registered tunnel is routed to its own live connection, or its handler is
   just about to map it or has just unmapped it.
   */
  lemma TunnelsStayRouted(cfg: R.Config, steps: seq<Step>, id: string)
    requires GuardedRun(cfg, INIT, steps) && id in Exec(cfg, INIT, steps).reg.tunnels
    ensures var s := Exec(cfg, INIT, steps);
            && Placed(s, id) && s.reg.tunnels[id].connId in s.connections
            && (Serves(s, s.reg.tunnels[id].connId) ==> RoutedToOwner(s, s.reg.tunnels[id]))
  {
    GuardedRunKeepsSound(cfg, INIT, steps);
    assert Placed(Exec(cfg, INIT, steps), id);
  }

  /**
   And no call of a handler, a former owner of the subdomain included, changes
   or unroutes the tunnel of another connection.
   */
  lemma FormerOwnerLeavesOthersAlone(cfg: R.Config, steps: seq<Step>, step: Step, c: string, id: string)
    requires GuardedRun(cfg, INIT, steps) && Actor(step) == Some(c)
    requires var s := Exec(cfg, INIT, steps);
             id in s.reg.tunnels && s.reg.tunnels[id].connId != c
    ensures var s := Exec(cfg, INIT, steps);
            var r := Next(cfg, s, step);
            && id in r.reg.tunnels && r.reg.tunnels[id] == s.reg.tunnels[id]
            && (RoutedToOwner(s, s.reg.tunnels[id]) ==> RoutedToOwner(r, s.reg.tunnels[id]))
  {
    GuardedRunKeepsSound(cfg, INIT, steps);
    CallLeavesOthers(cfg, Exec(cfg, INIT, steps), step, c);
  }
}
