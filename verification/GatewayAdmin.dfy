/**
 What an admin delete or an expiry in a handler's window leads to: a run of
 handlers alone after which a served connection is not routed its own subdomain.
 So a removal is safe exactly when it is outside the windows.
 */
module GatewayAdmin {
  import opened TunnelIds
  import opened Gateway
  import opened GatewayLock
  import opened GatewayCalls
  import opened GatewayWindows
  import R = Registry

  // ---------------------------------------------------------------------------
  // Removals inside a window

  lemma {:induction false} LongestOf(live: set<string>) returns (n: nat)
    ensures forall c | c in live :: |c| <= n
    decreases |live|
  {
    if live == {} {
      n := 0;
    } else {
      var c :| c in live;
      var m := LongestOf(live - {c});
      n := if m < |c| then |c| else m;
      assert forall d | d in live :: d == c || d in live - {c};
    }
  }

  /** There is always a connection ID that no live connection has. */
  lemma UnusedConn(live: set<string>) returns (c: string)
    ensures Generated(c) && c !in live
  {
    var n := LongestOf(live);
    var zeros := seq(n + 1, _ => '0');
    c := "conn-" + zeros;
    assert c[..5] == "conn-" && c[5..] == zeros;
  }

  const CLOCK := Reading(0, 0)

  function OneTunnel(sub: string): seq<TunnelConfig> {
    [TunnelConfig("", "http", 80, sub)]
  }

  /** Connection `b` connects, registers and maps one tunnel, and is served. */
  function Takeover(b: string, sub: string): seq<Step> {
    [Connect(b, "", OneTunnel(sub)), Register(b, CLOCK)] + [Map(b), Register(b, CLOCK)]
  }

  /** The handler of a connection that is served with one tunnel. */
  function Server(b: string, sub: string): Handler {
    Handler("", OneTunnel(sub), [TunnelId(b, sub)], Serving)
  }

  lemma TakeoverRegisters(cfg: R.Config, s: State, b: string, sub: string)
    requires Generated(b) && b !in s.handlers && R.RegisterError(cfg, s.reg, sub).None?
    ensures var r := Exec(cfg, s, [Connect(b, "", OneTunnel(sub)), Register(b, CLOCK)]);
            && r.handlers == s.handlers[b := Handler("", OneTunnel(sub), [], Mapping(0))]
            && r.reg == R.Registered(cfg, s.reg, TunnelFor(b, "", OneTunnel(sub)[0], CLOCK))
            && r.routes == s.routes && r.outside == s.outside
  {
    ExecTwo(cfg, s, Connect(b, "", OneTunnel(sub)), Register(b, CLOCK));
    var m := Next(cfg, s, Connect(b, "", OneTunnel(sub)));
    assert m.handlers[b] == Handler("", OneTunnel(sub), [], Registering(0));
  }

  lemma TakeoverServes(cfg: R.Config, s: State, b: string, sub: string)
    requires b in s.handlers && s.handlers[b] == Handler("", OneTunnel(sub), [], Mapping(0))
    ensures Exec(cfg, s, [Map(b), Register(b, CLOCK)])
            == s.(routes := s.routes[sub := b], gauge := s.gauge + 1, handlers := s.handlers[b := Server(b, sub)])
  {
    ExecTwo(cfg, s, Map(b), Register(b, CLOCK));
    var m := Next(cfg, s, Map(b));
    assert [] + [TunnelId(b, sub)] == [TunnelId(b, sub)];
    assert m.handlers[b] == Handler("", OneTunnel(sub), [TunnelId(b, sub)], Registering(1));
  }

  lemma TakeoverRun(cfg: R.Config, s: State, b: string, sub: string)
    requires Generated(b) && b !in s.handlers && R.RegisterError(cfg, s.reg, sub).None?
    ensures var r := Exec(cfg, s, Takeover(b, sub));
            && r.handlers == s.handlers[b := Server(b, sub)] && r.outside == s.outside
            && r.reg == R.Registered(cfg, s.reg, TunnelFor(b, "", OneTunnel(sub)[0], CLOCK))
            && r.routes == s.routes[sub := b]
  {
    var first, second := [Connect(b, "", OneTunnel(sub)), Register(b, CLOCK)], [Map(b), Register(b, CLOCK)];
    TakeoverRegisters(cfg, s, b, sub);
    TakeoverServes(cfg, Exec(cfg, s, first), b, sub);
    ExecAppend(cfg, s, first, second);
  }

  /** A served connection holds the subdomain in the registry, and the subdomain is not routed to it. */
  predicate Misrouted(s: State, b: string, sub: string) {
    && Serves(s, b) && TunnelId(b, sub) in s.reg.tunnels
    && s.reg.tunnels[TunnelId(b, sub)].subdomain == sub && s.reg.tunnels[TunnelId(b, sub)].connId == b
    && !RoutedToOwner(s, s.reg.tunnels[TunnelId(b, sub)])
  }

  /** What the handler in the window does next. */
  function LateCall(h: Handler, a: string): Step {
    if h.phase.Mapping? then Map(a) else Unmap(a)
  }

  /** Connection `b` takes the subdomain in the window over, and the handler in the window makes its next call. */
  function Misrouting(a: string, h: Handler, b: string): seq<Step>
    requires |h.ids| <= |h.tunnels| && PhaseOk(h)
  {
    Takeover(b, WindowSubdomain(h)) + [LateCall(h, a)]
  }

  lemma MisroutingIsByHandlers(a: string, h: Handler, b: string)
    requires |h.ids| <= |h.tunnels| && PhaseOk(h)
    ensures HandlersOnly(Misrouting(a, h, b))
  {
  }

  /** The handler's late call takes the subdomain from its new owner. */
  lemma LateCallMisroutes(cfg: R.Config, s: State, a: string, b: string)
    requires a in s.handlers && Shape(a, s.handlers[a]) && Window(a, s.handlers[a]).Some? && b != a && Generated(b)
    requires b !in s.handlers && R.RegisterError(cfg, s.reg, WindowSubdomain(s.handlers[a])).None?
    ensures var sub := WindowSubdomain(s.handlers[a]);
            var r := Exec(cfg, s, Misrouting(a, s.handlers[a], b));
            && Misrouted(r, b, sub) && r.outside == s.outside
            && (if s.handlers[a].phase.Mapping? then sub in r.routes && r.routes[sub] == a else sub !in r.routes)
  {
    var sub := WindowSubdomain(s.handlers[a]);
    TakeoverRun(cfg, s, b, sub);
    ExecAppend(cfg, s, Takeover(b, sub), [LateCall(s.handlers[a], a)]);
    ExecOne(cfg, Exec(cfg, s, Takeover(b, sub)), LateCall(s.handlers[a], a));
  }

  /** A removed tunnel's subdomain can be registered again. */
  lemma RemovedIsFree(cfg: R.Config, s: State, step: Step, id: string)
    requires R.Indexed(cfg, s.reg) && id in Removed(s, step)
    ensures id in s.reg.tunnels
    ensures R.RegisterError(cfg, Next(cfg, s, step).reg, s.reg.tunnels[id].subdomain).None?
  {
    if step.Expire? {
      assert s.reg.tunnels[id].subdomain in R.SubdomainsOf(s.reg, R.ExpiredIds(s.reg, step.now));
    }
  }

  /** After a removal in a window, a new connection can be misrouted by the handler's next call. */
  lemma RemovalInWindowMisroutes(cfg: R.Config, s: State, step: Step, a: string, b: string)
    requires Core(cfg, s) && a in s.handlers && Shape(a, s.handlers[a]) && Generated(b) && b !in s.handlers
    requires Window(a, s.handlers[a]).Some? && Window(a, s.handlers[a]).value in Removed(s, step)
    ensures Misrouted(Exec(cfg, Next(cfg, s, step), Misrouting(a, s.handlers[a], b)), b, WindowSubdomain(s.handlers[a]))
  {
    RemovedIsFree(cfg, s, step, Window(a, s.handlers[a]).value);
    WindowIsOwn(cfg, s, a);
    LateCallMisroutes(cfg, Next(cfg, s, step), a, b);
  }

  /** Whatever follows, as long as no tunnel is removed in its window, registered tunnels stay routed. */
  ghost predicate SafeFrom(cfg: R.Config, s: State) {
    forall more: seq<Step> :: GuardedRun(cfg, s, more) ==> AllPlaced(Exec(cfg, s, more))
  }

  lemma SoundIsSafe(cfg: R.Config, s: State)
    requires Sound(cfg, s)
    ensures SafeFrom(cfg, s)
  {
    forall more: seq<Step> | GuardedRun(cfg, s, more)
      ensures AllPlaced(Exec(cfg, s, more))
    {
      GuardedRunKeepsSound(cfg, s, more);
    }
  }

  lemma MisroutedIsNotPlaced(s: State, b: string, sub: string)
    requires Misrouted(s, b, sub)
    ensures !AllPlaced(s)
  {
    assert !Placed(s, TunnelId(b, sub));
  }

  lemma UnsafeFrom(cfg: R.Config, s: State, more: seq<Step>)
    requires HandlersOnly(more) && !AllPlaced(Exec(cfg, s, more))
    ensures !SafeFrom(cfg, s)
  {
    HandlersAreGuarded(cfg, s, more);
  }

  lemma HitIsUnsafe(cfg: R.Config, s: State, step: Step, a: string)
    requires Core(cfg, s) && a in s.handlers && Shape(a, s.handlers[a])
    requires Window(a, s.handlers[a]).Some? && Window(a, s.handlers[a]).value in Removed(s, step)
    ensures !SafeFrom(cfg, Next(cfg, s, step))
  {
    var b := UnusedConn(s.handlers.Keys);
    var more := Misrouting(a, s.handlers[a], b);
    RemovalInWindowMisroutes(cfg, s, step, a, b);
    MisroutedIsNotPlaced(Exec(cfg, Next(cfg, s, step), more), b, WindowSubdomain(s.handlers[a]));
    MisroutingIsByHandlers(a, s.handlers[a], b);
    UnsafeFrom(cfg, Next(cfg, s, step), more);
  }

  lemma UnguardedIsUnsafe(cfg: R.Config, s: State, step: Step)
    requires Core(cfg, s) && !Guarded(s, step)
    ensures !SafeFrom(cfg, Next(cfg, s, step))
  {
    var a :| a in s.handlers && |s.handlers[a].ids| <= |s.handlers[a].tunnels| && PhaseOk(s.handlers[a])
             && Window(a, s.handlers[a]).Some? && Window(a, s.handlers[a]).value in Removed(s, step);
    assert Shape(a, s.handlers[a]);
    HitIsUnsafe(cfg, s, step, a);
  }

  /**
   After any run without removals in a window, an admin delete or an expiry is
   safe, whatever follows, if and only if it removes no tunnel in its window.
   */
  lemma RemovalIsSafeIff(cfg: R.Config, steps: seq<Step>, step: Step)
    requires GuardedRun(cfg, INIT, steps) && Actor(step).None?
    ensures var s := Exec(cfg, INIT, steps);
            SafeFrom(cfg, Next(cfg, s, step)) <==> Guarded(s, step)
  {
    var s := Exec(cfg, INIT, steps);
    GuardedRunKeepsSound(cfg, INIT, steps);
    if Guarded(s, step) {
      GuardedKeepsSound(cfg, s, step);
      SoundIsSafe(cfg, Next(cfg, s, step));
    } else {
      UnguardedIsUnsafe(cfg, s, step);
    }
  }

  // ---------------------------------------------------------------------------
  // Both windows from the start

  /** Connection `a` registers, and its tunnel is deleted before it is mapped. */
  function DeletedBeforeMap(a: string, sub: string): seq<Step> {
    [Connect(a, "", OneTunnel(sub)), Register(a, CLOCK)] + [AdminDelete(TunnelId(a, sub))]
  }

  /** Connection `a` was served and disconnects, and its tunnel is deleted between the lookup and the unmapping. */
  function DeletedBeforeUnmap(a: string, sub: string): seq<Step> {
    Takeover(a, sub) + [Disconnect(a), Check(a)] + [AdminDelete(TunnelId(a, sub))]
  }

  lemma DeletedBeforeMapRun(cfg: R.Config, a: string, sub: string)
    requires Generated(a) && R.RegisterError(cfg, R.EMPTY, sub).None?
    ensures var s := Exec(cfg, INIT, DeletedBeforeMap(a, sub));
            && s.handlers == map[a := Handler("", OneTunnel(sub), [], Mapping(0))]
            && s.reg == R.EMPTY && s.outside == 1
  {
    var first := [Connect(a, "", OneTunnel(sub)), Register(a, CLOCK)];
    TakeoverRegisters(cfg, INIT, a, sub);
    var m := Exec(cfg, INIT, first);
    ExecAppend(cfg, INIT, first, [AdminDelete(TunnelId(a, sub))]);
    ExecOne(cfg, m, AdminDelete(TunnelId(a, sub)));
    assert m.reg.tunnels.Keys == {TunnelId(a, sub)} && m.reg.index.Keys == {sub};
    assert Next(cfg, m, AdminDelete(TunnelId(a, sub))).reg == R.EMPTY;
  }

  lemma DeletedBeforeUnmapRun(cfg: R.Config, a: string, sub: string)
    requires Generated(a) && R.RegisterError(cfg, R.EMPTY, sub).None?
    ensures var s := Exec(cfg, INIT, DeletedBeforeUnmap(a, sub));
            && s.handlers == map[a := Server(a, sub).(phase := Unmapping(0, sub))]
            && s.reg == R.EMPTY && s.outside == 1
  {
    var id := TunnelId(a, sub);
    TakeoverRun(cfg, INIT, a, sub);
    var m := Exec(cfg, INIT, Takeover(a, sub));
    assert m.reg.tunnels.Keys == {id} && m.reg.index.Keys == {sub} && m.reg.tunnels[id].subdomain == sub;
    ExecAppend(cfg, INIT, Takeover(a, sub), [Disconnect(a), Check(a)]);
    ExecTwo(cfg, m, Disconnect(a), Check(a));
    var q := Exec(cfg, m, [Disconnect(a), Check(a)]);
    assert q.reg == m.reg && q.handlers == map[a := Server(a, sub).(phase := Unmapping(0, sub))];
    ExecAppend(cfg, INIT, Takeover(a, sub) + [Disconnect(a), Check(a)], [AdminDelete(id)]);
    ExecOne(cfg, q, AdminDelete(id));
    assert Next(cfg, q, AdminDelete(id)).reg == R.EMPTY;
  }

  /**
   For any two connections and any acceptable subdomain there is a run with one
   admin delete, between `Register` and `MapSubdomain`, after which the
   subdomain is routed to the connection that does not hold it.
   */
  lemma DeleteBeforeMapMisroutes(cfg: R.Config, a: string, b: string, sub: string)
    requires Generated(a) && Generated(b) && a != b && R.RegisterError(cfg, R.EMPTY, sub).None?
    ensures exists steps: seq<Step> ::
              var s := Exec(cfg, INIT, steps);
              s.outside == 1 && Misrouted(s, b, sub) && sub in s.routes && s.routes[sub] == a
  {
    DeletedBeforeMapRun(cfg, a, sub);
    var s := Exec(cfg, INIT, DeletedBeforeMap(a, sub));
    LateCallMisroutes(cfg, s, a, b);
    ExecAppend(cfg, INIT, DeletedBeforeMap(a, sub), Takeover(b, sub) + [Map(a)]);
  }

  /** And one with the delete between `GetByID` and `UnmapSubdomain`, after which it is not routed at all. */
  lemma DeleteBeforeUnmapUnroutes(cfg: R.Config, a: string, b: string, sub: string)
    requires Generated(a) && Generated(b) && a != b && R.RegisterError(cfg, R.EMPTY, sub).None?
    ensures exists steps: seq<Step> ::
              var s := Exec(cfg, INIT, steps);
              s.outside == 1 && Misrouted(s, b, sub) && sub !in s.routes
  {
    DeletedBeforeUnmapRun(cfg, a, sub);
    var s := Exec(cfg, INIT, DeletedBeforeUnmap(a, sub));
    LateCallMisroutes(cfg, s, a, b);
    ExecAppend(cfg, INIT, DeletedBeforeUnmap(a, sub), Takeover(b, sub) + [Unmap(a)]);
  }
}
