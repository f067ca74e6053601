/**
 Handlers that do their calls on one tunnel in one piece: they are never seen in
 a window, so removals at any other point are harmless.
 */
module GatewayPieces {
  import opened Gateway
  import opened GatewayCalls
  import opened GatewayWindows
  import R = Registry

  /** The calls of "register and map" and of "look up, unmap and unregister", each without interruption. */
  function Calls(step: Step): seq<Step> {
    match step
    case Register(c, _) => [step, Map(c)]
    case Check(c) => [step] + [Unmap(c), Unregister(c)]
    case Map(_) => []
    case Unmap(_) => []
    case Unregister(_) => []
    case _ => [step]
  }

  function AllCalls(steps: seq<Step>): seq<Step> {
    if steps == [] then [] else Calls(steps[0]) + AllCalls(steps[1..])
  }

  /** No handler is in the middle of its work on a tunnel. */
  predicate AtRest(s: State) {
    forall c | c in s.handlers ::
      s.handlers[c].phase.Registering? || s.handlers[c].phase.Serving? || s.handlers[c].phase.Checking?
  }

  lemma AtRestIsGuarded(s: State, step: Step)
    requires AtRest(s)
    ensures Guarded(s, step)
  {
  }

  /** What "look up, unmap and unregister" amounts to. */
  function Evicted(s: State, c: string): State
    requires c in s.handlers && s.handlers[c].phase.Checking? && s.handlers[c].phase.next < |s.handlers[c].ids|
  {
    var h := s.handlers[c];
    var id := h.ids[h.phase.next];
    var moved := s.(handlers := s.handlers[c := h.(phase := Checking(h.phase.next + 1))]);
    if id in s.reg.tunnels
    then moved.(reg := R.Unregistered(s.reg, id), routes := s.routes - {s.reg.tunnels[id].subdomain},
                gauge := s.gauge - 1)
    else moved
  }

  lemma ThreeCalls(cfg: R.Config, s: State, c: string)
    ensures Exec(cfg, s, Calls(Check(c))) == Next(cfg, Next(cfg, Next(cfg, s, Check(c)), Unmap(c)), Unregister(c))
  {
    ExecAppend(cfg, s, [Check(c)], [Unmap(c), Unregister(c)]);
    ExecOne(cfg, s, Check(c));
    ExecTwo(cfg, Next(cfg, s, Check(c)), Unmap(c), Unregister(c));
  }

  lemma EvictEffect(cfg: R.Config, s: State, c: string)
    requires c in s.handlers && s.handlers[c].phase.Checking? && s.handlers[c].phase.next < |s.handlers[c].ids|
    ensures Exec(cfg, s, Calls(Check(c))) == Evicted(s, c)
  {
    ThreeCalls(cfg, s, c);
    var h := s.handlers[c];
    var checked := Next(cfg, s, Check(c));
    if h.ids[h.phase.next] in s.reg.tunnels {
      assert checked.handlers[c].phase == Unmapping(h.phase.next, s.reg.tunnels[h.ids[h.phase.next]].subdomain);
    } else {
      assert checked.handlers[c].phase == Unregistering(h.phase.next);
    }
  }

  /** When nothing is left to clean up, the connection is removed, and the other two calls are not made. */
  lemma LeaveEffect(cfg: R.Config, s: State, c: string)
    requires c in s.handlers && s.handlers[c].phase.Checking? && s.handlers[c].phase.next >= |s.handlers[c].ids|
    ensures Exec(cfg, s, Calls(Check(c))) == DoCheck(s, c)
  {
    ThreeCalls(cfg, s, c);
  }

  lemma NoCheckNoCalls(cfg: R.Config, s: State, c: string)
    requires AtRest(s) && !Enabled(s, Check(c))
    ensures Exec(cfg, s, Calls(Check(c))) == s
  {
    ThreeCalls(cfg, s, c);
  }

  lemma CheckComesToRest(cfg: R.Config, s: State, c: string)
    requires AtRest(s)
    ensures AtRest(Exec(cfg, s, Calls(Check(c))))
  {
    if !Enabled(s, Check(c)) {
      NoCheckNoCalls(cfg, s, c);
    } else if s.handlers[c].phase.next < |s.handlers[c].ids| {
      EvictEffect(cfg, s, c);
    } else {
      LeaveEffect(cfg, s, c);
    }
  }

  lemma RegisterComesToRest(cfg: R.Config, s: State, c: string, at: Reading)
    requires AtRest(s)
    ensures AtRest(Exec(cfg, s, [Register(c, at), Map(c)]))
  {
    ExecTwo(cfg, s, Register(c, at), Map(c));
  }

  lemma CallsComeToRest(cfg: R.Config, s: State, step: Step)
    requires Core(cfg, s) && AtRest(s)
    ensures GuardedRun(cfg, s, Calls(step)) && AtRest(Exec(cfg, s, Calls(step)))
  {
    match step
    case Register(c, at) =>
      HandlersAreGuarded(cfg, s, Calls(step));
      RegisterComesToRest(cfg, s, c, at);
    case Check(c) =>
      HandlersAreGuarded(cfg, s, Calls(step));
      CheckComesToRest(cfg, s, c);
    case Map(_) =>
    case Unmap(_) =>
    case Unregister(_) =>
    case _ =>
      AtRestIsGuarded(s, step);
      ExecOne(cfg, s, step);
      assert Calls(step)[1..] == [];
  }

  lemma {:induction false} GuardedAppend(cfg: R.Config, s: State, steps: seq<Step>, more: seq<Step>)
    requires GuardedRun(cfg, s, steps) && GuardedRun(cfg, Exec(cfg, s, steps), more)
    ensures GuardedRun(cfg, s, steps + more)
    decreases |steps|
  {
    if steps == [] {
      assert [] + more == more;
    } else {
      assert (steps + more)[1..] == steps[1..] + more;
      GuardedAppend(cfg, Next(cfg, s, steps[0]), steps[1..], more);
    }
  }

  lemma {:induction false} AllCallsComeToRest(cfg: R.Config, s: State, steps: seq<Step>)
    requires Core(cfg, s) && AtRest(s)
    ensures GuardedRun(cfg, s, AllCalls(steps)) && AtRest(Exec(cfg, s, AllCalls(steps)))
    decreases |steps|
  {
    if steps == [] {
    } else {
      var m := Exec(cfg, s, Calls(steps[0]));
      CallsComeToRest(cfg, s, steps[0]);
      RunKeepsCore(cfg, s, Calls(steps[0]));
      AllCallsComeToRest(cfg, m, steps[1..]);
      GuardedAppend(cfg, s, Calls(steps[0]), AllCalls(steps[1..]));
      ExecAppend(cfg, s, Calls(steps[0]), AllCalls(steps[1..]));
    }
  }

  /**
   If handlers work on each tunnel in one piece, deletes and expiry at any other
   point are harmless: every registered tunnel is routed to its own connection,
   and the gauge counts the registered tunnels and those removed from outside.
   */
  lemma WorkInOnePieceIsSafe(cfg: R.Config, steps: seq<Step>)
    ensures var s := Exec(cfg, INIT, AllCalls(steps));
            && (forall id | id in s.reg.tunnels :: RoutedToOwner(s, s.reg.tunnels[id]))
            && s.gauge == |s.reg.tunnels| + s.outside
            && (s.gauge == |s.reg.tunnels| <==> s.outside == 0)
  {
    var s := Exec(cfg, INIT, AllCalls(steps));
    AllCallsComeToRest(cfg, INIT, steps);
    GuardedRunKeepsSound(cfg, INIT, AllCalls(steps));
    GaugeCountsTunnels(cfg, AllCalls(steps));
    assert Mappers(s.handlers) == {};
    forall id | id in s.reg.tunnels
      ensures RoutedToOwner(s, s.reg.tunnels[id])
    {
      assert Placed(s, id);
    }
  }
}
