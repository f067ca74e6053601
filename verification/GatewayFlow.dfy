/**
 How a connection handler gets from its handshake to its end: which calls bring
 `handleConnect`, the read loop and `cleanupConnection` from one point to the
 next, whatever the other handlers, the admin API and expiry do meanwhile.
 */
module GatewayFlow {
  import opened TunnelIds
  import opened Gateway
  import R = Registry

  /** The subdomain is neither reserved nor too long nor taken. */
  predicate Acceptable(cfg: R.Config, reg: R.State, sub: string) {
    sub !in cfg.reserved && sub !in reg.index && (cfg.maxSubdomainLength > 0 ==> |sub| <= cfg.maxSubdomainLength)
  }

  /** The next tunnel of a handler that registers. */
  predicate HasNext(h: Handler) {
    h.phase.Registering? && h.phase.next < |h.tunnels|
  }

  /** The call brings the handler to this point. */
  predicate Brings(cfg: R.Config, s: State, step: Step, c: string, g: Phase)
    requires c in s.handlers
  {
    var h := s.handlers[c];
    match g
    case Registering(k) =>
      step == Map(c) && h.phase.Mapping? && h.phase.next < |h.tunnels| && k == h.phase.next + 1
    case Mapping(k) =>
      && step.Register? && step.conn == c && HasNext(h) && k == h.phase.next
      && Acceptable(cfg, s.reg, h.tunnels[k].subdomain)
    case Serving => step.Register? && step.conn == c && h.phase.Registering? && !HasNext(h)
    case Checking(j) =>
      || (&& j == 0 && step.Register? && step.conn == c && HasNext(h)
          && !Acceptable(cfg, s.reg, h.tunnels[h.phase.next].subdomain))
      || (j == 0 && step == Disconnect(c) && h.phase.Serving?)
      || (step == Unregister(c) && h.phase.Unregistering? && h.phase.next < |h.ids| && j == h.phase.next + 1)
    case Unmapping(j, sub) =>
      && step == Check(c) && h.phase == Checking(j) && j < |h.ids|
      && h.ids[j] in s.reg.tunnels && s.reg.tunnels[h.ids[j]].subdomain == sub
    case Unregistering(j) =>
      || (step == Unmap(c) && h.phase.Unmapping? && h.phase.next == j)
      || (step == Check(c) && h.phase == Checking(j) && j < |h.ids| && h.ids[j] !in s.reg.tunnels)
  }

  lemma RegisterBrings(cfg: R.Config, s: State, c: string, at: Reading, g: Phase)
    requires c in s.handlers && s.handlers[c].phase.Registering? && g != s.handlers[c].phase
    ensures c in DoRegister(cfg, s, c, at).handlers
    ensures DoRegister(cfg, s, c, at).handlers[c].phase == g <==> Brings(cfg, s, Register(c, at), c, g)
  {
  }

  lemma CheckBrings(cfg: R.Config, s: State, c: string, g: Phase)
    requires c in s.handlers && s.handlers[c].phase.Checking? && c in DoCheck(s, c).handlers && g != s.handlers[c].phase
    ensures DoCheck(s, c).handlers[c].phase == g <==> Brings(cfg, s, Check(c), c, g)
  {
  }

  lemma DisabledBringsNothing(cfg: R.Config, s: State, step: Step, c: string, g: Phase)
    requires c in s.handlers && !Enabled(s, step)
    ensures !Brings(cfg, s, step, c, g)
  {
  }

  lemma OthersBringNothing(cfg: R.Config, s: State, step: Step, c: string, g: Phase)
    requires c in s.handlers && Enabled(s, step)
    requires step.Connect? || step.Heartbeat? || step.AdminDelete? || step.Expire? || step.conn != c
    ensures !Brings(cfg, s, step, c, g)
    ensures c in Next(cfg, s, step).handlers ==> Next(cfg, s, step).handlers[c].phase == s.handlers[c].phase
  {
  }

  /** A handler comes to a point by exactly these calls of its own. */
  lemma ComesToIff(cfg: R.Config, s: State, step: Step, c: string, g: Phase)
    requires c in s.handlers && c in Next(cfg, s, step).handlers && g != s.handlers[c].phase
    ensures Next(cfg, s, step).handlers[c].phase == g <==> Brings(cfg, s, step, c, g)
  {
    if !Enabled(s, step) {
      DisabledBringsNothing(cfg, s, step, c, g);
    } else if step.Connect? || step.Heartbeat? || step.AdminDelete? || step.Expire? || step.conn != c {
      OthersBringNothing(cfg, s, step, c, g);
    } else if step.Register? {
      RegisterBrings(cfg, s, c, step.at, g);
    } else if step.Check? {
      CheckBrings(cfg, s, c, g);
    }
  }

  /** It is there from its connection on, with nothing done yet, until it has cleaned up its last tunnel. */
  lemma LivesIff(cfg: R.Config, s: State, step: Step, c: string)
    ensures var r := Next(cfg, s, step);
            && (c !in s.handlers ==>
                  (c in r.handlers <==> step.Connect? && step.conn == c && Generated(c))
                  && (c in r.handlers ==> r.handlers[c] == Handler(step.owner, step.tunnels, [], Registering(0))))
            && (c in s.handlers ==>
                  var h := s.handlers[c];
                  c !in r.handlers <==> step == Check(c) && h.phase.Checking? && h.phase.next >= |h.ids|)
  {
  }

  /** It writes a tunnel's ID down exactly when it maps the tunnel, and forgets none. */
  lemma WritesDownIff(cfg: R.Config, s: State, step: Step, c: string)
    requires c in s.handlers && c in Next(cfg, s, step).handlers
    ensures var g, h := s.handlers[c], Next(cfg, s, step).handlers[c];
            if step == Map(c) && g.phase.Mapping? && g.phase.next < |g.tunnels|
            then h.ids == g.ids + [c + "-" + g.tunnels[g.phase.next].subdomain]
            else h.ids == g.ids
  {
  }
}
