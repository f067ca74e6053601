/**
 The client's pending map. A handler puts itself in under its wire ID, takes out
 what is there under that ID when it ends, and the client forgets all of them
 when it reconnects. The map holds exactly the handlers on duty, those that have
 registered since the last reset and have not ended, as long as no handler
 registers or ends while another one with its ID is on duty.
 In runs of any length, whatever the clients send.
 */
module StreamDuty {
  import opened Streams

  /** The handler has put its channel in the pending map and not yet taken it out. */
  predicate Registered(f: HandlerPhase) {
    f.Listening? || f.Working? || f.Answered? || f.Ending?
  }

  /** It has registered since the client's last reset, and has not ended. */
  predicate OnDuty(s: State, h: nat)
    requires Valid(s) && h < |s.handlers|
  {
    Registered(s.handlers[h].phase) && s.handlers[h].epoch == s.clients[s.handlers[h].client].resets
  }

  predicate ClientDuty(s: State, k: nat)
    requires Valid(s) && k < |s.clients|
  {
    forall id | id in s.clients[k].pending ::
      var h := s.clients[k].pending[id];
      s.handlers[h].client == k && s.handlers[h].streamId == id && OnDuty(s, h)
  }

  predicate HandlerDuty(s: State, h: nat)
    requires Valid(s) && h < |s.handlers|
  {
    var x := s.handlers[h];
    var k := s.clients[x.client];
    && x.epoch <= k.resets
    && (OnDuty(s, h) ==> x.streamId in k.pending && k.pending[x.streamId] == h)
  }

  predicate Duty(s: State) {
    && Valid(s)
    && (forall k | 0 <= k < |s.clients| :: ClientDuty(s, k))
    && (forall h | 0 <= h < |s.handlers| :: HandlerDuty(s, h))
  }

  predicate SameDuty(x: Handler, y: Handler) {
    SameHandler(x, y) && x.epoch == y.epoch && (Registered(x.phase) <==> Registered(y.phase))
  }

  lemma DutyFromFrame(s: State, r: State)
    requires Duty(s) && Valid(r) && |s.clients| == |r.clients| && |s.handlers| <= |r.handlers|
    requires forall k | 0 <= k < |s.clients| ::
               r.clients[k].pending == s.clients[k].pending && r.clients[k].resets == s.clients[k].resets
    requires forall h | 0 <= h < |s.handlers| :: SameDuty(s.handlers[h], r.handlers[h])
    requires forall h | |s.handlers| <= h < |r.handlers| :: r.handlers[h].phase.Spawned? && r.handlers[h].epoch == 0
    ensures Duty(r)
  {
    forall k | 0 <= k < |r.clients|
      ensures ClientDuty(r, k)
    {
      assert ClientDuty(s, k);
      assert forall id | id in s.clients[k].pending ::
               SameDuty(s.handlers[s.clients[k].pending[id]], r.handlers[s.clients[k].pending[id]]);
    }
    forall h | 0 <= h < |r.handlers|
      ensures HandlerDuty(r, h)
    {
      if h < |s.handlers| {
        assert HandlerDuty(s, h) && SameDuty(s.handlers[h], r.handlers[h]);
      }
    }
  }

  // ---------------------------------------------------------------------------
  // Steps

  /** Another handler of the same client with the same wire ID is on duty. */
  predicate Rival(s: State, h: nat, g: nat)
    requires Valid(s) && h < |s.handlers|
  {
    && g < |s.handlers| && g != h && OnDuty(s, g)
    && s.handlers[g].client == s.handlers[h].client && s.handlers[g].streamId == s.handlers[h].streamId
  }

  /** A handler registers or ends while a rival is on duty. */
  predicate Clashes(s: State, step: Step)
    requires Valid(s)
  {
    && step.OfHandler? && (step.handlerStep.Register? || step.handlerStep.End?)
    && HandlerEnabled(s, step.handler, step.handlerStep)
    && exists g :: 0 <= g < |s.handlers| && Rival(s, step.handler, g)
  }

  lemma RegisterKeepsDuty(s: State, h: nat)
    requires Duty(s) && HandlerEnabled(s, h, Register) && (forall g :: !Rival(s, h, g))
    ensures Duty(DoHandlerRegister(s, h))
  {
    var r := DoHandlerRegister(s, h);
    forall k | 0 <= k < |r.clients|
      ensures ClientDuty(r, k)
    {
      assert ClientDuty(s, k);
    }
    forall g | 0 <= g < |r.handlers|
      ensures HandlerDuty(r, g)
    {
      assert HandlerDuty(s, g) && !Rival(s, h, g);
    }
  }

  lemma EndKeepsDuty(s: State, h: nat)
    requires Duty(s) && HandlerEnabled(s, h, End) && (forall g :: !Rival(s, h, g))
    ensures Duty(DoHandlerEnd(s, h))
  {
    var r := DoHandlerEnd(s, h);
    forall k | 0 <= k < |r.clients|
      ensures ClientDuty(r, k)
    {
      assert ClientDuty(s, k);
    }
    forall g | 0 <= g < |r.handlers|
      ensures HandlerDuty(r, g)
    {
      assert HandlerDuty(s, g) && !Rival(s, h, g);
    }
  }

  /** The rival stays on duty, and is not in the map any more. */
  lemma RivalLosesPlace(s: State, h: nat, g: nat)
    requires Duty(s) && h < |s.handlers| && Rival(s, h, g)
    ensures s.handlers[h].phase.Spawned? ==> !HandlerDuty(DoHandlerRegister(s, h), g)
    ensures s.handlers[h].phase.Ending? ==> !HandlerDuty(DoHandlerEnd(s, h), g)
  {
  }

  lemma ResetKeepsDuty(s: State, k: nat)
    requires Duty(s) && k < |s.clients|
    ensures Duty(DoClientReset(s, k))
  {
    var r := DoClientReset(s, k);
    forall j | 0 <= j < |r.clients|
      ensures ClientDuty(r, j)
    {
      assert ClientDuty(s, j);
    }
    forall h | 0 <= h < |r.handlers|
      ensures HandlerDuty(r, h)
    {
      assert HandlerDuty(s, h);
    }
  }

  lemma HandlerStepKeepsDutyIff(s: State, h: nat, step: HandlerStep)
    requires Duty(s) && HandlerEnabled(s, h, step)
    ensures Duty(DoHandler(s, h, step)) <==> !Clashes(s, OfHandler(h, step))
  {
    if Clashes(s, OfHandler(h, step)) {
      var g :| 0 <= g < |s.handlers| && Rival(s, h, g);
      RivalLosesPlace(s, h, g);
    } else {
      match step
      case Register => RegisterKeepsDuty(s, h);
      case End => EndKeepsDuty(s, h);
      case _ => DutyFromFrame(s, DoHandler(s, h, step));
    }
  }

  lemma ClientStepKeepsDuty(s: State, k: nat, step: ClientStep)
    requires Duty(s) && ClientEnabled(s, k, step)
    ensures Duty(DoClient(s, k, step))
  {
    match step
    case Reset => ResetKeepsDuty(s, k);
    case _ => DutyFromFrame(s, DoClient(s, k, step));
  }

  lemma ProxyStepKeepsDuty(s: State, p: nat, step: ProxyStep)
    requires Duty(s) && ProxyEnabled(s, p, step)
    ensures Duty(DoProxy(s, p, step))
  {
    DutyFromFrame(s, DoProxy(s, p, step));
  }

  lemma ServerStepKeepsDuty(s: State, c: nat, step: ServerStep)
    requires Duty(s) && ServerEnabled(s, c, step)
    ensures Duty(DoServer(s, c, step))
  {
    DutyFromFrame(s, DoServer(s, c, step));
  }

  /** A step keeps the map exact if and only if no handler registers or ends by it while a rival is on duty. */
  lemma StepKeepsDutyIff(s: State, step: Step)
    requires Duty(s)
    ensures Duty(Next(s, step)) <==> !Clashes(s, step)
  {
    if Enabled(s, step) {
      match step
      case OfProxy(p, x) => ProxyStepKeepsDuty(s, p, x);
      case OfServer(c, x) => ServerStepKeepsDuty(s, c, x);
      case OfClient(k, x) => ClientStepKeepsDuty(s, k, x);
      case OfHandler(h, x) => HandlerStepKeepsDutyIff(s, h, x);
      case _ => DutyFromFrame(s, Next(s, step));
    }
  }

  // ---------------------------------------------------------------------------
  // Every run

  /** The map is exact in every state of the run. */
  predicate StaysExact(s: State, steps: seq<Step>)
    requires Valid(s)
    decreases |steps|
  {
    Duty(s) && (steps == [] || StaysExact(Next(s, steps[0]), steps[1..]))
  }

  predicate NeverClashes(s: State, steps: seq<Step>)
    requires Valid(s)
    decreases |steps|
  {
    steps == [] || (!Clashes(s, steps[0]) && NeverClashes(Next(s, steps[0]), steps[1..]))
  }

  lemma {:induction false} RunStaysExactIff(s: State, steps: seq<Step>)
    requires Duty(s)
    ensures StaysExact(s, steps) <==> NeverClashes(s, steps)
    decreases |steps|
  {
    if steps == [] {
    } else {
      StepKeepsDutyIff(s, steps[0]);
      if Duty(Next(s, steps[0])) {
        RunStaysExactIff(Next(s, steps[0]), steps[1..]);
      }
    }
  }

  /**
   In every run, of any length and whatever the clients send, the pending maps
   hold exactly the handlers on duty throughout if and only if no handler ever
   registers or ends while another one of its client with its wire ID is on duty.
   */
  lemma PendingIsDutyIff(init: State, steps: seq<Step>)
    requires Initial(init)
    ensures StaysExact(init, steps) <==> NeverClashes(init, steps)
  {
    RunStaysExactIff(init, steps);
  }
}
