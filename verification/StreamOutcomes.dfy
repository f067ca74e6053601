/**
 What a caller is told, and how a proxy handler gets there: which steps bring
 `ServeHTTP` from one stage to the next, and which event decides between the
 client's reply, 502 and 504. In runs of any length, whatever the clients send.
 */
module StreamOutcomes {
  import opened Results
  import opened Streams
  import opened StreamProgress

  // ---------------------------------------------------------------------------
  // The events that decide

  /** The handler is inside the write of a frame on its connection. */
  predicate InWrite(s: State, p: nat)
    requires Valid(s) && p < |s.proxies|
  {
    (s.proxies[p].phase.OpenWriting? || s.proxies[p].phase.RequestWriting?)
    && s.conns[s.proxies[p].conn].writer == Some(p)
  }

  /** The handler's `select` takes this reply. */
  predicate TakesReply(s: State, step: Step, p: nat, reply: Reply)
    requires Valid(s)
  {
    step == OfProxy(p, TakeResponse) && ProxyAt(s, p, Waiting) && s.streams[s.proxies[p].stream].response == Some(reply)
  }

  /** The handler's timer fires. */
  predicate TimerFires(s: State, step: Step, p: nat) {
    step == OfProxy(p, TimeOut) && ProxyAt(s, p, Waiting)
  }

  /** The caller's body cannot be read, a frame cannot be written, or the `select` takes Done. */
  predicate Fails(s: State, step: Step, p: nat)
    requires Valid(s) && p < |s.proxies|
  {
    || (step == Body(p, false) && ProxyAt(s, p, OpenSent))
    || (step == Written(s.proxies[p].conn, false) && InWrite(s, p))
    || (step == OfProxy(p, TakeDone) && ProxyAt(s, p, Waiting) && s.streams[s.proxies[p].stream].closes > 0)
  }

  /** The step decides what the caller is told. */
  predicate Decides(s: State, step: Step, p: nat)
    requires Valid(s) && p < |s.proxies|
  {
    || Fails(s, step, p) || TimerFires(s, step, p)
    || (step == OfProxy(p, TakeResponse) && ProxyAt(s, p, Waiting) && s.streams[s.proxies[p].stream].response.Some?)
  }

  /** Nothing is decided yet: the handler is not closing and has no outcome. */
  predicate Undecided(x: Proxy) {
    x.outcome.Pending? && !x.phase.Closing? && !x.phase.Finished?
  }

  predicate Told(x: Proxy) {
    !x.outcome.Pending? && (x.phase.Closing? || x.phase.Finished?)
  }

  /** After the step, handler `x` is closing exactly if the step decides, with the outcome that goes with the event. */
  ghost predicate Fits(s: State, step: Step, p: nat, x: Proxy)
    requires Valid(s) && p < |s.proxies|
  {
    && (if Decides(s, step, p) then Told(x) else Undecided(x))
    && (forall reply :: x.outcome == Replied(reply) <==> TakesReply(s, step, p, reply))
    && (x.outcome.GatewayTimeout? <==> TimerFires(s, step, p))
    && (x.outcome.BadGateway? <==> Fails(s, step, p))
  }

  lemma ProxyStepFits(s: State, p: nat, step: ProxyStep)
    requires Valid(s) && ProxyEnabled(s, p, step) && Undecided(s.proxies[p])
    ensures Fits(s, OfProxy(p, step), p, DoProxy(s, p, step).proxies[p])
  {
  }

  lemma BodyFits(s: State, p: nat, ok: bool)
    requires Valid(s) && ProxyAt(s, p, OpenSent) && Undecided(s.proxies[p])
    ensures Fits(s, Body(p, ok), p, DoBody(s, p, ok).proxies[p])
  {
  }

  lemma WrittenFits(s: State, c: nat, ok: bool)
    requires Valid(s) && WriterAt(s, c) && Undecided(s.proxies[s.conns[c].writer.value])
    ensures var p := s.conns[c].writer.value;
            Fits(s, Written(c, ok), p, DoWritten(s, c, ok).proxies[p])
  {
  }

  lemma OthersDecideNothing(s: State, step: Step, p: nat)
    requires Valid(s) && p < |s.proxies| && !Moves(s, step, p)
    ensures !Decides(s, step, p) && (forall reply :: !TakesReply(s, step, p, reply))
  {
  }

  /**
   For every step and every handler without an outcome: it has the reply exactly
   if its `select` took that reply, 504 exactly if its timer fired, and 502
   exactly if its caller's body or a frame's write failed or its `select` took
   Done; and exactly then it is closing.
   */
  lemma OutcomeIff(s: State, step: Step, p: nat)
    requires Valid(s) && p < |s.proxies| && Undecided(s.proxies[p])
    ensures Fits(s, step, p, Next(s, step).proxies[p])
  {
    if !Moves(s, step, p) {
      OnlyMovesChangeHandler(s, step, p);
      OthersDecideNothing(s, step, p);
    } else {
      match step
      case OfProxy(_, x) => ProxyStepFits(s, p, x);
      case Body(_, ok) => BodyFits(s, p, ok);
      case Written(c, ok) => WrittenFits(s, c, ok);
    }
  }

  /** And what a caller has been told stays as it is. */
  lemma ToldStays(s: State, step: Step, p: nat)
    requires Valid(s) && p < |s.proxies| && Told(s.proxies[p])
    ensures Told(Next(s, step).proxies[p]) && Next(s, step).proxies[p].outcome == s.proxies[p].outcome
  {
    if !Moves(s, step, p) {
      OnlyMovesChangeHandler(s, step, p);
    }
  }

  // ---------------------------------------------------------------------------
  // Every run

  /** What the first deciding event of the run tells the caller. */
  function Verdict(s: State, steps: seq<Step>, p: nat): Outcome
    requires Valid(s) && p < |s.proxies|
    decreases |steps|
  {
    if steps == [] then Pending
    else if Fails(s, steps[0], p) then BadGateway
    else if TimerFires(s, steps[0], p) then GatewayTimeout
    else if Decides(s, steps[0], p) then Replied(s.streams[s.proxies[p].stream].response.value)
    else Verdict(Next(s, steps[0]), steps[1..], p)
  }

  lemma {:induction false} RunKeepsTold(s: State, steps: seq<Step>, p: nat)
    requires Valid(s) && p < |s.proxies| && Told(s.proxies[p])
    ensures Told(Exec(s, steps).proxies[p]) && Exec(s, steps).proxies[p].outcome == s.proxies[p].outcome
    decreases |steps|
  {
    if steps == [] {
    } else {
      ToldStays(s, steps[0], p);
      RunKeepsTold(Next(s, steps[0]), steps[1..], p);
    }
  }

  /**
   From any state in which nothing is decided, after any steps: the caller has
   been told what the first deciding event told it, and the handler is closing
   or finished exactly if there was one.
   */
  lemma {:induction false} OutcomeOfRun(s: State, steps: seq<Step>, p: nat)
    requires Valid(s) && p < |s.proxies| && Undecided(s.proxies[p])
    ensures var x := Exec(s, steps).proxies[p];
            && x.outcome == Verdict(s, steps, p)
            && (x.phase.Closing? || x.phase.Finished? <==> !Verdict(s, steps, p).Pending?)
    decreases |steps|
  {
    if steps == [] {
    } else {
      OutcomeIff(s, steps[0], p);
      if Decides(s, steps[0], p) {
        RunKeepsTold(Next(s, steps[0]), steps[1..], p);
      } else {
        OutcomeOfRun(Next(s, steps[0]), steps[1..], p);
      }
    }
  }

  predicate AllDecidedOrNot(s: State) {
    forall p | 0 <= p < |s.proxies| :: Undecided(s.proxies[p]) || Told(s.proxies[p])
  }

  /** A handler comes into being exactly when a request arrives, with that request, on that connection. */
  lemma ArrivesIff(s: State, step: Step)
    requires Valid(s)
    ensures var r := Next(s, step);
            && (|r.proxies| > |s.proxies| <==> step.Arrive? && step.conn < |s.conns|)
            && (|r.proxies| > |s.proxies| ==>
                  && |r.proxies| == |s.proxies| + 1
                  && var x := r.proxies[|s.proxies|];
                     x == Proxy(step.request, step.conn, x.stream, Chosen, Pending))
  {
    if Enabled(s, step) && !step.Arrive? && !step.Body? && !step.Written? && !step.OfProxy? {
      OthersLeaveHandlers(s, step);
    }
  }

  lemma NewHandlersAreUndecided(s: State, step: Step, p: nat)
    requires Valid(s) && |s.proxies| <= p < |Next(s, step).proxies|
    ensures Undecided(Next(s, step).proxies[p])
  {
    if Enabled(s, step) && !step.Arrive? && !step.Body? && !step.Written? && !step.OfProxy? {
      OthersLeaveHandlers(s, step);
    }
  }

  lemma StepKeepsDecidedOrNot(s: State, step: Step)
    requires Valid(s) && AllDecidedOrNot(s)
    ensures AllDecidedOrNot(Next(s, step))
  {
    var r := Next(s, step);
    forall p | 0 <= p < |r.proxies|
      ensures Undecided(r.proxies[p]) || Told(r.proxies[p])
    {
      if p >= |s.proxies| {
        NewHandlersAreUndecided(s, step, p);
      } else if Told(s.proxies[p]) {
        ToldStays(s, step, p);
      } else {
        OutcomeIff(s, step, p);
      }
    }
  }

  lemma {:induction false} RunKeepsDecidedOrNot(s: State, steps: seq<Step>)
    requires Valid(s) && AllDecidedOrNot(s)
    ensures AllDecidedOrNot(Exec(s, steps))
    decreases |steps|
  {
    if steps == [] {
    } else {
      StepKeepsDecidedOrNot(s, steps[0]);
      RunKeepsDecidedOrNot(Next(s, steps[0]), steps[1..]);
    }
  }

  /** In every reachable state, exactly the handlers that are closing or finished have told their caller something. */
  lemma EveryCallerIsTold(s: State, p: nat)
    requires Reachable(s) && p < |s.proxies|
    ensures s.proxies[p].phase.Closing? || s.proxies[p].phase.Finished? <==> !s.proxies[p].outcome.Pending?
  {
    var init: State, steps: seq<Step> :| Initial(init) && s == Exec(init, steps);
    RunKeepsDecidedOrNot(init, steps);
  }

  // ---------------------------------------------------------------------------
  // Stage by stage

  /** The event that ends this stage, if all goes well, and the stage after it. */
  predicate Advances(s: State, step: Step, p: nat, f: Phase, g: Phase)
    requires Valid(s) && p < |s.proxies|
  {
    var c := s.proxies[p].conn;
    match f
    case Chosen => g == Allocated && step == OfProxy(p, Allocate)
    case Allocated => g == Opened && step == OfProxy(p, Insert)
    case Opened => g == OpenWriting && step == OfProxy(p, Lock) && s.conns[c].writer.None?
    case OpenWriting => g == OpenSent && step == Written(c, true) && s.conns[c].writer == Some(p)
    case OpenSent => g == BodyRead && step == Body(p, true)
    case BodyRead => g == RequestWriting && step == OfProxy(p, Lock) && s.conns[c].writer.None?
    case RequestWriting => g == Waiting && step == Written(c, true) && s.conns[c].writer == Some(p)
    case Waiting => false
    case Closing => g == Finished && step == OfProxy(p, CloseOwn)
    case Finished => false
  }

  /** Stage `g` is the one that the step leads to. */
  predicate LeadsTo(s: State, step: Step, p: nat, g: Phase)
    requires Valid(s) && p < |s.proxies|
  {
    Advances(s, step, p, s.proxies[p].phase, g) || (g.Closing? && Decides(s, step, p))
  }

  lemma ProxyStepLeads(s: State, p: nat, step: ProxyStep, g: Phase)
    requires Valid(s) && ProxyEnabled(s, p, step) && g != s.proxies[p].phase
    ensures DoProxy(s, p, step).proxies[p].phase == g <==> LeadsTo(s, OfProxy(p, step), p, g)
  {
  }

  lemma BodyLeads(s: State, p: nat, ok: bool, g: Phase)
    requires Valid(s) && ProxyAt(s, p, OpenSent) && g != s.proxies[p].phase
    ensures DoBody(s, p, ok).proxies[p].phase == g <==> LeadsTo(s, Body(p, ok), p, g)
  {
  }

  lemma WrittenLeads(s: State, c: nat, ok: bool, g: Phase)
    requires Valid(s) && WriterAt(s, c) && g != s.proxies[s.conns[c].writer.value].phase
    ensures var p := s.conns[c].writer.value;
            DoWritten(s, c, ok).proxies[p].phase == g <==> LeadsTo(s, Written(c, ok), p, g)
  {
  }

  lemma OthersLeadNowhere(s: State, step: Step, p: nat, g: Phase)
    requires Valid(s) && p < |s.proxies| && !Moves(s, step, p)
    ensures !LeadsTo(s, step, p, g)
  {
  }

  /** A handler comes to a stage exactly by the event that ends the one before, or to its close by a deciding one. */
  lemma ComesToIff(s: State, step: Step, p: nat, g: Phase)
    requires Valid(s) && p < |s.proxies| && g != s.proxies[p].phase
    ensures Next(s, step).proxies[p].phase == g <==> LeadsTo(s, step, p, g)
  {
    if !Moves(s, step, p) {
      OnlyMovesChangeHandler(s, step, p);
      OthersLeadNowhere(s, step, p, g);
    } else {
      match step
      case OfProxy(_, x) => ProxyStepLeads(s, p, x, g);
      case Body(_, ok) => BodyLeads(s, p, ok, g);
      case Written(c, ok) => WrittenLeads(s, c, ok, g);
    }
  }
}
