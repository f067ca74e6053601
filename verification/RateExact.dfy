/**
 When a request is denied. An IP's request is denied exactly when allowing it
 would break the limit in some window that ends with it: one more than the
 requests allowed since some moment is more than the rate plus what refills in
 that time. So the limiter allows whatever its limit permits.
 */
module RateExact {
  import opened RateLimit
  import opened RateEviction
  import opened RateBound

  // ---------------------------------------------------------------------------
  // What has been allowed

  /** The event tells a request of the IP that it is allowed. */
  predicate Grants(rate: nat, before: seq<Event>, e: Event, ip: string, evicting: bool) {
    After(rate, EMPTY, before + [e], evicting).log == After(rate, EMPTY, before, evicting).log + [Decision(ip, true)]
  }

  /** How many requests of the IP the events allow from the given time on. */
  function GrantedSince(rate: nat, events: seq<Event>, from: int, ip: string, evicting: bool): nat
    decreases |events|
  {
    if events == [] then 0
    else
      var front, e := events[..|events| - 1], events[|events| - 1];
      GrantedSince(rate, front, from, ip, evicting) + One(from <= e.now && Grants(rate, front, e, ip, evicting))
  }

  /** One more than those would be more than the rate and what refills from then until `now`. */
  predicate OverLimit(rate: nat, events: seq<Event>, from: int, now: int, ip: string, evicting: bool) {
    from <= now && Tokens(GrantedSince(rate, events, from, ip, evicting) + 1) > Tokens(rate) + rate * (now - from)
  }

  lemma {:induction false} AfterSnoc(rate: nat, s: State, events: seq<Event>, e: Event, evicting: bool)
    requires Valid(s)
    ensures After(rate, s, events + [e], evicting) == Step(rate, After(rate, s, events, evicting), e, evicting)
    decreases |events|
  {
    if events == [] {
      assert [e][1..] == [];
    } else {
      assert (events + [e])[1..] == events[1..] + [e];
      AfterSnoc(rate, Step(rate, s, events[0], evicting), events[1..], e, evicting);
    }
  }

  lemma {:induction false} TimelineFront(events: seq<Event>, e: Event, start: int)
    requires Timeline(events + [e], start)
    ensures Timeline(events, start) && End(events, start) <= e.now && start <= End(events, start)
    decreases |events|
  {
    if events == [] {
    } else {
      assert (events + [e])[1..] == events[1..] + [e];
      TimelineFront(events[1..], e, events[0].now);
      EndUncons(events, start);
    }
  }

  lemma GrantedSinceSnoc(rate: nat, events: seq<Event>, e: Event, from: int, ip: string, evicting: bool)
    ensures GrantedSince(rate, events + [e], from, ip, evicting)
            == GrantedSince(rate, events, from, ip, evicting)
               + One(from <= e.now && Grants(rate, events, e, ip, evicting))
  {
    assert (events + [e])[..|events|] == events;
  }

  lemma {:induction false} NothingSince(rate: nat, events: seq<Event>, from: int, ip: string, evicting: bool, start: int)
    requires Timeline(events, start) && (events != [] ==> End(events, start) < from)
    ensures GrantedSince(rate, events, from, ip, evicting) == 0
    decreases |events|
  {
    if events == [] {
    } else {
      var front := events[..|events| - 1];
      assert front + [events[|events| - 1]] == events;
      TimelineFront(front, events[|events| - 1], start);
      NothingSince(rate, front, from, ip, evicting, start);
    }
  }

  // ---------------------------------------------------------------------------
  // The credit is what the tightest window leaves

  /** What window `[from, now]` leaves of the limit. */
  function LeftIn(rate: nat, events: seq<Event>, from: int, now: int, ip: string): int {
    Tokens(rate) + rate * (now - from) - Tokens(GrantedSince(rate, events, from, ip, false))
  }

  function Min(a: int, b: int): int {
    if a < b then a else b
  }

  lemma LevelGrowsExactly(rate: nat, b: Bucket, start: int, now: int)
    requires b.last <= start <= now && b.level <= Capacity(rate)
    ensures Level(rate, b, now) == Min(Capacity(rate), Level(rate, b, start) + rate * (now - start))
  {
    SplitSpan(rate, b.last, start, now);
    MulMonotone(rate, 0, start - b.last);
    MulMonotone(rate, 0, now - start);
  }

  lemma CreditGrowsExactly(rate: nat, s: State, ip: string, start: int, now: int)
    requires start <= now && Tidy(rate, s, start)
    ensures Credit(rate, s, ip, now) == Min(Capacity(rate), Credit(rate, s, ip, start) + rate * (now - start))
  {
    if ip in s.visitors {
      assert Sane(rate, s.buckets[s.visitors[ip].bucket], start);
      LevelGrowsExactly(rate, s.buckets[s.visitors[ip].bucket], start, now);
    } else {
      MulMonotone(rate, 0, now - start);
    }
  }

  /** A step adds at most one decision. */
  lemma GrantedIsOne(rate: nat, s: State, e: Event, ip: string)
    requires Valid(s)
    ensures var r := Step(rate, s, e, false);
            Granted(s, r, ip) == One(r.log == s.log + [Decision(ip, true)])
  {
    if e.Draw? && e.request in s.calls {
      var d := Decision(s.calls[e.request].ip, HasToken(rate, s.buckets[s.calls[e.request].bucket], e.now));
      CountSnoc(s.log, d, ip);
      assert (s.log + [d])[|s.log|] == d && (s.log + [Decision(ip, true)])[|s.log|] == Decision(ip, true);
    }
  }

  /** What the last event cost, told by the decision it made. */
  lemma LastEventCosts(rate: nat, events: seq<Event>, e: Event, ip: string, start: int)
    requires Timeline(events + [e], start)
    ensures var s := After(rate, EMPTY, events, false);
            var r := After(rate, EMPTY, events + [e], false);
            && Tidy(rate, r, e.now)
            && Credit(rate, r, ip, e.now) + Tokens(One(Grants(rate, events, e, ip, false))) == Credit(rate, s, ip, e.now)
  {
    TimelineFront(events, e, start);
    RunKeepsTidy(rate, EMPTY, events, start);
    var s := After(rate, EMPTY, events, false);
    AfterSnoc(rate, EMPTY, events, e, false);
    StepCosts(rate, s, e, ip, End(events, start));
    StepKeepsTidy(rate, s, e, End(events, start));
    GrantedIsOne(rate, s, e, ip);
  }

  lemma WindowGrows(rate: nat, events: seq<Event>, from: int, start: int, now: int, ip: string)
    ensures LeftIn(rate, events, from, now, ip) == LeftIn(rate, events, from, start, ip) + rate * (now - start)
  {
    SplitSpan(rate, from, start, now);
  }

  lemma LeftInSnoc(rate: nat, events: seq<Event>, e: Event, from: int, now: int, ip: string)
    requires from <= e.now
    ensures LeftIn(rate, events + [e], from, now, ip)
            == LeftIn(rate, events, from, now, ip) - Tokens(One(Grants(rate, events, e, ip, false)))
  {
    GrantedSinceSnoc(rate, events, e, from, ip, false);
  }

  lemma CreditAtMostFull(rate: nat, s: State, ip: string, now: int)
    requires Valid(s)
    ensures Credit(rate, s, ip, now) <= Tokens(rate)
  {
  }

  /** No window leaves less than the credit. */
  lemma {:induction false} CreditIsInEveryWindow(rate: nat, events: seq<Event>, from: int, now: int, ip: string,
                                                 start: int)
    requires Timeline(events, start) && End(events, start) <= now && from <= now
    ensures Credit(rate, After(rate, EMPTY, events, false), ip, now) <= LeftIn(rate, events, from, now, ip)
    decreases |events|
  {
    var r := After(rate, EMPTY, events, false);
    MulMonotone(rate, 0, now - from);
    CreditAtMostFull(rate, r, ip, now);
    if events == [] {
    } else if End(events, start) < from {
      NothingSince(rate, events, from, ip, false, start);
    } else {
      var front, e := events[..|events| - 1], events[|events| - 1];
      assert front + [e] == events;
      TimelineFront(front, e, start);
      CreditIsInEveryWindow(rate, front, from, e.now, ip, start);
      LastEventCosts(rate, front, e, ip, start);
      CreditGrows(rate, r, ip, e.now, now);
      LeftInSnoc(rate, front, e, from, e.now, ip);
      WindowGrows(rate, events, from, e.now, now, ip);
    }
  }

  lemma FullWindow(rate: nat, events: seq<Event>, now: int, ip: string, start: int)
    requires Timeline(events, start) && (events != [] ==> End(events, start) < now)
    ensures LeftIn(rate, events, now, now, ip) == Tokens(rate)
  {
    NothingSince(rate, events, now, ip, false, start);
  }

  /** The window leaves exactly the credit. */
  predicate Tightest(rate: nat, events: seq<Event>, from: int, now: int, ip: string) {
    from <= now && Credit(rate, After(rate, EMPTY, events, false), ip, now) == LeftIn(rate, events, from, now, ip)
  }

  lemma TightestStays(rate: nat, events: seq<Event>, e: Event, from: int, ip: string, start: int)
    requires Timeline(events + [e], start) && Tightest(rate, events, from, e.now, ip)
    ensures Tightest(rate, events + [e], from, e.now, ip)
  {
    LastEventCosts(rate, events, e, ip, start);
    LeftInSnoc(rate, events, e, from, e.now, ip);
  }

  /** As time passes the same window stays tightest until the bucket is full. */
  lemma TightestLater(rate: nat, events: seq<Event>, from: int, now: int, ip: string, start: int) returns (later: int)
    requires Timeline(events, start) && End(events, start) <= now && Tightest(rate, events, from, End(events, start), ip)
    requires Tidy(rate, After(rate, EMPTY, events, false), End(events, start))
    ensures Tightest(rate, events, later, now, ip)
  {
    var end := End(events, start);
    if end == now {
      later := from;
    } else {
      var r := After(rate, EMPTY, events, false);
      CreditGrowsExactly(rate, r, ip, end, now);
      WindowGrows(rate, events, from, end, now, ip);
      FullWindow(rate, events, now, ip, start);
      later := if Credit(rate, r, ip, now) == Tokens(rate) then now else from;
    }
  }

  /** And some window leaves no more. */
  lemma {:induction false} TightestWindow(rate: nat, events: seq<Event>, now: int, ip: string, start: int)
    returns (from: int)
    requires Timeline(events, start) && End(events, start) <= now
    ensures Tightest(rate, events, from, now, ip)
    decreases |events|
  {
    if events == [] {
      from := now;
      FullWindow(rate, events, now, ip, start);
    } else {
      var front, e := events[..|events| - 1], events[|events| - 1];
      assert front + [e] == events;
      TimelineFront(front, e, start);
      from := TightestWindow(rate, front, e.now, ip, start);
      TightestStays(rate, front, e, from, ip, start);
      RunKeepsTidy(rate, EMPTY, events, start);
      from := TightestLater(rate, events, from, now, ip, start);
    }
  }

  // ---------------------------------------------------------------------------
  // Denied requests

  ghost predicate LimitReached(rate: nat, events: seq<Event>, now: int, ip: string, evicting: bool) {
    exists from :: OverLimit(rate, events, from, now, ip, evicting)
  }

  lemma NoCreditIff(rate: nat, events: seq<Event>, now: int, ip: string, start: int)
    requires Timeline(events, start) && End(events, start) <= now
    ensures Credit(rate, After(rate, EMPTY, events, false), ip, now) < Tokens(1)
            <==> LimitReached(rate, events, now, ip, false)
  {
    var from := TightestWindow(rate, events, now, ip, start);
    if Credit(rate, After(rate, EMPTY, events, false), ip, now) < Tokens(1) {
      assert OverLimit(rate, events, from, now, ip, false);
    }
    forall from | OverLimit(rate, events, from, now, ip, false)
      ensures Credit(rate, After(rate, EMPTY, events, false), ip, now) < Tokens(1)
    {
      CreditIsInEveryWindow(rate, events, from, now, ip, start);
    }
  }

  /** Without eviction a request draws from its visitor's bucket. */
  lemma DrawsCredit(rate: nat, s: State, q: nat, now: int)
    requires Tidy(rate, s, now) && q in s.calls
    ensures var ip := s.calls[q].ip;
            Step(rate, s, Draw(q, now), false).log == s.log + [Decision(ip, Credit(rate, s, ip, now) >= Tokens(1))]
  {
  }

  lemma KeepingDeniedIff(rate: nat, events: seq<Event>, q: nat, now: int, start: int)
    requires Timeline(events + [Draw(q, now)], start) && q in After(rate, EMPTY, events, false).calls
    ensures var s := After(rate, EMPTY, events, false);
            var ip := s.calls[q].ip;
            After(rate, EMPTY, events + [Draw(q, now)], false).log
            == s.log + [Decision(ip, !LimitReached(rate, events, now, ip, false))]
  {
    var s := After(rate, EMPTY, events, false);
    TimelineFront(events, Draw(q, now), start);
    RunKeepsTidy(rate, EMPTY, events, start);
    TidyLater(rate, s, End(events, start), now);
    AfterSnoc(rate, EMPTY, events, Draw(q, now), false);
    DrawsCredit(rate, s, q, now);
    NoCreditIff(rate, events, now, s.calls[q].ip, start);
  }

  // ---------------------------------------------------------------------------
  // With eviction

  lemma {:induction false} PromptFront(rate: nat, s: State, events: seq<Event>, e: Event, delay: nat)
    requires Valid(s) && Prompt(rate, s, events + [e], delay)
    ensures Prompt(rate, s, events, delay)
    decreases |events|
  {
    if events == [] {
    } else {
      assert (events + [e])[1..] == events[1..] + [e];
      PromptFront(rate, Step(rate, s, events[0], false), events[1..], e, delay);
    }
  }

  lemma {:induction false} SameGranted(rate: nat, events: seq<Event>, from: int, ip: string, start: int)
    requires Timeline(events, start) && Prompt(rate, EMPTY, events, PATIENCE)
    ensures GrantedSince(rate, events, from, ip, true) == GrantedSince(rate, events, from, ip, false)
    decreases |events|
  {
    if events == [] {
    } else {
      var front, e := events[..|events| - 1], events[|events| - 1];
      assert front + [e] == events;
      TimelineFront(front, e, start);
      PromptFront(rate, EMPTY, front, e, PATIENCE);
      EvictionUnobservable(rate, events, start, PATIENCE);
      EvictionUnobservable(rate, front, start, PATIENCE);
      SameGranted(rate, front, from, ip, start);
    }
  }

  lemma SameLimit(rate: nat, events: seq<Event>, now: int, ip: string, start: int)
    requires Timeline(events, start) && Prompt(rate, EMPTY, events, PATIENCE)
    ensures LimitReached(rate, events, now, ip, true) <==> LimitReached(rate, events, now, ip, false)
  {
    forall from
      ensures OverLimit(rate, events, from, now, ip, true) <==> OverLimit(rate, events, from, now, ip, false)
    {
      SameGranted(rate, events, from, ip, start);
    }
  }

  lemma SameCaller(rate: nat, events: seq<Event>, q: nat, start: int)
    requires Timeline(events, start) && Prompt(rate, EMPTY, events, PATIENCE)
    requires q in After(rate, EMPTY, events, true).calls
    ensures q in After(rate, EMPTY, events, false).calls
    ensures After(rate, EMPTY, events, false).calls[q].ip == After(rate, EMPTY, events, true).calls[q].ip
  {
    RunKeepsAlike(rate, EMPTY, EMPTY, events, start, PATIENCE);
    var e, k := After(rate, EMPTY, events, true), After(rate, EMPTY, events, false);
    assert CallAlike(e, k, q, End(events, start), PATIENCE);
  }

  lemma EvictingDeniedIff(rate: nat, events: seq<Event>, q: nat, now: int, start: int)
    requires Timeline(events + [Draw(q, now)], start) && q in After(rate, EMPTY, events, true).calls
    requires Prompt(rate, EMPTY, events + [Draw(q, now)], PATIENCE)
    ensures var s := After(rate, EMPTY, events, true);
            var ip := s.calls[q].ip;
            After(rate, EMPTY, events + [Draw(q, now)], true).log
            == s.log + [Decision(ip, !LimitReached(rate, events, now, ip, true))]
  {
    TimelineFront(events, Draw(q, now), start);
    PromptFront(rate, EMPTY, events, Draw(q, now), PATIENCE);
    SameCaller(rate, events, q, start);
    KeepingDeniedIff(rate, events, q, now, start);
    SameLimit(rate, events, now, After(rate, EMPTY, events, true).calls[q].ip, start);
    EvictionUnobservable(rate, events, start, PATIENCE);
    EvictionUnobservable(rate, events + [Draw(q, now)], start, PATIENCE);
  }

  /**
   After any run, a request that draws is denied if and only if one more request
   of its IP than were allowed since some moment would exceed the rate and what
   refills from that moment on: without eviction always, and with eviction if
   requests draw within nine minutes and a nanosecond of their visits.
   */
  lemma DeniedIff(rate: nat, events: seq<Event>, q: nat, now: int, start: int, evicting: bool)
    requires Timeline(events + [Draw(q, now)], start) && q in After(rate, EMPTY, events, evicting).calls
    requires evicting ==> Prompt(rate, EMPTY, events + [Draw(q, now)], PATIENCE)
    ensures var s := After(rate, EMPTY, events, evicting);
            var ip := s.calls[q].ip;
            After(rate, EMPTY, events + [Draw(q, now)], evicting).log
            == s.log + [Decision(ip, !exists from :: OverLimit(rate, events, from, now, ip, evicting))]
  {
    if evicting {
      EvictingDeniedIff(rate, events, q, now, start);
    } else {
      KeepingDeniedIff(rate, events, q, now, start);
    }
  }
}
