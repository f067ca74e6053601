/** How many requests of one IP the limiter allows in any window of time. */
module RateBound {
  import opened RateLimit
  import opened RateEviction

  // ---------------------------------------------------------------------------
  // The rate bound

  lemma CountSnoc(ds: seq<Decision>, d: Decision, ip: string)
    ensures CountAllowed(ds + [d], ip) == CountAllowed(ds, ip) + One(d == Decision(ip, true))
  {
    assert (ds + [d])[..|ds|] == ds;
  }

  predicate Sane(rate: nat, b: Bucket, now: int) {
    b.level <= Capacity(rate) && b.last <= now
  }

  /** Without eviction every call's bucket is its visitor's, and no bucket was drawn from after `now`. */
  ghost predicate Tidy(rate: nat, s: State, now: int) {
    && Valid(s) && Distinct(s)
    && (forall q | q in s.calls :: s.calls[q].ip in s.visitors && s.visitors[s.calls[q].ip].bucket == s.calls[q].bucket)
    && (forall n | 0 <= n < |s.buckets| :: Sane(rate, s.buckets[n], now))
  }

  lemma TidyLater(rate: nat, s: State, start: int, now: int)
    requires Tidy(rate, s, start) && start <= now
    ensures Tidy(rate, s, now)
  {
    forall n | 0 <= n < |s.buckets|
      ensures Sane(rate, s.buckets[n], now)
    {
      assert Sane(rate, s.buckets[n], start);
    }
  }

  lemma VisitKeepsTidy(rate: nat, s: State, q: nat, ip: string, now: int)
    requires Tidy(rate, s, now)
    ensures Tidy(rate, DoVisit(rate, s, q, ip, now), now)
  {
    VisitKeepsDistinct(rate, s, q, ip, now);
    assert Sane(rate, NewBucket(rate, now), now);
  }

  lemma DrawKeepsTidy(rate: nat, s: State, q: nat, now: int)
    requires Tidy(rate, s, now) && q in s.calls
    ensures Tidy(rate, DoDraw(rate, s, q, now), now)
  {
    var b := s.buckets[s.calls[q].bucket];
    assert Sane(rate, b, now) && Sane(rate, DrawnFrom(rate, b, now), now);
  }

  lemma StepKeepsTidy(rate: nat, s: State, e: Event, start: int)
    requires Tidy(rate, s, start) && start <= e.now
    ensures Tidy(rate, Step(rate, s, e, false), e.now)
  {
    TidyLater(rate, s, start, e.now);
    match e
    case Visit(q, ip, now) => VisitKeepsTidy(rate, s, q, ip, now);
    case Draw(q, now) =>
      if q in s.calls {
        DrawKeepsTidy(rate, s, q, now);
      }
    case Cleanup(now) =>
  }

  /** What the IP could still draw at time `now`. */
  function Credit(rate: nat, s: State, ip: string, now: int): nat
    requires Valid(s)
  {
    if ip in s.visitors then Level(rate, s.buckets[s.visitors[ip].bucket], now) else Capacity(rate)
  }

  lemma SplitSpan(rate: nat, a: int, b: int, c: int)
    ensures rate * (c - a) == rate * (b - a) + rate * (c - b)
  {
  }

  lemma CreditGrows(rate: nat, s: State, ip: string, start: int, now: int)
    requires start <= now && Tidy(rate, s, start)
    ensures Credit(rate, s, ip, now) <= Credit(rate, s, ip, start) + rate * (now - start)
  {
    if ip in s.visitors {
      assert Sane(rate, s.buckets[s.visitors[ip].bucket], start);
      SplitSpan(rate, s.buckets[s.visitors[ip].bucket].last, start, now);
    }
    MulMonotone(rate, 0, now - start);
  }

  /** How many requests of the IP were allowed from `s` to `r`. */
  function Granted(s: State, r: State, ip: string): int {
    CountAllowed(r.log, ip) - CountAllowed(s.log, ip)
  }

  lemma VisitCosts(rate: nat, s: State, q: nat, jp: string, now: int, ip: string)
    requires Valid(s)
    ensures Credit(rate, DoVisit(rate, s, q, jp, now), ip, now) == Credit(rate, s, ip, now)
  {
    NewBucketIsFull(rate, now, now);
  }

  lemma BucketCosts(rate: nat, b: Bucket, now: int)
    requires b.last <= now
    ensures Level(rate, DrawnFrom(rate, b, now), now) + Tokens(One(HasToken(rate, b, now))) == Level(rate, b, now)
  {
  }

  /** A draw of one IP's request leaves the buckets of other visitors alone. */
  lemma OthersKeepCredit(rate: nat, s: State, q: nat, now: int, ip: string)
    requires Tidy(rate, s, now) && q in s.calls && s.calls[q].ip != ip
    ensures Credit(rate, DoDraw(rate, s, q, now), ip, now) == Credit(rate, s, ip, now)
  {
  }

  lemma DrawCosts(rate: nat, s: State, q: nat, now: int, ip: string)
    requires Tidy(rate, s, now) && q in s.calls
    ensures var d := Decision(s.calls[q].ip, HasToken(rate, s.buckets[s.calls[q].bucket], now));
            Credit(rate, DoDraw(rate, s, q, now), ip, now) + Tokens(One(d == Decision(ip, true)))
            == Credit(rate, s, ip, now)
  {
    if s.calls[q].ip == ip {
      assert Sane(rate, s.buckets[s.calls[q].bucket], now);
      BucketCosts(rate, s.buckets[s.calls[q].bucket], now);
    } else {
      OthersKeepCredit(rate, s, q, now, ip);
    }
  }

  lemma DrawGrants(rate: nat, s: State, q: nat, now: int, ip: string)
    requires Valid(s) && q in s.calls
    ensures var d := Decision(s.calls[q].ip, HasToken(rate, s.buckets[s.calls[q].bucket], now));
            Granted(s, DoDraw(rate, s, q, now), ip) == One(d == Decision(ip, true))
  {
    CountSnoc(s.log, Decision(s.calls[q].ip, HasToken(rate, s.buckets[s.calls[q].bucket], now)), ip);
  }

  /** An allowed request costs one token of its own IP's credit; nothing else costs any. */
  lemma StepCosts(rate: nat, s: State, e: Event, ip: string, start: int)
    requires Tidy(rate, s, start) && start <= e.now
    ensures var r := Step(rate, s, e, false);
            && 0 <= Granted(s, r, ip) <= 1
            && Credit(rate, r, ip, e.now) + Tokens(Granted(s, r, ip)) == Credit(rate, s, ip, e.now)
  {
    match e
    case Visit(q, jp, now) => VisitCosts(rate, s, q, jp, now, ip);
    case Draw(q, now) =>
      if q in s.calls {
        TidyLater(rate, s, start, now);
        DrawCosts(rate, s, q, now, ip);
        DrawGrants(rate, s, q, now, ip);
      }
    case Cleanup(now) =>
  }

  lemma {:induction false} LastIsLatest(events: seq<Event>, start: int)
    requires events != [] && Timeline(events, start)
    ensures start <= events[0].now <= events[|events| - 1].now
    decreases |events|
  {
    if |events| == 1 {
    } else {
      LastIsLatest(events[1..], events[0].now);
    }
  }

  lemma {:induction false} CreditCoversAllowed(rate: nat, s: State, events: seq<Event>, ip: string, start: int,
                                               end: int)
    requires Tidy(rate, s, start) && Timeline(events, start) && start <= end
    requires events != [] ==> events[|events| - 1].now <= end
    ensures var n := Granted(s, After(rate, s, events, false), ip);
            0 <= n && Tokens(n) <= Credit(rate, s, ip, start) + rate * (end - start)
    decreases |events|
  {
    if events == [] {
      MulMonotone(rate, 0, end - start);
    } else {
      var e := events[0];
      LastIsLatest(events, start);
      CreditGrows(rate, s, ip, start, e.now);
      StepCosts(rate, s, e, ip, start);
      StepKeepsTidy(rate, s, e, start);
      CreditCoversAllowed(rate, Step(rate, s, e, false), events[1..], ip, e.now, end);
      SplitSpan(rate, start, e.now, end);
    }
  }

  lemma {:induction false} RunKeepsTidy(rate: nat, s: State, events: seq<Event>, start: int)
    requires Tidy(rate, s, start) && Timeline(events, start)
    ensures Tidy(rate, After(rate, s, events, false), End(events, start))
    decreases |events|
  {
    if events == [] {
    } else {
      EndUncons(events, start);
      StepKeepsTidy(rate, s, events[0], start);
      RunKeepsTidy(rate, Step(rate, s, events[0], false), events[1..], events[0].now);
    }
  }

  lemma FloorBound(n: nat, rate: nat, units: nat)
    requires Tokens(n) <= Tokens(rate) + units
    ensures n <= rate + units / MINUTE
  {
  }

  predicate Within(events: seq<Event>, start: int, end: int) {
    Timeline(events, start) && (events != [] ==> events[|events| - 1].now <= end)
  }

  /** A window of a timeline: it starts at `from` and lasts `span`. */
  predicate IsWindow(before: seq<Event>, window: seq<Event>, start: int, from: int, span: nat) {
    Within(before, start, from) && start <= from && Within(window, from, from + span)
  }

  lemma SpanFrom(rate: nat, from: int, span: nat)
    ensures rate * (from + span - from) == rate * span
  {
  }

  lemma WindowTokens(rate: nat, s: State, window: seq<Event>, ip: string, from: int, span: nat)
    requires Tidy(rate, s, from) && Within(window, from, from + span)
    ensures var n := Granted(s, After(rate, s, window, false), ip);
            0 <= n && Tokens(n) <= Tokens(rate) + rate * span
  {
    CreditCoversAllowed(rate, s, window, ip, from, from + span);
    SpanFrom(rate, from, span);
    assert Credit(rate, s, ip, from) <= Capacity(rate);
  }

  /** The rate, and the rate times the span in minutes, rounded down. */
  function Limit(rate: nat, span: nat): nat {
    rate + rate * span / MINUTE
  }

  lemma TokensWithinLimit(n: nat, rate: nat, span: nat)
    requires Tokens(n) <= Tokens(rate) + rate * span
    ensures n <= Limit(rate, span)
  {
    FloorBound(n, rate, rate * span);
  }

  lemma WindowCount(rate: nat, s: State, window: seq<Event>, ip: string, from: int, span: nat)
    requires Tidy(rate, s, from) && Within(window, from, from + span)
    ensures Granted(s, After(rate, s, window, false), ip) <= Limit(rate, span)
  {
    WindowTokens(rate, s, window, ip, from, span);
    TokensWithinLimit(Granted(s, After(rate, s, window, false), ip), rate, span);
  }

  lemma TidyAfter(rate: nat, before: seq<Event>, start: int, from: int)
    requires Within(before, start, from) && start <= from
    ensures Tidy(rate, After(rate, EMPTY, before, false), from)
  {
    RunKeepsTidy(rate, EMPTY, before, start);
    TidyLater(rate, After(rate, EMPTY, before, false), End(before, start), from);
  }

  /** How many requests of the IP are allowed in the window. */
  function AllowedIn(rate: nat, before: seq<Event>, window: seq<Event>, evicting: bool, ip: string): int {
    var s := After(rate, EMPTY, before, evicting);
    Granted(s, After(rate, s, window, evicting), ip)
  }

  /** Every request of the run draws within `delay` of its visit. */
  predicate PromptIn(rate: nat, before: seq<Event>, window: seq<Event>, delay: nat) {
    Prompt(rate, EMPTY, before, delay) && Prompt(rate, After(rate, EMPTY, before, false), window, delay)
  }

  lemma KeepingWindowBound(rate: nat, before: seq<Event>, window: seq<Event>, ip: string, start: int,
                           from: int, span: nat)
    requires IsWindow(before, window, start, from, span)
    ensures AllowedIn(rate, before, window, false, ip) <= Limit(rate, span)
  {
    TidyAfter(rate, before, start, from);
    WindowCount(rate, After(rate, EMPTY, before, false), window, ip, from, span);
  }

  lemma SameAllowed(rate: nat, before: seq<Event>, window: seq<Event>, ip: string, start: int, from: int, span: nat,
                    delay: nat)
    requires IsWindow(before, window, start, from, span) && PromptIn(rate, before, window, delay) && delay <= PATIENCE
    ensures AllowedIn(rate, before, window, true, ip) == AllowedIn(rate, before, window, false, ip)
  {
    var e, k := After(rate, EMPTY, before, true), After(rate, EMPTY, before, false);
    RunKeepsAlike(rate, EMPTY, EMPTY, before, start, delay);
    AlikeLater(rate, e, k, End(before, start), from, delay);
    RunKeepsAlike(rate, e, k, window, from, delay);
  }

  /**
   In any window of `span` nanoseconds of any run at most `rate` plus `rate`
   times the window in minutes, rounded down, requests of one IP are allowed:
   without eviction always, and with eviction if requests draw within nine
   minutes and a nanosecond of their visits.
   */
  lemma WindowBound(rate: nat, before: seq<Event>, window: seq<Event>, evicting: bool, ip: string,
                    start: int, from: int, span: nat)
    requires IsWindow(before, window, start, from, span) && (evicting ==> PromptIn(rate, before, window, PATIENCE))
    ensures AllowedIn(rate, before, window, evicting, ip) <= rate + rate * span / MINUTE
  {
    KeepingWindowBound(rate, before, window, ip, start, from, span);
    if evicting {
      SameAllowed(rate, before, window, ip, start, from, span, PATIENCE);
    }
  }

  /** In any minute at most twice the configured number of requests of one IP are allowed. */
  lemma MinuteBound(rate: nat, before: seq<Event>, window: seq<Event>, evicting: bool, ip: string, start: int,
                    from: int)
    requires IsWindow(before, window, start, from, MINUTE) && (evicting ==> PromptIn(rate, before, window, PATIENCE))
    ensures AllowedIn(rate, before, window, evicting, ip) <= 2 * rate
  {
    WindowBound(rate, before, window, evicting, ip, start, from, MINUTE);
  }

  /** Requests at one instant, numbered from `first`, and what follows them. */
  function Burst(ip: string, now: int, first: nat, n: nat, more: seq<Event>): seq<Event>
    decreases n
  {
    if n == 0 then more else [Visit(first, ip, now)] + ([Draw(first, now)] + Burst(ip, now, first + 1, n - 1, more))
  }

  /** A limiter with one visitor, who is not between two calls, and `n` tokens left at time `now`. */
  function Left(ip: string, n: nat, now: int, log: seq<Decision>): State {
    Alone(ip, Tokens(n), now, now, map[], log)
  }

  lemma DrawsOne(rate: nat, b: Bucket, now: int, n: nat)
    requires n > 0 && Level(rate, b, now) == Tokens(n)
    ensures HasToken(rate, b, now) && DrawnFrom(rate, b, now) == Bucket(Tokens(n - 1), now)
  {
  }

  /** A request that finds a bucket with `n` tokens, and the first one. */
  lemma ServeNext(rate: nat, ip: string, level: nat, last: int, seen: int, log: seq<Decision>, n: nat, q: nat, now: int,
                  more: seq<Event>, evicting: bool)
    requires n > 0 && Level(rate, Bucket(level, last), now) == Tokens(n)
    ensures After(rate, Alone(ip, level, last, seen, map[], log), [Visit(q, ip, now)] + ([Draw(q, now)] + more), evicting)
            == After(rate, Left(ip, n - 1, now, log + [Decision(ip, true)]), more, evicting)
  {
    var s := Alone(ip, level, last, seen, map[], log);
    var m := Alone(ip, level, last, now, map[q := Call(ip, 0, now)], log);
    AfterCons(rate, s, Visit(q, ip, now), [Draw(q, now)] + more, evicting);
    NextVisit(rate, ip, level, last, seen, log, q, now);
    AfterCons(rate, m, Draw(q, now), more, evicting);
    DrawsOne(rate, Bucket(level, last), now, n);
    AloneDraws(rate, ip, level, last, now, log, q, now);
  }

  lemma LevelNow(rate: nat, n: nat, now: int)
    requires n <= rate
    ensures Level(rate, Bucket(Tokens(n), now), now) == Tokens(n)
  {
  }

  lemma ServeFirst(rate: nat, ip: string, q: nat, now: int, more: seq<Event>, evicting: bool)
    requires rate >= 1
    ensures After(rate, EMPTY, [Visit(q, ip, now)] + ([Draw(q, now)] + more), evicting)
            == After(rate, Left(ip, rate - 1, now, [] + [Decision(ip, true)]), more, evicting)
  {
    AfterCons(rate, EMPTY, Visit(q, ip, now), [Draw(q, now)] + more, evicting);
    FirstVisit(rate, ip, q, now);
    AfterCons(rate, DoVisit(rate, EMPTY, q, ip, now), Draw(q, now), more, evicting);
    LevelNow(rate, rate, now);
    DrawsOne(rate, NewBucket(rate, now), now, rate);
    AloneDraws(rate, ip, Capacity(rate), now, now, [], q, now);
  }

  lemma BurstServes(rate: nat, ip: string, now: int, first: nat, n: nat, log: seq<Decision>, more: seq<Event>,
                    evicting: bool)
    requires 0 < n <= rate
    ensures After(rate, Left(ip, n, now, log), Burst(ip, now, first, n, more), evicting)
            == After(rate, Left(ip, n - 1, now, log + [Decision(ip, true)]),
                     Burst(ip, now, first + 1, n - 1, more), evicting)
  {
    LevelNow(rate, n, now);
    ServeNext(rate, ip, Tokens(n), now, now, log, n, first, now, Burst(ip, now, first + 1, n - 1, more), evicting);
  }

  /** So many times allowed. */
  function Yes(ip: string, n: nat): seq<Decision> {
    seq(n, _ => Decision(ip, true))
  }

  lemma YesCons(log: seq<Decision>, ip: string, n: nat)
    requires n > 0
    ensures log + [Decision(ip, true)] + Yes(ip, n - 1) == log + Yes(ip, n)
  {
  }

  lemma {:induction false} YesCounts(log: seq<Decision>, ip: string, n: nat)
    ensures CountAllowed(log + Yes(ip, n), ip) == CountAllowed(log, ip) + n
    decreases n
  {
    if n == 0 {
      assert log + Yes(ip, 0) == log;
    } else {
      YesCounts(log, ip, n - 1);
      CountSnoc(log + Yes(ip, n - 1), Decision(ip, true), ip);
      assert log + Yes(ip, n) == log + Yes(ip, n - 1) + [Decision(ip, true)];
    }
  }

  /** While there are tokens for them, requests at one instant are all allowed. */
  lemma {:induction false} BurstAllowed(rate: nat, ip: string, now: int, first: nat, n: nat, log: seq<Decision>,
                                        more: seq<Event>, evicting: bool)
    requires n <= rate
    ensures After(rate, Left(ip, n, now, log), Burst(ip, now, first, n, more), evicting)
            == After(rate, Left(ip, 0, now, log + Yes(ip, n)), more, evicting)
    decreases n
  {
    if n == 0 {
      assert log + Yes(ip, 0) == log;
    } else {
      BurstServes(rate, ip, now, first, n, log, more, evicting);
      BurstAllowed(rate, ip, now, first + 1, n - 1, log + [Decision(ip, true)], more, evicting);
      YesCons(log, ip, n);
    }
  }

  lemma WithinCons(e: Event, events: seq<Event>, start: int, end: int)
    requires start <= e.now <= end && Within(events, e.now, end)
    ensures Within([e] + events, start, end)
  {
    TimelineCons(e, events, start);
    assert events != [] ==> ([e] + events)[|events|] == events[|events| - 1];
  }

  lemma {:induction false} BurstWithin(ip: string, now: int, first: nat, n: nat, more: seq<Event>, end: int)
    requires Within(more, now, end) && now <= end
    ensures Within(Burst(ip, now, first, n, more), now, end)
    decreases n
  {
    if n == 0 {
    } else {
      var rest := Burst(ip, now, first + 1, n - 1, more);
      BurstWithin(ip, now, first + 1, n - 1, more, end);
      WithinCons(Draw(first, now), rest, now, end);
      WithinCons(Visit(first, ip, now), [Draw(first, now)] + rest, now, end);
    }
  }

  lemma TimelineEarlier(events: seq<Event>, start: int, earlier: int)
    requires Timeline(events, start) && earlier <= start
    ensures Timeline(events, earlier)
  {
  }

  lemma FirstBurst(rate: nat, ip: string, more: seq<Event>, evicting: bool)
    requires rate >= 1
    ensures After(rate, EMPTY, Burst(ip, 0, 0, rate, more), evicting)
            == After(rate, Left(ip, 0, 0, Yes(ip, rate)), more, evicting)
  {
    ServeFirst(rate, ip, 0, 0, Burst(ip, 0, 1, rate - 1, more), evicting);
    BurstAllowed(rate, ip, 0, 1, rate - 1, [] + [Decision(ip, true)], more, evicting);
    YesCons([], ip, rate);
    assert [] + Yes(ip, rate) == Yes(ip, rate);
  }

  lemma RefilledServes(rate: nat, ip: string, log: seq<Decision>, evicting: bool)
    requires rate >= 1
    ensures After(rate, Left(ip, 0, 0, log), Burst(ip, MINUTE, rate, rate, []), evicting)
            == After(rate, Left(ip, rate - 1, MINUTE, log + [Decision(ip, true)]),
                     Burst(ip, MINUTE, rate + 1, rate - 1, []), evicting)
  {
    FullAfterAMinute(rate, Bucket(0, 0), MINUTE);
    ServeNext(rate, ip, 0, 0, 0, log, rate, rate, MINUTE, Burst(ip, MINUTE, rate + 1, rate - 1, []), evicting);
  }

  lemma SecondBurst(rate: nat, ip: string, log: seq<Decision>, evicting: bool)
    requires rate >= 1
    ensures After(rate, Left(ip, 0, 0, log), Burst(ip, MINUTE, rate, rate, []), evicting)
            == Left(ip, 0, MINUTE, log + Yes(ip, rate))
  {
    RefilledServes(rate, ip, log, evicting);
    BurstAllowed(rate, ip, MINUTE, rate + 1, rate - 1, log + [Decision(ip, true)], [], evicting);
    YesCons(log, ip, rate);
  }

  lemma TwoBurstsCount(rate: nat, ip: string)
    ensures CountAllowed(Yes(ip, rate) + Yes(ip, rate), ip) == 2 * rate
  {
    YesCounts([], ip, rate);
    assert [] + Yes(ip, rate) == Yes(ip, rate);
    YesCounts(Yes(ip, rate), ip, rate);
  }

  /** Twice the rate within one minute is reached: a full burst at its start and one at its end. */
  lemma MinuteBoundIsReached(rate: nat, ip: string, evicting: bool)
    requires rate >= 1
    ensures var window := Burst(ip, 0, 0, rate, Burst(ip, MINUTE, rate, rate, []));
            && IsWindow([], window, 0, 0, MINUTE)
            && AllowedIn(rate, [], window, evicting, ip) == 2 * rate
  {
    var second := Burst(ip, MINUTE, rate, rate, []);
    BurstWithin(ip, MINUTE, rate, rate, [], MINUTE);
    TimelineEarlier(second, MINUTE, 0);
    BurstWithin(ip, 0, 0, rate, second, MINUTE);
    FirstBurst(rate, ip, second, evicting);
    SecondBurst(rate, ip, Yes(ip, rate), evicting);
    TwoBurstsCount(rate, ip);
  }

  // ---------------------------------------------------------------------------
  // How long a request may take

  /** A request draws one nanosecond too late, its visitor is evicted, and another request is served. */
  function SlowWindow(ip: string): seq<Event> {
    [Draw(0, PATIENCE + 1)] + ([Cleanup(IDLE + 1)] + LateRequest(ip))
  }

  lemma SlowWindowIsWindow(ip: string)
    ensures IsWindow([Visit(0, ip, 0)], SlowWindow(ip), 0, PATIENCE + 1, MINUTE - 1)
  {
    WithinCons(Draw(1, IDLE + 1), [], IDLE + 1, IDLE + 1);
    WithinCons(Visit(1, ip, IDLE + 1), [Draw(1, IDLE + 1)] + [], IDLE + 1, IDLE + 1);
    WithinCons(Cleanup(IDLE + 1), LateRequest(ip), PATIENCE + 1, IDLE + 1);
    WithinCons(Draw(0, PATIENCE + 1), [Cleanup(IDLE + 1)] + LateRequest(ip), PATIENCE + 1, IDLE + 1);
  }

  lemma SlowBefore(ip: string, evicting: bool)
    ensures After(1, EMPTY, [Visit(0, ip, 0)], evicting) == Slow(ip)
    ensures Prompt(1, EMPTY, [Visit(0, ip, 0)], PATIENCE + 1)
  {
    assert [Visit(0, ip, 0)] + [] == [Visit(0, ip, 0)];
    AfterCons(1, EMPTY, Visit(0, ip, 0), [], evicting);
    PromptCons(1, EMPTY, Visit(0, ip, 0), [], PATIENCE + 1);
    SlowVisit(ip);
  }

  lemma SlowWindowRun(ip: string)
    ensures After(1, Slow(ip), SlowWindow(ip), true).log == [Decision(ip, true), Decision(ip, true)]
  {
    SlowDraw(ip, [Cleanup(IDLE + 1)] + LateRequest(ip), true);
    AfterCons(1, AfterSlow(ip, false), Cleanup(IDLE + 1), LateRequest(ip), true);
    SlowMiddle(ip, true);
    SlowEnd(ip, true, true);
  }

  lemma SlowWindowIsPrompt(ip: string)
    ensures Prompt(1, Slow(ip), SlowWindow(ip), PATIENCE + 1)
  {
    SlowEnd(ip, false, false);
    PromptCons(1, AfterSlow(ip, false), Cleanup(IDLE + 1), LateRequest(ip), PATIENCE + 1);
    SlowDraw(ip, [Cleanup(IDLE + 1)] + LateRequest(ip), false);
  }

  lemma TwoAllowed(ip: string)
    ensures CountAllowed([Decision(ip, true), Decision(ip, true)], ip) == 2
  {
    CountSnoc([], Decision(ip, true), ip);
    CountSnoc([Decision(ip, true)], Decision(ip, true), ip);
    assert [] + [Decision(ip, true)] == [Decision(ip, true)];
    assert [Decision(ip, true)] + [Decision(ip, true)] == [Decision(ip, true), Decision(ip, true)];
  }

  /** One nanosecond more breaks the bound: at a rate of one, two requests within less than a minute are allowed. */
  lemma StalledRequestBreaksBound(ip: string)
    ensures IsWindow([Visit(0, ip, 0)], SlowWindow(ip), 0, PATIENCE + 1, MINUTE - 1)
    ensures PromptIn(1, [Visit(0, ip, 0)], SlowWindow(ip), PATIENCE + 1)
    ensures AllowedIn(1, [Visit(0, ip, 0)], SlowWindow(ip), true, ip) == 2 > Limit(1, MINUTE - 1)
  {
    SlowWindowIsWindow(ip);
    SlowBefore(ip, true);
    SlowBefore(ip, false);
    SlowWindowIsPrompt(ip);
    SlowWindowRun(ip);
    TwoAllowed(ip);
  }

  /** Whatever the rate, the window and the IP, if requests draw within `delay`, the limit is kept. */
  ghost predicate Bounded(delay: nat) {
    forall rate: nat, before: seq<Event>, window: seq<Event>, ip: string, start: int, from: int, span: nat ::
      IsWindow(before, window, start, from, span) && PromptIn(rate, before, window, delay) ==>
        AllowedIn(rate, before, window, true, ip) <= Limit(rate, span)
  }

  lemma PromptInLonger(rate: nat, before: seq<Event>, window: seq<Event>, delay: nat, longer: nat)
    requires PromptIn(rate, before, window, delay) && delay <= longer
    ensures PromptIn(rate, before, window, longer)
  {
    PromptLonger(rate, EMPTY, before, delay, longer);
    PromptLonger(rate, After(rate, EMPTY, before, false), window, delay, longer);
  }

  /** The evicting limiter keeps its limit exactly as long as requests draw within nine minutes and a nanosecond. */
  lemma WindowBoundIff(delay: nat)
    ensures Bounded(delay) <==> delay <= 540_000_000_001
  {
    if delay <= PATIENCE {
      forall rate: nat, before: seq<Event>, window: seq<Event>, ip: string, start: int, from: int, span: nat
        | IsWindow(before, window, start, from, span) && PromptIn(rate, before, window, delay)
        ensures AllowedIn(rate, before, window, true, ip) <= Limit(rate, span)
      {
        PromptInLonger(rate, before, window, delay, PATIENCE);
        WindowBound(rate, before, window, true, ip, start, from, span);
      }
    } else {
      StalledRequestBreaksBound("");
      PromptInLonger(1, [Visit(0, "", 0)], SlowWindow(""), PATIENCE + 1, delay);
    }
  }
}
