/**
 Evicting idle visitors makes no difference to any decision, exactly as long as
 requests draw soon after their visits.
 */
module RateEviction {
  import opened RateLimit

  // ---------------------------------------------------------------------------
  // Buckets

  lemma MulMonotone(k: nat, a: int, b: int)
    requires a <= b
    ensures k * a <= k * b
  {
  }

  predicate Full(rate: nat, b: Bucket, now: int) {
    Level(rate, b, now) == Capacity(rate)
  }

  lemma LevelGrows(rate: nat, b: Bucket, start: int, now: int)
    requires start <= now
    ensures Level(rate, b, start) <= Level(rate, b, now)
  {
    MulMonotone(rate, if start > b.last then start - b.last else 0, if now > b.last then now - b.last else 0);
  }

  lemma FullAfterAMinute(rate: nat, b: Bucket, now: int)
    requires now - b.last >= MINUTE
    ensures Full(rate, b, now)
  {
    MulMonotone(rate, MINUTE, now - b.last);
  }

  lemma NewBucketIsFull(rate: nat, start: int, now: int)
    requires start <= now
    ensures Full(rate, NewBucket(rate, start), now)
  {
    MulMonotone(rate, 0, now - start);
  }

  /** From `now` on nobody can tell the buckets apart. */
  predicate SameLevel(rate: nat, a: Bucket, b: Bucket, now: int) {
    a == b || (Full(rate, a, now) && Full(rate, b, now))
  }

  lemma SameLevelStays(rate: nat, a: Bucket, b: Bucket, start: int, now: int)
    requires SameLevel(rate, a, b, start) && start <= now
    ensures SameLevel(rate, a, b, now)
  {
    LevelGrows(rate, a, start, now);
    LevelGrows(rate, b, start, now);
  }

  lemma SameLevelSameDraw(rate: nat, a: Bucket, b: Bucket, now: int)
    requires SameLevel(rate, a, b, now)
    ensures HasToken(rate, a, now) <==> HasToken(rate, b, now)
    ensures SameLevel(rate, DrawnFrom(rate, a, now), DrawnFrom(rate, b, now), now)
  {
  }

  // ---------------------------------------------------------------------------
  // Eviction cannot be observed

  /** No two visitors share a bucket. */
  ghost predicate Distinct(s: State) {
    forall ip, jp | ip in s.visitors && jp in s.visitors && s.visitors[ip].bucket == s.visitors[jp].bucket :: ip == jp
  }

  /** The call's bucket is its visitor's. */
  predicate Attached(s: State, c: Call) {
    c.ip in s.visitors && s.visitors[c.ip].bucket == c.bucket && c.seen <= s.visitors[c.ip].lastSeen
  }

  /** The two limiters have the same calls; those that may still draw have their visitors. */
  predicate CallAlike(e: State, k: State, q: nat, now: int, delay: nat)
    requires q in e.calls && q in k.calls
  {
    && e.calls[q].ip == k.calls[q].ip && e.calls[q].seen == k.calls[q].seen <= now
    && Attached(k, k.calls[q])
    && (now <= e.calls[q].seen + delay ==> Attached(e, e.calls[q]))
  }

  /** The visitor's last draw is not long after it was last seen. */
  predicate DrewSoon(s: State, ip: string, delay: nat)
    requires Valid(s) && ip in s.visitors
  {
    s.buckets[s.visitors[ip].bucket].last <= s.visitors[ip].lastSeen + delay
  }

  /** For this IP the two limiters have visitors alike, or the one that was evicted has a full bucket by now. */
  predicate VisitorAlike(rate: nat, e: State, k: State, ip: string, now: int, delay: nat)
    requires Valid(e) && Valid(k)
  {
    && (ip in k.visitors ==> DrewSoon(k, ip, delay) && k.visitors[ip].lastSeen <= now)
    && (if ip in e.visitors
        then ip in k.visitors && e.visitors[ip].lastSeen == k.visitors[ip].lastSeen
             && SameLevel(rate, e.buckets[e.visitors[ip].bucket], k.buckets[k.visitors[ip].bucket], now)
        else ip in k.visitors ==> Full(rate, k.buckets[k.visitors[ip].bucket], now))
  }

  ghost predicate Alike(rate: nat, e: State, k: State, now: int, delay: nat) {
    && Valid(e) && Valid(k) && Distinct(e) && Distinct(k) && e.calls.Keys == k.calls.Keys && e.log == k.log
    && (forall q | q in e.calls :: CallAlike(e, k, q, now, delay))
    && (forall ip :: VisitorAlike(rate, e, k, ip, now, delay))
  }

  lemma VisitorStaysAlike(rate: nat, e: State, k: State, ip: string, start: int, now: int, delay: nat)
    requires Valid(e) && Valid(k) && VisitorAlike(rate, e, k, ip, start, delay) && start <= now
    ensures VisitorAlike(rate, e, k, ip, now, delay)
  {
    if ip in k.visitors {
      LevelGrows(rate, k.buckets[k.visitors[ip].bucket], start, now);
      if ip in e.visitors {
        SameLevelStays(rate, e.buckets[e.visitors[ip].bucket], k.buckets[k.visitors[ip].bucket], start, now);
      }
    }
  }

  /** Time passes. */
  lemma AlikeLater(rate: nat, e: State, k: State, start: int, now: int, delay: nat)
    requires Alike(rate, e, k, start, delay) && start <= now
    ensures Alike(rate, e, k, now, delay)
  {
    forall ip
      ensures VisitorAlike(rate, e, k, ip, now, delay)
    {
      VisitorStaysAlike(rate, e, k, ip, start, now, delay);
    }
    forall q | q in e.calls
      ensures CallAlike(e, k, q, now, delay)
    {
      assert CallAlike(e, k, q, start, delay);
    }
  }

  lemma VisitedAlike(rate: nat, e: State, k: State, q: nat, ip: string, now: int, delay: nat)
    requires Valid(e) && Valid(k) && VisitorAlike(rate, e, k, ip, now, delay)
    ensures VisitorAlike(rate, DoVisit(rate, e, q, ip, now), DoVisit(rate, k, q, ip, now), ip, now, delay)
  {
    NewBucketIsFull(rate, now, now);
  }

  lemma OthersVisitedAlike(rate: nat, e: State, k: State, q: nat, ip: string, now: int, delay: nat, jp: string)
    requires Valid(e) && Valid(k) && VisitorAlike(rate, e, k, jp, now, delay) && jp != ip
    ensures VisitorAlike(rate, DoVisit(rate, e, q, ip, now), DoVisit(rate, k, q, ip, now), jp, now, delay)
  {
  }

  lemma VisitKeepsDistinct(rate: nat, s: State, q: nat, ip: string, now: int)
    requires Valid(s) && Distinct(s)
    ensures Distinct(DoVisit(rate, s, q, ip, now))
  {
  }

  lemma CallVisitedAlike(rate: nat, e: State, k: State, q: nat, ip: string, now: int, delay: nat, p: nat)
    requires Valid(e) && Valid(k) && VisitorAlike(rate, e, k, ip, now, delay)
    requires p == q || (p in e.calls && p in k.calls && CallAlike(e, k, p, now, delay))
    ensures CallAlike(DoVisit(rate, e, q, ip, now), DoVisit(rate, k, q, ip, now), p, now, delay)
  {
  }

  lemma VisitKeepsAlike(rate: nat, e: State, k: State, q: nat, ip: string, now: int, delay: nat)
    requires Alike(rate, e, k, now, delay) && q !in e.calls
    ensures Alike(rate, DoVisit(rate, e, q, ip, now), DoVisit(rate, k, q, ip, now), now, delay)
  {
    var e', k' := DoVisit(rate, e, q, ip, now), DoVisit(rate, k, q, ip, now);
    VisitKeepsDistinct(rate, e, q, ip, now);
    VisitKeepsDistinct(rate, k, q, ip, now);
    forall jp
      ensures VisitorAlike(rate, e', k', jp, now, delay)
    {
      if jp == ip {
        VisitedAlike(rate, e, k, q, ip, now, delay);
      } else {
        OthersVisitedAlike(rate, e, k, q, ip, now, delay, jp);
      }
    }
    forall p | p in e'.calls
      ensures CallAlike(e', k', p, now, delay)
    {
      CallVisitedAlike(rate, e, k, q, ip, now, delay, p);
    }
  }

  lemma DrawnAlike(rate: nat, e: State, k: State, q: nat, now: int, delay: nat, ip: string)
    requires Valid(e) && Valid(k) && Distinct(e) && Distinct(k) && q in e.calls && q in k.calls
    requires CallAlike(e, k, q, now, delay) && now <= k.calls[q].seen + delay && VisitorAlike(rate, e, k, ip, now, delay)
    ensures VisitorAlike(rate, DoDraw(rate, e, q, now), DoDraw(rate, k, q, now), ip, now, delay)
  {
    if ip == k.calls[q].ip {
      SameLevelSameDraw(rate, e.buckets[e.calls[q].bucket], k.buckets[k.calls[q].bucket], now);
    }
  }

  lemma DrawKeepsAlike(rate: nat, e: State, k: State, q: nat, now: int, delay: nat)
    requires Alike(rate, e, k, now, delay) && q in e.calls && now <= k.calls[q].seen + delay
    ensures Alike(rate, DoDraw(rate, e, q, now), DoDraw(rate, k, q, now), now, delay)
  {
    var e', k' := DoDraw(rate, e, q, now), DoDraw(rate, k, q, now);
    assert CallAlike(e, k, q, now, delay) && VisitorAlike(rate, e, k, k.calls[q].ip, now, delay);
    SameLevelSameDraw(rate, e.buckets[e.calls[q].bucket], k.buckets[k.calls[q].bucket], now);
    forall ip
      ensures VisitorAlike(rate, e', k', ip, now, delay)
    {
      DrawnAlike(rate, e, k, q, now, delay, ip);
    }
    forall p | p in e'.calls
      ensures CallAlike(e', k', p, now, delay)
    {
      assert CallAlike(e, k, p, now, delay);
    }
  }

  lemma EvictedAlike(rate: nat, e: State, k: State, now: int, delay: nat, ip: string)
    requires Valid(e) && Valid(k) && VisitorAlike(rate, e, k, ip, now, delay) && delay <= PATIENCE
    ensures VisitorAlike(rate, e.(visitors := Evicted(e.visitors, now)), k, ip, now, delay)
  {
    if ip in e.visitors && ip !in Evicted(e.visitors, now) {
      FullAfterAMinute(rate, k.buckets[k.visitors[ip].bucket], now);
    }
  }

  lemma CleanupKeepsAlike(rate: nat, e: State, k: State, now: int, delay: nat)
    requires Alike(rate, e, k, now, delay) && delay <= PATIENCE
    ensures Alike(rate, e.(visitors := Evicted(e.visitors, now)), k, now, delay)
  {
    var e' := e.(visitors := Evicted(e.visitors, now));
    forall ip
      ensures VisitorAlike(rate, e', k, ip, now, delay)
    {
      EvictedAlike(rate, e, k, now, delay, ip);
    }
    forall q | q in e'.calls
      ensures CallAlike(e', k, q, now, delay)
    {
      assert CallAlike(e, k, q, now, delay);
    }
  }

  lemma StepKeepsAlike(rate: nat, e: State, k: State, x: Event, start: int, delay: nat)
    requires Alike(rate, e, k, start, delay) && start <= x.now && delay <= PATIENCE
    requires x.Draw? && x.request in k.calls ==> x.now <= k.calls[x.request].seen + delay
    ensures Alike(rate, Step(rate, e, x, true), Step(rate, k, x, false), x.now, delay)
  {
    AlikeLater(rate, e, k, start, x.now, delay);
    match x
    case Visit(q, ip, now) =>
      if q !in e.calls {
        VisitKeepsAlike(rate, e, k, q, ip, now, delay);
      }
    case Draw(q, now) =>
      if q in e.calls {
        DrawKeepsAlike(rate, e, k, q, now, delay);
      }
    case Cleanup(now) => CleanupKeepsAlike(rate, e, k, now, delay);
  }

  /** When the events are over. */
  function End(events: seq<Event>, start: int): int {
    if events == [] then start else events[|events| - 1].now
  }

  lemma EndUncons(events: seq<Event>, start: int)
    requires events != []
    ensures End(events, start) == End(events[1..], events[0].now)
  {
  }

  lemma {:induction false} RunKeepsAlike(rate: nat, e: State, k: State, events: seq<Event>, start: int, delay: nat)
    requires Alike(rate, e, k, start, delay) && Timeline(events, start) && Prompt(rate, k, events, delay)
    requires delay <= PATIENCE
    ensures Alike(rate, After(rate, e, events, true), After(rate, k, events, false), End(events, start), delay)
    decreases |events|
  {
    if events == [] {
    } else {
      EndUncons(events, start);
      StepKeepsAlike(rate, e, k, events[0], start, delay);
      RunKeepsAlike(rate, Step(rate, e, events[0], true), Step(rate, k, events[0], false), events[1..],
                    events[0].now, delay);
    }
  }

  /**
   Whatever the requests and wherever the cleanups fall: as long as every
   request draws within nine minutes and a nanosecond of its visit, the
   decisions are those of a limiter that never evicts.
   */
  lemma EvictionUnobservable(rate: nat, events: seq<Event>, start: int, delay: nat)
    requires Timeline(events, start) && Prompt(rate, EMPTY, events, delay) && delay <= PATIENCE
    ensures After(rate, EMPTY, events, true).log == After(rate, EMPTY, events, false).log
  {
    RunKeepsAlike(rate, EMPTY, EMPTY, events, start, delay);
  }

  // ---------------------------------------------------------------------------
  // Slow requests

  lemma AfterCons(rate: nat, s: State, e: Event, events: seq<Event>, evicting: bool)
    requires Valid(s)
    ensures After(rate, s, [e] + events, evicting) == After(rate, Step(rate, s, e, evicting), events, evicting)
  {
    assert ([e] + events)[1..] == events;
  }

  lemma PromptCons(rate: nat, s: State, e: Event, events: seq<Event>, delay: nat)
    requires Valid(s) && Prompt(rate, Step(rate, s, e, false), events, delay)
    requires e.Draw? && e.request in s.calls ==> e.now <= s.calls[e.request].seen + delay
    ensures Prompt(rate, s, [e] + events, delay)
  {
    assert ([e] + events)[1..] == events;
  }

  /** A limiter with one visitor. */
  function Alone(ip: string, level: nat, last: int, seen: int, calls: map<nat, Call>, log: seq<Decision>): State {
    State(map[ip := Visitor(0, seen)], [Bucket(level, last)], calls, log)
  }

  lemma FirstVisit(rate: nat, ip: string, q: nat, now: int)
    ensures DoVisit(rate, EMPTY, q, ip, now) == Alone(ip, Capacity(rate), now, now, map[q := Call(ip, 0, now)], [])
  {
    assert [] + [NewBucket(rate, now)] == [NewBucket(rate, now)];
  }

  lemma NextVisit(rate: nat, ip: string, level: nat, last: int, seen: int, log: seq<Decision>, q: nat, now: int)
    ensures DoVisit(rate, Alone(ip, level, last, seen, map[], log), q, ip, now)
            == Alone(ip, level, last, now, map[q := Call(ip, 0, now)], log)
  {
    assert map[ip := Visitor(0, seen)][ip := Visitor(0, now)] == map[ip := Visitor(0, now)];
  }

  lemma AloneDraws(rate: nat, ip: string, level: nat, last: int, seen: int, log: seq<Decision>, q: nat, now: int)
    ensures var b := Bucket(level, last);
            var r := DrawnFrom(rate, b, now);
            DoDraw(rate, Alone(ip, level, last, seen, map[q := Call(ip, 0, seen)], log), q, now)
            == Alone(ip, r.level, r.last, seen, map[], log + [Decision(ip, HasToken(rate, b, now))])
  {
    assert map[q := Call(ip, 0, seen)] - {q} == map[];
  }

  function LateRequest(ip: string): seq<Event> {
    [Visit(1, ip, IDLE + 1)] + ([Draw(1, IDLE + 1)] + [])
  }

  /** A request that draws too late, a cleanup, and another request. */
  function SlowRequests(ip: string): seq<Event> {
    [Visit(0, ip, 0)] + ([Draw(0, PATIENCE + 1)] + ([Cleanup(IDLE + 1)] + LateRequest(ip)))
  }

  /** A limiter with a rate of one after the first request, and after the cleanup. */
  function AfterSlow(ip: string, evicted: bool): State {
    var s := Alone(ip, 0, PATIENCE + 1, 0, map[], [Decision(ip, true)]);
    if evicted then s.(visitors := map[]) else s
  }

  /** The same limiter between the two calls of the first request. */
  function Slow(ip: string): State {
    Alone(ip, MINUTE, 0, 0, map[0 := Call(ip, 0, 0)], [])
  }

  lemma SlowVisit(ip: string)
    ensures DoVisit(1, EMPTY, 0, ip, 0) == Slow(ip)
  {
    FirstVisit(1, ip, 0, 0);
  }

  lemma SlowDraw(ip: string, more: seq<Event>, evicting: bool)
    ensures After(1, Slow(ip), [Draw(0, PATIENCE + 1)] + more, evicting)
            == After(1, AfterSlow(ip, false), more, evicting)
    ensures Prompt(1, AfterSlow(ip, false), more, PATIENCE + 1)
            ==> Prompt(1, Slow(ip), [Draw(0, PATIENCE + 1)] + more, PATIENCE + 1)
  {
    AloneDraws(1, ip, MINUTE, 0, 0, [], 0, PATIENCE + 1);
    assert [] + [Decision(ip, true)] == [Decision(ip, true)];
    assert DoDraw(1, Slow(ip), 0, PATIENCE + 1) == AfterSlow(ip, false);
    AfterCons(1, Slow(ip), Draw(0, PATIENCE + 1), more, evicting);
    if Prompt(1, AfterSlow(ip, false), more, PATIENCE + 1) {
      PromptCons(1, Slow(ip), Draw(0, PATIENCE + 1), more, PATIENCE + 1);
    }
  }

  lemma SlowStart(ip: string, more: seq<Event>, evicting: bool)
    ensures After(1, EMPTY, [Visit(0, ip, 0)] + ([Draw(0, PATIENCE + 1)] + more), evicting)
            == After(1, AfterSlow(ip, false), more, evicting)
    ensures Prompt(1, AfterSlow(ip, false), more, PATIENCE + 1)
            ==> Prompt(1, EMPTY, [Visit(0, ip, 0)] + ([Draw(0, PATIENCE + 1)] + more), PATIENCE + 1)
  {
    SlowVisit(ip);
    SlowDraw(ip, more, evicting);
    AfterCons(1, EMPTY, Visit(0, ip, 0), [Draw(0, PATIENCE + 1)] + more, evicting);
    if Prompt(1, AfterSlow(ip, false), more, PATIENCE + 1) {
      PromptCons(1, EMPTY, Visit(0, ip, 0), [Draw(0, PATIENCE + 1)] + more, PATIENCE + 1);
    }
  }

  /** With eviction the second request meets a new bucket, without it one that is not yet full. */
  lemma SlowEnd(ip: string, evicted: bool, evicting: bool)
    ensures After(1, AfterSlow(ip, evicted), LateRequest(ip), evicting).log == [Decision(ip, true), Decision(ip, evicted)]
    ensures Prompt(1, AfterSlow(ip, evicted), LateRequest(ip), PATIENCE + 1)
  {
    var s := AfterSlow(ip, evicted);
    var r := DoVisit(1, s, 1, ip, IDLE + 1);
    AfterCons(1, s, Visit(1, ip, IDLE + 1), [Draw(1, IDLE + 1)] + [], evicting);
    AfterCons(1, r, Draw(1, IDLE + 1), [], evicting);
    PromptCons(1, r, Draw(1, IDLE + 1), [], PATIENCE + 1);
    PromptCons(1, s, Visit(1, ip, IDLE + 1), [Draw(1, IDLE + 1)] + [], PATIENCE + 1);
    assert [Decision(ip, true)] + [Decision(ip, evicted)] == [Decision(ip, true), Decision(ip, evicted)];
  }

  lemma SlowMiddle(ip: string, evicting: bool)
    ensures Step(1, AfterSlow(ip, false), Cleanup(IDLE + 1), evicting) == AfterSlow(ip, evicting)
  {
    assert Evicted(AfterSlow(ip, false).visitors, IDLE + 1) == map[];
  }

  lemma SlowDecisions(ip: string, evicting: bool)
    ensures After(1, EMPTY, SlowRequests(ip), evicting).log == [Decision(ip, true), Decision(ip, evicting)]
  {
    SlowStart(ip, [Cleanup(IDLE + 1)] + LateRequest(ip), evicting);
    AfterCons(1, AfterSlow(ip, false), Cleanup(IDLE + 1), LateRequest(ip), evicting);
    SlowMiddle(ip, evicting);
    SlowEnd(ip, evicting, evicting);
  }

  lemma SlowPrompt(ip: string)
    ensures Prompt(1, EMPTY, SlowRequests(ip), PATIENCE + 1)
  {
    SlowEnd(ip, false, false);
    PromptCons(1, AfterSlow(ip, false), Cleanup(IDLE + 1), LateRequest(ip), PATIENCE + 1);
    SlowStart(ip, [Cleanup(IDLE + 1)] + LateRequest(ip), false);
  }

  lemma TimelineCons(e: Event, events: seq<Event>, start: int)
    requires start <= e.now && Timeline(events, e.now)
    ensures Timeline([e] + events, start)
  {
    assert ([e] + events)[1..] == events;
  }

  lemma SlowTimeline(ip: string)
    ensures Timeline(SlowRequests(ip), 0)
  {
    TimelineCons(Draw(1, IDLE + 1), [], IDLE + 1);
    TimelineCons(Visit(1, ip, IDLE + 1), [Draw(1, IDLE + 1)] + [], IDLE + 1);
    TimelineCons(Cleanup(IDLE + 1), LateRequest(ip), PATIENCE + 1);
    TimelineCons(Draw(0, PATIENCE + 1), [Cleanup(IDLE + 1)] + LateRequest(ip), 0);
    TimelineCons(Visit(0, ip, 0), [Draw(0, PATIENCE + 1)] + ([Cleanup(IDLE + 1)] + LateRequest(ip)), 0);
  }

  lemma {:induction false} PromptLonger(rate: nat, s: State, events: seq<Event>, delay: nat, longer: nat)
    requires Valid(s) && Prompt(rate, s, events, delay) && delay <= longer
    ensures Prompt(rate, s, events, longer)
    decreases |events|
  {
    if events == [] {
    } else {
      PromptLonger(rate, Step(rate, s, events[0], false), events[1..], delay, longer);
    }
  }

  /** Whatever the rate and the timeline, if requests draw within `delay`, eviction makes no difference. */
  ghost predicate Unobservable(delay: nat) {
    forall rate: nat, events: seq<Event>, start: int ::
      Timeline(events, start) && Prompt(rate, EMPTY, events, delay) ==>
        After(rate, EMPTY, events, true).log == After(rate, EMPTY, events, false).log
  }

  /** Eviction is unobservable exactly as long as requests draw within nine minutes, and a nanosecond, of their visits. */
  lemma EvictionUnobservableIff(delay: nat)
    ensures Unobservable(delay) <==> delay <= 540_000_000_001
  {
    if delay <= PATIENCE {
      forall rate: nat, events: seq<Event>, start: int | Timeline(events, start) && Prompt(rate, EMPTY, events, delay)
        ensures After(rate, EMPTY, events, true).log == After(rate, EMPTY, events, false).log
      {
        EvictionUnobservable(rate, events, start, delay);
      }
    } else {
      SlowTimeline("");
      SlowDecisions("", true);
      SlowDecisions("", false);
      SlowPrompt("");
      PromptLonger(1, EMPTY, SlowRequests(""), PATIENCE + 1, delay);
      assert After(1, EMPTY, SlowRequests(""), true).log[1] != After(1, EMPTY, SlowRequests(""), false).log[1];
    }
  }
}
