/**
 The per-IP rate limiter: a map of token buckets from which idle visitors are
 evicted. A request is two calls: under the lock it finds or makes its visitor
 and notes the time, and afterwards, without the lock, it draws from the
 visitor's bucket, which may have left the map by then.

 Times are nanoseconds; a bucket's level is counted in units of which one token
 has 60 000 000 000, so that `rate` tokens per minute are exactly `rate` units
 per nanosecond. Buckets are named by their position in creation order.
 */
module RateLimit {

  const MINUTE: nat := 60_000_000_000
  const IDLE: nat := 10 * MINUTE

  /** The longest time from note to draw for which an evicted bucket is always full by the time it is replaced. */
  const PATIENCE: nat := IDLE - MINUTE + 1

  datatype Bucket = Bucket(level: nat, last: int)

  datatype Visitor = Visitor(bucket: nat, lastSeen: int)

  /** A request between its two calls. */
  datatype Call = Call(ip: string, bucket: nat, seen: int)

  /** What a request is told. */
  datatype Decision = Decision(ip: string, allowed: bool)

  /** The limiter, the requests between their two calls, and the decisions so far. */
  datatype State = State(visitors: map<string, Visitor>, buckets: seq<Bucket>, calls: map<nat, Call>, log: seq<Decision>)

  const EMPTY := State(map[], [], map[], [])

  // ---------------------------------------------------------------------------
  // The limiter

  /** So many tokens, in units. */
  function Tokens(n: nat): nat {
    n * 60_000_000_000
  }

  /** Bursts up to the number of requests per minute are allowed. */
  function Capacity(rate: nat): nat {
    Tokens(rate)
  }

  /** The level of the bucket at time `now`; a clock that went back does not drain it. */
  function Level(rate: nat, b: Bucket, now: int): nat {
    var level := b.level + rate * (if now > b.last then now - b.last else 0);
    if level > Capacity(rate) then Capacity(rate) else level
  }

  /** A new bucket is full. */
  function NewBucket(rate: nat, now: int): Bucket {
    Bucket(Capacity(rate), now)
  }

  predicate HasToken(rate: nat, b: Bucket, now: int) {
    Level(rate, b, now) >= MINUTE
  }

  /** The bucket after a draw: one token less if there was one. */
  function DrawnFrom(rate: nat, b: Bucket, now: int): Bucket {
    if HasToken(rate, b, now) then Bucket(Level(rate, b, now) - MINUTE, now) else b
  }

  datatype Event = Visit(request: nat, ip: string, now: int) | Draw(request: nat, now: int) | Cleanup(now: int)

  /** Every bucket named anywhere exists. */
  predicate Valid(s: State) {
    && (forall ip | ip in s.visitors :: s.visitors[ip].bucket < |s.buckets|)
    && (forall q | q in s.calls :: s.calls[q].bucket < |s.buckets|)
  }

  /** The locked part of `Allow`. */
  function DoVisit(rate: nat, s: State, q: nat, ip: string, now: int): (r: State)
    requires Valid(s)
    ensures Valid(r)
  {
    var known := ip in s.visitors;
    var b := if known then s.visitors[ip].bucket else |s.buckets|;
    State(s.visitors[ip := Visitor(b, now)], if known then s.buckets else s.buckets + [NewBucket(rate, now)],
          s.calls[q := Call(ip, b, now)], s.log)
  }

  /** The rest of it, on the bucket found there. */
  function DoDraw(rate: nat, s: State, q: nat, now: int): (r: State)
    requires Valid(s) && q in s.calls
    ensures Valid(r)
  {
    var b := s.calls[q].bucket;
    s.(buckets := s.buckets[b := DrawnFrom(rate, s.buckets[b], now)], calls := s.calls - {q},
       log := s.log + [Decision(s.calls[q].ip, HasToken(rate, s.buckets[b], now))])
  }

  /** One pass of `cleanupLoop`. */
  function Evicted(visitors: map<string, Visitor>, now: int): map<string, Visitor> {
    map ip | ip in visitors && now - visitors[ip].lastSeen <= IDLE :: visitors[ip]
  }

  /** An event: a request number that is in use makes no second visit, and only a request that has visited draws. */
  function Step(rate: nat, s: State, e: Event, evicting: bool): (r: State)
    requires Valid(s)
    ensures Valid(r)
  {
    match e
    case Visit(q, ip, now) => if q in s.calls then s else DoVisit(rate, s, q, ip, now)
    case Draw(q, now) => if q in s.calls then DoDraw(rate, s, q, now) else s
    case Cleanup(now) => if evicting then s.(visitors := Evicted(s.visitors, now)) else s
  }

  // ---------------------------------------------------------------------------
  // Timelines

  /** Time does not go back. */
  predicate Timeline(events: seq<Event>, start: int)
    decreases |events|
  {
    events == [] || (start <= events[0].now && Timeline(events[1..], events[0].now))
  }

  function After(rate: nat, s: State, events: seq<Event>, evicting: bool): (r: State)
    requires Valid(s)
    ensures Valid(r)
    decreases |events|
  {
    if events == [] then s else After(rate, Step(rate, s, events[0], evicting), events[1..], evicting)
  }

  function One(b: bool): nat {
    if b then 1 else 0
  }

  /** How many requests of one IP are allowed. */
  function CountAllowed(ds: seq<Decision>, ip: string): nat {
    if ds == [] then 0 else CountAllowed(ds[..|ds| - 1], ip) + One(ds[|ds| - 1] == Decision(ip, true))
  }

  /** Every request draws at most `delay` after its visit. */
  predicate Prompt(rate: nat, s: State, events: seq<Event>, delay: nat)
    requires Valid(s)
    decreases |events|
  {
    || events == []
    || (&& (events[0].Draw? && events[0].request in s.calls ==> events[0].now <= s.calls[events[0].request].seen + delay)
        && Prompt(rate, Step(rate, s, events[0], false), events[1..], delay))
  }

  // ---------------------------------------------------------------------------
  // The limiter object

  /** A `rate.Limiter` of `requestsPerMin` per minute. */
  class TokenBucket {
    const rate: nat
    var bucket: Bucket

    constructor (rate: nat, now: int)
      ensures this.rate == rate && bucket == NewBucket(rate, now)
    {
      this.rate := rate;
      bucket := NewBucket(rate, now);
    }

    method Allow(now: int) returns (ok: bool)
      modifies this
      ensures ok == HasToken(rate, old(bucket), now)
      ensures bucket == DrawnFrom(rate, old(bucket), now)
    {
      var level := bucket.level;
      if now > bucket.last {
        level := level + rate * (now - bucket.last);
      }
      if level > Capacity(rate) {
        level := Capacity(rate);
      }
      ok := level >= MINUTE;
      if ok {
        bucket := Bucket(level - MINUTE, now);
      }
    }
  }

  datatype Entry = Entry(limiter: TokenBucket, lastSeen: int)

  class RateLimiter {
    var visitors: map<string, Entry>
    const rate: nat

    constructor (requestsPerMin: nat)
      ensures visitors == map[] && rate == requestsPerMin
    {
      visitors := map[];
      rate := requestsPerMin;
    }

    /** The locked part of `Allow`. */
    method Note(ip: string, now: int) returns (limiter: TokenBucket)
      modifies this
      ensures visitors == old(visitors)[ip := Entry(limiter, now)]
      ensures if ip in old(visitors) then limiter == old(visitors)[ip].limiter
              else fresh(limiter) && limiter.rate == rate && limiter.bucket == NewBucket(rate, now)
    {
      if ip in visitors {
        limiter := visitors[ip].limiter;
      } else {
        limiter := new TokenBucket(rate, now);
      }
      visitors := visitors[ip := Entry(limiter, now)];
    }

    /** The two calls of a request, at two readings of the clock. */
    method Allow(ip: string, noted: int, drawn: int) returns (ok: bool)
      requires ip in visitors ==> visitors[ip].limiter.rate == rate
      modifies this, if ip in visitors then {visitors[ip].limiter} else {}
      ensures ip in visitors && visitors == old(visitors)[ip := Entry(visitors[ip].limiter, noted)]
      ensures ip in old(visitors) ==> visitors[ip].limiter == old(visitors)[ip].limiter
      ensures var b := if ip in old(visitors) then old(visitors[ip].limiter.bucket) else NewBucket(rate, noted);
              ok == HasToken(rate, b, drawn) && visitors[ip].limiter.bucket == DrawnFrom(rate, b, drawn)
    {
      var limiter := Note(ip, noted);
      ok := limiter.Allow(drawn);
    }

    /** One pass of `cleanupLoop`, over the visitors in any order. */
    method Cleanup(now: int)
      modifies this
      ensures visitors == map ip | ip in old(visitors) && now - old(visitors)[ip].lastSeen <= IDLE :: old(visitors)[ip]
    {
      ghost var start := visitors;
      var toVisit := visitors.Keys;
      while toVisit != {}
        invariant toVisit <= start.Keys
        invariant visitors == map ip | ip in start && (ip in toVisit || now - start[ip].lastSeen <= IDLE) :: start[ip]
      {
        var ip :| ip in toVisit;
        toVisit := toVisit - {ip};
        if now - visitors[ip].lastSeen > IDLE {
          visitors := visitors - {ip};
        }
      }
    }
  }
}
