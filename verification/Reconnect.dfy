/**
 The client's reconnect loop. What the environment does is a script, one entry
 per round: whether `Connect` succeeds, and whether `Close` is called while the
 connection is up or while the loop waits. Waits are nanoseconds in int64.
 */
module Reconnect {
  import R = Registry

  datatype Round = Round(connected: bool, closedBeforeWait: bool, closedDuringWait: bool)

  /** How `Run` ends; `Unfinished` when the script does. */
  datatype Outcome = Unfinished | Closed | RetriesExhausted

  datatype Run = Run(outcome: Outcome, attempts: nat, waits: seq<int>)

  const MILLISECOND: int := 1_000_000
  const MAX_BASE: int := 9_007_199_254

  function Pow2(n: nat): (p: nat)
    ensures p >= 1
  {
    if n == 0 then 1 else 2 * Pow2(n - 1)
  }

  function Shift(attempt: nat): nat
    requires attempt >= 1
  {
    if attempt - 1 < 10 then attempt - 1 else 10
  }

  function Base(backoffMs: int): int {
    if backoffMs <= 0 then 1000 else backoffMs
  }

  /** The wait after the given number of attempts, as the int64 products come out. */
  function Wait(base: int, attempt: nat): int
    requires attempt >= 1
  {
    R.Wrap64(R.Wrap64(base * MILLISECOND) * Pow2(Shift(attempt)))
  }

  /** The loop from a given number of failed attempts on. */
  function RunFrom(maxRetries: int, base: int, attempt: nat, script: seq<Round>): Run
    decreases |script|
  {
    if script == [] then Run(Unfinished, 0, [])
    else
      var next := (if script[0].connected then 0 else attempt) + 1;
      if script[0].closedBeforeWait then Run(Closed, 1, [])
      else if maxRetries > 0 && next >= maxRetries then Run(RetriesExhausted, 1, [])
      else
        var wait := Wait(base, next);
        if script[0].closedDuringWait then Run(Closed, 1, [wait])
        else
          var rest := RunFrom(maxRetries, base, next, script[1..]);
          Run(rest.outcome, rest.attempts + 1, [wait] + rest.waits)
  }

  /** A run with attempts and waits before it. */
  function Prefixed(attempts: nat, waits: seq<int>, r: Run): Run {
    Run(r.outcome, attempts + r.attempts, waits + r.waits)
  }

  lemma PrefixedTwice(attempts: nat, waits: seq<int>, wait: int, r: Run)
    ensures Prefixed(attempts, waits, Prefixed(1, [wait], r)) == Prefixed(attempts + 1, waits + [wait], r)
    ensures waits + [wait] + [] == waits + [wait]
  {
    assert waits + ([wait] + r.waits) == waits + [wait] + r.waits;
  }

  lemma RunFromStep(maxRetries: int, base: int, attempt: nat, script: seq<Round>, i: nat)
    requires i < |script|
    ensures var next := (if script[i].connected then 0 else attempt) + 1;
            RunFrom(maxRetries, base, attempt, script[i..]) ==
            if script[i].closedBeforeWait then Run(Closed, 1, [])
            else if maxRetries > 0 && next >= maxRetries then Run(RetriesExhausted, 1, [])
            else if script[i].closedDuringWait then Run(Closed, 1, [Wait(base, next)])
            else Prefixed(1, [Wait(base, next)], RunFrom(maxRetries, base, next, script[i + 1..]))
  {
    assert script[i..][0] == script[i] && script[i..][1..] == script[i + 1..];
  }

  /** The first wait is the configured back-off in nanoseconds, if that fits in int64, or else one second. */
  predicate StartsWith(waits: seq<int>, backoffMs: int) {
    && (waits != [] && 0 < backoffMs <= 9_223_372_036_854 ==> waits[0] == backoffMs * 1_000_000)
    && (waits != [] && backoffMs <= 0 ==> waits[0] == 1_000_000_000)
  }

  lemma FirstWait(backoffMs: int)
    ensures StartsWith([Wait(Base(backoffMs), 1)], backoffMs)
  {
    if backoffMs <= 9_223_372_036_854 {
      R.WrapFits(Base(backoffMs) * MILLISECOND);
      assert Pow2(Shift(1)) == 1;
    }
  }

  /** So `Run` first waits for what was configured. */
  lemma RunStartsWith(maxRetries: int, backoffMs: int, script: seq<Round>)
    ensures StartsWith(RunFrom(maxRetries, Base(backoffMs), 0, script).waits, backoffMs)
  {
    FirstWait(backoffMs);
  }

  method RunLoop(maxRetries: int, backoffMs: int, script: seq<Round>) returns (outcome: Outcome, attempts: nat,
                 waits: seq<int>)
    ensures Run(outcome, attempts, waits) == RunFrom(maxRetries, Base(backoffMs), 0, script)
  {
    var base := backoffMs;
    if base <= 0 {
      base := 1000;
    }
    var attempt := 0;
    attempts := 0;
    waits := [];
    ghost var whole := RunFrom(maxRetries, base, 0, script);
    for i := 0 to |script|
      invariant whole == Prefixed(attempts, waits, RunFrom(maxRetries, base, attempt, script[i..]))
    {
      RunFromStep(maxRetries, base, attempt, script, i);
      attempts := attempts + 1;
      if script[i].connected {
        attempt := 0;
      }
      if script[i].closedBeforeWait {
        return Closed, attempts, waits;
      }
      attempt := attempt + 1;
      if maxRetries > 0 && attempt >= maxRetries {
        return RetriesExhausted, attempts, waits;
      }
      var wait := Wait(base, attempt);
      PrefixedTwice(attempts - 1, waits, wait, RunFrom(maxRetries, base, attempt, script[i + 1..]));
      waits := waits + [wait];
      if script[i].closedDuringWait {
        return Closed, attempts, waits;
      }
    }
    return Unfinished, attempts, waits;
  }

  // ---------------------------------------------------------------------------
  // One wait

  lemma {:induction false} Pow2Monotone(m: nat, n: nat)
    requires m <= n
    ensures Pow2(m) <= Pow2(n)
    decreases n - m
  {
    if m == n {
    } else {
      Pow2Monotone(m, n - 1);
    }
  }

  lemma Pow2Bound(n: nat)
    requires n <= 10
    ensures 1 <= Pow2(n) <= 1024
  {
    assert Pow2(10) == 2 * Pow2(9) == 4 * Pow2(8) == 8 * Pow2(7) == 16 * Pow2(6) == 32 * Pow2(5);
    Pow2Monotone(n, 10);
    Pow2Monotone(0, n);
  }

  /** The wait that is meant: the base doubled per attempt, up to 1024 times. */
  function Meant(base: int, attempt: nat): int
    requires attempt >= 1
  {
    base * MILLISECOND * Pow2(Shift(attempt))
  }

  lemma ProductBetween(x: int, p: nat)
    requires x >= 0 && 1 <= p <= 1024
    ensures x <= x * p <= 1024 * x
  {
  }

  lemma ProductMonotone(x: int, p: nat, q: nat)
    requires x >= 0 && p <= q
    ensures x * p <= x * q
  {
  }

  lemma MeantGrows(base: int, attempt: nat, later: nat)
    requires base >= 1 && 1 <= attempt <= later
    ensures base * MILLISECOND <= Meant(base, attempt) <= Meant(base, later) <= 1024 * base * MILLISECOND
  {
    Pow2Bound(Shift(attempt));
    Pow2Bound(Shift(later));
    Pow2Monotone(Shift(attempt), Shift(later));
    ProductBetween(base * MILLISECOND, Pow2(Shift(attempt)));
    ProductBetween(base * MILLISECOND, Pow2(Shift(later)));
    ProductMonotone(base * MILLISECOND, Pow2(Shift(attempt)), Pow2(Shift(later)));
  }

  /** The wait is never longer than meant, and is the one meant exactly when that fits in int64. */
  lemma WaitExactIff(base: int, attempt: nat)
    requires base >= 1 && attempt >= 1
    ensures Wait(base, attempt) <= Meant(base, attempt)
    ensures Wait(base, attempt) == Meant(base, attempt) <==> Meant(base, attempt) < R.TWO63
  {
    MeantGrows(base, attempt, attempt);
    if Meant(base, attempt) < R.TWO63 {
      R.WrapFits(base * MILLISECOND);
      R.WrapFits(Meant(base, attempt));
    }
  }

  /** It is the one meant for every attempt exactly up to a base of 9007199254 ms. */
  lemma WaitIsExactIff(base: int)
    requires base >= 1
    ensures (forall attempt: nat | attempt >= 1 :: Wait(base, attempt) == Meant(base, attempt)) <==> base <= MAX_BASE
  {
    if base <= MAX_BASE {
      forall attempt: nat | attempt >= 1
        ensures Wait(base, attempt) == Meant(base, attempt)
      {
        MeantGrows(base, attempt, attempt);
        WaitExactIff(base, attempt);
      }
    } else {
      Pow2Bound(10);
      assert Pow2(Shift(11)) == 1024;
      WaitExactIff(base, 11);
      assert Wait(base, 11) != Meant(base, 11);
    }
  }

  // ---------------------------------------------------------------------------
  // Every script

  /** The number of failed attempts in a row after round `i`. */
  function AttemptAfter(attempt: nat, script: seq<Round>, i: nat): nat
    requires i < |script|
    decreases i
  {
    (if script[i].connected then 0 else if i == 0 then attempt else AttemptAfter(attempt, script, i - 1)) + 1
  }

  lemma {:induction false} AttemptAfterTail(attempt: nat, script: seq<Round>, i: nat)
    requires 0 < i < |script|
    ensures AttemptAfter(attempt, script, i) == AttemptAfter(AttemptAfter(attempt, script, 0), script[1..], i - 1)
    decreases i
  {
    if i == 1 {
    } else {
      AttemptAfterTail(attempt, script, i - 1);
    }
  }

  /** There is one wait per round, and it is the one for the failed attempts in a row so far. */
  lemma {:induction false} WaitAfterRound(maxRetries: int, base: int, attempt: nat, script: seq<Round>, i: nat)
    requires i < |RunFrom(maxRetries, base, attempt, script).waits|
    ensures i < |script|
    ensures RunFrom(maxRetries, base, attempt, script).waits[i] == Wait(base, AttemptAfter(attempt, script, i))
    ensures maxRetries > 0 ==> AttemptAfter(attempt, script, i) < maxRetries
    decreases |script|
  {
    if i == 0 {
    } else {
      var next := AttemptAfter(attempt, script, 0);
      WaitAfterRound(maxRetries, base, next, script[1..], i - 1);
      AttemptAfterTail(attempt, script, i);
    }
  }

  lemma Doubled(x: int, p: nat)
    requires x >= 1 && 1 <= p <= 512
    ensures x * (2 * p) == 2 * (x * p) && x * p < 1024 * x
  {
    ProductBetween(x, 2 * p);
  }

  lemma NextMeant(base: int, attempt: nat)
    requires base >= 1 && attempt >= 1
    ensures Meant(base, attempt + 1) ==
            if Meant(base, attempt) < 1024 * base * MILLISECOND then 2 * Meant(base, attempt) else Meant(base, attempt)
  {
    var s := Shift(attempt);
    Pow2Bound(10);
    if s < 10 {
      Pow2Monotone(s, 9);
      Doubled(base * MILLISECOND, Pow2(s));
    }
  }

  /**
   In every run, with `k` failed attempts in a row after round `i`, the wait is
   the one meant exactly when that fits in int64. It then is between one and
   1024 times the base, starts over after a success, and doubles after a failure
   up to the cap.
   */
  lemma WaitsOfEveryRun(maxRetries: int, base: int, script: seq<Round>, i: nat)
    requires base >= 1 && i < |RunFrom(maxRetries, base, 0, script).waits|
    ensures i < |script|
    ensures var waits, meant := RunFrom(maxRetries, base, 0, script).waits, Meant(base, AttemptAfter(0, script, i));
            && (waits[i] == meant <==> meant < R.TWO63)
            && (meant < R.TWO63 ==>
                  && base * MILLISECOND <= waits[i] <= 1024 * base * MILLISECOND
                  && (script[i].connected || i == 0 ==> waits[i] == base * MILLISECOND)
                  && (i > 0 && !script[i].connected ==>
                        waits[i] == if waits[i - 1] < 1024 * base * MILLISECOND then 2 * waits[i - 1] else waits[i - 1]))
  {
    WaitAfterRound(maxRetries, base, 0, script, i);
    var k := AttemptAfter(0, script, i);
    WaitExactIff(base, k);
    MeantGrows(base, k, k);
    if i > 0 && !script[i].connected {
      WaitAfterRound(maxRetries, base, 0, script, i - 1);
      WaitExactIff(base, k - 1);
      MeantGrows(base, k - 1, k);
      NextMeant(base, k - 1);
    }
  }

  /** So many attempts in a row have failed after round `i` that the loop gives up. */
  predicate Exhausts(maxRetries: int, attempt: nat, script: seq<Round>, i: nat)
    requires i < |script|
  {
    maxRetries > 0 && AttemptAfter(attempt, script, i) >= maxRetries
  }

  /** Round `i` is the last one: `Close` is called, or the retries are used up. */
  predicate Ends(maxRetries: int, attempt: nat, script: seq<Round>, i: nat)
    requires i < |script|
  {
    script[i].closedBeforeWait || script[i].closedDuringWait || Exhausts(maxRetries, attempt, script, i)
  }

  /** The outcome, attempts and number of waits that go with the first last round. */
  predicate EndsLike(maxRetries: int, attempt: nat, script: seq<Round>, r: Run) {
    if r.outcome.Unfinished? then
      && r.attempts == |script| == |r.waits|
      && (forall i | 0 <= i < |script| :: !Ends(maxRetries, attempt, script, i))
    else
      && 0 < r.attempts <= |script|
      && var i := r.attempts - 1;
         && Ends(maxRetries, attempt, script, i)
         && (forall j | 0 <= j < i :: !Ends(maxRetries, attempt, script, j))
         && (r.outcome.RetriesExhausted? <==> !script[i].closedBeforeWait && Exhausts(maxRetries, attempt, script, i))
         && |r.waits| == (if script[i].closedBeforeWait || r.outcome.RetriesExhausted? then i else i + 1)
  }

  lemma EndsTail(maxRetries: int, attempt: nat, script: seq<Round>, i: nat)
    requires 0 < i < |script|
    ensures Ends(maxRetries, attempt, script, i)
            <==> Ends(maxRetries, AttemptAfter(attempt, script, 0), script[1..], i - 1)
    ensures Exhausts(maxRetries, attempt, script, i)
            <==> Exhausts(maxRetries, AttemptAfter(attempt, script, 0), script[1..], i - 1)
  {
    AttemptAfterTail(attempt, script, i);
  }

  lemma EndsLikeTail(maxRetries: int, attempt: nat, script: seq<Round>, rest: Run, wait: int)
    requires script != [] && !Ends(maxRetries, attempt, script, 0)
    requires EndsLike(maxRetries, AttemptAfter(attempt, script, 0), script[1..], rest)
    ensures EndsLike(maxRetries, attempt, script, Run(rest.outcome, rest.attempts + 1, [wait] + rest.waits))
  {
    forall i | 0 < i < |script|
      ensures Ends(maxRetries, attempt, script, i)
              <==> Ends(maxRetries, AttemptAfter(attempt, script, 0), script[1..], i - 1)
      ensures Exhausts(maxRetries, attempt, script, i)
              <==> Exhausts(maxRetries, AttemptAfter(attempt, script, 0), script[1..], i - 1)
    {
      EndsTail(maxRetries, attempt, script, i);
    }
  }

  /**
   For every script the loop ends with the first round in which `Close` is
   called or the retries are used up: with an error exactly if they are and
   `Close` was not called before the wait, and otherwise without one; and it has
   waited after every round, but not after a last one that ended before its wait.
   */
  lemma {:induction false} LoopEndsLike(maxRetries: int, base: int, attempt: nat, script: seq<Round>)
    ensures EndsLike(maxRetries, attempt, script, RunFrom(maxRetries, base, attempt, script))
    decreases |script|
  {
    if script == [] {
    } else if Ends(maxRetries, attempt, script, 0) {
    } else {
      var next := AttemptAfter(attempt, script, 0);
      LoopEndsLike(maxRetries, base, next, script[1..]);
      EndsLikeTail(maxRetries, attempt, script, RunFrom(maxRetries, base, next, script[1..]), Wait(base, next));
    }
  }

  // ---------------------------------------------------------------------------
  // No success at all

  predicate AllRefused(script: seq<Round>) {
    forall i | 0 <= i < |script| :: script[i] == Round(false, false, false)
  }

  function Sum(waits: seq<int>): int {
    if waits == [] then 0 else waits[0] + Sum(waits[1..])
  }

  /** What the loop means to wait in all before the attempt with the given number, in units of the base. */
  function TotalBefore(attempt: nat): int {
    if attempt <= 12 then (if attempt == 0 then 0 else Pow2(attempt - 1) - 1) else 2047 + 1024 * (attempt - 12)
  }

  lemma TotalBeforeNext(attempt: nat)
    requires attempt >= 1
    ensures TotalBefore(attempt + 1) == TotalBefore(attempt) + Pow2(Shift(attempt))
  {
    Pow2Bound(10);
    assert Pow2(11) == 2 * Pow2(10) && Pow2(10) == 1024;
  }

  lemma Distribute(x: int, a: int, b: int, p: int)
    ensures x * (a - b) == x * (a - (b + p)) + x * p
  {
  }

  /** What the loop means to wait after the attempt with the given number, attempt by attempt. */
  function MeantAfter(base: int, attempt: nat, maxRetries: nat): int
    decreases maxRetries - attempt
  {
    if attempt + 1 >= maxRetries then 0 else Meant(base, attempt + 1) + MeantAfter(base, attempt + 1, maxRetries)
  }

  lemma {:induction false} MeantInAll(base: int, attempt: nat, maxRetries: nat)
    requires attempt < maxRetries
    ensures MeantAfter(base, attempt, maxRetries)
            == base * MILLISECOND * (TotalBefore(maxRetries) - TotalBefore(attempt + 1))
    decreases maxRetries - attempt
  {
    if attempt + 1 == maxRetries {
    } else {
      MeantInAll(base, attempt + 1, maxRetries);
      TotalBeforeNext(attempt + 1);
      Distribute(base * MILLISECOND, TotalBefore(maxRetries), TotalBefore(attempt + 1), Pow2(Shift(attempt + 1)));
    }
  }

  lemma SumCons(wait: int, waits: seq<int>)
    ensures Sum([wait] + waits) == wait + Sum(waits)
  {
    assert ([wait] + waits)[1..] == waits;
  }

  /** One refused attempt, and the rest of the run. */
  lemma RefusedRound(maxRetries: int, base: int, attempt: nat, script: seq<Round>)
    requires AllRefused(script) && script != [] && attempt + 1 < maxRetries
    ensures var r := RunFrom(maxRetries, base, attempt, script);
            var rest := RunFrom(maxRetries, base, attempt + 1, script[1..]);
            && r.outcome == rest.outcome && r.attempts == rest.attempts + 1
            && Sum(r.waits) == Wait(base, attempt + 1) + Sum(rest.waits)
  {
    SumCons(Wait(base, attempt + 1), RunFrom(maxRetries, base, attempt + 1, script[1..]).waits);
  }

  lemma {:induction false} RefusedFrom(maxRetries: nat, base: int, attempt: nat, script: seq<Round>)
    requires base >= 1 && AllRefused(script) && attempt < maxRetries <= attempt + |script|
    ensures var r, meant := RunFrom(maxRetries, base, attempt, script), MeantAfter(base, attempt, maxRetries);
            && r.outcome == RetriesExhausted && r.attempts == maxRetries - attempt && Sum(r.waits) <= meant
            && (Sum(r.waits) == meant <==> maxRetries == attempt + 1 || Meant(base, maxRetries - 1) < R.TWO63)
    decreases |script|
  {
    var next := attempt + 1;
    if next == maxRetries {
    } else {
      RefusedRound(maxRetries, base, attempt, script);
      RefusedFrom(maxRetries, base, next, script[1..]);
      WaitExactIff(base, next);
      MeantGrows(base, next, maxRetries - 1);
    }
  }

  /**
   With `maxRetries` m > 0 and no successful connect, `Run` makes exactly m
   attempts and stops, whatever the base. It has waited base * (2^(m-1) - 1) in
   all for m <= 12 and base * (2047 + 1024 * (m - 12)) beyond, if and only if its
   last wait fits in int64.
   */
  lemma RefusedRunStops(maxRetries: int, base: int, script: seq<Round>)
    requires base >= 1 && AllRefused(script) && 0 < maxRetries <= |script|
    ensures var r := RunFrom(maxRetries, base, 0, script);
            && r.outcome == RetriesExhausted && r.attempts == maxRetries
            && (Sum(r.waits) == base * MILLISECOND *
                  (if maxRetries <= 12 then Pow2(maxRetries - 1) - 1 else 2047 + 1024 * (maxRetries - 12))
                <==> maxRetries == 1 || Meant(base, maxRetries - 1) < R.TWO63)
  {
    RefusedFrom(maxRetries, base, 0, script);
    MeantInAll(base, 0, maxRetries);
    assert TotalBefore(1) == 0;
  }
}
