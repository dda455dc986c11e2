/** The token bucket in front of every tool launch. Acquirers race, but each attempt
    runs under the lock and reads the clock there; so any set of concurrent acquires
    is a sequence of attempts at non-decreasing times. */
module TokenBucket {
  import opened Prelude

  datatype Bucket = Bucket(rate: real, capacity: real, tokens: real, updated: real)

  function Min(a: real, b: real): real {
    if a <= b then a else b
  }

  function Max(a: real, b: real): real {
    if a <= b then b else a
  }

  function Refill(b: Bucket, now: real): Bucket {
    b.(tokens := Min(b.capacity, b.tokens + (now - b.updated) * b.rate), updated := now)
  }

  predicate Grants(b: Bucket, now: real) {
    Refill(b, now).tokens >= 1.0
  }

  function Attempted(b: Bucket, now: real): Bucket {
    var full := Refill(b, now);
    if Grants(b, now) then full.(tokens := full.tokens - 1.0) else full
  }

  /** What holds of every bucket: it is never overfull, and never overdrawn unless
      it was created with a negative capacity. */
  predicate Sound(b: Bucket) {
    b.rate > 0.0 && b.tokens <= b.capacity && (b.capacity >= 0.0 ==> b.tokens >= 0.0)
  }

  class Limiter {
    const rate: real
    const capacity: real
    var tokens: real
    var updated: real

    ghost function Value(): Bucket
      reads this
    {
      Bucket(rate, capacity, tokens, updated)
    }

    constructor (rate: real, capacity: Option<real>, now: real)
      requires rate > 0.0
      ensures var full := if capacity.Some? then capacity.value else Max(1.0, rate);
              Value() == Bucket(rate, full, full, now)
    {
      this.rate := rate;
      this.capacity := if capacity.Some? then capacity.value else Max(1.0, rate);
      this.tokens := this.capacity;
      this.updated := now;
    }

    /** None stands for the error raised on a rate that is not positive. */
    static method Create(rate: real, capacity: Option<real>, now: real) returns (l: Option<Limiter>)
      ensures l.None? <==> rate <= 0.0
      ensures l.Some? ==> fresh(l.value) && Sound(l.value.Value())
      ensures l.Some? ==>
                l.value.rate == rate && l.value.tokens == l.value.capacity && l.value.updated == now &&
                match capacity
                case Some(size) => l.value.capacity == size
                case None => l.value.capacity == if rate > 1.0 then rate else 1.0
    {
      if rate <= 0.0 {
        return None;
      }
      var limiter := new Limiter(rate, capacity, now);
      return Some(limiter);
    }

    /** The critical section of one attempt; `deficit` is how long to sleep. */
    method Attempt(now: real) returns (granted: bool, deficit: real)
      requires Sound(Value()) && now >= updated
      modifies this
      ensures Value() == Attempted(old(Value()), now) && Sound(Value())
      ensures granted == Grants(old(Value()), now)
      ensures !granted ==> deficit > 0.0 && deficit * rate == 1.0 - tokens
    {
      AttemptSound(Value(), now);
      tokens := Min(capacity, tokens + (now - updated) * rate);
      updated := now;
      if tokens >= 1.0 {
        tokens := tokens - 1.0;
        return true, 0.0;
      }
      deficit := (1.0 - tokens) / rate;
      DividedPositive(1.0 - tokens, rate);
      return false, deficit;
    }

    /** One turn of the loop: an attempt, and the time after the sleep if it failed. */
    method AttemptAndSleep(now: real, late: real) returns (granted: bool, deficit: real, next: real)
      requires Sound(Value()) && now >= updated && late >= 0.0
      modifies this
      ensures Sound(Value()) && granted == Grants(old(Value()), now)
      ensures granted ==> Value() == Attempted(old(Value()), now)
      ensures !granted ==> Value() == Refill(old(Value()), now) && Missing(Value(), deficit) && next >= updated
      ensures !granted && capacity >= 1.0 ==> Grants(Value(), next)
      ensures capacity < 1.0 ==> !granted
    {
      CanGrant(Value());
      granted, deficit := Attempt(now);
      next := now;
      if !granted {
        next := now + deficit + late;
        if capacity >= 1.0 {
          SleepFills(Value(), deficit, late);
        }
      }
    }

    /** An acquire with no other acquirer around, watched for at most `patience`
        attempts; each sleep may overrun by `late`. None: no grant so far. */
    method Acquire(start: real, late: real, patience: nat) returns (waited: Option<real>, loops: nat)
      requires Sound(Value()) && start >= updated && late >= 0.0
      modifies this
      ensures Sound(Value()) && loops <= patience
      ensures capacity >= 1.0 && patience >= 2 ==> waited.Some?
      ensures capacity < 1.0 ==> waited.None? && loops == patience
      ensures waited.Some? ==> 1 <= loops <= 2 && 0.0 <= waited.value && waited.value * rate <= 1.0
      ensures waited.Some? && loops == 1 <==> patience > 0 && Grants(old(Value()), start)
      ensures waited.Some? && loops == 1 ==> waited.value == 0.0 && Value() == Attempted(old(Value()), start)
      ensures waited.Some? && loops == 2 ==> Missing(Refill(old(Value()), start), waited.value)
    {
      var now, sleeps := start, 0.0;
      loops := 0;
      while loops < patience
        invariant Sound(Value()) && now >= updated && loops <= patience
        invariant loops == 0 ==> sleeps == 0.0 && now == start && Value() == old(Value())
        invariant loops > 0 ==> !Grants(old(Value()), start)
        invariant loops > 0 && capacity >= 1.0 ==>
                    loops == 1 && Grants(Value(), now) && Value() == Refill(old(Value()), start) && Missing(Value(), sleeps)
      {
        var granted, deficit, next := AttemptAndSleep(now, late);
        loops := loops + 1;
        if granted {
          return Some(sleeps), loops;
        }
        now := next;
        sleeps := sleeps + deficit;
      }
      return None, loops;
    }
  }

  /** The wait that refills the bucket to one token; it is at most 1/rate. */
  ghost predicate Missing(b: Bucket, wait: real) {
    wait > 0.0 && wait * b.rate == 1.0 - b.tokens
  }

  lemma DividedPositive(a: real, b: real)
    requires a > 0.0 && b > 0.0
    ensures a / b > 0.0 && a / b * b == a
  {
    var q := a / b;
    assert q * b == a;
  }

  lemma AttemptSound(b: Bucket, now: real)
    requires Sound(b) && now >= b.updated
    ensures Sound(Attempted(b, now))
  {
    assert (now - b.updated) * b.rate >= 0.0;
  }

  /** Sleeping the deficit, or longer, fills the bucket up to one token. */
  lemma SleepFills(b: Bucket, deficit: real, late: real)
    requires b.rate > 0.0 && b.capacity >= 1.0 && late >= 0.0 && deficit * b.rate == 1.0 - b.tokens
    ensures Grants(b, b.updated + deficit + late)
  {
    var now := b.updated + deficit + late;
    ProductSplits(deficit, late, b.rate);
    assert now - b.updated == deficit + late;
    assert (now - b.updated) * b.rate >= 1.0 - b.tokens;
  }

  lemma ProductSplits(a: real, b: real, rate: real)
    requires b >= 0.0 && rate > 0.0
    ensures (a + b) * rate == a * rate + b * rate && b * rate >= 0.0
  {
  }

  /** A bucket can ever grant iff its capacity is at least one token; with less, an
      acquire never returns. */
  lemma CanGrant(b: Bucket)
    requires Sound(b)
    ensures b.capacity >= 1.0 <==> exists now :: now >= b.updated && Grants(b, now)
  {
    if b.capacity >= 1.0 {
      if b.tokens < 1.0 {
        DividedPositive(1.0 - b.tokens, b.rate);
        SleepFills(b, (1.0 - b.tokens) / b.rate, 0.0);
        assert Grants(b, b.updated + (1.0 - b.tokens) / b.rate + 0.0);
      } else {
        assert Grants(b, b.updated);
      }
    }
  }

  // ------------------------------------------------------------------ runs

  /** Attempts at the given times, by whichever acquirers. */
  ghost predicate IsRun(buckets: seq<Bucket>, times: seq<real>) {
    && |buckets| == |times| + 1
    && Sound(buckets[0]) && (times != [] ==> buckets[0].updated <= times[0])
    && (forall i, j | 0 <= i < j < |times| :: times[i] <= times[j])
    && forall i | 0 <= i < |times| :: AttemptAt(buckets, times, i)
  }

  ghost predicate AttemptAt(buckets: seq<Bucket>, times: seq<real>, i: nat)
    requires |buckets| == |times| + 1 && i < |times|
  {
    buckets[i + 1] == Attempted(buckets[i], times[i])
  }

  lemma {:induction false} RunSound(buckets: seq<Bucket>, times: seq<real>, n: nat)
    requires IsRun(buckets, times) && n <= |times|
    ensures Sound(buckets[n]) && buckets[n].rate == buckets[0].rate && buckets[n].capacity == buckets[0].capacity
    ensures n < |times| ==> buckets[n].updated <= times[n]
    ensures n > 0 ==> buckets[n].updated == times[n - 1]
  {
    if n > 0 {
      RunSound(buckets, times, n - 1);
      assert AttemptAt(buckets, times, n - 1);
      AttemptSound(buckets[n - 1], times[n - 1]);
    }
  }

  /** One attempt of a run: its time, the refill earned up to then, its outcome and
      the tokens it leaves. */
  datatype Entry = Entry(time: real, earned: real, granted: bool, left: real)

  ghost function EntryOf(b: Bucket, t: real): Entry {
    Entry(t, b.rate * t, Grants(b, t), Attempted(b, t).tokens)
  }

  ghost function Ledger(buckets: seq<Bucket>, times: seq<real>): seq<Entry>
    requires |buckets| == |times| + 1
  {
    seq(|times|, i requires 0 <= i < |times| => EntryOf(buckets[i], times[i]))
  }

  /** The grants in the closed window [lo, hi]. */
  ghost function GrantsWithin(ledger: seq<Entry>, lo: real, hi: real): nat {
    if ledger == [] then 0
    else
      var init, last := ledger[..|ledger| - 1], ledger[|ledger| - 1];
      GrantsWithin(init, lo, hi) + if lo <= last.time <= hi && last.granted then 1 else 0
  }

  function Spent(e: Entry): real {
    if e.granted then 1.0 else 0.0
  }

  /** Tokens are capped, and nothing is spent that was not there or earned since. */
  ghost predicate Balanced(ledger: seq<Entry>, capacity: real) {
    && (forall i | 0 <= i < |ledger| :: ledger[i].left + Spent(ledger[i]) <= capacity)
    && (forall i | 0 < i < |ledger| :: Follows(ledger[i - 1], ledger[i]))
  }

  lemma AttemptSpends(b: Bucket, t: real)
    requires Sound(b) && t >= b.updated
    ensures var e := EntryOf(b, t);
            && e.left + Spent(e) <= b.capacity && (b.capacity >= 0.0 ==> e.left >= 0.0)
            && e.left + Spent(e) - e.earned <= b.tokens - b.rate * b.updated
  {
    AttemptSound(b, t);
    assert (t - b.updated) * b.rate == b.rate * t - b.rate * b.updated;
  }

  predicate Follows(d: Entry, e: Entry) {
    d.time <= e.time && e.left + Spent(e) - e.earned <= d.left - d.earned
  }

  lemma AttemptsChain(a: Bucket, s: real, t: real)
    requires Sound(a) && a.updated <= s <= t
    ensures Follows(EntryOf(a, s), EntryOf(Attempted(a, s), t))
  {
    AttemptSound(a, s);
    AttemptSpends(Attempted(a, s), t);
  }

  /** One attempt of a run, with the run itself out of sight. */
  lemma LedgerAt(buckets: seq<Bucket>, times: seq<real>, i: nat)
    requires IsRun(buckets, times) && i < |times|
    ensures var e := EntryOf(buckets[i], times[i]);
            && e.left + Spent(e) <= buckets[0].capacity && (buckets[0].capacity >= 0.0 ==> e.left >= 0.0)
            && buckets[i].rate == buckets[0].rate
    ensures i > 0 ==> Follows(EntryOf(buckets[i - 1], times[i - 1]), EntryOf(buckets[i], times[i]))
  {
    RunSound(buckets, times, i);
    AttemptSpends(buckets[i], times[i]);
    if i > 0 {
      RunSound(buckets, times, i - 1);
      assert AttemptAt(buckets, times, i - 1);
      AttemptsChain(buckets[i - 1], times[i - 1], times[i]);
    }
  }

  ghost predicate Earns(ledger: seq<Entry>, rate: real) {
    forall i | 0 <= i < |ledger| :: ledger[i].left >= 0.0 && ledger[i].earned == rate * ledger[i].time
  }

  /** The same of the ledger's entries i - 1 and i. */
  lemma EntryAt(buckets: seq<Bucket>, times: seq<real>, ledger: seq<Entry>, i: nat)
    requires IsRun(buckets, times) && buckets[0].capacity >= 0.0 && ledger == Ledger(buckets, times) && i < |ledger|
    ensures ledger[i].left + Spent(ledger[i]) <= buckets[0].capacity
    ensures ledger[i].left >= 0.0 && ledger[i].earned == buckets[0].rate * ledger[i].time
    ensures i > 0 ==> Follows(ledger[i - 1], ledger[i])
  {
    LedgerAt(buckets, times, i);
  }

  lemma RunEarns(buckets: seq<Bucket>, times: seq<real>, ledger: seq<Entry>)
    requires IsRun(buckets, times) && buckets[0].capacity >= 0.0 && ledger == Ledger(buckets, times)
    ensures Earns(ledger, buckets[0].rate)
  {
    forall i: nat | i < |ledger| {
      EntryAt(buckets, times, ledger, i);
    }
  }

  lemma RunBalanced(buckets: seq<Bucket>, times: seq<real>, ledger: seq<Entry>)
    requires IsRun(buckets, times) && buckets[0].capacity >= 0.0 && ledger == Ledger(buckets, times)
    ensures Balanced(ledger, buckets[0].capacity)
  {
    forall i: nat | i < |ledger| {
      EntryAt(buckets, times, ledger, i);
    }
  }

  /** What has been granted since the window opened, plus what is left, is covered by
      the capacity and the refill earned since then. */
  lemma {:induction false} Covered(ledger: seq<Entry>, capacity: real, lo: real, hi: real, from: real)
    requires Balanced(ledger, capacity) && ledger != [] && ledger[|ledger| - 1].time <= hi
    requires forall i | 0 <= i < |ledger| && ledger[i].time >= lo :: ledger[i].earned >= from
    ensures var g, last := GrantsWithin(ledger, lo, hi) as real, ledger[|ledger| - 1];
            if last.time < lo then g == 0.0 else g + last.left - last.earned <= capacity - from
  {
    if |ledger| > 1 {
      Covered(ledger[..|ledger| - 1], capacity, lo, hi, from);
    }
  }

  lemma EarnedGrows(rate: real, a: real, b: real)
    requires rate > 0.0 && a <= b
    ensures rate * a <= rate * b
  {
  }

  lemma SpanEarns(rate: real, lo: real, t: real, span: real)
    requires rate > 0.0 && t <= lo + span
    ensures rate * t - rate * lo <= rate * span
  {
    EarnedGrows(rate, t - lo, span);
    assert rate * (t - lo) == rate * t - rate * lo;
  }

  /** Attempts after the window add nothing. */
  lemma {:induction false} LedgerBound(ledger: seq<Entry>, capacity: real, lo: real, hi: real, from: real, gain: real)
    requires Balanced(ledger, capacity) && capacity >= 0.0 && gain >= 0.0
    requires forall i | 0 <= i < |ledger| :: ledger[i].left >= 0.0
    requires forall i | 0 <= i < |ledger| && ledger[i].time >= lo :: ledger[i].earned >= from
    requires forall i | 0 <= i < |ledger| && ledger[i].time <= hi :: ledger[i].earned <= from + gain
    ensures GrantsWithin(ledger, lo, hi) as real <= capacity + gain
  {
    if ledger != [] {
      var last := ledger[|ledger| - 1];
      if last.time > hi {
        LedgerBound(ledger[..|ledger| - 1], capacity, lo, hi, from, gain);
      } else {
        Covered(ledger, capacity, lo, hi, from);
      }
    }
  }

  lemma EarnedWithin(ledger: seq<Entry>, rate: real, lo: real, span: real)
    requires rate > 0.0 && Earns(ledger, rate)
    ensures forall i | 0 <= i < |ledger| && ledger[i].time >= lo :: ledger[i].earned >= rate * lo
    ensures forall i | 0 <= i < |ledger| && ledger[i].time <= lo + span :: ledger[i].earned <= rate * lo + rate * span
  {
    forall i | 0 <= i < |ledger| && ledger[i].time >= lo ensures ledger[i].earned >= rate * lo {
      EarnedGrows(rate, lo, ledger[i].time);
    }
    forall i | 0 <= i < |ledger| && ledger[i].time <= lo + span ensures ledger[i].earned <= rate * lo + rate * span {
      SpanEarns(rate, lo, ledger[i].time, span);
    }
  }

  /** The rate bound: in every closed window of length T no more than
      capacity + rate * T acquires are granted, however many compete. */
  lemma WindowBound(buckets: seq<Bucket>, times: seq<real>, ledger: seq<Entry>, lo: real, span: real)
    requires IsRun(buckets, times) && ledger == Ledger(buckets, times) && span >= 0.0
    ensures GrantsWithin(ledger, lo, lo + span) as real <= Max(buckets[0].capacity, 0.0) + buckets[0].rate * span
  {
    if buckets[0].capacity >= 0.0 {
      RunBalanced(buckets, times, ledger);
      RunEarns(buckets, times, ledger);
      BalancedBound(ledger, buckets[0].capacity, buckets[0].rate, lo, span);
    } else {
      forall n: nat | n < |times| {
        SmallBucketNeverGrants(buckets, times, n);
      }
      NoneGranted(ledger, lo, lo + span);
      EarnedGrows(buckets[0].rate, 0.0, span);
    }
  }

  lemma {:induction false} NoneGranted(ledger: seq<Entry>, lo: real, hi: real)
    requires forall i | 0 <= i < |ledger| :: !ledger[i].granted
    ensures GrantsWithin(ledger, lo, hi) == 0
  {
    if ledger != [] {
      NoneGranted(ledger[..|ledger| - 1], lo, hi);
    }
  }

  lemma BalancedBound(ledger: seq<Entry>, capacity: real, rate: real, lo: real, span: real)
    requires Balanced(ledger, capacity) && Earns(ledger, rate) && rate > 0.0 && capacity >= 0.0 && span >= 0.0
    ensures GrantsWithin(ledger, lo, lo + span) as real <= capacity + rate * span
  {
    EarnedGrows(rate, 0.0, span);
    EarnedWithin(ledger, rate, lo, span);
    LedgerBound(ledger, capacity, lo, lo + span, rate * lo, rate * span);
  }

  /** With less than one token of capacity nothing is ever granted. */
  lemma SmallBucketNeverGrants(buckets: seq<Bucket>, times: seq<real>, n: nat)
    requires IsRun(buckets, times) && n < |times| && buckets[0].capacity < 1.0
    ensures !Ledger(buckets, times)[n].granted
  {
    RunSound(buckets, times, n);
    CanGrant(buckets[n]);
  }

  // ---------------------------------------------------------------- bursts

  /** What a bucket holds after n attempts at one moment that found it with `had`. */
  ghost predicate Drawn(b: Bucket, had: real, n: nat, now: real) {
    b.updated == now && if n as real <= had then b.tokens == had - n as real else b.tokens < 1.0
  }

  lemma RefillsNothing(b: Bucket, now: real)
    requires Sound(b) && b.updated == now
    ensures Refill(b, now) == b
  {
    var elapsed := now - b.updated;
    assert elapsed == 0.0 && elapsed * b.rate == 0.0;
  }

  lemma DrawOnce(b: Bucket, had: real, n: nat, now: real)
    requires Sound(b) && Drawn(b, had, n, now)
    ensures Drawn(Attempted(b, now), had, n + 1, now)
    ensures Grants(b, now) <==> (n + 1) as real <= had
  {
    RefillsNothing(b, now);
    assert (n + 1) as real == n as real + 1.0;
  }

  lemma DrawFirst(b: Bucket, had: real, now: real)
    requires Sound(b) && had == Refill(b, now).tokens
    ensures Grants(b, now) <==> 1.0 <= had
    ensures Drawn(Attempted(b, now), had, 1, now)
  {
  }

  lemma {:induction false} BurstDraws(buckets: seq<Bucket>, times: seq<real>, m: nat, n: nat, had: real, now: real)
    requires IsRun(buckets, times) && m + n < |times| && forall i | m <= i <= m + n :: times[i] == now
    requires had == Refill(buckets[m], now).tokens
    ensures Grants(buckets[m + n], now) <==> (n + 1) as real <= had
    ensures Drawn(buckets[m + n + 1], had, n + 1, now)
  {
    RunSound(buckets, times, m + n);
    assert AttemptAt(buckets, times, m + n);
    if n == 0 {
      DrawFirst(buckets[m], had, now);
    } else {
      BurstDraws(buckets, times, m, n - 1, had, now);
      DrawOnce(buckets[m + n], had, n, now);
    }
  }

  lemma MinIff(a: real, b: real, k: real)
    ensures k <= Min(a, b) <==> k <= a && k <= b
  {
  }

  /** Of the attempts of one moment exactly as many are granted as the bucket holds
      tokens by then, up to its capacity: a rested bucket never grants fewer. */
  lemma BurstIff(buckets: seq<Bucket>, times: seq<real>, m: nat, n: nat, now: real)
    requires IsRun(buckets, times) && m + n < |times| && forall i | m <= i <= m + n :: times[i] == now
    ensures var b, k := buckets[m], (n + 1) as real;
            Ledger(buckets, times)[m + n].granted <==>
            k <= b.capacity && k <= b.tokens + (now - b.updated) * b.rate
  {
    var b := buckets[m];
    BurstDraws(buckets, times, m, n, Refill(b, now).tokens, now);
    MinIff(b.capacity, b.tokens + (now - b.updated) * b.rate, (n + 1) as real);
  }
}
