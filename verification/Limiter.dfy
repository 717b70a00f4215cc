/**
The per-address token bucket of internal/api/tracking.go, with exact reals for its float64 tokens and
seconds for its times. A bucket nobody touched for a while is swept; a full table serves everybody.
*/
module RateLimiting {
  import opened Wrappers

  const BURST: real := 60.0
  const RATE: real := 20.0
  const IDLE_TTL: real := 600.0
  const MAX_ENTRIES: nat := 50_000

  datatype Bucket = Bucket(tokens: real, seen: real)

  /** `swept` is None for the zero time, long before any request. */
  datatype Limiter = Limiter(buckets: map<string, Bucket>, swept: Option<real>)

  const EMPTY := Limiter(map[], None)

  function Capped(x: real): real {
    if x > BURST then BURST else x
  }

  function Refilled(b: Bucket, now: real): real {
    Capped(b.tokens + (now - b.seen) * RATE)
  }

  predicate Idle(b: Bucket, now: real) {
    now - b.seen > IDLE_TTL
  }

  predicate SweepDue(l: Limiter, now: real) {
    l.swept.None? || now - l.swept.value >= IDLE_TTL
  }

  function Sweep(l: Limiter, now: real): Limiter {
    if !SweepDue(l, now) then l
    else Limiter(map ip | ip in l.buckets && !Idle(l.buckets[ip], now) :: l.buckets[ip], Some(now))
  }

  /** Take a token from an address's bucket, a new one if it has none. */
  function Take(l: Limiter, ip: string, now: real): (bool, Limiter) {
    var tokens := if ip in l.buckets then Refilled(l.buckets[ip], now) else BURST;
    if tokens < 1.0 then (false, l.(buckets := l.buckets[ip := Bucket(tokens, now)]))
    else (true, l.(buckets := l.buckets[ip := Bucket(tokens - 1.0, now)]))
  }

  /** A request the limiter does not track: the table is full of other addresses. */
  predicate Untracked(l: Limiter, ip: string) {
    ip !in l.buckets && |l.buckets| >= MAX_ENTRIES
  }

  function Allow(l: Limiter, ip: string, now: real): (bool, Limiter) {
    var l1 := Sweep(l, now);
    if Untracked(l1, ip) then (true, l1) else Take(l1, ip, now)
  }

  /** ipLimiter. */
  class IpLimiter {
    var buckets: map<string, Bucket>
    var swept: Option<real>

    constructor ()
      ensures St() == EMPTY
    {
      buckets, swept := map[], None;
    }

    ghost function St(): Limiter
      reads this
    {
      Limiter(buckets, swept)
    }

    method DoSweep(now: real)
      modifies this
      ensures St() == Sweep(old(St()), now)
    {
      if swept.Some? && now - swept.value < IDLE_TTL {
        return;
      }
      swept := Some(now);
      var left := buckets.Keys;
      while left != {}
        invariant left <= old(buckets).Keys && swept == Some(now)
        invariant buckets ==
                  map ip | ip in old(buckets) && (ip in left || !Idle(old(buckets)[ip], now)) :: old(buckets)[ip]
        decreases left
      {
        var ip :| ip in left;
        if Idle(buckets[ip], now) {
          buckets := buckets - {ip};
        }
        left := left - {ip};
      }
    }

    method DoAllow(ip: string, now: real) returns (ok: bool)
      modifies this
      ensures (ok, St()) == Allow(old(St()), ip, now)
    {
      DoSweep(now);
      ghost var table := buckets;
      if ip !in buckets {
        if |buckets| >= MAX_ENTRIES {
          return true;
        }
        buckets := buckets[ip := Bucket(BURST, now)];
      }
      var b := buckets[ip];
      b := b.(tokens := b.tokens + (now - b.seen) * RATE);
      if b.tokens > BURST {
        b := b.(tokens := BURST);
      }
      b := b.(seen := now);
      if b.tokens < 1.0 {
        buckets := buckets[ip := b];
        assert buckets == table[ip := b];
        return false;
      }
      b := b.(tokens := b.tokens - 1.0);
      buckets := buckets[ip := b];
      assert buckets == table[ip := b];
      return true;
    }
  }

  // ----- runs -------------------------------------------------------------------------------------------------

  datatype Request = Request(ip: string, at: real)

  /**
  A request reads the clock before it takes the lock, so even with a clock that never goes back requests
  are served out of order. `skew` bounds by how much: the time from reading the clock to being served.
  */
  ghost predicate Skewed(reqs: seq<Request>, skew: real) {
    forall i, j | 0 <= i < j < |reqs| :: reqs[i].at - skew <= reqs[j].at
  }

  /** An idle bucket is full even so, as long as requests are no more than this out of order. */
  const MAX_SKEW: real := 298.5

  predicate Tolerable(skew: real) {
    0.0 <= skew <= MAX_SKEW
  }

  /** The limiter before request i. */
  function Before(reqs: seq<Request>, i: nat): Limiter
    requires i <= |reqs|
  {
    if i == 0 then EMPTY else Allow(Before(reqs, i - 1), reqs[i - 1].ip, reqs[i - 1].at).1
  }

  function Answer(reqs: seq<Request>, i: nat): bool
    requires i < |reqs|
  {
    Allow(Before(reqs, i), reqs[i].ip, reqs[i].at).0
  }

  /** The reference: a limiter that never sweeps and whose table has no bound. */
  function PlainBefore(reqs: seq<Request>, i: nat): Limiter
    requires i <= |reqs|
  {
    if i == 0 then EMPTY else Take(PlainBefore(reqs, i - 1), reqs[i - 1].ip, reqs[i - 1].at).1
  }

  function PlainAnswer(reqs: seq<Request>, i: nat): bool
    requires i < |reqs|
  {
    Take(PlainBefore(reqs, i), reqs[i].ip, reqs[i].at).0
  }

  function Max(x: real, y: real): real {
    if x < y then y else x
  }

  /** The latest time a request up to i carries. */
  function Latest(reqs: seq<Request>, i: nat): real
    requires i < |reqs|
  {
    if i == 0 then reqs[0].at else Max(Latest(reqs, i - 1), reqs[i].at)
  }

  lemma {:induction false} NotLongBefore(reqs: seq<Request>, skew: real, i: nat, j: nat)
    requires Skewed(reqs, skew) && 0.0 <= skew && i <= j < |reqs|
    ensures Latest(reqs, i) - skew <= reqs[j].at
  {
    if i > 0 {
      NotLongBefore(reqs, skew, i - 1, j);
    }
  }

  // ----- one bucket --------------------------------------------------------------------------------------------

  /**
  What out-of-order times do to a bucket: it may owe tokens, but never more than the disorder is worth,
  and by the latest time seen it owes none.
  */
  predicate SaneBucket(b: Bucket, hi: real, skew: real) {
    -skew * RATE <= b.tokens <= BURST && 0.0 <= b.tokens + (hi - b.seen) * RATE
  }

  ghost predicate Sane(l: Limiter, hi: real, skew: real) {
    forall ip | ip in l.buckets :: SaneBucket(l.buckets[ip], hi, skew)
  }

  /** A bucket that is full for every request still to come. */
  predicate Ripe(b: Bucket, hi: real, skew: real) {
    b.tokens + (hi - skew - b.seen) * RATE >= BURST
  }

  /** A bucket is swept only when it is full for whoever comes next. */
  lemma IdleIsRipe(b: Bucket, now: real, hi: real, skew: real)
    requires Tolerable(skew) && -skew * RATE <= b.tokens && Idle(b, now) && now <= hi
    ensures Ripe(b, hi, skew)
  {
  }

  lemma RipeStays(b: Bucket, hi: real, later: real, skew: real)
    requires Ripe(b, hi, skew) && hi <= later
    ensures Ripe(b, later, skew)
  {
  }

  /** The bucket one request leaves. */
  function Taken(tokens: real, now: real): Bucket {
    Bucket(if tokens < 1.0 then tokens else tokens - 1.0, now)
  }

  lemma TakenIsSane(b: Bucket, now: real, hi: real, skew: real)
    requires SaneBucket(b, hi, skew) && hi - skew <= now && Tolerable(skew)
    ensures SaneBucket(Taken(Refilled(b, now), now), Max(hi, now), skew)
  {
  }

  lemma SaneLater(l: Limiter, hi: real, later: real, skew: real)
    requires Sane(l, hi, skew) && hi <= later
    ensures Sane(l, later, skew)
  {
  }

  lemma TakeSane(l: Limiter, ip: string, now: real, hi: real, skew: real)
    requires Sane(l, hi, skew) && hi - skew <= now && Tolerable(skew)
    ensures Sane(Take(l, ip, now).1, Max(hi, now), skew)
  {
    if ip in l.buckets {
      TakenIsSane(l.buckets[ip], now, hi, skew);
    }
    SaneLater(l, hi, Max(hi, now), skew);
  }

  lemma AllowSane(l: Limiter, ip: string, now: real, hi: real, skew: real)
    requires Sane(l, hi, skew) && hi - skew <= now && Tolerable(skew)
    ensures Sane(Allow(l, ip, now).1, Max(hi, now), skew)
  {
    TakeSane(Sweep(l, now), ip, now, hi, skew);
    SaneLater(Sweep(l, now), hi, Max(hi, now), skew);
  }

  // ----- sweeping is invisible -----------------------------------------------------------------------------------

  /**
  How the sweeping limiter stands to the plain one: each of its buckets is the plain one's, and each
  bucket it no longer has is ripe.
  */
  ghost predicate Synced(l: Limiter, m: Limiter, hi: real, skew: real) {
    && (forall ip | ip in l.buckets :: ip in m.buckets && m.buckets[ip] == l.buckets[ip])
    && (forall ip | ip in m.buckets && ip !in l.buckets :: Ripe(m.buckets[ip], hi, skew))
  }

  lemma SweepSynced(l: Limiter, m: Limiter, now: real, hi: real, skew: real)
    requires Synced(l, m, hi, skew) && Sane(m, hi, skew) && Tolerable(skew)
    ensures Synced(Sweep(l, now), m, Max(hi, now), skew)
  {
    var top := Max(hi, now);
    forall ip | ip in m.buckets && ip !in Sweep(l, now).buckets ensures Ripe(m.buckets[ip], top, skew) {
      if ip in l.buckets {
        IdleIsRipe(m.buckets[ip], now, top, skew);
      } else {
        RipeStays(m.buckets[ip], hi, top, skew);
      }
    }
  }

  /** A ripe bucket answers like a new one. */
  lemma TakeSynced(l: Limiter, m: Limiter, ip: string, now: real, top: real, skew: real)
    requires Synced(l, m, top, skew) && top - skew <= now
    ensures Take(l, ip, now).0 == Take(m, ip, now).0 && Synced(Take(l, ip, now).1, Take(m, ip, now).1, top, skew)
  {
    if ip in m.buckets && ip !in l.buckets {
      assert Ripe(m.buckets[ip], top, skew);
    }
  }

  lemma AllowSynced(l: Limiter, m: Limiter, ip: string, now: real, hi: real, skew: real)
    requires Synced(l, m, hi, skew) && Sane(m, hi, skew) && Tolerable(skew) && hi - skew <= now
    requires !Untracked(Sweep(l, now), ip)
    ensures Allow(l, ip, now).0 == Take(m, ip, now).0
    ensures Synced(Allow(l, ip, now).1, Take(m, ip, now).1, Max(hi, now), skew)
  {
    SweepSynced(l, m, now, hi, skew);
    TakeSynced(Sweep(l, now), m, ip, now, Max(hi, now), skew);
  }

  /** The address of request j has a bucket or finds room for one. */
  ghost predicate TrackedAt(reqs: seq<Request>, j: nat)
    requires j < |reqs|
  {
    !Untracked(Sweep(Before(reqs, j), reqs[j].at), reqs[j].ip)
  }

  /** Up to request i every address was tracked when it made its request. */
  ghost predicate TrackedUpTo(reqs: seq<Request>, i: nat)
    requires i <= |reqs|
  {
    forall j | 0 <= j < i :: TrackedAt(reqs, j)
  }

  /** The latest time before request i, or its own for the first. */
  function Top(reqs: seq<Request>, i: nat): real
    requires i < |reqs|
  {
    if i == 0 then reqs[0].at else Latest(reqs, i - 1)
  }

  lemma {:induction false} RunsSynced(reqs: seq<Request>, skew: real, i: nat)
    requires Skewed(reqs, skew) && Tolerable(skew) && i < |reqs| && TrackedUpTo(reqs, i)
    ensures Sane(PlainBefore(reqs, i), Top(reqs, i), skew)
    ensures Synced(Before(reqs, i), PlainBefore(reqs, i), Top(reqs, i), skew)
    ensures Top(reqs, i) - skew <= reqs[i].at
  {
    if i > 0 {
      var r, hi := reqs[i - 1], Top(reqs, i - 1);
      RunsSynced(reqs, skew, i - 1);
      assert TrackedAt(reqs, i - 1);
      AllowSynced(Before(reqs, i - 1), PlainBefore(reqs, i - 1), r.ip, r.at, hi, skew);
      TakeSane(PlainBefore(reqs, i - 1), r.ip, r.at, hi, skew);
      NotLongBefore(reqs, skew, i - 1, i);
    }
  }

  /**
  While no address finds the table full, the limiter that sweeps answers every request of every
  sequence exactly like one that never sweeps, also when requests are served out of order.
  */
  lemma SweepingIsInvisible(reqs: seq<Request>, skew: real, i: nat)
    requires Skewed(reqs, skew) && Tolerable(skew) && i < |reqs| && TrackedUpTo(reqs, i + 1)
    ensures Answer(reqs, i) == PlainAnswer(reqs, i)
  {
    RunsSynced(reqs, skew, i);
    assert TrackedAt(reqs, i);
    AllowSynced(Before(reqs, i), PlainBefore(reqs, i), reqs[i].ip, reqs[i].at, Top(reqs, i), skew);
  }

  // ----- the tolerance is exact ----------------------------------------------------------------------------------

  /** In a run shorter than the table is large, every address is tracked. */
  lemma {:induction false} SmallTable(reqs: seq<Request>, i: nat)
    requires i <= |reqs|
    ensures |Before(reqs, i).buckets| <= i
  {
    if i > 0 {
      var l, r := Before(reqs, i - 1), reqs[i - 1];
      SmallTable(reqs, i - 1);
      SetSize(Sweep(l, r.at).buckets.Keys, l.buckets.Keys);
      assert Take(Sweep(l, r.at), r.ip, r.at).1.buckets.Keys == Sweep(l, r.at).buckets.Keys + {r.ip};
    }
  }

  lemma ShortRunsAreTracked(reqs: seq<Request>, i: nat)
    requires i <= |reqs| < MAX_ENTRIES
    ensures TrackedUpTo(reqs, i)
  {
    forall j | 0 <= j < i ensures TrackedAt(reqs, j) {
      SmallTable(reqs, j);
      SetSize(Sweep(Before(reqs, j), reqs[j].at).buckets.Keys, Before(reqs, j).buckets.Keys);
    }
  }

  /** k requests of one address at one instant. */
  function Takes(l: Limiter, ip: string, now: real, k: nat): Limiter {
    if k == 0 then l else Take(Takes(l, ip, now, k - 1), ip, now).1
  }

  /** Requests i..i + k are all of one address at one instant. */
  ghost predicate Burst(reqs: seq<Request>, i: nat, k: nat, ip: string, now: real) {
    i + k <= |reqs| && forall j | i <= j < i + k :: reqs[j] == Request(ip, now)
  }

  lemma {:induction false} PlainBurst(reqs: seq<Request>, i: nat, k: nat, ip: string, now: real)
    requires Burst(reqs, i, k, ip, now)
    ensures PlainBefore(reqs, i + k) == Takes(PlainBefore(reqs, i), ip, now, k)
  {
    if k > 0 {
      PlainBurst(reqs, i, k - 1, ip, now);
    }
  }

  lemma OneMore(first: Limiter, l: Limiter, l': Limiter, ip: string, now: real, k: nat)
    requires l == Takes(first, ip, now, k) && l.swept == first.swept && !SweepDue(first, now)
    requires |l.buckets| < MAX_ENTRIES && l' == Allow(l, ip, now).1
    ensures l' == Takes(first, ip, now, k + 1) && l'.swept == first.swept
  {
  }

  /** The states a small limiter goes through when one address keeps asking at one instant. */
  ghost predicate Asked(states: seq<Limiter>, ip: string, now: real) {
    && (forall j | 0 <= j < |states| - 1 :: |states[j].buckets| < MAX_ENTRIES)
    && forall j | 0 <= j < |states| - 1 :: states[j + 1] == Allow(states[j], ip, now).1
  }

  lemma {:induction false} AskedTakes(states: seq<Limiter>, ip: string, now: real, k: nat)
    requires k < |states| && Asked(states, ip, now) && !SweepDue(states[0], now)
    ensures states[k] == Takes(states[0], ip, now, k) && states[k].swept == states[0].swept
  {
    if k > 0 {
      AskedTakes(states, ip, now, k - 1);
      OneMore(states[0], states[k - 1], states[k], ip, now, k - 1);
    }
  }

  lemma BeforeNext(reqs: seq<Request>, j: nat)
    requires j < |reqs|
    ensures Before(reqs, j + 1) == Allow(Before(reqs, j), reqs[j].ip, reqs[j].at).1
  {
  }

  function States(reqs: seq<Request>, i: nat, k: nat): (states: seq<Limiter>)
    requires i + k <= |reqs|
    ensures |states| == k + 1 && forall j | 0 <= j <= k :: states[j] == Before(reqs, i + j)
  {
    seq(k + 1, j requires 0 <= j <= k => Before(reqs, i + j))
  }

  lemma StateNext(reqs: seq<Request>, i: nat, k: nat, j: nat, ip: string, now: real)
    requires Burst(reqs, i, k, ip, now) && j < k && |reqs| < MAX_ENTRIES
    ensures var states := States(reqs, i, k);
            |states[j].buckets| < MAX_ENTRIES && states[j + 1] == Allow(states[j], ip, now).1
  {
    SmallTable(reqs, i + j);
    BeforeNext(reqs, i + j);
  }

  lemma StatesAsked(reqs: seq<Request>, i: nat, k: nat, ip: string, now: real)
    requires Burst(reqs, i, k, ip, now) && |reqs| < MAX_ENTRIES
    ensures Asked(States(reqs, i, k), ip, now)
  {
    var states := States(reqs, i, k);
    forall j | 0 <= j < k ensures |states[j].buckets| < MAX_ENTRIES && states[j + 1] == Allow(states[j], ip, now).1 {
      StateNext(reqs, i, k, j, ip, now);
    }
  }

  /** Without a sweep the limiter does the same. */
  lemma SweptBurst(reqs: seq<Request>, i: nat, k: nat, ip: string, now: real)
    requires Burst(reqs, i, k, ip, now) && |reqs| < MAX_ENTRIES && !SweepDue(Before(reqs, i), now)
    ensures Before(reqs, i + k) == Takes(Before(reqs, i), ip, now, k)
    ensures Before(reqs, i + k).swept == Before(reqs, i).swept
  {
    StatesAsked(reqs, i, k, ip, now);
    AskedTakes(States(reqs, i, k), ip, now, k);
  }

  /** Sixty requests use up a full bucket, one token each. */
  lemma {:induction false} FullDrains(l: Limiter, ip: string, now: real, k: nat)
    requires Level(l, ip, now) == BURST && k <= 60
    ensures Level(Takes(l, ip, now, k), ip, now) == BURST - k as real
    ensures k > 0 ==> ip in Takes(l, ip, now, k).buckets
                      && Takes(l, ip, now, k).buckets[ip] == Bucket(BURST - k as real, now)
  {
    if k > 0 {
      FullDrains(l, ip, now, k - 1);
    }
  }

  /** A bucket that is not full is empty before the sixtieth. */
  lemma {:induction false} OtherDrains(l: Limiter, ip: string, now: real, k: nat)
    requires Level(l, ip, now) < BURST
    ensures Level(Takes(l, ip, now, k), ip, now) < Max(1.0, BURST - k as real)
  {
    if k > 0 {
      OtherDrains(l, ip, now, k - 1);
    }
  }

  const X := "192.0.2.1"
  const Y := "192.0.2.2"

  /**
  One address uses up its burst and asks once more with a time `skew` back; another's request sweeps its
  bucket, which owes 20 * skew tokens, and it asks sixty times with times `skew` before that sweep.
  */
  function Witness(skew: real): seq<Request> {
    seq(123, k requires 0 <= k < 123 =>
      if k == 0 then Request(Y, -400.0)
      else if k <= 60 then Request(X, 0.0)
      else if k == 61 then Request(X, -skew)
      else if k == 62 then Request(Y, 301.5)
      else Request(X, 301.5 - skew))
  }

  /** Where the witness stands after its first burst and the request out of order. */
  lemma WitnessOwes(skew: real)
    requires MAX_SKEW < skew <= IDLE_TTL
    ensures var reqs, owing := Witness(skew), Bucket(-skew * RATE, -skew);
            && X in PlainBefore(reqs, 62).buckets && PlainBefore(reqs, 62).buckets[X] == owing
            && X in Before(reqs, 62).buckets && Before(reqs, 62).buckets[X] == owing
            && Before(reqs, 62).swept == Some(-400.0)
  {
    var reqs := Witness(skew);
    SmallTable(reqs, 0);
    assert PlainBefore(reqs, 0) == EMPTY == Before(reqs, 0);
    assert X !in PlainBefore(reqs, 1).buckets && X !in Before(reqs, 1).buckets && Before(reqs, 1).swept == Some(-400.0);
    assert Burst(reqs, 1, 60, X, 0.0);
    PlainBurst(reqs, 1, 60, X, 0.0);
    SweptBurst(reqs, 1, 60, X, 0.0);
    FullDrains(PlainBefore(reqs, 1), X, 0.0, 60);
    FullDrains(Before(reqs, 1), X, 0.0, 60);
    assert reqs[61] == Request(X, -skew);
  }

  /** What the other's request does: the sweep forgets the debt. */
  lemma WitnessSwept(skew: real)
    requires MAX_SKEW < skew <= IDLE_TTL
    ensures var reqs := Witness(skew);
            && X !in Before(reqs, 63).buckets && Before(reqs, 63).swept == Some(301.5)
            && Level(PlainBefore(reqs, 63), X, 301.5 - skew) < BURST
  {
    var reqs := Witness(skew);
    WitnessOwes(skew);
    SmallTable(reqs, 62);
    assert reqs[62] == Request(Y, 301.5);
    var l := Before(reqs, 62);
    assert SweepDue(l, 301.5) && Idle(l.buckets[X], 301.5);
    assert X !in Sweep(l, 301.5).buckets;
  }

  /** The sixtieth request after the sweep is admitted, and the limiter that never sweeps refuses it. */
  lemma WitnessDiffers(skew: real)
    requires MAX_SKEW < skew <= IDLE_TTL
    ensures Answer(Witness(skew), 122) && !PlainAnswer(Witness(skew), 122)
  {
    var reqs, now := Witness(skew), 301.5 - skew;
    WitnessSwept(skew);
    assert Burst(reqs, 63, 59, X, now) && reqs[122] == Request(X, now);
    PlainBurst(reqs, 63, 59, X, now);
    SweptBurst(reqs, 63, 59, X, now);
    FullDrains(Before(reqs, 63), X, now, 59);
    OtherDrains(PlainBefore(reqs, 63), X, now, 59);
    SmallTable(reqs, 122);
  }

  /** Every run of tracked requests at most so far out of order is answered as without sweeping. */
  ghost predicate SweepsUnseen(skew: real) {
    forall reqs, i: nat | i < |reqs| && Skewed(reqs, skew) && TrackedUpTo(reqs, i + 1) ::
      Answer(reqs, i) == PlainAnswer(reqs, i)
  }

  /** Sweeping is invisible at a disorder if and only if that is at most 298.5 seconds. */
  lemma ToleranceIsExact(skew: real)
    requires 0.0 <= skew
    ensures SweepsUnseen(skew) <==> skew <= 298.5
  {
    if skew <= MAX_SKEW {
      forall reqs, i: nat | i < |reqs| && Skewed(reqs, skew) && TrackedUpTo(reqs, i + 1)
        ensures Answer(reqs, i) == PlainAnswer(reqs, i)
      {
        SweepingIsInvisible(reqs, skew, i);
      }
    } else {
      var s := if skew <= IDLE_TTL then skew else IDLE_TTL;
      var reqs := Witness(s);
      WitnessDiffers(s);
      ShortRunsAreTracked(reqs, 123);
      assert Skewed(reqs, skew);
    }
  }

  // ----- how much is admitted ----------------------------------------------------------------------------------

  /** How many of the requests i..j an address got admitted. */
  function Admitted(reqs: seq<Request>, ip: string, i: nat, j: nat): nat
    requires i <= j <= |reqs|
    decreases j - i
  {
    if i == j then 0 else Admitted(reqs, ip, i, j - 1) + if reqs[j - 1].ip == ip && Answer(reqs, j - 1) then 1 else 0
  }

  /** Every request of one address from i to j found it tracked. */
  ghost predicate Tracks(reqs: seq<Request>, ip: string, i: nat, j: nat)
    requires j <= |reqs|
  {
    forall k | i <= k < j && reqs[k].ip == ip :: TrackedAt(reqs, k)
  }

  /** The requests of an address from i to j carry times from s to t. */
  ghost predicate Within(reqs: seq<Request>, ip: string, i: nat, j: nat, s: real, t: real)
    requires j <= |reqs|
  {
    forall k | i <= k < j && reqs[k].ip == ip :: s <= reqs[k].at <= t
  }

  /** The tokens an address has at a time: a full burst when no bucket says otherwise. */
  function Level(l: Limiter, ip: string, now: real): real {
    if ip in l.buckets then Refilled(l.buckets[ip], now) else BURST
  }

  lemma LevelRises(l: Limiter, ip: string, now: real, later: real)
    requires now <= later
    ensures Level(l, ip, later) <= Level(l, ip, now) + (later - now) * RATE && Level(l, ip, now) <= BURST
  {
  }

  /** Sweeping changes no level from the earliest time a further request may carry on. */
  lemma SweepKeepsLevel(l: Limiter, now: real, ip: string, from: real, skew: real)
    requires Tolerable(skew) && now - skew <= from && (ip in l.buckets ==> -skew * RATE <= l.buckets[ip].tokens)
    ensures Level(Sweep(l, now), ip, from) == Level(l, ip, from)
  {
    if ip in l.buckets && Idle(l.buckets[ip], now) {
      IdleIsRipe(l.buckets[ip], now, now, skew);
    }
  }

  /** A request is admitted if its address has a token then, takes it, and concerns no other address. */
  lemma TakeLevels(l: Limiter, ip: string, now: real, other: string, from: real)
    requires other == ip ==> from <= now
    ensures var (ok, l') := Take(l, ip, now);
            && (ok <==> Level(l, ip, now) >= 1.0)
            && Level(l', other, from) <= Level(l, other, from) - if other == ip && ok then 1.0 else 0.0
  {
  }

  lemma {:induction false} SaneRun(reqs: seq<Request>, skew: real, i: nat)
    requires Skewed(reqs, skew) && Tolerable(skew) && i < |reqs|
    ensures Sane(Before(reqs, i), Top(reqs, i), skew) && Top(reqs, i) - skew <= reqs[i].at
  {
    if i > 0 {
      SaneRun(reqs, skew, i - 1);
      AllowSane(Before(reqs, i - 1), reqs[i - 1].ip, reqs[i - 1].at, Top(reqs, i - 1), skew);
      NotLongBefore(reqs, skew, i - 1, i);
    }
  }

  /** The earliest time request i or a later one of an address in the window may carry. */
  function Floor(reqs: seq<Request>, skew: real, s: real, i: nat): real
    requires i <= |reqs|
  {
    if i == 0 then s else Max(Floor(reqs, skew, s, i - 1), reqs[i - 1].at - skew)
  }

  lemma {:induction false} FloorBelow(reqs: seq<Request>, skew: real, s: real, i: nat, j: nat)
    requires Skewed(reqs, skew) && i <= j < |reqs| && s <= reqs[j].at
    ensures s <= Floor(reqs, skew, s, i) <= reqs[j].at
  {
    if i > 0 {
      FloorBelow(reqs, skew, s, i - 1, j);
    }
  }

  lemma {:induction false} FloorAbove(reqs: seq<Request>, skew: real, s: real, i: nat)
    requires i <= |reqs|
    ensures s <= Floor(reqs, skew, s, i)
  {
    if i > 0 {
      FloorAbove(reqs, skew, s, i - 1);
    }
  }

  /** What request k leaves an address, from the earliest time its next request may carry. */
  lemma LevelAfter(reqs: seq<Request>, ip: string, skew: real, s: real, k: nat)
    requires Skewed(reqs, skew) && Tolerable(skew) && k < |reqs|
    requires reqs[k].ip == ip ==> TrackedAt(reqs, k) && s <= reqs[k].at
    ensures var from, next := Floor(reqs, skew, s, k), Floor(reqs, skew, s, k + 1);
            Level(Before(reqs, k + 1), ip, next) <=
              Level(Before(reqs, k), ip, from) + (next - from) * RATE
              - if reqs[k].ip == ip && Answer(reqs, k) then 1.0 else 0.0
  {
    var l, now, next := Before(reqs, k), reqs[k].at, Floor(reqs, skew, s, k + 1);
    SaneRun(reqs, skew, k);
    LevelRises(l, ip, Floor(reqs, skew, s, k), next);
    SweepKeepsLevel(l, now, ip, next, skew);
    if reqs[k].ip == ip {
      FloorBelow(reqs, skew, s, k, k);
    }
    TakeLevels(Sweep(l, now), reqs[k].ip, now, ip, next);
  }

  lemma AdmittedStep(reqs: seq<Request>, ip: string, i: nat, j: nat)
    requires i < j <= |reqs|
    ensures Admitted(reqs, ip, i, j) as real ==
            Admitted(reqs, ip, i, j - 1) as real + if reqs[j - 1].ip == ip && Answer(reqs, j - 1) then 1.0 else 0.0
  {
  }

  /** One admission more or less, and the level it leaves at the next time. */
  lemma Account(a: real, level: real, from: real, a': real, level': real, next: real, d: real, s: real)
    requires a + level <= BURST + (from - s) * RATE && a' == a + d && level' <= level + (next - from) * RATE - d
    ensures a' + level' <= BURST + (next - s) * RATE
  {
  }

  /** What was admitted from i to j and the level left are paid for by a burst and the refill since s. */
  ghost predicate Paid(reqs: seq<Request>, ip: string, skew: real, i: nat, j: nat, s: real)
    requires i <= j <= |reqs|
  {
    var from := Floor(reqs, skew, s, j);
    Admitted(reqs, ip, i, j) as real + Level(Before(reqs, j), ip, from) <= BURST + (from - s) * RATE
  }

  lemma PaidAtStart(reqs: seq<Request>, ip: string, skew: real, i: nat, s: real)
    requires i <= |reqs|
    ensures Paid(reqs, ip, skew, i, i, s)
  {
    FloorAbove(reqs, skew, s, i);
  }

  lemma PaidStep(reqs: seq<Request>, ip: string, skew: real, i: nat, k: nat, s: real)
    requires Skewed(reqs, skew) && Tolerable(skew) && i <= k < |reqs| && Paid(reqs, ip, skew, i, k, s)
    requires reqs[k].ip == ip ==> TrackedAt(reqs, k) && s <= reqs[k].at
    ensures Paid(reqs, ip, skew, i, k + 1, s)
  {
    AdmittedStep(reqs, ip, i, k + 1);
    LevelAfter(reqs, ip, skew, s, k);
    var from, next := Floor(reqs, skew, s, k), Floor(reqs, skew, s, k + 1);
    Account(Admitted(reqs, ip, i, k) as real, Level(Before(reqs, k), ip, from), from,
            Admitted(reqs, ip, i, k + 1) as real, Level(Before(reqs, k + 1), ip, next), next,
            if reqs[k].ip == ip && Answer(reqs, k) then 1.0 else 0.0, s);
  }

  lemma {:induction false} AdmittedPlusLevel(reqs: seq<Request>, ip: string, skew: real, i: nat, j: nat,
                                             s: real, t: real)
    requires Skewed(reqs, skew) && Tolerable(skew) && i <= j <= |reqs|
    requires Tracks(reqs, ip, i, j) && Within(reqs, ip, i, j, s, t)
    ensures Paid(reqs, ip, skew, i, j, s)
    decreases j - i
  {
    if i < j {
      AdmittedPlusLevel(reqs, ip, skew, i, j - 1, s, t);
      PaidStep(reqs, ip, skew, i, j - 1, s);
    } else {
      PaidAtStart(reqs, ip, skew, i, s);
    }
  }

  /** Right after an admission, the level is no less than what its own time still owes. */
  lemma LevelWhenAdmitted(reqs: seq<Request>, ip: string, skew: real, s: real, k: nat)
    requires Skewed(reqs, skew) && Tolerable(skew) && k < |reqs| && s <= reqs[k].at
    requires reqs[k].ip == ip && Answer(reqs, k) && TrackedAt(reqs, k)
    ensures var from := Floor(reqs, skew, s, k + 1);
            Level(Before(reqs, k + 1), ip, from) >= (from - reqs[k].at) * RATE
  {
    FloorBelow(reqs, skew, s, k, k);
  }

  /**
  An address is admitted at most 60 + 20 (t - s) of its requests that carry times from s to t, in any
  stretch of any run, also when requests are served out of order.
  */
  lemma {:induction false} WindowBound(reqs: seq<Request>, ip: string, skew: real, i: nat, j: nat, s: real, t: real)
    requires Skewed(reqs, skew) && Tolerable(skew) && i <= j <= |reqs| && s <= t
    requires Tracks(reqs, ip, i, j) && Within(reqs, ip, i, j, s, t)
    ensures Admitted(reqs, ip, i, j) as real <= 60.0 + 20.0 * (t - s)
    decreases j - i
  {
    if i < j {
      if reqs[j - 1].ip == ip && Answer(reqs, j - 1) {
        AdmittedPlusLevel(reqs, ip, skew, i, j, s, t);
        LevelWhenAdmitted(reqs, ip, skew, s, j - 1);
      } else {
        WindowBound(reqs, ip, skew, i, j - 1, s, t);
      }
    }
  }

  // ----- exactly what is admitted ------------------------------------------------------------------------------

  /** What request j of an address leaves it at a time: a burst, the refill since, less what was admitted since. */
  ghost function Allowance(reqs: seq<Request>, ip: string, j: nat, k: nat, now: real): real
    requires j <= k <= |reqs| && j < |reqs|
  {
    60.0 + 20.0 * (now - reqs[j].at) - Admitted(reqs, ip, j, k) as real
  }

  ghost predicate Own(reqs: seq<Request>, ip: string, j: nat, k: nat) {
    j < k <= |reqs| && reqs[j].ip == ip
  }

  /** A level is no more than a burst and than what each of the address's earlier requests leaves it. */
  ghost predicate Bounded(reqs: seq<Request>, ip: string, k: nat, now: real, level: real) {
    level <= 60.0 && forall j: nat | Own(reqs, ip, j, k) :: level <= Allowance(reqs, ip, j, k, now)
  }

  /** And it is one of these: what request j leaves, or the burst. */
  ghost predicate Attained(reqs: seq<Request>, ip: string, k: nat, now: real, level: real, j: Option<nat>) {
    if j.None? then level == 60.0
    else Own(reqs, ip, j.value, k) && level == Allowance(reqs, ip, j.value, k, now)
  }

  /** What one request more makes of what an earlier one leaves. */
  lemma AllowanceStep(reqs: seq<Request>, ip: string, j: nat, k: nat, now: real)
    requires j <= k < |reqs|
    ensures Allowance(reqs, ip, j, k + 1, now) ==
            60.0 + 20.0 * (now - reqs[j].at) - Admitted(reqs, ip, j, k) as real
            - if reqs[k].ip == ip && Answer(reqs, k) then 1.0 else 0.0
  {
    AdmittedStep(reqs, ip, j, k + 1);
  }

  /** A request of another address. */
  lemma OthersLeaveAllowance(reqs: seq<Request>, ip: string, k: nat, now: real, level: real, j: Option<nat>)
    requires k < |reqs| && reqs[k].ip != ip
    requires Bounded(reqs, ip, k, now, level) && Attained(reqs, ip, k, now, level, j)
    ensures Bounded(reqs, ip, k + 1, now, level) && Attained(reqs, ip, k + 1, now, level, j)
  {
    var n := k + 1;
    forall i: nat | Own(reqs, ip, i, n) ensures level <= Allowance(reqs, ip, i, n, now) {
      AllowanceStep(reqs, ip, i, k, now);
      assert Own(reqs, ip, i, k);
    }
    if j.Some? {
      AllowanceStep(reqs, ip, j.value, k, now);
    }
  }

  /** Request k leaves the address less what it took and more what is refilled until then, a burst at most. */
  ghost function Left(level: real, taken: bool, passed: real): real {
    var x := level - (if taken then 1.0 else 0.0) + 20.0 * passed;
    if x > 60.0 then 60.0 else x
  }

  lemma OwnAllowance(reqs: seq<Request>, ip: string, k: nat, now: real, level: real, j: Option<nat>)
    returns (j': Option<nat>)
    requires k < |reqs| && reqs[k].ip == ip
    requires Bounded(reqs, ip, k, reqs[k].at, level) && Attained(reqs, ip, k, reqs[k].at, level, j)
    ensures var level' := Left(level, Answer(reqs, k), now - reqs[k].at);
            Bounded(reqs, ip, k + 1, now, level') && Attained(reqs, ip, k + 1, now, level', j')
  {
    var level' := Left(level, Answer(reqs, k), now - reqs[k].at);
    var n := k + 1;
    forall i: nat | Own(reqs, ip, i, n) ensures level' <= Allowance(reqs, ip, i, n, now) {
      AllowanceStep(reqs, ip, i, k, now);
      assert i == k || (Own(reqs, ip, i, k) && level <= Allowance(reqs, ip, i, k, reqs[k].at));
    }
    j' := if level' == 60.0 then None else if j.None? then Some(k) else j;
    if j'.Some? {
      AllowanceStep(reqs, ip, j'.value, k, now);
    }
  }

  lemma PlainLevel(reqs: seq<Request>, ip: string, k: nat, now: real)
    requires k < |reqs|
    ensures PlainAnswer(reqs, k) <==> Level(PlainBefore(reqs, k), reqs[k].ip, reqs[k].at) >= 1.0
    ensures Level(PlainBefore(reqs, k + 1), ip, now) ==
            if reqs[k].ip == ip
            then Left(Level(PlainBefore(reqs, k), ip, reqs[k].at), PlainAnswer(reqs, k), now - reqs[k].at)
            else Level(PlainBefore(reqs, k), ip, now)
  {
  }

  lemma {:induction false} LevelIsLeast(reqs: seq<Request>, ip: string, k: nat, now: real) returns (j: Option<nat>)
    requires k <= |reqs| && forall i | 0 <= i < k :: Answer(reqs, i) == PlainAnswer(reqs, i)
    ensures var level := Level(PlainBefore(reqs, k), ip, now);
            Bounded(reqs, ip, k, now, level) && Attained(reqs, ip, k, now, level, j)
  {
    j := None;
    if k > 0 {
      var l, r := PlainBefore(reqs, k - 1), reqs[k - 1];
      PlainLevel(reqs, ip, k - 1, now);
      if r.ip == ip {
        j := LevelIsLeast(reqs, ip, k - 1, r.at);
        j := OwnAllowance(reqs, ip, k - 1, now, Level(l, ip, r.at), j);
      } else {
        j := LevelIsLeast(reqs, ip, k - 1, now);
        OthersLeaveAllowance(reqs, ip, k - 1, now, Level(l, ip, now), j);
      }
    }
  }

  /**
  Which requests are admitted, exactly, and told without a bucket: a request is admitted if and only if,
  counted from each of the address's own requests, those admitted since and this one are no more than
  60 and 20 for each second since.
  */
  lemma AdmittedIff(reqs: seq<Request>, skew: real, k: nat)
    requires Skewed(reqs, skew) && 0.0 <= skew <= 298.5 && k < |reqs| && TrackedUpTo(reqs, k + 1)
    ensures Answer(reqs, k) <==>
            forall j: nat | Own(reqs, reqs[k].ip, j, k) ::
              Admitted(reqs, reqs[k].ip, j, k) as real + 1.0 <= 60.0 + 20.0 * (reqs[k].at - reqs[j].at)
  {
    forall i | 0 <= i <= k ensures Answer(reqs, i) == PlainAnswer(reqs, i) {
      SweepingIsInvisible(reqs, skew, i);
    }
    var j := LevelIsLeast(reqs, reqs[k].ip, k, reqs[k].at);
    PlainLevel(reqs, reqs[k].ip, k, reqs[k].at);
    LeastDecides(reqs, k, Level(PlainBefore(reqs, k), reqs[k].ip, reqs[k].at), j);
  }

  lemma LeastDecides(reqs: seq<Request>, k: nat, level: real, j: Option<nat>)
    requires k < |reqs| && Bounded(reqs, reqs[k].ip, k, reqs[k].at, level)
    requires Attained(reqs, reqs[k].ip, k, reqs[k].at, level, j)
    ensures level >= 1.0 <==>
            forall j: nat | Own(reqs, reqs[k].ip, j, k) ::
              Admitted(reqs, reqs[k].ip, j, k) as real + 1.0 <= 60.0 + 20.0 * (reqs[k].at - reqs[j].at)
  {
    forall i: nat | Own(reqs, reqs[k].ip, i, k)
      ensures Allowance(reqs, reqs[k].ip, i, k, reqs[k].at) >= 1.0 <==>
              Admitted(reqs, reqs[k].ip, i, k) as real + 1.0 <= 60.0 + 20.0 * (reqs[k].at - reqs[i].at)
    {
    }
  }

  /** A request is tracked unless its address is new to a table of 50000 others that a sweep has left. */
  lemma UntrackedIff(reqs: seq<Request>, j: nat)
    requires j < |reqs|
    ensures var kept := Sweep(Before(reqs, j), reqs[j].at).buckets;
            TrackedAt(reqs, j) <==> reqs[j].ip in kept || |kept| < 50_000
  {
  }

  /** What a sweep keeps: everything until 600 seconds after the last, then all touched in the last 600. */
  lemma SweptExactly(l: Limiter, now: real, ip: string)
    ensures var kept := Sweep(l, now);
            && (ip in kept.buckets <==>
                  && ip in l.buckets
                  && ((l.swept.Some? && now < l.swept.value + 600.0) || now <= l.buckets[ip].seen + 600.0))
            && (ip in kept.buckets ==> kept.buckets[ip] == l.buckets[ip])
            && kept.swept == if l.swept.Some? && now < l.swept.value + 600.0 then l.swept else Some(now)
  {
  }

  /**
  An address that finds the table full is admitted however often it asks at that instant, so no bound
  holds there: the condition of WindowBound cannot be dropped.
  */
  lemma {:induction false} FullTableAdmitsAll(reqs: seq<Request>, i: nat, j: nat)
    requires i < j <= |reqs| && !TrackedAt(reqs, i) && forall k | i <= k < j :: reqs[k] == reqs[i]
    ensures Admitted(reqs, reqs[i].ip, i, j) == j - i
    ensures Before(reqs, j) == Sweep(Before(reqs, i), reqs[i].at)
    decreases j - i
  {
    if i < j - 1 {
      FullTableAdmitsAll(reqs, i, j - 1);
      assert Sweep(Before(reqs, j - 1), reqs[i].at) == Before(reqs, j - 1);
    }
    assert reqs[j - 1] == reqs[i];
    assert Answer(reqs, j - 1);
  }
}
