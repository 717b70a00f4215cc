/**
The chunked walks over delivery rows: RetryCampaign's loop of Requeue calls (internal/control/campaign.go)
and the canceller's one BulkTransition per tick (internal/control/campaign_loops.go). A store call takes the
first `limit` rows that match (store/delivery.go:270-278), in ID order as the reference store does.

Both are a bounded update applied again and again; the theorems say when that is one big update.
*/
module ChunkedUpdates {
  import opened Deliveries
  import opened Wrappers

  datatype ErrorClass = NoError | Transient | RateLimited | Permanent | Policy | Auth

  datatype Delivery = Delivery(id: string, status: DeliveryStatus, errorClass: ErrorClass, retryGen: nat, attempts: nat)

  type Rows = seq<Delivery>

  /** Which rows a store call selects, and what it makes of one. */
  type Test = Delivery -> bool
  type Change = Delivery -> Delivery

  datatype Updated = Updated(rows: Rows, count: nat)

  /** Change the first `limit` rows from i on that match, and count them. */
  function Bounded(rows: Rows, hit: Test, change: Change, limit: nat, i: nat): Updated
    requires i <= |rows|
    decreases |rows| - i
  {
    if i == |rows| || limit == 0 then Updated(rows, 0)
    else if hit(rows[i]) then
      var u := Bounded(rows[i := change(rows[i])], hit, change, limit - 1, i + 1);
      Updated(u.rows, u.count + 1)
    else Bounded(rows, hit, change, limit, i + 1)
  }

  /** How many of the rows i..j match. */
  function Hits(rows: Rows, hit: Test, i: nat, j: nat): nat
    requires i <= j <= |rows|
    decreases j - i
  {
    if i == j then 0 else (if hit(rows[i]) then 1 else 0) + Hits(rows, hit, i + 1, j)
  }

  function Total(rows: Rows, hit: Test): nat {
    Hits(rows, hit, 0, |rows|)
  }

  /** Row k is among the first `limit` matches. */
  ghost predicate Chosen(rows: Rows, hit: Test, limit: nat, k: nat)
    requires k < |rows|
  {
    hit(rows[k]) && Hits(rows, hit, 0, k) < limit
  }

  /** Row k is among the first `limit` matches from row i on. */
  ghost predicate ChosenFrom(rows: Rows, hit: Test, limit: nat, i: nat, k: nat)
    requires i <= |rows| && k < |rows|
  {
    k >= i && hit(rows[k]) && Hits(rows, hit, i, k) < limit
  }

  // ----- what one bounded update does, row by row --------------------------------------------------------------

  ghost predicate RowsAre(before: Rows, after: Rows, hit: Test, change: Change, limit: nat) {
    && |after| == |before|
    && forall k | 0 <= k < |before| ::
         after[k] == if Chosen(before, hit, limit, k) then change(before[k]) else before[k]
  }

  lemma {:induction false} HitsSplit(rows: Rows, hit: Test, i: nat, k: nat, j: nat)
    requires i <= k <= j <= |rows|
    ensures Hits(rows, hit, i, j) == Hits(rows, hit, i, k) + Hits(rows, hit, k, j)
    decreases k - i
  {
    if i < k {
      HitsSplit(rows, hit, i + 1, k, j);
    }
  }

  lemma {:induction false} HitsSame(a: Rows, b: Rows, hit: Test, i: nat, j: nat)
    requires i <= j <= |a| == |b| && forall k | i <= k < j :: hit(a[k]) == hit(b[k])
    ensures Hits(a, hit, i, j) == Hits(b, hit, i, j)
    decreases j - i
  {
    if i < j {
      HitsSame(a, b, hit, i + 1, j);
    }
  }

  lemma {:induction false} BoundedFrom(rows: Rows, hit: Test, change: Change, limit: nat, i: nat)
    requires i <= |rows|
    ensures var u := Bounded(rows, hit, change, limit, i);
            && |u.rows| == |rows| && u.count == Min(limit, Hits(rows, hit, i, |rows|))
            && forall k | 0 <= k < |rows| ::
                 u.rows[k] == if ChosenFrom(rows, hit, limit, i, k) then change(rows[k]) else rows[k]
    decreases |rows| - i
  {
    if i < |rows| && limit > 0 {
      var next := if hit(rows[i]) then rows[i := change(rows[i])] else rows;
      var less := if hit(rows[i]) then limit - 1 else limit;
      BoundedFrom(next, hit, change, less, i + 1);
      var u := Bounded(rows, hit, change, limit, i);
      HitsSame(next, rows, hit, i + 1, |rows|);
      forall k | 0 <= k < |rows|
        ensures u.rows[k] == if ChosenFrom(rows, hit, limit, i, k) then change(rows[k]) else rows[k]
      {
        if k > i {
          HitsSame(next, rows, hit, i + 1, k);
        }
      }
    }
  }

  lemma BoundedRows(rows: Rows, hit: Test, change: Change, limit: nat)
    ensures var u := Bounded(rows, hit, change, limit, 0);
            RowsAre(rows, u.rows, hit, change, limit) && u.count == Min(limit, Total(rows, hit))
  {
    BoundedFrom(rows, hit, change, limit, 0);
  }

  // ----- again and again -------------------------------------------------------------------------------------------

  /**
  p passes, each over the rows the one before left, stopping after one that came up short; and then a
  last call that fails after changing up to `part` rows, none when the context ended instead.
  */
  function Passes(rows: Rows, hit: Test, change: Change, chunk: nat, p: nat, part: nat): Updated
    decreases p
  {
    if p == 0 then Bounded(rows, hit, change, part, 0)
    else
      var first := Bounded(rows, hit, change, chunk, 0);
      if first.count < chunk then first
      else
        var rest := Passes(first.rows, hit, change, chunk, p - 1, part);
        Updated(rest.rows, first.count + rest.count)
  }

  /** A changed row does not match again. */
  ghost predicate Settles(hit: Test, change: Change) {
    forall d :: hit(d) ==> !hit(change(d))
  }

  /** After a pass the matches before row k are those beyond the limit. */
  lemma {:induction false} HitsAfter(rows: Rows, after: Rows, hit: Test, change: Change, limit: nat, k: nat)
    requires Settles(hit, change) && RowsAre(rows, after, hit, change, limit) && k <= |rows|
    ensures Hits(after, hit, 0, k) + Min(limit, Hits(rows, hit, 0, k)) == Hits(rows, hit, 0, k)
  {
    if k > 0 {
      HitsAfter(rows, after, hit, change, limit, k - 1);
      HitsSplit(rows, hit, 0, k - 1, k);
      HitsSplit(after, hit, 0, k - 1, k);
      assert after[k - 1] == if Chosen(rows, hit, limit, k - 1) then change(rows[k - 1]) else rows[k - 1];
    }
  }

  /** Two passes of a settling update are one with both limits together. */
  lemma TwoPasses(rows: Rows, mid: Rows, after: Rows, hit: Test, change: Change, a: nat, b: nat)
    requires Settles(hit, change) && RowsAre(rows, mid, hit, change, a) && RowsAre(mid, after, hit, change, b)
    ensures RowsAre(rows, after, hit, change, a + b)
  {
    forall k | 0 <= k < |rows|
      ensures after[k] == if Chosen(rows, hit, a + b, k) then change(rows[k]) else rows[k]
    {
      HitsAfter(rows, mid, hit, change, a, k);
      assert mid[k] == if Chosen(rows, hit, a, k) then change(rows[k]) else rows[k];
      assert after[k] == if Chosen(mid, hit, b, k) then change(mid[k]) else mid[k];
    }
  }

  /** A pass that comes up short took every match, so a higher limit would take the same. */
  lemma ShortPass(rows: Rows, after: Rows, hit: Test, change: Change, limit: nat, more: nat)
    requires RowsAre(rows, after, hit, change, limit) && Total(rows, hit) <= limit <= more
    ensures RowsAre(rows, after, hit, change, more)
  {
    forall k | 0 <= k < |rows| && hit(rows[k]) ensures Hits(rows, hit, 0, k) < Total(rows, hit) {
      HitsSplit(rows, hit, 0, k, |rows|);
    }
    forall k | 0 <= k < |rows| ensures after[k] == if Chosen(rows, hit, more, k) then change(rows[k]) else rows[k] {
      assert after[k] == if Chosen(rows, hit, limit, k) then change(rows[k]) else rows[k];
    }
  }

  /** A full pass, and then one with the rest of the budget. */
  lemma PassThenRest(rows: Rows, first: Updated, rest: Updated, hit: Test, change: Change, chunk: nat, budget: nat)
    requires Settles(hit, change) && first == Bounded(rows, hit, change, chunk, 0) && first.count >= chunk
    requires RowsAre(first.rows, rest.rows, hit, change, budget) && rest.count == Min(budget, Total(first.rows, hit))
    ensures RowsAre(rows, rest.rows, hit, change, chunk + budget)
    ensures first.count + rest.count == Min(chunk + budget, Total(rows, hit))
  {
    BoundedRows(rows, hit, change, chunk);
    TwoPasses(rows, first.rows, rest.rows, hit, change, chunk, budget);
    HitsAfter(rows, first.rows, hit, change, chunk, |rows|);
  }

  /** Passes of a settling update are one update with the whole budget. */
  lemma {:induction false} PassesAreOne(rows: Rows, hit: Test, change: Change, chunk: nat, p: nat, part: nat)
    requires Settles(hit, change)
    ensures var u, budget := Passes(rows, hit, change, chunk, p, part), p * chunk + part;
            RowsAre(rows, u.rows, hit, change, budget) && u.count == Min(budget, Total(rows, hit))
    decreases p
  {
    if p == 0 {
      BoundedRows(rows, hit, change, part);
    } else {
      var first, budget := Bounded(rows, hit, change, chunk, 0), (p - 1) * chunk + part;
      assert p * chunk + part == chunk + budget;
      if first.count < chunk {
        BoundedRows(rows, hit, change, chunk);
        ShortPass(rows, first.rows, hit, change, chunk, chunk + budget);
      } else {
        PassesAreOne(first.rows, hit, change, chunk, p - 1, part);
        PassThenRest(rows, first, Passes(first.rows, hit, change, chunk, p - 1, part), hit, change, chunk, budget);
      }
    }
  }

  // ----- RetryCampaign ---------------------------------------------------------------------------------------------

  const MAX_RETRY_CHUNKS: nat := 1000

  /** An empty set of statuses or classes matches all; ids is None for every delivery. */
  datatype Filter = Filter(ids: Option<set<string>>, statuses: set<DeliveryStatus>, classes: set<ErrorClass>)

  predicate Matches(f: Filter, d: Delivery) {
    && (f.ids.None? || d.id in f.ids.value)
    && (f.statuses == {} || d.status in f.statuses)
    && (f.classes == {} || d.errorClass in f.classes)
  }

  function Matching(f: Filter): Test {
    d => Matches(f, d)
  }

  /** Back to queued with the retry generation bumped and the attempts kept. */
  function Requeued(d: Delivery): Delivery {
    d.(status := Queued, retryGen := d.retryGen + 1)
  }

  /** What a retry without a status means. */
  function Effective(f: Filter): Filter {
    if f.statuses == {} then f.(statuses := {Failed}) else f
  }

  /** The rows the call that fails may still requeue: none once the loop is over. */
  function Part(chunk: nat, p: nat, part: nat): nat {
    if p < MAX_RETRY_CHUNKS then Min(part, chunk) else 0
  }

  /** RetryCampaign's effect when p passes succeed, and the next requeues `part` rows and fails. */
  function Retry(rows: Rows, f: Filter, chunk: nat, p: nat, part: nat): Updated {
    if f.ids == Some({}) then Updated(rows, 0)
    else Passes(rows, Matching(Effective(f)), Requeued, chunk, Min(p, MAX_RETRY_CHUNKS), Part(chunk, p, part))
  }

  class DeliveryRepo {
    var rows: Rows

    constructor (rows: Rows)
      ensures this.rows == rows
    {
      this.rows := rows;
    }

    /** The store's conditional update of up to `limit` matching rows. */
    method UpdateMatching(hit: Test, change: Change, limit: nat) returns (n: nat)
      modifies this
      ensures Updated(rows, n) == Bounded(old(rows), hit, change, limit, 0)
    {
      n := 0;
      var i := 0;
      while i < |rows| && n < limit
        invariant 0 <= i <= |rows| && n <= limit
        invariant var u := Bounded(rows, hit, change, limit - n, i);
                  Updated(u.rows, u.count + n) == Bounded(old(rows), hit, change, limit, 0)
        decreases |rows| - i
      {
        if hit(rows[i]) {
          rows := rows[i := change(rows[i])];
          n := n + 1;
        }
        i := i + 1;
      }
    }

    /**
    The chunk loop of RetryCampaign. Before pass number `deadline` the context ends, or that pass fails
    after requeuing up to `part` rows.
    */
    method RetryCampaign(f: Filter, chunk: nat, deadline: nat, part: nat) returns (total: nat)
      modifies this
      ensures Updated(rows, total) == Retry(old(rows), f, chunk, deadline, part)
    {
      var filter := f;
      if filter.statuses == {} {
        filter := filter.(statuses := {Failed});
      }
      if filter.ids == Some({}) {
        return 0;
      }
      ghost var hit, p, left := Matching(filter), Min(deadline, MAX_RETRY_CHUNKS), Part(chunk, deadline, part);
      total := 0;
      var i := 0;
      while i < MAX_RETRY_CHUNKS
        invariant 0 <= i <= p
        invariant var u := Passes(rows, hit, Requeued, chunk, p - i, left);
                  Updated(u.rows, u.count + total) == Passes(old(rows), hit, Requeued, chunk, p, left)
        decreases MAX_RETRY_CHUNKS - i
      {
        if i >= deadline {
          var n := UpdateMatching(Matching(filter), Requeued, Min(part, chunk));
          total := total + n;
          return;
        }
        var n := UpdateMatching(Matching(filter), Requeued, chunk);
        total := total + n;
        if n < chunk {
          return;
        }
        i := i + 1;
      }
      NoneLeft(rows, hit);
    }

    /** canceller.Tick on this campaign. */
    method CancelTick(chunk: nat) returns (n: nat)
      modifies this
      ensures rows == Ticks(old(rows), chunk, 1)
      ensures n == Min(chunk, |WaitingRows(old(rows), |old(rows)|)|)
    {
      HitsAreWaiting(rows, |rows|);
      BoundedRows(rows, Cancellable, CancelledRow, chunk);
      n := UpdateMatching(Cancellable, CancelledRow, chunk);
      assert Ticks(old(rows), chunk, 0) == old(rows);
    }
  }

  lemma NoneLeft(rows: Rows, hit: Test)
    ensures Bounded(rows, hit, Requeued, 0, 0) == Updated(rows, 0)
  {
  }

  /**
  For every chunk size and every filter that does not select queued deliveries, a retry of p passes
  and a failing one requeues the first min(m, p * chunk + part) of the m matches, each with its
  generation bumped once, leaves every other row as it was, and returns how many it moved.
  */
  lemma RetryMovesEachOnce(rows: Rows, f: Filter, chunk: nat, p: nat, part: nat)
    requires Queued !in f.statuses && f.ids != Some({})
    ensures var u := Retry(rows, f, chunk, p, part);
            var hit := Matching(Effective(f));
            var budget := Min(p, MAX_RETRY_CHUNKS) * chunk + Part(chunk, p, part);
            RowsAre(rows, u.rows, hit, Requeued, budget) && u.count == Min(budget, Total(rows, hit))
  {
    PassesAreOne(rows, Matching(Effective(f)), Requeued, chunk, Min(p, MAX_RETRY_CHUNKS), Part(chunk, p, part));
  }

  // What a retry selects and does, told without the functions of the loop.

  /** A row a retry is about: one of the named deliveries, failed or of a named status, of a named class. */
  ghost predicate Wanted(f: Filter, d: Delivery) {
    && (f.ids.Some? ==> d.id in f.ids.value)
    && (if f.statuses == {} then d.status == Failed else d.status in f.statuses)
    && (f.classes != {} ==> d.errorClass in f.classes)
  }

  ghost function WantedBefore(rows: Rows, f: Filter, k: nat): set<nat>
    requires k <= |rows|
  {
    set j: nat | j < k && Wanted(f, rows[j])
  }

  lemma {:induction false} HitsAreWanted(rows: Rows, f: Filter, k: nat)
    requires k <= |rows|
    ensures Hits(rows, Matching(Effective(f)), 0, k) == |WantedBefore(rows, f, k)|
  {
    if k == 0 {
      assert WantedBefore(rows, f, 0) == {};
    } else {
      HitsAreWanted(rows, f, k - 1);
      HitsSplit(rows, Matching(Effective(f)), 0, k - 1, k);
      assert WantedBefore(rows, f, k) == WantedBefore(rows, f, k - 1) + if Wanted(f, rows[k - 1]) then {k - 1} else {};
    }
  }

  /** A requeued row: queued in the next generation, with its attempts and all else kept. */
  ghost predicate InNextGeneration(a: Delivery, b: Delivery) {
    && b.status == Queued && b.retryGen == a.retryGen + 1
    && b.id == a.id && b.errorClass == a.errorClass && b.attempts == a.attempts
  }

  /**
  Row by row: of a filter that names no queued deliveries the first wanted rows, at most a chunk for each
  of up to 1000 passes and `part` for a failing one, are in the next generation, and no other row changed.
  An empty selection changes nothing.
  */
  lemma RetryRows(rows: Rows, f: Filter, chunk: nat, p: nat, part: nat, k: nat)
    requires Queued !in f.statuses && k < |rows|
    ensures var u := Retry(rows, f, chunk, p, part);
            var budget := if p < 1000 then p * chunk + (if part < chunk then part else chunk) else 1000 * chunk;
            var wanted := |WantedBefore(rows, f, |rows|)|;
            && |u.rows| == |rows|
            && (if Wanted(f, rows[k]) && |WantedBefore(rows, f, k)| < budget then InNextGeneration(rows[k], u.rows[k])
                else u.rows[k] == rows[k])
            && u.count == if wanted < budget then wanted else budget
  {
    HitsAreWanted(rows, f, k);
    HitsAreWanted(rows, f, |rows|);
    if f.ids == Some({}) {
      assert WantedBefore(rows, f, |rows|) == {};
    } else {
      RetryMovesEachOnce(rows, f, chunk, p, part);
      var u, hit := Retry(rows, f, chunk, p, part), Matching(Effective(f));
      var budget := Min(p, MAX_RETRY_CHUNKS) * chunk + Part(chunk, p, part);
      assert u.rows[k] == if Chosen(rows, hit, budget, k) then Requeued(rows[k]) else rows[k];
    }
  }

  /** No row's generation grew by more than one. */
  ghost predicate BumpedOnce(before: Rows, after: Rows) {
    |after| == |before| && forall k | 0 <= k < |before| :: after[k].retryGen <= before[k].retryGen + 1
  }

  lemma {:induction false} FirstHit(rows: Rows, hit: Test, i: nat) returns (k: nat)
    requires i <= |rows| && Hits(rows, hit, i, |rows|) > 0
    ensures i <= k < |rows| && hit(rows[k]) && Hits(rows, hit, i, k) == 0
    decreases |rows| - i
  {
    if hit(rows[i]) {
      k := i;
    } else {
      k := FirstHit(rows, hit, i + 1);
    }
  }

  /** With queued among the statuses, every pass requeues the first match again. */
  lemma {:induction false} BumpedEveryPass(rows: Rows, f: Filter, chunk: nat, p: nat, k: nat)
    requires Queued in f.statuses && 0 < chunk <= Total(rows, Matching(f))
    requires k < |rows| && Matches(f, rows[k]) && Hits(rows, Matching(f), 0, k) == 0
    ensures var u := Passes(rows, Matching(f), Requeued, chunk, p, 0);
            |u.rows| == |rows| && u.rows[k].retryGen == rows[k].retryGen + p
    decreases p
  {
    if p == 0 {
      NoneLeft(rows, Matching(f));
    } else {
      var hit, first := Matching(f), Bounded(rows, Matching(f), Requeued, chunk, 0);
      BoundedRows(rows, hit, Requeued, chunk);
      assert first.rows[k] == if Chosen(rows, hit, chunk, k) then Requeued(rows[k]) else rows[k];
      forall j | 0 <= j < |rows| ensures hit(first.rows[j]) == hit(rows[j]) {
        assert first.rows[j] == if Chosen(rows, hit, chunk, j) then Requeued(rows[j]) else rows[j];
      }
      HitsSame(first.rows, rows, hit, 0, k);
      HitsSame(first.rows, rows, hit, 0, |rows|);
      BumpedEveryPass(first.rows, f, chunk, p - 1, k);
    }
  }

  /**
  A retry bumps every delivery at most once exactly when its statuses leave out queued or fewer
  deliveries match than one chunk holds.
  */
  lemma RetryIsOnceIff(rows: Rows, f: Filter, chunk: nat)
    requires chunk > 0 && f.ids != Some({})
    ensures BumpedOnce(rows, Retry(rows, f, chunk, MAX_RETRY_CHUNKS, 0).rows) <==>
            Queued !in f.statuses || |WantedBefore(rows, f, |rows|)| < chunk
  {
    var hit := Matching(Effective(f));
    HitsAreWanted(rows, f, |rows|);
    if Queued !in f.statuses {
      RetryMovesEachOnce(rows, f, chunk, MAX_RETRY_CHUNKS, 0);
      OnceIfRowsAre(rows, Retry(rows, f, chunk, MAX_RETRY_CHUNKS, 0).rows, hit, MAX_RETRY_CHUNKS * chunk);
    } else if Total(rows, hit) < chunk {
      BoundedRows(rows, hit, Requeued, chunk);
      OnceIfRowsAre(rows, Bounded(rows, hit, Requeued, chunk, 0).rows, hit, chunk);
    } else {
      var k := FirstHit(rows, hit, 0);
      BumpedEveryPass(rows, f, chunk, MAX_RETRY_CHUNKS, k);
    }
  }

  lemma OnceIfRowsAre(rows: Rows, after: Rows, hit: Test, limit: nat)
    requires RowsAre(rows, after, hit, Requeued, limit)
    ensures BumpedOnce(rows, after)
  {
    forall k | 0 <= k < |rows| ensures after[k].retryGen <= rows[k].retryGen + 1 {
      assert after[k] == if Chosen(rows, hit, limit, k) then Requeued(rows[k]) else rows[k];
    }
  }

  // ----- the canceller -----------------------------------------------------------------------------------------------

  predicate Cancellable(d: Delivery) {
    d.status.Pending? || d.status.Queued? || d.status.Deferred?
  }

  function CancelledRow(d: Delivery): Delivery {
    d.(status := Cancelled)
  }

  /** The rows after k ticks of the canceller. */
  function Ticks(rows: Rows, chunk: nat, k: nat): Rows
    decreases k
  {
    if k == 0 then rows else Bounded(Ticks(rows, chunk, k - 1), Cancellable, CancelledRow, chunk, 0).rows
  }

  lemma {:induction false} TicksAreOne(rows: Rows, chunk: nat, k: nat)
    ensures RowsAre(rows, Ticks(rows, chunk, k), Cancellable, CancelledRow, k * chunk)
    decreases k
  {
    if k > 0 {
      TicksAreOne(rows, chunk, k - 1);
      var mid := Ticks(rows, chunk, k - 1);
      BoundedRows(mid, Cancellable, CancelledRow, chunk);
      assert k * chunk == (k - 1) * chunk + chunk;
      TwoPasses(rows, mid, Ticks(rows, chunk, k), Cancellable, CancelledRow, (k - 1) * chunk, chunk);
    }
  }

  lemma TickedRow(rows: Rows, chunk: nat, k: nat, j: nat)
    requires j < |rows|
    ensures |Ticks(rows, chunk, k)| == |rows|
    ensures Ticks(rows, chunk, k)[j] ==
            if Chosen(rows, Cancellable, k * chunk, j) then CancelledRow(rows[j]) else rows[j]
  {
    TicksAreOne(rows, chunk, k);
  }

  /** A row the canceller is about. */
  ghost predicate Waiting(d: Delivery) {
    d.status in {Pending, Queued, Deferred}
  }

  ghost function WaitingRows(rows: Rows, k: nat): set<nat>
    requires k <= |rows|
  {
    set j: nat | j < k && Waiting(rows[j])
  }

  lemma {:induction false} HitsAreWaiting(rows: Rows, k: nat)
    requires k <= |rows|
    ensures Hits(rows, Cancellable, 0, k) == |WaitingRows(rows, k)|
  {
    if k == 0 {
      assert WaitingRows(rows, 0) == {};
    } else {
      HitsAreWaiting(rows, k - 1);
      HitsSplit(rows, Cancellable, 0, k - 1, k);
      assert WaitingRows(rows, k) == WaitingRows(rows, k - 1) + if Waiting(rows[k - 1]) then {k - 1} else {};
    }
  }

  /**
  k ticks cancel exactly the first k * chunk of the pending, queued and deferred rows, all of them once
  k * chunk reaches their number, and change nothing else of them. No other row, a leased one neither,
  is ever touched.
  */
  lemma CancellingFinishes(rows: Rows, chunk: nat, k: nat, j: nat)
    requires j < |rows|
    ensures var after, n := Ticks(rows, chunk, k), |WaitingRows(rows, |rows|)|;
            && |after| == |rows| && |WaitingRows(after, |after|)| == (if n <= k * chunk then 0 else n - k * chunk)
            && (rows[j].status !in {Pending, Queued, Deferred} ==> after[j] == rows[j])
            && (rows[j].status in {Pending, Queued, Deferred} ==>
                  && after[j] == (if |WaitingRows(rows, j)| < k * chunk then rows[j].(status := Cancelled) else rows[j])
                  && (n <= k * chunk ==> after[j] == rows[j].(status := Cancelled)))
  {
    var after := Ticks(rows, chunk, k);
    TicksAreOne(rows, chunk, k);
    TickedRow(rows, chunk, k, j);
    HitsAfter(rows, after, Cancellable, CancelledRow, k * chunk, |rows|);
    HitsAreWaiting(rows, j);
    HitsAreWaiting(rows, |rows|);
    HitsAreWaiting(after, |rows|);
    if Waiting(rows[j]) {
      SetSize(WaitingRows(rows, j) + {j}, WaitingRows(rows, |rows|));
    }
  }
}
