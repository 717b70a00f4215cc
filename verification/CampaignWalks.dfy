/**
The paged walks over campaigns: eachCampaign (internal/control/loops.go), which pages a listing that
changes under it, and the finalizer's refreshTracking (internal/control/campaign_loops.go), which
covers the completed campaigns over several ticks with a bounded scan per tick.

A campaign is its ID. IDs are ordered, a listing is in ID order, and a cursor is the last ID of a
page; 0 stands for the empty cursor.
*/
module CampaignWalks {
  import opened Wrappers

  type ID = n: nat | n > 0 witness 1

  predicate Rises(ids: seq<ID>, i: int, j: int) {
    0 <= i < j < |ids| ==> ids[i] < ids[j]
  }

  ghost predicate Sorted(ids: seq<ID>) {
    forall i, j :: Rises(ids, i, j)
  }

  /** How many IDs are at or before the cursor. */
  function Behind(ids: seq<ID>, cursor: nat): nat {
    BehindFrom(ids, cursor, 0)
  }

  function BehindFrom(ids: seq<ID>, cursor: nat, i: nat): (n: nat)
    requires i <= |ids|
    ensures i <= n <= |ids| && (n < |ids| ==> ids[n] > cursor) && forall j | i <= j < n :: ids[j] <= cursor
    decreases |ids| - i
  {
    if i == |ids| || ids[i] > cursor then i else BehindFrom(ids, cursor, i + 1)
  }

  datatype Page = Page(items: seq<ID>, next: nat)

  /** ListByStatus: the first `limit` IDs after the cursor; next is 0 on the last page. */
  function List(ids: seq<ID>, cursor: nat, limit: nat): Page
    requires limit > 0
  {
    var start := Behind(ids, cursor);
    if start + limit < |ids| then Page(ids[start..start + limit], ids[start + limit - 1]) else Page(ids[start..], 0)
  }

  // ----- eachCampaign over a changing listing ------------------------------------------------------------------

  /** The campaigns visited by pages k to n - 1, when page k sees the listing snaps[k]. */
  function Visited(snaps: seq<seq<ID>>, limit: nat, cursor: nat, k: nat): seq<ID>
    requires limit > 0 && k <= |snaps|
    decreases |snaps| - k
  {
    if k == |snaps| then []
    else
      var p := List(snaps[k], cursor, limit);
      if p.next == 0 then p.items else p.items + Visited(snaps, limit, p.next, k + 1)
  }

  /** What is visited once `visited` has been and page k is next. */
  ghost predicate Ahead(snaps: seq<seq<ID>>, limit: nat, visited: seq<ID>, cursor: nat, k: nat, all: seq<ID>)
    requires limit > 0 && k <= |snaps|
  {
    visited + Visited(snaps, limit, cursor, k) == all
  }

  lemma AheadStep(snaps: seq<seq<ID>>, limit: nat, visited: seq<ID>, cursor: nat, k: nat, all: seq<ID>)
    requires limit > 0 && k < |snaps| && Ahead(snaps, limit, visited, cursor, k, all)
    ensures var p := List(snaps[k], cursor, limit);
            if p.next == 0 then visited + p.items == all else Ahead(snaps, limit, visited + p.items, p.next, k + 1, all)
  {
    var p := List(snaps[k], cursor, limit);
    if p.next != 0 {
      var rest := Visited(snaps, limit, p.next, k + 1);
      assert visited + (p.items + rest) == visited + p.items + rest;
    }
  }

  /**
  eachCampaign, stopping after the pages given at the latest. The walk fails at campaign number failAt,
  or when it lists the page that begins there.
  */
  method EachCampaign(snaps: seq<seq<ID>>, limit: nat, failAt: Option<nat>) returns (visited: seq<ID>, failed: bool)
    requires limit > 0
    ensures !failed ==> visited == Visited(snaps, limit, 0, 0)
    ensures failed ==> failAt.Some? && visited == Cut(Visited(snaps, limit, 0, 0), failAt.value)
    ensures !failed && failAt.Some? ==> |visited| <= failAt.value
  {
    visited, failed := [], false;
    var cursor: nat, k: nat := 0, 0;
    ghost var all := Visited(snaps, limit, 0, 0);
    assert Ahead(snaps, limit, [], 0, 0, all);
    while k < |snaps|
      invariant k <= |snaps| && Ahead(snaps, limit, visited, cursor, k, all) && !failed
      invariant failAt.Some? ==> |visited| <= failAt.value
    {
      AheadStep(snaps, limit, visited, cursor, k, all);
      if failAt == Some(|visited|) {
        CutAhead(visited, Visited(snaps, limit, cursor, k), failAt.value);
        return visited, true;
      }
      var res := List(snaps[k], cursor, limit);
      visited := visited + res.items;
      if failAt.Some? && failAt.value < |visited| {
        CutAhead(visited, if res.next == 0 then [] else Visited(snaps, limit, res.next, k + 1), failAt.value);
        assert res.next == 0 ==> visited + [] == all;
        return visited[..failAt.value], true;
      }
      if res.next == 0 {
        return;
      }
      cursor, k := res.next, k + 1;
    }
  }

  lemma CutAhead<T>(s: seq<T>, rest: seq<T>, m: nat)
    requires m <= |s|
    ensures Cut(s + rest, m) == s[..m] && s[..|s|] == s
  {
  }

  /** The walk from page k on gets to a last page. */
  ghost predicate Ends(snaps: seq<seq<ID>>, limit: nat, cursor: nat, k: nat)
    requires limit > 0 && k <= |snaps|
    decreases |snaps| - k
  {
    && k < |snaps|
    && var next := List(snaps[k], cursor, limit).next; next == 0 || Ends(snaps, limit, next, k + 1)
  }

  /** What a page is: exactly the listed IDs after the cursor, up to next. */
  lemma PageCovers(ids: seq<ID>, cursor: nat, limit: nat, x: ID)
    requires limit > 0 && Sorted(ids)
    ensures var p := List(ids, cursor, limit);
            x in p.items <==> x in ids && cursor < x && (p.next == 0 || x <= p.next)
  {
    var start, p := Behind(ids, cursor), List(ids, cursor, limit);
    PageAt(ids, cursor, limit);
    if x in ids && cursor < x && (p.next == 0 || x <= p.next) {
      var i :| 0 <= i < |ids| && ids[i] == x;
      assert Rises(ids, start + limit - 1, i);
      assert start <= i < start + |p.items|;
      assert p.items[i - start] == x;
    }
    if x in p.items {
      var j :| 0 <= j < |p.items| && p.items[j] == x;
      assert Rises(ids, start, start + j) && Rises(ids, start + j, start + limit - 1);
      assert x == ids[start + j];
    }
  }

  lemma PageSorted(ids: seq<ID>, cursor: nat, limit: nat)
    requires limit > 0 && Sorted(ids)
    ensures var p := List(ids, cursor, limit); Sorted(p.items) && (p.next != 0 ==> cursor < p.next)
  {
    var start := Behind(ids, cursor);
    var items := List(ids, cursor, limit).items;
    assert forall i | 0 <= i < |items| :: items[i] == ids[start + i];
    forall i, j ensures Rises(items, i, j) {
      assert Rises(ids, start + i, start + j);
    }
    if start + limit < |ids| {
      assert ids[start] > cursor && Rises(ids, start, start + limit - 1);
    }
  }

  lemma ConcatSorted(a: seq<ID>, b: seq<ID>, low: nat, mid: nat)
    requires Sorted(a) && Sorted(b) && low < mid
    requires (forall x | x in a :: low < x <= mid) && forall x | x in b :: mid < x
    ensures Sorted(a + b) && forall x | x in a + b :: low < x
  {
    forall i, j ensures Rises(a + b, i, j) {
      assert Rises(a, i, j) && Rises(b, i - |a|, j - |a|);
      if 0 <= i < |a| <= j < |a + b| {
        assert a[i] in a && b[j - |a|] in b;
      }
    }
  }

  /** Visited campaigns are past the cursor and strictly increasing: no campaign is visited twice. */
  lemma {:induction false} VisitedOnce(snaps: seq<seq<ID>>, limit: nat, cursor: nat, k: nat)
    requires limit > 0 && k <= |snaps| && forall i | 0 <= i < |snaps| :: Sorted(snaps[i])
    ensures Sorted(Visited(snaps, limit, cursor, k)) && forall x | x in Visited(snaps, limit, cursor, k) :: cursor < x
    decreases |snaps| - k
  {
    if k < |snaps| {
      var p := List(snaps[k], cursor, limit);
      PageSorted(snaps[k], cursor, limit);
      forall x: ID | x in p.items ensures cursor < x && (p.next == 0 || x <= p.next) {
        PageCovers(snaps[k], cursor, limit, x);
      }
      if p.next != 0 {
        VisitedOnce(snaps, limit, p.next, k + 1);
        ConcatSorted(p.items, Visited(snaps, limit, p.next, k + 1), cursor, p.next);
      }
    }
  }

  lemma {:induction false} StayersVisited(snaps: seq<seq<ID>>, limit: nat, cursor: nat, k: nat, x: ID)
    requires limit > 0 && k <= |snaps| && forall i | 0 <= i < |snaps| :: Sorted(snaps[i])
    requires Ends(snaps, limit, cursor, k) && cursor < x && forall i | k <= i < |snaps| :: x in snaps[i]
    ensures x in Visited(snaps, limit, cursor, k)
    decreases |snaps| - k
  {
    var p := List(snaps[k], cursor, limit);
    PageCovers(snaps[k], cursor, limit, x);
    if p.next != 0 && p.next < x {
      StayersVisited(snaps, limit, p.next, k + 1, x);
    }
  }

  /**
  Whatever statuses change between the pages of a walk, the callback's own changes included, a walk
  that ends visits every campaign that stays in the listing, and none twice.
  */
  lemma EachCampaignOnce(snaps: seq<seq<ID>>, limit: nat, x: ID)
    requires limit > 0 && (forall i | 0 <= i < |snaps| :: Sorted(snaps[i])) && Ends(snaps, limit, 0, 0)
    ensures var visited := Visited(snaps, limit, 0, 0);
            Sorted(visited) && ((forall i | 0 <= i < |snaps| :: x in snaps[i]) ==> x in visited)
  {
    VisitedOnce(snaps, limit, 0, 0);
    if forall i | 0 <= i < |snaps| :: x in snaps[i] {
      StayersVisited(snaps, limit, 0, 0, x);
    }
  }

  // ----- refreshTracking -------------------------------------------------------------------------------------------

  /** How far one tick gets from position pos: whole pages until `scan` campaigns or the end. */
  function TickEnd(n: nat, limit: nat, scan: nat, pos: nat, scanned: nat): nat
    requires limit > 0 && pos <= n
    decreases n - pos
  {
    if scanned >= scan then pos
    else if pos + limit < n then TickEnd(n, limit, scan, pos + limit, scanned + limit)
    else n
  }

  /** How a tick ends: it did its work, a read or a write failed, or its context was over. */
  datatype Exit = Finished | Failed | Ended

  class Finalizer {
    const limit: nat
    const scan: nat
    var refreshCursor: nat

    constructor (limit: nat, scan: nat, cursor: nat)
      ensures this.limit == limit && this.scan == scan && refreshCursor == cursor
    {
      this.limit, this.scan, refreshCursor := limit, scan, cursor;
    }

    /**
    refreshTracking: the campaigns it examines, and where it resumes. The tick fails at campaign number
    failAt of those it examines, or when it lists the page that begins there; the next starts over. Its
    context is over once endAt campaigns are examined, which the next page notices; the next tick then
    resumes where this one did.
    */
    method RefreshTracking(ids: seq<ID>, failAt: Option<nat>, endAt: Option<nat>)
      returns (examined: seq<ID>, exit: Exit)
      requires limit > 0 && Sorted(ids)
      modifies this
      ensures scan == 0 ==> examined == [] && exit == Finished && refreshCursor == old(refreshCursor)
      ensures scan > 0 && exit == Finished ==>
                Ticked(ids, limit, scan, old(refreshCursor), examined, refreshCursor)
      ensures exit == Failed ==>
                && failAt.Some?
                && Broke(ids, limit, scan, old(refreshCursor), failAt.value, examined)
                && refreshCursor == 0
      ensures exit == Ended ==>
                && endAt.Some? && endAt.value <= |examined|
                && Broke(ids, limit, scan, old(refreshCursor), |examined|, examined)
                && refreshCursor == old(refreshCursor)
      ensures scan > 0 && failAt.Some? && exit != Failed ==> |examined| <= failAt.value
      ensures scan > 0 && endAt.Some? ==> |examined| < endAt.value + limit
    {
      examined, exit := [], Finished;
      if scan == 0 {
        return;
      }
      var cursor: nat, failed := refreshCursor, false;
      TickEndBounds(|ids|, limit, scan, Behind(ids, cursor), 0);
      while |examined| < scan
        invariant exit == Finished && refreshCursor == old(refreshCursor)
        invariant failAt.Some? ==> |examined| <= failAt.value
        invariant endAt.Some? ==> |examined| < endAt.value + limit
        invariant MidTick(ids, limit, scan, old(refreshCursor), cursor, examined)
        decreases |ids| - |examined|
      {
        if endAt.Some? && endAt.value <= |examined| {
          exit := Ended;
          return;
        }
        examined, cursor, failed := ExaminePage(ids, cursor, examined, failAt, old(refreshCursor));
        if failed {
          refreshCursor, exit := 0, Failed;
          return;
        }
        if cursor == 0 {
          refreshCursor := 0;
          return;
        }
      }
      TickFull(ids, limit, scan, old(refreshCursor), cursor, examined);
      refreshCursor := cursor;
    }

    /** One turn of the loop: list a page and examine it, or fail at campaign number failAt of the tick. */
    method ExaminePage(ids: seq<ID>, cursor: nat, examined: seq<ID>, failAt: Option<nat>, ghost from: nat)
      returns (more: seq<ID>, next: nat, failed: bool)
      requires limit > 0 && Sorted(ids) && |examined| < scan && MidTick(ids, limit, scan, from, cursor, examined)
      requires failAt.Some? ==> |examined| <= failAt.value
      ensures failed ==> failAt.Some? && Broke(ids, limit, scan, from, failAt.value, more)
      ensures |more| <= |examined| + limit
      ensures !failed && failAt.Some? ==> |more| <= failAt.value
      ensures !failed && next == 0 ==> Ticked(ids, limit, scan, from, more, 0)
      ensures !failed && next != 0 ==> |examined| < |more| && MidTick(ids, limit, scan, from, next, more)
    {
      if failAt == Some(|examined|) {
        BrokeAt(ids, limit, scan, from, examined, |examined|);
        assert examined[..|examined|] == examined;
        return examined, 0, true;
      }
      var n;
      more, next, n := AppendPage(ids, cursor, examined, Behind(ids, from));
      TurnPage(ids, limit, scan, from, |examined|, n, next, more);
      failed := failAt.Some? && failAt.value < |more|;
      if failed {
        BrokeAt(ids, limit, scan, from, more, failAt.value);
        more := more[..failAt.value];
      }
    }

    /** One page of the loop, appended to what was examined before it. */
    method AppendPage(ids: seq<ID>, cursor: nat, examined: seq<ID>, ghost p: nat)
      returns (more: seq<ID>, next: nat, n: nat)
      requires limit > 0 && Sorted(ids) && p <= Behind(ids, cursor) && examined == ids[p..Behind(ids, cursor)]
      ensures var pos := Behind(ids, cursor);
              && n <= limit && pos + n <= |ids| && more == ids[p..pos + n]
              && (if next == 0 then pos + n == |ids| && pos + limit >= |ids|
                  else n == limit && pos + limit < |ids| && Behind(ids, next) == pos + limit)
    {
      var res := List(ids, cursor, limit);
      PageAt(ids, cursor, limit);
      ExtendSlice(ids, p, Behind(ids, cursor), |res.items|);
      return examined + res.items, res.next, |res.items|;
    }
  }

  /** A tick from one cursor to the next examines the campaigns from its position to where it ends. */
  ghost predicate Ticked(ids: seq<ID>, limit: nat, scan: nat, cursor: nat, examined: seq<ID>, next: nat)
    requires limit > 0
  {
    var p := Behind(ids, cursor);
    var q := TickEnd(|ids|, limit, scan, p, 0);
    && p <= q <= |ids| && examined == ids[p..q]
    && Behind(ids, next) == NextPos(|ids|, limit, scan, p)
  }

  /** A tick that began at one cursor, has examined whole pages up to another and may go on. */
  ghost predicate MidTick(ids: seq<ID>, limit: nat, scan: nat, from: nat, cursor: nat, examined: seq<ID>)
    requires limit > 0
  {
    var p, scanned := Behind(ids, from), |examined|;
    && p + scanned <= |ids| && p + scanned == Behind(ids, cursor) && examined == ids[p..p + scanned]
    && (scanned > 0 ==> cursor != 0 && p + scanned < |ids|)
    && p + scanned <= TickEnd(|ids|, limit, scan, p, 0) <= |ids|
    && TickEnd(|ids|, limit, scan, p + scanned, scanned) == TickEnd(|ids|, limit, scan, p, 0)
  }

  /** One more page of such a tick: it goes on from the page's cursor, or the page was the last. */
  lemma TurnPage(ids: seq<ID>, limit: nat, scan: nat, from: nat, scanned: nat, n: nat, next: nat, more: seq<ID>)
    requires limit > 0 && scanned < scan
    requires var p := Behind(ids, from);
             && p + scanned + n <= |ids| && more == ids[p..p + scanned + n]
             && TickEnd(|ids|, limit, scan, p + scanned, scanned) == TickEnd(|ids|, limit, scan, p, 0)
             && if next == 0 then p + scanned + n == |ids| && p + scanned + limit >= |ids|
                else n == limit && p + scanned + limit < |ids| && Behind(ids, next) == p + scanned + limit
    ensures Behind(ids, from) + scanned + n <= TickEnd(|ids|, limit, scan, Behind(ids, from), 0) <= |ids|
    ensures if next == 0 then Ticked(ids, limit, scan, from, more, 0) else MidTick(ids, limit, scan, from, next, more)
  {
    if next != 0 {
      TickEndBounds(|ids|, limit, scan, Behind(ids, from) + scanned + limit, scanned + limit);
    }
  }

  /** A tick that has scanned its bound. */
  lemma TickFull(ids: seq<ID>, limit: nat, scan: nat, from: nat, cursor: nat, examined: seq<ID>)
    requires limit > 0 && 0 < scan <= |examined| && MidTick(ids, limit, scan, from, cursor, examined)
    ensures Ticked(ids, limit, scan, from, examined, cursor)
  {
  }

  /** A tick that stops short at campaign number m has examined those before it, from where it began. */
  ghost predicate Broke(ids: seq<ID>, limit: nat, scan: nat, cursor: nat, m: nat, examined: seq<ID>)
    requires limit > 0
  {
    var p := Behind(ids, cursor);
    p + m <= TickEnd(|ids|, limit, scan, p, 0) <= |ids| && examined == ids[p..p + m]
  }

  lemma BrokeAt(ids: seq<ID>, limit: nat, scan: nat, from: nat, examined: seq<ID>, m: nat)
    requires limit > 0 && m <= |examined|
    requires var p := Behind(ids, from);
             && p + |examined| <= TickEnd(|ids|, limit, scan, p, 0) <= |ids|
             && examined == ids[p..p + |examined|]
    ensures Broke(ids, limit, scan, from, m, examined[..m])
  {
  }

  /** A page by position: where it starts, how long it is, and where its cursor leads. */
  lemma PageAt(ids: seq<ID>, cursor: nat, limit: nat)
    requires limit > 0 && Sorted(ids)
    ensures var p, start := List(ids, cursor, limit), Behind(ids, cursor);
            && p.items == ids[start..start + |p.items|]
            && (if p.next == 0 then start + |p.items| == |ids| && start + limit >= |ids|
                else |p.items| == limit && start + limit < |ids| && Behind(ids, p.next) == start + limit)
  {
    var start := Behind(ids, cursor);
    if start + limit < |ids| {
      BehindOwn(ids, start + limit - 1);
    }
  }

  lemma ExtendSlice(ids: seq<ID>, p: nat, q: nat, n: nat)
    requires p <= q && q + n <= |ids|
    ensures ids[p..q] + ids[q..q + n] == ids[p..q + n]
  {
  }

  /** A cursor that is an ID of the listing has exactly the IDs up to it behind it. */
  lemma BehindOwn(ids: seq<ID>, k: nat)
    requires Sorted(ids) && k < |ids|
    ensures Behind(ids, ids[k]) == k + 1
  {
    var n := Behind(ids, ids[k]);
    assert Rises(ids, n, k) && Rises(ids, k, k + 1);
  }

  lemma {:induction false} TickEndBounds(n: nat, limit: nat, scan: nat, pos: nat, scanned: nat)
    requires limit > 0 && pos <= n
    ensures var q := TickEnd(n, limit, scan, pos, scanned); pos <= q <= n && (q == n || q + scanned >= pos + scan)
    decreases n - pos
  {
    if scanned < scan && pos + limit < n {
      TickEndBounds(n, limit, scan, pos + limit, scanned + limit);
    }
  }

  /** The position the next tick starts at: the end wraps to the beginning. */
  function NextPos(n: nat, limit: nat, scan: nat, pos: nat): (q: nat)
    requires limit > 0 && pos <= n
    ensures q <= n
  {
    TickEndBounds(n, limit, scan, pos, 0);
    var end := TickEnd(n, limit, scan, pos, 0);
    if end == n then 0 else end
  }

  /** Whether one of the next `ticks` ticks from position pos examines campaign number x. */
  ghost predicate Examined(n: nat, limit: nat, scan: nat, pos: nat, ticks: nat, x: nat)
    requires limit > 0 && pos <= n
    decreases ticks
  {
    && ticks > 0
    && (|| pos <= x < TickEnd(n, limit, scan, pos, 0)
        || Examined(n, limit, scan, NextPos(n, limit, scan, pos), ticks - 1, x))
  }

  /** A campaign at or after the position is examined within ceil((x + 1 - pos) / scan) ticks. */
  lemma {:induction false} ExaminedAhead(n: nat, limit: nat, scan: nat, pos: nat, ticks: nat, x: nat)
    requires limit > 0 && scan > 0 && pos <= x < n && x < pos + ticks * scan
    ensures Examined(n, limit, scan, pos, ticks, x)
    decreases ticks
  {
    TickEndBounds(n, limit, scan, pos, 0);
    var end := TickEnd(n, limit, scan, pos, 0);
    if end <= x {
      assert ticks * scan == scan + (ticks - 1) * scan;
      ExaminedAhead(n, limit, scan, end, ticks - 1, x);
    }
  }

  /** A campaign behind the position is examined once the ticks to the end have wrapped around. */
  lemma {:induction false} ExaminedBehind(n: nat, limit: nat, scan: nat, pos: nat, out: nat, back: nat, x: nat)
    requires limit > 0 && scan > 0 && x < pos <= n <= pos + out * scan && x < back * scan && out > 0
    ensures Examined(n, limit, scan, pos, out + back, x)
    decreases out
  {
    TickEndBounds(n, limit, scan, pos, 0);
    var end := TickEnd(n, limit, scan, pos, 0);
    if end == n {
      ExaminedAhead(n, limit, scan, 0, back, x);
      ExaminedLonger(n, limit, scan, 0, back, out - 1 + back, x);
    } else {
      assert out * scan == scan + (out - 1) * scan;
      ExaminedBehind(n, limit, scan, end, out - 1, back, x);
    }
  }

  lemma {:induction false} ExaminedLonger(n: nat, limit: nat, scan: nat, pos: nat, ticks: nat, more: nat, x: nat)
    requires limit > 0 && pos <= n && ticks <= more && Examined(n, limit, scan, pos, ticks, x)
    ensures Examined(n, limit, scan, pos, more, x)
    decreases ticks
  {
    if !(pos <= x < TickEnd(n, limit, scan, pos, 0)) {
      ExaminedLonger(n, limit, scan, NextPos(n, limit, scan, pos), ticks - 1, more - 1, x);
    }
  }

  /** The ticks it takes to scan a positions. */
  function CeilDiv(a: nat, scan: nat): (q: nat)
    requires scan > 0
    ensures a <= q * scan < a + scan
  {
    if a == 0 then 0 else if a <= scan then 1
    else
      var q := CeilDiv(a - scan, scan);
      assert (q + 1) * scan == q * scan + scan;
      q + 1
  }

  lemma Positive(a: int, b: nat)
    requires a * b > 0
    ensures a > 0
  {
    assert a <= 0 ==> a * b <= 0;
  }

  /**
  By position: over n campaigns, rounds + 1 ticks, where rounds * scan >= n, examine each of them, for
  every page size and whatever position the walk is at.
  */
  lemma EveryCampaignRefreshed(n: nat, limit: nat, scan: nat, pos: nat, rounds: nat, x: nat)
    requires limit > 0 && scan > 0 && pos <= n <= rounds * scan && x < n
    ensures Examined(n, limit, scan, pos, rounds + 1, x)
  {
    assert (rounds + 1) * scan == rounds * scan + scan;
    if x < pos {
      var back := CeilDiv(pos, scan);
      var out := rounds + 1 - back;
      assert out * scan == (rounds + 1) * scan - back * scan > 0;
      Positive(out, scan);
      ExaminedBehind(n, limit, scan, pos, out, back, x);
    } else {
      ExaminedAhead(n, limit, scan, pos, rounds + 1, x);
    }
  }

  /** Consecutive ticks over the same listing, each from the cursor the one before it left. */
  ghost predicate Ticks(ids: seq<ID>, limit: nat, scan: nat, cursors: seq<nat>, ticks: seq<seq<ID>>)
    requires limit > 0
  {
    && |cursors| == |ticks| + 1
    && forall i | 0 <= i < |ticks| :: Ticked(ids, limit, scan, cursors[i], ticks[i], cursors[i + 1])
  }

  /** A position that is examined is examined by one of the ticks. */
  lemma {:induction false} ExaminedBy(ids: seq<ID>, limit: nat, scan: nat, cursors: seq<nat>, ticks: seq<seq<ID>>,
                                      i: nat, k: nat) returns (j: nat)
    requires limit > 0 && Ticks(ids, limit, scan, cursors, ticks) && i <= |ticks| && k < |ids|
    requires Examined(|ids|, limit, scan, Behind(ids, cursors[i]), |ticks| - i, k)
    ensures i <= j < |ticks| && ids[k] in ticks[j]
    decreases |ticks| - i
  {
    var p := Behind(ids, cursors[i]);
    assert Ticked(ids, limit, scan, cursors[i], ticks[i], cursors[i + 1]);
    if p <= k < TickEnd(|ids|, limit, scan, p, 0) {
      j := i;
      assert ticks[i][k - p] == ids[k];
    } else {
      j := ExaminedBy(ids, limit, scan, cursors, ticks, i + 1, k);
    }
  }

  /**
  Over a fixed set of completed campaigns, any ceil(n / scan) + 1 consecutive error-free ticks examine
  every campaign, for every page size and whatever cursor the first of them starts from.
  */
  lemma EveryCampaignExamined(ids: seq<ID>, limit: nat, scan: nat, cursors: seq<nat>, ticks: seq<seq<ID>>,
                              rounds: nat, x: ID)
    requires limit > 0 && scan > 0 && Ticks(ids, limit, scan, cursors, ticks)
    requires |ids| <= rounds * scan && |ticks| == rounds + 1 && x in ids
    ensures exists j :: 0 <= j < |ticks| && x in ticks[j]
  {
    var k :| 0 <= k < |ids| && ids[k] == x;
    EveryCampaignRefreshed(|ids|, limit, scan, Behind(ids, cursors[0]), rounds, k);
    var j := ExaminedBy(ids, limit, scan, cursors, ticks, 0, k);
  }

  lemma {:induction false} TickStopsAtBound(n: nat, scan: nat, pos: nat, scanned: nat)
    requires scanned <= scan && pos + (scan - scanned) < n
    ensures TickEnd(n, 1, scan, pos, scanned) == pos + (scan - scanned)
    decreases scan - scanned
  {
    if scanned < scan {
      TickStopsAtBound(n, scan, pos + 1, scanned + 1);
    }
  }

  /** With k bounds less one position to go, k ticks just get to the end: the first campaign has to wait. */
  lemma {:induction false} FirstWaits(n: nat, scan: nat, pos: nat, k: nat)
    requires scan >= 2 && pos >= 1 && k >= 1 && n == pos + k * scan - 1
    ensures !Examined(n, 1, scan, pos, k, 0)
    decreases k
  {
    TickEndBounds(n, 1, scan, pos, 0);
    if k > 1 {
      assert k * scan == scan + (k - 1) * scan && (k - 1) * scan >= scan by {
        OneBoundLess(k, scan);
      }
      TickStopsAtBound(n, scan, pos, 0);
      FirstWaits(n, scan, pos + scan, k - 1);
    }
  }

  lemma OneBoundLess(k: nat, scan: nat)
    requires k > 1
    ensures k * scan == scan + (k - 1) * scan && (k - 1) * scan >= scan
  {
  }

  /** The bound is tight: rounds ticks alone may leave a campaign out, for every number of rounds. */
  lemma BoundIsTight(rounds: nat, scan: nat)
    requires rounds >= 1 && scan >= 2
    ensures 1 <= rounds * scan && !Examined(rounds * scan, 1, scan, 1, rounds, 0)
  {
    assert rounds * scan == scan + (rounds - 1) * scan;
    FirstWaits(rounds * scan, scan, 1, rounds);
  }
}
