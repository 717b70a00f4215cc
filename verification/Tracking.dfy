/**
The tracking buffer of internal/control/tracking.go: events are appended to a bounded buffer and
written in batches, one insert per tenant, after which the first-interaction columns of the
deliveries are derived.

`TrackingBuffer` is the buffer as the source writes it. `Next` interleaves Record calls with the
steps of the flusher, which writes the tenants of a batch in any order and may fail on any of them.
*/
module TrackingBuffering {
  import opened Wrappers

  datatype Kind = Open | Click | UnsubscribeClicked | Unsubscribed

  datatype Event = Event(tenant: string, kind: Kind, delivery: string, at: int, bot: bool) {
    /** Whether the event counts towards a first-interaction column. */
    predicate Counts() {
      !bot && delivery != "" && !kind.UnsubscribeClicked?
    }
  }

  datatype Column = Column(kind: Kind, delivery: string)

  /** The first-interaction columns of one tenant that are set. */
  type Columns = map<Column, int>

  // ----- deriving the columns ---------------------------------------------------------------------------

  /** SetFirstOpened and its siblings: only an empty column of an existing delivery is written. */
  function SetFirst(exist: string -> bool, cols: Columns, k: Column, at: int): Columns {
    if k in cols || !exist(k.delivery) then cols else cols[k := at]
  }

  /** deriveFirsts from event i on, with the columns this batch has already decided. */
  function DeriveFrom(exist: string -> bool, cols: Columns, seen: set<Column>, events: seq<Event>, i: nat): Columns
    requires i <= |events|
    decreases |events| - i
  {
    if i == |events| then cols
    else
      var k := Column(events[i].kind, events[i].delivery);
      if !events[i].Counts() || k in seen then DeriveFrom(exist, cols, seen, events, i + 1)
      else DeriveFrom(exist, SetFirst(exist, cols, k, events[i].at), seen + {k}, events, i + 1)
  }

  function Derive(exist: string -> bool, cols: Columns, events: seq<Event>): Columns {
    DeriveFrom(exist, cols, {}, events, 0)
  }

  /** The time of the first event that counts for a column, from event i on. */
  function FirstFrom(events: seq<Event>, k: Column, i: nat): Option<int>
    requires i <= |events|
    decreases |events| - i
  {
    if i == |events| then None
    else if events[i].Counts() && Column(events[i].kind, events[i].delivery) == k then Some(events[i].at)
    else FirstFrom(events, k, i + 1)
  }

  function First(events: seq<Event>, k: Column): Option<int> {
    FirstFrom(events, k, 0)
  }

  function Value(cols: Columns, k: Column): Option<int> {
    if k in cols then Some(cols[k]) else None
  }

  function OrElse(a: Option<int>, b: Option<int>): Option<int> {
    if a.Some? then a else b
  }

  /** The columns after events, told column by column from the events alone. */
  ghost predicate AreFirsts(exist: string -> bool, cols: Columns, events: seq<Event>) {
    forall k :: Value(cols, k) == if exist(k.delivery) then First(events, k) else None
  }

  lemma {:induction false} DerivesFirsts(exist: string -> bool, cols: Columns, seen: set<Column>, events: seq<Event>,
                                         i: nat, k: Column)
    requires i <= |events| && (k in seen && exist(k.delivery) ==> k in cols)
    ensures Value(DeriveFrom(exist, cols, seen, events, i), k) ==
            if exist(k.delivery) then OrElse(Value(cols, k), FirstFrom(events, k, i)) else Value(cols, k)
    decreases |events| - i
  {
    if i < |events| {
      var c := Column(events[i].kind, events[i].delivery);
      if !events[i].Counts() || c in seen {
        DerivesFirsts(exist, cols, seen, events, i + 1, k);
      } else {
        DerivesFirsts(exist, SetFirst(exist, cols, c, events[i].at), seen + {c}, events, i + 1, k);
      }
    }
  }

  lemma {:induction false} FirstConcat(a: seq<Event>, b: seq<Event>, k: Column, i: nat)
    requires i <= |a|
    ensures FirstFrom(a + b, k, i) == OrElse(FirstFrom(a, k, i), First(b, k))
    decreases |a| - i
  {
    if i < |a| {
      FirstConcat(a, b, k, i + 1);
    } else {
      FirstShift(a, b, k, 0);
    }
  }

  lemma {:induction false} FirstShift(a: seq<Event>, b: seq<Event>, k: Column, j: nat)
    requires j <= |b|
    ensures FirstFrom(a + b, k, |a| + j) == FirstFrom(b, k, j)
    decreases |b| - j
  {
    if j < |b| {
      FirstShift(a, b, k, j + 1);
    }
  }

  /** Deriving from a further batch extends firsts of the earlier events to firsts of all. */
  lemma DeriveExtends(exist: string -> bool, cols: Columns, earlier: seq<Event>, batch: seq<Event>)
    requires AreFirsts(exist, cols, earlier)
    ensures AreFirsts(exist, Derive(exist, cols, batch), earlier + batch)
  {
    forall k
      ensures Value(Derive(exist, cols, batch), k) == if exist(k.delivery) then First(earlier + batch, k) else None
    {
      DerivesFirsts(exist, cols, {}, batch, 0, k);
      FirstConcat(earlier, batch, k, 0);
    }
  }

  // ----- grouping -----------------------------------------------------------------------------------------

  function Of(events: seq<Event>, tenant: string): seq<Event> {
    if events == [] then []
    else
      var last := events[|events| - 1];
      Of(events[..|events| - 1], tenant) + if last.tenant == tenant then [last] else []
  }

  function Without(events: seq<Event>, tenant: string): seq<Event> {
    if events == [] then []
    else
      var last := events[|events| - 1];
      Without(events[..|events| - 1], tenant) + if last.tenant == tenant then [] else [last]
  }

  lemma {:induction false} WithoutOthers(events: seq<Event>, tenant: string, other: string)
    ensures |Of(events, tenant)| + |Without(events, tenant)| == |events|
    ensures Of(Without(events, tenant), other) == if other == tenant then [] else Of(events, other)
  {
    if events != [] {
      var init, last := events[..|events| - 1], events[|events| - 1];
      WithoutOthers(init, tenant, other);
      if last.tenant != tenant {
        assert (Without(init, tenant) + [last])[..|Without(init, tenant)|] == Without(init, tenant);
      } else {
        assert Without(init, tenant) + [] == Without(init, tenant);
      }
    }
  }

  // ----- the buffer as the source writes it ------------------------------------------------------------------

  function ColumnsOf(columns: map<string, Columns>, tenant: string): Columns {
    if tenant in columns then columns[tenant] else map[]
  }

  class TrackingBuffer {
    const maxBuffer: nat
    const exist: string -> bool
    var buf: seq<Event>
    var closed: bool
    var flushed: nat
    var failed: nat
    var dropped: nat
    var columns: map<string, Columns>

    constructor (maxBuffer: nat, exist: string -> bool)
      ensures this.maxBuffer == maxBuffer && this.exist == exist && buf == [] && !closed
      ensures flushed == failed == dropped == 0 && columns == map[]
    {
      this.maxBuffer, this.exist := maxBuffer, exist;
      buf, closed, flushed, failed, dropped, columns := [], false, 0, 0, 0, map[];
    }

    method Record(ev: Event)
      requires maxBuffer > 0
      modifies this`buf, this`dropped
      ensures (buf, dropped) == Recorded(maxBuffer, old(buf), closed, old(dropped), ev)
    {
      if closed {
        dropped := dropped + 1;
        return;
      }
      var over := |buf| - maxBuffer + 1;
      if over > 0 {
        buf := buf[over..];
        dropped := dropped + over;
      }
      buf := buf + [ev];
    }

    /** flush: the insert of a tenant's events fails for the tenants in `down`. */
    method Flush(down: set<string>)
      modifies this`buf, this`flushed, this`failed, this`columns
      ensures buf == []
      ensures flushed + failed == old(flushed + failed) + |old(buf)|
      ensures down == {} ==> failed == old(failed)
      ensures Derived(exist, old(columns), columns, old(buf), down)
    {
      var batch := buf;
      buf := [];
      var byTenant := GroupByTenant(batch);
      var left := byTenant.Keys;
      ghost var rest := batch;
      while left != {}
        invariant buf == []
        invariant Remaining(rest, batch, left) && left <= byTenant.Keys
        invariant Derived(exist, old(columns), columns, batch, down + left)
        invariant flushed + failed + |rest| == old(flushed + failed) + |batch|
        invariant down == {} ==> failed == old(failed)
        decreases left
      {
        var t :| t in left;
        ghost var before := columns;
        WriteTenant(t, byTenant[t], t in down);
        DerivedStep(exist, old(columns), before, columns, batch, down, left, t);
        RemainingStep(rest, batch, left, t);
        rest := Without(rest, t);
        left := left - {t};
      }
      LastTenant(rest);
      assert down + left == down;
    }

    /** One tenant of a batch: insert, count, derive. */
    method WriteTenant(t: string, events: seq<Event>, fails: bool)
      modifies this`flushed, this`failed, this`columns
      ensures flushed == old(flushed) + if fails then 0 else |events|
      ensures failed == old(failed) + if fails then |events| else 0
      ensures Wrote(exist, old(columns), columns, t, events, fails)
    {
      if fails {
        failed := failed + |events|;
        return;
      }
      flushed := flushed + |events|;
      var cols := DeriveFirsts(ColumnsOf(columns, t), events);
      columns := columns[t := cols];
    }

    method GroupByTenant(batch: seq<Event>) returns (byTenant: map<string, seq<Event>>)
      ensures forall t :: (t in byTenant <==> Of(batch, t) != []) && (t in byTenant ==> byTenant[t] == Of(batch, t))
    {
      byTenant := map[];
      for i := 0 to |batch|
        invariant forall t :: t in byTenant <==> Of(batch[..i], t) != []
        invariant forall t | t in byTenant :: byTenant[t] == Of(batch[..i], t)
      {
        assert batch[..i + 1][..i] == batch[..i];
        var t := batch[i].tenant;
        byTenant := byTenant[t := (if t in byTenant then byTenant[t] else []) + [batch[i]]];
      }
      assert batch[..|batch|] == batch;
    }

    method DeriveFirsts(cols: Columns, events: seq<Event>) returns (r: Columns)
      ensures r == Derive(exist, cols, events)
    {
      r := cols;
      var seen: set<Column> := {};
      for i := 0 to |events|
        invariant DeriveFrom(exist, r, seen, events, i) == Derive(exist, cols, events)
      {
        var k := Column(events[i].kind, events[i].delivery);
        if !events[i].Counts() || k in seen {
          continue;
        }
        seen := seen + {k};
        r := SetFirst(exist, r, k, events[i].at);
      }
    }
  }

  /** Every tenant's columns are derived from its events of the batch, but for the skipped tenants. */
  ghost predicate Derived(exist: string -> bool, before: map<string, Columns>, after: map<string, Columns>,
                          batch: seq<Event>, skipped: set<string>) {
    forall t :: ColumnsOf(after, t) ==
      if t in skipped then ColumnsOf(before, t) else Derive(exist, ColumnsOf(before, t), Of(batch, t))
  }

  lemma LastTenant(events: seq<Event>)
    ensures events != [] ==> Of(events, events[|events| - 1].tenant) != []
  {
  }

  ghost predicate Wrote(exist: string -> bool, before: map<string, Columns>, after: map<string, Columns>,
                        t: string, events: seq<Event>, fails: bool) {
    forall u :: ColumnsOf(after, u) ==
      if u == t && !fails then Derive(exist, ColumnsOf(before, t), events) else ColumnsOf(before, u)
  }

  lemma DerivedStep(exist: string -> bool, first: map<string, Columns>, before: map<string, Columns>,
                    after: map<string, Columns>, batch: seq<Event>, down: set<string>, left: set<string>, t: string)
    requires Derived(exist, first, before, batch, down + left) && t in left
    requires Wrote(exist, before, after, t, Of(batch, t), t in down)
    ensures Derived(exist, first, after, batch, down + (left - {t}))
  {
  }

  /** The events of a batch still to be written are those of the tenants left. */
  ghost predicate Remaining(rest: seq<Event>, batch: seq<Event>, left: set<string>) {
    forall t :: Of(rest, t) == if t in left then Of(batch, t) else []
  }

  lemma RemainingStep(rest: seq<Event>, batch: seq<Event>, left: set<string>, t: string)
    requires Remaining(rest, batch, left) && t in left
    ensures Remaining(Without(rest, t), batch, left - {t}) && |Of(batch, t)| + |Without(rest, t)| == |rest|
  {
    WithoutOthers(rest, t, t);
    forall u ensures Of(Without(rest, t), u) == if u in left - {t} then Of(batch, u) else [] {
      WithoutOthers(rest, t, u);
    }
  }

  /** What Record does to the buffer and the count of dropped events: the oldest go first. */
  function Recorded(maxBuffer: nat, buf: seq<Event>, closed: bool, dropped: nat, ev: Event): (seq<Event>, nat)
    requires maxBuffer > 0
  {
    if closed then (buf, dropped + 1)
    else if |buf| < maxBuffer then (buf + [ev], dropped)
    else (buf[|buf| - maxBuffer + 1..] + [ev], dropped + (|buf| - maxBuffer + 1))
  }

  // ----- every interleaving -----------------------------------------------------------------------------------

  /**
  The buffer with the batch being written. `log` and `written` are history: every event passed to
  Record, and the events of each tenant whose insert succeeded, in order.
  */
  datatype World = World(buf: seq<Event>, closed: bool, inflight: seq<Event>, flushed: nat, failed: nat, dropped: nat,
                         columns: map<string, Columns>, log: seq<Event>, written: map<string, seq<Event>>)

  /** Swap starts a flush; one flusher writes a batch, tenant by tenant, before it takes the next. */
  datatype Step = Record(ev: Event) | Swap | Write(tenant: string, fails: bool) | Close

  datatype Setup = Setup(maxBuffer: nat, exist: string -> bool)

  function EventsOf(written: map<string, seq<Event>>, tenant: string): seq<Event> {
    if tenant in written then written[tenant] else []
  }

  ghost predicate Next(s: Setup, w: World, w': World, step: Step)
    requires s.maxBuffer > 0
  {
    match step
    case Record(ev) =>
      var (buf, dropped) := Recorded(s.maxBuffer, w.buf, w.closed, w.dropped, ev);
      w' == w.(buf := buf, dropped := dropped, log := w.log + [ev])
    case Swap => w.inflight == [] && w' == w.(buf := [], inflight := w.buf)
    case Write(t, fails) =>
      var events := Of(w.inflight, t);
      && events != []
      && w' == if fails then w.(inflight := Without(w.inflight, t), failed := w.failed + |events|)
               else w.(inflight := Without(w.inflight, t), flushed := w.flushed + |events|,
                       columns := w.columns[t := Derive(s.exist, ColumnsOf(w.columns, t), events)],
                       written := w.written[t := EventsOf(w.written, t) + events])
    case Close => w' == w.(closed := true)
  }

  ghost predicate Run(s: Setup, tr: seq<World>, steps: seq<Step>)
    requires s.maxBuffer > 0
  {
    && |tr| == |steps| + 1
    && tr[0] == World([], false, [], 0, 0, 0, map[], [], map[])
    && forall i | 0 <= i < |steps| :: Next(s, tr[i], tr[i + 1], steps[i])
  }

  ghost predicate Conserved(s: Setup, w: World) {
    |w.log| == |w.buf| + |w.inflight| + w.flushed + w.failed + w.dropped && |w.buf| <= s.maxBuffer
  }

  lemma ConservedStep(s: Setup, w: World, w': World, step: Step)
    requires s.maxBuffer > 0 && Conserved(s, w) && Next(s, w, w', step)
    ensures Conserved(s, w')
  {
    if step.Write? {
      WithoutOthers(w.inflight, step.tenant, step.tenant);
    }
  }

  /**
  In every run, whatever fails or is dropped, each recorded event is buffered, in flight, flushed,
  failed or dropped, and the buffer never exceeds its bound.
  */
  lemma {:induction false} EventsAreConserved(s: Setup, tr: seq<World>, steps: seq<Step>, i: nat)
    requires s.maxBuffer > 0 && Run(s, tr, steps) && i < |tr|
    ensures Conserved(s, tr[i])
  {
    if i > 0 {
      EventsAreConserved(s, tr, steps, i - 1);
      ConservedStep(s, tr[i - 1], tr[i], steps[i - 1]);
    }
  }

  /** The last of b are a. */
  ghost predicate IsEnd(a: seq<Event>, b: seq<Event>) {
    |a| <= |b| && b[|b| - |a|..] == a
  }

  lemma NewestKept(s: Setup, w: World, w': World, step: Step)
    requires s.maxBuffer > 0 && (w.closed || IsEnd(w.buf, w.log)) && Next(s, w, w', step)
    ensures w'.closed || IsEnd(w'.buf, w'.log)
  {
    if step.Record? && !w.closed {
      assert w'.log[|w'.log| - |w'.buf|..] == w'.buf;
    }
  }

  /** What is buffered is always the newest that was recorded: when the buffer is full the oldest go. */
  lemma {:induction false} OldestAreDropped(s: Setup, tr: seq<World>, steps: seq<Step>, i: nat)
    requires s.maxBuffer > 0 && Run(s, tr, steps) && i < |tr|
    ensures tr[i].closed || IsEnd(tr[i].buf, tr[i].log)
  {
    if i > 0 {
      OldestAreDropped(s, tr, steps, i - 1);
      NewestKept(s, tr[i - 1], tr[i], steps[i - 1]);
    }
  }

  ghost predicate InOrder(s: Setup, w: World, t: string) {
    && AreFirsts(s.exist, ColumnsOf(w.columns, t), EventsOf(w.written, t))
    && Ordered(w, t)
  }

  lemma OfSnoc(events: seq<Event>, ev: Event, t: string)
    ensures Of(events + [ev], t) == Of(events, t) + if ev.tenant == t then [ev] else []
  {
    assert (events + [ev])[..|events|] == events;
  }

  /** With no loss so far, a tenant's events are those written, then those in flight, then those buffered. */
  ghost predicate Ordered(w: World, t: string) {
    w.dropped + w.failed == 0 ==> Of(w.log, t) == EventsOf(w.written, t) + Of(w.inflight, t) + Of(w.buf, t)
  }

  lemma RecordOrdered(s: Setup, w: World, w': World, step: Step, t: string)
    requires s.maxBuffer > 0 && step.Record? && Ordered(w, t) && Next(s, w, w', step)
    ensures Ordered(w', t)
  {
    OfSnoc(w.log, step.ev, t);
    OfSnoc(w.buf, step.ev, t);
  }

  lemma Regroup(done: seq<Event>, now: seq<Event>, buf: seq<Event>)
    ensures done + now + buf == (done + now) + [] + buf
  {
  }

  /** What a successful write of tenant t makes of the parts Ordered is about. */
  lemma WriteParts(s: Setup, w: World, w': World, step: Step)
    requires s.maxBuffer > 0 && step.Write? && !step.fails && Next(s, w, w', step)
    ensures EventsOf(w'.written, step.tenant) == EventsOf(w.written, step.tenant) + Of(w.inflight, step.tenant)
    ensures w'.log == w.log && w'.buf == w.buf && w'.inflight == Without(w.inflight, step.tenant)
    ensures w'.dropped == w.dropped && w'.failed == w.failed
  {
  }

  /** The tenant written: its events move from in flight to written. */
  lemma OwnWriteOrdered(s: Setup, w: World, w': World, step: Step)
    requires s.maxBuffer > 0 && step.Write? && !step.fails && Ordered(w, step.tenant) && Next(s, w, w', step)
    ensures Ordered(w', step.tenant)
  {
    var t := step.tenant;
    WriteParts(s, w, w', step);
    WithoutOthers(w.inflight, t, t);
    Regroup(EventsOf(w.written, t), Of(w.inflight, t), Of(w.buf, t));
  }

  lemma WriteOrdered(s: Setup, w: World, w': World, step: Step, t: string)
    requires s.maxBuffer > 0 && step.Write? && Ordered(w, t) && Next(s, w, w', step)
    ensures Ordered(w', t)
  {
    if step.fails {
      assert w'.failed > 0;
    } else if step.tenant == t {
      OwnWriteOrdered(s, w, w', step);
    } else {
      WithoutOthers(w.inflight, step.tenant, t);
    }
  }

  lemma OrderedStep(s: Setup, w: World, w': World, step: Step, t: string)
    requires s.maxBuffer > 0 && Ordered(w, t) && Next(s, w, w', step)
    ensures Ordered(w', t)
  {
    match step
    case Record(_) => RecordOrdered(s, w, w', step, t);
    case Write(_, _) => WriteOrdered(s, w, w', step, t);
    case Swap => assert EventsOf(w.written, t) + [] + Of(w.buf, t) == EventsOf(w.written, t) + Of(w.buf, t) + [];
    case Close =>
  }

  lemma InOrderStep(s: Setup, w: World, w': World, step: Step, t: string)
    requires s.maxBuffer > 0 && InOrder(s, w, t) && Next(s, w, w', step)
    ensures InOrder(s, w', t)
  {
    OrderedStep(s, w, w', step, t);
    if step.Write? && step.tenant == t && !step.fails {
      DeriveExtends(s.exist, ColumnsOf(w.columns, t), EventsOf(w.written, t), Of(w.inflight, t));
    }
  }

  lemma {:induction false} RunInOrder(s: Setup, tr: seq<World>, steps: seq<Step>, i: nat, t: string)
    requires s.maxBuffer > 0 && Run(s, tr, steps) && i < |tr|
    ensures InOrder(s, tr[i], t)
  {
    if i > 0 {
      RunInOrder(s, tr, steps, i - 1, t);
      InOrderStep(s, tr[i - 1], tr[i], steps[i - 1], t);
    }
  }

  /** In every run the columns hold the first counting event among those that were written. */
  lemma ColumnsFollowWrites(s: Setup, tr: seq<World>, steps: seq<Step>, i: nat, t: string)
    requires s.maxBuffer > 0 && Run(s, tr, steps) && i < |tr|
    ensures AreFirsts(s.exist, ColumnsOf(tr[i].columns, t), EventsOf(tr[i].written, t))
  {
    RunInOrder(s, tr, steps, i, t);
  }

  // ----- what a first interaction is, told from the events alone ------------------------------------------------

  /**
  The event is an interaction of the column's kind with its delivery, by no suspected bot; an
  unsubscribe link that was only clicked is none.
  */
  ghost predicate Interacts(ev: Event, t: string, k: Column) {
    && ev.tenant == t && !ev.bot && ev.kind == k.kind && ev.delivery == k.delivery
    && k.delivery != "" && k.kind in {Open, Click, Unsubscribed}
  }

  /** Event j is the tenant's first interaction of the column. */
  ghost predicate FirstInteraction(events: seq<Event>, t: string, k: Column, j: nat) {
    j < |events| && Interacts(events[j], t, k) && forall i | 0 <= i < j :: !Interacts(events[i], t, k)
  }

  lemma OneInteraction(ev: Event, t: string, k: Column)
    requires ev.tenant == t
    ensures First([ev], k) == if Interacts(ev, t, k) then Some(ev.at) else None
  {
    assert FirstFrom([ev], k, 1) == None;
  }

  /** The reference is what it says: the time of the tenant's first interaction of the column, if there is one. */
  lemma {:induction false} FirstIsTheInteraction(events: seq<Event>, t: string, k: Column)
    ensures forall j: nat | FirstInteraction(events, t, k, j) :: First(Of(events, t), k) == Some(events[j].at)
    ensures First(Of(events, t), k).Some? ==> exists j: nat :: FirstInteraction(events, t, k, j)
  {
    if events != [] {
      var init, last := events[..|events| - 1], events[|events| - 1];
      FirstIsTheInteraction(init, t, k);
      if last.tenant == t {
        FirstConcat(Of(init, t), [last], k, 0);
        OneInteraction(last, t, k);
      } else {
        assert Of(events, t) == Of(init, t);
      }
      assert init + [last] == events;
      NoInteractionYet(init, last, t, k);
      if j: nat :| FirstInteraction(events, t, k, j) {
        assert j < |init| ==> FirstInteraction(init, t, k, j);
        assert First(Of(events, t), k) == Some(events[j].at);
        assert forall i: nat | FirstInteraction(events, t, k, i) :: i == j;
      }
    }
  }

  /** One more event is the first interaction exactly when it is one and there was none. */
  lemma NoInteractionYet(init: seq<Event>, last: Event, t: string, k: Column)
    ensures forall j: nat | j < |init| ::
              FirstInteraction(init + [last], t, k, j) <==> FirstInteraction(init, t, k, j)
    ensures FirstInteraction(init + [last], t, k, |init|) <==>
            Interacts(last, t, k) && forall j: nat :: !FirstInteraction(init, t, k, j)
  {
    var all := init + [last];
    assert forall i | 0 <= i < |init| :: all[i] == init[i];
    if i: nat :| i < |init| && Interacts(init[i], t, k) {
      var j := Earliest(init, t, k, i);
    }
  }

  lemma {:induction false} Earliest(events: seq<Event>, t: string, k: Column, i: nat) returns (j: nat)
    requires i < |events| && Interacts(events[i], t, k)
    ensures FirstInteraction(events, t, k, j)
  {
    if h: nat :| h < i && Interacts(events[h], t, k) {
      j := Earliest(events, t, k, h);
    } else {
      j := i;
    }
  }

  /**
  However the events were split into flushes and the tenants of each flush ordered: once everything
  is written and nothing was lost, a first-interaction column is set exactly when its delivery exists and
  an interaction with it was recorded, and then to the time of the first.
  */
  lemma FirstsAreTheRecordedFirsts(s: Setup, tr: seq<World>, steps: seq<Step>, i: nat, t: string, k: Column)
    requires s.maxBuffer > 0 && Run(s, tr, steps) && i < |tr|
    requires tr[i].buf == [] && tr[i].inflight == [] && tr[i].dropped == tr[i].failed == 0
    ensures forall at :: Value(ColumnsOf(tr[i].columns, t), k) == Some(at) <==>
              s.exist(k.delivery) && exists j: nat :: FirstInteraction(tr[i].log, t, k, j) && tr[i].log[j].at == at
  {
    RunInOrder(s, tr, steps, i, t);
    assert EventsOf(tr[i].written, t) + [] + [] == EventsOf(tr[i].written, t);
    FirstIsTheInteraction(tr[i].log, t, k);
  }
}
