/**
The listing of store/overlay.go: virtual entries spliced in front of a backing list. The virtual
entries are paged on synthetic cursors of their own ("sys#3", "sys#$"), the backing list on the
cursors it mints, and shadow rows, whose ID marks a platform entity, are dropped from it.
*/
module OverlayListing {
  import opened Wrappers

  const DEFAULT_LIMIT: int := 50
  const MAX_LIMIT: int := 1000
  const PREFIX := "sys#"
  const DONE := "sys#$"
  const PLATFORM_PREFIX := "sys:"

  predicate HasPrefix(s: string, prefix: string) {
    prefix <= s
  }

  predicate IsPlatformID(id: string)
    ensures IsPlatformID(id) <==> |id| >= 4 && id[..4] == "sys:"
  {
    HasPrefix(id, PLATFORM_PREFIX)
  }

  datatype Page = Page(limit: int, cursor: string) {
    /** Normalize clamps the limit. */
    function Limit(): (n: nat)
      ensures 1 <= n <= 1000 && (1 <= limit <= 1000 ==> n == limit)
      ensures (limit <= 0 ==> n == 50) && (limit > 1000 ==> n == 1000)
    {
      if limit <= 0 then DEFAULT_LIMIT else if limit > MAX_LIMIT then MAX_LIMIT else limit
    }
  }

  /** One page, or ErrInvalid for a cursor nobody minted. NextCursor is "" on the last page. */
  datatype Result<T> = Result(items: seq<T>, next: string) | Invalid

  // ----- decimal numbers ------------------------------------------------------------------------------

  function Digit(n: nat): char
    requires n < 10
  {
    '0' + n as char
  }

  function Itoa(n: nat): string {
    if n < 10 then [Digit(n)] else Itoa(n / 10) + [Digit(n % 10)]
  }

  predicate IsDigit(c: char) {
    '0' <= c <= '9'
  }

  function Digits(s: string): Option<nat> {
    if s == [] || !IsDigit(s[|s| - 1]) then None
    else
      var low := (s[|s| - 1] - '0') as nat;
      if |s| == 1 then Some(low)
      else match Digits(s[..|s| - 1])
        case None => None
        case Some(high) => Some(10 * high + low)
  }

  /** strconv.Atoi: decimal digits with an optional sign. */
  function Atoi(s: string): Option<int> {
    if s != [] && (s[0] == '+' || s[0] == '-') then
      match Digits(s[1..])
      case None => None
      case Some(n) => if s[0] == '-' then Some(0 - n as int) else Some(n)
    else Digits(s)
  }

  lemma {:induction false} DigitsItoa(n: nat)
    ensures Digits(Itoa(n)) == Some(n) && |Itoa(n)| > 0 && IsDigit(Itoa(n)[0])
  {
    if n >= 10 {
      DigitsItoa(n / 10);
      assert Itoa(n)[..|Itoa(n)| - 1] == Itoa(n / 10);
      assert Itoa(n)[0] == Itoa(n / 10)[0];
    }
  }

  ghost predicate AllDigits(s: string) {
    s != [] && forall i | 0 <= i < |s| :: '0' <= s[i] <= '9'
  }

  /** What reads as a number: decimal digits. */
  lemma {:induction false} DigitsRead(s: string)
    ensures Digits(s).Some? <==> AllDigits(s)
  {
    if s != [] {
      DigitsRead(s[..|s| - 1]);
      assert AllDigits(s) <==> IsDigit(s[|s| - 1]) && (|s| == 1 || AllDigits(s[..|s| - 1]));
    }
  }

  /** And with a sign: a minus negates it. */
  lemma AtoiReads(s: string)
    ensures Atoi(s).Some? <==> AllDigits(s) || (s != [] && s[0] in {'+', '-'} && AllDigits(s[1..]))
    ensures Atoi(s).Some? && AllDigits(s) ==> Atoi(s).value >= 0
    ensures Atoi(s).Some? && s[0] == '+' ==> Atoi(s) == Atoi(s[1..])
    ensures Atoi(s).Some? && s[0] == '-' ==> Atoi(s[1..]).Some? && Atoi(s).value == -Atoi(s[1..]).value
  {
    DigitsRead(s);
    if s != [] {
      DigitsRead(s[1..]);
    }
  }

  lemma AtoiItoa(n: nat)
    ensures Atoi(Itoa(n)) == Some(n) && Itoa(n) != "$"
  {
    DigitsItoa(n);
  }

  // ----- the backing list -----------------------------------------------------------------------------

  /** Its rows in order, with their IDs; a cursor is the ID of the last row of a page. */
  ghost predicate Backing<T>(rows: seq<T>, id: T -> string) {
    (forall i | 0 <= i < |rows| :: id(rows[i]) != "" && !HasPrefix(id(rows[i]), PREFIX)) && UniqueIDs(rows, id)
  }

  ghost predicate UniqueIDs<T>(rows: seq<T>, id: T -> string) {
    forall i, j | 0 <= i < j < |rows| :: id(rows[i]) != id(rows[j])
  }

  function Find<T>(rows: seq<T>, id: T -> string, cursor: string, i: nat): (k: Option<nat>)
    requires i <= |rows|
    ensures k.Some? ==> i <= k.value < |rows| && id(rows[k.value]) == cursor
    ensures k.None? ==> forall j | i <= j < |rows| :: id(rows[j]) != cursor
    decreases |rows| - i
  {
    if i == |rows| then None else if id(rows[i]) == cursor then Some(i) else Find(rows, id, cursor, i + 1)
  }

  lemma FindMinted<T>(rows: seq<T>, id: T -> string, k: nat)
    requires UniqueIDs(rows, id) && k < |rows|
    ensures Find(rows, id, id(rows[k]), 0) == Some(k)
  {
    var j := Find(rows, id, id(rows[k]), 0);
    assert j.Some? && id(rows[j.value]) == id(rows[k]);
  }

  function PageFrom<T>(rows: seq<T>, id: T -> string, start: nat, limit: nat): Result<T>
    requires start <= |rows| && limit > 0
  {
    if start + limit < |rows| then Result(rows[start..start + limit], id(rows[start + limit - 1]))
    else Result(rows[start..], "")
  }

  function List<T>(rows: seq<T>, id: T -> string, p: Page): Result<T> {
    if p.cursor == "" then PageFrom(rows, id, 0, p.Limit())
    else match Find(rows, id, p.cursor, 0)
      case None => Invalid
      case Some(k) => PageFrom(rows, id, k + 1, p.Limit())
  }

  /** Following a backing cursor resumes right after the page that minted it. */
  lemma Resumes<T>(rows: seq<T>, id: T -> string, start: nat, limit: nat, p: Page)
    requires Backing(rows, id) && start <= |rows| && limit > 0
    requires p.cursor == PageFrom(rows, id, start, limit).next != ""
    ensures start + limit < |rows| && List(rows, id, p) == PageFrom(rows, id, start + limit, p.Limit())
    ensures Find(rows, id, p.cursor, 0) == Some(start + limit - 1) && !HasPrefix(p.cursor, PREFIX)
  {
    FindMinted(rows, id, start + limit - 1);
  }

  // ----- the overlay ------------------------------------------------------------------------------------

  /** The rows that are not shadow rows. */
  function Kept<T>(rows: seq<T>, id: T -> string): seq<T> {
    if rows == [] then []
    else Kept(rows[..|rows| - 1], id) + if IsPlatformID(id(rows[|rows| - 1])) then [] else [rows[|rows| - 1]]
  }

  function KeptPage<T>(rows: seq<T>, id: T -> string, p: Page): Result<T> {
    match List(rows, id, p)
    case Invalid => Invalid
    case Result(items, next) => Result(Kept(items, id), next)
  }

  /** A page that starts among or before the virtual entries. */
  function VirtualPage<T>(virt: seq<T>, rows: seq<T>, id: T -> string, start: nat, limit: nat): Result<T>
    requires 1 <= limit <= MAX_LIMIT
  {
    if start + limit <= |virt| then
      Result(virt[start..start + limit], if start + limit < |virt| then PREFIX + Itoa(start + limit) else DONE)
    else
      var out := if start <= |virt| then virt[start..] else [];
      match KeptPage(rows, id, Page(limit - |out|, ""))
      case Invalid => Invalid
      case Result(items, next) => Result(out + items, next)
  }

  /** overlayList. */
  function OverlayPage<T>(virt: seq<T>, rows: seq<T>, id: T -> string, p: Page): Result<T> {
    if p.cursor == "" then VirtualPage(virt, rows, id, 0, p.Limit())
    else if p.cursor == DONE then KeptPage(rows, id, Page(p.Limit(), ""))
    else if HasPrefix(p.cursor, PREFIX) then
      match Atoi(p.cursor[|PREFIX|..])
      case None => Invalid
      case Some(n) => if n < 0 then Invalid else VirtualPage(virt, rows, id, n, p.Limit())
    else KeptPage(rows, id, Page(p.Limit(), p.cursor))
  }

  /** The list function a caller hands to overlayList pages these rows. */
  ghost predicate PagesOf<T(!new)>(list: Page -> Result<T>, rows: seq<T>, id: T -> string) {
    forall p {:trigger list(p)} :: list(p) == List(rows, id, p)
  }

  /** The backing page without its shadow rows, as the source filters it. */
  method FilterPage<T(!new)>(list: Page -> Result<T>, ghost rows: seq<T>, id: T -> string, p: Page)
    returns (r: Result<T>)
    requires PagesOf(list, rows, id)
    ensures r == KeptPage(rows, id, p)
  {
    var res := list(p);
    if res.Invalid? {
      return Invalid;
    }
    var kept: seq<T> := [];
    for i := 0 to |res.items|
      invariant kept == Kept(res.items[..i], id)
    {
      assert res.items[..i + 1][..i] == res.items[..i];
      if !IsPlatformID(id(res.items[i])) {
        kept := kept + [res.items[i]];
      }
    }
    assert res.items[..|res.items|] == res.items;
    return Result(kept, res.next);
  }

  /** The virtual entries of a page that starts at `start`. */
  method TakeVirtual<T>(virt: seq<T>, start: nat, limit: nat) returns (out: seq<T>)
    ensures out == if start >= |virt| then []
                   else if start + limit <= |virt| then virt[start..start + limit] else virt[start..]
  {
    out := [];
    var i := start;
    while i < |virt| && |out| < limit
      invariant start <= i && (i <= |virt| || i == start) && |out| == i - start <= limit
      invariant start <= |virt| ==> out == virt[start..i]
    {
      out := out + [virt[i]];
      i := i + 1;
    }
  }

  /** overlayList from entry `start` of the virtual ones on. */
  method FromVirtual<T(!new)>(virt: seq<T>, list: Page -> Result<T>, ghost rows: seq<T>, id: T -> string,
                              start: nat, limit: nat) returns (r: Result<T>)
    requires 1 <= limit <= MAX_LIMIT && PagesOf(list, rows, id)
    ensures r == VirtualPage(virt, rows, id, start, limit)
  {
    var out := TakeVirtual(virt, start, limit);
    if |out| == limit {
      var next := DONE;
      if start + |out| < |virt| {
        next := PREFIX + Itoa(start + |out|);
      }
      return Result(out, next);
    }
    r := FilterPage(list, rows, id, Page(limit - |out|, ""));
    if r.Invalid? {
      return;
    }
    return Result(out + r.items, r.next);
  }

  method OverlayList<T(!new)>(virt: seq<T>, list: Page -> Result<T>, ghost rows: seq<T>, id: T -> string, p: Page)
    returns (r: Result<T>)
    requires PagesOf(list, rows, id)
    ensures r == OverlayPage(virt, rows, id, p)
  {
    var limit, start := p.Limit(), 0;
    if p.cursor == "" {
    } else if p.cursor == DONE {
      r := FilterPage(list, rows, id, Page(limit, ""));
      return;
    } else if HasPrefix(p.cursor, PREFIX) {
      var n := Atoi(p.cursor[|PREFIX|..]);
      if n.None? || n.value < 0 {
        return Invalid;
      }
      start := n.value;
    } else {
      r := FilterPage(list, rows, id, Page(limit, p.cursor));
      return;
    }
    r := FromVirtual(virt, list, rows, id, start, limit);
  }

  // ----- the whole walk -----------------------------------------------------------------------------------

  /** How far a cursor is: entries of virt + rows behind it. None for a cursor this list never minted. */
  function Position<T>(virt: seq<T>, rows: seq<T>, id: T -> string, cursor: string): Option<nat> {
    if cursor == "" then Some(0)
    else if cursor == DONE then Some(|virt|)
    else if HasPrefix(cursor, PREFIX) then
      match Atoi(cursor[|PREFIX|..])
      case None => None
      case Some(n) => if 0 <= n < |virt| then Some(n) else None
    else match Find(rows, id, cursor, 0)
      case None => None
      case Some(k) => Some(|virt| + k + 1)
  }

  /** The entries from a position on, shadow rows dropped. */
  function Rest<T>(virt: seq<T>, rows: seq<T>, id: T -> string, pos: nat): seq<T>
    requires pos <= |virt| + |rows|
  {
    if pos <= |virt| then virt[pos..] + Kept(rows, id) else Kept(rows[pos - |virt|..], id)
  }

  lemma {:induction false} KeptConcat<T>(a: seq<T>, b: seq<T>, id: T -> string)
    ensures Kept(a + b, id) == Kept(a, id) + Kept(b, id) && |Kept(b, id)| <= |b|
  {
    if b == [] {
      assert a + b == a;
    } else {
      KeptConcat(a, b[..|b| - 1], id);
      assert (a + b)[..|a + b| - 1] == a + b[..|b| - 1];
    }
  }

  lemma KeptSplit<T>(rows: seq<T>, id: T -> string, start: nat, limit: nat)
    requires start + limit <= |rows|
    ensures Kept(rows[start..], id) == Kept(rows[start..start + limit], id) + Kept(rows[start + limit..], id)
    ensures |Kept(rows[start..start + limit], id)| <= limit
  {
    assert rows[start..] == rows[start..start + limit] + rows[start + limit..];
    KeptConcat(rows[start..start + limit], rows[start + limit..], id);
    KeptConcat([], rows[start..start + limit], id);
  }

  lemma RestOfBacking<T>(virt: seq<T>, rows: seq<T>, id: T -> string, start: nat)
    requires start <= |rows|
    ensures Rest(virt, rows, id, |virt| + start) == Kept(rows[start..], id)
  {
    if start == 0 {
      assert rows[0..] == rows && virt[|virt|..] + Kept(rows, id) == Kept(rows, id);
    }
  }

  lemma PositionAfter<T>(virt: seq<T>, rows: seq<T>, id: T -> string, start: nat, limit: nat)
    requires Backing(rows, id) && limit > 0 && start + limit < |rows|
    ensures var next := PageFrom(rows, id, start, limit).next;
            next != "" && Position(virt, rows, id, next) == Some(|virt| + start + limit)
  {
    var next := PageFrom(rows, id, start, limit).next;
    Resumes(rows, id, start, limit, Page(1, next));
    assert HasPrefix(DONE, PREFIX);
  }

  /** What one page must be: a limit's worth at most, the next entries in order, and progress. */
  ghost predicate PageOk<T>(virt: seq<T>, rows: seq<T>, id: T -> string, pos: nat, limit: nat, r: Result<T>) {
    && pos <= |virt| + |rows| && r.Result? && |r.items| <= limit
    && if r.next == "" then r.items == Rest(virt, rows, id, pos)
       else
         var q := Position(virt, rows, id, r.next);
         && q.Some? && pos < q.value <= |virt| + |rows|
         && Rest(virt, rows, id, pos) == r.items + Rest(virt, rows, id, q.value)
  }

  lemma LastBackingPage<T>(virt: seq<T>, rows: seq<T>, id: T -> string, start: nat, limit: nat)
    requires start <= |rows| <= start + limit
    ensures PageOk(virt, rows, id, |virt| + start, limit, Result(Kept(rows[start..], id), ""))
  {
    RestOfBacking(virt, rows, id, start);
    KeptConcat([], rows[start..], id);
  }

  lemma FullBackingPage<T>(virt: seq<T>, rows: seq<T>, id: T -> string, start: nat, limit: nat)
    requires Backing(rows, id) && limit > 0 && start + limit < |rows|
    ensures PageOk(virt, rows, id, |virt| + start, limit,
                   Result(Kept(rows[start..start + limit], id), PageFrom(rows, id, start, limit).next))
  {
    RestOfBacking(virt, rows, id, start);
    PositionAfter(virt, rows, id, start, limit);
    KeptSplit(rows, id, start, limit);
    RestOfBacking(virt, rows, id, start + limit);
  }

  lemma BackingPage<T>(virt: seq<T>, rows: seq<T>, id: T -> string, start: nat, limit: nat, p: Page)
    requires Backing(rows, id) && start <= |rows| && limit > 0 && List(rows, id, p) == PageFrom(rows, id, start, limit)
    ensures PageOk(virt, rows, id, |virt| + start, limit, KeptPage(rows, id, p))
  {
    if start + limit < |rows| {
      FullBackingPage(virt, rows, id, start, limit);
    } else {
      LastBackingPage(virt, rows, id, start, limit);
    }
  }

  lemma MintedCursor<T>(virt: seq<T>, rows: seq<T>, id: T -> string, q: nat)
    requires q < |virt|
    ensures Position(virt, rows, id, PREFIX + Itoa(q)) == Some(q)
  {
    AtoiItoa(q);
    var cursor := PREFIX + Itoa(q);
    assert cursor[|PREFIX|..] == Itoa(q) && DONE[|PREFIX|..] == "$";
    assert HasPrefix(cursor, PREFIX);
  }

  lemma VirtualOnly<T>(virt: seq<T>, rows: seq<T>, id: T -> string, start: nat, limit: nat)
    requires 1 <= limit <= MAX_LIMIT && start + limit <= |virt|
    ensures PageOk(virt, rows, id, start, limit, VirtualPage(virt, rows, id, start, limit))
  {
    var q, kept := start + limit, Kept(rows, id);
    if q < |virt| {
      MintedCursor(virt, rows, id, q);
    }
    assert virt[start..] + kept == virt[start..q] + (virt[q..] + kept);
  }

  lemma RestFromVirtual<T>(virt: seq<T>, rows: seq<T>, id: T -> string, start: nat)
    requires start <= |virt|
    ensures Rest(virt, rows, id, start) == virt[start..] + Rest(virt, rows, id, |virt|)
  {
    assert Rest(virt, rows, id, |virt|) == Kept(rows, id);
  }

  /** A page of the backing list's beginning stays right with the last virtual entries in front. */
  lemma InFront<T>(virt: seq<T>, rows: seq<T>, id: T -> string, start: nat, left: nat, r: Result<T>)
    requires start <= |virt| && PageOk(virt, rows, id, |virt|, left, r)
    ensures PageOk(virt, rows, id, start, |virt| - start + left, Result(virt[start..] + r.items, r.next))
  {
    RestFromVirtual(virt, rows, id, start);
    if r.next != "" {
      var rest := Rest(virt, rows, id, Position(virt, rows, id, r.next).value);
      assert virt[start..] + (r.items + rest) == (virt[start..] + r.items) + rest;
    }
  }

  lemma VirtualThenBacking<T>(virt: seq<T>, rows: seq<T>, id: T -> string, start: nat, limit: nat)
    requires Backing(rows, id) && 1 <= limit <= MAX_LIMIT && start <= |virt| < start + limit
    ensures PageOk(virt, rows, id, start, limit, VirtualPage(virt, rows, id, start, limit))
  {
    var left := limit - (|virt| - start);
    BackingPage(virt, rows, id, 0, left, Page(left, ""));
    InFront(virt, rows, id, start, left, KeptPage(rows, id, Page(left, "")));
    VirtualPageIs(virt, rows, id, start, limit);
  }

  lemma VirtualPageIs<T>(virt: seq<T>, rows: seq<T>, id: T -> string, start: nat, limit: nat)
    requires 1 <= limit <= MAX_LIMIT && start <= |virt| < start + limit
    requires KeptPage(rows, id, Page(limit - (|virt| - start), "")).Result?
    ensures var r := KeptPage(rows, id, Page(limit - (|virt| - start), ""));
            VirtualPage(virt, rows, id, start, limit) == Result(virt[start..] + r.items, r.next)
  {
  }

  /** One page from any cursor the list minted. */
  lemma PageStep<T>(virt: seq<T>, rows: seq<T>, id: T -> string, p: Page)
    requires Backing(rows, id) && Position(virt, rows, id, p.cursor).Some?
    ensures PageOk(virt, rows, id, Position(virt, rows, id, p.cursor).value, p.Limit(), OverlayPage(virt, rows, id, p))
  {
    var pos, limit := Position(virt, rows, id, p.cursor).value, p.Limit();
    if p.cursor == DONE {
      BackingPage(virt, rows, id, 0, limit, Page(limit, ""));
    } else if p.cursor != "" && !HasPrefix(p.cursor, PREFIX) {
      BackingPage(virt, rows, id, pos - |virt|, limit, Page(limit, p.cursor));
    } else if pos + limit <= |virt| {
      VirtualOnly(virt, rows, id, pos, limit);
    } else {
      VirtualThenBacking(virt, rows, id, pos, limit);
    }
  }

  /** Follow NextCursor to the end, asking page k with limit limits(k): all items, in order. */
  function Walk<T>(virt: seq<T>, rows: seq<T>, id: T -> string, limits: nat -> int, cursor: string, k: nat): seq<T>
    requires Backing(rows, id) && Position(virt, rows, id, cursor).Some?
    decreases |virt| + |rows| + 1 - Position(virt, rows, id, cursor).value
  {
    var p := Page(limits(k), cursor);
    PageStep(virt, rows, id, p);
    var r := OverlayPage(virt, rows, id, p);
    if r.next == "" then r.items else r.items + Walk(virt, rows, id, limits, r.next, k + 1)
  }

  lemma {:induction false} WalkRest<T>(virt: seq<T>, rows: seq<T>, id: T -> string, limits: nat -> int,
                                       cursor: string, k: nat)
    requires Backing(rows, id) && Position(virt, rows, id, cursor).Some?
    ensures Position(virt, rows, id, cursor).value <= |virt| + |rows|
    ensures Walk(virt, rows, id, limits, cursor, k) == Rest(virt, rows, id, Position(virt, rows, id, cursor).value)
    decreases |virt| + |rows| + 1 - Position(virt, rows, id, cursor).value
  {
    var p := Page(limits(k), cursor);
    PageStep(virt, rows, id, p);
    var r := OverlayPage(virt, rows, id, p);
    if r.next != "" {
      WalkRest(virt, rows, id, limits, r.next, k + 1);
    }
  }

  /**
  A walk from the empty cursor, with any limit on each page, yields the virtual entries followed by
  the backing rows that are not shadow rows, each once and in order. That Walk is defined at all says
  it ends.
  */
  lemma WalkIsComplete<T>(virt: seq<T>, rows: seq<T>, id: T -> string, limits: nat -> int)
    requires Backing(rows, id)
    ensures Walk(virt, rows, id, limits, "", 0) == virt + Kept(rows, id)
  {
    WalkRest(virt, rows, id, limits, "", 0);
    assert virt[0..] == virt;
  }

  /** No page of a walk is over its limit, and the walk takes at most one page per entry and one more. */
  function Pages<T>(virt: seq<T>, rows: seq<T>, id: T -> string, limits: nat -> int, cursor: string, k: nat): (n: nat)
    requires Backing(rows, id) && Position(virt, rows, id, cursor).Some?
    ensures |OverlayPage(virt, rows, id, Page(limits(k), cursor)).items| <= Page(limits(k), cursor).Limit()
    ensures 1 <= n <= |virt| + |rows| + 1 - Position(virt, rows, id, cursor).value
    decreases |virt| + |rows| + 1 - Position(virt, rows, id, cursor).value
  {
    PageStep(virt, rows, id, Page(limits(k), cursor));
    var r := OverlayPage(virt, rows, id, Page(limits(k), cursor));
    if r.next == "" then 1 else 1 + Pages(virt, rows, id, limits, r.next, k + 1)
  }
}
