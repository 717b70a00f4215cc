/**
Shared templates of store/overlay_content.go: a tenant reads the system tenant's shared templates
through the overlay, its own template with the same key overrides a shared one, and a shared one is
read-only to it.
*/
module SharedContent {
  import opened Wrappers
  import opened OverlayListing

  datatype Template = Template(id: string, key: string, shared: bool, published: string, body: string, version: nat)

  /** A template as a tenant reads it, with the two fields the overlay computes. */
  datatype View = View(t: Template, overridden: bool, sharedPublished: string)

  function TemplateID(t: Template): string { t.id }

  function ViewID(v: View): string { v.t.id }

  /** A tenant's templates in ID order: IDs are unique, and so are keys that are set. */
  ghost predicate Table(rows: seq<Template>) {
    Backing(rows, TemplateID) && UniqueKeys(rows)
  }

  ghost predicate UniqueKeys(rows: seq<Template>) {
    forall i, j | 0 <= i < j < |rows| :: rows[i].key != "" ==> rows[i].key != rows[j].key
  }

  function ByKey(rows: seq<Template>, key: string): (r: Option<Template>)
    ensures r.Some? ==> r.value in rows && r.value.key == key
    ensures r.None? ==> key == "" || forall i | 0 <= i < |rows| :: rows[i].key != key
  {
    if key == "" || rows == [] then None
    else if rows[|rows| - 1].key == key then Some(rows[|rows| - 1])
    else ByKey(rows[..|rows| - 1], key)
  }

  function ByID(rows: seq<Template>, id: string): (r: Option<Template>)
    ensures r.Some? ==> r.value in rows && r.value.id == id
    ensures r.None? ==> forall i | 0 <= i < |rows| :: rows[i].id != id
  {
    match Find(rows, TemplateID, id, 0)
    case None => None
    case Some(k) => Some(rows[k])
  }

  // ----- reads -----------------------------------------------------------------------------------------

  function SharedByID(sys: seq<Template>, id: string): Option<Template> {
    var r := ByID(sys, id);
    if r.Some? && r.value.shared then r else None
  }

  function Annotate(sys: seq<Template>, t: Template): View {
    var orig := ByKey(sys, t.key);
    if orig.Some? && orig.value.shared then View(t, true, orig.value.published) else View(t, false, "")
  }

  function Get(own: seq<Template>, sys: seq<Template>, id: string): Option<View> {
    match ByID(own, id)
    case Some(t) => Some(Annotate(sys, t))
    case None =>
      match SharedByID(sys, id)
      case None => None
      case Some(t) => Some(View(t, false, ""))
  }

  function GetByKey(own: seq<Template>, sys: seq<Template>, key: string): Option<View> {
    match ByKey(own, key)
    case Some(t) => Some(Annotate(sys, t))
    case None =>
      match ByKey(sys, key)
      case None => None
      case Some(t) => if t.shared then Some(View(t, false, "")) else None
  }

  function Shared(sys: seq<Template>): seq<Template> {
    if sys == [] then []
    else Shared(sys[..|sys| - 1]) + if sys[|sys| - 1].shared then [sys[|sys| - 1]] else []
  }

  /** The shared templates the tenant has not overridden, from those of the system tenant. */
  function Virtual(own: seq<Template>, shared: seq<Template>): seq<View> {
    if shared == [] then []
    else
      var t := shared[|shared| - 1];
      Virtual(own, shared[..|shared| - 1]) + if ByKey(own, t.key).Some? then [] else [View(t, false, "")]
  }

  /** The tenant's own templates, each marked by the shared templates alone. */
  function Marked(own: seq<Template>, byKey: map<string, Template>): seq<View> {
    seq(|own|, i requires 0 <= i < |own| => MarkedBy(byKey, own[i]))
  }

  function MarkedBy(byKey: map<string, Template>, t: Template): View {
    if t.key != "" && t.key in byKey then View(t, true, byKey[t.key].published) else View(t, false, "")
  }

  function KeyIndex(shared: seq<Template>): map<string, Template> {
    if shared == [] then map[]
    else
      var t := shared[|shared| - 1];
      if t.key == "" then KeyIndex(shared[..|shared| - 1]) else KeyIndex(shared[..|shared| - 1])[t.key := t]
  }

  /** allShared: the shared templates of the system tenant, read page by page. */
  method AllShared(sys: seq<Template>) returns (out: seq<Template>)
    requires Backing(sys, TemplateID)
    ensures out == Shared(sys)
  {
    out := [];
    var page := Page(MAX_LIMIT, "");
    ghost var start := 0;
    while true
      invariant start <= |sys| && out == Shared(sys[..start])
      invariant List(sys, TemplateID, page) == PageFrom(sys, TemplateID, start, MAX_LIMIT)
      decreases |sys| - start
    {
      var res := List(sys, TemplateID, page);
      PageFacts(sys, start);
      out := KeepShared(out, res.items, sys[..start]);
      start := start + |res.items|;
      if res.next == "" {
        return;
      }
      page := Page(MAX_LIMIT, res.next);
    }
  }

  lemma PageFacts(sys: seq<Template>, start: nat)
    requires Backing(sys, TemplateID) && start <= |sys|
    ensures var r := PageFrom(sys, TemplateID, start, MAX_LIMIT);
            && start + |r.items| <= |sys| && sys[..start] + r.items == sys[..start + |r.items|]
            && if r.next == "" then sys[..start + |r.items|] == sys
               else
                 && |r.items| > 0
                 && List(sys, TemplateID, Page(MAX_LIMIT, r.next))
                    == PageFrom(sys, TemplateID, start + |r.items|, MAX_LIMIT)
  {
    var r := PageFrom(sys, TemplateID, start, MAX_LIMIT);
    if r.next != "" {
      Resumes(sys, TemplateID, start, MAX_LIMIT, Page(MAX_LIMIT, r.next));
    }
  }

  method KeepShared(kept: seq<Template>, items: seq<Template>, ghost before: seq<Template>) returns (out: seq<Template>)
    requires kept == Shared(before)
    ensures out == Shared(before + items)
  {
    out := kept;
    ghost var done := before;
    for i := 0 to |items|
      invariant done == before + items[..i] && out == Shared(done)
    {
      SharedSnoc(done, items[i]);
      TakeNext(before, items, i);
      done := done + [items[i]];
      if items[i].shared {
        out := out + [items[i]];
      }
    }
    assert items[..|items|] == items;
  }

  lemma TakeNext(before: seq<Template>, items: seq<Template>, i: nat)
    requires i < |items|
    ensures before + items[..i] + [items[i]] == before + items[..i + 1]
  {
  }

  /** The two things List builds from the shared templates. */
  method Prepare(own: seq<Template>, shared: seq<Template>) returns (byKey: map<string, Template>, virt: seq<View>)
    ensures byKey == KeyIndex(shared) && virt == Virtual(own, shared)
  {
    byKey, virt := map[], [];
    for i := 0 to |shared|
      invariant byKey == KeyIndex(shared[..i]) && virt == Virtual(own, shared[..i])
    {
      assert shared[..i + 1][..i] == shared[..i];
      var v := shared[i];
      if v.key != "" {
        byKey := byKey[v.key := v];
        if ByKey(own, v.key).Some? {
          continue;
        }
      }
      virt := virt + [View(v, false, "")];
    }
    assert shared[..|shared|] == shared;
  }

  /** sharedTemplates.List. */
  method ListTemplates(own: seq<Template>, sys: seq<Template>, p: Page) returns (r: Result<View>)
    requires Table(sys)
    ensures r == OverlayPage(Virtual(own, Shared(sys)), Marked(own, KeyIndex(Shared(sys))), ViewID, p)
  {
    var shared := AllShared(sys);
    var byKey, virt := Prepare(own, shared);
    OwnPagesMarked(own, byKey);
    r := OverlayList(virt, pg => MarkPage(byKey, List(own, TemplateID, pg)), Marked(own, byKey), ViewID, p);
  }

  /** The list function List hands to the overlay: a page of the tenant's own rows, each marked. */
  function MarkPage(byKey: map<string, Template>, r: Result<Template>): Result<View> {
    match r
    case Invalid => Invalid
    case Result(items, next) => Result(Marked(items, byKey), next)
  }

  /** Marking a page of the own rows is the page of the marked rows. */
  lemma OwnPagesMarked(own: seq<Template>, byKey: map<string, Template>)
    ensures PagesOf(pg => MarkPage(byKey, List(own, TemplateID, pg)), Marked(own, byKey), ViewID)
  {
    forall p: Page ensures MarkPage(byKey, List(own, TemplateID, p)) == List(Marked(own, byKey), ViewID, p) {
      OwnPageMarked(own, byKey, p);
    }
  }

  lemma OwnPageMarked(own: seq<Template>, byKey: map<string, Template>, p: Page)
    ensures MarkPage(byKey, List(own, TemplateID, p)) == List(Marked(own, byKey), ViewID, p)
  {
    SameFind(own, byKey, p.cursor, 0);
    var k := Find(own, TemplateID, p.cursor, 0);
    if p.cursor == "" {
      PageMarked(own, byKey, 0, p.Limit());
    } else if k.Some? {
      PageMarked(own, byKey, k.value + 1, p.Limit());
    }
  }

  lemma PageMarked(own: seq<Template>, byKey: map<string, Template>, start: nat, limit: nat)
    requires start <= |own| && limit > 0
    ensures MarkPage(byKey, PageFrom(own, TemplateID, start, limit))
         == PageFrom(Marked(own, byKey), ViewID, start, limit)
  {
    var end := if start + limit < |own| then start + limit else |own|;
    assert Marked(own[start..end], byKey) == Marked(own, byKey)[start..end];
    assert own[start..|own|] == own[start..] && Marked(own, byKey)[start..|own|] == Marked(own, byKey)[start..];
  }

  lemma {:induction false} SameFind(own: seq<Template>, byKey: map<string, Template>, cursor: string, i: nat)
    requires i <= |own|
    ensures Find(own, TemplateID, cursor, i) == Find(Marked(own, byKey), ViewID, cursor, i)
    decreases |own| - i
  {
    if i < |own| {
      SameFind(own, byKey, cursor, i + 1);
    }
  }

  // ----- a walk, key by key -----------------------------------------------------------------------------

  lemma SharedSnoc(sys: seq<Template>, t: Template)
    ensures Shared(sys + [t]) == Shared(sys) + if t.shared then [t] else []
  {
    assert (sys + [t])[..|sys|] == sys;
  }

  lemma ByKeySnoc(rows: seq<Template>, t: Template, key: string)
    ensures ByKey(rows + [t], key) == if key == "" then None else if t.key == key then Some(t) else ByKey(rows, key)
  {
    assert (rows + [t])[..|rows|] == rows;
  }

  /** In a table with unique keys, the key of the last row is in none before it. */
  lemma FreshKey(rows: seq<Template>)
    requires UniqueKeys(rows) && rows != []
    ensures UniqueKeys(rows[..|rows| - 1]) && ByKey(rows[..|rows| - 1], rows[|rows| - 1].key).None?
  {
    var init, last := rows[..|rows| - 1], rows[|rows| - 1];
    assert forall i | 0 <= i < |init| :: init[i] == rows[i];
  }

  lemma {:induction false} ByKeyOfShared(sys: seq<Template>, key: string)
    requires UniqueKeys(sys)
    ensures ByKey(Shared(sys), key) == var r := ByKey(sys, key); if r.Some? && r.value.shared then r else None
    decreases |sys|
  {
    if sys != [] {
      var init, last := sys[..|sys| - 1], sys[|sys| - 1];
      assert sys == init + [last];
      FreshKey(sys);
      ByKeyOfShared(init, key);
      SharedSnoc(init, last);
      ByKeySnoc(init, last, key);
      ByKeySnoc(Shared(init), last, key);
      assert Shared(init) + [] == Shared(init);
    }
  }

  lemma {:induction false} IndexIsByKey(shared: seq<Template>, key: string)
    ensures key != "" ==> (key in KeyIndex(shared) <==> ByKey(shared, key).Some?)
    ensures key != "" && key in KeyIndex(shared) ==> KeyIndex(shared)[key] == ByKey(shared, key).value
  {
    if shared != [] {
      IndexIsByKey(shared[..|shared| - 1], key);
    }
  }

  /** List marks a row as Get does: as overridden exactly when a shared template has its key. */
  lemma MarkedAsAnnotated(sys: seq<Template>, t: Template)
    requires UniqueKeys(sys)
    ensures MarkedBy(KeyIndex(Shared(sys)), t) == Annotate(sys, t)
  {
    ByKeyOfShared(sys, t.key);
    IndexIsByKey(Shared(sys), t.key);
  }

  function WithKey(rows: seq<View>, key: string): seq<View> {
    if rows == [] then []
    else WithKey(rows[..|rows| - 1], key) + if rows[|rows| - 1].t.key == key then [rows[|rows| - 1]] else []
  }

  lemma WithKeySnoc(rows: seq<View>, v: View, key: string)
    ensures WithKey(rows + [v], key) == WithKey(rows, key) + if v.t.key == key then [v] else []
  {
    assert (rows + [v])[..|rows|] == rows;
  }

  lemma {:induction false} WithKeyConcat(a: seq<View>, b: seq<View>, key: string)
    ensures WithKey(a + b, key) == WithKey(a, key) + WithKey(b, key)
  {
    if b == [] {
      assert a + b == a;
    } else {
      WithKeyConcat(a, b[..|b| - 1], key);
      assert (a + b)[..|a + b| - 1] == a + b[..|b| - 1];
    }
  }

  /** The shared template a tenant sees under a key: none when it overrides it. */
  function SharedRow(own: seq<Template>, sys: seq<Template>, key: string): seq<View> {
    match ByKey(sys, key)
    case None => []
    case Some(t) => if ByKey(own, key).Some? || !t.shared then [] else [View(t, false, "")]
  }

  /** The shared templates' rows with a key: one, unless the tenant overrides it. */
  lemma {:induction false} VirtualWithKey(own: seq<Template>, sys: seq<Template>, key: string)
    requires key != "" && UniqueKeys(sys)
    ensures WithKey(Virtual(own, Shared(sys)), key) == SharedRow(own, sys, key)
    decreases |sys|
  {
    if sys != [] {
      var init, last := sys[..|sys| - 1], sys[|sys| - 1];
      assert sys == init + [last];
      FreshKey(sys);
      VirtualWithKey(own, init, key);
      ByKeySnoc(init, last, key);
      VirtualKeySnoc(own, init, last, key);
    }
  }

  lemma VirtualKeySnoc(own: seq<Template>, sys: seq<Template>, t: Template, key: string)
    ensures WithKey(Virtual(own, Shared(sys + [t])), key) == WithKey(Virtual(own, Shared(sys)), key) +
              if t.key == key && t.shared && ByKey(own, t.key).None? then [View(t, false, "")] else []
  {
    var virt := Virtual(own, Shared(sys));
    VirtualSnoc(own, sys, t);
    WithKeySnoc(virt, View(t, false, ""), key);
    assert virt + [] == virt && WithKey(virt, key) + [] == WithKey(virt, key);
  }

  lemma VirtualSnoc(own: seq<Template>, sys: seq<Template>, t: Template)
    ensures Virtual(own, Shared(sys + [t])) ==
            Virtual(own, Shared(sys)) + if t.shared && ByKey(own, t.key).None? then [View(t, false, "")] else []
  {
    SharedSnoc(sys, t);
    if t.shared {
      assert (Shared(sys) + [t])[..|Shared(sys)|] == Shared(sys);
    } else {
      assert Shared(sys) + [] == Shared(sys);
    }
  }

  lemma {:induction false} OwnWithKey(own: seq<Template>, byKey: map<string, Template>, key: string)
    requires key != "" && UniqueKeys(own)
    ensures WithKey(Kept(Marked(own, byKey), ViewID), key) ==
            match ByKey(own, key)
            case None => []
            case Some(t) => if IsPlatformID(t.id) then [] else [MarkedBy(byKey, t)]
    decreases |own|
  {
    if own != [] {
      var init, last := own[..|own| - 1], own[|own| - 1];
      assert own == init + [last];
      FreshKey(own);
      OwnWithKey(init, byKey, key);
      ByKeySnoc(init, last, key);
      OwnSnoc(init, last, byKey, key);
    }
  }

  lemma OwnSnoc(own: seq<Template>, t: Template, byKey: map<string, Template>, key: string)
    ensures WithKey(Kept(Marked(own + [t], byKey), ViewID), key) == WithKey(Kept(Marked(own, byKey), ViewID), key) +
              if t.key == key && !IsPlatformID(t.id) then [MarkedBy(byKey, t)] else []
  {
    var rows, v := Marked(own, byKey), MarkedBy(byKey, t);
    assert Marked(own + [t], byKey) == rows + [v];
    assert (rows + [v])[..|rows|] == rows;
    if IsPlatformID(t.id) {
      assert Kept(rows, ViewID) + [] == Kept(rows, ViewID);
    } else {
      WithKeySnoc(Kept(rows, ViewID), v, key);
    }
  }

  /** What a full walk of the tenant's listing gives, whatever the page limits. */
  function Listing(own: seq<Template>, sys: seq<Template>): seq<View> {
    Virtual(own, Shared(sys)) + Kept(Marked(own, KeyIndex(Shared(sys))), ViewID)
  }

  lemma MarkedIsBacking(own: seq<Template>, byKey: map<string, Template>)
    requires Table(own)
    ensures Backing(Marked(own, byKey), ViewID)
  {
    assert forall i | 0 <= i < |own| :: TemplateID(own[i]) == ViewID(Marked(own, byKey)[i]);
  }

  /** Following the listing's cursors to the end, asking page k with limit limits(k). */
  function FullWalk(own: seq<Template>, sys: seq<Template>, limits: nat -> int): seq<View>
    requires Table(own) && Table(sys)
  {
    MarkedIsBacking(own, KeyIndex(Shared(sys)));
    Walk(Virtual(own, Shared(sys)), Marked(own, KeyIndex(Shared(sys))), ViewID, limits, "", 0)
  }

  lemma WalkIsListing(own: seq<Template>, sys: seq<Template>, limits: nat -> int)
    requires Table(own) && Table(sys)
    ensures FullWalk(own, sys, limits) == Listing(own, sys)
  {
    MarkedIsBacking(own, KeyIndex(Shared(sys)));
    WalkIsComplete(Virtual(own, Shared(sys)), Marked(own, KeyIndex(Shared(sys))), ViewID, limits);
  }

  /** The rows of the listing with one key. */
  lemma ListingWithKey(own: seq<Template>, sys: seq<Template>, key: string)
    requires Table(own) && Table(sys) && key != ""
    ensures var dropped := ByKey(own, key).Some? && IsPlatformID(ByKey(own, key).value.id);
            WithKey(Listing(own, sys), key) ==
            match GetByKey(own, sys, key)
            case None => []
            case Some(v) => if dropped then [] else [v]
  {
    var byKey := KeyIndex(Shared(sys));
    WithKeyConcat(Virtual(own, Shared(sys)), Kept(Marked(own, byKey), ViewID), key);
    VirtualWithKey(own, sys, key);
    OwnWithKey(own, byKey, key);
    if ByKey(own, key).Some? {
      MarkedAsAnnotated(sys, ByKey(own, key).value);
    }
  }

  /**
  A full walk holds exactly one row for each key a tenant can see, the very row GetByKey returns, and
  none for a key it cannot see. The one exception is an own template whose ID is a platform ID: it is
  dropped like a shadow row. IDs the store mints are never platform IDs.
  */
  lemma OneRowPerKey(own: seq<Template>, sys: seq<Template>, limits: nat -> int, key: string)
    requires Table(own) && Table(sys) && key != ""
    ensures var dropped := ByKey(own, key).Some? && IsPlatformID(ByKey(own, key).value.id);
            WithKey(FullWalk(own, sys, limits), key) ==
            match GetByKey(own, sys, key)
            case None => []
            case Some(v) => if dropped then [] else [v]
  {
    WalkIsListing(own, sys, limits);
    ListingWithKey(own, sys, key);
  }

  // ----- a walk, row by row -----------------------------------------------------------------------------

  lemma {:induction false} KeptMembers(rows: seq<View>, v: View)
    ensures v in Kept(rows, ViewID) <==> v in rows && !IsPlatformID(v.t.id)
  {
    if rows != [] {
      KeptMembers(rows[..|rows| - 1], v);
      assert v in rows <==> v in rows[..|rows| - 1] || v == rows[|rows| - 1];
    }
  }

  lemma {:induction false} VirtualMembers(own: seq<Template>, sys: seq<Template>, v: View)
    ensures v in Virtual(own, Shared(sys)) <==>
            v == View(v.t, false, "") && v.t in sys && v.t.shared && ByKey(own, v.t.key).None?
    decreases |sys|
  {
    if sys != [] {
      var init, last := sys[..|sys| - 1], sys[|sys| - 1];
      assert sys == init + [last];
      VirtualMembers(own, init, v);
      VirtualSnoc(own, init, last);
      assert v.t in sys <==> v.t in init || v.t == last;
    }
  }

  lemma MarkedMembers(own: seq<Template>, sys: seq<Template>, v: View)
    requires UniqueKeys(sys)
    ensures v in Marked(own, KeyIndex(Shared(sys))) <==> v.t in own && v == Annotate(sys, v.t)
  {
    var byKey := KeyIndex(Shared(sys));
    MarkedAsAnnotated(sys, v.t);
    if v.t in own && v == Annotate(sys, v.t) {
      var i :| 0 <= i < |own| && own[i] == v.t;
      assert Marked(own, byKey)[i] == v;
    }
  }

  lemma ByIDOf(rows: seq<Template>, t: Template)
    requires UniqueIDs(rows, TemplateID)
    ensures t in rows <==> ByID(rows, t.id) == Some(t)
  {
    if t in rows {
      var i :| 0 <= i < |rows| && rows[i] == t;
      FindMinted(rows, TemplateID, i);
    }
  }

  /** A row Get returns but the listing leaves out: an overridden shared one, or a shadow row. */
  ghost predicate Hidden(own: seq<Template>, v: View) {
    if v.t in own then IsPlatformID(v.t.id) else ByKey(own, v.t.key).Some?
  }

  /** A shared row the tenant can list but not get, because an own row has its ID. */
  ghost predicate Clashes(own: seq<Template>, sys: seq<Template>, v: View) {
    && v.t in sys && v == View(v.t, false, "") && v.t.shared && ByKey(own, v.t.key).None?
    && ByID(own, v.t.id).Some?
  }

  /**
  A full walk and Get agree row by row, the computed fields included: a row is listed exactly when Get
  returns that very row for its ID and it is not hidden, or when an own row's ID clashes with it.
  */
  lemma ListedAsGot(own: seq<Template>, sys: seq<Template>, limits: nat -> int, v: View)
    requires Table(own) && Table(sys)
    ensures v in FullWalk(own, sys, limits) <==>
            (Get(own, sys, v.t.id) == Some(v) && !Hidden(own, v)) || Clashes(own, sys, v)
  {
    WalkIsListing(own, sys, limits);
    ListingMembers(own, sys, v);
    ByIDOf(own, v.t);
    ByIDOf(sys, v.t);
  }

  lemma ListingMembers(own: seq<Template>, sys: seq<Template>, v: View)
    requires UniqueKeys(sys)
    ensures v in Listing(own, sys) <==>
            || (v.t in own && v == Annotate(sys, v.t) && !IsPlatformID(v.t.id))
            || (v.t in sys && v == View(v.t, false, "") && v.t.shared && ByKey(own, v.t.key).None?)
  {
    var rows := Marked(own, KeyIndex(Shared(sys)));
    KeptMembers(rows, v);
    MarkedMembers(own, sys, v);
    VirtualMembers(own, sys, v);
    assert v in Listing(own, sys) <==> v in Virtual(own, Shared(sys)) || v in Kept(rows, ViewID);
  }

  // ----- writes ------------------------------------------------------------------------------------------

  datatype Error = ReadOnly | NotSharable | NotFound | Conflict

  datatype Op = Create(t: Template) | Update(t: Template) | Delete(id: string)

  datatype Written = Written(err: Option<Error>, rows: seq<Template>)

  predicate KeyTaken(rows: seq<Template>, t: Template) {
    ByKey(rows, t.key).Some? && ByKey(rows, t.key).value.id != t.id
  }

  /** The table of one tenant, below the overlay. A new row gets the newest ID, so it comes last. */
  function WriteTable(rows: seq<Template>, op: Op): Written {
    match op
    case Create(t) =>
      if ByID(rows, t.id).Some? || KeyTaken(rows, t) then Written(Some(Conflict), rows)
      else Written(None, rows + [t.(version := 1)])
    case Update(t) =>
      (match Find(rows, TemplateID, t.id, 0)
       case None => Written(Some(NotFound), rows)
       case Some(k) =>
         if rows[k].version != t.version || KeyTaken(rows, t) then Written(Some(Conflict), rows)
         else Written(None, rows[k := t.(version := t.version + 1)]))
    case Delete(id) =>
      match Find(rows, TemplateID, id, 0)
      case None => Written(Some(NotFound), rows)
      case Some(k) => Written(None, rows[..k] + rows[k + 1..])
  }

  /** A tenant's write through the overlay. */
  function WriteShared(own: seq<Template>, sys: seq<Template>, op: Op): Written {
    match op
    case Create(t) => if t.shared then Written(Some(NotSharable), own) else WriteTable(own, op)
    case Update(t) =>
      if t.shared then Written(Some(if SharedByID(sys, t.id).Some? then ReadOnly else NotSharable), own)
      else Refused(WriteTable(own, op), sys, t.id)
    case Delete(id) => Refused(WriteTable(own, op), sys, id)
  }

  function Refused(w: Written, sys: seq<Template>, id: string): Written {
    if w.err == Some(NotFound) && SharedByID(sys, id).Some? then w.(err := Some(ReadOnly)) else w
  }

  /** The overlay on one tenant's table: Create, Update and Delete as the source writes them. */
  class Overlay {
    var own: seq<Template>
    const sys: seq<Template>

    constructor (own: seq<Template>, sys: seq<Template>)
      ensures this.own == own && this.sys == sys
    {
      this.own, this.sys := own, sys;
    }

    method Inner(op: Op) returns (err: Option<Error>)
      modifies this
      ensures Written(err, own) == WriteTable(old(own), op)
    {
      var w := WriteTable(own, op);
      own := w.rows;
      return w.err;
    }

    method Write(op: Op) returns (err: Option<Error>)
      modifies this
      ensures Written(err, own) == WriteShared(old(own), sys, op)
    {
      if op.Create? && op.t.shared {
        return Some(NotSharable);
      }
      if op.Update? && op.t.shared {
        var orig := SharedByID(sys, op.t.id);
        return if orig.Some? then Some(ReadOnly) else Some(NotSharable);
      }
      err := Inner(op);
      if err == Some(NotFound) && !op.Create? {
        var orig := SharedByID(sys, if op.Update? then op.t.id else op.id);
        if orig.Some? {
          return Some(ReadOnly);
        }
      }
    }
  }

  // ----- what reads and writes mean, told from the tables alone --------------------------------------------------

  /** The computed fields: whether a shared template has the row's key, and the version that one publishes. */
  ghost predicate RightlyMarked(sys: seq<Template>, v: View) {
    && (forall s | s in sys && s.shared && s.key == v.t.key != "" :: v.overridden && v.sharedPublished == s.published)
    && (v.overridden ==> exists s :: s in sys && s.shared && s.key == v.t.key != "")
    && (!v.overridden ==> v.sharedPublished == "")
  }

  lemma MarkedRightly(sys: seq<Template>, t: Template, v: View)
    requires UniqueKeys(sys) && v.t == t
    ensures v == Annotate(sys, t) <==> RightlyMarked(sys, v)
  {
    forall s | s in sys && s.key == t.key != "" ensures ByKey(sys, t.key) == Some(s) {
      var i :| 0 <= i < |sys| && sys[i] == s;
      ByKeyOf(sys, i);
    }
  }

  /** Get returns the own row of the ID, rightly marked, or else the shared one, unmarked; and nothing else. */
  lemma GetTells(own: seq<Template>, sys: seq<Template>, id: string, v: View)
    requires Table(own) && Table(sys)
    ensures Get(own, sys, id) == Some(v) <==>
            && v.t.id == id
            && if exists t :: t in own && t.id == id then v.t in own && RightlyMarked(sys, v)
               else v.t in sys && v.t.shared && !v.overridden && v.sharedPublished == ""
  {
    ByIDOf(own, v.t);
    ByIDOf(sys, v.t);
    MarkedRightly(sys, v.t, v);
  }

  /** GetByKey, likewise: the own row of the key overrides the shared one. */
  lemma GetByKeyTells(own: seq<Template>, sys: seq<Template>, key: string, v: View)
    requires Table(own) && Table(sys)
    ensures GetByKey(own, sys, key) == Some(v) <==>
            && v.t.key == key != ""
            && if exists t :: t in own && t.key == key then v.t in own && RightlyMarked(sys, v)
               else v.t in sys && v.t.shared && !v.overridden && v.sharedPublished == ""
  {
    if v.t.key == key != "" {
      if v.t in own {
        var i :| 0 <= i < |own| && own[i] == v.t;
        ByKeyOf(own, i);
      }
      if v.t in sys {
        var i :| 0 <= i < |sys| && sys[i] == v.t;
        ByKeyOf(sys, i);
      }
    }
    MarkedRightly(sys, v.t, v);
  }

  /** Tables that agree on every row of an ID have the same row for it. */
  lemma SameRowOf(a: seq<Template>, b: seq<Template>, id: string)
    requires UniqueIDs(a, TemplateID) && UniqueIDs(b, TemplateID)
    requires forall t: Template | t.id == id :: t in a <==> t in b
    ensures ByID(a, id) == ByID(b, id)
  {
    forall t: Template | t.id == id ensures (ByID(a, id) == Some(t)) == (ByID(b, id) == Some(t)) {
      ByIDOf(a, t);
      ByIDOf(b, t);
    }
  }

  lemma CreatedRow(rows: seq<Template>, t: Template, id: string)
    requires UniqueIDs(rows, TemplateID) && ByID(rows, t.id).None?
    ensures ByID(rows + [t], id) == if id == t.id then Some(t) else ByID(rows, id)
  {
    if id == t.id {
      assert t in rows + [t];
      ByIDOf(rows + [t], t);
    } else {
      SameRowOf(rows, rows + [t], id);
    }
  }

  lemma UpdatedRow(rows: seq<Template>, k: nat, t: Template, id: string)
    requires UniqueIDs(rows, TemplateID) && k < |rows| && rows[k].id == t.id
    ensures ByID(rows[k := t], id) == if id == t.id then Some(t) else ByID(rows, id)
  {
    var rows' := rows[k := t];
    assert forall i | 0 <= i < |rows| :: TemplateID(rows'[i]) == TemplateID(rows[i]);
    if id == t.id {
      assert rows'[k] == t;
      ByIDOf(rows', t);
    } else {
      forall u: Template | u.id == id ensures u in rows <==> u in rows' {
        if u in rows {
          var i :| 0 <= i < |rows| && rows[i] == u;
          assert rows'[i] == u;
        }
      }
      SameRowOf(rows, rows', id);
    }
  }

  lemma DeletedRow(rows: seq<Template>, k: nat, id: string)
    requires UniqueIDs(rows, TemplateID) && k < |rows|
    ensures ByID(rows[..k] + rows[k + 1..], id) == if id == rows[k].id then None else ByID(rows, id)
  {
    var rows' := rows[..k] + rows[k + 1..];
    assert forall i | 0 <= i < |rows'| :: rows'[i] == rows[if i < k then i else i + 1];
    if id == rows[k].id {
      assert TemplateID(rows[k]) == id;
      assert forall i | 0 <= i < |rows| && i != k :: TemplateID(rows[i]) != id;
    } else {
      forall u: Template | u.id == id ensures u in rows <==> u in rows' {
        if u in rows {
          var i :| 0 <= i < |rows| && rows[i] == u;
          assert rows'[if i < k then i else i - 1] == u;
        }
      }
      SameRowOf(rows, rows', id);
    }
  }

  /** The row a table has for an ID after a write that succeeded. */
  lemma WrittenRow(rows: seq<Template>, op: Op, id: string)
    requires UniqueIDs(rows, TemplateID) && WriteTable(rows, op).err.None?
    ensures ByID(WriteTable(rows, op).rows, id) ==
            match op
            case Create(t) => if id == t.id then Some(t.(version := 1)) else ByID(rows, id)
            case Update(t) => if id == t.id then Some(t.(version := t.version + 1)) else ByID(rows, id)
            case Delete(gone) => if id == gone then None else ByID(rows, id)
  {
    match op
    case Create(t) => CreatedRow(rows, t.(version := 1), id);
    case Update(t) => UpdatedRow(rows, Find(rows, TemplateID, t.id, 0).value, t.(version := t.version + 1), id);
    case Delete(gone) => DeletedRow(rows, Find(rows, TemplateID, gone, 0).value, id);
  }

  /**
  A tenant's write that succeeds is what Get returns next, the versions counted up from one; a deleted row
  is gone, and what Get returns for its ID is the shared template of that ID, if there is one. What Get
  returns for any other ID stays, and so does everything when the write is refused.
  */
  lemma WritesAreRead(own: seq<Template>, sys: seq<Template>, op: Op, id: string)
    requires Table(own) && Table(sys)
    ensures var w := WriteShared(own, sys, op);
            if w.err.Some? then w.rows == own
            else
              var now, was := Get(w.rows, sys, id), Get(own, sys, id);
              match op
              case Create(t) => if id == t.id then now.Some? && now.value.t == t.(version := 1) else now == was
              case Update(t) =>
                if id == t.id then now.Some? && now.value.t == t.(version := t.version + 1) else now == was
              case Delete(gone) =>
                if id == gone then (now.Some? ==> now.value.t in sys && now.value.t.shared) else now == was
  {
    if WriteShared(own, sys, op).err.None? {
      WrittenRow(own, op, id);
    }
  }

  /** Another row has the key. */
  ghost predicate TakenBy(rows: seq<Template>, t: Template, other: Template) {
    other in rows && other.key == t.key != "" && other.id != t.id
  }

  lemma TakenMeans(rows: seq<Template>, t: Template)
    requires UniqueKeys(rows)
    ensures KeyTaken(rows, t) <==> exists other :: TakenBy(rows, t, other)
  {
    if KeyTaken(rows, t) {
      assert TakenBy(rows, t, ByKey(rows, t.key).value);
    }
    if other :| TakenBy(rows, t, other) {
      var i :| 0 <= i < |rows| && rows[i] == other;
      ByKeyOf(rows, i);
    }
  }

  /**
  When a tenant's write is refused: a shared flag, an ID or key already taken, a row that is not there,
  which is read-only if it is shared, or one written since it was read.
  */
  lemma RefusedExactly(own: seq<Template>, sys: seq<Template>, op: Op)
    requires Table(own) && Table(sys)
    ensures var id := if op.Delete? then op.id else op.t.id;
            var was, sharedThere := ByID(own, id), exists s :: s in sys && s.id == id && s.shared;
            WriteShared(own, sys, op).err ==
            match op
            case Create(t) =>
              if t.shared then Some(NotSharable)
              else if was.Some? || (exists other :: TakenBy(own, t, other)) then Some(Conflict) else None
            case Update(t) =>
              if t.shared then Some(if sharedThere then ReadOnly else NotSharable)
              else if was.None? then Some(if sharedThere then ReadOnly else NotFound)
              else if was.value.version != t.version || (exists other :: TakenBy(own, t, other)) then Some(Conflict)
              else None
            case Delete(_) => if was.Some? then None else Some(if sharedThere then ReadOnly else NotFound)
  {
    var id := if op.Delete? then op.id else op.t.id;
    SharedThere(sys, id);
    if !op.Delete? {
      TakenMeans(own, op.t);
    }
  }

  lemma SharedThere(sys: seq<Template>, id: string)
    requires Backing(sys, TemplateID)
    ensures SharedByID(sys, id).Some? <==> exists s :: s in sys && s.id == id && s.shared
  {
    if s :| s in sys && s.id == id && s.shared {
      ByIDOf(sys, s);
    }
  }

  datatype World = World(own: seq<Template>, sys: seq<Template>)

  datatype Step = ByTenant(op: Op) | BySystem(op: Op)

  function After(w: World, step: Step): World {
    match step
    case ByTenant(op) => w.(own := WriteShared(w.own, w.sys, op).rows)
    case BySystem(op) => w.(sys := WriteTable(w.sys, op).rows)
  }

  function Run(steps: seq<Step>): World {
    if steps == [] then World([], []) else After(Run(steps[..|steps| - 1]), steps[|steps| - 1])
  }

  /** An ID the store mints: not empty, and in neither of the overlay's own name spaces. */
  predicate Minted(id: string) {
    id != "" && !HasPrefix(id, PREFIX) && !IsPlatformID(id)
  }

  ghost predicate Mints(step: Step) {
    step.op.Create? ==> Minted(step.op.t.id)
  }

  ghost predicate GoodTable(rows: seq<Template>) {
    Table(rows) && forall t | t in rows :: Minted(t.id)
  }

  lemma ByKeyOf(rows: seq<Template>, i: nat)
    requires UniqueKeys(rows) && i < |rows| && rows[i].key != ""
    ensures ByKey(rows, rows[i].key) == Some(rows[i])
  {
    var r := ByKey(rows, rows[i].key).value;
    var j :| 0 <= j < |rows| && rows[j] == r;
  }

  /** A key that is not taken is in no row but the one of the same ID. */
  lemma FreeKey(rows: seq<Template>, t: Template, i: nat)
    requires UniqueKeys(rows) && !KeyTaken(rows, t) && i < |rows| && rows[i].key == t.key != ""
    ensures rows[i].id == t.id
  {
    ByKeyOf(rows, i);
  }

  lemma UpdateKeeps(rows: seq<Template>, k: nat, t: Template)
    requires GoodTable(rows) && k < |rows| && rows[k].id == t.id && !KeyTaken(rows, t)
    ensures GoodTable(rows[k := t])
  {
    var rows' := rows[k := t];
    assert forall i | 0 <= i < |rows| :: TemplateID(rows'[i]) == TemplateID(rows[i]);
    assert forall i | 0 <= i < |rows| && i != k :: TemplateID(rows[i]) != TemplateID(rows[k]);
    forall i | 0 <= i < |rows| && i != k && t.key != "" ensures rows[i].key != t.key {
      if rows[i].key == t.key {
        FreeKey(rows, t, i);
      }
    }
    assert rows[k] in rows;
  }

  lemma CreateKeeps(rows: seq<Template>, t: Template)
    requires GoodTable(rows) && ByID(rows, t.id).None? && !KeyTaken(rows, t) && Minted(t.id)
    ensures GoodTable(rows + [t])
  {
    forall i | 0 <= i < |rows| && t.key != "" ensures rows[i].key != t.key {
      if rows[i].key == t.key {
        FreeKey(rows, t, i);
      }
    }
  }

  lemma TableKept(rows: seq<Template>, op: Op)
    requires GoodTable(rows) && (op.Create? ==> Minted(op.t.id))
    ensures GoodTable(WriteTable(rows, op).rows)
  {
    if WriteTable(rows, op).err.None? {
      match op
      case Create(t) => CreateKeeps(rows, t.(version := 1));
      case Update(t) => UpdateKeeps(rows, Find(rows, TemplateID, t.id, 0).value, t.(version := t.version + 1));
      case Delete(id) => DeleteKeeps(rows, Find(rows, TemplateID, id, 0).value);
    }
  }

  lemma DeleteKeeps(rows: seq<Template>, k: nat)
    requires GoodTable(rows) && k < |rows|
    ensures GoodTable(rows[..k] + rows[k + 1..])
  {
    var rows' := rows[..k] + rows[k + 1..];
    assert forall i | 0 <= i < |rows'| :: rows'[i] == rows[if i < k then i else i + 1];
  }

  ghost predicate NoneShared(rows: seq<Template>) {
    forall t | t in rows :: !t.shared
  }

  lemma OwnNotShared(own: seq<Template>, sys: seq<Template>, op: Op)
    requires NoneShared(own)
    ensures NoneShared(WriteShared(own, sys, op).rows)
  {
    assert forall t | t in WriteShared(own, sys, op).rows :: t in own || !t.shared;
  }

  /** Through the overlay the tenant's table is left alone or written as without it. */
  lemma OverlayWrites(own: seq<Template>, sys: seq<Template>, op: Op)
    ensures WriteShared(own, sys, op).rows == own || WriteShared(own, sys, op).rows == WriteTable(own, op).rows
  {
  }

  /**
  After any writes by the tenant and the system tenant, both tables are as the listing theorems need
  them, and the tenant owns nothing shared.
  */
  lemma {:induction false} TablesStayGood(steps: seq<Step>)
    requires forall i | 0 <= i < |steps| :: Mints(steps[i])
    ensures GoodTable(Run(steps).own) && GoodTable(Run(steps).sys) && NoneShared(Run(steps).own)
  {
    if steps != [] {
      var w, step := Run(steps[..|steps| - 1]), steps[|steps| - 1];
      TablesStayGood(steps[..|steps| - 1]);
      assert Mints(step);
      TableKept(w.own, step.op);
      TableKept(w.sys, step.op);
      OverlayWrites(w.own, w.sys, step.op);
      OwnNotShared(w.own, w.sys, step.op);
    }
  }

  /** In every reachable state each visible key is listed once, as the row GetByKey returns. */
  lemma EveryKeyListedOnce(steps: seq<Step>, limits: nat -> int, key: string)
    requires key != "" && forall i | 0 <= i < |steps| :: Mints(steps[i])
    ensures var w := Run(steps);
            && Table(w.own) && Table(w.sys)
            && WithKey(FullWalk(w.own, w.sys, limits), key) ==
               match GetByKey(w.own, w.sys, key) case None => [] case Some(v) => [v]
  {
    TablesStayGood(steps);
    OneRowPerKey(Run(steps).own, Run(steps).sys, limits, key);
  }

  /** The template a write asks for, as it is stored. */
  ghost function StoredBy(op: Op): Template
    requires !op.Delete?
  {
    match op
    case Create(t) => t.(version := 1)
    case Update(t) => t.(version := t.version + 1)
  }

  /**
  In every reachable state: what the tenant creates or updates it reads next, and its write leaves the
  system tenant's templates alone.
  */
  lemma TenantReadsItsWrite(steps: seq<Step>, op: Op)
    requires (forall i | 0 <= i < |steps| :: Mints(steps[i])) && !op.Delete?
    requires WriteShared(Run(steps).own, Run(steps).sys, op).err.None?
    ensures var w := Run(steps + [ByTenant(op)]);
            && w.sys == Run(steps).sys
            && var got := Get(w.own, w.sys, op.t.id); got.Some? && got.value.t == StoredBy(op)
  {
    RunSnoc(steps, ByTenant(op));
    TablesStayGood(steps);
    WritesAreRead(Run(steps).own, Run(steps).sys, op, op.t.id);
  }

  /** What the tenant reads of a template the system tenant has just written. */
  lemma SharedIsRead(own: seq<Template>, sys: seq<Template>, op: Op)
    requires UniqueIDs(sys, TemplateID) && !op.Delete? && WriteTable(sys, op).err.None? && ByID(own, op.t.id).None?
    ensures Get(own, WriteTable(sys, op).rows, op.t.id) ==
            if op.t.shared then Some(View(StoredBy(op), false, "")) else None
  {
    WrittenRow(sys, op, op.t.id);
  }

  lemma RunSnoc(steps: seq<Step>, step: Step)
    ensures Run(steps + [step]) == After(Run(steps), step)
  {
    assert (steps + [step])[..|steps|] == steps;
  }

  /**
  In every reachable state: a template the system tenant writes with the shared mark is what a tenant
  without a template of that ID reads next, and one without the mark is not read; the tenant's own stay.
  */
  lemma TenantReadsWhatIsShared(steps: seq<Step>, op: Op)
    requires (forall i | 0 <= i < |steps| :: Mints(steps[i])) && !op.Delete?
    requires WriteTable(Run(steps).sys, op).err.None? && ByID(Run(steps).own, op.t.id).None?
    ensures var w := Run(steps + [BySystem(op)]);
            && w.own == Run(steps).own
            && Get(w.own, w.sys, op.t.id) == if op.t.shared then Some(View(StoredBy(op), false, "")) else None
  {
    RunSnoc(steps, BySystem(op));
    TablesStayGood(steps);
    SharedIsRead(Run(steps).own, Run(steps).sys, op);
  }

  /** A tenant's write that names a shared template it does not own is refused and changes nothing. */
  lemma SharedIsReadOnly(own: seq<Template>, sys: seq<Template>, op: Op)
    requires !op.Create?
    ensures var id := if op.Update? then op.t.id else op.id;
            ByID(own, id).None? && SharedByID(sys, id).Some? ==>
              WriteShared(own, sys, op) == Written(Some(ReadOnly), own)
  {
    var id := if op.Update? then op.t.id else op.id;
    assert ByID(own, id).None? ==> WriteTable(own, op) == Written(Some(NotFound), own);
  }
}
