/**
Platform entities of store/overlay.go: shared transports, senders, domains and mailboxes that exist
only in configuration. Their runtime state is kept in shadow rows of the system tenant, and a read
merges the configuration over the shadow row.

A row is its struct's columns; a column that is not there has its zero value, as in a Go literal. The
overlay's literals, merges and comparisons are written out column by column for each of the five
aggregates. Which columns are configuration and which are state is said apart from them, and the
theorems are about those sets.
*/
module PlatformEntities {
  import opened Wrappers
  import opened OverlayListing

  datatype Kind = Transport | Sender | Domain | ProbeMailbox | BounceMailbox {
    predicate IsMailbox() {
      ProbeMailbox? || BounceMailbox?
    }
  }

  datatype Column =
    | Name | Host | Port | Tls | Username | Password | MaxConns | RatePerSecond | DomainRatePerSecond
    | FromName | FromEmail | ReplyTo | TransportID | DomainID
    | DomainName | DkimSelector | DkimPrivateKey | ReturnPathDomain | ExpectedSpf | OutboundIPs
    | MailboxKind | Address | InboxFolder | SpamFolder | AuthServID | Protocol | Folder | AfterProcess | Enabled
    | Shared
    | Status | StatusReason | StatusChangedAt | StatusUntil
    | Health | HealthReason | HealthCheckedAt

  type Value = string

  const ZERO: Value := ""
  const TRUE: Value := "true"

  type Columns = map<Column, Value>

  function Val(s: Columns, c: Column): Value {
    if c in s then s[c] else ZERO
  }

  const SYSTEM := "_system"

  /** The columns of a struct. The ID, the tenant, the version and the timestamps are kept apart. */
  function StructOf(kind: Kind): set<Column> {
    match kind
    case Transport =>
      {Name, Host, Port, Tls, Username, Password, MaxConns, RatePerSecond, DomainRatePerSecond, Shared,
       Status, StatusReason, StatusChangedAt, StatusUntil}
    case Sender =>
      {Name, FromName, FromEmail, ReplyTo, TransportID, DomainID, Shared, Health, HealthReason, HealthCheckedAt}
    case Domain =>
      {DomainName, DkimSelector, DkimPrivateKey, ReturnPathDomain, ExpectedSpf, OutboundIPs, Shared,
       Health, HealthReason, HealthCheckedAt}
    case ProbeMailbox =>
      {Name, MailboxKind, Address, Host, Port, Tls, Username, Password, InboxFolder, SpamFolder, AuthServID, Enabled,
       Shared, Health}
    case BounceMailbox =>
      {Name, Address, Protocol, Host, Port, Tls, Username, Password, Folder, AfterProcess, Enabled, Shared, Health}
  }

  /** What runtime writes: a circuit status, a probe verdict, a reachability. */
  function StateOf(kind: Kind): set<Column> {
    match kind
    case Transport => {Status, StatusReason, StatusChangedAt, StatusUntil}
    case Sender => {Health, HealthReason, HealthCheckedAt}
    case Domain => {Health, HealthReason, HealthCheckedAt}
    case ProbeMailbox => {Health}
    case BounceMailbox => {Health}
  }

  /** What an operator sets in the platform configuration, as build copies it from the catalog. */
  function ConfigOf(kind: Kind): set<Column> {
    match kind
    case Transport => {Name, Host, Port, Tls, Username, Password, MaxConns, RatePerSecond, DomainRatePerSecond}
    case Sender => {Name, FromName, FromEmail, ReplyTo, TransportID, DomainID}
    case Domain => {DomainName, DkimSelector, DkimPrivateKey, ReturnPathDomain, ExpectedSpf, OutboundIPs}
    case ProbeMailbox =>
      {Name, MailboxKind, Address, Host, Port, Tls, Username, Password, InboxFolder, SpamFolder, AuthServID, Enabled}
    case BounceMailbox =>
      {Name, Address, Protocol, Host, Port, Tls, Username, Password, Folder, AfterProcess, Enabled}
  }

  datatype Row = Row(cols: Columns, version: nat)

  datatype Key = Key(kind: Kind, tenant: string, id: string)

  type Tables = map<Key, Row>

  /** The virtual entities, as build makes them: marked shared, a transport's status healthy, its zero value. */
  type Catalog = map<(Kind, string), Columns>

  datatype Error = NotFound | Conflict | ReadOnly

  datatype Call =
    | Create(kind: Kind, id: string, row: Row)
    | Update(kind: Kind, id: string, row: Row)
    | UpdateHealth(kind: Kind, id: string, health: Value)
    | Delete(kind: Kind, id: string)

  datatype Written = Written(err: Option<Error>, tables: Tables)

  // ----- the tables below the overlay ---------------------------------------------------------------------

  /** UpdateHealth exists for mailboxes only and takes no part in optimistic concurrency. */
  function Inner(ts: Tables, tenant: string, call: Call): Written {
    var key := Key(call.kind, tenant, call.id);
    match call
    case Create(_, _, row) =>
      if key in ts then Written(Some(Conflict), ts) else Written(None, ts[key := row.(version := 1)])
    case Update(_, _, row) =>
      if key !in ts then Written(Some(NotFound), ts)
      else if ts[key].version != row.version then Written(Some(Conflict), ts)
      else Written(None, ts[key := row.(version := row.version + 1)])
    case UpdateHealth(_, _, health) =>
      if key !in ts then Written(Some(NotFound), ts)
      else Written(None, ts[key := ts[key].(cols := ts[key].cols[Health := health])])
    case Delete(_, _) =>
      if key !in ts then Written(Some(NotFound), ts) else Written(None, ts - {key})
  }

  // ----- the overlay, column by column ---------------------------------------------------------------------

  /** The literals writeShadow's apply and its siblings build from the row a caller wrote. */
  function ShadowOf(kind: Kind, t: Columns): Columns {
    match kind
    case Transport =>
      map[Shared := TRUE, Status := Val(t, Status), StatusReason := Val(t, StatusReason),
          StatusChangedAt := Val(t, StatusChangedAt), StatusUntil := Val(t, StatusUntil)]
    case Sender =>
      map[Shared := TRUE, Health := Val(t, Health), HealthReason := Val(t, HealthReason),
          HealthCheckedAt := Val(t, HealthCheckedAt)]
    case Domain =>
      map[Shared := TRUE, Health := Val(t, Health), HealthReason := Val(t, HealthReason),
          HealthCheckedAt := Val(t, HealthCheckedAt)]
    case ProbeMailbox => map[Shared := TRUE, Health := Val(t, Health)]
    case BounceMailbox => map[Shared := TRUE, Health := Val(t, Health)]
  }

  /** merged, and a sender's view in the system tenant: the shadow row's state over the virtual entity. */
  function Merged(kind: Kind, v: Columns, shadow: Columns): Columns {
    match kind
    case Transport =>
      v[Status := Val(shadow, Status)][StatusReason := Val(shadow, StatusReason)]
       [StatusChangedAt := Val(shadow, StatusChangedAt)][StatusUntil := Val(shadow, StatusUntil)]
    case Sender =>
      v[Health := Val(shadow, Health)][HealthReason := Val(shadow, HealthReason)]
       [HealthCheckedAt := Val(shadow, HealthCheckedAt)]
    case Domain =>
      v[Health := Val(shadow, Health)][HealthReason := Val(shadow, HealthReason)]
       [HealthCheckedAt := Val(shadow, HealthCheckedAt)]
    case ProbeMailbox => v[Health := Val(shadow, Health)]
    case BounceMailbox => v[Health := Val(shadow, Health)]
  }

  /** A sender's view outside the system tenant. */
  function TenantView(v: Columns): Columns {
    v[Health := ZERO][HealthReason := ZERO][HealthCheckedAt := ZERO]
  }

  predicate Agree(v: Columns, t: Columns, c: Column) {
    Val(v, c) == Val(t, c)
  }

  /** sameTransportConfig, sameSenderConfig and sameDomainConfig; a mailbox has no such comparison. */
  predicate SameConfig(kind: Kind, v: Columns, t: Columns) {
    Val(t, Shared) == TRUE &&
    match kind
    case Transport =>
      && Agree(v, t, Name) && Agree(v, t, Host) && Agree(v, t, Port) && Agree(v, t, Tls) && Agree(v, t, Username)
      && Agree(v, t, Password) && Agree(v, t, MaxConns) && Agree(v, t, RatePerSecond)
      && Agree(v, t, DomainRatePerSecond)
    case Sender =>
      && Agree(v, t, Name) && Agree(v, t, FromName) && Agree(v, t, FromEmail) && Agree(v, t, ReplyTo)
      && Agree(v, t, TransportID) && Agree(v, t, DomainID)
    case Domain =>
      && Agree(v, t, DomainName) && Agree(v, t, DkimSelector) && Agree(v, t, DkimPrivateKey)
      && Agree(v, t, ReturnPathDomain) && Agree(v, t, ExpectedSpf) && Agree(v, t, OutboundIPs)
    case _ => false
  }

  /** writeShadow: the first write creates the row, a later one must carry the version it read. */
  function WriteShadow(ts: Tables, kind: Kind, id: string, t: Columns, version: nat): Written {
    if Key(kind, SYSTEM, id) !in ts then Inner(ts, SYSTEM, Create(kind, id, Row(ShadowOf(kind, t), 0)))
    else Inner(ts, SYSTEM, Update(kind, id, Row(ShadowOf(kind, t), version)))
  }

  /** The row UpdateHealth creates when there is none yet. */
  function HealthRow(health: Value): Row {
    Row(map[Shared := TRUE, Health := health], 0)
  }

  function WriteHealth(ts: Tables, kind: Kind, id: string, health: Value): Written {
    var w := Inner(ts, SYSTEM, UpdateHealth(kind, id, health));
    if w.err == Some(NotFound) then Inner(ts, SYSTEM, Create(kind, id, HealthRow(health))) else w
  }

  /** A call of one tenant through the overlay. */
  function Apply(cat: Catalog, ts: Tables, tenant: string, call: Call): Written {
    if !IsPlatformID(call.id) then Inner(ts, tenant, call)
    else if (call.kind, call.id) !in cat || tenant != SYSTEM then Written(Some(ReadOnly), ts)
    else match call
      case Update(kind, id, row) =>
        if kind.IsMailbox() || !SameConfig(kind, cat[(kind, id)], row.cols) then Written(Some(ReadOnly), ts)
        else WriteShadow(ts, kind, id, row.cols, row.version)
      case UpdateHealth(kind, id, health) =>
        if kind.IsMailbox() then WriteHealth(ts, kind, id, health) else Written(Some(ReadOnly), ts)
      case _ => Written(Some(ReadOnly), ts)
  }

  /** A read through the overlay. Only senders are visible outside the system tenant, without state. */
  function Get(cat: Catalog, ts: Tables, tenant: string, kind: Kind, id: string): Option<Row> {
    if !IsPlatformID(id) then
      if Key(kind, tenant, id) in ts then Some(ts[Key(kind, tenant, id)]) else None
    else if (kind, id) !in cat then None
    else if tenant != SYSTEM then
      if kind.Sender? then Some(Row(TenantView(cat[(kind, id)]), 0)) else None
    else if Key(kind, SYSTEM, id) !in ts then Some(Row(cat[(kind, id)], 0))
    else
      var shadow := ts[Key(kind, SYSTEM, id)];
      Some(Row(Merged(kind, cat[(kind, id)], shadow.cols), shadow.version))
  }

  // ----- the columns, as sets --------------------------------------------------------------------------------

  /** Configuration, state and the shared mark are three separate parts that make up the struct. */
  lemma ColumnsPartition(kind: Kind)
    ensures ConfigOf(kind) !! StateOf(kind) !! {Shared}
    ensures ConfigOf(kind) + StateOf(kind) + {Shared} == StructOf(kind)
  {
    PartsAreDisjoint(kind);
  }

  lemma PartsAreDisjoint(kind: Kind)
    ensures ConfigOf(kind) !! StateOf(kind) && Shared !in ConfigOf(kind) && Shared !in StateOf(kind)
  {
  }

  /** A shadow row holds the state columns and the shared mark, and every configuration column is empty. */
  lemma ShadowIsState(kind: Kind, t: Columns, c: Column)
    ensures Val(ShadowOf(kind, t), c) == if c in StateOf(kind) then Val(t, c) else if c == Shared then TRUE else ZERO
  {
  }

  /** A merge overlays exactly the state columns. */
  lemma MergeOverlaysState(kind: Kind, v: Columns, shadow: Columns, c: Column)
    ensures Val(Merged(kind, v, shadow), c) == if c in StateOf(kind) then Val(shadow, c) else Val(v, c)
  {
  }

  /** The comparison before a state write is about exactly the configuration columns and the mark. */
  lemma SameIsConfig(kind: Kind, v: Columns, t: Columns)
    requires !kind.IsMailbox()
    ensures SameConfig(kind, v, t) <==> Val(t, Shared) == TRUE && forall c | c in ConfigOf(kind) :: Agree(v, t, c)
  {
  }

  /** A sender as another tenant sees it: its configuration, and no state. */
  lemma ViewHidesState(v: Columns, c: Column)
    ensures Val(TenantView(v), c) == if c in StateOf(Sender) then ZERO else Val(v, c)
  {
  }

  // ----- the overlay as the source writes it --------------------------------------------------------------

  datatype Step = Step(tenant: string, call: Call)

  /** The tables after complete calls by any tenants, in order. */
  function After(cat: Catalog, ts: Tables, steps: seq<Step>): Tables {
    if steps == [] then ts
    else Apply(cat, After(cat, ts, steps[..|steps| - 1]), steps[|steps| - 1].tenant, steps[|steps| - 1].call).tables
  }

  /**
  The calls of others that take effect between the store calls of one write: after its read, its create,
  its second read. PlatformConcurrency shows that each call takes effect at once, at one store call.
  */
  datatype Rivals = Rivals(first: seq<Step>, second: seq<Step>, third: seq<Step>)

  /** The tables at the moment a platform write that overlaps with rivals takes effect. */
  function Landing(cat: Catalog, ts: Tables, key: Key, r: Rivals): Tables {
    if key in ts then After(cat, ts, r.third)
    else
      var seen := After(cat, ts, r.first);
      if key !in seen then seen else After(cat, After(cat, seen, r.second), r.third)
  }

  /** A shadow row stays once it is there: no call of the overlay deletes one. */
  lemma {:induction false} ShadowsStay(cat: Catalog, ts: Tables, steps: seq<Step>, key: Key)
    requires key in ts && IsPlatformID(key.id)
    ensures key in After(cat, ts, steps)
  {
    if steps != [] {
      ShadowsStay(cat, ts, steps[..|steps| - 1], key);
    }
  }

  /** The overlay over one database that other callers share. */
  class PlatformStore {
    const cat: Catalog
    var ts: Tables

    constructor (cat: Catalog)
      ensures this.cat == cat && ts == map[]
    {
      this.cat, ts := cat, map[];
    }

    method Below(tenant: string, call: Call) returns (err: Option<Error>)
      modifies this
      ensures Written(err, ts) == Inner(old(ts), tenant, call)
    {
      var w := Inner(ts, tenant, call);
      ts := w.tables;
      return w.err;
    }

    /** Other callers get to run between two store calls. */
    method Yield(rivals: seq<Step>)
      modifies this
      ensures ts == After(cat, old(ts), rivals)
    {
      assert rivals[..0] == [];
      for i := 0 to |rivals|
        invariant ts == After(cat, old(ts), rivals[..i])
      {
        assert rivals[..i + 1][..i] == rivals[..i];
        ts := Apply(cat, ts, rivals[i].tenant, rivals[i].call).tables;
      }
      assert rivals[..|rivals|] == rivals;
    }

    method DoWriteShadow(kind: Kind, id: string, t: Columns, version: nat, r: Rivals) returns (err: Option<Error>)
      requires IsPlatformID(id)
      modifies this
      ensures Written(err, ts) == WriteShadow(Landing(cat, old(ts), Key(kind, SYSTEM, id), r), kind, id, t, version)
    {
      var key := Key(kind, SYSTEM, id);
      if key !in ts {
        Yield(r.first);
        err := Below(SYSTEM, Create(kind, id, Row(ShadowOf(kind, t), 0)));
        if err != Some(Conflict) {
          return;
        }
        ShadowsStay(cat, ts, r.second, key);
        Yield(r.second);
      }
      var cur := ts[key];
      ShadowsStay(cat, ts, r.third, key);
      Yield(r.third);
      cur := Row(ShadowOf(kind, t), cur.version);
      cur := cur.(version := version);
      err := Below(SYSTEM, Update(kind, id, cur));
    }

    /** Update of a platform ID: refused at once, or atomic at one moment between its start and its end. */
    method DoUpdate(tenant: string, kind: Kind, id: string, row: Row, r: Rivals) returns (err: Option<Error>)
      modifies this
      ensures var call := Update(kind, id, row);
              var refused := Apply(cat, old(ts), tenant, call).err == Some(ReadOnly);
              var at := if !IsPlatformID(id) || refused then old(ts)
                        else Landing(cat, old(ts), Key(kind, SYSTEM, id), r);
              Written(err, ts) == Apply(cat, at, tenant, call)
    {
      if !IsPlatformID(id) {
        err := Below(tenant, Update(kind, id, row));
        return;
      }
      if (kind, id) !in cat || tenant != SYSTEM || kind.IsMailbox() {
        return Some(ReadOnly);
      }
      if !SameConfig(kind, cat[(kind, id)], row.cols) {
        return Some(ReadOnly);
      }
      err := DoWriteShadow(kind, id, row.cols, row.version, r);
    }

    /** UpdateHealth, likewise: the row is updated if it is there, and created if it is not. */
    method DoUpdateHealth(tenant: string, kind: Kind, id: string, health: Value, r: Rivals) returns (err: Option<Error>)
      requires kind.IsMailbox()
      modifies this
      ensures var key := Key(kind, SYSTEM, id);
              var at := if !IsPlatformID(id) || (kind, id) !in cat || tenant != SYSTEM || key in old(ts) then old(ts)
                        else Landing(cat, old(ts), key, r.(third := []));
              Written(err, ts) == Apply(cat, at, tenant, UpdateHealth(kind, id, health))
    {
      if !IsPlatformID(id) {
        err := Below(tenant, UpdateHealth(kind, id, health));
        return;
      }
      if (kind, id) !in cat || tenant != SYSTEM {
        return Some(ReadOnly);
      }
      err := Below(SYSTEM, UpdateHealth(kind, id, health));
      if err != Some(NotFound) {
        return;
      }
      Yield(r.first);
      err := Below(SYSTEM, Create(kind, id, HealthRow(health)));
      if err == Some(Conflict) {
        ShadowsStay(cat, ts, r.second, Key(kind, SYSTEM, id));
        Yield(r.second);
        err := Below(SYSTEM, UpdateHealth(kind, id, health));
      }
    }
  }

  // ----- every sequence of calls -------------------------------------------------------------------------------

  /** What the system tenant reads of one column. */
  function ReadOf(cat: Catalog, ts: Tables, kind: Kind, id: string, c: Column): Value
    requires IsPlatformID(id) && (kind, id) in cat
  {
    Val(Get(cat, ts, SYSTEM, kind, id).value.cols, c)
  }

  /** A successful call of the system tenant on one platform entity: a state write. */
  predicate Writes(cat: Catalog, ts: Tables, step: Step, kind: Kind, id: string) {
    step.call.kind == kind && step.call.id == id && Apply(cat, ts, step.tenant, step.call).err.None?
  }

  /** The value the last state write of an entity gave a column, or the one it had when there was none. */
  function LastWritten(cat: Catalog, ts: Tables, steps: seq<Step>, kind: Kind, id: string, c: Column): Value
    requires IsPlatformID(id) && (kind, id) in cat
  {
    if steps == [] then ReadOf(cat, ts, kind, id, c)
    else
      var init, step := steps[..|steps| - 1], steps[|steps| - 1];
      if !Writes(cat, After(cat, ts, init), step, kind, id) then LastWritten(cat, ts, init, kind, id, c)
      else match step.call
        case Update(_, _, row) => Val(row.cols, c)
        case UpdateHealth(_, _, health) => if c == Health then health else ZERO
        case _ => ZERO
  }

  /** A shadow row: marked shared, and every configuration column of its aggregate empty. */
  ghost predicate IsShadow(kind: Kind, row: Row) {
    Val(row.cols, Shared) == TRUE && row.version > 0 && forall c | c in ConfigOf(kind) :: Val(row.cols, c) == ZERO
  }

  ghost predicate OnlyShadows(cat: Catalog, ts: Tables) {
    forall k | k in ts && IsPlatformID(k.id) :: k.tenant == SYSTEM && (k.kind, k.id) in cat && IsShadow(k.kind, ts[k])
  }

  lemma ConfigIsEmpty(kind: Kind, t: Columns, c: Column)
    requires c in ConfigOf(kind)
    ensures Val(ShadowOf(kind, t), c) == ZERO
  {
    PartsAreDisjoint(kind);
    ShadowIsState(kind, t, c);
  }

  lemma ShadowWritten(kind: Kind, t: Columns, version: nat)
    requires version > 0
    ensures IsShadow(kind, Row(ShadowOf(kind, t), version))
  {
    forall c | c in ConfigOf(kind) ensures Val(ShadowOf(kind, t), c) == ZERO {
      ConfigIsEmpty(kind, t, c);
    }
    PartsAreDisjoint(kind);
    ShadowIsState(kind, t, Shared);
  }

  lemma HealthWritten(kind: Kind, row: Row, health: Value)
    requires kind.IsMailbox()
    ensures IsShadow(kind, HealthRow(health).(version := 1))
    ensures IsShadow(kind, row) ==> IsShadow(kind, row.(cols := row.cols[Health := health]))
  {
    PartsAreDisjoint(kind);
    assert Health in StateOf(kind);
  }

  /** The row of a platform entity after one call. */
  lemma RowAfter(cat: Catalog, ts: Tables, step: Step, k: Key)
    requires IsPlatformID(k.id)
    ensures var ts' := Apply(cat, ts, step.tenant, step.call).tables;
            if k.tenant == SYSTEM && Writes(cat, ts, step, k.kind, k.id) then
              && (k.kind, k.id) in cat && k in ts'
              && match step.call
                 case Update(_, _, row) =>
                   && !k.kind.IsMailbox()
                   && ts'[k] == Row(ShadowOf(k.kind, row.cols), if k in ts then row.version + 1 else 1)
                 case UpdateHealth(_, _, h) =>
                   && k.kind.IsMailbox()
                   && ts'[k] == if k in ts then ts[k].(cols := ts[k].cols[Health := h]) else HealthRow(h).(version := 1)
                 case _ => false
            else (k in ts' <==> k in ts) && (k in ts ==> ts'[k] == ts[k])
  {
  }

  lemma OnlyShadowsStep(cat: Catalog, ts: Tables, step: Step)
    requires OnlyShadows(cat, ts)
    ensures OnlyShadows(cat, Apply(cat, ts, step.tenant, step.call).tables)
  {
    var ts' := Apply(cat, ts, step.tenant, step.call).tables;
    forall k | k in ts' && IsPlatformID(k.id)
      ensures k.tenant == SYSTEM && (k.kind, k.id) in cat && IsShadow(k.kind, ts'[k])
    {
      RowAfter(cat, ts, step, k);
      if k.tenant == SYSTEM && Writes(cat, ts, step, k.kind, k.id) {
        match step.call
        case Update(_, _, row) => ShadowWritten(k.kind, row.cols, ts'[k].version);
        case UpdateHealth(_, _, h) => HealthWritten(k.kind, if k in ts then ts[k] else ts'[k], h);
      }
    }
  }

  /**
  From tables in which it is so, a store without platform rows among them, any sequence of calls by any
  tenants leaves every stored row with a platform ID in the system tenant with every configuration column
  of its aggregate empty: no table holds a shared relay's host or password.
  */
  lemma {:induction false} ConfigurationIsNeverStored(cat: Catalog, ts: Tables, steps: seq<Step>)
    requires OnlyShadows(cat, ts)
    ensures OnlyShadows(cat, After(cat, ts, steps))
  {
    if steps != [] {
      ConfigurationIsNeverStored(cat, ts, steps[..|steps| - 1]);
      OnlyShadowsStep(cat, After(cat, ts, steps[..|steps| - 1]), steps[|steps| - 1]);
    }
  }

  /** A read in terms of the shadow row alone. */
  lemma ReadIs(cat: Catalog, ts: Tables, kind: Kind, id: string, c: Column)
    requires IsPlatformID(id) && (kind, id) in cat
    ensures var k := Key(kind, SYSTEM, id);
            ReadOf(cat, ts, kind, id, c) ==
            if k in ts && c in StateOf(kind) then Val(ts[k].cols, c) else Val(cat[(kind, id)], c)
  {
    if Key(kind, SYSTEM, id) in ts {
      MergeOverlaysState(kind, cat[(kind, id)], ts[Key(kind, SYSTEM, id)].cols, c);
    }
  }

  /** One state write of an entity is what is read of its state next; every other call leaves it. */
  lemma StateAfter(cat: Catalog, ts: Tables, step: Step, kind: Kind, id: string, c: Column)
    requires IsPlatformID(id) && (kind, id) in cat && c in StateOf(kind)
    ensures ReadOf(cat, Apply(cat, ts, step.tenant, step.call).tables, kind, id, c) ==
            if !Writes(cat, ts, step, kind, id) then ReadOf(cat, ts, kind, id, c)
            else match step.call
              case Update(_, _, row) => Val(row.cols, c)
              case UpdateHealth(_, _, health) => health
              case _ => ZERO
  {
    var k, ts' := Key(kind, SYSTEM, id), Apply(cat, ts, step.tenant, step.call).tables;
    ColumnsPartition(kind);
    RowAfter(cat, ts, step, k);
    ReadIs(cat, ts, kind, id, c);
    ReadIs(cat, ts', kind, id, c);
    if Writes(cat, ts, step, kind, id) && step.call.Update? {
      ShadowIsState(kind, step.call.row.cols, c);
    }
  }

  lemma {:induction false} StateIsLastWritten(cat: Catalog, ts: Tables, steps: seq<Step>, kind: Kind, id: string,
                                              c: Column)
    requires IsPlatformID(id) && (kind, id) in cat && c in StateOf(kind)
    ensures ReadOf(cat, After(cat, ts, steps), kind, id, c) == LastWritten(cat, ts, steps, kind, id, c)
  {
    ColumnsPartition(kind);
    if steps != [] {
      var init, step := steps[..|steps| - 1], steps[|steps| - 1];
      StateIsLastWritten(cat, ts, init, kind, id, c);
      StateAfter(cat, After(cat, ts, init), step, kind, id, c);
      if Writes(cat, After(cat, ts, init), step, kind, id) {
        RowAfter(cat, After(cat, ts, init), step, Key(kind, SYSTEM, id));
      }
    }
  }

  /** What a tenant that sees an entity may read of a column. */
  function Readable(cat: Catalog, ts: Tables, steps: seq<Step>, tenant: string, kind: Kind, id: string,
                    c: Column): Value
    requires IsPlatformID(id) && (kind, id) in cat
  {
    if c !in StateOf(kind) then Val(cat[(kind, id)], c)
    else if tenant == SYSTEM then LastWritten(cat, ts, steps, kind, id, c)
    else ZERO
  }

  /**
  After any sequence of calls, column by column: the system tenant reads a platform entity's
  configuration from the catalog and its state as last written; another tenant reads a shared sender's
  configuration with no state, and nothing else.
  */
  lemma ReadsMergeConfigAndState(cat: Catalog, ts: Tables, steps: seq<Step>, tenant: string, kind: Kind, id: string,
                                 c: Column)
    requires IsPlatformID(id)
    ensures var r := Get(cat, After(cat, ts, steps), tenant, kind, id);
            && (r.Some? <==> (kind, id) in cat && (tenant == "_system" || kind == Sender))
            && (r.Some? ==> Val(r.value.cols, c) == Readable(cat, ts, steps, tenant, kind, id, c))
            && (r.Some? && tenant != "_system" ==> r.value.version == 0)
  {
    if (kind, id) in cat {
      ReadIs(cat, After(cat, ts, steps), kind, id, c);
      if c in StateOf(kind) {
        StateIsLastWritten(cat, ts, steps, kind, id, c);
      }
      if kind.Sender? {
        ViewHidesState(cat[(kind, id)], c);
      }
    }
  }

  /** A row read by the system tenant carries exactly the catalog's configuration, so it may be written back. */
  lemma ReadIsWritable(cat: Catalog, ts: Tables, kind: Kind, id: string, state: Columns)
    requires IsPlatformID(id) && (kind, id) in cat && !kind.IsMailbox()
    requires state.Keys <= StateOf(kind) && Val(cat[(kind, id)], Shared) == TRUE
    ensures SameConfig(kind, cat[(kind, id)], Get(cat, ts, SYSTEM, kind, id).value.cols + state)
  {
    var v, read := cat[(kind, id)], Get(cat, ts, SYSTEM, kind, id).value.cols;
    ColumnsPartition(kind);
    forall c | c in ConfigOf(kind) ensures Agree(v, read + state, c) {
      ReadIs(cat, ts, kind, id, c);
    }
    ReadIs(cat, ts, kind, id, Shared);
    SameIsConfig(kind, v, read + state);
  }

  /** A write with the version that was read succeeds, and moves the version on. */
  lemma WriteBackSucceeds(cat: Catalog, ts: Tables, kind: Kind, id: string, cols: Columns)
    requires IsPlatformID(id) && (kind, id) in cat && !kind.IsMailbox() && OnlyShadows(cat, ts)
    requires SameConfig(kind, cat[(kind, id)], cols)
    ensures var read := Get(cat, ts, SYSTEM, kind, id).value;
            var w := Apply(cat, ts, SYSTEM, Update(kind, id, Row(cols, read.version)));
            w.err.None? && Get(cat, w.tables, SYSTEM, kind, id).value.version == read.version + 1
  {
  }

  /** A write with another version than the shadow row's is a conflict. */
  lemma StaleWriteConflicts(cat: Catalog, ts: Tables, kind: Kind, id: string, cols: Columns, version: nat)
    requires IsPlatformID(id) && (kind, id) in cat && !kind.IsMailbox() && SameConfig(kind, cat[(kind, id)], cols)
    requires 0 < Get(cat, ts, SYSTEM, kind, id).value.version != version
    ensures Apply(cat, ts, SYSTEM, Update(kind, id, Row(cols, version))).err == Some(Conflict)
  {
  }

  /**
  The system tenant can always write back what it read with any of the state columns changed, and reads
  exactly those columns next; a second writer that read the same row before that write is refused.
  */
  lemma ReadModifyWrite(cat: Catalog, ts: Tables, steps: seq<Step>, kind: Kind, id: string, state: Columns,
                        other: Columns, c: Column)
    requires IsPlatformID(id) && (kind, id) in cat && !kind.IsMailbox() && Val(cat[(kind, id)], Shared) == TRUE
    requires state.Keys <= StateOf(kind) && other.Keys <= StateOf(kind) && OnlyShadows(cat, ts)
    ensures var ts' := After(cat, ts, steps);
            var row := Get(cat, ts', SYSTEM, kind, id).value;
            var w := Apply(cat, ts', SYSTEM, Update(kind, id, Row(row.cols + state, row.version)));
            && w.err.None?
            && ReadOf(cat, w.tables, kind, id, c) == (if c in state then state[c] else ReadOf(cat, ts', kind, id, c))
            && Apply(cat, w.tables, SYSTEM, Update(kind, id, Row(row.cols + other, row.version))).err == Some(Conflict)
  {
    var ts' := After(cat, ts, steps);
    var row := Get(cat, ts', SYSTEM, kind, id).value;
    ConfigurationIsNeverStored(cat, ts, steps);
    ReadIsWritable(cat, ts', kind, id, state);
    ReadIsWritable(cat, ts', kind, id, other);
    WriteBackSucceeds(cat, ts', kind, id, row.cols + state);
    var w := Apply(cat, ts', SYSTEM, Update(kind, id, Row(row.cols + state, row.version)));
    StaleWriteConflicts(cat, w.tables, kind, id, row.cols + other, row.version);
    ReadBack(cat, ts', kind, id, state, c);
  }

  lemma ReadBack(cat: Catalog, ts: Tables, kind: Kind, id: string, state: Columns, c: Column)
    requires IsPlatformID(id) && (kind, id) in cat && state.Keys <= StateOf(kind)
    requires var row := Get(cat, ts, SYSTEM, kind, id).value;
             Apply(cat, ts, SYSTEM, Update(kind, id, Row(row.cols + state, row.version))).err.None?
    ensures var row := Get(cat, ts, SYSTEM, kind, id).value;
            var w := Apply(cat, ts, SYSTEM, Update(kind, id, Row(row.cols + state, row.version)));
            ReadOf(cat, w.tables, kind, id, c) == if c in state then state[c] else ReadOf(cat, ts, kind, id, c)
  {
    var row := Get(cat, ts, SYSTEM, kind, id).value;
    var step := Step(SYSTEM, Update(kind, id, Row(row.cols + state, row.version)));
    if c in StateOf(kind) {
      StateAfter(cat, ts, step, kind, id, c);
    } else {
      ReadIs(cat, ts, kind, id, c);
      ReadIs(cat, Apply(cat, ts, SYSTEM, step.call).tables, kind, id, c);
    }
  }

  // ----- a tenant's own entities --------------------------------------------------------------------------------

  /**
  The overlay is invisible to a tenant's own entities: a call that succeeds is what its tenant reads next,
  and no call changes what another tenant, or of another entity, is read.
  */
  lemma OwnEntitiesPassThrough(cat: Catalog, ts: Tables, step: Step, reader: string, kind: Kind, id: string)
    requires !IsPlatformID(id)
    ensures var w := Apply(cat, ts, step.tenant, step.call);
            var was, now := Get(cat, ts, reader, kind, id), Get(cat, w.tables, reader, kind, id);
            if w.err.Some? || reader != step.tenant || kind != step.call.kind || id != step.call.id then now == was
            else match step.call
              case Create(_, _, row) => was.None? && now == Some(Row(row.cols, 1))
              case Update(_, _, row) => was.Some? && now == Some(Row(row.cols, row.version + 1))
              case UpdateHealth(_, _, h) =>
                was.Some? && now == Some(Row(was.value.cols[Health := h], was.value.version))
              case Delete(_, _) => was.Some? && now.None?
  {
  }

  /** And it is refused exactly when the entity is there already, is not there, or was written since it was read. */
  lemma OwnEntitiesRefused(cat: Catalog, ts: Tables, step: Step)
    requires !IsPlatformID(step.call.id)
    ensures var was := Get(cat, ts, step.tenant, step.call.kind, step.call.id);
            Apply(cat, ts, step.tenant, step.call).err ==
            match step.call
              case Create(_, _, _) => if was.Some? then Some(Conflict) else None
              case Update(_, _, row) =>
                if was.None? then Some(NotFound) else if was.value.version != row.version then Some(Conflict) else None
              case _ => if was.None? then Some(NotFound) else None
  {
  }

  // ----- non-interference -------------------------------------------------------------------------------------

  /** The system tenant's own calls among the steps. */
  function BySystem(steps: seq<Step>): seq<Step> {
    if steps == [] then []
    else
      var init, step := steps[..|steps| - 1], steps[|steps| - 1];
      BySystem(init) + if step.tenant == SYSTEM then [step] else []
  }

  ghost predicate SameRow(a: Tables, b: Tables, k: Key) {
    (k in a <==> k in b) && (k in a ==> a[k] == b[k])
  }

  /** The same shadow rows. */
  ghost predicate SamePlatform(a: Tables, b: Tables) {
    forall k: Key | IsPlatformID(k.id) && k.tenant == SYSTEM :: SameRow(a, b, k)
  }

  /** A call of the system tenant does the same to the shadow rows whatever else the tables hold. */
  lemma SameAfter(cat: Catalog, a: Tables, b: Tables, step: Step)
    requires SamePlatform(a, b) && step.tenant == SYSTEM
    ensures SamePlatform(Apply(cat, a, step.tenant, step.call).tables, Apply(cat, b, step.tenant, step.call).tables)
  {
    forall k: Key | IsPlatformID(k.id) && k.tenant == SYSTEM
      ensures SameRow(Apply(cat, a, step.tenant, step.call).tables, Apply(cat, b, step.tenant, step.call).tables, k)
    {
      assert SameRow(a, b, k);
      RowAfter(cat, a, step, k);
      RowAfter(cat, b, step, k);
      if step.call.kind == k.kind && step.call.id == k.id {
        SameAnswer(cat, a, b, step, k);
      }
    }
  }

  lemma SameAnswer(cat: Catalog, a: Tables, b: Tables, step: Step, k: Key)
    requires IsPlatformID(k.id) && k == Key(step.call.kind, SYSTEM, step.call.id) && SameRow(a, b, k)
    ensures Apply(cat, a, step.tenant, step.call).err == Apply(cat, b, step.tenant, step.call).err
  {
  }

  /** A call of another tenant leaves every shadow row alone. */
  lemma OthersLeaveShadows(cat: Catalog, ts: Tables, step: Step)
    requires step.tenant != SYSTEM
    ensures SamePlatform(Apply(cat, ts, step.tenant, step.call).tables, ts)
  {
    forall k: Key | IsPlatformID(k.id) && k.tenant == SYSTEM
      ensures SameRow(Apply(cat, ts, step.tenant, step.call).tables, ts, k)
    {
      RowAfter(cat, ts, step, k);
    }
  }

  lemma SameTwice(a: Tables, b: Tables, c: Tables)
    requires SamePlatform(a, b) && SamePlatform(b, c)
    ensures SamePlatform(a, c)
  {
    forall k: Key | IsPlatformID(k.id) && k.tenant == SYSTEM ensures SameRow(a, c, k) {
      assert SameRow(a, b, k) && SameRow(b, c, k);
    }
  }

  lemma {:induction false} SystemStepsDecide(cat: Catalog, ts: Tables, steps: seq<Step>)
    ensures SamePlatform(After(cat, ts, steps), After(cat, ts, BySystem(steps)))
  {
    if steps != [] {
      var init, step := steps[..|steps| - 1], steps[|steps| - 1];
      SystemStepsDecide(cat, ts, init);
      if step.tenant == SYSTEM {
        assert (BySystem(init) + [step])[..|BySystem(init)|] == BySystem(init);
        SameAfter(cat, After(cat, ts, init), After(cat, ts, BySystem(init)), step);
      } else {
        assert BySystem(init) + [] == BySystem(init);
        OthersLeaveShadows(cat, After(cat, ts, init), step);
        SameTwice(After(cat, ts, steps), After(cat, ts, init), After(cat, ts, BySystem(init)));
      }
    }
  }

  /**
  Non-interference: what any tenant reads of any platform entity after any calls is what it reads
  after the system tenant's calls alone.
  */
  lemma TenantsCannotInterfere(cat: Catalog, ts: Tables, steps: seq<Step>, reader: string, kind: Kind, id: string)
    requires IsPlatformID(id)
    ensures Get(cat, After(cat, ts, steps), reader, kind, id) ==
            Get(cat, After(cat, ts, BySystem(steps)), reader, kind, id)
  {
    SystemStepsDecide(cat, ts, steps);
    assert SameRow(After(cat, ts, steps), After(cat, ts, BySystem(steps)), Key(kind, SYSTEM, id));
  }
}
