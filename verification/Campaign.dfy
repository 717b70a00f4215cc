/**
The campaign lifecycle of internal/control: the calls of campaign.go, the scheduler and finalizer of
campaign_loops.go, and UpdateCampaign of internal/api/campaigns.go. Each reads the campaign row,
decides, and commits by a versioned Update (store/doc.go:35-37), so any number of them may run at once.

`Plan` is the decision of one call. `CampaignRepo` and the methods over it are the calls as the
source writes them. `Next` is one step of any number of concurrent callers, each holding the copy of
the row it read; the theorems are about every run of it.
*/
module CampaignControl {
  import opened Wrappers

  datatype Status = Draft | Scheduled | Running | Paused | Completed | Cancelled

  /** A time.Time; the zero time is a NULL column. */
  datatype Time = Zero | At(t: int) {
    predicate After(now: int) {
      At? && t > now
    }
  }

  /** The campaign row. `stats` stands for the cached aggregate, which no decision reads. */
  datatype Campaign = Campaign(
    templateID: string, versionID: string, senderID: string, status: Status,
    scheduleAt: Time, startedAt: Time, completedAt: Time, stats: int, version: nat)

  datatype Error = InvalidTransition | NoVersion | NoSender | NoRecipients | StoreFailed | Conflict | NotEnqueued

  datatype Lookup = Found | Missing | Failed

  /** What UpdateCampaign sets, once validated, and the version the client says it edits. */
  datatype Edits = Edits(templateID: string, versionID: string, senderID: string, scheduleAt: Time, claimed: nat)

  /**
  One call, with what it reads of other tables along the way: the sender, how many deliveries there are
  and how many are in flight, the version the template has published ("" when the template is missing or
  was never published), how many deliveries a retry requeued. A read that fails is None.
  */
  datatype Call =
    | Start(at: Time, sender: Lookup, recipients: Option<nat>, published: Option<string>)
    | Pause
    | Resume
    | Cancel
    | Retry(moved: nat)
    | Promote(published: Option<string>)
    | Finalize(total: nat, inflight: nat, stats: int)
    | Edit(edits: Edits)

  datatype Decision = Refuse(error: Error) | Nothing | Write(row: Campaign)

  function ResolveVersion(c: Campaign, published: Option<string>): Decision {
    if c.versionID != "" then Write(c)
    else if c.templateID == "" then Refuse(NoVersion)
    else match published
      case None => Refuse(StoreFailed)
      case Some(v) => if v == "" then Refuse(NoVersion) else Write(c.(versionID := v))
  }

  predicate Editable(c: Campaign) {
    c.status.Draft? || c.status.Scheduled?
  }

  /** What a call that has read the row c at time now asks Update to write. */
  function Plan(call: Call, c: Campaign, now: int): Decision {
    match call
    case Start(at, sender, recipients, published) =>
      if c.status != Draft then Refuse(InvalidTransition)
      else if c.versionID == "" && c.templateID == "" then Refuse(NoVersion)
      else if c.senderID == "" || sender.Missing? then Refuse(NoSender)
      else if sender.Failed? || recipients.None? then Refuse(StoreFailed)
      else if recipients.value == 0 then Refuse(NoRecipients)
      else if at.After(now) then Write(c.(status := Scheduled, scheduleAt := at))
      else
        var d := ResolveVersion(c, published);
        if d.Write? then Write(d.row.(status := Running, startedAt := At(now))) else d
    case Pause =>
      if c.status != Running then Refuse(InvalidTransition) else Write(c.(status := Paused))
    case Resume =>
      if c.status != Paused then Refuse(InvalidTransition)
      else Write(c.(status := Running, startedAt := StartedBy(c, now)))
    case Cancel =>
      if c.status.Completed? || c.status.Cancelled? then Refuse(InvalidTransition)
      else Write(c.(status := Cancelled, completedAt := At(now)))
    case Retry(moved) =>
      if !(c.status.Running? || c.status.Paused? || c.status.Completed?) then Refuse(InvalidTransition)
      else if moved == 0 || c.status != Completed then Nothing
      else Write(c.(status := Running, completedAt := Zero))
    case Promote(published) =>
      if c.status != Scheduled || c.scheduleAt.After(now) then Nothing
      else
        var d := ResolveVersion(c, published);
        if d.Write? then Write(d.row.(status := Running, startedAt := StartedBy(c, now))) else Nothing
    case Finalize(total, inflight, stats) =>
      if c.status != Running || total == 0 || inflight > 0 then Nothing
      else Write(c.(stats := stats, status := Completed, completedAt := At(now)))
    case Edit(e) =>
      // the row just read, with the client's version number in place of its own
      if !Editable(c) then Refuse(InvalidTransition)
      else Write(c.(templateID := e.templateID, versionID := e.versionID, senderID := e.senderID,
                    scheduleAt := e.scheduleAt, version := e.claimed))
  }

  function StartedBy(c: Campaign, now: int): Time {
    if c.startedAt.Zero? then At(now) else c.startedAt
  }

  /** CampaignRepo.Update: the version the caller read must still be the row's. */
  function Update(row: Campaign, written: Campaign): Option<Campaign> {
    if written.version == row.version then Some(written.(version := row.version + 1)) else None
  }

  /** An outbox event: its type, and what its payload says of the campaign. */
  datatype Event = Event(typ: string, status: Status, versionID: string, senderID: string, at: int)

  function EventOf(typ: string, c: Campaign, now: int): Event {
    Event(typ, c.status, c.versionID, c.senderID, now)
  }

  /** The event a call announces after its commit; a resumed or retried campaign is started again. */
  function Announced(call: Call, written: Campaign, now: int): seq<Event> {
    match call
    case Start(_, _, _, _) => if written.status.Running? then [EventOf("campaign.started", written, now)] else []
    case Pause => [EventOf("campaign.paused", written, now)]
    case Cancel => [EventOf("campaign.cancelled", written, now)]
    case Finalize(_, _, _) => [EventOf("campaign.completed", written, now)]
    case Edit(_) => []
    case _ => [EventOf("campaign.started", written, now)]
  }

  /** The scheduler and the finalizer, of the leader's loops. */
  predicate IsLoop(call: Call) {
    call.Promote? || call.Finalize?
  }

  /** A write that is answered, one that is never executed, and one executed with an error for an answer. */
  datatype Answer = Answered | NotExecuted | Unanswered

  /** How the store serves a call: whether the campaign can be read, the Update, and the outbox. */
  datatype Env = Env(readable: bool, update: Answer, enqueues: bool)

  /** The row after an Update and what its caller is told. */
  function Stored(row: Campaign, c: Campaign, answer: Answer): (Campaign, Option<Error>) {
    if answer.NotExecuted? then (row, Some(StoreFailed))
    else
      var updated := Update(row, c);
      (if updated.Some? then updated.value else row,
       if answer.Unanswered? then Some(StoreFailed) else if updated.Some? then None else Some(Conflict))
  }

  /** The row, the outbox and the error of a finished call. */
  datatype Result = Result(row: Campaign, outbox: seq<Event>, err: Option<Error>)

  /** The leader's loops only log a lost race and an event that could not be enqueued. */
  function Told(call: Call, err: Option<Error>): Option<Error> {
    if IsLoop(call) && (err == Some(Conflict) || err == Some(NotEnqueued)) then None else err
  }

  /**
  A call nothing interleaved with: what it planned from the row is what the row became, and only then
  its event is in the outbox, if the outbox took it.
  */
  function Done(call: Call, now: int, env: Env, row: Campaign, outbox: seq<Event>): Result {
    if !env.readable then Result(row, outbox, Some(StoreFailed))
    else match Plan(call, row, now)
      case Refuse(e) => Result(row, outbox, Some(e))
      case Nothing => Result(row, outbox, None)
      case Write(c) =>
        var (updated, err) := Stored(row, c, env.update);
        var events := Announced(call, c, now);
        if err.Some? then Result(updated, outbox, Told(call, err))
        else if env.enqueues || events == [] then Result(updated, outbox + events, None)
        else Result(updated, outbox, Told(call, Some(NotEnqueued)))
  }

  // ----- the calls as the source writes them -----------------------------------------------------

  class CampaignRepo {
    var row: Campaign
    var outbox: seq<Event>

    constructor (row: Campaign)
      ensures this.row == row && outbox == []
    {
      this.row, outbox := row, [];
    }

    method Commit(c: Campaign, answer: Answer) returns (err: Option<Error>)
      modifies this`row
      ensures (row, err) == Stored(old(row), c, answer)
    {
      if answer.NotExecuted? {
        return Some(StoreFailed);
      }
      err := None;
      if c.version != row.version {
        err := Some(Conflict);
      } else {
        row := c.(version := row.version + 1);
      }
      if answer.Unanswered? {
        err := Some(StoreFailed);
      }
    }

    /** Update, and enqueueCampaignEvent only after it. */
    method CommitAndTell(c: Campaign, typ: string, now: int, env: Env) returns (err: Option<Error>)
      modifies this
      ensures var (updated, failed) := Stored(old(row), c, env.update);
              && row == updated
              && outbox == (if failed.None? && env.enqueues then old(outbox) + [EventOf(typ, c, now)] else old(outbox))
              && err == if failed.Some? then failed else if env.enqueues then None else Some(NotEnqueued)
    {
      err := Commit(c, env.update);
      if err.Some? {
        return;
      }
      if !env.enqueues {
        return Some(NotEnqueued);
      }
      outbox := outbox + [EventOf(typ, c, now)];
    }

    method StartCampaign(at: Time, now: int, sender: Lookup, recipients: Option<nat>, published: Option<string>,
                         env: Env) returns (err: Option<Error>)
      modifies this
      ensures Result(row, outbox, err)
           == Done(Start(at, sender, recipients, published), now, env, old(row), old(outbox))
    {
      if !env.readable {
        return Some(StoreFailed);
      }
      var cam := row;
      if cam.status != Draft {
        return Some(InvalidTransition);
      }
      if cam.versionID == "" && cam.templateID == "" {
        return Some(NoVersion);
      }
      if cam.senderID == "" {
        return Some(NoSender);
      }
      if sender != Found {
        return Some(if sender.Missing? then NoSender else StoreFailed);
      }
      if recipients.None? {
        return Some(StoreFailed);
      }
      if recipients.value == 0 {
        return Some(NoRecipients);
      }
      if at.After(now) {
        err := Commit(cam.(status := Scheduled, scheduleAt := at), env.update);
        return;
      }
      if cam.versionID == "" {
        if published.None? {
          return Some(StoreFailed);
        }
        if published.value == "" {
          return Some(NoVersion);
        }
        cam := cam.(versionID := published.value);
      }
      cam := cam.(status := Running);
      cam := cam.(startedAt := At(now));
      err := CommitAndTell(cam, "campaign.started", now, env);
    }

    method PauseCampaign(now: int, env: Env) returns (err: Option<Error>)
      modifies this
      ensures Result(row, outbox, err) == Done(Pause, now, env, old(row), old(outbox))
    {
      if !env.readable {
        return Some(StoreFailed);
      }
      var cam := row;
      if cam.status != Running {
        return Some(InvalidTransition);
      }
      err := CommitAndTell(cam.(status := Paused), "campaign.paused", now, env);
    }

    method ResumeCampaign(now: int, env: Env) returns (err: Option<Error>)
      modifies this
      ensures Result(row, outbox, err) == Done(Resume, now, env, old(row), old(outbox))
    {
      if !env.readable {
        return Some(StoreFailed);
      }
      var cam := row;
      if cam.status != Paused {
        return Some(InvalidTransition);
      }
      cam := cam.(status := Running);
      if cam.startedAt.Zero? {
        cam := cam.(startedAt := At(now));
      }
      err := CommitAndTell(cam, "campaign.started", now, env);
    }

    method CancelCampaign(now: int, env: Env) returns (err: Option<Error>)
      modifies this
      ensures Result(row, outbox, err) == Done(Cancel, now, env, old(row), old(outbox))
    {
      if !env.readable {
        return Some(StoreFailed);
      }
      var cam := row;
      match cam.status {
        case Completed => return Some(InvalidTransition);
        case Cancelled => return Some(InvalidTransition);
        case _ =>
      }
      err := CommitAndTell(cam.(status := Cancelled, completedAt := At(now)), "campaign.cancelled", now, env);
    }

    /** RetryCampaign after its chunk loop, which requeued `moved` deliveries (module ChunkedUpdates). */
    method FinishRetry(moved: nat, now: int, env: Env) returns (err: Option<Error>)
      modifies this
      ensures Result(row, outbox, err) == Done(Retry(moved), now, env, old(row), old(outbox))
    {
      if !env.readable {
        return Some(StoreFailed);
      }
      var cam := row;
      if !(cam.status.Running? || cam.status.Paused? || cam.status.Completed?) {
        return Some(InvalidTransition);
      }
      if moved == 0 || cam.status != Completed {
        return None;
      }
      err := CommitAndTell(cam.(status := Running, completedAt := Zero), "campaign.started", now, env);
    }

    /** scheduler.Tick on this campaign. */
    method Schedule(published: Option<string>, now: int, env: Env) returns (err: Option<Error>)
      modifies this
      ensures Result(row, outbox, err) == Done(Promote(published), now, env, old(row), old(outbox))
    {
      if !env.readable {
        return Some(StoreFailed);
      }
      var cam := row;
      if cam.status != Scheduled || cam.scheduleAt.After(now) {
        return None;
      }
      if cam.versionID == "" {
        if cam.templateID == "" || published.None? || published.value == "" {
          return None;
        }
        cam := cam.(versionID := published.value);
      }
      cam := cam.(status := Running);
      if cam.startedAt.Zero? {
        cam := cam.(startedAt := At(now));
      }
      err := CommitAndTell(cam, "campaign.started", now, env);
      if err == Some(Conflict) || err == Some(NotEnqueued) {
        return None;
      }
    }

    /**
    finalizer.tickRunning on this campaign, which counts the deliveries, all and in flight. The statistics
    of a running campaign are refreshed first, outside optimistic concurrency, whether or not it is done.
    */
    method Complete(counts: Option<(nat, nat)>, stats: int, refresh: Answer, now: int, env: Env)
      returns (err: Option<Error>)
      modifies this
      ensures var running := env.readable && old(row).status.Running?;
              var refreshed :=
                if running && counts.Some? && !refresh.NotExecuted? then old(row).(stats := stats) else old(row);
              Result(row, outbox, err) ==
              if running && (counts.None? || !refresh.Answered?)
              then Result(refreshed, old(outbox), Some(StoreFailed))
              else
                var (total, inflight) := if counts.Some? then counts.value else (0, 0);
                Done(Finalize(total, inflight, stats), now, env, refreshed, old(outbox))
    {
      if !env.readable {
        return Some(StoreFailed);
      }
      var cam := row;
      if cam.status != Running {
        return None;
      }
      if counts.None? {
        return Some(StoreFailed);
      }
      if !refresh.NotExecuted? {
        row := row.(stats := stats);
      }
      if !refresh.Answered? {
        return Some(StoreFailed);
      }
      var (total, inflight) := counts.value;
      if total == 0 || inflight > 0 {
        return None;
      }
      cam := cam.(stats := stats, status := Completed, completedAt := At(now));
      err := CommitAndTell(cam, "campaign.completed", now, env);
      if err == Some(Conflict) || err == Some(NotEnqueued) {
        return None;
      }
    }

    method UpdateCampaign(e: Edits, now: int, env: Env) returns (err: Option<Error>)
      modifies this
      ensures Result(row, outbox, err) == Done(Edit(e), now, env, old(row), old(outbox))
    {
      if !env.readable {
        return Some(StoreFailed);
      }
      var cam := row;
      if !Editable(cam) {
        return Some(InvalidTransition);
      }
      cam := cam.(templateID := e.templateID, versionID := e.versionID);
      cam := cam.(senderID := e.senderID, scheduleAt := e.scheduleAt);
      cam := cam.(version := e.claimed);
      err := Commit(cam, env.update);
    }
  }

  // ----- every interleaving ------------------------------------------------------------------------

  datatype Committed = Committed(call: Call, now: int)

  /** The stored row, the copy each caller in progress read, and the commits so far, oldest first. */
  datatype World = World(row: Campaign, held: map<nat, Campaign>, log: seq<Committed>)

  datatype Step =
    | Read(caller: nat)
    | Finish(caller: nat, call: Call, now: int)
    | RefreshStats(stats: int)

  /** Finish decides from the copy the caller holds, and commits it if no one committed since. */
  ghost predicate Next(w: World, w': World, step: Step) {
    match step
    case Read(caller) => w' == w.(held := w.held[caller := w.row])
    case RefreshStats(stats) => w' == w.(row := w.row.(stats := stats))
    case Finish(caller, call, now) =>
      && caller in w.held
      && var d := Plan(call, w.held[caller], now);
         var rest := w.(held := w.held - {caller});
         if d.Write? && Update(w.row, d.row).Some? then
           w' == rest.(row := Update(w.row, d.row).value, log := w.log + [Committed(call, now)])
         else w' == rest
  }

  /** A client edits the version it was shown before, so it claims none later than the row just read. */
  ghost predicate Honest(w: World, step: Step) {
    step.Finish? && step.caller in w.held && step.call.Edit? ==> step.call.edits.claimed <= w.held[step.caller].version
  }

  /** A step commits its call. */
  ghost predicate Commits(w: World, step: Step) {
    && step.Finish? && step.caller in w.held
    && var d := Plan(step.call, w.held[step.caller], step.now); d.Write? && d.row.version == w.row.version
  }

  /** An edit that commits claims the version of the row it read. */
  ghost predicate Faithful(w: World, step: Step) {
    Commits(w, step) && step.call.Edit? ==> step.call.edits.claimed == w.held[step.caller].version
  }

  ghost predicate Created(c: Campaign) {
    c.status == Draft && c.startedAt.Zero? && c.completedAt.Zero?
  }

  /** A run of any callers, whatever version numbers the clients send. */
  ghost predicate AnyRun(tr: seq<World>, steps: seq<Step>) {
    && |tr| == |steps| + 1
    && Created(tr[0].row) && tr[0].held == map[] && tr[0].log == []
    && forall i | 0 <= i < |steps| :: Next(tr[i], tr[i + 1], steps[i])
  }

  ghost predicate Run(tr: seq<World>, steps: seq<Step>) {
    AnyRun(tr, steps) && forall i | 0 <= i < |steps| :: Faithful(tr[i], steps[i])
  }

  /** The row without the statistics cache, which is written outside optimistic concurrency. */
  function Core(c: Campaign): Campaign {
    c.(stats := 0)
  }

  /** What an edge leaves alone: the message and the schedule. */
  ghost predicate SameMessage(a: Campaign, b: Campaign) {
    && b.templateID == a.templateID && b.senderID == a.senderID && b.versionID == a.versionID
    && b.scheduleAt == a.scheduleAt
  }

  /**
  Binding at start: a campaign that names a version keeps it, one that names a template gets the version
  published at that moment, and there has to be one.
  */
  ghost predicate Bound(published: Option<string>, a: Campaign, b: Campaign) {
    && b.templateID == a.templateID && b.senderID == a.senderID && b.scheduleAt == a.scheduleAt
    && b.versionID != ""
    && (a.versionID == "" ==> a.templateID != "" && published == Some(b.versionID))
    && (a.versionID != "" ==> b.versionID == a.versionID)
  }

  /** A first start is recorded, and a later one does not move it. */
  ghost predicate StartRecorded(now: int, a: Campaign, b: Campaign) {
    b.startedAt.At? && (a.startedAt.At? ==> b.startedAt == a.startedAt) && (a.startedAt.Zero? ==> b.startedAt.t == now)
  }

  /**
  The campaign graph, each edge labelled by the calls that may take it and when: which statuses it
  joins, that a scheduled campaign starts no earlier than its schedule and a running one completes
  only with work done and none in flight, the version a start binds, and the time each edge records.
  Every other column stays, the statistics cache aside. An edit stays where it is.
  */
  ghost predicate Edge(call: Call, now: int, a: Campaign, b: Campaign) {
    match call
    case Start(at, sender, recipients, published) =>
      && a.status.Draft? && a.senderID != "" && sender.Found? && recipients.Some? && recipients.value > 0
      && b.completedAt == a.completedAt
      && if at.At? && at.t > now then
           && (a.versionID != "" || a.templateID != "")
           && b.status.Scheduled? && b.scheduleAt == at && b.startedAt == a.startedAt
           && SameMessage(a, b.(scheduleAt := a.scheduleAt))
         else b.status.Running? && b.startedAt == At(now) && Bound(published, a, b)
    case Pause =>
      a.status.Running? && b.status.Paused? && SameMessage(a, b) && b.startedAt == a.startedAt
      && b.completedAt == a.completedAt
    case Resume =>
      a.status.Paused? && b.status.Running? && SameMessage(a, b) && StartRecorded(now, a, b)
      && b.completedAt == a.completedAt
    case Cancel =>
      (a.status.Draft? || a.status.Scheduled? || a.status.Running? || a.status.Paused?)
      && b.status.Cancelled? && b.completedAt == At(now) && SameMessage(a, b) && b.startedAt == a.startedAt
    case Retry(moved) =>
      moved > 0 && a.status.Completed? && b.status.Running? && SameMessage(a, b) && b.startedAt == a.startedAt
      && b.completedAt.Zero?
    case Promote(published) =>
      a.status.Scheduled? && (a.scheduleAt.At? ==> a.scheduleAt.t <= now) && b.status.Running?
      && Bound(published, a, b) && StartRecorded(now, a, b) && b.completedAt == a.completedAt
    case Finalize(total, inflight, stats) =>
      total > 0 && inflight == 0 && a.status.Running? && b.status.Completed? && b.completedAt == At(now)
      && b.stats == stats && SameMessage(a, b) && b.startedAt == a.startedAt
    case Edit(e) =>
      && (a.status.Draft? || a.status.Scheduled?) && b.status == a.status
      && b.startedAt == a.startedAt && b.completedAt == a.completedAt
      && b.templateID == e.templateID && b.versionID == e.versionID && b.senderID == e.senderID
      && b.scheduleAt == e.scheduleAt
  }

  /** The row invariant: which of the lifecycle columns are set in which status. */
  ghost predicate WellFormed(c: Campaign) {
    && (c.completedAt.At? <==> c.status.Completed? || c.status.Cancelled?)
    && (c.status.Running? || c.status.Paused? || c.status.Completed? ==> c.versionID != "" && c.startedAt.At?)
    && (Editable(c) ==> c.startedAt.Zero?)
  }

  /**
  What is settled once a campaign is no longer draft or scheduled: that it is not, its template, sender
  and version; and a start time once it has one.
  */
  ghost predicate Pinned(a: Campaign, b: Campaign) {
    && (!Editable(a) ==>
          !Editable(b) && b.templateID == a.templateID && b.senderID == a.senderID && b.versionID == a.versionID)
    && (a.startedAt.At? ==> b.startedAt == a.startedAt)
  }

  /** The commits, applied one at a time to the row, each to the row the one before it left. */
  function Replay(c: Campaign, log: seq<Committed>): Campaign {
    if log == [] then c
    else
      var before, last := Replay(c, log[..|log| - 1]), log[|log| - 1];
      var d := Plan(last.call, before, last.now);
      if d.Write? then Core(d.row).(version := before.version + 1) else before
  }

  /** A caller's copy is the row itself, statistics aside, unless someone has committed since. */
  ghost predicate Inv(first: Campaign, w: World) {
    && WellFormed(w.row)
    && Core(w.row) == Replay(Core(first), w.log)
    && w.row.version == first.version + |w.log|
    && forall k | k in w.held ::
         && WellFormed(w.held[k]) && w.held[k].version <= w.row.version
         && (w.held[k].version == w.row.version ==> Core(w.held[k]) == Core(w.row))
  }

  lemma PlanIgnoresStats(call: Call, a: Campaign, b: Campaign, now: int)
    requires Core(a) == Core(b)
    ensures match Plan(call, a, now)
            case Write(c) => Plan(call, b, now).Write? && Core(Plan(call, b, now).row) == Core(c)
            case d => Plan(call, b, now) == d
  {
  }

  /** What one call may do to the row it read. */
  lemma PlannedWrite(call: Call, c: Campaign, now: int)
    requires WellFormed(c) && Plan(call, c, now).Write?
    ensures var p := Plan(call, c, now).row;
            && p.version == (if call.Edit? then call.edits.claimed else c.version)
            && Edge(call, now, c, p) && WellFormed(p) && Pinned(c, p)
  {
  }

  /**
  A call writes exactly when the graph has an edge for it from the row it read, and then the edge leaves
  nothing open: the row it leads to is the one written, but for version number and statistics, which
  only completion sets.
  */
  lemma WritesIffEdge(call: Call, c: Campaign, now: int, b: Campaign)
    ensures Edge(call, now, c, b) <==>
            && Plan(call, c, now).Write? && Core(b.(version := 0)) == Core(Plan(call, c, now).row.(version := 0))
            && (call.Finalize? ==> b.stats == call.stats)
    ensures Plan(call, c, now).Write? && !call.Finalize? ==> Plan(call, c, now).row.stats == c.stats
  {
  }

  /**
  Why a start is refused: the first that applies of an invalid transition, no version to send, no
  sender, a failing read of sender or recipients, no recipients; and, for a start at once, a failing
  read of the template, or nothing published.
  */
  lemma StartRefusedBecause(call: Call, c: Campaign, now: int)
    requires call.Start? && c.status.Draft?
    ensures var d := Plan(call, c, now);
            var named := c.versionID != "" || c.templateID != "";
            var ready := named && c.senderID != "" && call.sender.Found? && call.recipients.Some?;
            var binding := c.versionID == "" && !(call.at.At? && call.at.t > now);
            && (d == Refuse(NoSender) <==> named && (c.senderID == "" || call.sender.Missing?))
            && (d == Refuse(NoRecipients) <==> ready && call.recipients.value == 0)
            && (d == Refuse(NoVersion) <==>
                  !named || (ready && call.recipients.value > 0 && binding && call.published == Some("")))
            && (d == Refuse(StoreFailed) <==>
                  || (named && c.senderID != "" && call.sender.Failed?)
                  || (named && c.senderID != "" && call.sender.Found? && call.recipients.None?)
                  || (ready && call.recipients.value > 0 && binding && call.published.None?))
            && (d.Refuse? ==> d.error in {NoSender, NoRecipients, NoVersion, StoreFailed}) && !d.Nothing?
  {
  }

  /**
  The other calls are refused for nothing but an invalid transition; a retry for a campaign that has
  nothing to retry or is cancelled. The loops leave a campaign they cannot move, and so does a retry
  that requeued nothing or finds the campaign under way.
  */
  lemma OthersRefusedBecause(call: Call, c: Campaign, now: int)
    requires !call.Start?
    ensures var d := Plan(call, c, now);
            && (d.Refuse? ==> d.error == InvalidTransition && !IsLoop(call))
            && (call.Retry? ==> (d.Refuse? <==> c.status in {Draft, Scheduled, Cancelled}))
            && (d.Nothing? ==> call.Retry? || IsLoop(call))
            && (call.Retry? && d.Nothing? ==> call.moved == 0 || c.status in {Running, Paused})
  {
  }

  /** The event that goes with a status; a draft or scheduled campaign has none. */
  const EVENT_OF := map[Running := "campaign.started", Paused := "campaign.paused", Completed := "campaign.completed",
                        Cancelled := "campaign.cancelled"]

  /** What a call announces is told by the status it wrote: a resumed or retried campaign is started again. */
  lemma AnnouncedIsTheStatus(call: Call, c: Campaign, now: int)
    requires Plan(call, c, now).Write?
    ensures var p := Plan(call, c, now).row;
            Announced(call, p, now) ==
            if p.status in EVENT_OF then [Event(EVENT_OF[p.status], p.status, p.versionID, p.senderID, now)] else []
  {
  }

  /**
  What a finished call leaves, however the store served it: the row changed along an edge with its
  version moved on, or not at all; an event in the outbox only for such a change, of the status it
  changed to; and no error only when the change is there and told, or the call had nothing to do.
  */
  lemma DoneTells(call: Call, now: int, env: Env, row: Campaign, outbox: seq<Event>)
    ensures var r := Done(call, now, env, row, outbox);
            var moved := r.row != row;
            && (moved ==> Edge(call, now, row, r.row) && r.row.version == row.version + 1)
            && (r.outbox == outbox || (&& moved && r.row.status in EVENT_OF
                 && r.outbox == outbox +
                      [Event(EVENT_OF[r.row.status], r.row.status, r.row.versionID, r.row.senderID, now)]))
            && (moved <==> && env.readable && !env.update.NotExecuted? && Plan(call, row, now).Write?
                           && (call.Edit? ==> call.edits.claimed == row.version))
            && (r.outbox != outbox <==>
                  moved && env.update.Answered? && env.enqueues && r.row.status in EVENT_OF)
            && (r.err.None? <==>
                  && env.readable && !Plan(call, row, now).Refuse?
                  && (Plan(call, row, now).Write? ==>
                        && env.update.Answered? && (call.Edit? ==> moved)
                        && (env.enqueues || IsLoop(call) || r.row.status !in EVENT_OF)))
  {
    if Plan(call, row, now).Write? {
      WritesIffEdge(call, row, now, Plan(call, row, now).row);
      AnnouncedIsTheStatus(call, row, now);
    }
  }

  /** Which error a finished call reports. */
  lemma DoneErrors(call: Call, now: int, env: Env, row: Campaign, outbox: seq<Event>)
    ensures var err, d := Done(call, now, env, row, outbox).err, Plan(call, row, now);
            var writes, stale := env.readable && d.Write?, call.Edit? && call.edits.claimed != row.version;
            && (env.readable && d.Refuse? ==> err == Some(d.error))
            && (err == Some(StoreFailed) <==>
                  !env.readable || d == Refuse(StoreFailed) || (writes && env.update != Answered))
            && (err == Some(Conflict) <==> writes && env.update == Answered && stale)
            && (err == Some(NotEnqueued) <==>
                  && writes && env.update == Answered && !stale && !env.enqueues && !IsLoop(call)
                  && d.row.status in EVENT_OF)
  {
    if Plan(call, row, now).Write? {
      WritesIffEdge(call, row, now, Plan(call, row, now).row);
      AnnouncedIsTheStatus(call, row, now);
    } else if !call.Start? {
      OthersRefusedBecause(call, row, now);
    }
  }

  /** The same kind of call, whatever it reads along the way. */
  ghost predicate SameKind(a: Call, b: Call) {
    && a.Start? == b.Start? && a.Pause? == b.Pause? && a.Resume? == b.Resume? && a.Cancel? == b.Cancel?
    && a.Retry? == b.Retry? && a.Promote? == b.Promote? && a.Finalize? == b.Finalize? && a.Edit? == b.Edit?
  }

  /** No edge out of the status is labelled with the call. */
  ghost predicate OffTheGraph(call: Call, status: Status) {
    forall other, now, a: Campaign, b | SameKind(call, other) && a.status == status :: !Edge(other, now, a, b)
  }

  /** The API's calls are refused as invalid transitions exactly where the graph has no edge for them. */
  lemma RefusedOffTheGraph(call: Call, c: Campaign, now: int)
    requires !IsLoop(call) && !call.Retry?
    ensures Plan(call, c, now) == Refuse(InvalidTransition) <==> OffTheGraph(call, c.status)
  {
    if Plan(call, c, now) != Refuse(InvalidTransition) {
      var other := if call.Start? then Start(Zero, Found, Some(1), None) else call;
      var a := c.(senderID := "s", versionID := "v", startedAt := At(now));
      var b := a.(templateID := if call.Edit? then call.edits.templateID else a.templateID,
                  versionID := if call.Edit? then call.edits.versionID else a.versionID,
                  senderID := if call.Edit? then call.edits.senderID else a.senderID,
                  scheduleAt := if call.Edit? then call.edits.scheduleAt else a.scheduleAt,
                  completedAt := if call.Cancel? then At(now) else a.completedAt,
                  status := match call { case Pause => Paused case Cancel => Cancelled
                                         case Edit(_) => c.status case _ => Running });
      assert SameKind(call, other) && Edge(other, now, a, b);
    }
  }

  /** Of faithful callers, only one that holds the very row it replaces commits. */
  lemma CommitsFromTheRow(first: Campaign, w: World, step: Step)
    requires Inv(first, w) && Faithful(w, step) && Commits(w, step)
    ensures Core(w.held[step.caller]) == Core(w.row) && WellFormed(w.held[step.caller])
  {
    PlannedWrite(step.call, w.held[step.caller], step.now);
  }

  lemma Preserved(first: Campaign, w: World, w': World, step: Step)
    requires Inv(first, w) && Next(w, w', step) && Faithful(w, step)
    ensures Inv(first, w')
  {
    if Commits(w, step) {
      var held := w.held[step.caller];
      CommitsFromTheRow(first, w, step);
      PlannedWrite(step.call, held, step.now);
      PlanIgnoresStats(step.call, held, Replay(Core(first), w.log), step.now);
      assert w'.log[..|w'.log| - 1] == w.log;
    }
  }

  ghost predicate FaithfulUpTo(tr: seq<World>, steps: seq<Step>, n: nat)
    requires |tr| == |steps| + 1
  {
    forall i | 0 <= i < n && i < |steps| :: Faithful(tr[i], steps[i])
  }

  lemma {:induction false} Invariant(tr: seq<World>, steps: seq<Step>, i: nat)
    requires AnyRun(tr, steps) && i < |tr| && FaithfulUpTo(tr, steps, i)
    ensures Inv(tr[0].row, tr[i])
  {
    if i > 0 {
      Invariant(tr, steps, i - 1);
      Preserved(tr[0].row, tr[i - 1], tr[i], steps[i - 1]);
    }
  }

  /** A step that changes anything but statistics commits a call planned from the row it replaces. */
  lemma StepIsAtomic(first: Campaign, w: World, w': World, step: Step)
    requires Inv(first, w) && Next(w, w', step) && Faithful(w, step)
    ensures Core(w'.row) == Core(w.row) ||
            (&& step.Finish?
             && Plan(step.call, w.row, step.now).Write?
             && Core(w'.row) == Core(Plan(step.call, w.row, step.now).row).(version := w.row.version + 1)
             && Edge(step.call, step.now, w.row, w'.row) && Pinned(w.row, w'.row))
  {
    if Commits(w, step) {
      CommitsFromTheRow(first, w, step);
      PlanIgnoresStats(step.call, w.held[step.caller], w.row, step.now);
      PlannedWrite(step.call, w.row, step.now);
    }
  }

  /** Step i of a run: the core of the row stays, or moves along an edge with its pinned columns. */
  lemma RunStep(tr: seq<World>, steps: seq<Step>, i: nat)
    requires Run(tr, steps) && i < |steps|
    ensures Core(tr[i + 1].row) == Core(tr[i].row) ||
            (&& steps[i].Finish? && Edge(steps[i].call, steps[i].now, tr[i].row, tr[i + 1].row)
             && Pinned(tr[i].row, tr[i + 1].row))
  {
    Invariant(tr, steps, i);
    StepIsAtomic(tr[0].row, tr[i], tr[i + 1], steps[i]);
  }

  /**
  In every interleaving every row is well formed, and the row is what the committed calls, replayed
  one at a time in commit order from the created row, produce: no commit is lost or based on a row
  other than the one it replaced.
  */
  lemma RunsAreSerial(tr: seq<World>, steps: seq<Step>, i: nat)
    requires Run(tr, steps) && i < |tr|
    ensures WellFormed(tr[i].row)
    ensures Core(tr[i].row) == Replay(Core(tr[0].row), tr[i].log)
    ensures tr[i].row.version == tr[0].row.version + |tr[i].log|
  {
    Invariant(tr, steps, i);
  }

  /**
  In every interleaving a change of status is an edge of the campaign graph taken by a call it is
  labelled with; once a campaign is past draft and scheduled its template, sender and version never
  change, and neither does a start time once set.
  */
  lemma {:induction false} StatusFollowsTheGraph(tr: seq<World>, steps: seq<Step>, i: nat, j: nat)
    requires Run(tr, steps) && i <= j < |tr|
    ensures Pinned(tr[i].row, tr[j].row)
    ensures j == i + 1 && tr[i].row.status != tr[j].row.status ==>
              steps[i].Finish? && Edge(steps[i].call, steps[i].now, tr[i].row, tr[j].row)
    decreases j - i
  {
    if i < j {
      StatusFollowsTheGraph(tr, steps, i, j - 1);
      RunStep(tr, steps, j - 1);
    }
  }

  /** Cancelled is absorbing: nothing but the statistics of a cancelled campaign ever changes. */
  lemma {:induction false} CancelledIsFinal(tr: seq<World>, steps: seq<Step>, i: nat, j: nat)
    requires Run(tr, steps) && i <= j < |tr| && tr[i].row.status.Cancelled?
    ensures Core(tr[j].row) == Core(tr[i].row)
    decreases j - i
  {
    if i < j {
      CancelledIsFinal(tr, steps, i, j - 1);
      RunStep(tr, steps, j - 1);
    }
  }

  // ----- why a client must not claim a version it has not seen ---------------------------------------------------

  /**
  An edit that commits is decided from the row it replaces if and only if it claims the version of the
  row it read.
  */
  lemma EditIsAtomicIff(first: Campaign, w: World, step: Step)
    requires Inv(first, w) && Commits(w, step) && step.call.Edit?
    ensures Core(w.held[step.caller]) == Core(w.row) <==> step.call.edits.claimed == w.held[step.caller].version
  {
  }

  /** Every commit of the first n steps replaces the very row its caller read. */
  ghost predicate AtomicUpTo(tr: seq<World>, steps: seq<Step>, n: nat)
    requires |tr| == |steps| + 1
  {
    forall i | 0 <= i < n && i < |steps| && Commits(tr[i], steps[i]) ::
      Core(tr[i].held[steps[i].caller]) == Core(tr[i].row)
  }

  lemma {:induction false} AtomicIffFaithful(tr: seq<World>, steps: seq<Step>, n: nat)
    requires AnyRun(tr, steps) && n <= |steps|
    ensures AtomicUpTo(tr, steps, n) <==> FaithfulUpTo(tr, steps, n)
  {
    if n > 0 {
      AtomicIffFaithful(tr, steps, n - 1);
      if FaithfulUpTo(tr, steps, n - 1) && Commits(tr[n - 1], steps[n - 1]) {
        Invariant(tr, steps, n - 1);
        if steps[n - 1].call.Edit? {
          EditIsAtomicIff(tr[0].row, tr[n - 1], steps[n - 1]);
        } else {
          CommitsFromTheRow(tr[0].row, tr[n - 1], steps[n - 1]);
        }
      }
    }
  }

  /**
  Whatever versions the clients send, every commit of a run is decided from the row it replaces if and
  only if every edit that commits claims the version of the row it read.
  */
  lemma SerialIffFaithful(tr: seq<World>, steps: seq<Step>)
    requires AnyRun(tr, steps)
    ensures AtomicUpTo(tr, steps, |steps|) <==> Run(tr, steps)
  {
    AtomicIffFaithful(tr, steps, |steps|);
  }

  /** Clients that only ever send back a version they were shown are such. */
  lemma {:induction false} HonestRunsAreFaithful(tr: seq<World>, steps: seq<Step>, n: nat)
    requires AnyRun(tr, steps) && n <= |steps| && forall i | 0 <= i < |steps| :: Honest(tr[i], steps[i])
    ensures FaithfulUpTo(tr, steps, n)
  {
    if n > 0 {
      HonestRunsAreFaithful(tr, steps, n - 1);
      Invariant(tr, steps, n - 1);
      assert Honest(tr[n - 1], steps[n - 1]);
    }
  }

  /**
  An edit under way while the campaign is cancelled, claiming the version the cancellation is about to
  give it, brings the campaign back as a draft.
  */
  lemma ClaimAheadRevives(c: Campaign) returns (tr: seq<World>, steps: seq<Step>)
    requires Created(c)
    ensures AnyRun(tr, steps) && |tr| == 5 && tr[3].row.status.Cancelled? && tr[4].row.status.Draft?
  {
    var edits := Edits(c.templateID, c.versionID, c.senderID, c.scheduleAt, c.version + 1);
    steps := [Read(0), Read(1), Finish(1, Cancel, 0), Finish(0, Edit(edits), 0)];
    var cancelled := c.(status := Cancelled, completedAt := At(0), version := c.version + 1);
    var w0 := World(c, map[], []);
    var w1 := World(c, map[0 := c], []);
    var w2 := World(c, map[0 := c, 1 := c], []);
    var w3 := World(cancelled, map[0 := c], [Committed(Cancel, 0)]);
    var w4 := World(c.(version := c.version + 2), map[], [Committed(Cancel, 0), Committed(Edit(edits), 0)]);
    tr := [w0, w1, w2, w3, w4];
    assert w2.held - {1} == w3.held && w3.held - {0} == w4.held;
    assert Next(w0, w1, steps[0]) && Next(w1, w2, steps[1]) && Next(w2, w3, steps[2]) && Next(w3, w4, steps[3]);
  }
}
