/**
Bounce processing of internal/bounce/process.go: from one parsed bounce mail to a recorded event, a
compare-and-set of the delivery's status, suppressions and an outbox event.

`Act` is one store call of one handler. `Next` interleaves the calls of any number of handlers with
the rest of the system; the theorems are about every run of it, over any multiset of mails,
redelivered, reordered or forged, with calls that fail before or after the store executed them.
`Processor` is Handle as the source writes it, proved to be a handler run alone.
*/
module BounceProcessing {
  import opened Deliveries
  import opened Wrappers

  datatype Lane = Bulk | Transactional | Probe

  datatype BounceType = Unknown | Hard | Soft | Complaint

  /** `lease` is the worker whose result the store still takes, "" for none. */
  datatype Delivery = Delivery(status: DeliveryStatus, email: string, lane: Lane, lease: string)

  /** A parsed message. `tenant` and `deliveryID` are "" when the mail carries none. */
  datatype Mail =
    | Unreadable
    | Mail(kind: BounceType, autoReply: bool, tenant: string, deliveryID: string, verified: bool)

  datatype Event = Event(deliveryID: string, status: DeliveryStatus)

  datatype Suppression = Suppression(reason: DeliveryStatus, source: string)

  /**
  What the handlers write. The suppression lists are keyed by address; `platform` is the system
  tenant's. `marked` and `winner` are history the backend does not keep: how often each delivery was
  moved out of sent, and by which handler last.
  */
  datatype Store = Store(
    deliveries: map<string, Delivery>,
    recorded: seq<Mail>,
    suppressed: map<string, Suppression>,
    platform: map<string, Suppression>,
    outbox: multiset<Event>,
    marked: multiset<string>,
    winner: map<string, nat>)

  /** The tenant's identity and settings, and which deliveries went out through a shared transport. */
  datatype Tenant = Tenant(id: string, suppressionEnabled: bool, viaPlatform: string -> bool)

  /** The next store call of a handler, with the copy of the delivery it read. */
  datatype Phase =
    | Load
    | Record(onward: Option<Delivery>)
    | MarkDelivery(d: Delivery)
    | Suppress(d: Delivery)
    | SuppressPlatform(d: Delivery)
    | Emit(d: Delivery)
    | Done
  {
    predicate Won() {
      Suppress? || SuppressPlatform? || Emit?
    }
  }

  datatype Handler = Handler(mail: Mail, phase: Phase)

  predicate Terminal(s: DeliveryStatus) {
    s.Bounced? || s.Complained?
  }

  function NewStatus(mail: Mail): DeliveryStatus
    requires mail.Mail?
  {
    if mail.kind.Complaint? then Complained else Bounced
  }

  /** What Handle decides before it touches the store. */
  function Begin(t: Tenant, mail: Mail): Phase {
    if mail.Unreadable? || mail.autoReply || mail.kind.Unknown? then Done
    else if mail.deliveryID == "" then Record(None)
    else if mail.tenant != "" && mail.tenant != t.id then Done
    else Load
  }

  /** What Handle decides once it has read the delivery. */
  function Loaded(mail: Mail, d: Delivery): Phase
    requires mail.Mail?
  {
    if !mail.verified then Record(None)
    else if d.status.Sent? then Record(if mail.kind.Soft? then None else Some(d))
    else if Terminal(d.status) && mail.kind.Soft? then Record(None)
    else Done
  }

  /** One store call of handler h, executed. */
  function Act(t: Tenant, st: Store, h: nat, mail: Mail, phase: Phase): (Store, Phase)
    requires mail.Mail?
  {
    match phase
    case Load =>
      if mail.deliveryID !in st.deliveries then (st, Record(None))
      else (st, Loaded(mail, st.deliveries[mail.deliveryID]))
    case Record(onward) =>
      (st.(recorded := st.recorded + [mail]), if onward.Some? then MarkDelivery(onward.value) else Done)
    case MarkDelivery(d) =>
      var id := mail.deliveryID;
      if id !in st.deliveries || !st.deliveries[id].status.Sent? then (st, Done)
      else (st.(deliveries := st.deliveries[id := st.deliveries[id].(status := NewStatus(mail), lease := "")],
                marked := st.marked + multiset{id}, winner := st.winner[id := h]),
            if d.lane.Probe? then Emit(d) else Suppress(d))
    case Suppress(d) =>
      (if t.suppressionEnabled
       then st.(suppressed := st.suppressed[d.email := Suppression(NewStatus(mail), mail.deliveryID)]) else st,
       SuppressPlatform(d))
    case SuppressPlatform(d) =>
      (if t.viaPlatform(mail.deliveryID)
       then st.(platform := st.platform[d.email := Suppression(NewStatus(mail), mail.deliveryID)]) else st,
       Emit(d))
    case Emit(d) =>
      (st.(outbox := st.outbox + multiset{Event(mail.deliveryID, NewStatus(mail))}), Done)
    case Done => (st, Done)
  }

  // ----- every interleaving ------------------------------------------------------------------------

  /** `identity` keeps the address and lane every delivery was ever inserted with. */
  datatype World = World(st: Store, handlers: map<nat, Handler>, identity: map<string, (string, Lane)>)

  /** What the rest of the system does to one row, with no manual retry. */
  datatype Job =
    | Insert(id: string, d: Delivery)
    | Claim(id: string, worker: string)
    | MarkSent(id: string, worker: string)
    | Complete(id: string, worker: string, to: DeliveryStatus)
    | ReleaseExpired(id: string, attempted: bool)
    | Cancel(id: string)
    | Remove(id: string)

  datatype Step =
    | Arrive(h: nat, mail: Mail)
    | Call(h: nat, executed: bool, answered: bool)
    | System(job: Job)

  predicate Waiting(s: DeliveryStatus) {
    s.Pending? || s.Queued? || s.Deferred?
  }

  /**
  The store calls of the sender and of the control loops on a row. MarkSent keeps the lease for the
  Complete that follows; Complete looks at the lease and not at the status.
  */
  function Touched(d: Delivery, job: Job): Delivery {
    match job
    case Claim(_, worker) => if Waiting(d.status) then d.(status := Leased, lease := worker) else d
    case MarkSent(_, worker) =>
      if d.status.Leased? && worker != "" && d.lease == worker then d.(status := Sent) else d
    case Complete(_, worker, to) =>
      if worker != "" && d.lease == worker then d.(status := to, lease := "") else d
    case ReleaseExpired(_, attempted) =>
      if d.status.Leased? then d.(status := if attempted then Deferred else Queued, lease := "") else d
    case Cancel(_) => if Waiting(d.status) then d.(status := Cancelled) else d
    case _ => d
  }

  /**
  New deliveries get new identifiers, and neither ingest nor a sender's decision says that a delivery
  bounced or was complained about.
  */
  ghost predicate Allowed(w: World, job: Job) {
    match job
    case Insert(id, d) => id !in w.identity && !Terminal(d.status) && d.lease == ""
    case Complete(_, _, to) => !Terminal(to)
    case _ => true
  }

  function Table(ds: map<string, Delivery>, job: Job): map<string, Delivery> {
    match job
    case Insert(id, d) => ds[id := d]
    case Remove(id) => ds - {id}
    case _ => if job.id in ds then ds[job.id := Touched(ds[job.id], job)] else ds
  }

  function Named(identity: map<string, (string, Lane)>, job: Job): map<string, (string, Lane)> {
    if job.Insert? then identity[job.id := (job.d.email, job.d.lane)] else identity
  }

  /** What a job does to a row: nothing, unless it is the one it names. */
  lemma TableRow(ds: map<string, Delivery>, job: Job, id: string)
    requires id in Table(ds, job)
    ensures if job.Insert? && job.id == id then Table(ds, job)[id] == job.d
            else id in ds && Table(ds, job)[id] == if job.id == id then Touched(ds[id], job) else ds[id]
  {
  }

  /**
  What the store calls of sender and control loops do to a row, case by case: only waiting rows are
  claimed and cancelled, only the holder of the lease has its results taken, sent keeps the lease, a
  result and an expiry give it up, and an expired row waits again, deferred if it was attempted before.
  */
  lemma TouchedTells(d: Delivery, job: Job)
    ensures var d' := Touched(d, job);
            var waiting := d.status in {Pending, Queued, Deferred};
            && d'.email == d.email && d'.lane == d.lane
            && (job.Claim? ==> if waiting then d'.status == Leased && d'.lease == job.worker else d' == d)
            && (job.MarkSent? ==>
                  if d.status == Leased && d.lease == job.worker != "" then d'.status == Sent && d'.lease == d.lease
                  else d' == d)
            && (job.Complete? ==>
                  if d.lease == job.worker != "" then d'.status == job.to && d'.lease == "" else d' == d)
            && (job.ReleaseExpired? && d.status == Leased ==>
                  d'.lease == "" && d'.status in {Deferred, Queued} && (d'.status == Deferred <==> job.attempted))
            && (job.ReleaseExpired? && d.status != Leased ==> d' == d)
            && (job.Cancel? ==> if waiting then d'.status == Cancelled && d'.lease == d.lease else d' == d)
            && (job.Insert? || job.Remove? ==> d' == d)
  {
  }

  lemma TouchedRow(d: Delivery, job: Job)
    requires Terminal(d.status) ==> d.lease == ""
    requires job.Complete? ==> !Terminal(job.to)
    ensures Touched(d, job).email == d.email && Touched(d, job).lane == d.lane
    ensures Terminal(d.status) ==> Touched(d, job) == d
    ensures !Terminal(d.status) ==> !Terminal(Touched(d, job).status)
  {
  }

  /** A call that is not answered ends the handler with an error; the mail may arrive again. */
  ghost predicate Next(t: Tenant, w: World, w': World, step: Step) {
    match step
    case Arrive(h, mail) =>
      h !in w.handlers && w' == w.(handlers := w.handlers[h := Handler(mail, Begin(t, mail))])
    case Call(h, executed, answered) =>
      && h in w.handlers && w.handlers[h].mail.Mail? && (answered ==> executed)
      && var hd := w.handlers[h];
         var (st, phase) := Act(t, w.st, h, hd.mail, hd.phase);
         w' == w.(st := if executed then st else w.st,
                  handlers := w.handlers[h := hd.(phase := if answered then phase else Done)])
    case System(job) =>
      && Allowed(w, job)
      && w' == w.(st := w.st.(deliveries := Table(w.st.deliveries, job)), identity := Named(w.identity, job))
  }

  ghost predicate Run(t: Tenant, tr: seq<World>, steps: seq<Step>) {
    && |tr| == |steps| + 1
    && tr[0] == World(Store(map[], [], map[], map[], multiset{}, multiset{}, map[]), map[], map[])
    && forall i | 0 <= i < |steps| :: Next(t, tr[i], tr[i + 1], steps[i])
  }

  /** A bounce mail correlated with a delivery of this tenant. */
  ghost predicate Correlated(t: Tenant, mail: Mail) {
    && mail.Mail? && !mail.autoReply && !mail.kind.Unknown? && mail.deliveryID != ""
    && (mail.tenant == "" || mail.tenant == t.id)
  }

  /** Such a mail that may change its delivery: verified, and a hard bounce or a complaint. */
  ghost predicate Actionable(t: Tenant, mail: Mail) {
    Correlated(t, mail) && mail.verified && !mail.kind.Soft?
  }

  /** Delivery id left sent once, moved by the handler of an actionable mail for it. */
  ghost predicate MarkedOnce(t: Tenant, w: World, id: string) {
    && w.st.marked[id] == 1 && id in w.identity
    && id in w.st.winner && w.st.winner[id] in w.handlers
    && var mail := w.handlers[w.st.winner[id]].mail;
       && Actionable(t, mail) && mail.deliveryID == id
       && (id in w.st.deliveries ==> w.st.deliveries[id].status == NewStatus(mail))
  }

  /** The status the winner of a marked delivery gave it. */
  ghost function GivenStatus(t: Tenant, w: World, id: string): DeliveryStatus
    requires MarkedOnce(t, w, id)
  {
    NewStatus(w.handlers[w.st.winner[id]].mail)
  }

  /** A bounced or complained row was marked, and no worker can complete it. */
  ghost predicate RowOk(w: World, id: string)
    requires id in w.st.deliveries
  {
    var d := w.st.deliveries[id];
    && id in w.identity && w.identity[id] == (d.email, d.lane)
    && (Terminal(d.status) ==> d.lease == "" && id in w.st.marked)
  }

  /** An event tells the status its delivery was given, once, and its handler has finished. */
  ghost predicate EventOk(t: Tenant, w: World, e: Event) {
    && w.st.outbox[e] == 1 && MarkedOnce(t, w, e.deliveryID) && e.status == GivenStatus(t, w, e.deliveryID)
    && w.handlers[w.st.winner[e.deliveryID]].phase.Done?
  }

  /** A suppression is of the address of a marked delivery outside the probe lane, for its reason. */
  ghost predicate SuppressionOk(t: Tenant, w: World, email: string, s: Suppression) {
    && MarkedOnce(t, w, s.source) && s.reason == GivenStatus(t, w, s.source)
    && w.identity[s.source].0 == email && !w.identity[s.source].1.Probe?
  }

  /** The copy of the delivery a handler will act on, if it will. */
  function Copy(p: Phase): Option<Delivery> {
    match p
    case Record(onward) => onward
    case MarkDelivery(d) => Some(d)
    case Suppress(d) => Some(d)
    case SuppressPlatform(d) => Some(d)
    case Emit(d) => Some(d)
    case _ => None
  }

  /** A handler that will act holds an actionable mail and the delivery's own address and lane. */
  ghost predicate HandlerOk(t: Tenant, w: World, h: nat)
    requires h in w.handlers
  {
    var mail, p := w.handlers[h].mail, w.handlers[h].phase;
    && (p.Load? ==> Correlated(t, mail))
    && (Copy(p).Some? ==>
          && Actionable(t, mail) && mail.deliveryID in w.identity
          && w.identity[mail.deliveryID] == (Copy(p).value.email, Copy(p).value.lane))
    && (p.Suppress? || p.SuppressPlatform? ==> !p.d.lane.Probe?)
    && (p.Won() ==> MarkedOnce(t, w, mail.deliveryID) && w.st.winner[mail.deliveryID] == h)
  }

  ghost predicate Marks(t: Tenant, w: World) {
    forall id | id in w.st.marked :: MarkedOnce(t, w, id)
  }

  ghost predicate Rows(w: World) {
    forall id | id in w.st.deliveries :: RowOk(w, id)
  }

  ghost predicate Events(t: Tenant, w: World) {
    forall e | e in w.st.outbox :: EventOk(t, w, e)
  }

  ghost predicate Suppressions(t: Tenant, w: World, list: map<string, Suppression>) {
    forall a | a in list :: SuppressionOk(t, w, a, list[a])
  }

  ghost predicate Handlers(t: Tenant, w: World) {
    forall h | h in w.handlers :: HandlerOk(t, w, h)
  }

  ghost predicate Inv(t: Tenant, w: World) {
    && Marks(t, w) && Rows(w) && Events(t, w) && Handlers(t, w)
    && Suppressions(t, w, w.st.suppressed) && Suppressions(t, w, w.st.platform)
  }

  // What one step keeps, one part of the invariant at a time.

  /** Identities, mails, finished handlers and won marks are never taken back. */
  ghost predicate Grows(w: World, w': World) {
    && (forall id | id in w.identity :: id in w'.identity && w'.identity[id] == w.identity[id])
    && (forall h | h in w.handlers ::
          && h in w'.handlers && w'.handlers[h].mail == w.handlers[h].mail
          && (w.handlers[h].phase.Done? ==> w'.handlers[h].phase.Done?))
    && (forall id | id in w.st.marked :: Keeps(w, w', id))
  }

  ghost predicate Keeps(w: World, w': World, id: string) {
    && w'.st.marked[id] == w.st.marked[id]
    && (id in w.st.winner ==> id in w'.st.winner && w'.st.winner[id] == w.st.winner[id])
    && (id in w'.st.deliveries ==> id in w.st.deliveries && w'.st.deliveries[id].status == w.st.deliveries[id].status)
  }

  /** No job moves a marked row: the mark took its lease. */
  lemma JobKeeps(t: Tenant, w: World, w': World, job: Job, id: string)
    requires MarkedOnce(t, w, id) && Rows(w) && Next(t, w, w', System(job))
    ensures Keeps(w, w', id)
  {
    if id in w'.st.deliveries {
      TableRow(w.st.deliveries, job, id);
      assert RowOk(w, id);
      TouchedRow(w.st.deliveries[id], job);
    }
  }

  /** A handler moves and marks a row only out of sent. */
  lemma ActKeeps(t: Tenant, st: Store, st': Store, h: nat, mail: Mail, phase: Phase, id: string)
    requires mail.Mail? && st' == Act(t, st, h, mail, phase).0
    requires id in st.deliveries ==> !st.deliveries[id].status.Sent?
    ensures st'.marked[id] == st.marked[id]
    ensures id in st.winner ==> id in st'.winner && st'.winner[id] == st.winner[id]
    ensures id in st'.deliveries ==> id in st.deliveries && st'.deliveries[id] == st.deliveries[id]
  {
  }

  lemma MarkStays(t: Tenant, w: World, w': World, step: Step, id: string)
    requires MarkedOnce(t, w, id) && Rows(w) && Next(t, w, w', step)
    ensures Keeps(w, w', id)
  {
    match step
    case Arrive(_, _) =>
    case System(job) => JobKeeps(t, w, w', job, id);
    case Call(h, executed, _) =>
      if executed {
        ActKeeps(t, w.st, w'.st, h, w.handlers[h].mail, w.handlers[h].phase, id);
      }
  }

  lemma NextGrows(t: Tenant, w: World, w': World, step: Step)
    requires Marks(t, w) && Rows(w) && Next(t, w, w', step)
    ensures Grows(w, w')
  {
    forall id | id in w.st.marked ensures Keeps(w, w', id) {
      MarkStays(t, w, w', step, id);
    }
  }

  lemma MarkKept(t: Tenant, w: World, w': World, id: string)
    requires Grows(w, w') && MarkedOnce(t, w, id)
    ensures MarkedOnce(t, w', id) && GivenStatus(t, w', id) == GivenStatus(t, w, id)
    ensures w'.st.winner[id] == w.st.winner[id]
  {
    assert Keeps(w, w', id);
  }

  /** A new mark is the work of a handler at its compare-and-set, on a row that was sent. */
  lemma NewMark(t: Tenant, w: World, w': World, step: Step, id: string)
    requires Next(t, w, w', step) && id in w'.st.marked && id !in w.st.marked
    ensures step.Call? && w.handlers[step.h].phase.MarkDelivery? && w.handlers[step.h].mail.deliveryID == id
    ensures w'.st.marked[id] == 1 && id in w'.st.winner && w'.st.winner[id] == step.h
    ensures id in w'.st.deliveries && w'.st.deliveries[id].status == NewStatus(w.handlers[step.h].mail)
  {
  }

  lemma MarksPreserved(t: Tenant, w: World, w': World, step: Step)
    requires Marks(t, w) && Handlers(t, w) && Next(t, w, w', step) && Grows(w, w')
    ensures Marks(t, w')
  {
    forall id | id in w'.st.marked ensures MarkedOnce(t, w', id) {
      if id in w.st.marked {
        MarkKept(t, w, w', id);
      } else {
        NewMark(t, w, w', step, id);
        assert HandlerOk(t, w, step.h);
      }
    }
  }

  /** A step enqueues at most one event, by a handler that then is done. */
  lemma Enqueues(t: Tenant, w: World, w': World, step: Step)
    requires Next(t, w, w', step)
    ensures w'.st.outbox == w.st.outbox
            || (&& step.Call? && w.handlers[step.h].phase.Emit? && w'.handlers[step.h].phase.Done?
                && var mail := w.handlers[step.h].mail;
                   w'.st.outbox == w.st.outbox + multiset{Event(mail.deliveryID, NewStatus(mail))})
  {
  }

  lemma EventStep(t: Tenant, w: World, w': World, step: Step, e: Event)
    requires Next(t, w, w', step) && Grows(w, w') && (step.Call? ==> HandlerOk(t, w, step.h))
    requires e in w'.st.outbox && (e in w.st.outbox ==> EventOk(t, w, e))
    ensures EventOk(t, w', e)
  {
    Enqueues(t, w, w', step);
    MarkKept(t, w, w', e.deliveryID);
  }

  lemma EventsPreserved(t: Tenant, w: World, w': World, step: Step)
    requires Events(t, w) && Handlers(t, w) && Next(t, w, w', step) && Grows(w, w')
    ensures Events(t, w')
  {
    forall e | e in w'.st.outbox ensures EventOk(t, w', e) {
      if e in w.st.outbox {
        assert EventOk(t, w, e);
      }
      EventStep(t, w, w', step, e);
    }
  }

  lemma SuppressionKept(t: Tenant, w: World, w': World, email: string, s: Suppression)
    requires Grows(w, w') && SuppressionOk(t, w, email, s)
    ensures SuppressionOk(t, w', email, s)
  {
    MarkKept(t, w, w', s.source);
  }

  lemma SuppressionsPreserved(t: Tenant, w: World, w': World, step: Step)
    requires Suppressions(t, w, w.st.suppressed) && Suppressions(t, w, w.st.platform)
    requires Handlers(t, w) && Next(t, w, w', step) && Grows(w, w')
    ensures Suppressions(t, w', w'.st.suppressed) && Suppressions(t, w', w'.st.platform)
  {
    ListedIsOk(t, w, w', step);
    forall a | a in w'.st.suppressed ensures SuppressionOk(t, w', a, w'.st.suppressed[a]) {
      SuppressionKept(t, w, w', a, w'.st.suppressed[a]);
    }
    forall a | a in w'.st.platform ensures SuppressionOk(t, w', a, w'.st.platform[a]) {
      SuppressionKept(t, w, w', a, w'.st.platform[a]);
    }
  }

  /** A step lists at most one address: that of the delivery its handler won. */
  lemma Lists(t: Tenant, w: World, w': World, step: Step)
    requires Next(t, w, w', step)
    ensures (w'.st.suppressed == w.st.suppressed && w'.st.platform == w.st.platform)
            || (&& step.Call? && (w.handlers[step.h].phase.Suppress? || w.handlers[step.h].phase.SuppressPlatform?)
                && var mail, a := w.handlers[step.h].mail, w.handlers[step.h].phase.d.email;
                   var s := Suppression(NewStatus(mail), mail.deliveryID);
                   && (w'.st.suppressed == w.st.suppressed || w'.st.suppressed == w.st.suppressed[a := s])
                   && (w'.st.platform == w.st.platform || w'.st.platform == w.st.platform[a := s]))
  {
  }

  /** What a step leaves on either list was right before it. */
  lemma ListedIsOk(t: Tenant, w: World, w': World, step: Step)
    requires Suppressions(t, w, w.st.suppressed) && Suppressions(t, w, w.st.platform)
    requires Handlers(t, w) && Next(t, w, w', step)
    ensures Suppressions(t, w, w'.st.suppressed) && Suppressions(t, w, w'.st.platform)
  {
    Lists(t, w, w', step);
    if step.Call? {
      assert HandlerOk(t, w, step.h);
    }
  }

  lemma HandlerKept(t: Tenant, w: World, w': World, h: nat)
    requires Grows(w, w') && h in w.handlers && HandlerOk(t, w, h)
    requires h in w'.handlers && w'.handlers[h] == w.handlers[h]
    ensures HandlerOk(t, w', h)
  {
    if w.handlers[h].phase.Won() {
      MarkKept(t, w, w', w.handlers[h].mail.deliveryID);
    }
  }

  lemma ActorPreserved(t: Tenant, w: World, w': World, step: Step)
    requires step.Call? && Next(t, w, w', step) && Grows(w, w')
    requires Rows(w) && HandlerOk(t, w, step.h) && Marks(t, w')
    ensures HandlerOk(t, w', step.h)
  {
    var mail, p := w.handlers[step.h].mail, w.handlers[step.h].phase;
    if p.Won() {
      MarkKept(t, w, w', mail.deliveryID);
    } else if p.MarkDelivery? && w'.handlers[step.h].phase.Won() {
      assert mail.deliveryID in w'.st.marked;
    } else if p.Load? && mail.deliveryID in w.st.deliveries {
      assert RowOk(w, mail.deliveryID);
    }
  }

  lemma HandlersPreserved(t: Tenant, w: World, w': World, step: Step)
    requires Rows(w) && Handlers(t, w) && Marks(t, w') && Next(t, w, w', step) && Grows(w, w')
    ensures Handlers(t, w')
  {
    forall h | h in w'.handlers ensures HandlerOk(t, w', h) {
      if step.Call? && h == step.h {
        ActorPreserved(t, w, w', step);
      } else if h in w.handlers {
        HandlerKept(t, w, w', h);
      }
    }
  }

  lemma JobRow(t: Tenant, w: World, w': World, job: Job, id: string)
    requires Rows(w) && Next(t, w, w', System(job)) && id in w'.st.deliveries
    ensures RowOk(w', id)
  {
    TableRow(w.st.deliveries, job, id);
    if id in w.st.deliveries {
      assert RowOk(w, id);
      TouchedRow(w.st.deliveries[id], job);
    }
  }

  /** No handler changes a delivery's address or lane, and only a mark bounces it. */
  lemma ActRow(t: Tenant, st: Store, st': Store, h: nat, mail: Mail, phase: Phase, id: string)
    requires mail.Mail? && st' == Act(t, st, h, mail, phase).0 && id in st'.deliveries
    ensures id in st.deliveries && st.marked <= st'.marked
    ensures st'.deliveries[id] == st.deliveries[id]
            || (&& st'.deliveries[id] == st.deliveries[id].(status := st'.deliveries[id].status, lease := "")
                && id in st'.marked)
  {
  }

  lemma HandlerRow(t: Tenant, w: World, w': World, step: Step, id: string)
    requires Rows(w) && Next(t, w, w', step) && !step.System? && id in w'.st.deliveries
    ensures RowOk(w', id)
  {
    if step.Call? && step.executed {
      ActRow(t, w.st, w'.st, step.h, w.handlers[step.h].mail, w.handlers[step.h].phase, id);
    }
    assert RowOk(w, id);
  }

  lemma RowsPreserved(t: Tenant, w: World, w': World, step: Step)
    requires Rows(w) && Next(t, w, w', step)
    ensures Rows(w')
  {
    forall id | id in w'.st.deliveries ensures RowOk(w', id) {
      if step.System? {
        JobRow(t, w, w', step.job, id);
      } else {
        HandlerRow(t, w, w', step, id);
      }
    }
  }

  lemma Preserved(t: Tenant, w: World, w': World, step: Step)
    requires Inv(t, w) && Next(t, w, w', step)
    ensures Inv(t, w')
  {
    NextGrows(t, w, w', step);
    MarksPreserved(t, w, w', step);
    EventsPreserved(t, w, w', step);
    SuppressionsPreserved(t, w, w', step);
    HandlersPreserved(t, w, w', step);
    RowsPreserved(t, w, w', step);
  }

  lemma {:induction false} Invariant(t: Tenant, tr: seq<World>, steps: seq<Step>, i: nat)
    requires Run(t, tr, steps) && i < |tr|
    ensures Inv(t, tr[i])
  {
    if i > 0 {
      Invariant(t, tr, steps, i - 1);
      Preserved(t, tr[i - 1], tr[i], steps[i - 1]);
    }
  }

  // ----- the guarantees ------------------------------------------------------------------------------

  /** A delivery leaves sent at most once, and at most one event, of its status, is enqueued for it. */
  lemma AtMostOnce(t: Tenant, tr: seq<World>, steps: seq<Step>, i: nat, id: string)
    requires Run(t, tr, steps) && i < |tr|
    ensures tr[i].st.marked[id] <= 1
    ensures tr[i].st.outbox[Event(id, Bounced)] + tr[i].st.outbox[Event(id, Complained)] <= tr[i].st.marked[id]
    ensures forall s | Event(id, s) in tr[i].st.outbox :: Terminal(s)
  {
    Invariant(t, tr, steps, i);
    forall s | Event(id, s) in tr[i].st.outbox
      ensures EventOk(t, tr[i], Event(id, s))
    {
    }
    if id in tr[i].st.marked {
      assert MarkedOnce(t, tr[i], id);
    }
  }

  /**
  In every run a delivery is bounced or complained exactly when a handler moved it out of sent,
  whatever leases are held, results arrive late and leases expire meanwhile.
  */
  lemma StatusTellsTheMark(t: Tenant, tr: seq<World>, steps: seq<Step>, i: nat, id: string)
    requires Run(t, tr, steps) && i < |tr| && id in tr[i].st.deliveries
    ensures Terminal(tr[i].st.deliveries[id].status) <==> id in tr[i].st.marked
  {
    Invariant(t, tr, steps, i);
    assert RowOk(tr[i], id);
  }

  /** What moved a delivery is a verified hard bounce or complaint correlated with that delivery. */
  lemma NoMarkWithoutProof(t: Tenant, tr: seq<World>, steps: seq<Step>, i: nat, id: string)
    requires Run(t, tr, steps) && i < |tr| && id in tr[i].st.marked
    ensures exists h :: h in tr[i].handlers && Actionable(t, tr[i].handlers[h].mail)
                        && tr[i].handlers[h].mail.deliveryID == id
  {
    Invariant(t, tr, steps, i);
    assert MarkedOnce(t, tr[i], id);
  }

  /** The mail is proof that the delivery bounced or was complained about, as the status says. */
  ghost predicate Proves(t: Tenant, mail: Mail, id: string, s: DeliveryStatus) {
    && mail.Mail? && mail.verified && !mail.autoReply && mail.deliveryID == id && id != ""
    && (mail.tenant == "" || mail.tenant == t.id)
    && ((s == Bounced && mail.kind == Hard) || (s == Complained && mail.kind == Complaint))
  }

  lemma GivenIsProved(t: Tenant, w: World, id: string)
    requires MarkedOnce(t, w, id)
    ensures Proves(t, w.handlers[w.st.winner[id]].mail, id, GivenStatus(t, w, id))
  {
  }

  /** The kind of the mail that won says what became of the delivery. */
  ghost predicate Proved(t: Tenant, w: World, id: string, s: DeliveryStatus) {
    && id in w.st.marked && id in w.st.winner && w.st.winner[id] in w.handlers
    && Proves(t, w.handlers[w.st.winner[id]].mail, id, s)
  }

  /**
  In every run the status of a bounced or complained delivery, the status in its event and the reason of
  its suppression are those the one mail that moved it proves: bounced for a hard bounce, complained for
  a complaint.
  */
  lemma WhatItTellsIsProved(t: Tenant, tr: seq<World>, steps: seq<Step>, i: nat)
    requires Run(t, tr, steps) && i < |tr|
    ensures forall id | id in tr[i].st.deliveries && tr[i].st.deliveries[id].status in {Bounced, Complained} ::
              Proved(t, tr[i], id, tr[i].st.deliveries[id].status)
    ensures forall e | e in tr[i].st.outbox :: Proved(t, tr[i], e.deliveryID, e.status)
    ensures forall a | a in tr[i].st.suppressed ::
              Proved(t, tr[i], tr[i].st.suppressed[a].source, tr[i].st.suppressed[a].reason)
    ensures forall a | a in tr[i].st.platform ::
              Proved(t, tr[i], tr[i].st.platform[a].source, tr[i].st.platform[a].reason)
  {
    Invariant(t, tr, steps, i);
    var w := tr[i];
    forall id | id in w.st.marked ensures Proved(t, w, id, GivenStatus(t, w, id)) {
      GivenIsProved(t, w, id);
    }
    forall id | id in w.st.deliveries && w.st.deliveries[id].status in {Bounced, Complained}
      ensures Proved(t, w, id, w.st.deliveries[id].status)
    {
      assert RowOk(w, id) && MarkedOnce(t, w, id);
    }
    forall e | e in w.st.outbox ensures Proved(t, w, e.deliveryID, e.status) {
      assert EventOk(t, w, e);
    }
    forall a | a in w.st.suppressed ensures Proved(t, w, w.st.suppressed[a].source, w.st.suppressed[a].reason) {
      assert SuppressionOk(t, w, a, w.st.suppressed[a]);
    }
    forall a | a in w.st.platform ensures Proved(t, w, w.st.platform[a].source, w.st.platform[a].reason) {
      assert SuppressionOk(t, w, a, w.st.platform[a]);
    }
  }

  /** A handler of a mail that is not actionable, a forged one among them, only records it. */
  lemma ForgeryIsInert(t: Tenant, tr: seq<World>, steps: seq<Step>, i: nat)
    requires Run(t, tr, steps) && i < |steps| && steps[i].Call? && steps[i].h in tr[i].handlers
    requires !Actionable(t, tr[i].handlers[steps[i].h].mail)
    ensures tr[i + 1].st == tr[i].st.(recorded := tr[i + 1].st.recorded)
  {
    Invariant(t, tr, steps, i);
    assert HandlerOk(t, tr[i], steps[i].h) && Next(t, tr[i], tr[i + 1], steps[i]);
  }

  /** Whatever address a report names, only the marked delivery's own is ever suppressed. */
  lemma OnlyTheOwnAddress(t: Tenant, tr: seq<World>, steps: seq<Step>, i: nat, email: string)
    requires Run(t, tr, steps) && i < |tr|
    requires email in tr[i].st.suppressed || email in tr[i].st.platform
    ensures exists id :: id in tr[i].st.marked && id in tr[i].identity && tr[i].identity[id].0 == email
                         && !tr[i].identity[id].1.Probe?
  {
    Invariant(t, tr, steps, i);
    var s := if email in tr[i].st.suppressed then tr[i].st.suppressed[email] else tr[i].st.platform[email];
    assert SuppressionOk(t, tr[i], email, s) && s.source in tr[i].st.marked;
  }

  // ----- without failures, exactly once ----------------------------------------------------------------

  ghost predicate Reliable(steps: seq<Step>) {
    forall i | 0 <= i < |steps| :: steps[i].Call? ==> steps[i].executed && steps[i].answered
  }

  /** The winner's work up to its current phase is in the store. */
  ghost predicate WorkDone(t: Tenant, w: World, id: string)
    requires MarkedOnce(t, w, id)
  {
    var phase, (email, lane) := w.handlers[w.st.winner[id]].phase, w.identity[id];
    && (phase.Won() || phase.Done?)
    && (!phase.Suppress? && !lane.Probe? && t.suppressionEnabled ==> email in w.st.suppressed)
    && ((phase.Emit? || phase.Done?) && !lane.Probe? && t.viaPlatform(id) ==> email in w.st.platform)
    && (phase.Done? ==> Event(id, GivenStatus(t, w, id)) in w.st.outbox)
  }

  /** No suppression or event is taken back. */
  ghost predicate ListsGrow(st: Store, st': Store) {
    st'.suppressed.Keys >= st.suppressed.Keys && st'.platform.Keys >= st.platform.Keys && st'.outbox >= st.outbox
  }

  lemma ActGrows(t: Tenant, st: Store, h: nat, mail: Mail, phase: Phase)
    requires mail.Mail?
    ensures ListsGrow(st, Act(t, st, h, mail, phase).0)
  {
  }

  lemma NextGrowsLists(t: Tenant, w: World, w': World, step: Step)
    requires Next(t, w, w', step)
    ensures ListsGrow(w.st, w'.st)
  {
    if step.Call? {
      ActGrows(t, w.st, step.h, w.handlers[step.h].mail, w.handlers[step.h].phase);
    }
  }

  lemma OthersKeepWork(t: Tenant, w: World, w': World, step: Step, id: string)
    requires Next(t, w, w', step) && Grows(w, w') && MarkedOnce(t, w, id) && WorkDone(t, w, id)
    requires step.Call? ==> step.h != w.st.winner[id]
    ensures MarkedOnce(t, w', id) && WorkDone(t, w', id)
  {
    MarkKept(t, w, w', id);
    NextGrowsLists(t, w, w', step);
    assert w'.handlers[w.st.winner[id]] == w.handlers[w.st.winner[id]];
  }

  lemma WinnerWorks(t: Tenant, w: World, w': World, step: Step, id: string)
    requires Next(t, w, w', step) && Grows(w, w') && MarkedOnce(t, w, id) && WorkDone(t, w, id)
    requires step.Call? && step.executed && step.answered && step.h == w.st.winner[id] && HandlerOk(t, w, step.h)
    ensures MarkedOnce(t, w', id) && WorkDone(t, w', id)
  {
    MarkKept(t, w, w', id);
  }

  lemma WinnerStarts(t: Tenant, w: World, w': World, step: Step, id: string)
    requires Next(t, w, w', step) && id !in w.st.marked && id in w'.st.marked && MarkedOnce(t, w', id)
    requires step.Call? && step.executed && step.answered && HandlerOk(t, w, step.h)
    ensures WorkDone(t, w', id)
  {
  }

  lemma WorkStep(t: Tenant, w: World, w': World, step: Step, id: string)
    requires Inv(t, w) && Next(t, w, w', step) && (step.Call? ==> step.executed && step.answered)
    requires id in w'.st.marked && (id in w.st.marked ==> MarkedOnce(t, w, id) && WorkDone(t, w, id))
    ensures MarkedOnce(t, w', id) && WorkDone(t, w', id)
  {
    NextGrows(t, w, w', step);
    if id !in w.st.marked {
      MarksPreserved(t, w, w', step);
      WinnerStarts(t, w, w', step, id);
    } else if step.Call? && step.h == w.st.winner[id] {
      WinnerWorks(t, w, w', step, id);
    } else {
      OthersKeepWork(t, w, w', step, id);
    }
  }

  /**
  When no call fails, a delivery moved out of sent whose handler has finished has exactly one event,
  and its address is on the lists the settings name.
  */
  lemma {:induction false} ExactlyOnce(t: Tenant, tr: seq<World>, steps: seq<Step>, i: nat, id: string)
    requires Run(t, tr, steps) && Reliable(steps) && i < |tr| && id in tr[i].st.marked
    ensures MarkedOnce(t, tr[i], id) && WorkDone(t, tr[i], id)
  {
    if i > 0 {
      if id in tr[i - 1].st.marked {
        ExactlyOnce(t, tr, steps, i - 1, id);
      }
      Invariant(t, tr, steps, i - 1);
      WorkStep(t, tr[i - 1], tr[i], steps[i - 1], id);
    }
  }

  // ----- Handle, run alone -----------------------------------------------------------------------------

  function Rank(p: Phase): nat {
    match p
    case Load => 6
    case Record(_) => 5
    case MarkDelivery(_) => 4
    case Suppress(_) => 3
    case SuppressPlatform(_) => 2
    case Emit(_) => 1
    case Done => 0
  }

  /** The store once handler h has made all its calls with nothing in between. */
  function Finished(t: Tenant, st: Store, h: nat, mail: Mail, phase: Phase): Store
    requires mail.Mail? || phase.Done?
    decreases Rank(phase)
  {
    if phase.Done? then st
    else
      var (st', phase') := Act(t, st, h, mail, phase);
      Finished(t, st', h, mail, phase')
  }

  function Handled(t: Tenant, st: Store, h: nat, mail: Mail): Store {
    Finished(t, st, h, mail, Begin(t, mail))
  }

  /** Whether the mail moves its delivery: it is actionable and the delivery is in status sent. */
  ghost predicate Moves(t: Tenant, st: Store, mail: Mail) {
    Actionable(t, mail) && mail.deliveryID in st.deliveries && st.deliveries[mail.deliveryID].status.Sent?
  }

  /** Whether the mail is kept as evidence. */
  ghost predicate Kept(t: Tenant, st: Store, mail: Mail) {
    && mail.Mail? && !mail.autoReply && !mail.kind.Unknown?
    && (mail.deliveryID == ""
        || (&& Correlated(t, mail)
            && (mail.deliveryID in st.deliveries && mail.verified ==>
                  var status := st.deliveries[mail.deliveryID].status;
                  status.Sent? || (Terminal(status) && mail.kind.Soft?))))
  }

  /** What handling a mail alone does, told from the mail and the store alone. */
  ghost function Effect(t: Tenant, st: Store, h: nat, mail: Mail): Store {
    if !Moves(t, st, mail) then st.(recorded := st.recorded + if Kept(t, st, mail) then [mail] else [])
    else Settled(t, st.(recorded := st.recorded + [mail]), h, mail, st.deliveries[mail.deliveryID])
  }

  /** The effect of winning: the delivery moved, its own address suppressed, one event enqueued. */
  ghost function Settled(t: Tenant, st: Store, h: nat, mail: Mail, d: Delivery): Store
    requires Moves(t, st, mail)
  {
    var id := mail.deliveryID;
    var s := Suppression(NewStatus(mail), id);
    st.(deliveries := st.deliveries[id := st.deliveries[id].(status := NewStatus(mail), lease := "")],
        outbox := st.outbox + multiset{Event(id, NewStatus(mail))},
        suppressed := if t.suppressionEnabled && !d.lane.Probe? then st.suppressed[d.email := s] else st.suppressed,
        platform := if t.viaPlatform(id) && !d.lane.Probe? then st.platform[d.email := s] else st.platform,
        marked := st.marked + multiset{id}, winner := st.winner[id := h])
  }

  lemma WinnerFinishes(t: Tenant, st: Store, h: nat, mail: Mail, d: Delivery, phase: Phase)
    requires mail.Mail? && phase == if d.lane.Probe? then Emit(d) else Suppress(d)
    ensures var s := Suppression(NewStatus(mail), mail.deliveryID);
            Finished(t, st, h, mail, phase) == st.(
              outbox := st.outbox + multiset{Event(mail.deliveryID, NewStatus(mail))},
              suppressed :=
                if t.suppressionEnabled && !d.lane.Probe? then st.suppressed[d.email := s] else st.suppressed,
              platform :=
                if t.viaPlatform(mail.deliveryID) && !d.lane.Probe? then st.platform[d.email := s] else st.platform)
  {
    var st1 := Act(t, st, h, mail, Suppress(d)).0;
    var st2 := Act(t, st1, h, mail, SuppressPlatform(d)).0;
    forall x: Store ensures Finished(t, x, h, mail, Emit(d)) == Act(t, x, h, mail, Emit(d)).0 {
    }
    if !d.lane.Probe? {
      assert Finished(t, st, h, mail, phase) == Finished(t, st1, h, mail, SuppressPlatform(d))
          == Finished(t, st2, h, mail, Emit(d));
    }
  }

  lemma RecordOnward(t: Tenant, st: Store, h: nat, mail: Mail, d: Delivery)
    requires Moves(t, st, mail)
    ensures Finished(t, st, h, mail, Record(Some(d))) == Settled(t, st.(recorded := st.recorded + [mail]), h, mail, d)
  {
    var st1 := st.(recorded := st.recorded + [mail]);
    var (st2, phase) := Act(t, st1, h, mail, MarkDelivery(d));
    assert Finished(t, st, h, mail, Record(Some(d))) == Finished(t, st1, h, mail, MarkDelivery(d))
        == Finished(t, st2, h, mail, phase);
    WinnerFinishes(t, st2, h, mail, d, phase);
  }

  lemma RecordOnly(t: Tenant, st: Store, h: nat, mail: Mail)
    requires mail.Mail?
    ensures Finished(t, st, h, mail, Record(None)) == st.(recorded := st.recorded + [mail])
  {
  }

  lemma HandledEffect(t: Tenant, st: Store, h: nat, mail: Mail)
    ensures Handled(t, st, h, mail) == Effect(t, st, h, mail)
  {
    if mail.Mail? {
      RecordOnly(t, st, h, mail);
      if Begin(t, mail).Load? {
        var phase := Act(t, st, h, mail, Load).1;
        assert Handled(t, st, h, mail) == Finished(t, st, h, mail, phase);
        if Moves(t, st, mail) {
          RecordOnward(t, st, h, mail, st.deliveries[mail.deliveryID]);
        } else {
          assert phase == if Kept(t, st, mail) then Record(None) else Done;
        }
      }
    }
  }

  /**
  The effect of one mail, told without the functions of the handler: a verified hard bounce of a sent
  delivery makes it bounced, a complaint complained, with one event of that status and, outside the
  probe lane, the delivery's address on the lists the settings name for that reason; any other mail
  changes no delivery, list or outbox.
  */
  lemma EffectTells(t: Tenant, st: Store, h: nat, mail: Mail, s: DeliveryStatus, id: string)
    requires id in st.deliveries && st.deliveries[id].status == Sent && Proves(t, mail, id, s)
    ensures var d, st' := st.deliveries[id], Effect(t, st, h, mail);
            && st'.deliveries == st.deliveries[id := d.(status := s, lease := "")]
            && st'.outbox == st.outbox + multiset{Event(id, s)}
            && st'.suppressed == (if t.suppressionEnabled && d.lane != Probe
                                  then st.suppressed[d.email := Suppression(s, id)] else st.suppressed)
            && st'.platform == (if t.viaPlatform(id) && d.lane != Probe
                                then st.platform[d.email := Suppression(s, id)] else st.platform)
            && st'.recorded == st.recorded + [mail]
  {
  }

  lemma OtherMailsChangeNothing(t: Tenant, st: Store, h: nat, mail: Mail)
    requires forall id, s | id in st.deliveries && st.deliveries[id].status == Sent :: !Proves(t, mail, id, s)
    ensures Effect(t, st, h, mail) == st.(recorded := Effect(t, st, h, mail).recorded)
  {
    if Moves(t, st, mail) {
      assert !Proves(t, mail, mail.deliveryID, if mail.kind == Complaint then Complained else Bounced);
    }
  }

  /**
  What is recorded: every bounce mail without a delivery of its own, and every one for this tenant but
  a verified one about a delivery that cannot have bounced, or that is already known to have.
  */
  lemma RecordedIff(t: Tenant, st: Store, h: nat, mail: Mail)
    ensures var kept := Effect(t, st, h, mail).recorded;
            kept == st.recorded + [mail] || kept == st.recorded
    ensures Effect(t, st, h, mail).recorded != st.recorded <==>
            && mail.Mail? && !mail.autoReply && mail.kind in {Hard, Soft, Complaint}
            && (mail.deliveryID != "" ==>
                  && mail.tenant in {"", t.id}
                  && (mail.verified && mail.deliveryID in st.deliveries ==>
                        var status := st.deliveries[mail.deliveryID].status;
                        status == Sent || (mail.kind == Soft && status in {Bounced, Complained})))
  {
  }

  /** A redelivered mail changes nothing but the record of what arrived. */
  lemma RedeliveryIsInert(t: Tenant, st: Store, h: nat, g: nat, mail: Mail)
    ensures var st' := Handled(t, st, h, mail);
            Handled(t, st', g, mail) == st'.(recorded := Handled(t, st', g, mail).recorded)
  {
    HandledEffect(t, st, h, mail);
    HandledEffect(t, Handled(t, st, h, mail), g, mail);
  }

  datatype Skip =
    | AutoReply | NotABounce | NoCorrelation | WrongTenant | UnknownDelivery | Unverified
    | DeliveryNotSent | AlreadyTerminal | SoftBounce | NotTransitioned

  datatype Outcome = Outcome(recorded: bool, processed: bool, suppressed: bool, skipped: Option<Skip>)

  /** Why a mail handled alone moves no delivery. */
  ghost function Reason(t: Tenant, st: Store, mail: Mail): Option<Skip> {
    if Moves(t, st, mail) then None
    else if mail.Unreadable? || (!mail.autoReply && mail.kind.Unknown?) then Some(NotABounce)
    else if mail.autoReply then Some(AutoReply)
    else if mail.deliveryID == "" then Some(NoCorrelation)
    else if !Correlated(t, mail) then Some(WrongTenant)
    else if mail.deliveryID !in st.deliveries then Some(UnknownDelivery)
    else if !mail.verified then Some(Unverified)
    else if Kept(t, st, mail) then Some(SoftBounce)
    else if Terminal(st.deliveries[mail.deliveryID].status) then Some(AlreadyTerminal)
    else Some(DeliveryNotSent)
  }

  /** The processor with the repositories of one tenant and the platform's suppression list. */
  class Processor {
    const t: Tenant
    var deliveries: map<string, Delivery>
    var recorded: seq<Mail>
    var suppressed: map<string, Suppression>
    var platform: map<string, Suppression>
    var outbox: multiset<Event>
    ghost var marked: multiset<string>
    ghost var winner: map<string, nat>

    constructor (t: Tenant, deliveries: map<string, Delivery>)
      ensures this.t == t && St() == Store(deliveries, [], map[], map[], multiset{}, multiset{}, map[])
    {
      this.t, this.deliveries := t, deliveries;
      recorded, suppressed, platform, outbox, marked, winner := [], map[], map[], multiset{}, multiset{}, map[];
    }

    ghost function St(): Store
      reads this
    {
      Store(deliveries, recorded, suppressed, platform, outbox, marked, winner)
    }

    /** MarkBounced and MarkComplained: the compare-and-set on status sent. */
    method MarkTerminal(id: string, to: DeliveryStatus, ghost h: nat) returns (changed: bool)
      modifies this
      ensures changed <==> id in old(deliveries) && old(deliveries)[id].status.Sent?
      ensures St() == if !changed then old(St()) else old(St()).(
                        deliveries := old(deliveries)[id := old(deliveries)[id].(status := to, lease := "")],
                        marked := old(marked) + multiset{id}, winner := old(winner)[id := h])
    {
      if id !in deliveries || !deliveries[id].status.Sent? {
        return false;
      }
      deliveries := deliveries[id := deliveries[id].(status := to, lease := "")];
      marked, winner := marked + multiset{id}, winner[id := h];
      return true;
    }

    method Handle(mail: Mail, ghost h: nat) returns (out: Outcome)
      modifies this
      ensures St() == Effect(t, old(St()), h, mail)
      ensures out.processed <==> Moves(t, old(St()), mail)
      ensures out.recorded <==> |recorded| > |old(recorded)|
      ensures out.suppressed <==>
                out.processed && t.suppressionEnabled && !old(deliveries)[mail.deliveryID].lane.Probe?
      ensures out.skipped == Reason(t, old(St()), mail)
    {
      if mail.Unreadable? {
        return Outcome(false, false, false, Some(NotABounce));
      }
      if mail.autoReply {
        return Outcome(false, false, false, Some(AutoReply));
      }
      if mail.kind.Unknown? {
        return Outcome(false, false, false, Some(NotABounce));
      }
      var id := mail.deliveryID;
      if id == "" {
        recorded := recorded + [mail];
        return Outcome(true, false, false, Some(NoCorrelation));
      }
      if mail.tenant != "" && mail.tenant != t.id {
        return Outcome(false, false, false, Some(WrongTenant));
      }
      if id !in deliveries {
        recorded := recorded + [mail];
        return Outcome(true, false, false, Some(UnknownDelivery));
      }
      var d := deliveries[id];
      if !mail.verified {
        recorded := recorded + [mail];
        return Outcome(true, false, false, Some(Unverified));
      }
      if !d.status.Sent? {
        if Terminal(d.status) && mail.kind.Soft? {
          recorded := recorded + [mail];
          return Outcome(true, false, false, Some(SoftBounce));
        } else if Terminal(d.status) {
          return Outcome(false, false, false, Some(AlreadyTerminal));
        }
        return Outcome(false, false, false, Some(DeliveryNotSent));
      }
      recorded := recorded + [mail];
      if mail.kind.Soft? {
        return Outcome(true, false, false, Some(SoftBounce));
      }
      out := Settle(mail, d, h);
    }

    /**
    The rest of Handle for an actionable mail, from the copy d of the delivery it read; another
    handler may have won the compare-and-set since.
    */
    method Settle(mail: Mail, d: Delivery, ghost h: nat) returns (out: Outcome)
      requires Actionable(t, mail)
      modifies this
      ensures out.processed <==> Moves(t, old(St()), mail)
      ensures out == Outcome(true, out.processed, out.processed && t.suppressionEnabled && !d.lane.Probe?,
                             if out.processed then None else Some(NotTransitioned))
      ensures St() == if !out.processed then old(St()) else Settled(t, old(St()), h, mail, d)
    {
      var id := mail.deliveryID;
      var status := if mail.kind.Complaint? then Complained else Bounced;
      var changed := MarkTerminal(id, status, h);
      if !changed {
        return Outcome(true, false, false, Some(NotTransitioned));
      }
      var listed := false;
      if !d.lane.Probe? {
        if t.suppressionEnabled {
          suppressed := suppressed[d.email := Suppression(status, id)];
          listed := true;
        }
        if t.viaPlatform(id) {
          platform := platform[d.email := Suppression(status, id)];
        }
      }
      outbox := outbox + multiset{Event(id, status)};
      return Outcome(true, true, listed, None);
    }
  }
}
