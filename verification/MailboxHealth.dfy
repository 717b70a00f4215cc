/**
Mailbox reachability of internal/mbhealth/mbhealth.go: a streak of failed checks, and the events that
announce an outage and its end.
*/
module MailboxReachability {
  import opened Wrappers

  const FAILURES_FOR_EVENT: nat := 2

  datatype Status = Unknown | OK | Error

  datatype Health =
    Health(status: Status, stage: string, reason: string, checkedAt: int, lastOKAt: Option<int>, failures: nat)

  /** The health of a mailbox nobody has checked yet. */
  const UNCHECKED := Health(Unknown, "", "", 0, None, 0)

  /** One observation and when it was made; stage and reason are of a failed one. */
  datatype Outcome = Outcome(ok: bool, stage: string, reason: string, at: int)

  datatype EventType = Unhealthy | Recovered

  datatype Kind = Probe | Bounce | Other(name: string)

  /** An outbox event with its payload: the mailbox, and its health as just written. */
  datatype Event = Event(typ: EventType, kind: Kind, id: string, name: string, health: Health)

  datatype RecordError = NoError | UnknownKind | NotStored | NotEnqueued

  function Next(prev: Health, o: Outcome): Health {
    if o.ok then Health(OK, "ok", "", o.at, Some(o.at), 0)
    else Health(Error, o.stage, o.reason, o.at, prev.lastOKAt, prev.failures + 1)
  }

  function Transition(prev: Health, next: Health): seq<EventType> {
    if next.status.Error? && next.failures == FAILURES_FOR_EVENT then [Unhealthy]
    else if next.status.OK? && prev.status.Error? && prev.failures >= FAILURES_FOR_EVENT then [Recovered]
    else []
  }

  /** A mailbox row and the outbox it reports to. */
  class Mailbox {
    const kind: Kind
    const id: string
    const name: string
    var health: Health
    var outbox: seq<Event>

    constructor (kind: Kind, id: string, name: string)
      ensures this.kind == kind && this.id == id && this.name == name && health == UNCHECKED && outbox == []
    {
      this.kind, this.id, this.name, health, outbox := kind, id, name, UNCHECKED, [];
    }

    /** The events of the given types about this mailbox. */
    ghost function About(types: seq<EventType>, h: Health): seq<Event> {
      seq(|types|, i requires 0 <= i < |types| => Event(types[i], kind, id, name, h))
    }

    /** Record. stores and enqueues say whether UpdateHealth and Enqueue succeed. */
    method Record(o: Outcome, stores: bool, enqueues: bool) returns (next: Health, err: RecordError)
      modifies this
      ensures next == Next(old(health), o)
      ensures err.UnknownKind? <==> kind.Other?
      ensures err.NotStored? <==> !kind.Other? && !stores
      ensures err.NotEnqueued? <==> !kind.Other? && stores && !enqueues && Transition(old(health), next) != []
      ensures health == if err.UnknownKind? || err.NotStored? then old(health) else next
      ensures outbox == old(outbox) + if err.NoError? then About(Transition(old(health), next), next) else []
    {
      next := Next(health, o);
      if kind.Other? {
        return next, UnknownKind;
      }
      if !stores {
        return next, NotStored;
      }
      var typ := Transition(health, next);
      health := next;
      if typ == [] {
        return next, NoError;
      }
      if !enqueues {
        return next, NotEnqueued;
      }
      outbox := outbox + [Event(typ[0], kind, id, name, next)];
      err := NoError;
    }
  }

  // ----- over a trace of stored checks -------------------------------------------------------------------------

  /** The row after the first n checks. */
  function After(checks: seq<Outcome>, n: nat): Health
    requires n <= |checks|
  {
    if n == 0 then UNCHECKED else Next(After(checks, n - 1), checks[n - 1])
  }

  /** What check n announces. */
  function Announced(checks: seq<Outcome>, n: nat): seq<EventType>
    requires n < |checks|
  {
    Transition(After(checks, n), After(checks, n + 1))
  }

  /** All the first n checks announce, in order. */
  function Events(checks: seq<Outcome>, n: nat): seq<EventType>
    requires n <= |checks|
  {
    if n == 0 then [] else Events(checks, n - 1) + Announced(checks, n - 1)
  }

  /** The last k of the first n checks failed, and the one before them did not. */
  ghost predicate Streak(checks: seq<Outcome>, n: nat, k: nat)
    requires n <= |checks|
  {
    k <= n && (forall i | n - k <= i < n :: !checks[i].ok) && (k == n || checks[n - k - 1].ok)
  }

  /**
  The stored row tells the history: the failures counted are the current failing streak, the last
  success is the check before it, and status, stage, reason and time are the last check's, a success
  having no reason.
  */
  lemma {:induction false} RowTellsHistory(checks: seq<Outcome>, n: nat)
    requires n <= |checks|
    ensures var h := After(checks, n);
            && Streak(checks, n, h.failures)
            && h.lastOKAt == (if h.failures == n then None else Some(checks[n - h.failures - 1].at))
            && (n == 0 ==> h == Health(Unknown, "", "", 0, None, 0))
            && (n > 0 ==>
                  var last := checks[n - 1];
                  && h.checkedAt == last.at && (last.ok ==> h.status == OK && h.stage == "ok" && h.reason == "")
                  && (!last.ok ==> h.status == Error && h.stage == last.stage && h.reason == last.reason))
  {
    if n > 0 {
      RowTellsHistory(checks, n - 1);
    }
  }

  /** The checks a..b are a maximal run of failures within the first n. */
  ghost predicate FailureRun(checks: seq<Outcome>, n: nat, a: nat, b: nat)
    requires n <= |checks|
  {
    && a < b <= n && (forall i | a <= i < b :: !checks[i].ok)
    && (a == 0 || checks[a - 1].ok) && (b == n || checks[b].ok)
  }

  /** Check a begins a run of failures long enough to be announced. */
  predicate BeginsOutage(checks: seq<Outcome>, n: nat, a: nat)
    requires n <= |checks|
  {
    a + FAILURES_FOR_EVENT <= n && !checks[a].ok && !checks[a + 1].ok && (a == 0 || checks[a - 1].ok)
  }

  /** Check b is the success that ends such a run. */
  predicate EndsOutage(checks: seq<Outcome>, b: nat)
    requires b < |checks|
  {
    b >= FAILURES_FOR_EVENT && checks[b].ok && !checks[b - 1].ok && !checks[b - 2].ok
  }

  lemma {:induction false} RunUp(checks: seq<Outcome>, n: nat, a: nat, i: nat) returns (b: nat)
    requires a < i <= n <= |checks| && (a == 0 || checks[a - 1].ok) && forall j | a <= j < i :: !checks[j].ok
    ensures i <= b && FailureRun(checks, n, a, b)
    decreases n - i
  {
    if i < n && !checks[i].ok {
      b := RunUp(checks, n, a, i + 1);
    } else {
      b := i;
    }
  }

  lemma {:induction false} RunDown(checks: seq<Outcome>, b: nat, i: nat) returns (a: nat)
    requires i < b < |checks| && checks[b].ok && forall j | i <= j < b :: !checks[j].ok
    ensures a <= i && FailureRun(checks, |checks|, a, b)
  {
    if i > 0 && !checks[i - 1].ok {
      a := RunDown(checks, b, i - 1);
    } else {
      a := i;
    }
  }

  /** The beginnings are exactly those of the maximal failure runs of two or more. */
  lemma BeginningsAreLongRuns(checks: seq<Outcome>, n: nat, a: nat)
    requires n <= |checks|
    ensures BeginsOutage(checks, n, a) <==>
            exists b: nat :: FailureRun(checks, n, a, b) && b >= a + FAILURES_FOR_EVENT
  {
    if BeginsOutage(checks, n, a) {
      var b := RunUp(checks, n, a, a + 2);
      assert FailureRun(checks, n, a, b) && b >= a + FAILURES_FOR_EVENT;
    }
  }

  /** The ends are exactly the successes right after such a run. */
  lemma EndsAreLongRuns(checks: seq<Outcome>, b: nat)
    requires b < |checks|
    ensures EndsOutage(checks, b) <==>
            exists a: nat :: FailureRun(checks, |checks|, a, b) && b >= a + FAILURES_FOR_EVENT
  {
    if EndsOutage(checks, b) {
      var a := RunDown(checks, b, b - 2);
      assert FailureRun(checks, |checks|, a, b) && b >= a + FAILURES_FOR_EVENT;
    }
  }

  /** The outages begun among the first a of n checks. */
  function Begun(checks: seq<Outcome>, n: nat, a: nat): nat
    requires a <= n <= |checks|
  {
    if a == 0 then 0 else Begun(checks, n, a - 1) + if BeginsOutage(checks, n, a - 1) then 1 else 0
  }

  function Ended(checks: seq<Outcome>, n: nat): nat
    requires n <= |checks|
  {
    if n == 0 then 0 else Ended(checks, n - 1) + if EndsOutage(checks, n - 1) then 1 else 0
  }

  /** Check n completes the beginning of an outage. */
  predicate Confirms(checks: seq<Outcome>, n: nat)
    requires n < |checks|
  {
    n > 0 && BeginsOutage(checks, n + 1, n - 1)
  }

  /** Extending the trace by one check only adds the outage whose second failure it is. */
  lemma {:induction false} BegunLonger(checks: seq<Outcome>, n: nat, a: nat)
    requires a <= n < |checks|
    ensures Begun(checks, n + 1, a) == Begun(checks, n, a) + if a == n && Confirms(checks, n) then 1 else 0
  {
    if a > 0 {
      BegunLonger(checks, n, a - 1);
      assert a < n ==> BeginsOutage(checks, n + 1, a - 1) == BeginsOutage(checks, n, a - 1);
      assert a == n ==> !BeginsOutage(checks, n, a - 1);
    }
  }

  lemma BegunStep(checks: seq<Outcome>, n: nat)
    requires n < |checks|
    ensures Begun(checks, n + 1, n + 1) == Begun(checks, n, n) + if Confirms(checks, n) then 1 else 0
  {
    BegunLonger(checks, n, n);
    assert !BeginsOutage(checks, n + 1, n);
  }

  /** What check n announces: an outage at its second failure, a recovery at the success ending one. */
  lemma AnnouncedIs(checks: seq<Outcome>, n: nat)
    requires n < |checks|
    ensures Announced(checks, n) ==
            if Confirms(checks, n) then [Unhealthy] else if EndsOutage(checks, n) then [Recovered] else []
  {
    RowTellsHistory(checks, n);
    RowTellsHistory(checks, n + 1);
  }

  /** The events over u outages begun and r of them ended: unhealthy and recovered in strict turn. */
  function Turns(u: nat, r: nat): seq<EventType>
    requires r <= u <= r + 1
  {
    if u == 0 then [] else if r < u then Turns(r, r) + [Unhealthy] else Turns(u, u - 1) + [Recovered]
  }

  /**
  Over every trace, the events are unhealthy and recovered in strict turn, one unhealthy for each
  maximal run of two or more failures and one recovered for each such run that a success ended; the
  last unhealthy is unanswered exactly while the stored streak is that long.
  */
  lemma {:induction false} EventsTellOutages(checks: seq<Outcome>, n: nat)
    requires n <= |checks|
    ensures var u, r := Begun(checks, n, n), Ended(checks, n);
            && u == (if After(checks, n).failures >= FAILURES_FOR_EVENT then r + 1 else r)
            && Events(checks, n) == Turns(u, r)
  {
    if n > 0 {
      EventsTellOutages(checks, n - 1);
      BegunStep(checks, n - 1);
      AnnouncedIs(checks, n - 1);
      StreakStep(checks, n - 1);
    }
  }

  /** How one check moves the row across the threshold. */
  lemma StreakStep(checks: seq<Outcome>, n: nat)
    requires n < |checks|
    ensures var was := After(checks, n).failures >= FAILURES_FOR_EVENT;
            var now := After(checks, n + 1).failures >= FAILURES_FOR_EVENT;
            && (Confirms(checks, n) <==> !was && now) && (EndsOutage(checks, n) <==> was && !now)
  {
    RowTellsHistory(checks, n);
    RowTellsHistory(checks, n + 1);
  }

  // ----- events lost on the way -------------------------------------------------------------------------------------

  /** The outbox after n checks, when enqueued[i] says whether check i's Enqueue succeeded. */
  function Outbox(checks: seq<Outcome>, enqueued: seq<bool>, n: nat): seq<EventType>
    requires n <= |checks| == |enqueued|
  {
    if n == 0 then []
    else if enqueued[n - 1] then Outbox(checks, enqueued, n - 1) + Announced(checks, n - 1)
    else Outbox(checks, enqueued, n - 1)
  }

  /** How many of the events the first n checks announce were lost. */
  function Lost(checks: seq<Outcome>, enqueued: seq<bool>, n: nat): nat
    requires n <= |checks| == |enqueued|
  {
    if n == 0 then 0
    else Lost(checks, enqueued, n - 1) + if enqueued[n - 1] || Announced(checks, n - 1) == [] then 0 else 1
  }

  /** The event at place i of a log in which outages and recoveries take turns. */
  function Turn(i: nat): EventType {
    if i % 2 == 0 then Unhealthy else Recovered
  }

  /** Unhealthy and recovered take turns, unhealthy first. */
  ghost predicate Alternates(events: seq<EventType>) {
    forall i | 0 <= i < |events| :: events[i] == Turn(i)
  }

  lemma {:induction false} TurnsAlternate(u: nat, r: nat)
    requires r <= u <= r + 1
    ensures |Turns(u, r)| == u + r && Alternates(Turns(u, r))
  {
    if u > 0 {
      if r < u {
        TurnsAlternate(r, r);
      } else {
        TurnsAlternate(u, u - 1);
      }
    }
  }

  /** What a check announces, if anything, is the event whose turn it is. */
  lemma AnnouncedInTurn(checks: seq<Outcome>, n: nat)
    requires n < |checks|
    ensures Announced(checks, n) == [] || Announced(checks, n) == [Turn(|Events(checks, n)|)]
  {
    EventsTellOutages(checks, n + 1);
    TurnsAlternate(Begun(checks, n + 1, n + 1), Ended(checks, n + 1));
    AnnouncedIs(checks, n);
    var before, e := Events(checks, n), Announced(checks, n);
    assert Events(checks, n + 1) == before + e;
    if e != [] {
      assert (before + e)[|before|] == e[0];
    }
  }

  /** Every announced event is in the outbox or lost. */
  lemma {:induction false} EnqueuedOrLost(checks: seq<Outcome>, enqueued: seq<bool>, n: nat)
    requires n <= |checks| == |enqueued|
    ensures |Outbox(checks, enqueued, n)| + Lost(checks, enqueued, n) == |Events(checks, n)|
  {
    if n > 0 {
      EnqueuedOrLost(checks, enqueued, n - 1);
      AnnouncedInTurn(checks, n - 1);
    }
  }

  /** Check i enqueues an event. */
  ghost predicate Enqueues(checks: seq<Outcome>, enqueued: seq<bool>, i: nat)
    requires i < |checks| == |enqueued|
  {
    enqueued[i] && Announced(checks, i) != []
  }

  /** Every event that was enqueued came after an even number of lost ones. */
  ghost predicate LostInPairs(checks: seq<Outcome>, enqueued: seq<bool>, n: nat)
    requires n <= |checks| == |enqueued|
  {
    forall i | 0 <= i < n && Enqueues(checks, enqueued, i) :: Lost(checks, enqueued, i) % 2 == 0
  }

  lemma AlternatesSnoc(events: seq<EventType>, e: EventType)
    ensures Alternates(events + [e]) <==> Alternates(events) && e == Turn(|events|)
  {
    assert forall i | 0 <= i < |events| :: (events + [e])[i] == events[i];
    assert (events + [e])[|events|] == e;
  }

  /** An event fits the outbox exactly when an even number was lost before it. */
  lemma FitsIffEven(kept: nat, lost: nat)
    ensures Turn(kept + lost) == Turn(kept) <==> lost % 2 == 0
  {
  }

  /**
  With failing Enqueues, the outbox still has outages and recoveries in strict turn if and only if
  every event enqueued came after an even number of lost ones.
  */
  lemma {:induction false} OutboxAlternatesIff(checks: seq<Outcome>, enqueued: seq<bool>, n: nat)
    requires n <= |checks| == |enqueued|
    ensures Alternates(Outbox(checks, enqueued, n)) <==> LostInPairs(checks, enqueued, n)
  {
    if n > 0 {
      var m := n - 1;
      OutboxAlternatesIff(checks, enqueued, m);
      var kept, lost := Outbox(checks, enqueued, m), Lost(checks, enqueued, m);
      assert LostInPairs(checks, enqueued, n) <==>
             LostInPairs(checks, enqueued, m) && (Enqueues(checks, enqueued, m) ==> lost % 2 == 0);
      if Enqueues(checks, enqueued, m) {
        EnqueuedOrLost(checks, enqueued, m);
        AnnouncedInTurn(checks, m);
        AlternatesSnoc(kept, Turn(|kept| + lost));
        FitsIffEven(|kept|, lost);
      } else {
        assert Outbox(checks, enqueued, n) == kept;
      }
    }
  }

  /**
  An outage is announced once and never again: at its second failure, with its recovery at the success
  that ends it and nothing in between. So a lost unhealthy is made up for by no later failure, and
  whether its recovery is told does not depend on whether it was.
  */
  lemma OutageAnnouncedOnce(checks: seq<Outcome>, a: nat, b: nat, i: nat)
    requires FailureRun(checks, |checks|, a, b) && b >= a + FAILURES_FOR_EVENT && a <= i <= b && i < |checks|
    ensures Announced(checks, i) == if i == a + 1 then [Unhealthy] else if i == b then [Recovered] else []
  {
    AnnouncedIs(checks, i);
  }

  /** The checks a..b are an outage that check b ended. */
  ghost predicate EndedOutage(checks: seq<Outcome>, a: nat, b: nat) {
    FailureRun(checks, |checks|, a, b) && a + FAILURES_FOR_EVENT <= b < |checks|
  }

  /** Whoever is told of a recovery was told of its outage. */
  ghost predicate RecoveriesAreTold(checks: seq<Outcome>, enqueued: seq<bool>)
    requires |checks| == |enqueued|
  {
    forall a: nat, b: nat | EndedOutage(checks, a, b) ::
      Recovered in Told(checks, enqueued, b) ==> exists i | a <= i < b :: Unhealthy in Told(checks, enqueued, i)
  }

  /** What check i puts in the outbox. */
  function Told(checks: seq<Outcome>, enqueued: seq<bool>, i: nat): seq<EventType>
    requires i < |checks| == |enqueued|
  {
    if enqueued[i] then Announced(checks, i) else []
  }

  /** A failure of an outage tells its unhealthy, if it is the second and its Enqueue succeeds. */
  lemma ToldAt(checks: seq<Outcome>, enqueued: seq<bool>, a: nat, b: nat, i: nat)
    requires |checks| == |enqueued| && EndedOutage(checks, a, b) && a <= i < b
    ensures Told(checks, enqueued, i) == if i == a + 1 && enqueued[i] then [Unhealthy] else []
  {
    OutageAnnouncedOnce(checks, a, b, i);
  }

  /**
  Recovery is announced only to somebody who was told about the outage if and only if, for every outage
  that ended, the Enqueue at its end fails or the one at its second failure succeeds.
  */
  lemma RecoveriesAreToldIff(checks: seq<Outcome>, enqueued: seq<bool>)
    requires |checks| == |enqueued|
    ensures RecoveriesAreTold(checks, enqueued) <==>
            forall a: nat, b: nat | EndedOutage(checks, a, b) :: enqueued[b] ==> enqueued[a + 1]
  {
    forall a: nat, b: nat | EndedOutage(checks, a, b)
      ensures (Recovered in Told(checks, enqueued, b) <==> enqueued[b])
           && ((exists i | a <= i < b :: Unhealthy in Told(checks, enqueued, i)) <==> enqueued[a + 1])
    {
      OutageAnnouncedOnce(checks, a, b, b);
      forall i | a <= i < b ensures Unhealthy in Told(checks, enqueued, i) <==> i == a + 1 && enqueued[i] {
        ToldAt(checks, enqueued, a, b, i);
      }
    }
  }

  /** Two outages of two failures each, both ended. */
  predicate TwoOutages(checks: seq<Outcome>) {
    && |checks| == 6 && !checks[0].ok && !checks[1].ok && checks[2].ok
    && !checks[3].ok && !checks[4].ok && checks[5].ok
  }

  lemma OnlyTwoOutages(checks: seq<Outcome>, a: nat, b: nat)
    requires TwoOutages(checks)
    ensures EndedOutage(checks, a, b) <==> (a == 0 && b == 2) || (a == 3 && b == 5)
  {
    if EndedOutage(checks, a, b) {
      assert checks[b].ok && !checks[a].ok;
    }
  }

  /** With the first recovery and the second unhealthy lost, the turns are kept and a recovery is untold. */
  lemma UntoldInTurn(checks: seq<Outcome>)
    requires TwoOutages(checks)
    ensures var enqueued := [true, true, false, true, false, true];
            Alternates(Outbox(checks, enqueued, 6)) && !RecoveriesAreTold(checks, enqueued)
  {
    var enqueued := [true, true, false, true, false, true];
    OnlyTwoOutages(checks, 0, 2);
    OnlyTwoOutages(checks, 3, 5);
    TwoOutagesTold(checks, enqueued);
    assert Outbox(checks, enqueued, 6) == [Unhealthy, Recovered];
    RecoveriesAreToldIff(checks, enqueued);
    assert EndedOutage(checks, 3, 5) && enqueued[5] && !enqueued[4];
  }

  /** With the first recovery alone lost, every recovery in the outbox is told and the turns are not kept. */
  lemma ToldOutOfTurn(checks: seq<Outcome>)
    requires TwoOutages(checks)
    ensures var enqueued := [true, true, false, true, true, true];
            !Alternates(Outbox(checks, enqueued, 6)) && RecoveriesAreTold(checks, enqueued)
  {
    var enqueued := [true, true, false, true, true, true];
    OnlyTwoOutages(checks, 0, 2);
    OnlyTwoOutages(checks, 3, 5);
    TwoOutagesTold(checks, enqueued);
    assert Outbox(checks, enqueued, 6)[1] == Unhealthy != Turn(1);
    forall a: nat, b: nat | EndedOutage(checks, a, b) ensures enqueued[b] ==> enqueued[a + 1] {
      OnlyTwoOutages(checks, a, b);
    }
    RecoveriesAreToldIff(checks, enqueued);
  }

  lemma TwoOutagesTold(checks: seq<Outcome>, enqueued: seq<bool>)
    requires |checks| == 6 == |enqueued| && EndedOutage(checks, 0, 2) && EndedOutage(checks, 3, 5)
    ensures Outbox(checks, enqueued, 6) ==
            (if enqueued[1] then [Unhealthy] else []) + (if enqueued[2] then [Recovered] else []) +
            (if enqueued[4] then [Unhealthy] else []) + (if enqueued[5] then [Recovered] else [])
  {
    OutageAnnouncedOnce(checks, 0, 2, 0);
    OutageAnnouncedOnce(checks, 0, 2, 1);
    OutageAnnouncedOnce(checks, 0, 2, 2);
    OutageAnnouncedOnce(checks, 3, 5, 3);
    OutageAnnouncedOnce(checks, 3, 5, 4);
    OutageAnnouncedOnce(checks, 3, 5, 5);
    assert Outbox(checks, enqueued, 1) == [];
    assert Outbox(checks, enqueued, 2) == if enqueued[1] then [Unhealthy] else [];
    assert Outbox(checks, enqueued, 4) == Outbox(checks, enqueued, 3);
  }

  /**
  Recovery is announced to somebody who was never told of the outage: two failures whose unhealthy is
  lost, and then a success.
  */
  lemma UntoldRecovery(checks: seq<Outcome>)
    requires |checks| == 3 && !checks[0].ok && !checks[1].ok && checks[2].ok
    ensures Outbox(checks, [true, false, true], 3) == [Recovered]
  {
    assert FailureRun(checks, 3, 0, 2);
    OutageAnnouncedOnce(checks, 0, 2, 0);
    OutageAnnouncedOnce(checks, 0, 2, 2);
    var enqueued := [true, false, true];
    assert Outbox(checks, enqueued, 1) == [];
    assert Outbox(checks, enqueued, 2) == [];
  }
}
