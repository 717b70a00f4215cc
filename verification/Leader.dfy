/**
Leader election of internal/control/leader.go over the lock contract of store/lock.go: replicas
acquire a lease, run the leader loops while they renew it, stop the loops, and release it.

`LockRepo` is one lock record. `Next` is one step of any number of replicas with a shared clock that
never goes back. A replica stamps a lock request with the clock before the store executes it, so a
request may execute late; a call may fail after the store executed it; and a request whose caller got
an error and moved on may still execute at any later time, or never.
*/
module LeaderElection {
  import opened Wrappers

  datatype Lock = Lock(owner: string, expiresAt: int)

  datatype LockReply = LockReply(ok: bool, lock: Option<Lock>)

  /** Takes the lock, renews it, or takes it over when it expired at or before now. */
  function Acquired(cur: Option<Lock>, owner: string, ttl: int, now: int): LockReply {
    if cur.Some? && cur.value.owner != owner && cur.value.expiresAt > now then LockReply(false, cur)
    else LockReply(true, Some(Lock(owner, now + ttl)))
  }

  function Renewed(cur: Option<Lock>, owner: string, ttl: int, now: int): LockReply {
    if cur.None? || cur.value.owner != owner || cur.value.expiresAt <= now then LockReply(false, cur)
    else LockReply(true, Some(Lock(owner, now + ttl)))
  }

  function Released(cur: Option<Lock>, owner: string): Option<Lock> {
    if cur.Some? && cur.value.owner == owner then None else cur
  }

  class LockRepo {
    var lock: Option<Lock>

    constructor ()
      ensures lock == None
    {
      lock := None;
    }

    method Acquire(owner: string, ttl: int, now: int) returns (ok: bool)
      modifies this
      ensures LockReply(ok, lock) == Acquired(old(lock), owner, ttl, now)
      ensures ok <==> old(lock).None? || old(lock).value.owner == owner || old(lock).value.expiresAt <= now
    {
      if lock.Some? && lock.value.owner != owner && lock.value.expiresAt > now {
        return false;
      }
      lock := Some(Lock(owner, now + ttl));
      return true;
    }

    method Renew(owner: string, ttl: int, now: int) returns (ok: bool)
      modifies this
      ensures LockReply(ok, lock) == Renewed(old(lock), owner, ttl, now)
      ensures ok <==> old(lock).Some? && old(lock).value.owner == owner && old(lock).value.expiresAt > now
    {
      if lock.None? || lock.value.owner != owner || lock.value.expiresAt <= now {
        return false;
      }
      lock := Some(Lock(owner, now + ttl));
      return true;
    }

    method Release(owner: string)
      modifies this
      ensures lock == Released(old(lock), owner)
      ensures old(lock).Some? && old(lock).value.owner != owner ==> lock == old(lock)
    {
      if lock.Some? && lock.value.owner == owner {
        lock := None;
      }
    }
  }

  // ----- replicas ------------------------------------------------------------------------------------

  /**
  A replica between attempts, holding the lease with the loops running, stopping (the loops may still
  be running), or stopped (the loops have ended, the lease not yet released). `until` is the expiry
  its last successful Acquire or Renew set.
  */
  datatype Replica = Idle | Leading(until: int) | Stopping(until: int) | Stopped {
    predicate RunsLoops() {
      Leading? || Stopping?
    }
  }

  /** A request whose caller gave up on it before the store executed it. */
  datatype Request = LateAcquire(r: string, stamp: int) | LateRenew(r: string, stamp: int) | LateRelease(r: string)

  datatype World = World(
    ttl: int, now: int, lock: Option<Lock>, replicas: map<string, Replica>, late: multiset<Request>)

  /** How a request goes: executed and answered, executed with an error for an answer, or not executed yet. */
  datatype Way = Answered | Unanswered | InFlight

  datatype Step =
    | Tick(to: int)
    | Acquire(r: string, stamp: int, way: Way)
    | Renew(r: string, stamp: int, way: Way)
    | Shutdown(r: string)
    | LoopsEnd(r: string)
    | Release(r: string, executed: bool)
    | Arrive(req: Request)

  ghost predicate In(w: World, r: string) {
    r in w.replicas
  }

  function With(w: World, lock: Option<Lock>, r: string, to: Replica): World {
    w.(lock := lock, replicas := w.replicas[r := to])
  }

  function GivenUp(w: World, req: Request, to: Replica): World {
    w.(replicas := w.replicas[req.r := to], late := w.late + multiset{req})
  }

  function Executed(w: World, req: Request): Option<Lock> {
    match req
    case LateAcquire(r, stamp) => Acquired(w.lock, r, w.ttl, stamp).lock
    case LateRenew(r, stamp) => Renewed(w.lock, r, w.ttl, stamp).lock
    case LateRelease(r) => Released(w.lock, r)
  }

  ghost predicate Next(w: World, w': World, step: Step) {
    match step
    case Tick(to) => w.now <= to && w' == w.(now := to)
    case Acquire(r, stamp, way) =>
      // attempt: an answer that is an error leaves the replica idle, whatever the store did
      && In(w, r) && w.replicas[r].Idle? && stamp <= w.now
      && var reply := Acquired(w.lock, r, w.ttl, stamp);
         w' == (if way.InFlight? then GivenUp(w, LateAcquire(r, stamp), Idle)
                else With(w, reply.lock, r, if way.Answered? && reply.ok then Leading(stamp + w.ttl) else Idle))
    case Renew(r, stamp, way) =>
      // hold: a failed or refused renewal stops the loops
      && In(w, r) && w.replicas[r].Leading? && w.replicas[r].until - w.ttl <= stamp <= w.now
      && var reply, stopping := Renewed(w.lock, r, w.ttl, stamp), Stopping(w.replicas[r].until);
         w' == (if way.InFlight? then GivenUp(w, LateRenew(r, stamp), stopping)
                else With(w, reply.lock, r, if way.Answered? && reply.ok then Leading(stamp + w.ttl) else stopping))
    case Shutdown(r) =>
      In(w, r) && w.replicas[r].Leading? && w' == With(w, w.lock, r, Stopping(w.replicas[r].until))
    case LoopsEnd(r) =>
      In(w, r) && w.replicas[r].Stopping? && w' == With(w, w.lock, r, Stopped)
    case Release(r, executed) =>
      && In(w, r) && w.replicas[r].Stopped?
      && w' == if executed then With(w, Released(w.lock, r), r, Idle) else GivenUp(w, LateRelease(r), Idle)
    case Arrive(req) =>
      req in w.late && w' == w.(lock := Executed(w, req), late := w.late - multiset{req})
  }

  ghost predicate Run(tr: seq<World>, steps: seq<Step>) {
    && |tr| == |steps| + 1
    && tr[0].lock.None? && tr[0].late == multiset{} && (forall r | In(tr[0], r) :: tr[0].replicas[r].Idle?)
    && forall i | 0 <= i < |steps| :: Next(tr[i], tr[i + 1], steps[i])
  }

  /** The replica runs the loops although the lease it last obtained has run out. */
  ghost predicate Overdue(w: World, r: string)
    requires In(w, r) && w.replicas[r].RunsLoops()
  {
    w.replicas[r].until <= w.now
  }

  /** The replica runs the loops within the lease it last obtained. */
  ghost predicate Leads(w: World, r: string) {
    In(w, r) && w.replicas[r].RunsLoops() && !Overdue(w, r)
  }

  /** A replica running the loops within its lease owns the lock, for at least as long. */
  ghost predicate Inv(w: World) {
    forall r | Leads(w, r) ::
      w.lock.Some? && w.lock.value.owner == r && w.replicas[r].until <= w.lock.value.expiresAt
  }

  /** Requests are stamped when they are sent. */
  ghost predicate Stamped(w: World) {
    forall req | req in w.late && !req.LateRelease? :: req.stamp <= w.now
  }

  lemma {:induction false} AlwaysStamped(tr: seq<World>, steps: seq<Step>, i: nat)
    requires Run(tr, steps) && i < |tr|
    ensures Stamped(tr[i])
  {
    if i > 0 {
      AlwaysStamped(tr, steps, i - 1);
      assert Next(tr[i - 1], tr[i], steps[i - 1]);
    }
  }

  /**
  What a replica makes of an answer: it leads only after an Acquire that was granted, until the expiry
  that one set; it goes on leading only after a renewal that was granted, until the new expiry; and any
  other answer to a renewal, an error among them, stops it.
  */
  lemma AnswersDecide(w: World, w': World, step: Step, r: string)
    requires Next(w, w', step) && In(w, r)
    ensures In(w', r)
    ensures step.Acquire? && step.r == r ==>
              w'.replicas[r] == if step.way == Answered && (w.lock.None? || w.lock.value.owner == r
                                                            || w.lock.value.expiresAt <= step.stamp)
                                then Leading(step.stamp + w.ttl) else Idle
    ensures step.Renew? && step.r == r ==>
              w'.replicas[r] == if step.way == Answered && w.lock.Some? && w.lock.value.owner == r
                                   && w.lock.value.expiresAt > step.stamp
                                then Leading(step.stamp + w.ttl) else Stopping(w.replicas[r].until)
    ensures step.Release? && step.r == r ==> w'.replicas[r] == Idle
    ensures (step.Acquire? || step.Renew? || step.Release?) && step.r != r ==> w'.replicas[r] == w.replicas[r]
    ensures step.Tick? || step.Arrive? ==> w'.replicas[r] == w.replicas[r]
  {
  }

  /**
  What the store makes of a request, in time or late: an Acquire or a Renew that is granted sets the lock
  to its owner until a lease after its stamp, a Release drops one's own lock, and nothing else changes it.
  */
  lemma RequestsDecide(w: World, w': World, step: Step)
    requires Next(w, w', step)
    ensures w'.lock ==
            match step
            case Acquire(r, stamp, way) => if way == InFlight then w.lock else Granted(w, r, stamp, true)
            case Renew(r, stamp, way) => if way == InFlight then w.lock else Granted(w, r, stamp, false)
            case Release(r, executed) => if executed && Owns(w, r) then None else w.lock
            case Arrive(LateAcquire(r, stamp)) => Granted(w, r, stamp, true)
            case Arrive(LateRenew(r, stamp)) => Granted(w, r, stamp, false)
            case Arrive(LateRelease(r)) => if Owns(w, r) then None else w.lock
            case _ => w.lock
  {
  }

  ghost predicate Owns(w: World, r: string) {
    w.lock.Some? && w.lock.value.owner == r
  }

  /** The lock is live for the holder at the stamp; only an Acquire may take one that is not. */
  ghost function Granted(w: World, r: string, stamp: int, acquires: bool): Option<Lock> {
    var live := w.lock.Some? && w.lock.value.expiresAt > stamp;
    if (live && Owns(w, r)) || (acquires && (!live || Owns(w, r))) then Some(Lock(r, stamp + w.ttl)) else w.lock
  }

  // ----- requests that execute after their caller moved on -------------------------------------------------------

  /**
  A late request does no harm unless its replica runs the loops again within a newer lease: a Release
  would then drop that lease, an Acquire or Renew shorten it.
  */
  ghost predicate Harmless(w: World, req: Request) {
    Leads(w, req.r) ==> !req.LateRelease? && w.replicas[req.r].until <= req.stamp + w.ttl
  }

  lemma ArrivalKeepsIffHarmless(w: World, w': World, req: Request)
    requires Inv(w) && Stamped(w) && Next(w, w', Arrive(req))
    ensures Inv(w') <==> Harmless(w, req)
  {
    assert forall r :: Leads(w, r) <==> Leads(w', r);
    if Leads(w, req.r) {
      assert w'.lock.Some? ==> w'.lock.value.owner == req.r;
    }
  }

  lemma Preserved(w: World, w': World, step: Step)
    requires Inv(w) && Next(w, w', step) && !step.Arrive?
    ensures Inv(w')
  {
    forall r | Leads(w', r)
      ensures w'.lock.Some? && w'.lock.value.owner == r && w'.replicas[r].until <= w'.lock.value.expiresAt
    {
      assert In(w, r);
    }
  }

  /** Every late request that executes in the first n steps does no harm. */
  ghost predicate HarmlessUpTo(tr: seq<World>, steps: seq<Step>, n: nat)
    requires |tr| == |steps| + 1
  {
    forall i | 0 <= i < n && i < |steps| && steps[i].Arrive? :: Harmless(tr[i], steps[i].req)
  }

  lemma {:induction false} Invariant(tr: seq<World>, steps: seq<Step>, i: nat)
    requires Run(tr, steps) && i < |tr| && HarmlessUpTo(tr, steps, i)
    ensures Inv(tr[i])
  {
    if i > 0 {
      Invariant(tr, steps, i - 1);
      AlwaysStamped(tr, steps, i - 1);
      if steps[i - 1].Arrive? {
        ArrivalKeepsIffHarmless(tr[i - 1], tr[i], steps[i - 1].req);
      } else {
        Preserved(tr[i - 1], tr[i], steps[i - 1]);
      }
    }
  }

  /**
  Whoever runs the loops within its lease owns the lock at every point of a run, exactly when no late
  request of the run does harm.
  */
  lemma OwnersLeadIffHarmless(tr: seq<World>, steps: seq<Step>)
    requires Run(tr, steps)
    ensures (forall i | 0 <= i < |tr| :: Inv(tr[i])) <==> HarmlessUpTo(tr, steps, |steps|)
  {
    if HarmlessUpTo(tr, steps, |steps|) {
      forall i | 0 <= i < |tr| ensures Inv(tr[i]) {
        Invariant(tr, steps, i);
      }
    }
    if forall i | 0 <= i < |tr| :: Inv(tr[i]) {
      forall i | 0 <= i < |steps| && steps[i].Arrive? ensures Harmless(tr[i], steps[i].req) {
        AlwaysStamped(tr, steps, i);
        ArrivalKeepsIffHarmless(tr[i], tr[i + 1], steps[i].req);
      }
    }
  }

  /** Two replicas run the loops at once, each within its lease. */
  ghost predicate Overlap(w: World, r: string, q: string) {
    r != q && Leads(w, r) && Leads(w, q)
  }

  /**
  The condition is not too strong: after a late request that does harm, any idle replica that asks
  for the lock when it is due gets it, and both lead.
  */
  lemma HarmMeansOverlap(w: World, w': World, req: Request, q: string) returns (w1: World, w2: World, t: int)
    requires Inv(w) && Stamped(w) && Next(w, w', Arrive(req)) && !Harmless(w, req)
    requires w.ttl > 0 && In(w, q) && w.replicas[q].Idle?
    ensures Next(w', w1, Tick(t)) && Next(w1, w2, Acquire(q, t, Answered)) && Overlap(w2, req.r, q)
  {
    t := if req.LateRelease? || req.stamp + w.ttl <= w.now then w.now else req.stamp + w.ttl;
    w1 := w'.(now := t);
    w2 := With(w1, Acquired(w1.lock, q, w.ttl, t).lock, q, Leading(t + w.ttl));
  }

  /** The replica "a" gives up on an Acquire, leads with a later one, and the first then executes. */
  function LateAcquireSteps(): seq<Step> {
    [Acquire("a", 0, InFlight), Tick(1), Acquire("a", 1, Answered), Arrive(LateAcquire("a", 0)), Tick(10),
     Acquire("b", 10, Answered)]
  }

  /** It happens: with a lease of 10, "b" takes the lock at 10 while "a" leads until 11. */
  lemma LateAcquireOverlaps() returns (tr: seq<World>)
    ensures Run(tr, LateAcquireSteps()) && Overlap(tr[|tr| - 1], "a", "b")
  {
    var w0 := World(10, 0, None, map["a" := Idle, "b" := Idle], multiset{});
    var w1 := GivenUp(w0, LateAcquire("a", 0), Idle);
    var w2 := w1.(now := 1);
    var w3 := With(w2, Some(Lock("a", 11)), "a", Leading(11));
    var w4 := w3.(lock := Some(Lock("a", 10)), late := w3.late - multiset{LateAcquire("a", 0)});
    var w5 := w4.(now := 10);
    var w6 := With(w5, Some(Lock("b", 20)), "b", Leading(20));
    tr := [w0, w1, w2, w3, w4, w5, w6];
  }

  // ----- one leader at a time -----------------------------------------------------------------------------------

  /**
  In every run without harm two replicas run the leader loops at once only if one of them is past the
  expiry of its own last successful Acquire or Renew.
  */
  lemma OverlapOnlyWhenOverdue(tr: seq<World>, steps: seq<Step>, i: nat, r: string, q: string)
    requires Run(tr, steps) && i < |tr| && HarmlessUpTo(tr, steps, i) && r != q
    requires In(tr[i], r) && In(tr[i], q) && tr[i].replicas[r].RunsLoops() && tr[i].replicas[q].RunsLoops()
    ensures Overdue(tr[i], r) || Overdue(tr[i], q)
  {
    Invariant(tr, steps, i);
  }

  lemma TakesOver(w: World, w': World, step: Step, r: string, q: string)
    requires Inv(w) && Next(w, w', step) && In(w, r) && In(w', r)
    requires !w.replicas[r].RunsLoops() && w'.replicas[r].RunsLoops()
    ensures step.Acquire? && step.r == r && (q != r ==> !Leads(w, q))
  {
  }

  /**
  A hand-over never overlaps a leader that is within its lease: when a replica starts the loops,
  every other replica still running them is overdue. In particular the lease freed by a Release is
  taken without overlap, because the releasing replica's loops have already ended.
  */
  lemma HandOver(tr: seq<World>, steps: seq<Step>, i: nat, r: string)
    requires Run(tr, steps) && i < |steps| && HarmlessUpTo(tr, steps, i) && In(tr[i], r)
    requires !tr[i].replicas[r].RunsLoops() && In(tr[i + 1], r) && tr[i + 1].replicas[r].RunsLoops()
    ensures steps[i].Acquire? && steps[i].r == r
    ensures forall q | In(tr[i], q) && q != r && tr[i].replicas[q].RunsLoops() :: Overdue(tr[i], q)
  {
    Invariant(tr, steps, i);
    TakesOver(tr[i], tr[i + 1], steps[i], r, r);
    forall q | In(tr[i], q) && q != r && tr[i].replicas[q].RunsLoops() ensures Overdue(tr[i], q) {
      TakesOver(tr[i], tr[i + 1], steps[i], r, q);
    }
  }

  /** Releasing never takes the lock from another replica, and the releasing one runs no loops. */
  lemma ReleaseIsSafe(tr: seq<World>, steps: seq<Step>, i: nat, q: string)
    requires Run(tr, steps) && i < |steps| && HarmlessUpTo(tr, steps, i) && steps[i].Release? && Leads(tr[i], q)
    ensures q != steps[i].r && tr[i + 1].lock == tr[i].lock
  {
    Invariant(tr, steps, i);
    assert Next(tr[i], tr[i + 1], steps[i]);
  }

  /** No replica is ever overdue: each renews or ends its loops before its lease runs out. */
  ghost predicate Punctual(w: World) {
    forall r | In(w, r) && w.replicas[r].RunsLoops() :: !Overdue(w, r)
  }

  /** Among punctual replicas at most one runs the loops, and it is the owner of the lock. */
  lemma PunctualMeansExclusive(tr: seq<World>, steps: seq<Step>, i: nat)
    requires Run(tr, steps) && i < |tr| && HarmlessUpTo(tr, steps, i) && Punctual(tr[i])
    ensures forall r | In(tr[i], r) && tr[i].replicas[r].RunsLoops() ::
              tr[i].lock.Some? && tr[i].lock.value.owner == r
  {
    Invariant(tr, steps, i);
  }
}
