/**
Concurrent writes through the overlay of store/overlay.go, one store call at a time: a state write of a
platform entity reads the shadow row, creates it, reads it again and updates it, and the store calls of
any number of writers interleave.

Every run is shown to be one of whole calls made one after the other: each takes effect at one of its
store calls, with the answer `Apply` gives there. What PlatformEntities proves of sequences of calls
therefore holds of every interleaving.
*/
module PlatformConcurrency {
  import opened Wrappers
  import opened OverlayListing
  import opened PlatformEntities

  /** Where a writer is. `at` is its place among the calls that took effect; a failed one may have none. */
  datatype Phase =
    | Begun
    | Creating
    | Rereading
    | Writing
    | Done(err: Option<Error>, at: nat)
    | Broken(place: Option<nat>)
  {
    predicate Active() {
      !Done? && !Broken?
    }

    function Place(): Option<nat> {
      if Done? then Some(at) else if Broken? then place else None
    }
  }

  /** `since` is the number of calls that had taken effect when it began. */
  datatype Writer = Writer(step: Step, phase: Phase, since: nat)

  /** `log` and `whose` are history: the calls in the order they took effect, and whose they are. */
  datatype World = World(ts: Tables, writers: map<nat, Writer>, log: seq<Step>, whose: seq<nat>)

  function KeyOf(call: Call): Key {
    Key(call.kind, SYSTEM, call.id)
  }

  /** A call the overlay turns into a write of a shadow row. */
  predicate Routed(cat: Catalog, step: Step) {
    && IsPlatformID(step.call.id) && (step.call.kind, step.call.id) in cat && step.tenant == SYSTEM
    && match step.call
       case Update(kind, id, row) => !kind.IsMailbox() && SameConfig(kind, cat[(kind, id)], row.cols)
       case UpdateHealth(kind, _, _) => kind.IsMailbox()
       case _ => false
  }

  /** The row its Create writes. */
  function FirstRow(call: Call): Row {
    match call
    case Update(kind, _, row) => Row(ShadowOf(kind, row.cols), 0)
    case UpdateHealth(_, _, health) => HealthRow(health)
    case _ => HealthRow(ZERO)
  }

  /** The update of the row that is there. */
  function Rewrite(call: Call): Call {
    match call
    case Update(kind, id, row) => Update(kind, id, Row(ShadowOf(kind, row.cols), row.version))
    case _ => call
  }

  /** What one store call leads to: the call takes effect with an answer, or goes on. */
  datatype Result = Lands(w: Written) | GoesOn(next: Phase)

  /** The next store call of a writer. */
  function Act(cat: Catalog, ts: Tables, step: Step, phase: Phase): Result
    requires phase.Active()
  {
    var call := step.call;
    match phase
    case Begun =>
      if !IsPlatformID(call.id) then Lands(Inner(ts, step.tenant, call))
      else if !Routed(cat, step) then Lands(Written(Some(ReadOnly), ts))
      else if call.Update? then GoesOn(if KeyOf(call) in ts then Writing else Creating)
      else
        var w := Inner(ts, SYSTEM, call);
        if w.err == Some(NotFound) then GoesOn(Creating) else Lands(w)
    case Creating =>
      var w := Inner(ts, SYSTEM, Create(call.kind, call.id, FirstRow(call)));
      if w.err == Some(Conflict) then GoesOn(if call.Update? then Rereading else Writing) else Lands(w)
    case Rereading => if KeyOf(call) in ts then GoesOn(Writing) else Lands(Written(Some(NotFound), ts))
    case Writing => Lands(Inner(ts, SYSTEM, Rewrite(call)))
  }

  datatype Move = Begin(n: nat, step: Step) | Do(n: nat, executed: bool, answered: bool)

  /** A store call may fail, before or after it was executed; its writer then gives up. */
  ghost predicate Next(cat: Catalog, w: World, w': World, move: Move) {
    match move
    case Begin(n, step) =>
      n !in w.writers && w' == w.(writers := w.writers[n := Writer(step, Begun, |w.log|)])
    case Do(n, executed, answered) =>
      && n in w.writers && w.writers[n].phase.Active() && (answered ==> executed)
      && var v := w.writers[n];
         var r := Act(cat, w.ts, v.step, v.phase);
         if !executed then w' == At(w, n, Broken(None))
         else if r.GoesOn? then w' == At(w, n, if answered then r.next else Broken(None))
         else w' == At(Landed(w, n, r.w.tables), n,
                       if answered then Done(r.w.err, |w.log|) else Broken(Some(|w.log|)))
  }

  function At(w: World, n: nat, phase: Phase): World
    requires n in w.writers
  {
    w.(writers := w.writers[n := w.writers[n].(phase := phase)])
  }

  function Landed(w: World, n: nat, ts: Tables): World
    requires n in w.writers
  {
    w.(ts := ts, log := w.log + [w.writers[n].step], whose := w.whose + [n])
  }

  ghost predicate Run(cat: Catalog, tr: seq<World>, moves: seq<Move>) {
    && |tr| == |moves| + 1
    && tr[0].writers == map[] && tr[0].log == [] && tr[0].whose == []
    && forall i | 0 <= i < |moves| :: Next(cat, tr[i], tr[i + 1], moves[i])
  }

  // ----- each call takes effect at one store call -----------------------------------------------------------------

  /** What a writer knows: once it has found the shadow row there, the row stays. */
  ghost predicate Knows(cat: Catalog, ts: Tables, step: Step, phase: Phase) {
    match phase
    case Creating => Routed(cat, step)
    case Rereading => Routed(cat, step) && step.call.Update? && KeyOf(step.call) in ts
    case Writing => Routed(cat, step) && KeyOf(step.call) in ts
    case _ => true
  }

  /** A call lands as the whole call would there, and one that goes on has changed nothing and knows more. */
  lemma ActIsApply(cat: Catalog, ts: Tables, step: Step, phase: Phase)
    requires phase.Active() && Knows(cat, ts, step, phase)
    ensures match Act(cat, ts, step, phase)
            case Lands(w) => w == Apply(cat, ts, step.tenant, step.call)
            case GoesOn(next) => next.Active() && Knows(cat, ts, step, next)
  {
  }

  /** The store calls a writer has left at most. */
  ghost function Remaining(phase: Phase): nat {
    match phase
    case Begun => 4
    case Creating => 3
    case Rereading => 2
    case Writing => 1
    case _ => 0
  }

  /** No writer tries again and again: every store call leaves it fewer, so four are the most it makes. */
  lemma EveryCallIsProgress(cat: Catalog, w: World, w': World, n: nat, executed: bool, answered: bool)
    requires Next(cat, w, w', Do(n, executed, answered))
    ensures n in w'.writers && Remaining(w'.writers[n].phase) < Remaining(w.writers[n].phase) <= 4
  {
  }

  lemma ApplyKeepsShadows(cat: Catalog, ts: Tables, step: Step, key: Key)
    requires IsPlatformID(key.id) && key in ts
    ensures key in Apply(cat, ts, step.tenant, step.call).tables
  {
  }

  /** A writer's place holds its call, after its beginning; its answer is the whole call's there. */
  ghost predicate WriterOk(cat: Catalog, ts0: Tables, w: World, n: nat)
    requires n in w.writers
  {
    var v := w.writers[n];
    && Knows(cat, w.ts, v.step, v.phase) && v.since <= |w.log|
    && (v.phase.Place().Some? ==>
          var i := v.phase.Place().value;
          && v.since <= i < |w.log| && i < |w.whose| && w.log[i] == v.step && w.whose[i] == n
          && (v.phase.Done? ==>
                v.phase.err == Apply(cat, After(cat, ts0, w.log[..i]), v.step.tenant, v.step.call).err))
  }

  ghost predicate Writers(cat: Catalog, ts0: Tables, w: World) {
    forall n | n in w.writers :: WriterOk(cat, ts0, w, n)
  }

  /** Every call that took effect is that of one writer, which has its place. */
  ghost predicate Places(w: World) {
    && |w.whose| == |w.log|
    && forall i | 0 <= i < |w.whose| :: w.whose[i] in w.writers && w.writers[w.whose[i]].phase.Place() == Some(i)
  }

  ghost predicate Inv(cat: Catalog, ts0: Tables, w: World) {
    w.ts == After(cat, ts0, w.log) && Places(w) && Writers(cat, ts0, w)
  }

  lemma AfterSnoc(cat: Catalog, ts0: Tables, log: seq<Step>, step: Step)
    ensures After(cat, ts0, log + [step]) == Apply(cat, After(cat, ts0, log), step.tenant, step.call).tables
  {
    assert (log + [step])[..|log|] == log;
  }

  /** What a landing leaves of another writer. */
  lemma OtherKept(cat: Catalog, ts0: Tables, w: World, w': World, n: nat, step: Step)
    requires n in w.writers && WriterOk(cat, ts0, w, n) && n in w'.writers && w'.writers[n] == w.writers[n]
    requires |w.whose| == |w.log| && w.whose <= w'.whose
    requires w'.log == w.log || w'.log == w.log + [step]
    requires w'.ts == w.ts || w'.ts == Apply(cat, w.ts, step.tenant, step.call).tables
    ensures WriterOk(cat, ts0, w', n)
  {
    var v := w.writers[n];
    if v.phase.Place().Some? {
      assert w'.log[..v.phase.Place().value] == w.log[..v.phase.Place().value];
    }
    if KeyOf(v.step.call) in w.ts && Routed(cat, v.step) {
      ApplyKeepsShadows(cat, w.ts, step, KeyOf(v.step.call));
    }
  }

  lemma BeginPreserves(cat: Catalog, ts0: Tables, w: World, w': World, move: Move)
    requires Inv(cat, ts0, w) && move.Begin? && Next(cat, w, w', move)
    ensures Inv(cat, ts0, w')
  {
    forall n | n in w'.writers ensures WriterOk(cat, ts0, w', n) {
      if n != move.n {
        OtherKept(cat, ts0, w, w', n, move.step);
      }
    }
  }

  /** A store call that lands nothing. */
  lemma QuietPreserves(cat: Catalog, ts0: Tables, w: World, n: nat, next: Phase)
    requires Inv(cat, ts0, w) && n in w.writers && w.writers[n].phase.Active()
    requires next.Place().None? && Knows(cat, w.ts, w.writers[n].step, next)
    ensures Inv(cat, ts0, At(w, n, next))
  {
    var w' := At(w, n, next);
    assert forall i | 0 <= i < |w.whose| :: w.whose[i] != n;
    forall m | m in w'.writers ensures WriterOk(cat, ts0, w', m) {
      assert WriterOk(cat, ts0, w, m);
    }
  }

  lemma LandingPreserves(cat: Catalog, ts0: Tables, w: World, n: nat, written: Written, next: Phase)
    requires Inv(cat, ts0, w) && n in w.writers && w.writers[n].phase.Active()
    requires var s := w.writers[n].step; written == Apply(cat, w.ts, s.tenant, s.call)
    requires next == Done(written.err, |w.log|) || next == Broken(Some(|w.log|))
    ensures Inv(cat, ts0, At(Landed(w, n, written.tables), n, next))
  {
    var step := w.writers[n].step;
    var w' := At(Landed(w, n, written.tables), n, next);
    AfterSnoc(cat, ts0, w.log, step);
    assert forall i | 0 <= i < |w.whose| :: w.whose[i] != n;
    assert w'.log[..|w.log|] == w.log;
    forall m | m in w'.writers ensures WriterOk(cat, ts0, w', m) {
      assert WriterOk(cat, ts0, w, m);
      if m != n {
        OtherKept(cat, ts0, w, w', m, step);
      }
    }
  }

  lemma Preserved(cat: Catalog, ts0: Tables, w: World, w': World, move: Move)
    requires Inv(cat, ts0, w) && Next(cat, w, w', move)
    ensures Inv(cat, ts0, w')
  {
    if move.Begin? {
      BeginPreserves(cat, ts0, w, w', move);
    } else {
      var n, v := move.n, w.writers[move.n];
      assert WriterOk(cat, ts0, w, n);
      ActIsApply(cat, w.ts, v.step, v.phase);
      var r := Act(cat, w.ts, v.step, v.phase);
      if !move.executed || r.GoesOn? {
        QuietPreserves(cat, ts0, w, n, if move.answered then r.next else Broken(None));
      } else {
        LandingPreserves(cat, ts0, w, n, r.w,
                         if move.answered then Done(r.w.err, |w.log|) else Broken(Some(|w.log|)));
      }
    }
  }

  lemma {:induction false} Invariant(cat: Catalog, tr: seq<World>, moves: seq<Move>, i: nat)
    requires Run(cat, tr, moves) && i < |tr|
    ensures Inv(cat, tr[0].ts, tr[i])
  {
    if i > 0 {
      Invariant(cat, tr, moves, i - 1);
      Preserved(cat, tr[0].ts, tr[i - 1], tr[i], moves[i - 1]);
    }
  }

  // ----- the guarantees ------------------------------------------------------------------------------------------

  /**
  However the store calls of the writers interleave and whichever fail, the tables are those after some
  whole calls one after the other. An answered writer's call is among them, at one place of its own
  after its beginning, with the answer it got; a failed one's is there at most once.
  */
  lemma EveryRunIsSerial(cat: Catalog, tr: seq<World>, moves: seq<Move>, i: nat, n: nat)
    requires Run(cat, tr, moves) && i < |tr|
    ensures tr[i].ts == After(cat, tr[0].ts, tr[i].log) && |tr[i].whose| == |tr[i].log|
    ensures n in tr[i].writers && tr[i].writers[n].phase.Done? ==>
              var Writer(step, Done(err, at), since) := tr[i].writers[n];
              && since <= at < |tr[i].log| && tr[i].log[at] == step
              && err == Apply(cat, After(cat, tr[0].ts, tr[i].log[..at]), step.tenant, step.call).err
    ensures forall j, k | 0 <= j < k < |tr[i].whose| :: tr[i].whose[j] != tr[i].whose[k]
  {
    Invariant(cat, tr, moves, i);
    if n in tr[i].writers {
      assert WriterOk(cat, tr[0].ts, tr[i], n);
    }
    assert Places(tr[i]);
  }

  lemma {:induction false} HistoryStays(cat: Catalog, tr: seq<World>, moves: seq<Move>, i: nat, j: nat)
    requires Run(cat, tr, moves) && i <= j < |tr|
    ensures tr[i].whose <= tr[j].whose && tr[i].log <= tr[j].log
    ensures forall n | n in tr[j].writers && n !in tr[i].writers :: |tr[i].log| <= tr[j].writers[n].since
  {
    if i < j {
      HistoryStays(cat, tr, moves, i, j - 1);
      assert Next(cat, tr[j - 1], tr[j], moves[j - 1]);
    }
  }

  /** The order is that of time: a call that took effect before another began comes before it. */
  lemma EarlierComesFirst(cat: Catalog, tr: seq<World>, moves: seq<Move>, i: nat, j: nat, m: nat, n: nat)
    requires Run(cat, tr, moves) && i <= j < |tr| && m in tr[i].writers && n !in tr[i].writers && n in tr[j].writers
    requires tr[i].writers[m].phase.Place().Some? && tr[j].writers[n].phase.Place().Some?
    ensures var p, q := tr[i].writers[m].phase.Place().value, tr[j].writers[n].phase.Place().value;
            p < q < |tr[j].whose| && tr[j].whose[p] == m && tr[j].whose[q] == n
  {
    Invariant(cat, tr, moves, i);
    Invariant(cat, tr, moves, j);
    HistoryStays(cat, tr, moves, i, j);
    assert WriterOk(cat, tr[0].ts, tr[i], m) && WriterOk(cat, tr[0].ts, tr[j], n);
  }

  /** No interleaving stores configuration. */
  lemma NoRunStoresConfiguration(cat: Catalog, tr: seq<World>, moves: seq<Move>, i: nat)
    requires Run(cat, tr, moves) && i < |tr| && OnlyShadows(cat, tr[0].ts)
    ensures OnlyShadows(cat, tr[i].ts)
  {
    Invariant(cat, tr, moves, i);
    ConfigurationIsNeverStored(cat, tr[0].ts, tr[i].log);
  }
}
