/**
What the lookup budget, the depth guard and the memo of the SPF evaluator guarantee, for every DNS
content, cyclic include and redirect chains among them.
*/
module SpfBudget {
  import opened Wrappers
  import opened Spf

  // ----- bounds ---------------------------------------------------------------------------------

  /** Lookups charged within the budget. */
  function Spent(c: Config, st: State): nat {
    Min(st.lookups, c.limit)
  }

  /** Every TXT query so far was for a different name, and the memo holds exactly those names. */
  ghost predicate AskedOnce(st: State) {
    && (forall i, j | 0 <= i < j < |st.asked| :: st.asked[i] != st.asked[j])
    && (forall k :: k in st.seen <==> k in st.asked)
  }

  /**
  What evaluating part of a record keeps: charges only grow and stop one past the budget, each
  check call beyond the first `own` is paid for by a charge, no check is deeper than the charges
  within the budget, and no name is asked twice.
  */
  ghost predicate Progress(c: Config, before: State, after: State, own: nat) {
    && before.lookups <= after.lookups <= c.limit + 1
    && after.calls + Spent(c, before) <= before.calls + own + Spent(c, after)
    && (before.deepest <= Spent(c, before) ==> after.deepest <= Spent(c, after))
    && |after.asked| + before.calls <= |before.asked| + after.calls
    && (c.memo && AskedOnce(before) ==> AskedOnce(after))
  }

  /** An overrun budget is a permerror, and errors accompany exactly the two error verdicts. */
  ghost predicate Sound(c: Config, r: Reply) {
    && (r.st.lookups > c.limit ==> r.verdict == Permerror)
    && (r.err <==> r.verdict == Permerror || r.verdict == Temperror)
  }

  lemma TxtBounds(c: Config, name: string, depth: nat, st: State)
    requires depth <= st.lookups <= c.limit
    ensures Progress(c, st, Txt(c, name, st.Entered(depth)).1, 1)
  {
    var key, after := c.w.lower(name), Txt(c, name, st.Entered(depth)).1;
    if c.memo && AskedOnce(st) && key !in st.seen {
      assert after.asked[|st.asked|] == key;
      forall k ensures k in after.seen <==> k in after.asked {
        if k in st.asked {
          var i :| 0 <= i < |st.asked| && st.asked[i] == k;
          assert after.asked[i] == k;
        }
      }
    }
  }

  lemma {:induction false} CheckBounds(c: Config, domain: string, ip: Option<IP>, depth: nat, st: State)
    requires depth <= st.lookups <= c.limit
    ensures var r := Check(c, domain, ip, depth, st); Progress(c, st, r.st, 1) && Sound(c, r)
    decreases Room(c, depth), 2, 0
  {
    if depth <= c.maxDepth {
      TxtBounds(c, domain, depth, st);
      var (answer, st1) := Txt(c, domain, st.Entered(depth));
      if answer.Txts? {
        var records := SpfRecords(c.w, answer.records);
        if |records| == 1 && c.w.parse(records[0]).Some? {
          TermsBounds(c, c.w.parse(records[0]).value, 0, "", domain, ip, depth, st1);
        }
      }
    }
  }

  lemma {:induction false} TermsBounds(c: Config, terms: seq<Term>, i: nat, redirect: string, domain: string,
                                       ip: Option<IP>, depth: nat, st: State)
    requires i <= |terms| && depth <= c.maxDepth && depth <= st.lookups <= c.limit
    ensures var r := Terms(c, terms, i, redirect, domain, ip, depth, st); Progress(c, st, r.st, 0) && Sound(c, r)
    decreases Room(c, depth), 1, |terms| - i
  {
    if i == |terms| {
      FollowBounds(c, redirect, ip, depth, st);
    } else if terms[i].name.Redirect? {
      TermsBounds(c, terms, i + 1, terms[i].value, domain, ip, depth, st);
    } else if !terms[i].IsMechanism() {
      TermsBounds(c, terms, i + 1, redirect, domain, ip, depth, st);
    } else {
      MatchBounds(c, terms[i], domain, ip, depth, st);
      var (m, st1) := Match(c, terms[i], domain, ip, depth, st);
      if m.Unmatched? {
        TermsBounds(c, terms, i + 1, redirect, domain, ip, depth, st1);
      }
    }
  }

  /** A check that a charge has paid for. */
  lemma Paid(c: Config, st: State, after: State)
    requires Charge(st).lookups <= c.limit && Progress(c, Charge(st), after, 1)
    ensures Progress(c, st, after, 0)
  {
    assert AskedOnce(st) ==> AskedOnce(Charge(st));
  }

  lemma IncludeBounds(c: Config, r: Reply)
    requires Sound(c, r)
    ensures var m := IncludeResult(r.verdict, r.err);
            && (r.st.lookups > c.limit ==> m == Hard(Permerror, true))
            && (m.Hard? ==> m.err && (m.verdict == Permerror || m.verdict == Temperror))
  {
  }

  lemma {:induction false} FollowBounds(c: Config, redirect: string, ip: Option<IP>, depth: nat, st: State)
    requires depth <= c.maxDepth && depth <= st.lookups <= c.limit
    ensures var r := Follow(c, redirect, ip, depth, st); Progress(c, st, r.st, 0) && Sound(c, r)
    decreases Room(c, depth), 0, 0
  {
    if redirect != "" && Charge(st).lookups <= c.limit {
      CheckBounds(c, redirect, ip, depth + 1, Charge(st));
      Paid(c, st, Check(c, redirect, ip, depth + 1, Charge(st)).st);
    }
  }

  lemma {:induction false} MatchBounds(c: Config, t: Term, domain: string, ip: Option<IP>, depth: nat, st: State)
    requires depth <= c.maxDepth && depth <= st.lookups <= c.limit
    ensures var (m, st1) := Match(c, t, domain, ip, depth, st);
            && Progress(c, st, st1, 0)
            && (st1.lookups > c.limit ==> m == Hard(Permerror, true))
            && (m.Hard? ==> m.err && (m.verdict == Permerror || m.verdict == Temperror))
    decreases Room(c, depth), 0, 0
  {
    if t.IsCharged() && Charge(st).lookups <= c.limit && t.name.Include? {
      var r := Check(c, t.value, ip, depth + 1, Charge(st));
      CheckBounds(c, t.value, ip, depth + 1, Charge(st));
      Paid(c, st, r.st);
      IncludeBounds(c, r);
    }
  }

  /**
  For every DNS content the source's evaluator charges at most 11 lookups, calls check at most 11
  times and never more than ten levels deep, so the guard at twelve is not reached; an 11th charge
  makes the whole evaluation a permerror, an error value is returned exactly with permerror and
  temperror, and no name's TXT records are queried twice.
  */
  lemma LookupBudget(w: World, domain: string, ip: Option<IP>)
    ensures var r := Evaluate(SourceConfig(w), domain, ip);
            && r.st.lookups <= MAX_LOOKUPS + 1
            && r.st.calls <= MAX_LOOKUPS + 1
            && r.st.deepest <= MAX_LOOKUPS < MAX_DEPTH
            && (r.st.lookups > MAX_LOOKUPS ==> r.verdict == Permerror)
            && (r.err <==> r.verdict == Permerror || r.verdict == Temperror)
            && AskedOnce(r.st) && |r.st.asked| <= r.st.calls
  {
    CheckBounds(SourceConfig(w), domain, ip, 0, INITIAL);
  }

  // ----- the history tells the calls -----------------------------------------------------------------

  ghost predicate Later(a: State, b: State) {
    a.calls <= b.calls && a.deepest <= b.deepest
  }

  /** Every check call is counted, and the deepest is at least as deep as it. */
  lemma {:induction false} CheckIsRecorded(c: Config, domain: string, ip: Option<IP>, depth: nat, st: State)
    ensures var r := Check(c, domain, ip, depth, st);
            Later(st, r.st) && st.calls < r.st.calls && depth <= r.st.deepest
    decreases Room(c, depth), 2, 0
  {
    if depth <= c.maxDepth {
      var (answer, st1) := Txt(c, domain, st.Entered(depth));
      if answer.Txts? {
        var records := SpfRecords(c.w, answer.records);
        if |records| == 1 && c.w.parse(records[0]).Some? {
          TermsAreRecorded(c, c.w.parse(records[0]).value, 0, "", domain, ip, depth, st1);
        }
      }
    }
  }

  lemma {:induction false} TermsAreRecorded(c: Config, terms: seq<Term>, i: nat, redirect: string, domain: string,
                                            ip: Option<IP>, depth: nat, st: State)
    requires i <= |terms| && depth <= c.maxDepth
    ensures Later(st, Terms(c, terms, i, redirect, domain, ip, depth, st).st)
    decreases Room(c, depth), 1, |terms| - i
  {
    if i == |terms| {
      if redirect != "" && Charge(st).lookups <= c.limit {
        CheckIsRecorded(c, redirect, ip, depth + 1, Charge(st));
      }
    } else if terms[i].name.Redirect? {
      TermsAreRecorded(c, terms, i + 1, terms[i].value, domain, ip, depth, st);
    } else if !terms[i].IsMechanism() {
      TermsAreRecorded(c, terms, i + 1, redirect, domain, ip, depth, st);
    } else {
      MatchIsRecorded(c, terms[i], domain, ip, depth, st);
      var (m, st1) := Match(c, terms[i], domain, ip, depth, st);
      if m.Unmatched? {
        TermsAreRecorded(c, terms, i + 1, redirect, domain, ip, depth, st1);
      }
    }
  }

  lemma {:induction false} MatchIsRecorded(c: Config, t: Term, domain: string, ip: Option<IP>, depth: nat, st: State)
    requires depth <= c.maxDepth
    ensures Later(st, Match(c, t, domain, ip, depth, st).1)
    decreases Room(c, depth), 0, 0
  {
    if t.name.Include? && Charge(st).lookups <= c.limit {
      CheckIsRecorded(c, t.value, ip, depth + 1, Charge(st));
    }
  }

  // ----- two settings compared ------------------------------------------------------------------

  /** DNS names are case-insensitive; this is what makes the lower-cased memo key sound. */
  ghost predicate CaseInsensitive(w: World) {
    forall m, n :: w.lower(m) == w.lower(n) ==> w.txt(m) == w.txt(n)
  }

  ghost predicate Truthful(w: World, st: State) {
    forall n :: w.lower(n) in st.seen ==> st.seen[w.lower(n)] == w.txt(n)
  }

  /** Two settings over one world, neither with a depth guard below the smaller budget. */
  ghost predicate Comparable(c: Config, d: Config) {
    && c.w == d.w && (c.memo == d.memo || CaseInsensitive(c.w))
    && Min(c.limit, d.limit) <= c.maxDepth && Min(c.limit, d.limit) <= d.maxDepth
  }

  /** The first run spends no lookup the second could not, unless the budgets are the same. */
  ghost predicate Affordable(c: Config, d: Config, after: State) {
    c.limit == d.limit || after.lookups <= Min(c.limit, d.limit)
  }

  /** The same counters, and the same memo or memos that hold nothing but the world's answers. */
  ghost predicate Alike(c: Config, d: Config, s: State, t: State) {
    && s.lookups == t.lookups && s.calls == t.calls && s.deepest == t.deepest
    && if c.memo == d.memo then s.seen == t.seen else Truthful(c.w, s) && Truthful(d.w, t)
  }

  ghost predicate AlikeReply(c: Config, d: Config, r: Reply, q: Reply) {
    r.verdict == q.verdict && r.err == q.err && Alike(c, d, r.st, q.st)
  }

  lemma TxtAgrees(c: Config, d: Config, name: string, s: State, t: State)
    requires Comparable(c, d) && Alike(c, d, s, t)
    ensures var (a, s1) := Txt(c, name, s); var (b, t1) := Txt(d, name, t);
            a == b && Alike(c, d, s1, t1)
  {
  }

  lemma {:induction false} CheckAgrees(c: Config, d: Config, domain: string, ip: Option<IP>, depth: nat,
                                       s: State, t: State)
    requires Comparable(c, d) && Alike(c, d, s, t) && depth <= s.lookups <= Min(c.limit, d.limit)
    requires Affordable(c, d, Check(c, domain, ip, depth, s).st)
    ensures AlikeReply(c, d, Check(c, domain, ip, depth, s), Check(d, domain, ip, depth, t))
    decreases Room(c, depth), 3, 0
  {
    var s0, t0 := s.Entered(depth), t.Entered(depth);
    TxtAgrees(c, d, domain, s0, t0);
    var (answer, s1) := Txt(c, domain, s0);
    var (_, t1) := Txt(d, domain, t0);
    if answer.Txts? {
      RecordsAgree(c, d, SpfRecords(c.w, answer.records), domain, ip, depth, s1, t1);
    }
  }

  lemma {:induction false} RecordsAgree(c: Config, d: Config, records: seq<string>, domain: string, ip: Option<IP>,
                                        depth: nat, s: State, t: State)
    requires depth <= c.maxDepth && depth <= d.maxDepth
    requires Comparable(c, d) && Alike(c, d, s, t) && depth <= s.lookups <= Min(c.limit, d.limit)
    requires Affordable(c, d, Records(c, records, domain, ip, depth, s).st)
    ensures AlikeReply(c, d, Records(c, records, domain, ip, depth, s), Records(d, records, domain, ip, depth, t))
    decreases Room(c, depth), 2, 0
  {
    if |records| == 1 && c.w.parse(records[0]).Some? {
      TermsAgree(c, d, c.w.parse(records[0]).value, 0, "", domain, ip, depth, s, t);
    }
  }

  lemma {:induction false} TermsAgree(c: Config, d: Config, terms: seq<Term>, i: nat, redirect: string, domain: string,
                                      ip: Option<IP>, depth: nat, s: State, t: State)
    requires i <= |terms| && depth <= c.maxDepth && depth <= d.maxDepth
    requires Comparable(c, d) && Alike(c, d, s, t) && depth <= s.lookups <= Min(c.limit, d.limit)
    requires Affordable(c, d, Terms(c, terms, i, redirect, domain, ip, depth, s).st)
    ensures AlikeReply(c, d, Terms(c, terms, i, redirect, domain, ip, depth, s),
                            Terms(d, terms, i, redirect, domain, ip, depth, t))
    decreases Room(c, depth), 1, |terms| - i
  {
    if i == |terms| {
      FollowAgrees(c, d, redirect, ip, depth, s, t);
    } else if terms[i].name.Redirect? {
      TermsAgree(c, d, terms, i + 1, terms[i].value, domain, ip, depth, s, t);
    } else if !terms[i].IsMechanism() {
      TermsAgree(c, d, terms, i + 1, redirect, domain, ip, depth, s, t);
    } else {
      var (m, s1) := Match(c, terms[i], domain, ip, depth, s);
      var (n, t1) := Match(d, terms[i], domain, ip, depth, t);
      MatchBounds(c, terms[i], domain, ip, depth, s);
      if m.Unmatched? {
        TermsBounds(c, terms, i + 1, redirect, domain, ip, depth, s1);
      }
      MatchAgrees(c, d, terms[i], domain, ip, depth, s, t);
      if m.Unmatched? {
        TermsAgree(c, d, terms, i + 1, redirect, domain, ip, depth, s1, t1);
      }
    }
  }

  lemma {:induction false} FollowAgrees(c: Config, d: Config, redirect: string, ip: Option<IP>, depth: nat,
                                        s: State, t: State)
    requires depth <= c.maxDepth && depth <= d.maxDepth
    requires Comparable(c, d) && Alike(c, d, s, t) && depth <= s.lookups <= Min(c.limit, d.limit)
    requires Affordable(c, d, Follow(c, redirect, ip, depth, s).st)
    ensures AlikeReply(c, d, Follow(c, redirect, ip, depth, s), Follow(d, redirect, ip, depth, t))
    decreases Room(c, depth), 0, 0
  {
    if redirect != "" && Charge(s).lookups <= c.limit {
      CheckBounds(c, redirect, ip, depth + 1, Charge(s));
      CheckAgrees(c, d, redirect, ip, depth + 1, Charge(s), Charge(t));
    }
  }

  lemma {:induction false} MatchAgrees(c: Config, d: Config, term: Term, domain: string, ip: Option<IP>, depth: nat,
                                       s: State, t: State)
    requires depth <= c.maxDepth && depth <= d.maxDepth
    requires Comparable(c, d) && Alike(c, d, s, t) && depth <= s.lookups <= Min(c.limit, d.limit)
    requires Affordable(c, d, Match(c, term, domain, ip, depth, s).1)
    ensures var (m, s1) := Match(c, term, domain, ip, depth, s); var (n, t1) := Match(d, term, domain, ip, depth, t);
            m == n && Alike(c, d, s1, t1)
    decreases Room(c, depth), 0, 0
  {
    if term.name.Include? && Charge(s).lookups <= c.limit {
      CheckBounds(c, term.value, ip, depth + 1, Charge(s));
      CheckAgrees(c, d, term.value, ip, depth + 1, Charge(s), Charge(t));
    }
  }

  ghost predicate SameOutcome(r: Reply, q: Reply) {
    && r.verdict == q.verdict && r.err == q.err
    && r.st.lookups == q.st.lookups && r.st.calls == q.st.calls && r.st.deepest == q.st.deepest
  }

  /**
  The budget is only a cut-off. Raising the limit of 10 to any other changes nothing about an
  evaluation that stayed within it, and an evaluation overruns 10 under the source's limit exactly
  when it charges more than 10 under the higher one.
  */
  lemma BudgetIsOnlyACutOff(w: World, domain: string, ip: Option<IP>, limit: nat)
    requires MAX_LOOKUPS <= limit
    ensures var r := Evaluate(SourceConfig(w), domain, ip);
            var q := Evaluate(SourceConfig(w).(limit := limit), domain, ip);
            && (r.st.lookups <= MAX_LOOKUPS ==> SameOutcome(r, q))
            && (r.st.lookups <= MAX_LOOKUPS <==> q.st.lookups <= MAX_LOOKUPS)
  {
    var c, d := SourceConfig(w), SourceConfig(w).(limit := limit);
    if Evaluate(c, domain, ip).st.lookups <= MAX_LOOKUPS {
      CheckAgrees(c, d, domain, ip, 0, INITIAL, INITIAL);
    }
    if Evaluate(d, domain, ip).st.lookups <= MAX_LOOKUPS {
      CheckAgrees(d, c, domain, ip, 0, INITIAL, INITIAL);
    }
  }

  /** The memo is invisible: an evaluator that queries TXT records every time answers the same. */
  lemma MemoIsTransparent(w: World, domain: string, ip: Option<IP>)
    requires CaseInsensitive(w)
    ensures SameOutcome(Evaluate(SourceConfig(w), domain, ip),
                        Evaluate(SourceConfig(w).(memo := false), domain, ip))
  {
    CheckAgrees(SourceConfig(w), SourceConfig(w).(memo := false), domain, ip, 0, INITIAL, INITIAL);
  }

  /**
  The depth guard never fires: with any guard of at least 10 no check is more than ten levels deep, and
  the evaluation is the same.
  */
  lemma DepthGuardIsUnreachable(w: World, domain: string, ip: Option<IP>, guard: nat)
    requires MAX_LOOKUPS <= guard
    ensures SameOutcome(Evaluate(SourceConfig(w), domain, ip),
                        Evaluate(SourceConfig(w).(maxDepth := guard), domain, ip))
    ensures Evaluate(SourceConfig(w).(maxDepth := guard), domain, ip).st.deepest <= MAX_LOOKUPS
  {
    CheckBounds(SourceConfig(w).(maxDepth := guard), domain, ip, 0, INITIAL);
    CheckAgrees(SourceConfig(w), SourceConfig(w).(maxDepth := guard), domain, ip, 0, INITIAL, INITIAL);
  }
}
