/**
A declarative reading of RFC 7208's check_host(), with the deviations spf.go documents (no macros,
ptr never matches, failed a and mx lookups do not match, ten MX hosts at most): a relation between
a domain, its verdict and the lookups it costs, with no budget, memo, depth or state. The evaluator is
proved to return its verdict exactly when ten lookups suffice for it, and a permerror when they do not.
*/
module SpfSemantics {
  import opened Wrappers
  import opened Spf
  import opened SpfBudget

  datatype Outcome = Yes | No | Error(verdict: Verdict)

  /** Section 4.6.2 of RFC 7208: the verdict a matching mechanism's qualifier selects. */
  ghost predicate ByQualifier(q: char, v: Verdict) {
    && v in {Pass, Fail, Softfail, Neutral}
    && (v == Fail <==> q == '-') && (v == Softfail <==> q == '~') && (v == Neutral <==> q == '?')
  }

  /** Section 5.2 of RFC 7208: what an include makes of the included domain's verdict. */
  const INCLUDE := map[Pass := Yes, Fail := No, Softfail := No, Neutral := No,
                       Temperror := Error(Temperror), Permerror := Error(Permerror), NoPolicy := Error(Permerror)]

  /** The value of the last redirect modifier, or "". */
  ghost function LastRedirect(terms: seq<Term>): string {
    if terms == [] then ""
    else if terms[|terms| - 1].name.Redirect? then terms[|terms| - 1].value
    else LastRedirect(terms[..|terms| - 1])
  }

  /** Section 6 of RFC 7208: redirect and exp are modifiers, and unknown ones are ignored. */
  ghost predicate IsModifier(t: Term) {
    t.name in {Redirect, Exp, Ignored}
  }

  /** Sections 5.3 and 5.4 of RFC 7208: the domain an a or mx mechanism names, or the one being checked. */
  ghost function Named(t: Term, domain: string): string {
    if t.value == "" then domain else t.value
  }

  /** The host has an address of the family of ip that shares the mechanism's prefix with it, all bits by default. */
  ghost predicate HasAddress(w: World, host: string, t: Term, ip: IP) {
    match ip
    case IPv4(_) =>
      w.a(host).Some? && w.contains(w.a(host).value, ip, if t.cidr4 < 0 then 32 else t.cidr4)
    case IPv6(_) =>
      w.aaaa(host).Some? && w.contains(w.aaaa(host).value, ip, if t.cidr6 < 0 then 128 else t.cidr6)
  }

  ghost predicate NoSpf(w: World, txts: seq<string>) {
    forall j | 0 <= j < |txts| :: !w.isSpf(txts[j])
  }

  ghost predicate SoleSpf(w: World, txts: seq<string>, k: nat) {
    k < |txts| && forall j | 0 <= j < |txts| :: w.isSpf(txts[j]) <==> j == k
  }

  ghost function Sum(costs: seq<nat>): nat {
    if costs == [] then 0 else Sum(costs[..|costs| - 1]) + costs[|costs| - 1]
  }

  /** Domain evaluates to v with n lookups, by a derivation of height at most h. */
  ghost predicate Host(w: World, domain: string, ip: Option<IP>, v: Verdict, n: nat, h: nat)
    decreases h, 0
  {
    h > 0 &&
    match w.txt(domain)
    case NoTxt => v == NoPolicy && n == 0
    case TxtFailed => v == Temperror && n == 0
    case Txts(txts) =>
      || (NoSpf(w, txts) && v == NoPolicy && n == 0)
      || (exists k: nat :: SoleSpf(w, txts, k) && Published(w, txts[k], domain, ip, v, n, h - 1))
      || (!NoSpf(w, txts) && (forall k: nat :: !SoleSpf(w, txts, k)) && v == Permerror && n == 0)
  }

  ghost predicate Published(w: World, record: string, domain: string, ip: Option<IP>, v: Verdict, n: nat, h: nat)
    decreases h, 5
  {
    match w.parse(record)
    case None => v == Permerror && n == 0
    case Some(terms) => Decided(w, terms, domain, ip, v, n, h)
  }

  ghost predicate Decided(w: World, terms: seq<Term>, domain: string, ip: Option<IP>, v: Verdict, n: nat, h: nat)
    decreases h, 4
  {
    exists costs :: Decides(w, terms, costs, domain, ip, v, n, h)
  }

  /**
  The verdict v is decided after |costs| terms, which cost so much each: none of them matches, and the
  next mechanism matches or fails, or the record ends there and the last redirect decides, for one
  lookup and those of its target.
  */
  ghost predicate Decides(w: World, terms: seq<Term>, costs: seq<nat>, domain: string, ip: Option<IP>, v: Verdict,
                          n: nat, h: nat)
    decreases h, 3
  {
    && |costs| <= |terms|
    && Silent(w, terms, costs, domain, ip, h)
    && n >= Sum(costs)
    && if |costs| < |terms| then
         !IsModifier(terms[|costs|]) && Ends(w, terms[|costs|], domain, ip, v, n - Sum(costs), h)
       else if LastRedirect(terms) == "" then v == Neutral && n == Sum(costs)
       else n > Sum(costs) && Redirected(w, LastRedirect(terms), ip, v, n - Sum(costs) - 1, h)
  }

  /** A mechanism decides: it matches, or it fails with an error. */
  ghost predicate Ends(w: World, t: Term, domain: string, ip: Option<IP>, v: Verdict, n: nat, h: nat)
    decreases h, 2
  {
    exists o :: Mechanism(w, t, domain, ip, o, n, h) && Gives(t, o, v)
  }

  ghost predicate Gives(t: Term, o: Outcome, v: Verdict) {
    o == Error(v) || (o == Yes && ByQualifier(t.qualifier, v))
  }

  /** Section 6.1 of RFC 7208: the target's verdict is the record's, and a target without policy an error. */
  ghost predicate Redirected(w: World, target: string, ip: Option<IP>, v: Verdict, n: nat, h: nat)
    decreases h, 2
  {
    exists u :: Host(w, target, ip, u, n, h) && v == if u == NoPolicy then Permerror else u
  }

  ghost predicate Silent(w: World, terms: seq<Term>, costs: seq<nat>, domain: string, ip: Option<IP>, h: nat)
    requires |costs| <= |terms|
    decreases h, 2
  {
    forall j | 0 <= j < |costs| ::
      if IsModifier(terms[j]) then costs[j] == 0 else Mechanism(w, terms[j], domain, ip, No, costs[j], h)
  }

  /** Section 5 of RFC 7208, with the costs of section 4.6.4. */
  ghost predicate Mechanism(w: World, t: Term, domain: string, ip: Option<IP>, o: Outcome, n: nat, h: nat)
    decreases h, 1
  {
    match t.name
    case All => o == Yes && n == 0
    case Ip4 => CidrOutcome(w, t, ip, o) && n == 0
    case Ip6 => CidrOutcome(w, t, ip, o) && n == 0
    case A => n == 1 && o == if ip.Some? && HasAddress(w, Named(t, domain), t, ip.value) then Yes else No
    case Mx =>
      && n == 1
      && o == if && ip.Some? && w.mx(Named(t, domain)).Some?
                 && exists k | 0 <= k < |w.mx(Named(t, domain)).value| && k < 10 ::
                      HasAddress(w, w.mx(Named(t, domain)).value[k], t, ip.value)
              then Yes else No
    case Exists => n == 1 && o == if w.a(t.value).Some? then Yes else No
    case Ptr => n == 1 && o == No
    case Include => n > 0 && exists u :: Host(w, t.value, ip, u, n - 1, h) && u in INCLUDE && o == INCLUDE[u]
    case _ => o == Error(Permerror) && n == 0
  }

  ghost predicate CidrOutcome(w: World, t: Term, ip: Option<IP>, o: Outcome) {
    if ip.None? then o == No
    else match w.cidr(t.value, ip.value)
      case None => o == Error(Permerror)
      case Some(covered) => o == if covered then Yes else No
  }

  // ----- the relation is functional --------------------------------------------------------------

  lemma {:induction false} HostUnique(w: World, domain: string, ip: Option<IP>, u: Verdict, v: Verdict,
                                      m: nat, n: nat, g: nat, h: nat)
    requires Host(w, domain, ip, u, m, g) && Host(w, domain, ip, v, n, h)
    ensures u == v && m == n
    decreases g, 0, 0
  {
    if w.txt(domain).Txts? {
      var txts := w.txt(domain).records;
      if k: nat :| SoleSpf(w, txts, k) && Published(w, txts[k], domain, ip, u, m, g - 1) {
        var j: nat :| SoleSpf(w, txts, j) && Published(w, txts[j], domain, ip, v, n, h - 1);
        assert w.isSpf(txts[k]) && j == k;
        PublishedUnique(w, txts[k], domain, ip, u, v, m, n, g - 1, h - 1);
      }
    }
  }

  lemma {:induction false} MechanismUnique(w: World, t: Term, domain: string, ip: Option<IP>,
                                           o: Outcome, p: Outcome, m: nat, n: nat, g: nat, h: nat)
    requires Mechanism(w, t, domain, ip, o, m, g) && Mechanism(w, t, domain, ip, p, n, h)
    ensures o == p && m == n
    decreases g, 1
  {
    if t.name.Include? {
      IncludeUnique(w, t, domain, ip, o, p, m, n, g, h);
    }
  }

  lemma {:induction false} IncludeUnique(w: World, t: Term, domain: string, ip: Option<IP>,
                                         o: Outcome, p: Outcome, m: nat, n: nat, g: nat, h: nat)
    requires t.name.Include? && Mechanism(w, t, domain, ip, o, m, g) && Mechanism(w, t, domain, ip, p, n, h)
    ensures o == p && m == n
    decreases g, 0, 1
  {
    var u :| Host(w, t.value, ip, u, m - 1, g) && u in INCLUDE && o == INCLUDE[u];
    var v :| Host(w, t.value, ip, v, n - 1, h) && v in INCLUDE && p == INCLUDE[v];
    HostUnique(w, t.value, ip, u, v, m - 1, n - 1, g, h);
  }

  lemma {:induction false} PublishedUnique(w: World, record: string, domain: string, ip: Option<IP>,
                                           u: Verdict, v: Verdict, m: nat, n: nat, g: nat, h: nat)
    requires Published(w, record, domain, ip, u, m, g) && Published(w, record, domain, ip, v, n, h)
    ensures u == v && m == n
    decreases g, 5
  {
    if w.parse(record).Some? {
      DecidedUnique(w, w.parse(record).value, domain, ip, u, v, m, n, g, h);
    }
  }

  lemma {:induction false} DecidedUnique(w: World, terms: seq<Term>, domain: string, ip: Option<IP>,
                                         u: Verdict, v: Verdict, m: nat, n: nat, g: nat, h: nat)
    requires Decided(w, terms, domain, ip, u, m, g) && Decided(w, terms, domain, ip, v, n, h)
    ensures u == v && m == n
    decreases g, 4
  {
    var a :| Decides(w, terms, a, domain, ip, u, m, g);
    var b :| Decides(w, terms, b, domain, ip, v, n, h);
    DecisionUnique(w, terms, a, b, domain, ip, u, v, m, n, g, h);
  }

  /** Two lists of costs agree as far as both go. */
  lemma {:induction false} CostsUnique(w: World, terms: seq<Term>, a: seq<nat>, b: seq<nat>, domain: string,
                                       ip: Option<IP>, g: nat, h: nat)
    requires |a| <= |terms| && |b| <= |terms|
    requires Silent(w, terms, a, domain, ip, g) && Silent(w, terms, b, domain, ip, h)
    ensures forall j | 0 <= j < |a| && j < |b| :: a[j] == b[j]
    decreases g, 2
  {
    forall j | 0 <= j < |a| && j < |b| ensures a[j] == b[j] {
      if !IsModifier(terms[j]) {
        MechanismUnique(w, terms[j], domain, ip, No, No, a[j], b[j], g, h);
      }
    }
  }

  /** A record is not decided before a term that is silent. */
  lemma {:induction false} NotEarlier(w: World, terms: seq<Term>, a: seq<nat>, b: seq<nat>, domain: string,
                                      ip: Option<IP>, u: Verdict, m: nat, g: nat, h: nat)
    requires |b| <= |terms| && Decides(w, terms, a, domain, ip, u, m, g) && Silent(w, terms, b, domain, ip, h)
    ensures |a| >= |b|
    decreases g, 3, 0
  {
    if |a| < |b| {
      var o :| Mechanism(w, terms[|a|], domain, ip, o, m - Sum(a), g) && Gives(terms[|a|], o, u);
      MechanismUnique(w, terms[|a|], domain, ip, o, No, m - Sum(a), b[|a|], g, h);
    }
  }

  lemma {:induction false} EndsUnique(w: World, t: Term, domain: string, ip: Option<IP>, u: Verdict, v: Verdict,
                                      m: nat, n: nat, g: nat, h: nat)
    requires Ends(w, t, domain, ip, u, m, g) && Ends(w, t, domain, ip, v, n, h)
    ensures u == v && m == n
    decreases g, 2
  {
    var o :| Mechanism(w, t, domain, ip, o, m, g) && Gives(t, o, u);
    var p :| Mechanism(w, t, domain, ip, p, n, h) && Gives(t, p, v);
    MechanismUnique(w, t, domain, ip, o, p, m, n, g, h);
  }

  lemma {:induction false} RedirectedUnique(w: World, target: string, ip: Option<IP>, u: Verdict, v: Verdict,
                                            m: nat, n: nat, g: nat, h: nat)
    requires Redirected(w, target, ip, u, m, g) && Redirected(w, target, ip, v, n, h)
    ensures u == v && m == n
    decreases g, 2
  {
    var x :| Host(w, target, ip, x, m, g) && u == if x == NoPolicy then Permerror else x;
    var y :| Host(w, target, ip, y, n, h) && v == if y == NoPolicy then Permerror else y;
    HostUnique(w, target, ip, x, y, m, n, g, h);
  }

  lemma {:induction false} DecisionUnique(w: World, terms: seq<Term>, a: seq<nat>, b: seq<nat>, domain: string,
                                          ip: Option<IP>, u: Verdict, v: Verdict, m: nat, n: nat, g: nat, h: nat)
    requires Decides(w, terms, a, domain, ip, u, m, g) && Decides(w, terms, b, domain, ip, v, n, h)
    ensures u == v && m == n
    decreases g, 3, 1
  {
    NotEarlier(w, terms, a, b, domain, ip, u, m, g, h);
    NotLater(w, terms, a, b, domain, ip, v, n, g, h);
    CostsUnique(w, terms, a, b, domain, ip, g, h);
    assert a == b;
    if |a| < |terms| {
      EndsUnique(w, terms[|a|], domain, ip, u, v, m - Sum(a), n - Sum(a), g, h);
    } else if LastRedirect(terms) != "" {
      RedirectedUnique(w, LastRedirect(terms), ip, u, v, m - Sum(a) - 1, n - Sum(a) - 1, g, h);
    }
  }

  lemma {:induction false} NotLater(w: World, terms: seq<Term>, a: seq<nat>, b: seq<nat>, domain: string,
                                    ip: Option<IP>, v: Verdict, n: nat, g: nat, h: nat)
    requires |a| <= |terms| && Silent(w, terms, a, domain, ip, g) && Decides(w, terms, b, domain, ip, v, n, h)
    ensures |a| <= |b|
    decreases g, 3, 0
  {
    if |b| < |a| {
      var o :| Mechanism(w, terms[|b|], domain, ip, o, n - Sum(b), h) && Gives(terms[|b|], o, v);
      MechanismUnique(w, terms[|b|], domain, ip, No, o, a[|b|], n - Sum(b), g, h);
    }
  }

  // ----- the evaluator computes it ----------------------------------------------------------------

  lemma {:induction false} SelectsSole(w: World, txts: seq<string>)
    ensures |SpfRecords(w, txts)| == 0 <==> NoSpf(w, txts)
    ensures |SpfRecords(w, txts)| == 1 ==> exists k: nat :: SoleSpf(w, txts, k) && txts[k] == SpfRecords(w, txts)[0]
    ensures forall k: nat :: SoleSpf(w, txts, k) ==> |SpfRecords(w, txts)| == 1
  {
    if txts != [] {
      var rest, last := txts[..|txts| - 1], |txts| - 1;
      SelectsSole(w, rest);
      if w.isSpf(txts[last]) {
        if NoSpf(w, rest) {
          assert SoleSpf(w, txts, last);
        }
      } else {
        assert forall k: nat :: SoleSpf(w, rest, k) <==> SoleSpf(w, txts, k);
      }
    }
  }

  function OutcomeOf(m: Matching): Outcome {
    match m
    case Matched => Yes
    case Unmatched => No
    case Hard(v, _) => Error(v)
  }

  lemma {:induction false} CheckSound(c: Config, domain: string, ip: Option<IP>, depth: nat, st: State)
    requires !c.memo && depth <= st.lookups <= c.limit <= c.maxDepth
    requires Check(c, domain, ip, depth, st).st.lookups <= c.limit
    ensures var r := Check(c, domain, ip, depth, st);
            && st.lookups <= r.st.lookups
            && Host(c.w, domain, ip, r.verdict, r.st.lookups - st.lookups, Room(c, depth))
    decreases Room(c, depth), 2, 0
  {
    var r := Check(c, domain, ip, depth, st);
    var (answer, st1) := Txt(c, domain, st.Entered(depth));
    if answer.Txts? {
      var records := SpfRecords(c.w, answer.records);
      SelectsSole(c.w, answer.records);
      if |records| == 1 {
        var k: nat :| SoleSpf(c.w, answer.records, k) && answer.records[k] == records[0];
        if c.w.parse(records[0]).Some? {
          var terms := c.w.parse(records[0]).value;
          assert terms[..0] == [];
          TermsSound(c, terms, [], "", domain, ip, depth, st1, st.lookups, r);
        }
        assert Published(c.w, answer.records[k], domain, ip, r.verdict, r.st.lookups - st.lookups, Room(c, depth) - 1);
      }
    }
  }

  /** One more silent term, at the cost k. */
  lemma SilentSnoc(w: World, terms: seq<Term>, costs: seq<nat>, k: nat, domain: string, ip: Option<IP>, h: nat)
    requires |costs| < |terms| && Silent(w, terms, costs, domain, ip, h)
    requires if IsModifier(terms[|costs|]) then k == 0 else Mechanism(w, terms[|costs|], domain, ip, No, k, h)
    ensures Silent(w, terms, costs + [k], domain, ip, h) && Sum(costs + [k]) == Sum(costs) + k
  {
    assert (costs + [k])[..|costs|] == costs;
  }

  /** The loop after |costs| silent terms, which it has charged what they cost since it had charged `from`. */
  lemma {:induction false} TermsSound(c: Config, terms: seq<Term>, costs: seq<nat>, redirect: string, domain: string,
                                      ip: Option<IP>, depth: nat, st: State, from: nat, r: Reply)
    requires |costs| <= |terms| && !c.memo && depth <= st.lookups <= c.limit <= c.maxDepth
    requires st.lookups == from + Sum(costs)
    requires r == Terms(c, terms, |costs|, redirect, domain, ip, depth, st) && r.st.lookups <= c.limit
    requires Silent(c.w, terms, costs, domain, ip, Room(c, depth) - 1) && redirect == LastRedirect(terms[..|costs|])
    ensures from <= r.st.lookups
    ensures Decided(c.w, terms, domain, ip, r.verdict, r.st.lookups - from, Room(c, depth) - 1)
    decreases Room(c, depth), 1, |terms| - |costs|
  {
    if |costs| == |terms| {
      assert terms[..|costs|] == terms;
      EndSound(c, terms, costs, domain, ip, depth, st, from);
    } else {
      if !IsModifier(terms[|costs|]) && !Match(c, terms[|costs|], domain, ip, depth, st).0.Unmatched? {
        DecidingSound(c, terms, costs, redirect, domain, ip, depth, st, from);
      } else {
        var k, next, st1 := StepSound(c, terms, costs, redirect, domain, ip, depth, st);
        TermsSound(c, terms, costs + [k], next, domain, ip, depth, st1, from, r);
      }
    }
  }

  /** A term that does not decide. */
  lemma {:induction false} StepSound(c: Config, terms: seq<Term>, costs: seq<nat>, redirect: string,
                                     domain: string, ip: Option<IP>, depth: nat, st: State)
    returns (k: nat, next: string, st1: State)
    requires |costs| < |terms| && !c.memo && depth <= st.lookups <= c.limit <= c.maxDepth
    requires Silent(c.w, terms, costs, domain, ip, Room(c, depth) - 1) && redirect == LastRedirect(terms[..|costs|])
    requires IsModifier(terms[|costs|]) || Match(c, terms[|costs|], domain, ip, depth, st).0.Unmatched?
    requires Terms(c, terms, |costs|, redirect, domain, ip, depth, st).st.lookups <= c.limit
    ensures depth <= st1.lookups == st.lookups + k <= c.limit && next == LastRedirect(terms[..|costs| + 1])
    ensures Terms(c, terms, |costs| + 1, next, domain, ip, depth, st1) ==
            Terms(c, terms, |costs|, redirect, domain, ip, depth, st)
    ensures Silent(c.w, terms, costs + [k], domain, ip, Room(c, depth) - 1) && Sum(costs + [k]) == Sum(costs) + k
    decreases Room(c, depth), 0, 2
  {
    if IsModifier(terms[|costs|]) {
      next := ModifierSound(c, terms, costs, redirect, domain, ip, depth, st);
      k, st1 := 0, st;
    } else {
      RedirectSnoc(terms, |costs|);
      next, st1 := redirect, Match(c, terms[|costs|], domain, ip, depth, st).1;
      k := UnmatchedSound(c, terms, costs, redirect, domain, ip, depth, st, st1);
    }
  }

  /** A modifier costs nothing, and a redirect is remembered. */
  lemma ModifierSound(c: Config, terms: seq<Term>, costs: seq<nat>, redirect: string, domain: string, ip: Option<IP>,
                      depth: nat, st: State) returns (next: string)
    requires |costs| < |terms| && depth <= c.maxDepth && IsModifier(terms[|costs|])
    requires Silent(c.w, terms, costs, domain, ip, Room(c, depth) - 1) && redirect == LastRedirect(terms[..|costs|])
    ensures Terms(c, terms, |costs| + 1, next, domain, ip, depth, st) ==
            Terms(c, terms, |costs|, redirect, domain, ip, depth, st)
    ensures Silent(c.w, terms, costs + [0], domain, ip, Room(c, depth) - 1) && Sum(costs + [0]) == Sum(costs)
    ensures next == LastRedirect(terms[..|costs| + 1])
  {
    RedirectSnoc(terms, |costs|);
    next := if terms[|costs|].name.Redirect? then terms[|costs|].value else redirect;
    SilentSnoc(c.w, terms, costs, 0, domain, ip, Room(c, depth) - 1);
  }

  /** A mechanism that does not match: it cost the lookups charged for it. */
  lemma {:induction false} UnmatchedSound(c: Config, terms: seq<Term>, costs: seq<nat>, redirect: string,
                                          domain: string, ip: Option<IP>, depth: nat, st: State, st1: State)
    returns (k: nat)
    requires |costs| < |terms| && !c.memo && depth <= st.lookups <= c.limit <= c.maxDepth
    requires Silent(c.w, terms, costs, domain, ip, Room(c, depth) - 1) && !IsModifier(terms[|costs|])
    requires Match(c, terms[|costs|], domain, ip, depth, st) == (Unmatched, st1)
    requires Terms(c, terms, |costs|, redirect, domain, ip, depth, st).st.lookups <= c.limit
    ensures depth <= st1.lookups == st.lookups + k <= c.limit
    ensures Terms(c, terms, |costs| + 1, redirect, domain, ip, depth, st1) ==
            Terms(c, terms, |costs|, redirect, domain, ip, depth, st)
    ensures Silent(c.w, terms, costs + [k], domain, ip, Room(c, depth) - 1) && Sum(costs + [k]) == Sum(costs) + k
    decreases Room(c, depth), 0, 1
  {
    var t := terms[|costs|];
    MatchBounds(c, t, domain, ip, depth, st);
    assert t.IsMechanism();
    TermsBounds(c, terms, |costs| + 1, redirect, domain, ip, depth, st1);
    MatchSound(c, t, domain, ip, depth, st);
    k := st1.lookups - st.lookups;
    SilentSnoc(c.w, terms, costs, k, domain, ip, Room(c, depth) - 1);
  }

  /** The mechanism that decides. */
  lemma {:induction false} DecidingSound(c: Config, terms: seq<Term>, costs: seq<nat>, redirect: string,
                                         domain: string, ip: Option<IP>, depth: nat, st: State, from: nat)
    requires |costs| < |terms| && !c.memo && depth <= st.lookups <= c.limit <= c.maxDepth
    requires st.lookups == from + Sum(costs) && Silent(c.w, terms, costs, domain, ip, Room(c, depth) - 1)
    requires !IsModifier(terms[|costs|]) && !Match(c, terms[|costs|], domain, ip, depth, st).0.Unmatched?
    requires Terms(c, terms, |costs|, redirect, domain, ip, depth, st).st.lookups <= c.limit
    ensures var r := Terms(c, terms, |costs|, redirect, domain, ip, depth, st);
            && from <= r.st.lookups
            && Decided(c.w, terms, domain, ip, r.verdict, r.st.lookups - from, Room(c, depth) - 1)
    decreases Room(c, depth), 0, 1
  {
    var t := terms[|costs|];
    MatchSound(c, t, domain, ip, depth, st);
    var (m, st1) := Match(c, t, domain, ip, depth, st);
    var r := Terms(c, terms, |costs|, redirect, domain, ip, depth, st);
    assert r.st == st1 && Gives(t, OutcomeOf(m), r.verdict);
    assert Ends(c.w, t, domain, ip, r.verdict, st1.lookups - st.lookups, Room(c, depth) - 1);
    assert Decides(c.w, terms, costs, domain, ip, r.verdict, r.st.lookups - from, Room(c, depth) - 1);
  }

  lemma RedirectSnoc(terms: seq<Term>, i: nat)
    requires i < |terms|
    ensures LastRedirect(terms[..i + 1]) == if terms[i].name.Redirect? then terms[i].value else LastRedirect(terms[..i])
  {
    assert terms[..i + 1][..i] == terms[..i];
  }

  /** A record all of whose mechanisms are silent: the last redirect decides. */
  lemma {:induction false} EndSound(c: Config, terms: seq<Term>, costs: seq<nat>, domain: string, ip: Option<IP>,
                                    depth: nat, st: State, from: nat)
    requires !c.memo && depth <= st.lookups <= c.limit <= c.maxDepth
    requires |costs| == |terms| && st.lookups == from + Sum(costs)
    requires Follow(c, LastRedirect(terms), ip, depth, st).st.lookups <= c.limit
    requires Silent(c.w, terms, costs, domain, ip, Room(c, depth) - 1)
    ensures var r := Follow(c, LastRedirect(terms), ip, depth, st);
            && from <= r.st.lookups
            && Decided(c.w, terms, domain, ip, r.verdict, r.st.lookups - from, Room(c, depth) - 1)
    decreases Room(c, depth), 0, 0
  {
    var redirect := LastRedirect(terms);
    if redirect != "" {
      CheckSound(c, redirect, ip, depth + 1, Charge(st));
      var r := Check(c, redirect, ip, depth + 1, Charge(st));
      var v := Follow(c, redirect, ip, depth, st).verdict;
      assert Redirected(c.w, redirect, ip, v, r.st.lookups - from - Sum(costs) - 1, Room(c, depth) - 1);
    }
    var all := Follow(c, redirect, ip, depth, st);
    assert Decides(c.w, terms, costs, domain, ip, all.verdict, all.st.lookups - from, Room(c, depth) - 1);
  }

  /** What Match gives, once the lookup it charges is within the budget. */
  function Judged(c: Config, t: Term, domain: string, ip: Option<IP>, depth: nat, st: State): (Matching, nat)
    requires depth <= c.maxDepth
  {
    if t.name.Include? then
      var r := Check(c, t.value, ip, depth + 1, Charge(st));
      (IncludeResult(r.verdict, r.err), r.st.lookups)
    else if t.IsCharged() then (MatchLookup(c.w, t, domain, ip), Charge(st).lookups)
    else (Match(c, t, domain, ip, depth, st).0, st.lookups)
  }

  lemma MatchIsJudged(c: Config, t: Term, domain: string, ip: Option<IP>, depth: nat, st: State)
    requires depth <= c.maxDepth
    requires Match(c, t, domain, ip, depth, st).1.lookups <= c.limit || st.lookups < c.limit
    ensures var (m, st1) := Match(c, t, domain, ip, depth, st); (m, st1.lookups) == Judged(c, t, domain, ip, depth, st)
  {
  }

  lemma IncludeSound(w: World, t: Term, domain: string, ip: Option<IP>, v: Verdict, err: bool, n: nat, h: nat)
    requires t.name.Include? && Host(w, t.value, ip, v, n, h)
    ensures Mechanism(w, t, domain, ip, OutcomeOf(IncludeResult(v, err)), n + 1, h)
  {
    assert v in INCLUDE && INCLUDE[v] == OutcomeOf(IncludeResult(v, err));
    assert Host(w, t.value, ip, v, n + 1 - 1, h);
  }

  lemma {:induction false} MatchSound(c: Config, t: Term, domain: string, ip: Option<IP>, depth: nat, st: State)
    requires !IsModifier(t) && !c.memo && depth <= st.lookups <= c.limit <= c.maxDepth
    requires Match(c, t, domain, ip, depth, st).1.lookups <= c.limit
    ensures var (m, st1) := Match(c, t, domain, ip, depth, st);
            && st.lookups <= st1.lookups
            && Mechanism(c.w, t, domain, ip, OutcomeOf(m), st1.lookups - st.lookups, Room(c, depth) - 1)
    decreases Room(c, depth), 0, 0
  {
    MatchIsJudged(c, t, domain, ip, depth, st);
    var h := Room(c, depth) - 1;
    if t.name.Include? {
      CheckSound(c, t.value, ip, depth + 1, Charge(st));
      var r := Check(c, t.value, ip, depth + 1, Charge(st));
      IncludeSound(c.w, t, domain, ip, r.verdict, r.err, r.st.lookups - st.lookups - 1, h);
    } else if t.IsCharged() {
      LookupSound(c.w, t, domain, ip, h);
    } else {
      FreeSound(c, t, domain, ip, depth, st, h);
    }
  }

  lemma FreeSound(c: Config, t: Term, domain: string, ip: Option<IP>, depth: nat, st: State, h: nat)
    requires !IsModifier(t) && !t.IsCharged() && depth <= c.maxDepth
    ensures Mechanism(c.w, t, domain, ip, OutcomeOf(Match(c, t, domain, ip, depth, st).0), 0, h)
  {
  }

  lemma LookupSound(w: World, t: Term, domain: string, ip: Option<IP>, h: nat)
    requires t.IsCharged() && !t.name.Include?
    ensures Mechanism(w, t, domain, ip, OutcomeOf(MatchLookup(w, t, domain, ip)), 1, h)
  {
    if t.name.Mx? && ip.Some? && w.mx(Named(t, domain)).Some? {
      var hosts := w.mx(Named(t, domain)).value;
      assert forall k | 0 <= k < |hosts| && k < 10 :: hosts[k] == Cut(hosts, MAX_LOOKUPS)[k];
      forall host ensures HasAddress(w, host, t, ip.value) <==> w.Covers(host, ip.value, t.Prefix(ip.value)) {
      }
    }
  }

  // ----- and overruns its budget only where it must ---------------------------------------------------

  /** A check whose derivation fits in what is left of the budget stays within it. */
  lemma {:induction false} CheckFits(c: Config, domain: string, ip: Option<IP>, depth: nat, st: State,
                                     v: Verdict, n: nat, h: nat)
    requires !c.memo && depth <= st.lookups && st.lookups + n <= c.limit <= c.maxDepth
    requires Host(c.w, domain, ip, v, n, h)
    ensures Check(c, domain, ip, depth, st).st.lookups <= c.limit
    decreases h, 0, 0
  {
    var (answer, st1) := Txt(c, domain, st.Entered(depth));
    if answer.Txts? {
      SelectsSole(c.w, answer.records);
      if k: nat :| SoleSpf(c.w, answer.records, k) && Published(c.w, answer.records[k], domain, ip, v, n, h - 1) {
        var records := SpfRecords(c.w, answer.records);
        var j: nat :| SoleSpf(c.w, answer.records, j) && answer.records[j] == records[0];
        assert c.w.isSpf(answer.records[k]) && j == k;
        if c.w.parse(records[0]).Some? {
          DecidedFits(c, c.w.parse(records[0]).value, domain, ip, depth, st1, v, n, h - 1);
        }
      }
    }
  }

  lemma {:induction false} DecidedFits(c: Config, terms: seq<Term>, domain: string, ip: Option<IP>, depth: nat,
                                       st: State, v: Verdict, n: nat, h: nat)
    requires !c.memo && depth <= st.lookups && st.lookups + n <= c.limit <= c.maxDepth
    requires Decided(c.w, terms, domain, ip, v, n, h)
    ensures Terms(c, terms, 0, "", domain, ip, depth, st).st.lookups <= c.limit
    decreases h, 4, 0
  {
    var costs :| Decides(c.w, terms, costs, domain, ip, v, n, h);
    assert costs[..0] == [] && terms[..0] == [];
    TermsFit(c, terms, 0, costs, "", domain, ip, depth, st, st.lookups, v, n, h);
  }

  lemma SumUpTo(costs: seq<nat>, i: nat)
    requires i < |costs|
    ensures Sum(costs[..i + 1]) == Sum(costs[..i]) + costs[i] <= Sum(costs)
    decreases |costs| - i
  {
    assert costs[..i + 1][..i] == costs[..i];
    if i + 1 < |costs| {
      SumUpTo(costs, i + 1);
    } else {
      assert costs[..i + 1] == costs;
    }
  }

  lemma {:induction false} TermsFit(c: Config, terms: seq<Term>, i: nat, costs: seq<nat>, redirect: string,
                                    domain: string, ip: Option<IP>, depth: nat, st: State, from: nat,
                                    v: Verdict, n: nat, h: nat)
    requires i <= |costs| <= |terms| && !c.memo && depth <= st.lookups && from + n <= c.limit <= c.maxDepth
    requires depth <= c.maxDepth
    requires st.lookups == from + Sum(costs[..i]) && redirect == LastRedirect(terms[..i])
    requires Decides(c.w, terms, costs, domain, ip, v, n, h)
    ensures Terms(c, terms, i, redirect, domain, ip, depth, st).st.lookups <= c.limit
    decreases h, 3, |terms| - i
  {
    if i == |costs| {
      assert costs[..i] == costs;
      LastFits(c, terms, i, costs, redirect, domain, ip, depth, st, from, v, n, h);
    } else {
      var next, st1 := StepFits(c, terms, i, costs, redirect, domain, ip, depth, st, from, n, h);
      TermsFit(c, terms, i + 1, costs, next, domain, ip, depth, st1, from, v, n, h);
    }
  }

  /** A term that does not decide. */
  lemma {:induction false} StepFits(c: Config, terms: seq<Term>, i: nat, costs: seq<nat>, redirect: string,
                                    domain: string, ip: Option<IP>, depth: nat, st: State, from: nat, n: nat, h: nat)
    returns (next: string, st1: State)
    requires i < |costs| <= |terms| && !c.memo && depth <= st.lookups && depth <= c.maxDepth
    requires Sum(costs) <= n && from + n <= c.limit <= c.maxDepth
    requires st.lookups == from + Sum(costs[..i]) && redirect == LastRedirect(terms[..i])
    requires Silent(c.w, terms, costs, domain, ip, h)
    ensures Terms(c, terms, i + 1, next, domain, ip, depth, st1) ==
            Terms(c, terms, i, redirect, domain, ip, depth, st)
    ensures depth <= st1.lookups == from + Sum(costs[..i + 1]) && next == LastRedirect(terms[..i + 1])
    decreases h, 2, 0
  {
    SumUpTo(costs, i);
    RedirectSnoc(terms, i);
    next, st1 := if terms[i].name.Redirect? then terms[i].value else redirect, st;
    if !IsModifier(terms[i]) {
      MatchFits(c, terms[i], domain, ip, depth, st, No, costs[i], h);
      st1 := Match(c, terms[i], domain, ip, depth, st).1;
    }
  }

  /** The term that decides, or the redirect. */
  lemma {:induction false} LastFits(c: Config, terms: seq<Term>, i: nat, costs: seq<nat>, redirect: string,
                                    domain: string, ip: Option<IP>, depth: nat, st: State, from: nat,
                                    v: Verdict, n: nat, h: nat)
    requires i == |costs| <= |terms| && !c.memo && depth <= st.lookups && from + n <= c.limit <= c.maxDepth
    requires depth <= c.maxDepth
    requires st.lookups == from + Sum(costs) && redirect == LastRedirect(terms[..i])
    requires Decides(c.w, terms, costs, domain, ip, v, n, h)
    ensures Terms(c, terms, i, redirect, domain, ip, depth, st).st.lookups <= c.limit
    decreases h, 2, 1
  {
    if i < |terms| {
      EndsFit(c, terms[i], domain, ip, depth, st, v, n - Sum(costs), h);
    } else {
      assert terms[..i] == terms;
      if redirect != "" {
        RedirectedFits(c, redirect, ip, depth, st, v, n - Sum(costs) - 1, h);
      }
    }
  }

  lemma {:induction false} EndsFit(c: Config, t: Term, domain: string, ip: Option<IP>, depth: nat, st: State,
                                   v: Verdict, n: nat, h: nat)
    requires !IsModifier(t) && !c.memo && depth <= st.lookups && st.lookups + n <= c.limit <= c.maxDepth
    requires Ends(c.w, t, domain, ip, v, n, h)
    ensures var (m, st1) := Match(c, t, domain, ip, depth, st); !m.Unmatched? && st1.lookups <= c.limit
    decreases h, 2, 0
  {
    var o :| Mechanism(c.w, t, domain, ip, o, n, h) && Gives(t, o, v);
    MatchFits(c, t, domain, ip, depth, st, o, n, h);
  }

  lemma {:induction false} RedirectedFits(c: Config, redirect: string, ip: Option<IP>, depth: nat, st: State,
                                          v: Verdict, n: nat, h: nat)
    requires !c.memo && depth <= st.lookups && st.lookups + 1 + n <= c.limit <= c.maxDepth
    requires redirect != "" && Redirected(c.w, redirect, ip, v, n, h)
    ensures Follow(c, redirect, ip, depth, st).st.lookups <= c.limit
    decreases h, 2, 0
  {
    var u :| Host(c.w, redirect, ip, u, n, h) && v == if u == NoPolicy then Permerror else u;
    CheckFits(c, redirect, ip, depth + 1, Charge(st), u, n, h);
  }

  /** A mechanism whose lookups fit is evaluated to its outcome, for just those lookups. */
  lemma {:induction false} MatchFits(c: Config, t: Term, domain: string, ip: Option<IP>, depth: nat, st: State,
                                     o: Outcome, n: nat, h: nat)
    requires !IsModifier(t) && !c.memo && depth <= st.lookups && st.lookups + n <= c.limit <= c.maxDepth
    requires Mechanism(c.w, t, domain, ip, o, n, h)
    ensures var (m, st1) := Match(c, t, domain, ip, depth, st);
            OutcomeOf(m) == o && st1.lookups == st.lookups + n
    decreases h, 1, 1
  {
    MatchWithin(c, t, domain, ip, depth, st, o, n, h);
    MatchSound(c, t, domain, ip, depth, st);
    var (m, st1) := Match(c, t, domain, ip, depth, st);
    MechanismUnique(c.w, t, domain, ip, o, OutcomeOf(m), n, st1.lookups - st.lookups, h, Room(c, depth) - 1);
  }

  lemma {:induction false} MatchWithin(c: Config, t: Term, domain: string, ip: Option<IP>, depth: nat, st: State,
                                       o: Outcome, n: nat, h: nat)
    requires !IsModifier(t) && !c.memo && depth <= st.lookups && st.lookups + n <= c.limit <= c.maxDepth
    requires Mechanism(c.w, t, domain, ip, o, n, h)
    ensures Match(c, t, domain, ip, depth, st).1.lookups <= c.limit
    decreases h, 1, 0
  {
    if t.name.Include? {
      var u :| Host(c.w, t.value, ip, u, n - 1, h) && u in INCLUDE && o == INCLUDE[u];
      CheckFits(c, t.value, ip, depth + 1, Charge(st), u, n - 1, h);
    }
  }

  // ----- the verdict --------------------------------------------------------------------------------------

  /** The standard gives the domain the verdict v, for n lookups. */
  ghost predicate Standard(w: World, domain: string, ip: Option<IP>, v: Verdict, n: nat) {
    exists h :: Host(w, domain, ip, v, n, h)
  }

  lemma WithinBudget(w: World, domain: string, ip: Option<IP>, v: Verdict, n: nat)
    requires CaseInsensitive(w) && n <= 10
    ensures var r := Evaluate(SourceConfig(w), domain, ip);
            r.verdict == v && r.st.lookups == n <==> Standard(w, domain, ip, v, n)
  {
    var c, r := SourceConfig(w).(memo := false), Evaluate(SourceConfig(w), domain, ip);
    MemoIsTransparent(w, domain, ip);
    if r.st.lookups <= 10 {
      CheckSound(c, domain, ip, 0, INITIAL);
      assert Host(w, domain, ip, r.verdict, r.st.lookups, Room(c, 0));
    }
    forall h | Host(w, domain, ip, v, n, h) ensures r.verdict == v && r.st.lookups == n {
      CheckFits(c, domain, ip, 0, INITIAL, v, n, h);
      HostUnique(w, domain, ip, r.verdict, v, r.st.lookups, n, Room(c, 0), h);
    }
  }

  /**
  The evaluator returns the verdict v exactly when the standard gives the domain v for at most ten
  lookups, or v is permerror and the standard gives it no verdict for ten lookups.
  */
  lemma VerdictFollowsTheStandard(w: World, domain: string, ip: Option<IP>, v: Verdict)
    requires CaseInsensitive(w)
    ensures Evaluate(SourceConfig(w), domain, ip).verdict == v <==>
            || (exists n: nat :: n <= 10 && Standard(w, domain, ip, v, n))
            || (v == Permerror && forall u, n: nat | n <= 10 :: !Standard(w, domain, ip, u, n))
  {
    var r := Evaluate(SourceConfig(w), domain, ip);
    forall u, n: nat | n <= 10
      ensures r.verdict == u && r.st.lookups == n <==> Standard(w, domain, ip, u, n)
    {
      WithinBudget(w, domain, ip, u, n);
    }
    if r.st.lookups > 10 {
      LookupBudget(w, domain, ip);
    } else {
      assert Standard(w, domain, ip, r.verdict, r.st.lookups);
    }
  }
}
