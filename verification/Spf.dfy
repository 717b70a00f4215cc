/**
The SPF evaluator of internal/dnscheck/spf.go: RFC 7208's check_host() with a lookup budget, a
depth guard and a per-evaluation memo of TXT answers.

`Check`, `Terms` and `Match` say what the evaluator does, threading its mutable fields through a
`State`. They take the budget, the guard and the memo as parameters (`Config`), so that two
settings can be compared; `SpfEval` is the imperative evaluator with the source's constants,
proved to compute exactly these functions.
*/
module Spf {
  import opened Wrappers

  const MAX_LOOKUPS: nat := 10
  const MAX_DEPTH: nat := 12

  datatype Verdict = Pass | Fail | Softfail | Neutral | NoPolicy | Permerror | Temperror

  datatype IP = IPv4(bits: nat) | IPv6(bits: nat)

  datatype Name = All | Ip4 | Ip6 | A | Mx | Include | Exists | Ptr | Redirect | Exp | Ignored | Unknown

  /** One parsed mechanism or modifier. A prefix length is -1 when the term carries none. */
  datatype Term = Term(qualifier: char, name: Name, value: string, cidr4: int, cidr6: int) {
    predicate IsMechanism() {
      !name.Redirect? && !name.Exp? && !name.Ignored?
    }

    /** The mechanisms that cost one lookup (section 4.6.4 of RFC 7208). */
    predicate IsCharged() {
      name.A? || name.Mx? || name.Include? || name.Exists? || name.Ptr?
    }

    function Target(domain: string): string {
      if value != "" then value else domain
    }

    function Prefix(ip: IP): int {
      match ip
      case IPv4(_) => if cidr4 >= 0 then cidr4 else 32
      case IPv6(_) => if cidr6 >= 0 then cidr6 else 128
    }
  }

  datatype TxtAnswer = NoTxt | TxtFailed | Txts(records: seq<string>)

  /**
  Everything the evaluator asks of code outside it: the resolver (an address or MX lookup that
  fails is None), case folding of names, record recognition and parsing, and CIDR arithmetic.
  */
  datatype World = World(
    txt: string -> TxtAnswer,
    lower: string -> string,
    a: string -> Option<seq<IP>>,
    aaaa: string -> Option<seq<IP>>,
    mx: string -> Option<seq<string>>,
    isSpf: string -> bool,
    parse: string -> Option<seq<Term>>,
    cidr: (string, IP) -> Option<bool>,
    contains: (seq<IP>, IP, int) -> bool)
  {
    function Addrs(name: string, ip: IP): Option<seq<IP>> {
      if ip.IPv4? then a(name) else aaaa(name)
    }

    /** Whether name resolves, in the family of ip, to an address the prefix covers. */
    predicate Covers(name: string, ip: IP, prefix: int) {
      var ips := Addrs(name, ip);
      ips.Some? && contains(ips.value, ip, prefix)
    }
  }

  /** The last three record what the source does not: check calls, the deepest of them, TXT queries sent. */
  datatype State = State(lookups: nat, seen: map<string, TxtAnswer>, calls: nat, deepest: nat, asked: seq<string>) {
    /** A check call at the given depth. */
    function Entered(depth: nat): State {
      this.(calls := calls + 1, deepest := if depth > deepest then depth else deepest)
    }
  }

  const INITIAL := State(0, map[], 0, 0, [])

  datatype Config = Config(w: World, limit: nat, maxDepth: nat, memo: bool)

  /** `err` says whether an error value accompanies the verdict. */
  datatype Reply = Reply(verdict: Verdict, err: bool, st: State)

  datatype Matching = Matched | Unmatched | Hard(verdict: Verdict, err: bool)

  function QualifierResult(q: char): Verdict {
    if q == '-' then Fail else if q == '~' then Softfail else if q == '?' then Neutral else Pass
  }

  function SpfRecords(w: World, txts: seq<string>): seq<string> {
    if txts == [] then []
    else SpfRecords(w, txts[..|txts| - 1]) + if w.isSpf(txts[|txts| - 1]) then [txts[|txts| - 1]] else []
  }

  // ----- the evaluator as functions ------------------------------------------------------------

  function Txt(c: Config, name: string, st: State): (TxtAnswer, State) {
    var key := c.w.lower(name);
    if c.memo && key in st.seen then (st.seen[key], st)
    else (c.w.txt(name), st.(seen := st.seen[key := c.w.txt(name)], asked := st.asked + [key]))
  }

  function Charge(st: State): State {
    st.(lookups := st.lookups + 1)
  }

  function Room(c: Config, depth: nat): nat {
    if depth > c.maxDepth then 0 else c.maxDepth + 1 - depth
  }

  function Check(c: Config, domain: string, ip: Option<IP>, depth: nat, st: State): Reply
    decreases Room(c, depth), 3, 0
  {
    var st0 := st.Entered(depth);
    if depth > c.maxDepth then Reply(Permerror, true, st0)
    else
      var (answer, st1) := Txt(c, domain, st0);
      match answer
      case NoTxt => Reply(NoPolicy, false, st1)
      case TxtFailed => Reply(Temperror, true, st1)
      case Txts(txts) => Records(c, SpfRecords(c.w, txts), domain, ip, depth, st1)
  }

  /** The part of check after it selected the SPF records. */
  function Records(c: Config, records: seq<string>, domain: string, ip: Option<IP>, depth: nat, st: State): Reply
    requires depth <= c.maxDepth
    decreases Room(c, depth), 2, 0
  {
    if |records| == 0 then Reply(NoPolicy, false, st)
    else if |records| > 1 then Reply(Permerror, true, st)
    else match c.w.parse(records[0])
      case None => Reply(Permerror, true, st)
      case Some(terms) => Terms(c, terms, 0, "", domain, ip, depth, st)
  }

  /** The loop of check over terms[i..], with the last redirect seen so far. */
  function Terms(c: Config, terms: seq<Term>, i: nat, redirect: string, domain: string, ip: Option<IP>,
                 depth: nat, st: State): Reply
    requires i <= |terms| && depth <= c.maxDepth
    decreases Room(c, depth), 1, |terms| - i
  {
    if i == |terms| then Follow(c, redirect, ip, depth, st)
    else if terms[i].name.Redirect? then
      Terms(c, terms, i + 1, terms[i].value, domain, ip, depth, st)
    else if !terms[i].IsMechanism() then
      Terms(c, terms, i + 1, redirect, domain, ip, depth, st)
    else
      var (m, st1) := Match(c, terms[i], domain, ip, depth, st);
      match m
      case Hard(verdict, err) => Reply(verdict, err, st1)
      case Unmatched => Terms(c, terms, i + 1, redirect, domain, ip, depth, st1)
      case Matched => Reply(QualifierResult(terms[i].qualifier), false, st1)
  }

  /** The end of check: no mechanism matched. */
  function Follow(c: Config, redirect: string, ip: Option<IP>, depth: nat, st: State): Reply
    requires depth <= c.maxDepth
    decreases Room(c, depth), 0, 0
  {
    if redirect == "" then Reply(Neutral, false, st)
    else
      var st1 := Charge(st);
      if st1.lookups > c.limit then Reply(Permerror, true, st1)
      else
        var r := Check(c, redirect, ip, depth + 1, st1);
        if r.verdict == NoPolicy then Reply(Permerror, true, r.st) else r
  }

  function Match(c: Config, t: Term, domain: string, ip: Option<IP>, depth: nat, st: State): (Matching, State)
    requires depth <= c.maxDepth
    decreases Room(c, depth), 0, 0
  {
    if t.name.All? then (Matched, st)
    else if t.name.Ip4? || t.name.Ip6? then (MatchCidr(c.w, t, ip), st)
    else if !t.IsCharged() then (Hard(Permerror, true), st)
    else
      var st1 := Charge(st);
      if st1.lookups > c.limit then (Hard(Permerror, true), st1)
      else if t.name.Include? then
        var r := Check(c, t.value, ip, depth + 1, st1);
        (IncludeResult(r.verdict, r.err), r.st)
      else (MatchLookup(c.w, t, domain, ip), st1)
  }

  function MatchCidr(w: World, t: Term, ip: Option<IP>): Matching {
    if ip.None? then Unmatched
    else match w.cidr(t.value, ip.value)
      case None => Hard(Permerror, true)
      case Some(ok) => if ok then Matched else Unmatched
  }

  /** Section 5.2 of RFC 7208. */
  function IncludeResult(v: Verdict, err: bool): Matching {
    match v
    case Pass => Matched
    case Temperror => Hard(Temperror, err)
    case Permerror => Hard(Permerror, true)
    case NoPolicy => Hard(Permerror, true)
    case _ => Unmatched
  }

  /** The charged mechanisms that evaluate no other record: a, mx, exists and ptr. */
  function MatchLookup(w: World, t: Term, domain: string, ip: Option<IP>): Matching
  {
    match t.name
    case Exists => if w.a(t.value).Some? then Matched else Unmatched
    case A =>
      if ip.Some? && w.Covers(t.Target(domain), ip.value, t.Prefix(ip.value)) then Matched else Unmatched
    case Mx =>
      if ip.None? then Unmatched
      else
        var mxs := w.mx(t.Target(domain));
        if mxs.Some? && exists h | h in Cut(mxs.value, MAX_LOOKUPS) :: w.Covers(h, ip.value, t.Prefix(ip.value))
        then Matched else Unmatched
    case _ => Unmatched
  }

  /** The whole evaluation of one domain, as Checker.SPF starts it. */
  function Evaluate(c: Config, domain: string, ip: Option<IP>): Reply {
    Check(c, domain, ip, 0, INITIAL)
  }

  function SourceConfig(w: World): Config {
    Config(w, MAX_LOOKUPS, MAX_DEPTH, true)
  }

  // ----- the evaluator as the source writes it --------------------------------------------------

  /** spfEval: one evaluation in progress. */
  class SpfEval {
    const w: World
    var lookups: nat
    var seen: map<string, TxtAnswer>
    ghost var calls: nat
    ghost var deepest: nat
    ghost var asked: seq<string>

    constructor (w: World)
      ensures this.w == w && St() == INITIAL
    {
      this.w := w;
      lookups, seen, calls, deepest, asked := 0, map[], 0, 0, [];
    }

    ghost function St(): State
      reads this
    {
      State(lookups, seen, calls, deepest, asked)
    }

    ghost function Cfg(): Config {
      SourceConfig(w)
    }

    method DoCharge() returns (ok: bool)
      modifies this
      ensures St() == Charge(old(St()))
      ensures ok <==> lookups <= MAX_LOOKUPS
    {
      lookups := lookups + 1;
      ok := lookups <= MAX_LOOKUPS;
    }

    method LookupTxt(name: string) returns (answer: TxtAnswer)
      modifies this
      ensures (answer, St()) == Txt(Cfg(), name, old(St()))
    {
      var key := w.lower(name);
      if key in seen {
        return seen[key];
      }
      answer := w.txt(name);
      seen := seen[key := answer];
      asked := asked + [key];
    }

    method SelectRecords(txts: seq<string>) returns (records: seq<string>)
      ensures records == SpfRecords(w, txts)
    {
      records := [];
      for k := 0 to |txts|
        invariant records == SpfRecords(w, txts[..k])
      {
        assert txts[..k + 1][..k] == txts[..k];
        if w.isSpf(txts[k]) {
          records := records + [txts[k]];
        }
      }
      assert txts[..|txts|] == txts;
    }

    method DoCheck(domain: string, ip: Option<IP>, depth: nat) returns (verdict: Verdict, err: bool)
      modifies this
      ensures Reply(verdict, err, St()) == Check(Cfg(), domain, ip, depth, old(St()))
      decreases Room(Cfg(), depth), 3
    {
      calls, deepest := calls + 1, if depth > deepest then depth else deepest;
      if depth > MAX_DEPTH {
        return Permerror, true;
      }
      var answer := LookupTxt(domain);
      if answer.NoTxt? {
        return NoPolicy, false;
      } else if answer.TxtFailed? {
        return Temperror, true;
      }
      var records := SelectRecords(answer.records);
      verdict, err := DoRecords(records, domain, ip, depth);
    }

    method DoRecords(records: seq<string>, domain: string, ip: Option<IP>, depth: nat)
      returns (verdict: Verdict, err: bool)
      requires depth <= MAX_DEPTH
      modifies this
      ensures Reply(verdict, err, St()) == Records(Cfg(), records, domain, ip, depth, old(St()))
      decreases Room(Cfg(), depth), 2
    {
      if |records| == 0 {
        return NoPolicy, false;
      } else if |records| > 1 {
        return Permerror, true;
      }
      var parsed := w.parse(records[0]);
      if parsed.None? {
        return Permerror, true;
      }
      verdict, err := DoTerms(parsed.value, domain, ip, depth);
    }

    method DoTerms(terms: seq<Term>, domain: string, ip: Option<IP>, depth: nat) returns (verdict: Verdict, err: bool)
      requires depth <= MAX_DEPTH
      modifies this
      ensures Reply(verdict, err, St()) == Terms(Cfg(), terms, 0, "", domain, ip, depth, old(St()))
      decreases Room(Cfg(), depth), 1
    {
      var redirect, i := "", 0;
      while i < |terms|
        invariant 0 <= i <= |terms|
        invariant Terms(Cfg(), terms, i, redirect, domain, ip, depth, St())
               == Terms(Cfg(), terms, 0, "", domain, ip, depth, old(St()))
      {
        var t := terms[i];
        if t.name.Redirect? {
          redirect := t.value;
        } else if t.IsMechanism() {
          var m := DoMatch(t, domain, ip, depth);
          if m.Hard? {
            return m.verdict, m.err;
          } else if m.Matched? {
            return QualifierResult(t.qualifier), false;
          }
        }
        i := i + 1;
      }
      verdict, err := DoFollow(redirect, ip, depth);
    }

    method DoFollow(redirect: string, ip: Option<IP>, depth: nat) returns (verdict: Verdict, err: bool)
      requires depth <= MAX_DEPTH
      modifies this
      ensures Reply(verdict, err, St()) == Follow(Cfg(), redirect, ip, depth, old(St()))
      decreases Room(Cfg(), depth), 0
    {
      if redirect == "" {
        return Neutral, false;
      }
      var ok := DoCharge();
      if !ok {
        return Permerror, true;
      }
      verdict, err := DoCheck(redirect, ip, depth + 1);
      if verdict == NoPolicy {
        return Permerror, true;
      }
    }

    method DoMatch(t: Term, domain: string, ip: Option<IP>, depth: nat) returns (m: Matching)
      requires depth <= MAX_DEPTH
      modifies this
      ensures (m, St()) == Match(Cfg(), t, domain, ip, depth, old(St()))
      decreases Room(Cfg(), depth), 0
    {
      if t.name.All? {
        return Matched;
      } else if t.name.Ip4? || t.name.Ip6? {
        return MatchCidr(w, t, ip);
      } else if !t.IsCharged() {
        return Hard(Permerror, true);
      }
      var ok := DoCharge();
      if !ok {
        return Hard(Permerror, true);
      }
      if t.name.Include? {
        var verdict, err := DoCheck(t.value, ip, depth + 1);
        return IncludeResult(verdict, err);
      } else if t.name.Mx? && ip.Some? {
        var found := MatchMx(t, domain, ip.value);
        return if found then Matched else Unmatched;
      }
      return MatchLookup(w, t, domain, ip);
    }

    method MatchMx(t: Term, domain: string, ip: IP) returns (found: bool)
      requires t.name.Mx?
      ensures found <==> MatchLookup(w, t, domain, Some(ip)).Matched?
    {
      var mxs := w.mx(t.Target(domain));
      if mxs.None? {
        return false;
      }
      var hosts := Cut(mxs.value, MAX_LOOKUPS);
      for k := 0 to |hosts|
        invariant forall j | 0 <= j < k :: !w.Covers(hosts[j], ip, t.Prefix(ip))
      {
        if w.Covers(hosts[k], ip, t.Prefix(ip)) {
          return true;
        }
      }
      return false;
    }
  }
}
