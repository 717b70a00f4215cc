/**
Streaming ingest of internal/ingest/ingest.go: recipient lines are inserted in batches, with
duplicates caught by a per-batch set and by the store's (campaign, address) key, up to a hard cap.

`Stream` says what one run does, for every batch size, cap and failure; `Run` is the run as the
source writes it. It is compared with `Fold`, which takes one line at a time with one global set.
*/
module Ingesting {
  import opened Wrappers

  datatype Recipient = Recipient(norm: string, data: string)

  /** A line after parsing: blank, rejected (over-long lines among them), or a recipient. */
  datatype Line = Blank | Bad(email: string, reason: string) | Good(r: Recipient)

  /** A rejection as it is reported. */
  datatype LineError = LineError(line: nat, email: string, reason: string)

  const MAX_REPORTED: nat := 200

  function Clip(s: string): string {
    if |s| > MAX_REPORTED then s[..MAX_REPORTED] + "..." else s
  }

  /** The campaign's deliveries, by normalized address. */
  type Rows = map<string, Recipient>

  // ----- one line at a time --------------------------------------------------------------------------

  datatype Tally = Tally(rows: Rows, accepted: nat, duplicates: nat, invalid: nat)

  function Take(t: Tally, line: Line): Tally {
    match line
    case Blank => t
    case Bad(_, _) => t.(invalid := t.invalid + 1)
    case Good(r) =>
      if r.norm in t.rows then t.(duplicates := t.duplicates + 1)
      else t.(rows := t.rows[r.norm := r], accepted := t.accepted + 1)
  }

  function Fold(rows: Rows, lines: seq<Line>): Tally {
    if lines == [] then Tally(rows, 0, 0, 0)
    else Take(Fold(rows, lines[..|lines| - 1]), lines[|lines| - 1])
  }

  // ----- the run as functions --------------------------------------------------------------------------

  /** InsertBatch: rows whose address is new, and how many they are. */
  function Insert(rows: Rows, batch: seq<Recipient>): (Rows, nat) {
    if batch == [] then (rows, 0)
    else
      var (before, n) := Insert(rows, batch[..|batch| - 1]);
      var r := batch[|batch| - 1];
      if r.norm in before then (before, n) else (before[r.norm := r], n + 1)
  }

  /** How an InsertBatch goes: a failed one may have inserted any of the rows and reports some count. */
  datatype Fault = Works | Fails(kept: set<string>, reported: nat)

  /** `readFails` is the line whose reading fails; the n-th InsertBatch goes as `insert(n)` says. */
  datatype Config = Config(batchSize: nat, cap: nat, maxErrors: nat, readFails: Option<nat>, insert: nat -> Fault)

  ghost predicate Faultless(c: Config) {
    c.readFails.None? && forall n :: c.insert(n) == Works
  }

  /** The fields of run, with the store's rows and the number of inserts so far. */
  datatype State = State(
    rows: Rows, existing: nat, batch: seq<Recipient>, seen: set<string>,
    accepted: nat, duplicates: nat, invalid: nat, errors: seq<LineError>, inserts: nat)

  datatype Error = TooManyRecipients | StoreFailed | ReadFailed

  datatype Outcome = Outcome(err: Option<Error>, st: State)

  function Initial(rows: Rows): State {
    State(rows, |rows|, [], {}, 0, 0, 0, [], 0)
  }

  /** The rows a failed insert of the batch left: those of its new rows that are in `kept`. */
  function Partial(rows: Rows, batch: seq<Recipient>, kept: set<string>): Rows {
    map a | a in Insert(rows, batch).0 && (a in rows || a in kept) :: Insert(rows, batch).0[a]
  }

  function Flushed(st: State): State {
    var (rows, n) := Insert(st.rows, st.batch);
    InsertCounts(st.rows, st.batch);
    st.(rows := rows, accepted := st.accepted + n, duplicates := st.duplicates + (|st.batch| - n),
        batch := [], seen := {})
  }

  function Flush(c: Config, st: State): Outcome {
    if st.batch == [] then Outcome(None, st)
    else match c.insert(st.inserts)
      case Works => Outcome(None, Flushed(st.(inserts := st.inserts + 1)))
      case Fails(kept, reported) =>
        var rows := Partial(st.rows, st.batch, kept);
        Outcome(Some(StoreFailed), st.(rows := rows, accepted := st.accepted + Reported(st.rows, rows, reported),
                                       inserts := st.inserts + 1))
  }

  /** A failed insert reports at most the rows it inserted. */
  function Reported(before: Rows, after: Rows, reported: nat): nat {
    if |before| + reported <= |after| then reported else if |before| <= |after| then |after| - |before| else 0
  }

  function Reject(c: Config, st: State, e: LineError): State {
    st.(invalid := st.invalid + 1, errors := if |st.errors| >= c.maxErrors then st.errors else st.errors + [e])
  }

  /** The report of a rejected line, counting lines from one. */
  function Report(line: Line, lineNo: nat): LineError
    requires line.Bad?
  {
    LineError(lineNo, Clip(line.email), line.reason)
  }

  /** The early flush that makes room below the cap, or the refusal when there is none. */
  function MakeRoom(c: Config, st: State): Outcome {
    if st.existing + st.accepted + |st.batch| < c.cap then Outcome(None, st)
    else
      var o := Flush(c, st);
      if o.err.Some? then o
      else if o.st.existing + o.st.accepted >= c.cap then Outcome(Some(TooManyRecipients), o.st)
      else o
  }

  function Append(c: Config, st: State, r: Recipient): Outcome {
    var st' := st.(seen := st.seen + {r.norm}, batch := st.batch + [r]);
    if |st'.batch| >= c.batchSize then Flush(c, st') else Outcome(None, st')
  }

  /** Line i of the body, counting from zero. */
  function Process(c: Config, st: State, line: Line, i: nat): Outcome {
    match line
    case Blank => Outcome(None, st)
    case Bad(_, _) => Outcome(None, Reject(c, st, Report(line, i + 1)))
    case Good(r) =>
      if r.norm in st.seen then Outcome(None, st.(duplicates := st.duplicates + 1))
      else
        var o := MakeRoom(c, st);
        if o.err.Some? then o else Append(c, o.st, r)
  }

  /** The loop of stream from line i on. */
  function From(c: Config, st: State, lines: seq<Line>, i: nat): Outcome
    requires i <= |lines|
    decreases |lines| - i
  {
    if c.readFails == Some(i) then Outcome(Some(ReadFailed), st)
    else if i == |lines| then Flush(c, st)
    else
      var o := Process(c, st, lines[i], i);
      if o.err.Some? then o else From(c, o.st, lines, i + 1)
  }

  function Stream(c: Config, rows: Rows, lines: seq<Line>): Outcome {
    if |rows| >= c.cap then Outcome(Some(TooManyRecipients), Initial(rows)) else From(c, Initial(rows), lines, 0)
  }

  // ----- the run as the source writes it -----------------------------------------------------------------

  class Run {
    const c: Config
    const existing: nat
    var rows: Rows
    var batch: seq<Recipient>
    var seen: set<string>
    var accepted: nat
    var duplicates: nat
    var invalid: nat
    var errors: seq<LineError>
    var inserts: nat

    constructor (c: Config, rows: Rows)
      ensures this.c == c && St() == Initial(rows)
    {
      this.c, this.rows, existing := c, rows, |rows|;
      batch, seen, accepted, duplicates, invalid, errors, inserts := [], {}, 0, 0, 0, [], 0;
    }

    ghost function St(): State
      reads this
    {
      State(rows, existing, batch, seen, accepted, duplicates, invalid, errors, inserts)
    }

    /** InsertBatch, when it works: the rows are taken in order, a row with a known address skipped. */
    method InsertBatch() returns (inserted: nat)
      modifies this`rows
      ensures (rows, inserted) == Insert(old(rows), batch)
    {
      inserted := 0;
      for k := 0 to |batch|
        invariant (rows, inserted) == Insert(old(rows), batch[..k])
      {
        assert batch[..k + 1][..k] == batch[..k];
        if batch[k].norm !in rows {
          rows := rows[batch[k].norm := batch[k]];
          inserted := inserted + 1;
        }
      }
      assert batch[..|batch|] == batch;
    }

    method DoFlush() returns (err: Option<Error>)
      modifies this
      ensures Outcome(err, St()) == Flush(c, old(St()))
    {
      if |batch| == 0 {
        return None;
      }
      var fault := c.insert(inserts);
      inserts := inserts + 1;
      if fault.Fails? {
        var left := Partial(rows, batch, fault.kept);
        var inserted := Reported(rows, left, fault.reported);
        rows, accepted := left, accepted + inserted;
        return Some(StoreFailed);
      }
      err := FlushWorks();
    }

    method FlushWorks() returns (err: Option<Error>)
      modifies this
      ensures err.None? && St() == Flushed(old(St()))
    {
      InsertCounts(rows, batch);
      var inserted := InsertBatch();
      accepted := accepted + inserted;
      duplicates := duplicates + (|batch| - inserted);
      batch, seen := [], {};
      return None;
    }

    method DoReject(lineNo: nat, email: string, reason: string)
      modifies this
      ensures St() == Reject(c, old(St()), LineError(lineNo, Clip(email), reason))
    {
      invalid := invalid + 1;
      if |errors| >= c.maxErrors {
        return;
      }
      errors := errors + [LineError(lineNo, Clip(email), reason)];
    }

    /** One line of the loop. */
    method DoLine(line: Line, i: nat) returns (err: Option<Error>)
      modifies this
      ensures Outcome(err, St()) == Process(c, old(St()), line, i)
    {
      if line.Blank? {
        return None;
      } else if line.Bad? {
        DoReject(i + 1, line.email, line.reason);
        return None;
      }
      var r := line.r;
      if r.norm in seen {
        duplicates := duplicates + 1;
        return None;
      }
      if existing + accepted + |batch| >= c.cap {
        err := DoFlush();
        if err.Some? {
          return;
        }
        if existing + accepted >= c.cap {
          return Some(TooManyRecipients);
        }
      }
      seen := seen + {r.norm};
      batch := batch + [r];
      err := None;
      if |batch| >= c.batchSize {
        err := DoFlush();
      }
    }

    method DoStream(lines: seq<Line>) returns (err: Option<Error>)
      requires St() == Initial(rows)
      modifies this
      ensures Outcome(err, St()) == Stream(c, old(rows), lines)
    {
      if existing >= c.cap {
        return Some(TooManyRecipients);
      }
      var i := 0;
      while i < |lines|
        invariant 0 <= i <= |lines|
        invariant From(c, St(), lines, i) == Stream(c, old(rows), lines)
      {
        if c.readFails == Some(i) {
          return Some(ReadFailed);
        }
        err := DoLine(lines[i], i);
        if err.Some? {
          return;
        }
        i := i + 1;
      }
      if c.readFails == Some(i) {
        return Some(ReadFailed);
      }
      err := DoFlush();
    }
  }

  ghost function Norms(batch: seq<Recipient>): set<string> {
    if batch == [] then {} else Norms(batch[..|batch| - 1]) + {batch[|batch| - 1].norm}
  }

  lemma {:induction false} InsertCounts(rows: Rows, batch: seq<Recipient>)
    ensures var (r, n) := Insert(rows, batch); n <= |batch| && |r| == |rows| + n
  {
    if batch != [] {
      InsertCounts(rows, batch[..|batch| - 1]);
    }
  }

  lemma {:induction false} InsertKeeps(rows: Rows, batch: seq<Recipient>)
    ensures Insert(rows, batch).0.Keys == rows.Keys + Norms(batch)
    ensures forall a | a in rows :: Insert(rows, batch).0[a] == rows[a]
  {
    if batch != [] {
      InsertKeeps(rows, batch[..|batch| - 1]);
    }
  }

  // ----- the run follows the fold --------------------------------------------------------------------------

  ghost predicate Extends(a: Rows, b: Rows) {
    forall k | k in a :: k in b && b[k] == a[k]
  }

  /** The reports of the rejected lines, in order. */
  function BadLines(lines: seq<Line>): seq<LineError> {
    if lines == [] then []
    else
      var last := lines[|lines| - 1];
      BadLines(lines[..|lines| - 1]) + if last.Bad? then [Report(last, |lines|)] else []
  }

  ghost predicate Follows(t: Tally, st: State) {
    var (r, n) := Insert(st.rows, st.batch);
    && t.rows == r && t.accepted == st.accepted + n && t.duplicates + n == st.duplicates + |st.batch|
    && t.invalid == st.invalid
  }

  /** A run that has consumed `lines`: once its batch is inserted, it stands where the fold does. */
  ghost predicate Tracks(c: Config, st: State, rows0: Rows, lines: seq<Line>) {
    && Follows(Fold(rows0, lines), st)
    && st.errors == Cut(BadLines(lines), c.maxErrors)
    && st.seen == Norms(st.batch) && st.existing == |rows0| && |st.rows| == st.existing + st.accepted
    && Extends(rows0, st.rows)
    && st.existing + st.accepted + |st.batch| <= c.cap
  }

  ghost predicate FlushedTo(c: Config, st: State, rows0: Rows, lines: seq<Line>) {
    && Fold(rows0, lines) == Tally(st.rows, st.accepted, st.duplicates, st.invalid)
    && st.errors == Cut(BadLines(lines), c.maxErrors) && st.batch == [] && |st.rows| <= c.cap
  }

  /** Rows on the way: at least those there were, at most those the fold of `lines` reaches. */
  ghost predicate Between(c: Config, rows: Rows, rows0: Rows, lines: seq<Line>) {
    Extends(rows0, rows) && Extends(rows, Fold(rows0, lines).rows) && |rows| <= c.cap
  }

  lemma SubsetSize(a: Rows, b: Rows)
    requires Extends(a, b)
    ensures |a| <= |b| && (|a| == |b| ==> a == b)
  {
    SetSize(a.Keys, b.Keys);
  }

  lemma FlushedTracks(c: Config, st: State, rows0: Rows, lines: seq<Line>)
    requires Tracks(c, st, rows0, lines)
    ensures Tracks(c, Flushed(st), rows0, lines) && FlushedTo(c, Flushed(st), rows0, lines)
  {
    InsertCounts(st.rows, st.batch);
    InsertKeeps(st.rows, st.batch);
  }

  lemma PartialBetween(c: Config, st: State, rows0: Rows, lines: seq<Line>, kept: set<string>)
    requires Tracks(c, st, rows0, lines)
    ensures Between(c, Partial(st.rows, st.batch, kept), rows0, lines)
  {
    InsertCounts(st.rows, st.batch);
    InsertKeeps(st.rows, st.batch);
    SubsetSize(Partial(st.rows, st.batch, kept), Insert(st.rows, st.batch).0);
  }

  lemma FlushTracks(c: Config, st: State, rows0: Rows, lines: seq<Line>)
    requires Tracks(c, st, rows0, lines)
    ensures var o := Flush(c, st);
            if o.err.None? then Tracks(c, o.st, rows0, lines) && FlushedTo(c, o.st, rows0, lines)
            else o.err == Some(StoreFailed) && Between(c, o.st.rows, rows0, lines)
    ensures c.insert(st.inserts) == Works ==> Flush(c, st).err.None?
    ensures Flush(c, st).st.inserts == st.inserts + if st.batch == [] then 0 else 1
  {
    if st.batch != [] {
      match c.insert(st.inserts)
      case Works => FlushedTracks(c, st.(inserts := st.inserts + 1), rows0, lines);
      case Fails(kept, _) => PartialBetween(c, st, rows0, lines, kept);
    }
  }

  lemma Snoc(rows0: Rows, lines: seq<Line>, line: Line)
    ensures Fold(rows0, lines + [line]) == Take(Fold(rows0, lines), line)
    ensures BadLines(lines + [line]) == BadLines(lines) + if line.Bad? then [Report(line, |lines| + 1)] else []
  {
    assert (lines + [line])[..|lines|] == lines;
  }

  lemma InsertSnoc(rows: Rows, batch: seq<Recipient>, r: Recipient)
    ensures var (before, n) := Insert(rows, batch);
            Insert(rows, batch + [r]) == if r.norm in before then (before, n) else (before[r.norm := r], n + 1)
    ensures Norms(batch + [r]) == Norms(batch) + {r.norm}
  {
    assert (batch + [r])[..|batch|] == batch;
  }

  lemma AppendFollows(t: Tally, st: State, r: Recipient)
    requires Follows(t, st)
    ensures Follows(Take(t, Good(r)), st.(seen := st.seen + {r.norm}, batch := st.batch + [r]))
  {
    InsertSnoc(st.rows, st.batch, r);
  }

  lemma AppendTracks(c: Config, st: State, rows0: Rows, lines: seq<Line>, r: Recipient)
    requires Tracks(c, st, rows0, lines) && st.existing + st.accepted + |st.batch| < c.cap
    ensures Tracks(c, st.(seen := st.seen + {r.norm}, batch := st.batch + [r]), rows0, lines + [Good(r)])
  {
    AppendFollows(Fold(rows0, lines), st, r);
    InsertSnoc(st.rows, st.batch, r);
    Snoc(rows0, lines, Good(r));
    assert BadLines(lines + [Good(r)]) == BadLines(lines);
  }

  lemma RejectTracks(c: Config, st: State, rows0: Rows, lines: seq<Line>, line: Line)
    requires Tracks(c, st, rows0, lines) && line.Bad?
    ensures Tracks(c, Reject(c, st, Report(line, |lines| + 1)), rows0, lines + [line])
  {
    Snoc(rows0, lines, line);
    CutSnoc(BadLines(lines), Report(line, |lines| + 1), c.maxErrors);
  }

  lemma CutSnoc<T>(s: seq<T>, x: T, m: nat)
    ensures Cut(s + [x], m) == if |Cut(s, m)| >= m then Cut(s, m) else Cut(s, m) + [x]
  {
  }

  lemma SkipTracks(c: Config, st: State, rows0: Rows, lines: seq<Line>, line: Line)
    requires Tracks(c, st, rows0, lines) && (line.Good? ==> line.r.norm in st.seen)
    ensures Tracks(c, Process(c, st, line, |lines|).st, rows0, lines + [line])
  {
    if line.Bad? {
      RejectTracks(c, st, rows0, lines, line);
    } else {
      Snoc(rows0, lines, line);
      assert BadLines(lines + [line]) == BadLines(lines);
      InsertKeeps(st.rows, st.batch);
    }
  }

  lemma FoldExtends(rows0: Rows, lines: seq<Line>, i: nat)
    requires i <= |lines|
    ensures Extends(Fold(rows0, lines[..i]).rows, Fold(rows0, lines).rows)
    decreases |lines|
  {
    if i < |lines| {
      var shorter := lines[..|lines| - 1];
      assert shorter[..i] == lines[..i];
      FoldExtends(rows0, shorter, i);
    } else {
      assert lines[..i] == lines;
    }
  }

  lemma MakeRoomTracks(c: Config, st: State, rows0: Rows, lines: seq<Line>)
    requires Tracks(c, st, rows0, lines)
    ensures var o := MakeRoom(c, st);
            match o.err
            case None => Tracks(c, o.st, rows0, lines) && o.st.existing + o.st.accepted + |o.st.batch| < c.cap
            case Some(TooManyRecipients) => FlushedTo(c, o.st, rows0, lines) && |o.st.rows| == c.cap
            case Some(StoreFailed) => Between(c, o.st.rows, rows0, lines)
            case Some(ReadFailed) => false
    ensures Faultless(c) ==> MakeRoom(c, st).err != Some(StoreFailed)
  {
    FlushTracks(c, st, rows0, lines);
  }

  lemma AppendOutcome(c: Config, st: State, rows0: Rows, lines: seq<Line>, r: Recipient)
    requires Tracks(c, st, rows0, lines) && st.existing + st.accepted + |st.batch| < c.cap
    ensures var o := Append(c, st, r);
            if o.err.None? then Tracks(c, o.st, rows0, lines + [Good(r)])
            else o.err == Some(StoreFailed) && Between(c, o.st.rows, rows0, lines + [Good(r)])
    ensures Faultless(c) ==> Append(c, st, r).err.None?
  {
    AppendTracks(c, st, rows0, lines, r);
    FlushTracks(c, st.(seen := st.seen + {r.norm}, batch := st.batch + [r]), rows0, lines + [Good(r)]);
  }

  /** What one line does to a run that tracks the fold. */
  lemma ProcessTracks(c: Config, st: State, rows0: Rows, lines: seq<Line>, line: Line)
    requires Tracks(c, st, rows0, lines)
    ensures var o := Process(c, st, line, |lines|);
            match o.err
            case None => Tracks(c, o.st, rows0, lines + [line])
            case Some(TooManyRecipients) => FlushedTo(c, o.st, rows0, lines) && |o.st.rows| == c.cap && line.Good?
            case Some(StoreFailed) => Between(c, o.st.rows, rows0, lines + [line])
            case Some(ReadFailed) => false
    ensures Faultless(c) ==> Process(c, st, line, |lines|).err != Some(StoreFailed)
  {
    if line.Good? && line.r.norm !in st.seen {
      MakeRoomTracks(c, st, rows0, lines);
      var o := MakeRoom(c, st);
      if o.err.None? {
        AppendOutcome(c, o.st, rows0, lines, line.r);
      } else {
        assert (lines + [line])[..|lines|] == lines;
        FoldExtends(rows0, lines + [line], |lines|);
      }
    } else {
      SkipTracks(c, st, rows0, lines, line);
    }
  }

  /** How a run ends: with all lines taken, refused at a line at the cap, or failed on the way. */
  ghost predicate Ended(c: Config, o: Outcome, rows0: Rows, lines: seq<Line>, n: nat) {
    match o.err
    case None => n == |lines| && FlushedTo(c, o.st, rows0, lines)
    case Some(TooManyRecipients) =>
      n < |lines| && lines[n].Good? && FlushedTo(c, o.st, rows0, lines[..n]) && |o.st.rows| == c.cap
    case Some(_) => Between(c, o.st.rows, rows0, lines) && !Faultless(c)
  }

  lemma {:induction false} FromEnds(c: Config, st: State, rows0: Rows, lines: seq<Line>, i: nat) returns (n: nat)
    requires i <= |lines| && Tracks(c, st, rows0, lines[..i])
    ensures Ended(c, From(c, st, lines, i), rows0, lines, n)
    decreases |lines| - i
  {
    n := i;
    if c.readFails == Some(i) {
      ReadBetween(c, st, rows0, lines[..i]);
      BetweenMore(c, st.rows, rows0, lines, i);
    } else if i == |lines| {
      assert lines[..i] == lines;
      FlushTracks(c, st, rows0, lines);
    } else {
      var o := Process(c, st, lines[i], i);
      assert lines[..i] + [lines[i]] == lines[..i + 1];
      ProcessTracks(c, st, rows0, lines[..i], lines[i]);
      if o.err.None? {
        n := FromEnds(c, o.st, rows0, lines, i + 1);
      } else if o.err == Some(StoreFailed) {
        BetweenMore(c, o.st.rows, rows0, lines, i + 1);
      }
    }
  }

  lemma BetweenMore(c: Config, rows: Rows, rows0: Rows, lines: seq<Line>, i: nat)
    requires i <= |lines| && Between(c, rows, rows0, lines[..i])
    ensures Between(c, rows, rows0, lines)
  {
    FoldExtends(rows0, lines, i);
  }

  lemma ReadBetween(c: Config, st: State, rows0: Rows, lines: seq<Line>)
    requires Tracks(c, st, rows0, lines)
    ensures Between(c, st.rows, rows0, lines)
  {
    InsertKeeps(st.rows, st.batch);
  }

  /** Every run below the cap ends as Ended says; one that starts at the cap changes nothing. */
  lemma StreamEnds(c: Config, rows: Rows, lines: seq<Line>) returns (n: nat)
    ensures if |rows| >= c.cap then Stream(c, rows, lines) == Outcome(Some(TooManyRecipients), Initial(rows))
            else Ended(c, Stream(c, rows, lines), rows, lines, n)
  {
    n := 0;
    if |rows| < c.cap {
      assert lines[..0] == [];
      n := FromEnds(c, Initial(rows), rows, lines, 0);
    }
  }

  // ----- on the way -------------------------------------------------------------------------------------------

  /** One turn of the loop: read line i and process it. */
  function Advance(c: Config, st: State, lines: seq<Line>, i: nat): Outcome
    requires i < |lines|
  {
    if c.readFails == Some(i) then Outcome(Some(ReadFailed), st) else Process(c, st, lines[i], i)
  }

  /** The run before line i: its state, or the error it stopped with earlier. */
  function Before(c: Config, rows: Rows, lines: seq<Line>, i: nat): Outcome
    requires i <= |lines| && |rows| < c.cap
  {
    if i == 0 then Outcome(None, Initial(rows))
    else
      var o := Before(c, rows, lines, i - 1);
      if o.err.Some? then o else Advance(c, o.st, lines, i - 1)
  }

  lemma FromAdvances(c: Config, st: State, lines: seq<Line>, i: nat)
    requires i < |lines|
    ensures var o := Advance(c, st, lines, i);
            From(c, st, lines, i) == if o.err.Some? then o else From(c, o.st, lines, i + 1)
  {
  }

  /** It is the run: what is left of it from there gives the run's outcome. */
  lemma {:induction false} BeforeIsOnTheWay(c: Config, rows: Rows, lines: seq<Line>, i: nat)
    requires i <= |lines| && |rows| < c.cap
    ensures var o := Before(c, rows, lines, i);
            Stream(c, rows, lines) == if o.err.Some? then o else From(c, o.st, lines, i)
  {
    if i > 0 {
      BeforeIsOnTheWay(c, rows, lines, i - 1);
      FromAdvances(c, Before(c, rows, lines, i - 1).st, lines, i - 1);
    }
  }

  lemma AdvanceTracks(c: Config, st: State, o: Outcome, rows0: Rows, lines: seq<Line>, i: nat)
    requires 0 < i <= |lines| && Tracks(c, st, rows0, lines[..i - 1])
    requires o == Advance(c, st, lines, i - 1) && o.err.None?
    ensures Tracks(c, o.st, rows0, lines[..i])
  {
    assert lines[..i - 1] + [lines[i - 1]] == lines[..i];
    ProcessTracks(c, st, rows0, lines[..i - 1], lines[i - 1]);
  }

  lemma InitialTracks(c: Config, rows: Rows)
    requires |rows| < c.cap
    ensures Tracks(c, Initial(rows), rows, [])
  {
  }

  lemma {:induction false} BeforeTracks(c: Config, rows: Rows, lines: seq<Line>, i: nat)
    requires i <= |lines| && |rows| < c.cap && Before(c, rows, lines, i).err.None?
    ensures Tracks(c, Before(c, rows, lines, i).st, rows, lines[..i])
  {
    if i == 0 {
      InitialTracks(c, rows);
      assert lines[..0] == [];
    } else {
      BeforeTracks(c, rows, lines, i - 1);
      AdvanceTracks(c, Before(c, rows, lines, i - 1).st, Before(c, rows, lines, i), rows, lines, i);
    }
  }
}
