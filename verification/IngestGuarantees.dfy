/**
What streaming ingest guarantees: agreement with the line-at-a-time fold, independence of the batch
size, the cap in every run, and recovery by sending the same body again.
*/
module IngestGuarantees {
  import opened Wrappers
  import opened Ingesting

  // ----- what the fold is, told from the lines alone ------------------------------------------------------------

  /** Line i is a valid line with address a. */
  predicate Has(lines: seq<Line>, i: nat, a: string) {
    i < |lines| && lines[i].Good? && lines[i].r.norm == a
  }

  /** Line i is the first valid line with its address, and the campaign did not have the address. */
  ghost predicate IsFresh(rows: Rows, lines: seq<Line>, i: nat) {
    && i < |lines| && lines[i].Good? && lines[i].r.norm !in rows
    && forall j: nat | j < i :: !Has(lines, j, lines[i].r.norm)
  }

  ghost function FreshLines(rows: Rows, lines: seq<Line>): set<nat> {
    set i: nat | i < |lines| && IsFresh(rows, lines, i)
  }

  ghost function GoodLines(lines: seq<Line>): set<nat> {
    set i: nat | i < |lines| && lines[i].Good?
  }

  ghost function RejectedLines(lines: seq<Line>): set<nat> {
    set i: nat | i < |lines| && lines[i].Bad?
  }

  /** What one more line adds to these sets. */
  lemma LineSets(rows: Rows, lines: seq<Line>)
    requires lines != []
    ensures var n := |lines| - 1; var init := lines[..n];
            && FreshLines(rows, lines) == FreshLines(rows, init) + (if IsFresh(rows, lines, n) then {n} else {})
            && GoodLines(lines) == GoodLines(init) + (if lines[n].Good? then {n} else {})
            && RejectedLines(lines) == RejectedLines(init) + (if lines[n].Bad? then {n} else {})
  {
    var n := |lines| - 1;
    var init := lines[..n];
    forall i: nat | i < n ensures IsFresh(rows, lines, i) <==> IsFresh(rows, init, i) {
      assert forall j: nat, a | j < i :: Has(lines, j, a) == Has(init, j, a);
    }
  }

  /**
  The recipients of the fold: the addresses there were, each as it was, and those of the valid lines,
  each as its first valid line has it.
  */
  lemma {:induction false} FirstLineWins(rows: Rows, lines: seq<Line>, a: string)
    ensures a in Fold(rows, lines).rows <==> a in rows || exists i :: Has(lines, i, a)
    ensures a in rows ==> Fold(rows, lines).rows[a] == rows[a]
    ensures forall i: nat | IsFresh(rows, lines, i) && Has(lines, i, a) :: Fold(rows, lines).rows[a] == lines[i].r
  {
    if lines != [] {
      var n := |lines| - 1;
      var init := lines[..n];
      FirstLineWins(rows, init, a);
      assert forall j: nat | j < n :: Has(lines, j, a) == Has(init, j, a);
      assert (exists i :: Has(lines, i, a)) <==> (exists i :: Has(init, i, a)) || Has(lines, n, a);
      forall i: nat | IsFresh(rows, lines, i) && Has(lines, i, a) ensures Fold(rows, lines).rows[a] == lines[i].r {
        if i < n {
          assert IsFresh(rows, init, i) && Has(init, i, a);
        }
      }
    }
  }

  /** The fold counts each fresh line as accepted, each other valid line as a duplicate, each rejected one. */
  lemma {:induction false} FoldCounts(rows: Rows, lines: seq<Line>)
    ensures var t := Fold(rows, lines);
            && t.accepted == |FreshLines(rows, lines)| && t.accepted + t.duplicates == |GoodLines(lines)|
            && t.invalid == |RejectedLines(lines)|
  {
    if lines == [] {
      assert FreshLines(rows, lines) == {} && GoodLines(lines) == {} && RejectedLines(lines) == {};
    } else {
      var n := |lines| - 1;
      var init := lines[..n];
      FoldCounts(rows, init);
      LineSets(rows, lines);
      if lines[n].Good? {
        FreshIffNew(rows, lines);
      }
    }
  }

  lemma FreshIffNew(rows: Rows, lines: seq<Line>)
    requires lines != [] && lines[|lines| - 1].Good?
    ensures var n := |lines| - 1;
            IsFresh(rows, lines, n) <==> lines[n].r.norm !in Fold(rows, lines[..n]).rows
  {
    var n := |lines| - 1;
    var a := lines[n].r.norm;
    FirstLineWins(rows, lines[..n], a);
    assert forall j: nat | j < n :: Has(lines, j, a) == Has(lines[..n], j, a);
  }

  /** The report of a rejected line: its number counted from one, its reason, its address cut to 200 bytes. */
  ghost predicate Reports(e: LineError, lines: seq<Line>) {
    && 0 < e.line <= |lines| && lines[e.line - 1].Bad? && e.reason == lines[e.line - 1].reason
    && var email := lines[e.line - 1].email;
       if |email| <= 200 then e.email == email else e.email == email[..200] + "..."
  }

  lemma ReportsLater(e: LineError, lines: seq<Line>, last: Line)
    requires Reports(e, lines)
    ensures Reports(e, lines + [last]) && e.line <= |lines|
  {
    assert (lines + [last])[e.line - 1] == lines[e.line - 1];
  }

  lemma ReportsLast(lines: seq<Line>, last: Line)
    requires last.Bad?
    ensures Reports(Report(last, |lines| + 1), lines + [last])
  {
  }

  lemma {:induction false} EachReported(lines: seq<Line>, i: nat)
    requires i < |BadLines(lines)|
    ensures Reports(BadLines(lines)[i], lines)
  {
    var n := |lines| - 1;
    var init, last := lines[..n], lines[n];
    assert init + [last] == lines;
    if i < |BadLines(init)| {
      EachReported(init, i);
      ReportsLater(BadLines(init)[i], init, last);
    } else {
      ReportsLast(init, last);
    }
  }

  lemma {:induction false} ReportsAscend(lines: seq<Line>, i: nat, j: nat)
    requires i < j < |BadLines(lines)|
    ensures BadLines(lines)[i].line < BadLines(lines)[j].line
  {
    var init := lines[..|lines| - 1];
    if j < |BadLines(init)| {
      ReportsAscend(init, i, j);
    } else {
      EachReported(init, i);
    }
  }

  lemma {:induction false} ReportsCount(lines: seq<Line>)
    ensures |BadLines(lines)| == |RejectedLines(lines)|
  {
    if lines == [] {
      assert RejectedLines(lines) == {};
    } else {
      ReportsCount(lines[..|lines| - 1]);
      LineSets(map[], lines);
    }
  }

  /** The listed reports are of the rejected lines, all of them, each once and in order. */
  lemma BadLinesReported(lines: seq<Line>)
    ensures forall i: nat | i < |BadLines(lines)| :: Reports(BadLines(lines)[i], lines)
    ensures |BadLines(lines)| == |RejectedLines(lines)|
    ensures forall i, j | 0 <= i < j < |BadLines(lines)| :: BadLines(lines)[i].line < BadLines(lines)[j].line
  {
    ReportsCount(lines);
    forall i: nat | i < |BadLines(lines)| ensures Reports(BadLines(lines)[i], lines) {
      EachReported(lines, i);
    }
    forall i, j | 0 <= i < j < |BadLines(lines)| ensures BadLines(lines)[i].line < BadLines(lines)[j].line {
      ReportsAscend(lines, i, j);
    }
  }

  /**
  A failing insert: any of the batch's new addresses may have got in, what the store reports of them is
  counted as accepted, and the batch is neither counted as duplicates nor given up.
  */
  lemma FailedInsertCounts(c: Config, st: State, kept: set<string>, reported: nat)
    requires st.batch != [] && c.insert(st.inserts) == Fails(kept, reported)
    ensures var o := Flush(c, st);
            && o.err == Some(StoreFailed)
            && (forall a :: a in o.st.rows <==> a in st.rows || (a in kept && exists r :: r in st.batch && r.norm == a))
            && (forall a | a in st.rows :: o.st.rows[a] == st.rows[a]) && |st.rows| <= |o.st.rows|
            && o.st.accepted == st.accepted + Min(reported, |o.st.rows| - |st.rows|)
            && o.st.duplicates == st.duplicates && o.st.batch == st.batch && o.st.inserts == st.inserts + 1
  {
    InsertKeeps(st.rows, st.batch);
    NormsOf(st.batch);
    SubsetSize(st.rows, Partial(st.rows, st.batch, kept));
  }

  lemma {:induction false} NormsOf(batch: seq<Recipient>)
    ensures forall a :: a in Norms(batch) <==> exists r :: r in batch && r.norm == a
  {
    if batch != [] {
      var init, last := batch[..|batch| - 1], batch[|batch| - 1];
      NormsOf(init);
      assert forall r :: r in batch <==> r in init || r == last;
    }
  }

  // ----- agreement with the fold ---------------------------------------------------------------------------------

  /**
  A run in which nothing fails, on a body that stays below the cap, gives for every batch size the
  same recipients (the first line of an address wins), the same counts and the same rejected lines
  as the fold over one global set.
  */
  lemma BatchedAgrees(c: Config, rows: Rows, lines: seq<Line>)
    requires Faultless(c) && |Fold(rows, lines).rows| < c.cap
    ensures var o := Stream(c, rows, lines);
            && o.err.None?
            && Fold(rows, lines) == Tally(o.st.rows, o.st.accepted, o.st.duplicates, o.st.invalid)
            && o.st.errors == Cut(BadLines(lines), c.maxErrors)
  {
    FoldExtends(rows, lines, 0);
    assert lines[..0] == [];
    SubsetSize(rows, Fold(rows, lines).rows);
    var n := StreamEnds(c, rows, lines);
    if n < |lines| {
      FoldExtends(rows, lines, n);
      SubsetSize(Fold(rows, lines[..n]).rows, Fold(rows, lines).rows);
    }
  }

  /** Whatever the counts, the recipients never depend on the batch size, at the cap neither. */
  lemma RecipientsIgnoreBatchSize(c: Config, rows: Rows, lines: seq<Line>, batchSize: nat)
    requires Faultless(c)
    ensures Stream(c, rows, lines).st.rows == Stream(c.(batchSize := batchSize), rows, lines).st.rows
  {
    var d := c.(batchSize := batchSize);
    var m := StreamEnds(c, rows, lines);
    var n := StreamEnds(d, rows, lines);
    if |rows| < c.cap {
      if m <= n {
        SameRows(c, Stream(c, rows, lines), Stream(d, rows, lines), rows, lines, m, n);
      } else {
        SameRows(d, Stream(d, rows, lines), Stream(c, rows, lines), rows, lines, n, m);
      }
    }
  }

  lemma SameRows(c: Config, o: Outcome, p: Outcome, rows: Rows, lines: seq<Line>, m: nat, n: nat)
    requires m <= n && Faultless(c) && Ended(c, o, rows, lines, m) && Ended(c, p, rows, lines, n)
    ensures o.st.rows == p.st.rows
  {
    assert lines[..|lines|] == lines;
    if m < |lines| {
      assert lines[..n][..m] == lines[..m];
      FoldExtends(rows, lines[..n], m);
      SubsetSize(o.st.rows, p.st.rows);
    }
  }

  /** No recipient line comes after the cap has been reached. */
  ghost predicate Roomy(cap: nat, rows: Rows, lines: seq<Line>) {
    |rows| < cap && forall i | 0 <= i < |lines| && lines[i].Good? :: |Fold(rows, lines[..i]).rows| < cap
  }

  /**
  A body is accepted whatever the batch size exactly when no recipient line, a duplicate neither,
  comes after the cap has been reached. A body that is accepted at all is accepted in full.
  */
  lemma AcceptedForEveryBatchSize(c: Config, rows: Rows, lines: seq<Line>)
    requires Faultless(c)
    ensures (forall b: nat :: Stream(c.(batchSize := b), rows, lines).err.None?) <==> Roomy(c.cap, rows, lines)
  {
    if Roomy(c.cap, rows, lines) {
      forall b: nat ensures Stream(c.(batchSize := b), rows, lines).err.None? {
        var _ := StreamEnds(c.(batchSize := b), rows, lines);
      }
    } else if |rows| < c.cap {
      var d := c.(batchSize := 1);
      assert lines[..0] == [];
      if Stream(d, rows, lines).err.None? {
        UnbatchedNeedsRoom(d, Initial(rows), rows, lines, 0);
      }
    }
    assert Stream(c.(batchSize := 1), rows, lines).err.None? ==> Roomy(c.cap, rows, lines);
  }

  /** With a batch size of one no row is pending between lines, and a recipient line needs room. */
  lemma UnbatchedStep(c: Config, st: State, rows: Rows, lines: seq<Line>, line: Line)
    requires Faultless(c) && c.batchSize == 1 && Tracks(c, st, rows, lines) && st.batch == []
    requires Process(c, st, line, |lines|).err.None?
    ensures Process(c, st, line, |lines|).st.batch == []
    ensures line.Good? ==> |Fold(rows, lines).rows| < c.cap
  {
    assert st.seen == {};
    if line.Good? {
      MakeRoomTracks(c, st, rows, lines);
      assert MakeRoom(c, st).err.None? && MakeRoom(c, st).st == st;
    }
  }

  /** A run that inserts every row at once refuses the first recipient line after the cap. */
  lemma {:induction false} UnbatchedNeedsRoom(c: Config, st: State, rows: Rows, lines: seq<Line>, i: nat)
    requires Faultless(c) && c.batchSize == 1 && i <= |lines| && Tracks(c, st, rows, lines[..i]) && st.batch == []
    requires From(c, st, lines, i).err.None?
    ensures forall j | i <= j < |lines| && lines[j].Good? :: |Fold(rows, lines[..j]).rows| < c.cap
    decreases |lines| - i
  {
    if i < |lines| {
      FromAdvances(c, st, lines, i);
      var o := Advance(c, st, lines, i);
      AdvanceTracks(c, st, o, rows, lines, i + 1);
      UnbatchedStep(c, st, rows, lines[..i], lines[i]);
      UnbatchedNeedsRoom(c, o.st, rows, lines, i + 1);
    }
  }

  /** At the cap a repeated address is counted as a duplicate while its first row is still pending. */
  lemma CountedAtTheCap(c: Config, r: Recipient)
    requires Faultless(c) && c.cap == 1 && c.batchSize == 2
    ensures Stream(c, map[], [Good(r), Good(r)]).err.None?
  {
    var lines := [Good(r), Good(r)];
    var st0 := Initial(map[]);
    var st1 := st0.(seen := {r.norm}, batch := [r]);
    assert st0.seen + {r.norm} == {r.norm} && st0.batch + [r] == [r];
    assert Process(c, st0, lines[0], 0) == Outcome(None, st1);
    assert Process(c, st1, lines[1], 1) == Outcome(None, st1.(duplicates := 1));
    assert From(c, st1.(duplicates := 1), lines, 2).err.None?;
    assert From(c, st1, lines, 1) == From(c, st1.(duplicates := 1), lines, 2);
  }

  /** With a batch size of one it is refused. */
  lemma RefusedAtTheCap(c: Config, r: Recipient)
    requires Faultless(c) && c.cap == 1 && c.batchSize == 1
    ensures Stream(c, map[], [Good(r), Good(r)]).err == Some(TooManyRecipients)
  {
    var lines := [Good(r), Good(r)];
    var _ := StreamEnds(c, map[], lines);
    OneRow(r);
    if Stream(c, map[], lines).err.None? {
      InitialTracks(c, map[]);
      assert lines[..0] == [] && lines[..1] == [Good(r)] && lines[1].Good?;
      UnbatchedNeedsRoom(c, Initial(map[]), map[], lines, 0);
    }
  }

  lemma OneRow(r: Recipient)
    ensures |Fold(map[], [Good(r)]).rows| == 1
  {
    Snoc(map[], [], Good(r));
    assert [] + [Good(r)] == [Good(r)];
  }

  /** At the cap a repeated address is counted or refused depending on the batch size. */
  lemma BatchSizeShowsAtTheCap(c: Config, r: Recipient)
    requires Faultless(c) && c.cap == 1 && c.batchSize == 2
    ensures Stream(c, map[], [Good(r), Good(r)]).err.None?
    ensures Stream(c.(batchSize := 1), map[], [Good(r), Good(r)]).err == Some(TooManyRecipients)
  {
    CountedAtTheCap(c, r);
    RefusedAtTheCap(c.(batchSize := 1), r);
  }

  /**
  In every run, whatever fails: before every line, the rows there were, those accepted and those pending
  are together within the cap, and so are the rows at the end. A campaign at its cap gets none.
  */
  lemma CapIsHard(c: Config, rows: Rows, lines: seq<Line>, i: nat)
    requires i <= |lines|
    ensures |rows| < c.cap ==>
              var o := Before(c, rows, lines, i);
              && |Stream(c, rows, lines).st.rows| <= c.cap
              && (o.err.None? ==>
                    && o.st.existing == |rows| && |o.st.rows| == o.st.existing + o.st.accepted
                    && o.st.existing + o.st.accepted + |o.st.batch| <= c.cap)
    ensures |rows| >= c.cap ==> Stream(c, rows, lines).st.rows == rows
  {
    var _ := StreamEnds(c, rows, lines);
    if |rows| < c.cap && Before(c, rows, lines, i).err.None? {
      BeforeTracks(c, rows, lines, i);
    }
  }

  // ----- sending the body again ------------------------------------------------------------------------------

  /** The rows there were prevail over those of the lines. */
  lemma {:induction false} FoldOver(rows: Rows, lines: seq<Line>)
    ensures Fold(rows, lines).rows == Fold(map[], lines).rows + rows
  {
    if lines != [] {
      FoldOver(rows, lines[..|lines| - 1]);
    }
  }

  lemma FoldFromBetween(rows: Rows, mid: Rows, lines: seq<Line>)
    requires Extends(rows, mid) && Extends(mid, Fold(rows, lines).rows)
    ensures Fold(mid, lines).rows == Fold(rows, lines).rows
  {
    FoldOver(rows, lines);
    FoldOver(mid, lines);
  }

  /** The rows after sending the body once for each configuration, failing however each says. */
  function Sent(rows: Rows, lines: seq<Line>, attempts: seq<Config>): Rows {
    if attempts == [] then rows
    else Stream(attempts[|attempts| - 1], Sent(rows, lines, attempts[..|attempts| - 1]), lines).st.rows
  }

  ghost predicate BelowCap(rows: Rows, lines: seq<Line>, attempts: seq<Config>) {
    forall c | c in attempts :: |Fold(rows, lines).rows| < c.cap
  }

  lemma {:induction false} AttemptsStayBetween(rows: Rows, lines: seq<Line>, attempts: seq<Config>)
    requires BelowCap(rows, lines, attempts)
    ensures Extends(rows, Sent(rows, lines, attempts)) && Extends(Sent(rows, lines, attempts), Fold(rows, lines).rows)
  {
    if attempts == [] {
      FoldExtends(rows, lines, 0);
      assert lines[..0] == [];
    } else {
      var last, earlier := attempts[|attempts| - 1], attempts[..|attempts| - 1];
      assert forall c | c in earlier :: c in attempts;
      AttemptsStayBetween(rows, lines, earlier);
      var mid := Sent(rows, lines, earlier);
      FoldFromBetween(rows, mid, lines);
      AttemptStaysBetween(last, mid, lines);
    }
  }

  lemma AttemptStaysBetween(c: Config, rows: Rows, lines: seq<Line>)
    requires |Fold(rows, lines).rows| < c.cap
    ensures Extends(rows, Stream(c, rows, lines).st.rows)
    ensures Extends(Stream(c, rows, lines).st.rows, Fold(rows, lines).rows)
  {
    FoldExtends(rows, lines, 0);
    assert lines[..0] == [];
    SubsetSize(rows, Fold(rows, lines).rows);
    var n := StreamEnds(c, rows, lines);
    if n < |lines| {
      FoldExtends(rows, lines, n);
      SubsetSize(Fold(rows, lines[..n]).rows, Fold(rows, lines).rows);
    }
  }

  /**
  However many attempts failed, wherever each stopped and whatever part of its last batch it left,
  sending the same body once more without a failure reaches exactly the recipients of one
  uninterrupted run.
  */
  lemma ResendingRecovers(rows: Rows, lines: seq<Line>, attempts: seq<Config>, c: Config)
    requires BelowCap(rows, lines, attempts) && Faultless(c) && |Fold(rows, lines).rows| < c.cap
    ensures Stream(c, Sent(rows, lines, attempts), lines).err.None?
    ensures Stream(c, Sent(rows, lines, attempts), lines).st.rows == Stream(c, rows, lines).st.rows
            == Fold(rows, lines).rows
  {
    AttemptsStayBetween(rows, lines, attempts);
    FoldFromBetween(rows, Sent(rows, lines, attempts), lines);
    BatchedAgrees(c, Sent(rows, lines, attempts), lines);
    BatchedAgrees(c, rows, lines);
  }
}
