/**
Streaming ingest from the bytes of the body on: the loop of stream in internal/ingest/ingest.go with
its line reader, for every parse of a line, and what it makes of a body compared with the plain split.
*/
module IngestBody {
  import opened Wrappers
  import opened LineReading
  import opened Ingesting
  import opened IngestGuarantees

  /** How the body is read: the line limit, the buffer, and whether the end comes with the last bytes. */
  datatype Reading = Reading(max: nat, size: nat, eager: bool)

  const LINE_TOO_LONG := "ingest: line exceeds the line length limit"

  /** A line as the loop takes it: an over-long one is rejected without an address, a text is parsed. */
  function Parse(parse: seq<byte> -> Ingesting.Line, item: Item): Ingesting.Line {
    match item
    case Text(bytes) => parse(bytes)
    case _ => Bad("", LINE_TOO_LONG)
  }

  function ParseAll(parse: seq<byte> -> Ingesting.Line, items: seq<Item>): seq<Ingesting.Line> {
    seq(|items|, i requires 0 <= i < |items| => Parse(parse, items[i]))
  }

  /** The lines the loop takes from the body. */
  function LinesRead(r: Reading, parse: seq<byte> -> Ingesting.Line, body: seq<byte>): seq<Ingesting.Line>
    requires r.size > 0
  {
    ParseAll(parse, ReadAll(body, r.max, r.size, r.eager))
  }

  /** The lines of the body, by the plain split. */
  function LinesThere(r: Reading, parse: seq<byte> -> Ingesting.Line, body: seq<byte>): seq<Ingesting.Line> {
    ParseAll(parse, Lines(body, r.max))
  }

  /**
  The lines of a body, told from its pieces: an over-long one is rejected without an address, any other is
  parsed without one carriage return at its end.
  */
  lemma LinesParsed(r: Reading, parse: seq<byte> -> Ingesting.Line, body: seq<byte>, i: nat)
    requires i < |Split(body)|
    ensures |LinesThere(r, parse, body)| == |Split(body)|
    ensures var piece, line := Split(body)[i], LinesThere(r, parse, body)[i];
            if |piece| > r.max then line == Bad("", "ingest: line exceeds the line length limit")
            else if piece != [] && piece[|piece| - 1] == 13 then line == parse(piece[..|piece| - 1])
            else line == parse(piece)
  {
    LinesAreRead(body, r.max);
    var piece := Split(body)[i];
    assert Reads(Lines(body, r.max)[i], piece, r.max);
    if |piece| <= r.max && piece != [] && piece[|piece| - 1] == 13 {
      assert piece == Lines(body, r.max)[i].bytes + [13];
      assert piece[..|piece| - 1] == Lines(body, r.max)[i].bytes;
    }
  }

  /** Reading one line: it is the next of the lines, and there is none at the end. */
  lemma ReadsNext(r: Reading, parse: seq<byte> -> Ingesting.Line, rest: seq<byte>)
    requires r.size > 0
    ensures var (item, unread) := NextOf(rest, r.max, r.size, r.eager);
            if item == End then LinesRead(r, parse, rest) == []
            else
              && |unread| < |rest|
              && LinesRead(r, parse, rest) == [Parse(parse, item)] + LinesRead(r, parse, unread)
  {
  }

  lemma TailOf<T>(s: seq<T>, i: nat, x: T, rest: seq<T>)
    requires i <= |s| && s[i..] == [x] + rest
    ensures i < |s| && s[i] == x && s[i + 1..] == rest
  {
    assert s[i..][0] == x && s[i..][1..] == rest;
  }

  /** The loop of stream: read a line, parse it, process it; at the end flush what is pending. */
  method StreamBody(run: Run, reader: LineReader, parse: seq<byte> -> Ingesting.Line) returns (err: Option<Error>)
    requires reader.size > 0 && run.St() == Initial(run.rows)
    modifies run, reader
    ensures var r := Reading(reader.max, reader.size, reader.eager);
            Outcome(err, run.St()) == Stream(run.c, old(run.rows), LinesRead(r, parse, old(reader.rest)))
  {
    if run.existing >= run.c.cap {
      return Some(TooManyRecipients);
    }
    ghost var r := Reading(reader.max, reader.size, reader.eager);
    ghost var lines := LinesRead(r, parse, reader.rest);
    var i := 0;
    while true
      invariant 0 <= i <= |lines| && lines[i..] == LinesRead(r, parse, reader.rest)
      invariant From(run.c, run.St(), lines, i) == Stream(run.c, old(run.rows), lines)
      decreases |reader.rest|
    {
      if run.c.readFails == Some(i) {
        return Some(ReadFailed);
      }
      ReadsNext(r, parse, reader.rest);
      var item := reader.Next();
      if item == End {
        assert |lines[i..]| == 0;
        break;
      }
      TailOf(lines, i, Parse(parse, item), LinesRead(r, parse, reader.rest));
      err := run.DoLine(Parse(parse, item), i);
      if err.Some? {
        return;
      }
      i := i + 1;
    }
    err := run.DoFlush();
  }

  // ----- from bytes to recipients ---------------------------------------------------------------------------------

  function Counted(st: State): Tally {
    Tally(st.rows, st.accepted, st.duplicates, st.invalid)
  }

  /** The unterminated last line, when the reader loses it. */
  function LostLines(r: Reading, parse: seq<byte> -> Ingesting.Line, body: seq<byte>): seq<Ingesting.Line>
    requires r.size > 0
  {
    if Lost(Tail(body), r.max, r.size, r.eager) then [parse(TrimCR(Tail(body)))] else []
  }

  /** The lines of the body are those read and the one lost. */
  lemma ReadAndLost(r: Reading, parse: seq<byte> -> Ingesting.Line, body: seq<byte>)
    requires r.size > 0
    ensures LinesThere(r, parse, body) == LinesRead(r, parse, body) + LostLines(r, parse, body)
  {
    ReaderSplits(body, r.max, r.size, r.eager);
  }

  /** What leaving out one line changes: every line but a blank one counts, and a new recipient adds a row. */
  lemma OneLineLess(t: Tally, line: Ingesting.Line)
    ensures Take(t, line) == t <==> line.Blank?
    ensures Take(t, line).rows == t.rows <==> !line.Good? || line.r.norm in t.rows
  {
    if line.Good? && line.r.norm !in t.rows {
      assert line.r.norm in Take(t, line).rows;
    }
  }

  /** Whatever is lost, the run takes the lines that were read as the fold does. */
  lemma TakesWhatIsRead(c: Config, rows: Rows, read: seq<Ingesting.Line>, lost: seq<Ingesting.Line>)
    requires Faultless(c) && |Fold(rows, read + lost).rows| < c.cap
    ensures Stream(c, rows, read).err.None? && Counted(Stream(c, rows, read).st) == Fold(rows, read)
  {
    assert (read + lost)[..|read|] == read;
    FoldExtends(rows, read + lost, |read|);
    SubsetSize(Fold(rows, read).rows, Fold(rows, read + lost).rows);
    BatchedAgrees(c, rows, read);
  }

  /**
  For every body, read buffer, line limit, batch size and parse, a run below the cap in which nothing
  fails takes the body as the fold over the parsed plain split does, exactly when no line is lost or
  the one that is lost is blank; and it reaches the same recipients exactly when the lost line, if any,
  is no new recipient.
  */
  lemma BytesToRecipients(r: Reading, parse: seq<byte> -> Ingesting.Line, c: Config, rows: Rows, body: seq<byte>)
    requires r.size > 0 && Faultless(c) && |Fold(rows, LinesThere(r, parse, body)).rows| < c.cap
    ensures var o := Stream(c, rows, LinesRead(r, parse, body));
            var all := Fold(rows, LinesThere(r, parse, body));
            var lost := LostLines(r, parse, body);
            && o.err.None?
            && (Counted(o.st) == all <==> lost == [] || lost == [Blank])
            && (o.st.rows == all.rows <==> lost == [] || !lost[0].Good? || lost[0].r.norm in o.st.rows)
  {
    var read, lost := LinesRead(r, parse, body), LostLines(r, parse, body);
    ReadAndLost(r, parse, body);
    TakesWhatIsRead(c, rows, read, lost);
    if lost == [] {
      assert read + lost == read;
    } else {
      assert lost == [lost[0]];
      Snoc(rows, read, lost[0]);
      OneLineLess(Fold(rows, read), lost[0]);
    }
  }

  /** A body that ends with a newline is taken in full, its rejected lines reported in order. */
  lemma TerminatedBodies(r: Reading, parse: seq<byte> -> Ingesting.Line, c: Config, rows: Rows, body: seq<byte>)
    requires r.size > 0 && Faultless(c) && |Fold(rows, LinesThere(r, parse, body)).rows| < c.cap
    requires body == [] || body[|body| - 1] == LF
    ensures var o := Stream(c, rows, LinesRead(r, parse, body));
            && o.err.None? && Counted(o.st) == Fold(rows, LinesThere(r, parse, body))
            && o.st.errors == Cut(BadLines(LinesThere(r, parse, body)), c.maxErrors)
  {
    TailOfTerminated(body);
    ReadAndLost(r, parse, body);
    assert LostLines(r, parse, body) == [];
    assert LinesThere(r, parse, body) == LinesRead(r, parse, body);
    BatchedAgrees(c, rows, LinesRead(r, parse, body));
  }
}
