/**
The line reader of internal/ingest/ingest.go: it cuts a byte stream into lines through a buffered
reader that hands out at most `size` bytes at a time, holding at most `max` bytes of a line.

`LineReader.Next` is the source's loop. It is compared with splitting the whole stream on LF, which
it equals exactly when no unterminated last line fills the read buffer a whole number of times.
*/
module LineReading {
  newtype byte = x: int | 0 <= x < 256

  const LF: byte := 10
  const CR: byte := 13

  /** What one call of next gives: io.EOF, ErrLineTooLong or a line without its terminator. */
  datatype Item = End | TooLong | Text(bytes: seq<byte>)

  function TrimCR(b: seq<byte>): seq<byte> {
    if |b| > 0 && b[|b| - 1] == CR then b[..|b| - 1] else b
  }

  /** The position of the first LF at or after i, or the length when there is none. */
  function IndexFrom(s: seq<byte>, i: nat): (k: nat)
    requires i <= |s|
    ensures i <= k <= |s|
    decreases |s| - i
  {
    if i == |s| || s[i] == LF then i else IndexFrom(s, i + 1)
  }

  function IndexLF(s: seq<byte>): (k: nat)
    ensures k <= |s|
  {
    IndexFrom(s, 0)
  }

  lemma {:induction false} IndexIsFirst(s: seq<byte>, i: nat)
    requires i <= |s|
    ensures var k := IndexFrom(s, i); (k < |s| ==> s[k] == LF) && forall j | i <= j < k :: s[j] != LF
    decreases |s| - i
  {
    if i < |s| && s[i] != LF {
      IndexIsFirst(s, i + 1);
    }
  }

  predicate NoLF(s: seq<byte>, c: nat)
    requires c <= |s|
  {
    forall j | 0 <= j < c :: s[j] != LF
  }

  lemma IndexAfter(s: seq<byte>, c: nat)
    requires c <= |s| && NoLF(s, c)
    ensures IndexLF(s) == c + IndexLF(s[c..])
  {
    var k, j := IndexLF(s), IndexLF(s[c..]);
    IndexIsFirst(s, 0);
    IndexIsFirst(s[c..], 0);
    assert forall i | 0 <= i < j :: s[c + i] == s[c..][i] != LF;
    assert k < |s| ==> k >= c && s[c..][k - c] == LF;
    assert c + j < |s| ==> s[c + j] == s[c..][j] == LF;
  }

  /** Whether n bytes fill a buffer of the given size a whole number of times. */
  predicate Multiple(n: nat, size: nat)
    requires size > 0
  {
    n == 0 || (n >= size && Multiple(n - size, size))
  }

  lemma MultipleLess(n: nat, size: nat)
    requires 0 < size <= n
    ensures Multiple(n, size) <==> Multiple(n - size, size)
  {
  }

  // ----- the buffered reader -----------------------------------------------------------------------

  datatype Ending = Delimited | BufferFull | EOF

  /**
  bufio.Reader.ReadSlice('\n') on the unread bytes: how many of them it hands out, and why it stops.
  `eager` says whether the underlying reader reports the end of the stream together with its last
  bytes, rather than on the next read.
  */
  datatype Slice = Slice(n: nat, ending: Ending)

  function ReadSlice(rest: seq<byte>, size: nat, eager: bool): (r: Slice)
    requires size > 0
    ensures r.n <= |rest| && (r.ending == BufferFull ==> r.n == size)
  {
    var k := IndexLF(rest);
    if k < |rest| && k < size then Slice(k + 1, Delimited)
    else if |rest| > size || (|rest| == size && !eager) then Slice(size, BufferFull)
    else Slice(|rest|, EOF)
  }

  /** The bytes of a chunk that belong to its line. */
  function Content(chunk: seq<byte>): seq<byte> {
    if |chunk| > 0 && chunk[|chunk| - 1] == LF then chunk[..|chunk| - 1] else chunk
  }

  /** What is known of the line so far: its bytes, or that there are too many of them. */
  datatype Line = Held(bytes: seq<byte>) | Overlong

  function Append(line: Line, content: seq<byte>, max: nat): Line {
    if line.Overlong? || |line.bytes| + |content| > max then Overlong else Held(line.bytes + content)
  }

  /** What next returns for a line whose last chunk has been appended. */
  function Finish(line: Line, atEnd: bool): Item {
    match line
    case Overlong => TooLong
    case Held(bytes) => if atEnd then End else Text(TrimCR(bytes))
  }

  /** The loop of next, from the bytes unread and the line so far. */
  function Scan(rest: seq<byte>, line: Line, max: nat, size: nat, eager: bool): (Item, seq<byte>)
    requires size > 0
    decreases |rest|
  {
    var slice := ReadSlice(rest, size, eager);
    var chunk, unread := rest[..slice.n], rest[slice.n..];
    var grown := Append(line, Content(chunk), max);
    if slice.ending == BufferFull then Scan(unread, grown, max, size, eager)
    else (Finish(grown, slice.ending == EOF && slice.n == 0), unread)
  }

  class LineReader {
    const max: nat
    const size: nat
    const eager: bool
    var rest: seq<byte>
    var buf: seq<byte>

    constructor (stream: seq<byte>, max: nat, size: nat, eager: bool)
      ensures rest == stream && buf == [] && this.max == max && this.size == size && this.eager == eager
    {
      this.max, this.size, this.eager := max, size, eager;
      rest, buf := stream, [];
    }

    ghost function LineNow(tooLong: bool): Line
      reads this
    {
      if tooLong then Overlong else Held(buf)
    }

    method Next() returns (item: Item)
      requires size > 0
      modifies this
      ensures (item, rest) == NextOf(old(rest), max, size, eager)
      ensures |buf| <= max
    {
      ghost var want := NextOf(rest, max, size, eager);
      ScanIsNext(rest, max, size, eager);
      buf := [];
      var tooLong := false;
      while true
        invariant |buf| <= max
        invariant Scan(rest, LineNow(tooLong), max, size, eager) == want
        decreases |rest|
      {
        ScanOnce(rest, LineNow(tooLong), max, size, eager);
        var slice := ReadSlice(rest, size, eager);
        var chunk := rest[..slice.n];
        tooLong := Grow(chunk, tooLong);
        rest := rest[slice.n..];
        if slice.ending == BufferFull {
          continue;
        }
        if slice.ending == EOF && |chunk| == 0 && !tooLong {
          return End;
        }
        if tooLong {
          return TooLong;
        }
        return Text(TrimCR(buf));
      }
    }

    /** The part of the loop that appends a chunk, or drops the line once it is over the limit. */
    method Grow(chunk: seq<byte>, tooLong: bool) returns (over: bool)
      requires |buf| <= max
      modifies this`buf
      ensures LineNow(over) == Append(old(LineNow(tooLong)), Content(chunk), max)
      ensures |buf| <= max
    {
      var n := |chunk|;
      if n > 0 && chunk[n - 1] == LF {
        n := n - 1;
      }
      assert chunk[..n] == Content(chunk);
      over := tooLong;
      if !tooLong {
        if |buf| + n > max {
          over := true;
          buf := [];
        } else {
          buf := buf + chunk[..n];
        }
      }
    }
  }

  lemma ScanOnce(rest: seq<byte>, line: Line, max: nat, size: nat, eager: bool)
    requires size > 0
    ensures var slice := ReadSlice(rest, size, eager);
            var grown := Append(line, Content(rest[..slice.n]), max);
            Scan(rest, line, max, size, eager) ==
            if slice.ending == BufferFull then Scan(rest[slice.n..], grown, max, size, eager)
            else (Finish(grown, slice.ending == EOF && slice.n == 0), rest[slice.n..])
  {
  }

  // ----- the loop, told from the whole of the unread bytes ------------------------------------------

  /** An unterminated line the reader loses: it ends a stream, fits, and fills the buffer exactly. */
  predicate Lost(tail: seq<byte>, max: nat, size: nat, eager: bool)
    requires size > 0
  {
    !eager && 0 < |tail| <= max && Multiple(|tail|, size)
  }

  function Classify(line: seq<byte>, max: nat): Item {
    if |line| > max then TooLong else Text(TrimCR(line))
  }

  function NextOf(rest: seq<byte>, max: nat, size: nat, eager: bool): (Item, seq<byte>)
    requires size > 0
  {
    var k := IndexLF(rest);
    if k < |rest| then (Classify(rest[..k], max), rest[k + 1..])
    else if rest == [] || Lost(rest, max, size, eager) then (End, [])
    else (Classify(rest, max), [])
  }

  function LineOf(bytes: seq<byte>, max: nat): Line {
    if |bytes| > max then Overlong else Held(bytes)
  }

  lemma AppendIs(line: seq<byte>, content: seq<byte>, max: nat)
    ensures Append(LineOf(line, max), content, max) == LineOf(line + content, max)
  {
  }

  /** The slice after c bytes of a line, placed in the whole. */
  lemma SliceAt(orig: seq<byte>, c: nat, size: nat, eager: bool)
    requires size > 0 && c <= |orig| && NoLF(orig, c)
    ensures var r := ReadSlice(orig[c..], size, eager); var k := IndexLF(orig);
            && (r.ending == BufferFull ==> NoLF(orig, c + size) && (eager ==> c + size < |orig|))
            && (r.ending == Delimited ==> r.n > 0 && c + r.n - 1 == k < |orig| && orig[k] == LF)
            && (r.ending == EOF ==> k == |orig| == c + r.n && NoLF(orig, |orig|) && (r.n < size || eager))
  {
    IndexAfter(orig, c);
    IndexIsFirst(orig, 0);
  }

  /** The loop, with c bytes of the line behind it, gives what NextOf does. */
  ghost predicate Agrees(orig: seq<byte>, c: nat, max: nat, size: nat, eager: bool)
    requires size > 0 && c <= |orig|
  {
    Scan(orig[c..], LineOf(orig[..c], max), max, size, eager) == NextOf(orig, max, size, eager)
  }

  /** c bytes of a line have been read, in chunks that each filled the buffer. */
  ghost predicate MidLine(orig: seq<byte>, c: nat, size: nat, eager: bool)
    requires size > 0
  {
    && c <= |orig| && NoLF(orig, c) && (eager && c > 0 ==> c < |orig|)
    && (Multiple(|orig|, size) <==> Multiple(|orig| - c, size))
  }

  lemma MidLineStep(orig: seq<byte>, c: nat, size: nat, eager: bool)
    requires size > 0 && MidLine(orig, c, size, eager) && ReadSlice(orig[c..], size, eager).ending == BufferFull
    ensures c + size <= |orig| && MidLine(orig, c + size, size, eager)
  {
    SliceAt(orig, c, size, eager);
    MultipleLess(|orig| - c, size);
  }

  lemma {:induction false} ScanFrom(orig: seq<byte>, c: nat, max: nat, size: nat, eager: bool)
    requires size > 0 && MidLine(orig, c, size, eager)
    ensures Agrees(orig, c, max, size, eager)
    decreases |orig| - c
  {
    match ReadSlice(orig[c..], size, eager).ending
    case BufferFull =>
      MidLineStep(orig, c, size, eager);
      ScanFrom(orig, c + size, max, size, eager);
      ScanStep(orig, c, max, size, eager);
    case Delimited => ScanTerminated(orig, c, max, size, eager);
    case EOF => ScanTail(orig, c, max, size, eager);
  }

  /** One turn of the loop on a chunk that fills the buffer. */
  lemma ScanTurn(rest: seq<byte>, line: Line, max: nat, size: nat, eager: bool)
    requires size > 0 && ReadSlice(rest, size, eager).ending == BufferFull && rest[size - 1] != LF
    ensures Scan(rest, line, max, size, eager) == Scan(rest[size..], Append(line, rest[..size], max), max, size, eager)
  {
    assert Content(rest[..size]) == rest[..size];
  }

  lemma ScanStep(orig: seq<byte>, c: nat, max: nat, size: nat, eager: bool)
    requires size > 0 && c + size <= |orig| && MidLine(orig, c + size, size, eager)
    requires ReadSlice(orig[c..], size, eager).ending == BufferFull && Agrees(orig, c + size, max, size, eager)
    ensures Agrees(orig, c, max, size, eager)
  {
    var rest := orig[c..];
    assert rest[size - 1] == orig[c + size - 1];
    assert rest[size..] == orig[c + size..] && orig[..c] + rest[..size] == orig[..c + size];
    AppendIs(orig[..c], rest[..size], max);
    ScanTurn(rest, LineOf(orig[..c], max), max, size, eager);
  }

  lemma ScanTerminated(orig: seq<byte>, c: nat, max: nat, size: nat, eager: bool)
    requires size > 0 && MidLine(orig, c, size, eager) && ReadSlice(orig[c..], size, eager).ending == Delimited
    ensures Agrees(orig, c, max, size, eager)
  {
    SliceAt(orig, c, size, eager);
    var k, n := IndexLF(orig), ReadSlice(orig[c..], size, eager).n;
    var chunk := orig[c..][..n];
    assert chunk[n - 1] == orig[k];
    assert orig[c..][n..] == orig[k + 1..] && orig[..c] + chunk[..n - 1] == orig[..k];
    AppendIs(orig[..c], chunk[..n - 1], max);
  }

  /** The last turn of the loop: a chunk that ends with the stream. */
  lemma ScanEnd(rest: seq<byte>, line: Line, max: nat, size: nat, eager: bool)
    requires size > 0 && ReadSlice(rest, size, eager) == Slice(|rest|, EOF) && (rest != [] ==> rest[|rest| - 1] != LF)
    ensures Scan(rest, line, max, size, eager) == (Finish(Append(line, rest, max), rest == []), [])
  {
    assert rest[..|rest|] == rest && rest[|rest|..] == [] && Content(rest) == rest;
  }

  lemma ScanTail(orig: seq<byte>, c: nat, max: nat, size: nat, eager: bool)
    requires size > 0 && MidLine(orig, c, size, eager) && ReadSlice(orig[c..], size, eager).ending == EOF
    ensures Agrees(orig, c, max, size, eager)
  {
    SliceAt(orig, c, size, eager);
    var rest := orig[c..];
    assert rest != [] ==> rest[|rest| - 1] == orig[|orig| - 1];
    assert orig[..c] + rest == orig;
    ScanEnd(rest, LineOf(orig[..c], max), max, size, eager);
    AppendIs(orig[..c], rest, max);
    LostTail(orig, |rest|, max, size, eager);
  }

  lemma LostTail(orig: seq<byte>, n: nat, max: nat, size: nat, eager: bool)
    requires size > 0 && n <= |orig| && (Multiple(|orig|, size) <==> Multiple(n, size))
    requires (eager && n < |orig| ==> n > 0) && (n < size || eager)
    ensures orig == [] || Lost(orig, max, size, eager) <==> n == 0 && |orig| <= max
  {
  }

  lemma ScanIsNext(rest: seq<byte>, max: nat, size: nat, eager: bool)
    requires size > 0
    ensures Scan(rest, Held([]), max, size, eager) == NextOf(rest, max, size, eager)
  {
    assert rest[0..] == rest && rest[..0] == [];
    ScanFrom(rest, 0, max, size, eager);
  }

  // ----- against splitting the whole stream --------------------------------------------------------------

  /** The items of a stream, read one after the other up to the end. */
  function ReadAll(stream: seq<byte>, max: nat, size: nat, eager: bool): seq<Item>
    requires size > 0
    decreases |stream|
  {
    var (item, rest) := NextOf(stream, max, size, eager);
    if item == End then [] else [item] + ReadAll(rest, max, size, eager)
  }

  /** The plain split on LF; an empty piece after the last LF is no line. */
  function Split(stream: seq<byte>): seq<seq<byte>>
    decreases |stream|
  {
    if stream == [] then []
    else
      var k := IndexLF(stream);
      if k < |stream| then [stream[..k]] + Split(stream[k + 1..]) else [stream]
  }

  function Lines(stream: seq<byte>, max: nat): seq<Item> {
    var pieces := Split(stream);
    seq(|pieces|, i requires 0 <= i < |pieces| => Classify(pieces[i], max))
  }

  lemma LinesCons(stream: seq<byte>, max: nat)
    requires IndexLF(stream) < |stream|
    ensures var k := IndexLF(stream);
            Lines(stream, max) == [Classify(stream[..k], max)] + Lines(stream[k + 1..], max)
  {
    var k := IndexLF(stream);
    assert Split(stream) == [stream[..k]] + Split(stream[k + 1..]);
  }

  /** What is read of a piece: that it is too long, or its bytes without one carriage return at the end. */
  ghost predicate Reads(item: Item, piece: seq<byte>, max: nat) {
    if |piece| > max then item == TooLong
    else
      && item.Text?
      && (piece == item.bytes + [13] || (piece == item.bytes && (piece == [] || piece[|piece| - 1] != 13)))
  }

  lemma LinesAreRead(stream: seq<byte>, max: nat)
    ensures |Lines(stream, max)| == |Split(stream)|
    ensures forall i | 0 <= i < |Split(stream)| :: Reads(Lines(stream, max)[i], Split(stream)[i], max)
  {
    var pieces := Split(stream);
    forall i | 0 <= i < |pieces| ensures Reads(Classify(pieces[i], max), pieces[i], max) {
      var p := pieces[i];
      assert |p| > 0 ==> p == p[..|p| - 1] + [p[|p| - 1]];
    }
  }

  /** What follows the last LF. */
  function Tail(stream: seq<byte>): seq<byte>
    decreases |stream|
  {
    var k := IndexLF(stream);
    if k < |stream| then Tail(stream[k + 1..]) else stream
  }

  function Join(pieces: seq<seq<byte>>): seq<byte> {
    if pieces == [] then [] else pieces[0] + [10] + Join(pieces[1..])
  }

  lemma JoinCons(piece: seq<byte>, rest: seq<seq<byte>>)
    ensures Join([piece] + rest) == piece + [LF] + Join(rest)
  {
    assert ([piece] + rest)[1..] == rest;
  }

  lemma CutAtLF(stream: seq<byte>)
    requires IndexLF(stream) < |stream|
    ensures var k := IndexLF(stream); stream == stream[..k] + [LF] + stream[k + 1..]
  {
    IndexIsFirst(stream, 0);
  }

  lemma PieceHasNoLF(stream: seq<byte>)
    ensures LF !in stream[..IndexLF(stream)]
  {
    IndexIsFirst(stream, 0);
  }

  ghost predicate NoneHasLF(pieces: seq<seq<byte>>) {
    forall p | p in pieces :: LF !in p
  }

  lemma {:induction false} PiecesHaveNoLF(stream: seq<byte>)
    ensures NoneHasLF(Split(stream))
    decreases |stream|
  {
    PieceHasNoLF(stream);
    var k := IndexLF(stream);
    if k < |stream| {
      PiecesHaveNoLF(stream[k + 1..]);
    } else {
      assert stream[..k] == stream;
    }
  }

  /**
  Joined again with LF, the pieces are the stream, so none of its bytes is dropped, added or moved;
  and no piece holds an LF.
  */
  lemma {:induction false} SplitIsFaithful(stream: seq<byte>)
    ensures Join(Split(stream)) == if Tail(stream) == [] then stream else stream + [LF]
    ensures NoneHasLF(Split(stream))
    decreases |stream|
  {
    PiecesHaveNoLF(stream);
    var k := IndexLF(stream);
    if k < |stream| {
      var rest := stream[k + 1..];
      SplitIsFaithful(rest);
      CutAtLF(stream);
      JoinCons(stream[..k], Split(rest));
      assert stream[..k] + [LF] + (rest + [LF]) == stream + [LF];
    } else if stream != [] {
      JoinCons(stream, []);
      assert [stream] + [] == [stream];
    }
  }

  lemma ReadAllCons(stream: seq<byte>, max: nat, size: nat, eager: bool)
    requires size > 0 && IndexLF(stream) < |stream|
    ensures var k := IndexLF(stream);
            ReadAll(stream, max, size, eager) ==
            [Classify(stream[..k], max)] + ReadAll(stream[k + 1..], max, size, eager)
  {
  }

  lemma ReadAllTail(stream: seq<byte>, max: nat, size: nat, eager: bool)
    requires size > 0 && IndexLF(stream) == |stream|
    ensures ReadAll(stream, max, size, eager) ==
            if stream == [] || Lost(stream, max, size, eager) then [] else [Classify(stream, max)]
  {
    assert NextOf([], max, size, eager) == (End, []);
  }

  /** The line the reader gives no item for: an unterminated last one that is Lost. */
  function Missed(stream: seq<byte>, max: nat, size: nat, eager: bool): seq<Item>
    requires size > 0
  {
    if Lost(Tail(stream), max, size, eager) then [Classify(Tail(stream), max)] else []
  }

  lemma LinesTail(stream: seq<byte>, max: nat)
    requires IndexLF(stream) == |stream|
    ensures Lines(stream, max) == (if stream == [] then [] else [Classify(stream, max)]) && Tail(stream) == stream
  {
  }

  lemma Reassociate(x: Item, a: seq<Item>, b: seq<Item>)
    ensures [x] + (a + b) == [x] + a + b
  {
  }

  /**
  For every stream, line limit and buffer size, the plain split with one trailing CR trimmed and
  over-long lines replaced is the reader's items followed by the last line when that is Lost.
  */
  lemma {:induction false} ReaderSplits(stream: seq<byte>, max: nat, size: nat, eager: bool)
    requires size > 0
    ensures Lines(stream, max) == ReadAll(stream, max, size, eager) + Missed(stream, max, size, eager)
    decreases |stream|
  {
    var k := IndexLF(stream);
    if k < |stream| {
      var rest := stream[k + 1..];
      ReaderSplits(rest, max, size, eager);
      ReadAllCons(stream, max, size, eager);
      LinesCons(stream, max);
      Reassociate(Classify(stream[..k], max), ReadAll(rest, max, size, eager), Missed(rest, max, size, eager));
    } else {
      ReadAllTail(stream, max, size, eager);
      LinesTail(stream, max);
    }
  }

  /** The reader agrees with the plain split exactly when it loses no last line. */
  lemma ReaderIsExact(stream: seq<byte>, max: nat, size: nat, eager: bool)
    requires size > 0
    ensures ReadAll(stream, max, size, eager) == Lines(stream, max) <==> !Lost(Tail(stream), max, size, eager)
  {
    ReaderSplits(stream, max, size, eager);
  }

  /** Every stream that ends with a newline is among those. */
  lemma TerminatedStreamsAreExact(stream: seq<byte>, max: nat, size: nat, eager: bool)
    requires size > 0 && |stream| > 0 && stream[|stream| - 1] == LF
    ensures ReadAll(stream, max, size, eager) == Lines(stream, max)
  {
    TailOfTerminated(stream);
    ReaderIsExact(stream, max, size, eager);
  }

  lemma {:induction false} TailOfTerminated(stream: seq<byte>)
    requires stream == [] || stream[|stream| - 1] == LF
    ensures Tail(stream) == []
    decreases |stream|
  {
    if stream != [] {
      IndexIsFirst(stream, 0);
      TailOfTerminated(stream[IndexLF(stream) + 1..]);
    }
  }

  /** The read buffer, and the line limit a host gets by default. */
  const READ_BUFFER: nat := 0x1_0000
  const DEFAULT_LINE_LIMIT: nat := 0x1_0000

  /** As deployed, an unterminated body of one line of exactly 65536 bytes yields no line at all. */
  lemma LostLine(stream: seq<byte>)
    requires |stream| == 65536 && 10 !in stream
    ensures ReadAll(stream, DEFAULT_LINE_LIMIT, READ_BUFFER, false) == [] != Lines(stream, DEFAULT_LINE_LIMIT)
  {
    IndexIsFirst(stream, 0);
    assert IndexLF(stream) == |stream|;
    assert Multiple(READ_BUFFER, READ_BUFFER);
    ReadAllTail(stream, DEFAULT_LINE_LIMIT, READ_BUFFER, false);
    LinesTail(stream, DEFAULT_LINE_LIMIT);
  }
}
