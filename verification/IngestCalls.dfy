/**
Ingester.Ingest of internal/ingest/ingest.go: one call, with its idempotency key recorded as a
recipient chunk. Any store call may fail, before or after the store executed it, and calls for one
campaign do not overlap.
*/
module IngestCalls {
  import opened Wrappers
  import opened Ingesting
  import opened IngestGuarantees

  datatype Counts = Counts(accepted: nat, duplicates: nat, invalid: nat)

  datatype Chunk = Pending | Completed(counts: Counts)

  /** The campaign's side of the store. It is editable while draft or scheduled. */
  datatype Store = Store(editable: bool, rows: Rows, chunks: map<string, Chunk>)

  datatype Answer = Answered | NotExecuted | Unanswered

  /** One call: the key ("" for none), the body's lines, and how the store answers each time. */
  datatype Call = Call(key: string, lines: seq<Line>, c: Config, campaignGet: Answer, count: Answer, chunkGet: Answer,
                       putPending: Answer, recount: Answer, putCompleted: Answer)

  datatype CallError = NotEditable | CallFailed | StreamError(e: Error)

  datatype Reply = Reply(counts: Counts, total: nat, err: Option<CallError>)

  const NOTHING := Counts(0, 0, 0)

  function Put(s: Store, key: string, chunk: Chunk, a: Answer): Store {
    if a.NotExecuted? then s else s.(chunks := s.chunks[key := chunk])
  }

  function Ingest(s: Store, call: Call): (Reply, Store) {
    if !call.campaignGet.Answered? then (Reply(NOTHING, 0, Some(CallFailed)), s)
    else if !s.editable then (Reply(NOTHING, 0, Some(NotEditable)), s)
    else if !call.count.Answered? then (Reply(NOTHING, 0, Some(CallFailed)), s)
    else if call.key == "" then Streamed(s, call)
    else if !call.chunkGet.Answered? then (Reply(NOTHING, 0, Some(CallFailed)), s)
    else if call.key in s.chunks && s.chunks[call.key].Completed? then
      (Reply(s.chunks[call.key].counts, |s.rows|, None), s)
    else
      var s1 := Put(s, call.key, Pending, call.putPending);
      if !call.putPending.Answered? then (Reply(NOTHING, 0, Some(CallFailed)), s1) else Streamed(s1, call)
  }

  /** The second half: stream the body, count again, complete the chunk. */
  function Streamed(s: Store, call: Call): (Reply, Store) {
    var o := Stream(call.c, s.rows, call.lines);
    var counts := Counts(o.st.accepted, o.st.duplicates, o.st.invalid);
    var s1 := s.(rows := o.st.rows);
    var total := if call.recount.Answered? then |s1.rows| else 0;
    if o.err.Some? then (Reply(counts, total, Some(StreamError(o.err.value))), s1)
    else if !call.recount.Answered? then (Reply(counts, total, Some(CallFailed)), s1)
    else if call.key == "" then (Reply(counts, total, None), s1)
    else
      var s2 := Put(s1, call.key, Completed(counts), call.putCompleted);
      (Reply(counts, total, if call.putCompleted.Answered? then None else Some(CallFailed)), s2)
  }

  /** The Ingester bound to one campaign's store. */
  class Ingester {
    var editable: bool
    var rows: Rows
    var chunks: map<string, Chunk>

    constructor (editable: bool)
      ensures St() == Store(editable, map[], map[])
    {
      this.editable, rows, chunks := editable, map[], map[];
    }

    ghost function St(): Store
      reads this
    {
      Store(editable, rows, chunks)
    }

    method PutChunk(key: string, chunk: Chunk, a: Answer) returns (ok: bool)
      modifies this`chunks
      ensures St() == Put(old(St()), key, chunk, a) && ok == a.Answered?
    {
      if !a.NotExecuted? {
        chunks := chunks[key := chunk];
      }
      ok := a.Answered?;
    }

    method DoIngest(call: Call) returns (reply: Reply)
      modifies this
      ensures (reply, St()) == Ingest(old(St()), call)
    {
      if !call.campaignGet.Answered? {
        return Reply(NOTHING, 0, Some(CallFailed));
      }
      if !editable {
        return Reply(NOTHING, 0, Some(NotEditable));
      }
      if !call.count.Answered? {
        return Reply(NOTHING, 0, Some(CallFailed));
      }
      if call.key != "" {
        if !call.chunkGet.Answered? {
          return Reply(NOTHING, 0, Some(CallFailed));
        }
        if call.key in chunks && chunks[call.key].Completed? {
          return Reply(chunks[call.key].counts, |rows|, None);
        }
        var ok := PutChunk(call.key, Pending, call.putPending);
        if !ok {
          return Reply(NOTHING, 0, Some(CallFailed));
        }
      }
      reply := DoStreamed(call);
    }

    method DoStreamed(call: Call) returns (reply: Reply)
      modifies this
      ensures (reply, St()) == Streamed(old(St()), call)
    {
      var run := new Run(call.c, rows);
      var err := run.DoStream(call.lines);
      rows := run.rows;
      var counts := Counts(run.accepted, run.duplicates, run.invalid);
      var total := if call.recount.Answered? then |rows| else 0;
      if err.Some? {
        return Reply(counts, total, Some(StreamError(err.value)));
      }
      if !call.recount.Answered? {
        return Reply(counts, total, Some(CallFailed));
      }
      if call.key != "" {
        var ok := PutChunk(call.key, Completed(counts), call.putCompleted);
        if !ok {
          return Reply(counts, total, Some(CallFailed));
        }
      }
      return Reply(counts, total, None);
    }
  }

  // ----- over runs of calls -----------------------------------------------------------------------------------

  /** Between calls only the campaign's status may change: recipients come through ingest alone. */
  datatype Step = IngestCall(call: Call) | SetEditable(editable: bool)

  function After(s: Store, step: Step): Store {
    match step
    case IngestCall(call) => Ingest(s, call).1
    case SetEditable(editable) => s.(editable := editable)
  }

  function Run(s: Store, steps: seq<Step>): Store {
    if steps == [] then s else After(Run(s, steps[..|steps| - 1]), steps[|steps| - 1])
  }

  ghost predicate IsCompleted(s: Store, key: string) {
    key in s.chunks && s.chunks[key].Completed?
  }

  lemma {:induction false} CompletedStays(s: Store, steps: seq<Step>, key: string)
    requires key != "" && IsCompleted(s, key)
    ensures IsCompleted(Run(s, steps), key) && Run(s, steps).chunks[key] == s.chunks[key]
  {
    if steps != [] {
      CompletedStays(s, steps[..|steps| - 1], key);
    }
  }

  /**
  Once a keyed call succeeded, the same key replays its counts and changes nothing: after any later
  calls, with any body, and however its own store calls go.
  */
  lemma CompletedChunkReplays(s: Store, first: Call, steps: seq<Step>, again: Call)
    requires first.key != "" && again.key == first.key && Ingest(s, first).0.err.None?
    ensures var s' := Run(Ingest(s, first).1, steps);
            var (reply, s'') := Ingest(s', again);
            s'' == s' && (reply.err.None? ==> reply.counts == Ingest(s, first).0.counts)
  {
    CompletedStays(Ingest(s, first).1, steps, first.key);
  }

  /**
  What a reply without an error tells of a call that streamed its body: how many lines were the first of
  a new address, how many repeated one, how many were rejected, and how many recipients there are now.
  A keyed call has recorded just that.
  */
  lemma ReplyTellsTheBody(s: Store, call: Call)
    requires Ingest(s, call).0.err.None? && (call.key != "" ==> !IsCompleted(s, call.key))
    ensures var (reply, s') := Ingest(s, call);
            && reply.counts.accepted == |FreshLines(s.rows, call.lines)|
            && reply.counts.accepted + reply.counts.duplicates == |GoodLines(call.lines)|
            && reply.counts.invalid == |RejectedLines(call.lines)|
            && reply.total == |s'.rows| == |s.rows| + reply.counts.accepted
            && (forall a :: a in s'.rows <==> a in s.rows || exists i :: Has(call.lines, i, a))
            && s'.editable == s.editable
            && s'.chunks == if call.key == "" then s.chunks else s.chunks[call.key := Completed(reply.counts)]
  {
    var _ := StreamEnds(call.c, s.rows, call.lines);
    FoldCounts(s.rows, call.lines);
    FoldGrows(s.rows, call.lines);
    forall a ensures a in Fold(s.rows, call.lines).rows <==> a in s.rows || exists i :: Has(call.lines, i, a) {
      FirstLineWins(s.rows, call.lines, a);
    }
  }

  lemma {:induction false} FoldGrows(rows: Rows, lines: seq<Line>)
    ensures |Fold(rows, lines).rows| == |rows| + Fold(rows, lines).accepted
  {
    if lines != [] {
      FoldGrows(rows, lines[..|lines| - 1]);
    }
  }

  /**
  A replayed reply tells the recipients there are; a campaign past draft and scheduled is refused; and a
  call that is refused, or whose first reads fail, has changed nothing.
  */
  lemma CallsThatDoNotStream(s: Store, call: Call)
    ensures var (reply, s') := Ingest(s, call);
            var found := call.campaignGet.Answered?;
            && (reply.err == Some(NotEditable) <==> found && !s.editable)
            && (!found || !s.editable || !call.count.Answered? || (call.key != "" && !call.chunkGet.Answered?) ==>
                  reply.counts == Counts(0, 0, 0) && reply.total == 0 && reply.err.Some? && s' == s)
            && (found && s.editable && call.count.Answered? && call.key != "" && call.chunkGet.Answered?
                && IsCompleted(s, call.key) ==>
                  reply == Reply(s.chunks[call.key].counts, |s.rows|, None) && s' == s)
  {
  }

  /**
  A call succeeds exactly when the campaign is editable, every store call it makes is answered and its
  stream does, or it replays; a chunk that could not be recorded as pending streams nothing.
  */
  lemma SucceedsIff(s: Store, call: Call)
    ensures var first := call.campaignGet.Answered? && s.editable && call.count.Answered?;
            var keyed := call.key != "";
            && (Ingest(s, call).0.err.None? <==>
                  && first && (keyed ==> call.chunkGet.Answered?)
                  && ((keyed && IsCompleted(s, call.key))
                      || (&& (keyed ==> call.putPending.Answered? && call.putCompleted.Answered?)
                          && call.recount.Answered? && Stream(call.c, s.rows, call.lines).err.None?)))
            && (keyed && !IsCompleted(s, call.key) && !call.putPending.Answered? ==>
                  Ingest(s, call).0.err.Some? && Ingest(s, call).0.counts == Counts(0, 0, 0)
                  && Ingest(s, call).1.rows == s.rows)
  {
  }

  /** From the moment a campaign is started, no call adds a recipient, until it is editable again. */
  lemma NotEditableRefuses(s: Store, steps: seq<Step>, call: Call)
    requires call.campaignGet.Answered?
    ensures var s' := Run(s, steps + [SetEditable(false)]);
            Ingest(s', call).0.err == Some(NotEditable) && Ingest(s', call).1 == s'
  {
    assert (steps + [SetEditable(false)])[..|steps|] == steps;
  }

  /** Every row counted as accepted was added to those there were. */
  ghost predicate CountsAdded(rows: Rows, st: State) {
    |rows| + st.accepted <= |st.rows|
  }

  lemma FlushCountsAdded(c: Config, rows: Rows, st: State)
    requires CountsAdded(rows, st)
    ensures CountsAdded(rows, Flush(c, st).st)
  {
    InsertCounts(st.rows, st.batch);
    if st.batch != [] && c.insert(st.inserts).Fails? {
      var left := Partial(st.rows, st.batch, c.insert(st.inserts).kept);
      InsertKeeps(st.rows, st.batch);
      SubsetSize(st.rows, left);
    }
  }

  lemma ProcessCountsAdded(c: Config, rows: Rows, st: State, line: Line, i: nat)
    requires CountsAdded(rows, st)
    ensures CountsAdded(rows, Process(c, st, line, i).st)
  {
    if line.Good? {
      FlushCountsAdded(c, rows, st);
      var o := MakeRoom(c, st);
      FlushCountsAdded(c, rows, o.st.(seen := o.st.seen + {line.r.norm}, batch := o.st.batch + [line.r]));
    }
  }

  lemma {:induction false} FromCountsAdded(c: Config, rows: Rows, st: State, lines: seq<Line>, i: nat)
    requires i <= |lines| && CountsAdded(rows, st)
    ensures CountsAdded(rows, From(c, st, lines, i).st)
    decreases |lines| - i
  {
    if c.readFails != Some(i) {
      if i == |lines| {
        FlushCountsAdded(c, rows, st);
      } else {
        ProcessCountsAdded(c, rows, st, lines[i], i);
        var o := Process(c, st, lines[i], i);
        if o.err.None? {
          FromCountsAdded(c, rows, o.st, lines, i + 1);
        }
      }
    }
  }

  /** Other calls' chunks are left alone. */
  ghost predicate OtherChunksStay(s: Store, s': Store, key: string) {
    forall k | k != key :: (k in s'.chunks <==> k in s.chunks) && (k in s.chunks ==> s'.chunks[k] == s.chunks[k])
  }

  lemma StreamTellsProgress(s: Store, call: Call)
    requires call.key != "" ==> !IsCompleted(s, call.key)
    ensures var (reply, s') := Streamed(s, call);
            && |s.rows| + reply.counts.accepted <= |s'.rows|
            && reply.total == (if call.recount.Answered? then |s'.rows| else 0)
            && OtherChunksStay(s, s', call.key)
            && (reply.err.Some? && call.key != "" && IsCompleted(s', call.key) ==>
                  reply.err == Some(CallFailed) && call.putCompleted.Unanswered?
                  && s'.chunks[call.key] == Completed(reply.counts))
  {
    FromCountsAdded(call.c, s.rows, Initial(s.rows), call.lines, 0);
  }

  /**
  A call that streamed and failed tells what it accepted: no more than the rows it added, and its
  chunk is left in progress, unless only the answer to completing it was lost.
  */
  lemma FailedCallsTellProgress(s: Store, call: Call)
    requires Ingest(s, call).0.err.Some? && (call.key != "" ==> !IsCompleted(s, call.key))
    ensures var (reply, s') := Ingest(s, call);
            && |s.rows| + reply.counts.accepted <= |s'.rows|
            && (reply.total == 0 || reply.total == |s'.rows|)
            && (reply.err.value.StreamError? && call.recount.Answered? ==> reply.total == |s'.rows|)
            && OtherChunksStay(s, s', call.key)
            && (call.key != "" && IsCompleted(s', call.key) ==>
                  reply.err == Some(CallFailed) && call.putCompleted.Unanswered?
                  && s'.chunks[call.key] == Completed(reply.counts))
  {
    StreamTellsProgress(if call.key == "" then s else Put(s, call.key, Pending, call.putPending), call);
  }

  /** Calls never remove or replace a recipient, and never pass the cap. */
  lemma {:induction false} RecipientsOnlyGrow(s: Store, steps: seq<Step>, cap: nat)
    requires |s.rows| <= cap && forall i | 0 <= i < |steps| :: steps[i].IngestCall? ==> steps[i].call.c.cap == cap
    ensures Extends(s.rows, Run(s, steps).rows) && |Run(s, steps).rows| <= cap
  {
    if steps != [] {
      RecipientsOnlyGrow(s, steps[..|steps| - 1], cap);
      if steps[|steps| - 1].IngestCall? {
        CallGrows(Run(s, steps[..|steps| - 1]), steps[|steps| - 1].call);
      }
    }
  }

  lemma CallGrows(s: Store, call: Call)
    ensures Extends(s.rows, Ingest(s, call).1.rows)
    ensures |s.rows| <= call.c.cap ==> |Ingest(s, call).1.rows| <= call.c.cap
  {
    var n := StreamEnds(call.c, s.rows, call.lines);
    if n <= |call.lines| {
      FoldExtends(s.rows, call.lines[..n], 0);
      assert call.lines[..n][..0] == [] && call.lines[..|call.lines|] == call.lines;
    }
  }

  // ----- retrying until it succeeds ---------------------------------------------------------------------------

  /** The store after the calls, in order. */
  function Retried(s: Store, calls: seq<Call>): Store {
    if calls == [] then s else Ingest(Retried(s, calls[..|calls| - 1]), calls[|calls| - 1]).1
  }

  /** Repeats of one request below the cap: the same key and the same body every time. */
  ghost predicate Repeats(rows: Rows, key: string, lines: seq<Line>, call: Call) {
    call.key == key && call.lines == lines && |Fold(rows, lines).rows| < call.c.cap
  }

  ghost predicate OnTheWay(rows: Rows, s: Store, key: string, lines: seq<Line>) {
    && Extends(rows, s.rows) && Extends(s.rows, Fold(rows, lines).rows)
    && (key != "" && IsCompleted(s, key) ==> s.rows == Fold(rows, lines).rows)
  }

  lemma StreamRepeat(rows: Rows, mid: Rows, lines: seq<Line>, c: Config)
    requires Extends(rows, mid) && Extends(mid, Fold(rows, lines).rows) && |Fold(rows, lines).rows| < c.cap
    ensures var o := Stream(c, mid, lines);
            && Extends(rows, o.st.rows) && Extends(o.st.rows, Fold(rows, lines).rows)
            && (o.err.None? ==> o.st.rows == Fold(rows, lines).rows)
  {
    FoldFromBetween(rows, mid, lines);
    AttemptStaysBetween(c, mid, lines);
    SubsetSize(mid, Fold(rows, lines).rows);
    var _ := StreamEnds(c, mid, lines);
  }

  /** The streaming half of a repeated request. */
  lemma RepeatStreams(rows: Rows, s: Store, key: string, lines: seq<Line>, call: Call)
    requires Repeats(rows, key, lines, call) && OnTheWay(rows, s, key, lines) && (key != "" ==> !IsCompleted(s, key))
    ensures OnTheWay(rows, Streamed(s, call).1, key, lines)
    ensures Streamed(s, call).0.err.None? ==> Streamed(s, call).1.rows == Fold(rows, lines).rows
  {
    StreamRepeat(rows, s.rows, lines, call.c);
  }

  lemma RepeatStep(rows: Rows, s: Store, key: string, lines: seq<Line>, call: Call)
    requires Repeats(rows, key, lines, call) && OnTheWay(rows, s, key, lines)
    ensures OnTheWay(rows, Ingest(s, call).1, key, lines)
    ensures Ingest(s, call).0.err.None? ==> Ingest(s, call).1.rows == Fold(rows, lines).rows
  {
    var s1 := Put(s, key, Pending, call.putPending);
    if key == "" {
      RepeatStreams(rows, s, key, lines, call);
    } else if !IsCompleted(s, key) {
      RepeatStreams(rows, s1, key, lines, call);
    }
  }

  lemma {:induction false} RetriesStayOnTheWay(s: Store, calls: seq<Call>, key: string, lines: seq<Line>)
    requires key != "" ==> !IsCompleted(s, key)
    requires forall i | 0 <= i < |calls| :: Repeats(s.rows, key, lines, calls[i])
    ensures OnTheWay(s.rows, Retried(s, calls), key, lines)
  {
    if calls == [] {
      FoldExtends(s.rows, lines, 0);
      assert lines[..0] == [];
    } else {
      RetriesStayOnTheWay(s, calls[..|calls| - 1], key, lines);
      RepeatStep(s.rows, Retried(s, calls[..|calls| - 1]), key, lines, calls[|calls| - 1]);
    }
  }

  /**
  A client that repeats a request, keyed or not, until it gets no error has added exactly the
  recipients one undisturbed call adds, whatever failed on the way; a reply lost after the chunk was
  completed included.
  */
  lemma RetryingReachesTheBody(s: Store, calls: seq<Call>, key: string, lines: seq<Line>, last: Call)
    requires key != "" ==> !IsCompleted(s, key)
    requires (forall i | 0 <= i < |calls| :: Repeats(s.rows, key, lines, calls[i])) && Repeats(s.rows, key, lines, last)
    requires Ingest(Retried(s, calls), last).0.err.None?
    ensures Ingest(Retried(s, calls), last).1.rows == Fold(s.rows, lines).rows
  {
    RetriesStayOnTheWay(s, calls, key, lines);
    RepeatStep(s.rows, Retried(s, calls), key, lines, last);
  }
}
