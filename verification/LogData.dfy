/** The records of a slow query log and what is read off their text. */
module LogData {
  import opened Seqs
  import opened Text
  import opened Segmentation
  import opened Ordering

  /** How time lines and query times are read: calendar and floating-point arithmetic are parameters. */
  datatype Clock = Clock(parseTime: string -> Option<int>, queryMicros: string -> nat)

  /** A record: its slice of the log, timed by its start. */
  type LogEntry = Timed<Ref>

  // ---------- Fields of a record ----------

  function ThreadIdOf(data: string): nat
  {
    var labelled := NumberAfter(data, "Thread_id: ");
    if labelled.Some? then labelled.value
    else
      var short := NumberAfter(data, "Id: ");
      if short.Some? then short.value else 0
  }

  function RowsSentOf(data: string): nat
  {
    var sent := NumberAfter(data, "Rows_sent: ");
    if sent.Some? then sent.value else 0
  }

  /** Nothing before position i reads like the label. */
  ghost predicate FirstAt(data: string, wanted: string, i: nat)
  {
    forall k: nat :: k < i ==> !OccursAt(data, wanted, k)
  }

  /** A number as it fits 64 bits. */
  function Saturated(n: nat): nat { if n <= 0xFFFF_FFFF_FFFF_FFFF then n else 0xFFFF_FFFF_FFFF_FFFF }

  /** A thread id printed behind its label, padded or not, is read back, whichever of the two labels the log uses. */
  lemma ThreadIdReadsBack(before: string, pad: string, n: nat, rest: string)
    requires AllWhite(pad) && EndsNumber(rest)
    ensures var data := before + "Thread_id: " + pad + Decimal(n) + rest;
            FirstAt(data, "Thread_id: ", |before|) ==> ThreadIdOf(data) == Saturated(n)
    ensures var data := before + "Id: " + pad + Decimal(n) + rest;
            Absent(data, "Thread_id: ") && FirstAt(data, "Id: ", |before|) ==> ThreadIdOf(data) == Saturated(n)
  {
    hide Decimal, OccursAt, Strtoull, AllWhite;
    if FirstAt(before + "Thread_id: " + pad + Decimal(n) + rest, "Thread_id: ", |before|) {
      LabelledReadsBack(before, "Thread_id: ", pad, n, rest);
    }
    if FirstAt(before + "Id: " + pad + Decimal(n) + rest, "Id: ", |before|) {
      LabelledReadsBack(before, "Id: ", pad, n, rest);
    }
  }

  /** So is the number of rows. */
  lemma RowsSentReadsBack(before: string, pad: string, n: nat, rest: string)
    requires AllWhite(pad) && EndsNumber(rest)
    requires FirstAt(before + "Rows_sent: " + pad + Decimal(n) + rest, "Rows_sent: ", |before|)
    ensures RowsSentOf(before + "Rows_sent: " + pad + Decimal(n) + rest) == Saturated(n)
  {
    hide Decimal, OccursAt, Strtoull, AllWhite;
    LabelledReadsBack(before, "Rows_sent: ", pad, n, rest);
  }

  ghost predicate Absent(data: string, wanted: string)
  {
    forall k: nat :: !OccursAt(data, wanted, k)
  }

  /** A record that names no thread belongs to connection 0, and one that names no rows sent none. */
  lemma NothingNamed(data: string)
    ensures Absent(data, "Thread_id: ") && Absent(data, "Id: ") ==> ThreadIdOf(data) == 0
    ensures Absent(data, "Rows_sent: ") ==> RowsSentOf(data) == 0
  {
    hide OccursAt, Strtoull;
  }

  predicate IsQuit(data: string) { Contains(data, "\n# administrator command: Quit;") }

  /** A Quit record by its lines: one of them behind the first is the Quit command. */
  predicate HasQuitLine(data: string)
  {
    exists k :: 0 < k < |Lines(data)| && "# administrator command: Quit;" <= Lines(data)[k]
  }

  lemma QuitLiteral()
    ensures "\n# administrator command: Quit;" == "\n" + "# administrator command: Quit;"
  {
  }

  lemma QuitIsOneLine()
    ensures forall k :: 0 <= k < |"# administrator command: Quit;"| ==> "# administrator command: Quit;"[k] != '\n'
  {
  }

  lemma QuitByLine(data: string, start: string)
    requires start != "" && forall k :: 0 <= k < |start| ==> start[k] != '\n'
    ensures Contains(data, "\n" + start) <==> LaterLineStarts(Lines(data), start)
  {
    hide Lines, OccursAt, LaterLineStarts;
    NewlineThenStart(data, start);
  }

  /** Looking for the command behind a newline finds exactly the records with such a line. */
  lemma QuitIsLine(data: string)
    ensures IsQuit(data) <==> HasQuitLine(data)
  {
    hide Lines, Contains;
    QuitLiteral();
    QuitIsOneLine();
    QuitByLine(data, "# administrator command: Quit;");
  }

  /** The connection of a slice. */
  function Owner(): Ref -> nat { (r: Ref) => ThreadIdOf(r.text) }

  /** The thread id is parsed on first use and remembered; zero means not yet parsed. */
  class QueryLogData {
    const data: string
    var threadId: nat

    ghost predicate Valid()
      reads this
    {
      threadId == 0 || threadId == ThreadIdOf(data)
    }

    constructor (data: string)
      ensures Valid() && this.data == data
    {
      this.data, this.threadId := data, 0;
    }

    /** Remembering the id is invisible: every call returns what parsing the record would. */
    method ParseThreadId() returns (id: nat)
      requires Valid()
      modifies this`threadId
      ensures Valid() && id == ThreadIdOf(data)
    {
      if threadId != 0 {
        return threadId;
      }
      var location := Find(data, "Thread_id: ");
      if location.Some? {
        threadId := Strtoull(data[location.value + |"Thread_id: "|..]);
        return threadId;
      }
      location := Find(data, "Id: ");
      if location.Some? {
        threadId := Strtoull(data[location.value + |"Id: "|..]);
        return threadId;
      }
      return 0;
    }
  }

  // ---------- From blocks of lines to records ----------

  /** The time a record gets: that of the last time line before it that could be read, the epoch without one. */
  function TimeBefore(clock: Clock, lines: seq<string>, i: nat): int
    requires i <= |lines|
  {
    if i == 0 then EPOCH
    else if KindOf(lines[i - 1]).Time? && clock.parseTime(lines[i - 1]).Some? then clock.parseTime(lines[i - 1]).value
    else TimeBefore(clock, lines, i - 1)
  }

  ghost predicate ReadableTime(clock: Clock, line: string) { "# Time" <= line && clock.parseTime(line).Some? }

  /** Line j is the last time line before line i that can be read. */
  ghost predicate LatestTime(clock: Clock, lines: seq<string>, j: nat, i: nat)
    requires i <= |lines|
  {
    && j < i && ReadableTime(clock, lines[j])
    && forall m :: j < m < i ==> !ReadableTime(clock, lines[m])
  }

  lemma NoTimeYet(clock: Clock, lines: seq<string>)
    ensures TimeBefore(clock, lines, 0) == EPOCH == 0
  {
  }

  lemma TimeStep(clock: Clock, lines: seq<string>, i: nat)
    requires i < |lines|
    ensures TimeBefore(clock, lines, i + 1) ==
            if ReadableTime(clock, lines[i]) then clock.parseTime(lines[i]).value else TimeBefore(clock, lines, i)
  {
    KindTests(lines[i]);
  }

  /** That is the one a record's time comes from; without one it is the epoch, which counts as no time. */
  lemma {:induction false} TimeBeforeIsLatest(clock: Clock, lines: seq<string>, i: nat)
    requires i <= |lines|
    ensures forall j: nat :: LatestTime(clock, lines, j, i) ==>
      TimeBefore(clock, lines, i) == clock.parseTime(lines[j]).value
    ensures (forall m :: 0 <= m < i ==> !ReadableTime(clock, lines[m])) ==> TimeBefore(clock, lines, i) == 0
  {
    hide KindOf, TimeBefore;
    if i == 0 {
      NoTimeYet(clock, lines);
    } else {
      TimeBeforeIsLatest(clock, lines, i - 1);
      TimeStep(clock, lines, i - 1);
      forall j: nat | LatestTime(clock, lines, j, i)
        ensures TimeBefore(clock, lines, i) == clock.parseTime(lines[j]).value
      {
        if j < i - 1 {
          assert !ReadableTime(clock, lines[i - 1]) && LatestTime(clock, lines, j, i - 1);
        }
      }
    }
  }

  predicate HasSql(lines: seq<string>, b: Block)
    requires b.lo <= b.hi <= |lines|
  {
    exists k :: b.lo <= k < b.hi && KindOf(lines[k]).Sql?
  }

  function TextOf(lines: seq<string>, b: Block): string
    requires b.lo <= b.hi <= |lines|
  {
    Flatten(lines[b.lo..b.hi])
  }

  /** Where line i starts in the log. */
  function OffsetOf(lines: seq<string>, i: nat): nat
    requires i <= |lines|
  {
    |Flatten(lines[..i])|
  }

  /** The record of a block: its slice, started its query time before the time of the record. */
  function RecordOf(clock: Clock, lines: seq<string>, b: Block): LogEntry
    requires b.lo <= b.hi <= |lines|
  {
    Timed(Ref(OffsetOf(lines, b.lo), TextOf(lines, b)),
          TimeBefore(clock, lines, b.lo) - clock.queryMicros(TextOf(lines, b)))
  }

  predicate Within(lines: seq<string>, bs: seq<Block>)
  {
    forall b :: b in bs ==> b.lo <= b.hi <= |lines|
  }

  /** One record for each block that has a query line. */
  function Records(clock: Clock, lines: seq<string>, bs: seq<Block>): seq<LogEntry>
    requires Within(lines, bs)
  {
    if bs == [] then []
    else (if HasSql(lines, bs[0]) then [RecordOf(clock, lines, bs[0])] else []) + Records(clock, lines, bs[1..])
  }

  /** No record would get the epoch as its time. */
  predicate AllTimed(clock: Clock, lines: seq<string>, bs: seq<Block>)
    requires Within(lines, bs)
  {
    bs == []
    || ((HasSql(lines, bs[0]) ==> TimeBefore(clock, lines, bs[0].lo) != EPOCH) && AllTimed(clock, lines, bs[1..]))
  }

  lemma {:induction false} BlocksWithin(lines: seq<string>, i: nat)
    requires i <= |lines|
    ensures Within(lines, Blocks(Kinds(lines), i))
  {
    BlocksSegment(Kinds(lines), i);
    var bs := Blocks(Kinds(lines), i);
    forall b | b in bs
      ensures b.lo <= b.hi <= |lines|
    {
      var m :| 0 <= m < |bs| && bs[m] == b;
      assert IsBlock(Kinds(lines), bs[m]);
    }
  }

  function LogBlocks(lines: seq<string>, i: nat): (bs: seq<Block>)
    requires i <= |lines|
    ensures Within(lines, bs)
  {
    BlocksWithin(lines, i);
    Blocks(Kinds(lines), i)
  }

  /** The records of a log in file order. */
  function LogRecords(clock: Clock, data: string): seq<LogEntry>
  {
    Records(clock, Lines(data), LogBlocks(Lines(data), 0))
  }

  /** Accurate mode survives parsing if every record has a time. */
  predicate StaysAccurate(clock: Clock, data: string)
  {
    AllTimed(clock, Lines(data), LogBlocks(Lines(data), 0))
  }

  /** No record that would be replayed is without a time. */
  ghost predicate EveryRecordTimed(clock: Clock, data: string)
  {
    forall b :: b in LogBlocks(Lines(data), 0) && HasSql(Lines(data), b) ==> TimeBefore(clock, Lines(data), b.lo) != 0
  }

  lemma {:induction false} AllTimedIff(clock: Clock, lines: seq<string>, bs: seq<Block>)
    requires Within(lines, bs)
    ensures AllTimed(clock, lines, bs) <==>
            forall b :: b in bs && HasSql(lines, b) ==> TimeBefore(clock, lines, b.lo) != 0
  {
    hide HasSql, TimeBefore;
    if bs != [] {
      AllTimedIff(clock, lines, bs[1..]);
      assert bs == [bs[0]] + bs[1..];
    }
  }

  lemma StaysAccurateIff(clock: Clock, data: string)
    ensures StaysAccurate(clock, data) <==> EveryRecordTimed(clock, data)
  {
    hide LogBlocks, HasSql, TimeBefore;
    AllTimedIff(clock, Lines(data), LogBlocks(Lines(data), 0));
  }

  // ---------- What the records are ----------

  /** t is the value of the last time line before line i that can be read, zero if there is none. */
  ghost predicate IsTimeAt(clock: Clock, lines: seq<string>, i: nat, t: int)
    requires i <= |lines|
  {
    && (forall j: nat :: LatestTime(clock, lines, j, i) ==> t == clock.parseTime(lines[j]).value)
    && ((forall m :: 0 <= m < i ==> !ReadableTime(clock, lines[m])) ==> t == 0)
  }

  /** One of the block's lines is no comment. */
  function HasQueryLine(lines: seq<string>): Block -> bool
  {
    (b: Block) => b.lo <= b.hi <= |lines| && exists k :: b.lo <= k < b.hi && !("#" <= lines[k])
  }

  /** A record of the block: its lines, where they lie in the log, started its query time before its time. */
  ghost predicate IsRecordOf(clock: Clock, lines: seq<string>, b: Block, e: LogEntry)
    requires b.lo <= b.hi <= |lines|
  {
    && e.item.at == |Flatten(lines[..b.lo])| && e.item.text == Flatten(lines[b.lo..b.hi])
    && IsTimeAt(clock, lines, b.lo, e.start + clock.queryMicros(e.item.text))
  }

  /** es are the records of the blocks bs that have a query line, one by one. */
  ghost predicate AreRecordsOf(clock: Clock, lines: seq<string>, bs: seq<Block>, es: seq<LogEntry>)
    requires Within(lines, bs)
  {
    var kept := Filter(HasQueryLine(lines), bs);
    && |es| == |kept|
    && forall n :: 0 <= n < |es| ==> kept[n].lo <= kept[n].hi <= |lines| && IsRecordOf(clock, lines, kept[n], es[n])
  }

  lemma QueryLineIsSql(lines: seq<string>, b: Block)
    requires b.lo <= b.hi <= |lines|
    ensures HasSql(lines, b) <==> HasQueryLine(lines)(b)
  {
    hide KindOf, StartsWith;
    forall k | b.lo <= k < b.hi
      ensures KindOf(lines[k]).Sql? <==> !("#" <= lines[k])
    {
      KindMeans(lines[k]);
    }
  }

  lemma RecordIsOfBlock(clock: Clock, lines: seq<string>, b: Block)
    requires b.lo <= b.hi <= |lines|
    ensures IsRecordOf(clock, lines, b, RecordOf(clock, lines, b))
  {
    hide LatestTime, ReadableTime, TimeBefore, Flatten;
    TimeBeforeIsLatest(clock, lines, b.lo);
  }

  lemma {:induction false} RecordsAreOfBlocks(clock: Clock, lines: seq<string>, bs: seq<Block>)
    requires Within(lines, bs)
    ensures AreRecordsOf(clock, lines, bs, Records(clock, lines, bs))
  {
    hide HasSql, HasQueryLine, RecordOf, IsRecordOf, Filter;
    if bs == [] {
      FilterNone(HasQueryLine(lines), bs);
    } else {
      RecordsAreOfBlocks(clock, lines, bs[1..]);
      QueryLineIsSql(lines, bs[0]);
      RecordIsOfBlock(clock, lines, bs[0]);
      FilterCons(HasQueryLine(lines), bs[0], bs[1..]);
      assert bs == [bs[0]] + bs[1..];
    }
  }

  /** The records of a log are, in order, those of the blocks with a query line, for the one segmentation it has. */
  lemma LogRecordsMean(clock: Clock, data: string, bs: seq<Block>)
    requires IsSegmentation(Kinds(Lines(data)), 0, bs)
    ensures Within(Lines(data), bs) && AreRecordsOf(clock, Lines(data), bs, LogRecords(clock, data))
  {
    hide IsSegmentation, AreRecordsOf, Records, Lines, Kinds, Blocks;
    SegmentationUnique(Kinds(Lines(data)), 0, bs);
    assert bs == LogBlocks(Lines(data), 0);
    RecordsAreOfBlocks(clock, Lines(data), bs);
  }

  // ---------- Slices ----------

  lemma OffsetStep(lines: seq<string>, i: nat)
    requires i < |lines|
    ensures OffsetOf(lines, i + 1) == OffsetOf(lines, i) + |lines[i]|
  {
    assert lines[..i + 1][..i] == lines[..i];
  }

  /** A block's text is the slice of the log between the offsets of its ends. */
  lemma {:induction false} BlockIsSlice(lines: seq<string>, b: Block)
    requires b.lo <= b.hi <= |lines|
    ensures OffsetOf(lines, b.lo) + |TextOf(lines, b)| == OffsetOf(lines, b.hi) <= |Flatten(lines)|
    ensures Flatten(lines)[OffsetOf(lines, b.lo)..OffsetOf(lines, b.hi)] == TextOf(lines, b)
  {
    var before, text, after := lines[..b.lo], lines[b.lo..b.hi], lines[b.hi..];
    FlattenAppend(before, text);
    FlattenAppend(before + text, after);
    assert before + text == lines[..b.hi] && before + text + after == lines;
  }

  /** Records are non-empty slices of the log, in increasing order and without overlap. */
  ghost predicate AreSlices(data: string, es: seq<LogEntry>)
  {
    && (forall i :: 0 <= i < |es| ==> SliceOf(data, es[i].item))
    && (forall i, j :: 0 <= i < j < |es| ==> es[i].item.at + |es[i].item.text| <= es[j].item.at)
  }

  ghost predicate SliceOf(data: string, r: Ref)
  {
    r.text != "" && r.at + |r.text| <= |data| && data[r.at..r.at + |r.text|] == r.text
  }

  lemma OffsetsGrow(lines: seq<string>, i: nat, j: nat)
    requires i <= j <= |lines|
    ensures OffsetOf(lines, i) <= OffsetOf(lines, j)
  {
    BlockIsSlice(lines, Block(i, j));
  }

  lemma BlockNotEmpty(lines: seq<string>, b: Block)
    requires b.lo < b.hi <= |lines| && forall k :: 0 <= k < |lines| ==> lines[k] != ""
    ensures TextOf(lines, b) != ""
  {
    var text := lines[b.lo..b.hi];
    assert text[|text| - 1] == lines[b.hi - 1];
  }

  lemma SlicesCons(data: string, e: LogEntry, rest: seq<LogEntry>)
    requires SliceOf(data, e.item) && AreSlices(data, rest)
    requires forall i :: 0 <= i < |rest| ==> e.item.at + |e.item.text| <= rest[i].item.at
    ensures AreSlices(data, [e] + rest)
  {
    hide SliceOf;
  }

  /** The record of a block takes up the slice from the block's first line to behind its last. */
  lemma BlockRecord(clock: Clock, lines: seq<string>, b: Block)
    requires b.lo < b.hi <= |lines| && forall k :: 0 <= k < |lines| ==> lines[k] != ""
    ensures var r := RecordOf(clock, lines, b).item;
            SliceOf(Flatten(lines), r) && r.at == OffsetOf(lines, b.lo) && r.at + |r.text| == OffsetOf(lines, b.hi)
  {
    hide OffsetOf, TextOf, TimeBefore, Flatten;
    BlockIsSlice(lines, b);
    BlockNotEmpty(lines, b);
  }

  /** Ordered non-empty blocks from line from on. */
  ghost predicate BlocksFrom(bs: seq<Block>, from: nat)
  {
    Segmentation.Ordered(bs) && forall m :: 0 <= m < |bs| ==> from <= bs[m].lo < bs[m].hi
  }

  lemma BlocksBehind(bs: seq<Block>, from: nat)
    requires bs != [] && BlocksFrom(bs, from)
    ensures from <= bs[0].lo < bs[0].hi && BlocksFrom(bs[1..], bs[0].hi)
  {
  }

  lemma WithinBehind(lines: seq<string>, bs: seq<Block>)
    requires bs != [] && Within(lines, bs)
    ensures bs[0].lo <= bs[0].hi <= |lines| && Within(lines, bs[1..])
  {
    assert bs[0] in bs;
  }

  /** All start at or behind an offset. */
  ghost predicate StartFrom(es: seq<LogEntry>, at: nat)
  {
    forall i :: 0 <= i < |es| ==> at <= es[i].item.at
  }

  lemma StartFromCons(e: LogEntry, rest: seq<LogEntry>, at: nat, next: nat)
    requires at <= e.item.at && at <= next && StartFrom(rest, next)
    ensures StartFrom([e] + rest, at) && StartFrom(rest, at)
  {
  }

  lemma NoSlices(data: string, at: nat)
    ensures AreSlices(data, []) && StartFrom([], at)
  {
  }

  lemma {:induction false} RecordsAreSlices(clock: Clock, lines: seq<string>, bs: seq<Block>, from: nat)
    requires Within(lines, bs) && from <= |lines| && forall k :: 0 <= k < |lines| ==> lines[k] != ""
    requires BlocksFrom(bs, from)
    ensures AreSlices(Flatten(lines), Records(clock, lines, bs))
    ensures StartFrom(Records(clock, lines, bs), OffsetOf(lines, from))
  {
    hide OffsetOf, HasSql, RecordOf, Flatten, SliceOf, AreSlices, BlocksFrom, Within;
    if bs == [] {
      NoSlices(Flatten(lines), OffsetOf(lines, from));
    } else {
      var b, rest := bs[0], bs[1..];
      WithinBehind(lines, bs);
      BlocksBehind(bs, from);
      RecordsAreSlices(clock, lines, rest, b.hi);
      BlockRecord(clock, lines, b);
      OffsetsGrow(lines, from, b.lo);
      OffsetsGrow(lines, b.lo, b.hi);
      SlicesCons(Flatten(lines), RecordOf(clock, lines, b), Records(clock, lines, rest));
      StartFromCons(RecordOf(clock, lines, b), Records(clock, lines, rest),
                    OffsetOf(lines, from), OffsetOf(lines, b.hi));
      assert [] + Records(clock, lines, rest) == Records(clock, lines, rest);
    }
  }

  /** The records of a log are disjoint non-empty slices of it, in file order. */
  lemma LogRecordsAreSlices(clock: Clock, data: string)
    ensures AreSlices(data, LogRecords(clock, data))
  {
    hide IsTerminated, AreSlices;
    var lines := Lines(data);
    LinesRebuild(data);
    BlocksSegment(Kinds(lines), 0);
    var bs := Blocks(Kinds(lines), 0);
    assert forall m :: 0 <= m < |bs| ==> IsBlock(Kinds(lines), bs[m]);
    hide IsLine, Lines;
    RecordsAreSlices(clock, lines, bs, 0);
  }

  /** At most as many records as blocks: blocks without a query line are counted but give no record. */
  lemma {:induction false} RecordsAtMostBlocks(clock: Clock, lines: seq<string>, bs: seq<Block>)
    requires Within(lines, bs)
    ensures |Records(clock, lines, bs)| <= |bs|
  {
    hide HasSql, RecordOf;
    if bs != [] {
      RecordsAtMostBlocks(clock, lines, bs[1..]);
    }
  }
}
