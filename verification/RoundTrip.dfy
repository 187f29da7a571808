/** Printing records as a log and reading the log back gives the same records. */
module RoundTrip {
  import opened Seqs
  import opened Text
  import opened Segmentation
  import opened Ordering
  import opened LogData

  /** A record as it is written: an optional time line, then its own lines. */
  datatype Item = Item(time: Option<string>, body: seq<string>)

  /**
    A record that reads back as itself: its time line is one, its first line names the user, no later line starts
    a record or a time, and it has a query line.
   */
  ghost predicate WellFormed(item: Item)
  {
    && (item.time.Some? ==> KindOf(item.time.value).Time?)
    && item.body != [] && KindOf(item.body[0]).UserHost?
    && (forall k :: 0 < k < |item.body| ==> !IsStop(KindOf(item.body[k])))
    && (exists k :: 0 <= k < |item.body| && KindOf(item.body[k]).Sql?)
  }

  function TimeLines(item: Item): seq<string> { if item.time.Some? then [item.time.value] else [] }

  /** The lines of the items, in order. */
  function LinesOf(items: seq<Item>): seq<string>
  {
    if items == [] then [] else LinesOf(items[..|items| - 1]) + TimeLines(items[|items| - 1]) + items[|items| - 1].body
  }

  function Print(items: seq<Item>): string { Flatten(LinesOf(items)) }

  /** The time item n is written under: its own if that can be read, else the one before it. */
  function TimeOf(clock: Clock, items: seq<Item>): int
  {
    if items == [] then EPOCH
    else
      var last := items[|items| - 1];
      if last.time.Some? && clock.parseTime(last.time.value).Some? then clock.parseTime(last.time.value).value
      else TimeOf(clock, items[..|items| - 1])
  }

  /** The record expected for the last of the items. */
  function RecordFor(clock: Clock, items: seq<Item>): LogEntry
    requires items != []
  {
    var text := Flatten(items[|items| - 1].body);
    var before := LinesOf(items[..|items| - 1]) + TimeLines(items[|items| - 1]);
    Timed(Ref(|Flatten(before)|, text), TimeOf(clock, items) - clock.queryMicros(text))
  }

  function Expected(clock: Clock, items: seq<Item>): seq<LogEntry>
  {
    if items == [] then [] else Expected(clock, items[..|items| - 1]) + [RecordFor(clock, items)]
  }

  // ---------- The blocks of a printed log ----------

  /** The block of the last item. */
  function BlockOf(items: seq<Item>): Block
    requires items != []
  {
    var lo := |LinesOf(items[..|items| - 1])| + |TimeLines(items[|items| - 1])|;
    Block(lo, lo + |items[|items| - 1].body|)
  }

  function BlocksOf(items: seq<Item>): seq<Block>
  {
    if items == [] then [] else BlocksOf(items[..|items| - 1]) + [BlockOf(items)]
  }

  /** Lines and what follows them: b is a block of the longer log too. */
  lemma BlockExtends(ks: seq<Kind>, more: seq<Kind>, b: Block)
    requires IsBlock(ks, b) && more != [] && IsStop(more[0])
    ensures IsBlock(ks + more, b)
  {
  }

  /** Appending an optional time line and the lines of a record appends the record's block. */
  lemma SegmentationExtends(ks: seq<Kind>, time: seq<Kind>, body: seq<Kind>, bs: seq<Block>)
    requires IsSegmentation(ks, 0, bs)
    requires time == [] || time == [Time]
    requires body != [] && body[0].UserHost? && forall k :: 0 < k < |body| ==> !IsStop(body[k])
    ensures IsSegmentation(ks + time + body, 0, bs + [Block(|ks| + |time|, |ks| + |time| + |body|)])
  {
    hide IsStop, CoversOpeners, AllBlocks, Ordered;
    var b := Block(|ks| + |time|, |ks| + |time| + |body|);
    NewCovered(ks, time, body, bs, b);
    BlocksExtend(ks, time, body, bs, b);
    OrderExtends(ks, bs, b);
  }

  lemma OrderExtends(ks: seq<Kind>, bs: seq<Block>, b: Block)
    requires AllBlocks(ks, 0, bs) && Ordered(bs) && |ks| <= b.lo
    ensures Ordered(bs + [b])
  {
    EndsWithin(ks, bs);
    hide AllBlocks;
  }

  lemma EndsWithin(ks: seq<Kind>, bs: seq<Block>)
    requires AllBlocks(ks, 0, bs)
    ensures forall m :: 0 <= m < |bs| ==> bs[m].hi <= |ks|
  {
  }

  lemma BlocksExtend(ks: seq<Kind>, time: seq<Kind>, body: seq<Kind>, bs: seq<Block>, b: Block)
    requires AllBlocks(ks, 0, bs) && b == Block(|ks| + |time|, |ks| + |time| + |body|)
    requires time == [] || time == [Time]
    requires body != [] && body[0].UserHost? && forall k :: 0 < k < |body| ==> !IsStop(body[k])
    ensures AllBlocks(ks + time + body, 0, bs + [b])
  {
    var more := time + body;
    assert ks + time + body == ks + more && IsStop(more[0]);
    NewBlock(ks + time, body);
    hide IsBlock, IsStop;
    forall m | 0 <= m < |bs|
      ensures IsBlock(ks + more, bs[m])
    {
      BlockExtends(ks, more, bs[m]);
    }
  }

  lemma NewBlock(before: seq<Kind>, body: seq<Kind>)
    requires body != [] && body[0].UserHost? && forall k :: 0 < k < |body| ==> !IsStop(body[k])
    ensures IsBlock(before + body, Block(|before|, |before| + |body|))
  {
    forall k | |before| < k < |before| + |body|
      ensures !IsStop((before + body)[k])
    {
      assert (before + body)[k] == body[k - |before|];
    }
  }

  lemma NewCovered(ks: seq<Kind>, time: seq<Kind>, body: seq<Kind>, bs: seq<Block>, b: Block)
    requires CoversOpeners(ks, 0, bs) && (time == [] || time == [Time])
    requires b == Block(|ks| + |time|, |ks| + |time| + |body|)
    ensures CoversOpeners(ks + time + body, 0, bs + [b])
  {
    var all, after := ks + time + body, bs + [b];
    assert forall k :: |ks| <= k < |ks| + |time| ==> all[k] == Time;
    forall k | 0 <= k < |all| && IsOpener(all[k])
      ensures Covered(after, k)
    {
      if k < |ks| {
        assert all[k] == ks[k];
        var m :| 0 <= m < |bs| && Inside(bs[m], k);
        assert Inside(after[m], k);
      } else {
        assert Inside(after[|bs|], k);
      }
    }
  }

  lemma KindsAppend(a: seq<string>, b: seq<string>)
    ensures Kinds(a + b) == Kinds(a) + Kinds(b)
  {
    hide KindOf;
  }

  ghost predicate AllWellFormed(items: seq<Item>)
  {
    forall i :: 0 <= i < |items| ==> WellFormed(items[i])
  }

  lemma NothingSegmented(ks: seq<Kind>)
    requires ks == []
    ensures IsSegmentation(ks, 0, [])
  {
  }

  /** The blocks of a printed log are those of its items. */
  lemma {:induction false} PrintedSegmentation(items: seq<Item>)
    requires AllWellFormed(items)
    ensures IsSegmentation(Kinds(LinesOf(items)), 0, BlocksOf(items))
  {
    hide KindOf, AllBlocks, Ordered, CoversOpeners;
    if items == [] {
      NothingSegmented(Kinds(LinesOf(items)));
    } else {
      var init, last := items[..|items| - 1], items[|items| - 1];
      PrintedSegmentation(init);
      var before, time, body := LinesOf(init), TimeLines(last), last.body;
      KindsAppend(before + time, body);
      KindsAppend(before, time);
      assert WellFormed(last);
      SegmentationExtends(Kinds(before), Kinds(time), Kinds(body), BlocksOf(init));
    }
  }

  // ---------- The records of a printed log ----------

  /** A record depends only on the lines up to its end. */
  lemma RecordExtends(clock: Clock, lines: seq<string>, more: seq<string>, b: Block)
    requires b.lo <= b.hi <= |lines|
    ensures RecordOf(clock, lines + more, b) == RecordOf(clock, lines, b)
    ensures HasSql(lines + more, b) == HasSql(lines, b)
  {
    hide KindOf;
    assert (lines + more)[b.lo..b.hi] == lines[b.lo..b.hi] && (lines + more)[..b.lo] == lines[..b.lo];
    TimeExtends(clock, lines, more, b.lo);
    hide TimeBefore, Flatten;
    assert forall k :: 0 <= k < |lines| ==> (lines + more)[k] == lines[k];
  }

  lemma {:induction false} TimeExtends(clock: Clock, lines: seq<string>, more: seq<string>, i: nat)
    requires i <= |lines|
    ensures TimeBefore(clock, lines + more, i) == TimeBefore(clock, lines, i)
  {
    hide KindOf;
    if i > 0 {
      TimeExtends(clock, lines, more, i - 1);
      assert (lines + more)[i - 1] == lines[i - 1];
    }
  }

  lemma {:induction false} RecordsExtend(clock: Clock, lines: seq<string>, more: seq<string>, bs: seq<Block>)
    requires Within(lines, bs) && Within(lines + more, bs)
    ensures Records(clock, lines + more, bs) == Records(clock, lines, bs)
  {
    hide HasSql, RecordOf;
    if bs != [] {
      assert bs[0] in bs;
      RecordExtends(clock, lines, more, bs[0]);
      RecordsExtend(clock, lines, more, bs[1..]);
    }
  }

  lemma {:induction false} RecordsPush(clock: Clock, lines: seq<string>, bs: seq<Block>, b: Block)
    requires Within(lines, bs) && Within(lines, bs + [b])
    requires b.lo <= b.hi <= |lines|
    ensures Records(clock, lines, bs + [b]) ==
            Records(clock, lines, bs) + (if HasSql(lines, b) then [RecordOf(clock, lines, b)] else [])
  {
    hide HasSql, RecordOf;
    if bs == [] {
      assert [b][1..] == [] && [] + [b] == [b];
    } else {
      RecordsPush(clock, lines, bs[1..], b);
      assert (bs + [b])[1..] == bs[1..] + [b];
    }
  }

  /** The time of a record and after it, from the time before its lines. */
  lemma {:induction false} TimeAcross(clock: Clock, before: seq<string>, item: Item)
    requires WellFormed(item)
    ensures var lines, lo := before + TimeLines(item) + item.body, |before| + |TimeLines(item)|;
            && TimeBefore(clock, lines, lo) == TimeBefore(clock, lines, |lines|)
            && TimeBefore(clock, lines, lo) ==
               if item.time.Some? && clock.parseTime(item.time.value).Some? then clock.parseTime(item.time.value).value
               else TimeBefore(clock, before, |before|)
  {
    hide KindOf;
    var upTo, body := before + TimeLines(item), item.body;
    TimeExtends(clock, upTo, body, |upTo|);
    TimeExtends(clock, before, TimeLines(item), |before|);
    BodyTimeless(clock, upTo, body, |body|);
    assert item.time.None? ==> upTo == before;
  }

  /** The time after all the items. */
  lemma {:induction false} TimeAfter(clock: Clock, items: seq<Item>)
    requires AllWellFormed(items)
    ensures items != [] ==> BlockOf(items).lo <= |LinesOf(items)| &&
                            TimeBefore(clock, LinesOf(items), BlockOf(items).lo) == TimeOf(clock, items)
    ensures TimeBefore(clock, LinesOf(items), |LinesOf(items)|) == TimeOf(clock, items)
  {
    hide KindOf, WellFormed, TimeBefore;
    if items == [] {
      NoTimeYet(clock, LinesOf(items));
    } else {
      var init, last := items[..|items| - 1], items[|items| - 1];
      TimeAfter(clock, init);
      TimeAcross(clock, LinesOf(init), last);
      assert LinesOf(items) == LinesOf(init) + TimeLines(last) + last.body;
    }
  }

  lemma {:induction false} BodyTimeless(clock: Clock, before: seq<string>, body: seq<string>, k: nat)
    requires k <= |body| && forall m :: 0 <= m < |body| ==> !KindOf(body[m]).Time?
    ensures TimeBefore(clock, before + body, |before| + k) == TimeBefore(clock, before, |before|)
  {
    hide KindOf;
    if k == 0 {
      TimeExtends(clock, before, body, |before|);
    } else {
      BodyTimeless(clock, before, body, k - 1);
      assert (before + body)[|before| + k - 1] == body[k - 1];
    }
  }

  /** The block behind some lines: its text, its place, and whether it has a query line. */
  lemma {:induction false} BlockBehind(before: seq<string>, body: seq<string>)
    ensures var lines, b := before + body, Block(|before|, |before| + |body|);
            && TextOf(lines, b) == Flatten(body) && OffsetOf(lines, b.lo) == |Flatten(before)|
            && ((exists k :: 0 <= k < |body| && KindOf(body[k]).Sql?) ==> HasSql(lines, b))
  {
    hide KindOf, Flatten;
    var lines := before + body;
    assert lines[..|before|] == before && lines[|before|..|before| + |body|] == body;
    if k :| 0 <= k < |body| && KindOf(body[k]).Sql? {
      assert lines[|before| + k] == body[k];
    }
  }

  lemma {:induction false} LastRecord(clock: Clock, items: seq<Item>)
    requires items != [] && AllWellFormed(items)
    ensures var b := BlockOf(items);
            b.lo <= b.hi <= |LinesOf(items)| && HasSql(LinesOf(items), b)
            && RecordOf(clock, LinesOf(items), b) == RecordFor(clock, items)
  {
    hide KindOf, TimeBefore, TimeOf, Flatten, HasSql, TextOf, OffsetOf;
    var init, last := items[..|items| - 1], items[|items| - 1];
    TimeAfter(clock, items);
    assert WellFormed(last);
    BlockBehind(LinesOf(init) + TimeLines(last), last.body);
  }

  lemma NoRecords(clock: Clock, lines: seq<string>)
    ensures Records(clock, lines, []) == []
  {
  }

  lemma {:induction false} PrintedRecords(clock: Clock, items: seq<Item>)
    requires AllWellFormed(items)
    ensures Within(LinesOf(items), BlocksOf(items))
    ensures Records(clock, LinesOf(items), BlocksOf(items)) == Expected(clock, items)
  {
    hide WellFormed, HasSql, RecordOf, RecordFor, KindOf, Records;
    if items == [] {
      NoRecords(clock, LinesOf(items));
    } else {
      var init, last := items[..|items| - 1], items[|items| - 1];
      PrintedRecords(clock, init);
      var before, more, b := LinesOf(init), TimeLines(last) + last.body, BlockOf(items);
      LastRecord(clock, items);
      assert LinesOf(items) == before + more;
      assert Within(before + more, BlocksOf(init));
      RecordsExtend(clock, before, more, BlocksOf(init));
      assert Within(LinesOf(items), BlocksOf(init) + [b]);
      RecordsPush(clock, LinesOf(items), BlocksOf(init), b);
    }
  }

  /**
    The round trip: reading a printed log returns the records that were printed, in order, at their places, each
    under the latest time before it that can be read.
   */
  lemma {:induction false} ReadingPrintedLog(clock: Clock, items: seq<Item>)
    requires AllWellFormed(items) && AreLines(LinesOf(items))
    ensures LogRecords(clock, Print(items)) == Expected(clock, items)
    ensures |LogBlocks(Lines(Print(items)), 0)| == |items|
  {
    hide Expected, AllWellFormed, AreLines, Flatten, Records, IsSegmentation, LinesOf, Kinds, Blocks;
    var lines := LinesOf(items);
    LinesOfFlatten(lines);
    PrintedSegmentation(items);
    SegmentationUnique(Kinds(lines), 0, BlocksOf(items));
    PrintedRecords(clock, items);
    OneBlockEach(items);
  }

  lemma {:induction false} OneBlockEach(items: seq<Item>)
    ensures |BlocksOf(items)| == |items|
  {
    if items != [] {
      OneBlockEach(items[..|items| - 1]);
    }
  }
}
