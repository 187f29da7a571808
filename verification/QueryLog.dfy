/** Reading a slow query log into its container: segmentation, start-time repair, sorting, marking and popping. */
module QueryLog {
  import opened Seqs
  import opened Text
  import opened Segmentation
  import opened Ordering
  import opened LogData
  import opened Jobs
  import QueryText

  // ---------- Reading lines in order ----------

  /** The next line to be read is lines[i]. */
  ghost predicate At(data: string, pos: Option<nat>, lines: seq<string>, i: nat)
  {
    i <= |lines| && Lines(Rest(data, pos)) == lines[i..] && Offset(data, pos) == OffsetOf(lines, i)
  }

  /** What reading a line at line i gives: line i with its place, or the empty line at the end. */
  ghost predicate LineAt(line: Ref, lines: seq<string>, i: nat)
    requires i <= |lines|
  {
    if i == |lines| then line.text == "" else line == Ref(OffsetOf(lines, i), lines[i]) && line.text != ""
  }

  function After(lines: seq<string>, i: nat): nat { if i < |lines| then i + 1 else i }

  method ReadLineAt(data: string, pos: Option<nat>, ghost lines: seq<string>, ghost i: nat)
    returns (line: Ref, newPos: Option<nat>)
    requires At(data, pos, lines, i)
    ensures LineAt(line, lines, i) && At(data, newPos, lines, After(lines, i))
  {
    line, newPos := ReadLine(data, pos);
    NextLine(Rest(data, pos), lines, i);
    hide Lines, LineLength, Rest, Offset, OffsetOf;
    if i < |lines| {
      OffsetStep(lines, i);
    } else {
      assert Lines(Rest(data, newPos)) == lines[i..] by {
        EndOfLines(Rest(data, pos), lines);
      }
    }
  }

  lemma EndOfLines(s: string, lines: seq<string>)
    requires Lines(s) == lines[|lines|..]
    ensures s == "" && Lines(s[|s[..LineLength(s)]|..]) == lines[|lines|..]
  {
  }

  // ---------- One record ----------

  lemma HasSqlGrows(lines: seq<string>, lo: nat, k: nat)
    requires lo <= k < |lines|
    ensures HasSql(lines, Block(lo, k + 1)) <==> HasSql(lines, Block(lo, k)) || KindOf(lines[k]).Sql?
    ensures !HasSql(lines, Block(lo, lo))
  {
  }

  lemma TextGrows(lines: seq<string>, lo: nat, k: nat)
    requires lo <= k < |lines|
    ensures TextOf(lines, Block(lo, k + 1)) == TextOf(lines, Block(lo, k)) + lines[k]
    ensures TextOf(lines, Block(lo, lo)) == ""
  {
    assert lines[lo..k + 1][..k - lo] == lines[lo..k];
    assert lines[lo..lo] == [];
  }

  /**
    Reads the rest of the record that line i opens: the number of its query lines, its length, and the line that
    ended it.
   */
  method ReadRecord(data: string, line: Ref, pos: Option<nat>, ghost lines: seq<string>, ghost i: nat)
    returns (numSqlLines: nat, queryDataLen: nat, nextLine: Ref, newPos: Option<nat>)
    requires i < |lines| && LineAt(line, lines, i) && At(data, pos, lines, i + 1)
    ensures var hi := BlockEnd(Kinds(lines), i + 1);
            && (numSqlLines > 0 <==> HasSql(lines, Block(i, hi)))
            && queryDataLen == |TextOf(lines, Block(i, hi))|
            && LineAt(nextLine, lines, hi) && At(data, newPos, lines, After(lines, hi))
  {
    hide At, OffsetOf, TextOf, HasSql, KindOf, BlockEnd, StartsWith, IsStop;
    numSqlLines, queryDataLen, nextLine, newPos := 0, 0, line, pos;
    ghost var k := i;
    HasSqlGrows(lines, i, i);
    TextGrows(lines, i, i);
    while true
      invariant i <= k < |lines| && nextLine.text == lines[k]
      invariant At(data, newPos, lines, k + 1)
      invariant forall m :: i < m <= k ==> !IsStop(KindOf(lines[m]))
      invariant numSqlLines > 0 <==> HasSql(lines, Block(i, k))
      invariant queryDataLen == |TextOf(lines, Block(i, k))|
      decreases |lines| - k
    {
      HasSqlGrows(lines, i, k);
      TextGrows(lines, i, k);
      KindTests(nextLine.text);
      if !StartsWith(nextLine.text, "#") {
        numSqlLines := numSqlLines + 1;
      }
      queryDataLen := queryDataLen + |nextLine.text|;
      nextLine, newPos := ReadLineAt(data, newPos, lines, k + 1);
      k := k + 1;
      KindTests(nextLine.text);
      if nextLine.text == "" || StartsWith(nextLine.text, "# User@Host") || StartsWith(nextLine.text, "# Time") {
        break;
      }
    }
    BlockEndFound(Kinds(lines), i + 1, k);
  }

  // ---------- The container ----------

  /** An entry as popped: its record and its shutdown flag. */
  datatype Popped = Popped(entry: LogEntry, shutdown: bool)

  function ConnsOf(entries: seq<LogEntry>): (cs: seq<nat>)
    ensures |cs| == |entries| && forall i :: 0 <= i < |cs| ==> cs[i] == ThreadIdOf(entries[i].item.text)
  {
    seq<nat>(|entries|, i requires 0 <= i < |entries| => ThreadIdOf(entries[i].item.text))
  }

  /** The slice starts of the entries from position k on that end their connections. */
  function LastStarts(entries: seq<LogEntry>, k: nat): set<nat>
    requires k <= |entries|
  {
    set i | k <= i < |entries| && IsLast(ConnsOf(entries), i) :: entries[i].item.at
  }

  class QueryLogEntries {
    var entries: seq<LogEntry>
    var lastQueryOfConn: set<nat>
    var numEntries: nat
    var numQueries: nat

    constructor ()
      ensures entries == [] && lastQueryOfConn == {} && numEntries == 0 && numQueries == 0
    {
      entries, lastQueryOfConn, numEntries, numQueries := [], {}, 0, 0;
    }

    /** The next entry, shut down if its slice start was recorded; nothing when none is left. */
    method PopEntry() returns (entry: Option<Popped>)
      modifies this`entries
      ensures old(entries) == [] ==> entry == None && entries == []
      ensures old(entries) != [] ==>
                && entry == Some(Popped(old(entries)[0], old(entries)[0].item.at in lastQueryOfConn))
                && entries == old(entries)[1..]
    {
      entry := None;
      if entries != [] {
        var data := entries[0];
        entries := entries[1..];
        entry := Some(Popped(data, data.item.at in lastQueryOfConn));
      }
    }

    /** Records the slice start of the last entry of every connection, scanning from the back. */
    method SetShutdownOnLastQueryOfConn()
      modifies this`lastQueryOfConn
      ensures lastQueryOfConn == old(lastQueryOfConn) + LastStarts(entries, 0)
    {
      hide ThreadIdOf, LastStarts, Members;
      var threadIds: set<nat> := {};
      var k := |entries|;
      ghost var conns := ConnsOf(entries);
      NoneYet(entries);
      while k > 0
        invariant 0 <= k <= |entries|
        invariant threadIds == Members(conns[k..])
        invariant lastQueryOfConn == old(lastQueryOfConn) + LastStarts(entries, k)
      {
        k := k - 1;
        var id := ThreadIdOf(entries[k].item.text);
        LastStartsStep(entries, k);
        if id !in threadIds {
          threadIds := threadIds + {id};
          lastQueryOfConn := lastQueryOfConn + {entries[k].item.at};
        }
      }
    }

    /** Raises every start to the latest one its connection has reached. */
    method ClampStartTimes()
      modifies this`entries
      ensures entries == Clamped(Owner(), old(entries))
    {
      hide ThreadIdOf, Clamped, Latest, Owner;
      ghost var before := entries;
      var lastTimestampOfConn: map<nat, int> := map[];
      var i := 0;
      NothingClamped(before);
      while i < |entries|
        invariant 0 <= i <= |entries| == |before|
        invariant entries[..i] == Clamped(Owner(), before[..i]) && entries[i..] == before[i..]
        invariant forall c :: (if c in lastTimestampOfConn then lastTimestampOfConn[c] else EPOCH)
                              == Latest(Owner(), before[..i], c)
      {
        ClampStep(before, i);
        var e := entries[i];
        assert e == before[i];
        var id := ThreadIdOf(e.item.text);
        var tp := if id in lastTimestampOfConn then lastTimestampOfConn[id] else EPOCH;
        if e.start < tp {
          entries := entries[i := e.(start := tp)];
          lastTimestampOfConn := lastTimestampOfConn[id := tp];
        } else {
          lastTimestampOfConn := lastTimestampOfConn[id := e.start];
        }
        assert entries[..i + 1] == entries[..i] + [entries[i]];
        assert entries[i + 1..] == before[i..][1..];
        i := i + 1;
      }
      assert before[..i] == before && entries[..i] == entries;
    }
  }

  lemma NothingClamped(entries: seq<LogEntry>)
    ensures Clamped(Owner(), entries[..0]) == [] && forall c :: Latest(Owner(), entries[..0], c) == EPOCH
  {
  }

  /** How the clamped entries and the latest starts grow by entry i. */
  lemma ClampStep(entries: seq<LogEntry>, i: nat)
    requires i < |entries|
    ensures var c, e := ThreadIdOf(entries[i].item.text), entries[i];
            var tp := Latest(Owner(), entries[..i], c);
            && Clamped(Owner(), entries[..i + 1]) ==
               Clamped(Owner(), entries[..i]) + [e.(start := if e.start < tp then tp else e.start)]
            && (forall d :: Latest(Owner(), entries[..i + 1], d) ==
                  if d == c then (if e.start < tp then tp else e.start) else Latest(Owner(), entries[..i], d))
  {
    hide ThreadIdOf;
    assert entries[..i + 1][..i] == entries[..i];
  }

  lemma NoneYet(entries: seq<LogEntry>)
    ensures LastStarts(entries, |entries|) == {} && Members(ConnsOf(entries)[|entries|..]) == {}
  {
  }

  lemma LastStartsStep(entries: seq<LogEntry>, k: nat)
    requires k < |entries|
    ensures var conns := ConnsOf(entries);
            && conns[k] == ThreadIdOf(entries[k].item.text)
            && Members(conns[k..]) == Members(conns[k + 1..]) + {conns[k]}
            && LastStarts(entries, k) ==
               LastStarts(entries, k + 1) + (if conns[k] !in Members(conns[k + 1..]) then {entries[k].item.at} else {})
  {
    hide ThreadIdOf;
    var conns := ConnsOf(entries);
    assert conns[k..] == [conns[k]] + conns[k + 1..];
  }

  // ---------- getEntries ----------

  /** The entries a log is replayed as: in file order, or repaired and sorted. */
  function ReplayOrder(clock: Clock, data: string, disableSorting: bool, accurateMode: bool): seq<LogEntry>
  {
    if !disableSorting || (accurateMode && StaysAccurate(clock, data))
    then Preprocessed(Owner(), LogRecords(clock, data))
    else LogRecords(clock, data)
  }

  /** The starts are repaired as little as possible: from the epoch on and never falling along a connection. */
  ghost predicate LeastRepair(records: seq<LogEntry>, repaired: seq<LogEntry>)
  {
    && Items(repaired) == Items(records)
    && Repairs(Owner(), records, Starts(repaired))
    && forall starts: seq<int> :: Repairs(Owner(), records, starts) ==> AtMost(Starts(repaired), starts)
  }

  ghost predicate AtMost(a: seq<int>, b: seq<int>) { |a| == |b| && forall i :: 0 <= i < |a| ==> a[i] <= b[i] }

  /** The entries sorted by start, those with equal starts in the order they had. */
  ghost predicate StablySorted(entries: seq<LogEntry>, sorted: seq<LogEntry>)
  {
    && Sorted(sorted) && multiset(sorted) == multiset(entries)
    && forall t :: Filter(StartingAt(t), sorted) == Filter(StartingAt(t), entries)
  }

  /** Each connection's records in file order. */
  ghost predicate KeepsConnections(records: seq<LogEntry>, entries: seq<LogEntry>)
  {
    forall c :: Items(Filter(OwnedBy(Owner(), c), entries)) == Items(Filter(OwnedBy(Owner(), c), records))
  }

  ghost predicate RepairedAndSorted(records: seq<LogEntry>, entries: seq<LogEntry>)
  {
    && KeepsConnections(records, entries)
    && exists repaired :: LeastRepair(records, repaired) && StablySorted(repaired, entries)
  }

  lemma ClampIsLeastRepair(records: seq<LogEntry>)
    ensures LeastRepair(records, Clamped(Owner(), records))
  {
    hide Owner, Clamped;
    ClampRepairs(Owner(), records);
    forall starts: seq<int> | Repairs(Owner(), records, starts)
      ensures AtMost(Starts(Clamped(Owner(), records)), starts)
    {
      ClampIsLeast(Owner(), records, starts);
    }
  }

  lemma SortIsStablySorted(entries: seq<LogEntry>)
    ensures StablySorted(entries, StableSorted(entries))
  {
    hide StableSorted;
    SortSorts(entries);
    forall t
      ensures Filter(StartingAt(t), StableSorted(entries)) == Filter(StartingAt(t), entries)
    {
      SortIsStable(entries, t);
    }
  }

  lemma PreprocessedIsRepairedAndSorted(records: seq<LogEntry>)
    ensures RepairedAndSorted(records, Preprocessed(Owner(), records))
  {
    hide Owner, Clamped, StableSorted, LeastRepair, StablySorted;
    ClampIsLeastRepair(records);
    SortIsStablySorted(Clamped(Owner(), records));
    forall c
      ensures Items(Filter(OwnedBy(Owner(), c), Preprocessed(Owner(), records))) ==
              Items(Filter(OwnedBy(Owner(), c), records))
    {
      PreprocessingKeepsMeaning(Owner(), records, c);
    }
  }

  /**
    The order of the replay: unless sorting is disabled, or in accurate mode with a time for every record, the records
    are repaired and sorted; otherwise they are left as they are.
   */
  ghost predicate InReplayOrder(clock: Clock, data: string, disableSorting: bool, accurateMode: bool,
                                entries: seq<LogEntry>)
  {
    if !disableSorting || (accurateMode && EveryRecordTimed(clock, data))
    then RepairedAndSorted(LogRecords(clock, data), entries)
    else entries == LogRecords(clock, data)
  }

  lemma ReplayOrderMeans(clock: Clock, data: string, disableSorting: bool, accurateMode: bool)
    ensures InReplayOrder(clock, data, disableSorting, accurateMode,
                          ReplayOrder(clock, data, disableSorting, accurateMode))
  {
    hide LogRecords, StaysAccurate, EveryRecordTimed, Preprocessed, RepairedAndSorted;
    StaysAccurateIff(clock, data);
    PreprocessedIsRepairedAndSorted(LogRecords(clock, data));
  }

  /** The loop over the lines: what is left of the blocks after line i. */
  ghost predicate Collected(clock: Clock, lines: seq<string>, i: nat, entries: seq<LogEntry>, numEntries: nat)
    requires i <= |lines|
  {
    && entries + Records(clock, lines, LogBlocks(lines, i)) == Records(clock, lines, LogBlocks(lines, 0))
    && numEntries + |LogBlocks(lines, i)| == |LogBlocks(lines, 0)|
  }

  lemma SkipLine(clock: Clock, lines: seq<string>, i: nat)
    requires i < |lines| && !IsOpener(KindOf(lines[i]))
    ensures LogBlocks(lines, i) == LogBlocks(lines, i + 1)
  {
    hide KindOf;
  }

  lemma {:induction false} TakeBlock(clock: Clock, lines: seq<string>, i: nat, hi: nat)
    requires i < |lines| && IsOpener(KindOf(lines[i])) && hi == BlockEnd(Kinds(lines), i + 1)
    ensures LogBlocks(lines, i) == [Block(i, hi)] + LogBlocks(lines, hi)
    ensures Records(clock, lines, LogBlocks(lines, i)) ==
            (if HasSql(lines, Block(i, hi)) then [RecordOf(clock, lines, Block(i, hi))] else [])
            + Records(clock, lines, LogBlocks(lines, hi))
    ensures AllTimed(clock, lines, LogBlocks(lines, i)) ==
            ((HasSql(lines, Block(i, hi)) ==> TimeBefore(clock, lines, i) != EPOCH)
             && AllTimed(clock, lines, LogBlocks(lines, hi)))
  {
    hide KindOf, HasSql, RecordOf, TimeBefore;
    assert LogBlocks(lines, i)[1..] == LogBlocks(lines, hi);
  }

  lemma {:induction false} TimeInsideBlock(clock: Clock, lines: seq<string>, i: nat, k: nat)
    requires i <= k <= |lines| && forall m :: i <= m < k ==> !KindOf(lines[m]).Time?
    ensures TimeBefore(clock, lines, k) == TimeBefore(clock, lines, i)
  {
    hide KindOf;
    if i < k {
      TimeInsideBlock(clock, lines, i, k - 1);
    }
  }

  /** What the loop keeps before line i. */
  ghost predicate Progress(clock: Clock, lines: seq<string>, i: nat, timestamp: int, accurate: bool, accurateMode: bool)
    requires i <= |lines|
  {
    && timestamp == TimeBefore(clock, lines, i)
    && ((accurate && AllTimed(clock, lines, LogBlocks(lines, i))) <==>
        (accurateMode && AllTimed(clock, lines, LogBlocks(lines, 0))))
  }

  lemma LineSkipped(clock: Clock, lines: seq<string>, i: nat, entries: seq<LogEntry>, numEntries: nat, timestamp: int,
                    accurate: bool, accurateMode: bool)
    requires i < |lines| && !IsOpener(KindOf(lines[i]))
    requires Collected(clock, lines, i, entries, numEntries)
    requires Progress(clock, lines, i, timestamp, accurate, accurateMode)
    ensures Collected(clock, lines, i + 1, entries, numEntries)
    ensures var parsed := clock.parseTime(lines[i]);
            var t := if KindOf(lines[i]).Time? && parsed.Some? then parsed.value else timestamp;
            Progress(clock, lines, i + 1, t, accurate, accurateMode)
  {
    hide KindOf, LogBlocks, Records, AllTimed;
    SkipLine(clock, lines, i);
  }

  lemma {:induction false} RecordCollected(clock: Clock, lines: seq<string>, i: nat, hi: nat, entries: seq<LogEntry>,
                                           numEntries: nat)
    requires i < |lines| && IsOpener(KindOf(lines[i])) && hi == BlockEnd(Kinds(lines), i + 1)
    requires Collected(clock, lines, i, entries, numEntries)
    ensures var b := Block(i, hi);
            Collected(clock, lines, hi, entries + (if HasSql(lines, b) then [RecordOf(clock, lines, b)] else []),
                      numEntries + 1)
  {
    hide KindOf, LogBlocks, Records, AllTimed, HasSql, RecordOf, BlockEnd, Kinds;
    TakeBlock(clock, lines, i, hi);
    var b := Block(i, hi);
    var taken := if HasSql(lines, b) then [RecordOf(clock, lines, b)] else [];
    assert entries + (taken + Records(clock, lines, LogBlocks(lines, hi)))
        == entries + taken + Records(clock, lines, LogBlocks(lines, hi));
  }

  lemma {:induction false} NoTimeInBlock(lines: seq<string>, i: nat)
    requires i < |lines| && IsOpener(KindOf(lines[i]))
    ensures forall m :: i <= m < BlockEnd(Kinds(lines), i + 1) ==> !KindOf(lines[m]).Time?
  {
    hide KindOf;
    var hi := BlockEnd(Kinds(lines), i + 1);
    assert forall m :: i <= m < hi ==> !Kinds(lines)[m].Time?;
  }

  lemma {:induction false} RecordTimed(clock: Clock, lines: seq<string>, i: nat, hi: nat, timestamp: int,
                                       accurate: bool, accurateMode: bool)
    requires i < |lines| && IsOpener(KindOf(lines[i])) && hi == BlockEnd(Kinds(lines), i + 1)
    requires Progress(clock, lines, i, timestamp, accurate, accurateMode)
    ensures var untimed := HasSql(lines, Block(i, hi)) && timestamp == EPOCH;
            Progress(clock, lines, hi, timestamp, accurate && !untimed, accurateMode)
    ensures timestamp == TimeBefore(clock, lines, i)
  {
    NoTimeInBlock(lines, i);
    hide KindOf, LogBlocks, Records, AllTimed, HasSql, RecordOf, BlockEnd, Kinds, TimeBefore;
    TakeBlock(clock, lines, i, hi);
    TimeInsideBlock(clock, lines, i, hi);
  }

  lemma {:induction false} NothingRead(clock: Clock, data: string, lines: seq<string>, accurateMode: bool)
    requires lines == Lines(data)
    ensures At(data, Some(0), lines, 0) && Collected(clock, lines, 0, [], 0)
    ensures Progress(clock, lines, 0, EPOCH, accurateMode, accurateMode)
  {
    assert Rest(data, Some(0)) == data && lines[..0] == [];
    hide KindOf, Records, AllTimed, LogBlocks, Lines;
    assert [] + Records(clock, lines, LogBlocks(lines, 0)) == Records(clock, lines, LogBlocks(lines, 0));
  }

  lemma {:induction false} AllRead(clock: Clock, data: string, lines: seq<string>, entries: seq<LogEntry>,
                                   numEntries: nat, timestamp: int, accurate: bool, accurateMode: bool)
    requires lines == Lines(data)
    requires Collected(clock, lines, |lines|, entries, numEntries)
    requires Progress(clock, lines, |lines|, timestamp, accurate, accurateMode)
    ensures entries == LogRecords(clock, data) && numEntries == |LogBlocks(lines, 0)|
    ensures accurate == (accurateMode && StaysAccurate(clock, data))
  {
    assert LogBlocks(lines, |lines|) == [];
    assert entries + [] == entries;
  }

  /** A record's text is the slice of the log its lines take up. */
  lemma {:induction false} SliceRead(clock: Clock, data: string, lines: seq<string>, i: nat, hi: nat)
    requires lines == Lines(data) && i <= hi <= |lines|
    ensures OffsetOf(lines, i) + |TextOf(lines, Block(i, hi))| <= |data|
    ensures data[OffsetOf(lines, i)..OffsetOf(lines, i) + |TextOf(lines, Block(i, hi))|] == TextOf(lines, Block(i, hi))
    ensures RecordOf(clock, lines, Block(i, hi)) ==
            Timed(Ref(OffsetOf(lines, i), TextOf(lines, Block(i, hi))),
                  TimeBefore(clock, lines, i) - clock.queryMicros(TextOf(lines, Block(i, hi))))
  {
    hide TimeBefore, Lines, OffsetOf, TextOf, AreLines, Flatten;
    LinesRebuild(data);
    BlockIsSlice(lines, Block(i, hi));
  }

  /** Where reading goes on: with the pushed-back line i if there is one, at line i otherwise. */
  ghost predicate Reading(data: string, pos: Option<nat>, nextLine: Ref, lines: seq<string>, i: nat)
    requires i <= |lines|
  {
    if nextLine.text == "" then At(data, pos, lines, i)
    else i < |lines| && LineAt(nextLine, lines, i) && At(data, pos, lines, i + 1)
  }

  lemma ReadingAfter(data: string, pos: Option<nat>, nextLine: Ref, lines: seq<string>, i: nat)
    requires i <= |lines| && LineAt(nextLine, lines, i) && At(data, pos, lines, After(lines, i))
    ensures Reading(data, pos, nextLine, lines, i)
  {
    hide At;
  }

  /** Reads the record that line i opens, counts it, and adds it to the entries if it has a query line. */
  method AddRecord(entries: QueryLogEntries, data: string, clock: Clock, line: Ref, pos: Option<nat>,
                   currentTimestamp: int, accurate: bool, ghost accurateMode: bool,
                   ghost lines: seq<string>, ghost i: nat)
    returns (nextLine: Ref, newPos: Option<nat>, stillAccurate: bool)
    requires lines == Lines(data) && i < |lines| && IsOpener(KindOf(lines[i]))
    requires LineAt(line, lines, i) && At(data, pos, lines, i + 1)
    requires Collected(clock, lines, i, entries.entries, entries.numEntries)
    requires Progress(clock, lines, i, currentTimestamp, accurate, accurateMode)
    modifies entries`entries, entries`numEntries, entries`numQueries
    ensures var hi := BlockEnd(Kinds(lines), i + 1);
            && Reading(data, newPos, nextLine, lines, hi)
            && Collected(clock, lines, hi, entries.entries, entries.numEntries)
            && Progress(clock, lines, hi, currentTimestamp, stillAccurate, accurateMode)
    ensures entries.numQueries - |entries.entries| == old(entries.numQueries - |entries.entries|)
  {
    hide KindOf, HasSql, At, OffsetOf, TextOf, TimeBefore, Collected, Progress, Lines, BlockEnd, Kinds, IsOpener,
      RecordOf, Reading;
    ghost var hi := BlockEnd(Kinds(lines), i + 1);
    var numSqlLines, queryDataLen;
    numSqlLines, queryDataLen, nextLine, newPos := ReadRecord(data, line, pos, lines, i);
    ReadingAfter(data, newPos, nextLine, lines, hi);
    RecordCollected(clock, lines, i, hi, entries.entries, entries.numEntries);
    RecordTimed(clock, lines, i, hi, currentTimestamp, accurate, accurateMode);
    SliceRead(clock, data, lines, i, hi);
    assert entries.entries + [] == entries.entries;
    entries.numEntries := entries.numEntries + 1;
    stillAccurate := accurate;
    if numSqlLines > 0 {
      if accurate && currentTimestamp == EPOCH {
        stillAccurate := false;
      }
      var queryData := Ref(line.at, data[line.at..line.at + queryDataLen]);
      entries.entries := entries.entries + [Timed(queryData, currentTimestamp - clock.queryMicros(queryData.text))];
      entries.numQueries := entries.numQueries + 1;
    }
  }

  /**
    Reads a log: the entries are the records of its blocks, in file order or repaired and sorted; numEntries counts
    the blocks and numQueries the entries. Accurate mode is given up when a record has no time.
   */
  method GetEntries(data: string, clock: Clock, disableSorting: bool, accurateMode: bool)
    returns (entries: QueryLogEntries, accurate: bool)
    ensures fresh(entries) && entries.lastQueryOfConn == {}
    ensures entries.entries == ReplayOrder(clock, data, disableSorting, accurateMode)
    ensures InReplayOrder(clock, data, disableSorting, accurateMode, entries.entries)
    ensures entries.numEntries == |LogBlocks(Lines(data), 0)|
    ensures entries.numQueries == |entries.entries|
    ensures accurate == (accurateMode && EveryRecordTimed(clock, data))
  {
    hide EveryRecordTimed, InReplayOrder, KindOf, HasSql, At, OffsetOf, TextOf, TimeBefore, Collected, Progress, Lines,
      BlockEnd, LogRecords, StaysAccurate, LogBlocks, Kinds, StartsWith, EndsWith, Clamped, StableSorted, LineLength,
      IsOpener, IsStop, Rest, Offset, RecordOf;
    entries := new QueryLogEntries();
    accurate := accurateMode;
    ghost var lines, i := Lines(data), 0;
    var currentTimestamp := EPOCH;
    var pos: Option<nat> := Some(0);
    var nextLine := Ref(0, "");
    NothingRead(clock, data, lines, accurateMode);
    while true
      invariant i <= |lines|
      invariant Reading(data, pos, nextLine, lines, i)
      invariant Collected(clock, lines, i, entries.entries, entries.numEntries)
      invariant Progress(clock, lines, i, currentTimestamp, accurate, accurateMode)
      invariant fresh(entries)
      invariant entries.lastQueryOfConn == {}
      invariant entries.numQueries == |entries.entries|
      decreases |lines| - i
    {
      var line;
      if nextLine.text == "" {
        line, pos := ReadLineAt(data, pos, lines, i);
        if line.text == "" {
          break;
        }
      } else {
        line, nextLine := nextLine, Ref(0, "");
      }
      if !IsOpener(KindOf(line.text)) {
        LineSkipped(clock, lines, i, entries.entries, entries.numEntries, currentTimestamp, accurate, accurateMode);
      }
      KindTests(line.text);
      if !StartsWith(line.text, "#") {
        i := i + 1;
        if EndsWith(line.text, "started with:\n") {
          continue;
        }
        if StartsWith(line.text, "Tcp port: ") {
          continue;
        }
        if StartsWith(line.text, "Time ") {
          continue;
        }
      } else if StartsWith(line.text, "# Time") {
        i := i + 1;
        var parsed := clock.parseTime(line.text);
        if parsed.Some? {
          currentTimestamp := parsed.value;
        }
        continue;
      } else {
        nextLine, pos, accurate :=
          AddRecord(entries, data, clock, line, pos, currentTimestamp, accurate, accurateMode, lines, i);
        i := BlockEnd(Kinds(lines), i + 1);
      }
    }
    AllRead(clock, data, lines, entries.entries, entries.numEntries, currentTimestamp, accurate, accurateMode);
    StaysAccurateIff(clock, data);
    ReplayOrderMeans(clock, data, disableSorting, accurateMode);
    if !disableSorting || accurate {
      entries.ClampStartTimes();
      entries.entries := StableSorted(entries.entries);
    }
  }
}
