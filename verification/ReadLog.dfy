/** From the text of a log to the stream the dispatcher pops: what is in it, and in which order. */
module ReadLog {
  import opened Seqs
  import opened Text
  import opened Ordering
  import opened LogData
  import opened QueryLog
  import opened Marking
  import opened Jobs
  import QueryText
  import ThreadPool

  /** How a log is read and replayed. */
  datatype Options = Options(runSetTimestamp: bool, disableSorting: bool, accurateMode: bool)

  function Dispatched(clock: Clock, opts: Options, data: string): (stream: seq<Job>)
    ensures forall j :: j in stream ==> j.Query?
  {
    PlainStream(clock, opts.runSetTimestamp, ReplayOrder(clock, data, opts.disableSorting, opts.accurateMode))
  }

  /** The stream hands out the entries one by one, with whatever shutdown marks. */
  ghost predicate HandsOut(clock: Clock, runSetTimestamp: bool, entries: seq<LogEntry>, stream: seq<Job>)
  {
    && |stream| == |entries|
    && forall i :: 0 <= i < |stream| ==>
         stream[i].Query? && stream[i] == JobOf(clock, runSetTimestamp, entries[i], stream[i].shutdown)
  }

  /** The stream hands out the records of the log in replay order. */
  ghost predicate HandsOutLog(clock: Clock, opts: Options, data: string, stream: seq<Job>)
  {
    HandsOut(clock, opts.runSetTimestamp, ReplayOrder(clock, data, opts.disableSorting, opts.accurateMode), stream)
  }

  lemma BothHandOut(clock: Clock, opts: Options, data: string)
    ensures HandsOutLog(clock, opts, data, Dispatched(clock, opts, data))
    ensures HandsOutLog(clock, opts, data, WithMarks(Dispatched(clock, opts, data)))
  {
    hide JobOf, IsLast, Conns, ReplayOrder;
    var entries := ReplayOrder(clock, data, opts.disableSorting, opts.accurateMode);
    var marked := WithMarks(Dispatched(clock, opts, data));
    forall i | 0 <= i < |entries|
      ensures marked[i].Query? && marked[i] == JobOf(clock, opts.runSetTimestamp, entries[i], marked[i].shutdown)
    {
      JobShutdown(clock, opts.runSetTimestamp, entries[i], marked[i].shutdown);
    }
  }

  /** What a job says of its record. */
  ghost predicate Describes(clock: Clock, runSetTimestamp: bool, record: string, j: Job)
  {
    && j.Query? && j.conn == ThreadIdOf(record) && (j.quit <==> HasQuitLine(record))
    && j.rows == RowsSentOf(record) && j.micros == clock.queryMicros(record)
    && QueryText.IsTextOf(Lines(record), !runSetTimestamp, j.text)
  }

  lemma JobDescribes(clock: Clock, runSetTimestamp: bool, entry: LogEntry, shutdown: bool)
    ensures Describes(clock, runSetTimestamp, entry.item.text, JobOf(clock, runSetTimestamp, entry, shutdown))
  {
    hide ThreadIdOf, IsQuit, HasQuitLine, RowsSentOf, QueryText.QueryOf, QueryText.IsTextOf, Lines;
    QuitIsLine(entry.item.text);
    QueryText.QueryIsText(entry.item.text, !runSetTimestamp);
  }

  /** The jobs describe the records of the log, one by one in the order of the replay. */
  ghost predicate DescribesLog(clock: Clock, opts: Options, data: string, stream: seq<Job>)
  {
    exists entries: seq<LogEntry> ::
      && InReplayOrder(clock, data, opts.disableSorting, opts.accurateMode, entries)
      && DescribesAll(clock, opts.runSetTimestamp, entries, stream)
  }

  ghost predicate DescribesAll(clock: Clock, runSetTimestamp: bool, entries: seq<LogEntry>, stream: seq<Job>)
  {
    && |stream| == |entries|
    && forall i :: 0 <= i < |stream| ==> Describes(clock, runSetTimestamp, entries[i].item.text, stream[i])
  }

  lemma HandedOutDescribes(clock: Clock, opts: Options, data: string, stream: seq<Job>)
    requires HandsOutLog(clock, opts, data, stream)
    ensures DescribesLog(clock, opts, data, stream)
  {
    hide JobOf, Describes, InReplayOrder, ReplayOrder;
    var entries := ReplayOrder(clock, data, opts.disableSorting, opts.accurateMode);
    ReplayOrderMeans(clock, data, opts.disableSorting, opts.accurateMode);
    forall i | 0 <= i < |stream|
      ensures Describes(clock, opts.runSetTimestamp, entries[i].item.text, stream[i])
    {
      JobDescribes(clock, opts.runSetTimestamp, entries[i], stream[i].shutdown);
    }
    assert DescribesAll(clock, opts.runSetTimestamp, entries, stream);
  }

  /** Reading a log for one thread per connection: the entries are marked and popped. */
  method ReadPerConnection(clock: Clock, opts: Options, data: string) returns (stream: seq<Job>, numQueries: int)
    ensures stream == WithMarks(Dispatched(clock, opts, data)) && Marked(stream)
    ensures DescribesLog(clock, opts, data, stream)
    ensures numQueries == |stream| == |LogRecords(clock, data)|
  {
    hide ReplayOrder, PlainStream, Marked, WithMarks, DistinctStarts, MarksApart, LogRecords, InReplayOrder,
      HandsOutLog, DescribesLog;
    var entries, _ := GetEntries(data, clock, opts.disableSorting, opts.accurateMode);
    ReplayStartsDistinct(clock, data, opts.disableSorting, opts.accurateMode);
    DistinctMarksApart(entries.entries);
    numQueries := entries.numQueries;
    stream := PopMarked(entries, clock, opts.runSetTimestamp);
    SameNumber(clock, opts, data);
    BothHandOut(clock, opts, data);
    HandedOutDescribes(clock, opts, data, stream);
  }

  lemma SameNumber(clock: Clock, opts: Options, data: string)
    ensures |ReplayOrder(clock, data, opts.disableSorting, opts.accurateMode)| == |LogRecords(clock, data)|
  {
    hide LogRecords, StaysAccurate, Owner;
  }

  /** n_queries is at most n_log_entries. */
  lemma {:induction false} QueriesAtMostEntries(clock: Clock, data: string)
    ensures |LogRecords(clock, data)| <= |LogBlocks(Lines(data), 0)|
  {
    hide LogBlocks, Records, Lines;
    RecordsAtMostBlocks(clock, Lines(data), LogBlocks(Lines(data), 0));
  }

  /** Reading a log for the thread pool: the entries are popped without marks. */
  method ReadForPool(clock: Clock, opts: Options, data: string) returns (stream: seq<Job>, numQueries: int)
    ensures stream == Dispatched(clock, opts, data) && ThreadPool.Unmarked(stream)
    ensures DescribesLog(clock, opts, data, stream)
    ensures numQueries == |stream| == |LogRecords(clock, data)|
  {
    hide ReplayOrder, JobOf, LogRecords, InReplayOrder, HandsOutLog, DescribesLog;
    var entries, _ := GetEntries(data, clock, opts.disableSorting, opts.accurateMode);
    numQueries := entries.numQueries;
    stream := PopAll(entries, clock, opts.runSetTimestamp);
    assert stream == Dispatched(clock, opts, data);
    SameNumber(clock, opts, data);
    BothHandOut(clock, opts, data);
    HandedOutDescribes(clock, opts, data, stream);
  }

  // ---------- The order of a connection's entries ----------

  /** The records of connection c in file order, as jobs. */
  function FileOrder(clock: Clock, opts: Options, data: string, c: nat): (r: seq<Job>)
    ensures forall j :: j in r ==> j.Query?
  {
    PlainStream(clock, opts.runSetTimestamp, Filter(OwnedBy(Owner(), c), LogRecords(clock, data)))
  }

  lemma PlainPush(clock: Clock, runSetTimestamp: bool, es: seq<LogEntry>, e: LogEntry)
    ensures PlainStream(clock, runSetTimestamp, es + [e]) ==
            PlainStream(clock, runSetTimestamp, es) + [JobOf(clock, runSetTimestamp, e, false)]
  {
    hide JobOf;
  }

  lemma ConnOfJob(clock: Clock, runSetTimestamp: bool, e: LogEntry, c: nat)
    ensures ByConn(c)(JobOf(clock, runSetTimestamp, e, false)) == OwnedBy(Owner(), c)(e)
  {
    hide ThreadIdOf, IsQuit, RowsSentOf, QueryText.QueryOf;
  }

  lemma NothingPlain(clock: Clock, runSetTimestamp: bool, c: nat)
    ensures PlainStream(clock, runSetTimestamp, []) == []
    ensures Filter(ByConn(c), []) == [] && Filter(OwnedBy(Owner(), c), []) == []
  {
  }

  /** Selecting a connection's jobs is making jobs of its records. */
  lemma {:induction false} PlainOfConnection(clock: Clock, runSetTimestamp: bool, es: seq<LogEntry>, c: nat)
    ensures Filter(ByConn(c), PlainStream(clock, runSetTimestamp, es)) ==
            PlainStream(clock, runSetTimestamp, Filter(OwnedBy(Owner(), c), es))
  {
    hide JobOf, Owner, OwnedBy, ByConn, PlainStream, Filter;
    if es == [] {
      NothingPlain(clock, runSetTimestamp, c);
    } else {
      var init, e := es[..|es| - 1], es[|es| - 1];
      var kept := Filter(OwnedBy(Owner(), c), init);
      PlainOfConnection(clock, runSetTimestamp, init, c);
      PlainPush(clock, runSetTimestamp, init, e);
      PlainPush(clock, runSetTimestamp, kept, e);
      FilterPush(ByConn(c), PlainStream(clock, runSetTimestamp, init), JobOf(clock, runSetTimestamp, e, false));
      FilterPush(OwnedBy(Owner(), c), init, e);
      ConnOfJob(clock, runSetTimestamp, e, c);
      assert es == init + [e] && kept + [] == kept;
      assert PlainStream(clock, runSetTimestamp, kept) + [] == PlainStream(clock, runSetTimestamp, kept);
    }
  }

  /** A job says nothing of the start its record was given. */
  lemma PlainOfItems(clock: Clock, runSetTimestamp: bool, a: seq<LogEntry>, b: seq<LogEntry>)
    requires Items(a) == Items(b)
    ensures PlainStream(clock, runSetTimestamp, a) == PlainStream(clock, runSetTimestamp, b)
  {
    hide ThreadIdOf, IsQuit, RowsSentOf, QueryText.QueryOf;
    assert |a| == |Items(a)| == |b|;
    forall i | 0 <= i < |a|
      ensures a[i].item == b[i].item
    {
      assert Items(a)[i] == Items(b)[i];
    }
  }

  /** Whatever was repaired and sorted, each connection's entries are dispatched in file order. */
  lemma DispatchedInFileOrder(clock: Clock, opts: Options, data: string, c: nat)
    ensures Filter(ByConn(c), Dispatched(clock, opts, data)) == FileOrder(clock, opts, data, c)
  {
    hide LogRecords, StaysAccurate, Owner, OwnedBy, Preprocessed, PlainStream;
    var es := LogRecords(clock, data);
    var entries := ReplayOrder(clock, data, opts.disableSorting, opts.accurateMode);
    PlainOfConnection(clock, opts.runSetTimestamp, entries, c);
    PreprocessingKeepsMeaning(Owner(), es, c);
    PlainOfItems(clock, opts.runSetTimestamp, Filter(OwnedBy(Owner(), c), entries), Filter(OwnedBy(Owner(), c), es));
  }

  // ---------- The shutdown mark at the end of a connection ----------

  /** The entries with shutdown on the last of them only. */
  function LastMarked(jobs: seq<Job>): (r: seq<Job>)
    requires forall j :: j in jobs ==> j.Query?
    ensures |r| == |jobs| && forall i :: 0 <= i < |r| ==> r[i] == jobs[i].(shutdown := i == |jobs| - 1)
  {
    seq(|jobs|, i requires 0 <= i < |jobs| => jobs[i].(shutdown := i == |jobs| - 1))
  }

  /** The same entry but for its mark. */
  predicate Alike(a: Job, b: Job) { a.Query? && b.Query? && a == b.(shutdown := a.shutdown) }

  lemma {:induction false} FilterAlike(c: nat, a: seq<Job>, b: seq<Job>)
    requires |a| == |b| && forall i :: 0 <= i < |a| ==> Alike(a[i], b[i])
    ensures var p, q := Filter(ByConn(c), a), Filter(ByConn(c), b);
            |p| == |q| && forall i :: 0 <= i < |p| ==> Alike(p[i], q[i])
  {
    if a != [] {
      FilterAlike(c, a[..|a| - 1], b[..|b| - 1]);
    }
  }

  /** Marking the stream marks the last entry of each connection's share. */
  lemma {:induction false} MarkedShare(stream: seq<Job>, c: nat)
    requires forall j :: j in stream ==> j.Query?
    ensures forall j :: j in Filter(ByConn(c), stream) ==> j.Query?
    ensures Filter(ByConn(c), WithMarks(stream)) == LastMarked(Filter(ByConn(c), stream))
  {
    hide IsLast, NoMore, Marked, Filter, Conns;
    var marked := WithMarks(stream);
    FilterAlike(c, marked, stream);
    WithMarksIsMarked(stream);
    MarksWithinConnection(marked, c, |marked|);
    assert marked[..|marked|] == marked;
    forall j | j in Filter(ByConn(c), stream)
      ensures j.Query?
    {
      FilterMember(ByConn(c), stream, j);
    }
    var p, q := Filter(ByConn(c), marked), Filter(ByConn(c), stream);
    NothingBehind(marked, c);
    forall i | 0 <= i < |p|
      ensures p[i] == LastMarked(q)[i]
    {
      assert Alike(p[i], q[i]);
      assert Shuts(p[i]) <==> i == |p| - 1;
    }
  }

  lemma NothingBehind(stream: seq<Job>, c: nat)
    ensures NoMore(stream, |stream|, c)
  {
  }
}
