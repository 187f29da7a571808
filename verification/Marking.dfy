/**
  From the container to the stream the dispatcher pops: the shutdown marks kept as slice starts mean exactly the
  last entry of each connection.
 */
module Marking {
  import opened Seqs
  import opened Text
  import opened Ordering
  import opened LogData
  import opened Jobs
  import opened QueryLog
  import QueryText
  import opened Segmentation

  /** The marks as the container stores them: by slice start. */
  function FlagsByStart(entries: seq<LogEntry>): (fs: seq<bool>)
    ensures |fs| == |entries| && forall i :: 0 <= i < |fs| ==> (fs[i] <==> entries[i].item.at in LastStarts(entries, 0))
  {
    seq(|entries|, i requires 0 <= i < |entries| => entries[i].item.at in LastStarts(entries, 0))
  }

  /** No entry that goes on shares its slice start with one that ends a connection. */
  ghost predicate MarksApart(entries: seq<LogEntry>)
  {
    forall i, j ::
      0 <= i < |entries| && 0 <= j < |entries| && !IsLast(ConnsOf(entries), i) && IsLast(ConnsOf(entries), j)
      ==> entries[i].item.at != entries[j].item.at
  }

  /** Marking by slice start marks the last entry of each connection if and only if such starts are kept apart. */
  lemma StartMarksCorrectIff(entries: seq<LogEntry>)
    ensures FlagsByStart(entries) == LastFlags(ConnsOf(entries)) <==> MarksApart(entries)
  {
    hide ConnsOf, IsLast;
    var fs, ls := FlagsByStart(entries), LastFlags(ConnsOf(entries));
    if fs == ls {
      forall i, j |
        0 <= i < |entries| && 0 <= j < |entries| && !IsLast(ConnsOf(entries), i) && IsLast(ConnsOf(entries), j)
        ensures entries[i].item.at != entries[j].item.at
      {
        assert !ls[i] && !fs[i];
        assert entries[j].item.at in LastStarts(entries, 0);
      }
    }
    if MarksApart(entries) {
      forall i | 0 <= i < |entries|
        ensures fs[i] == ls[i]
      {
        if fs[i] {
          var j :| 0 <= j < |entries| && IsLast(ConnsOf(entries), j) && entries[j].item.at == entries[i].item.at;
        }
      }
    }
  }

  // ---------- Segmentation keeps the starts apart ----------

  ghost predicate DistinctStarts(entries: seq<LogEntry>)
  {
    forall i, j :: 0 <= i < j < |entries| ==> entries[i].item.at != entries[j].item.at
  }

  lemma {:induction false} InsertMembers(es: seq<LogEntry>, e: LogEntry, x: LogEntry)
    requires x in Insert(es, e)
    ensures x in es || x == e
  {
    InsertPermutes(es, e);
    assert x in multiset(Insert(es, e));
  }

  lemma {:induction false} InsertKeepsDistinct(es: seq<LogEntry>, e: LogEntry)
    requires DistinctStarts(es) && forall x :: x in es ==> x.item.at != e.item.at
    ensures DistinctStarts(Insert(es, e))
  {
    if es != [] && e.start < es[|es| - 1].start {
      var init, last := es[..|es| - 1], es[|es| - 1];
      InsertKeepsDistinct(init, e);
      var r := Insert(init, e);
      forall i | 0 <= i < |r|
        ensures r[i].item.at != last.item.at
      {
        InsertMembers(init, e, r[i]);
      }
    }
  }

  lemma {:induction false} SortKeepsDistinct(es: seq<LogEntry>)
    requires DistinctStarts(es)
    ensures DistinctStarts(StableSorted(es))
  {
    if es != [] {
      var init, e := es[..|es| - 1], es[|es| - 1];
      SortKeepsDistinct(init);
      SortPermutes(init);
      assert forall x :: x in StableSorted(init) ==> x in multiset(init);
      InsertKeepsDistinct(StableSorted(init), e);
    }
  }

  lemma SlicesDistinct(data: string, entries: seq<LogEntry>)
    requires AreSlices(data, entries)
    ensures DistinctStarts(entries)
  {
    forall i, j | 0 <= i < j < |entries|
      ensures entries[i].item.at != entries[j].item.at
    {
      assert SliceOf(data, entries[i].item);
    }
  }

  lemma {:induction false} ClampKeepsDistinct(es: seq<LogEntry>)
    requires DistinctStarts(es)
    ensures DistinctStarts(Clamped(Owner(), es))
  {
    hide ThreadIdOf, Owner, Clamped;
    ClampRepairs(Owner(), es);
    var cl := Clamped(Owner(), es);
    assert forall i :: 0 <= i < |es| ==> Items(cl)[i] == cl[i].item && Items(es)[i] == es[i].item;
  }

  /** The entries of a log have different slice starts, however they are ordered for the replay. */
  lemma ReplayStartsDistinct(clock: Clock, data: string, disableSorting: bool, accurateMode: bool)
    ensures DistinctStarts(ReplayOrder(clock, data, disableSorting, accurateMode))
  {
    hide AreSlices, LogRecords, StaysAccurate, DistinctStarts, Clamped, StableSorted, Owner;
    LogRecordsAreSlices(clock, data);
    SlicesDistinct(data, LogRecords(clock, data));
    ClampKeepsDistinct(LogRecords(clock, data));
    SortKeepsDistinct(Clamped(Owner(), LogRecords(clock, data)));
  }

  // ---------- The popped stream ----------

  /** What a worker gets to know of an entry. */
  function JobOf(clock: Clock, runSetTimestamp: bool, entry: LogEntry, shutdown: bool): (j: Job)
    ensures j.Query? && j.shutdown == shutdown
  {
    var text := entry.item.text;
    Query(ThreadIdOf(text), IsQuit(text), RowsSentOf(text), clock.queryMicros(text),
          QueryText.QueryOf(text, !runSetTimestamp), shutdown)
  }

  /** The entries as jobs, none of them shut down. */
  function PlainStream(clock: Clock, runSetTimestamp: bool, entries: seq<LogEntry>): (r: seq<Job>)
    ensures |r| == |entries|
    ensures forall i :: 0 <= i < |r| ==> r[i] == JobOf(clock, runSetTimestamp, entries[i], false)
    ensures forall j :: j in r ==> j.Query?
  {
    hide JobOf;
    seq(|entries|, i requires 0 <= i < |entries| => JobOf(clock, runSetTimestamp, entries[i], false))
  }

  /** The dispatcher's loop head: popping until nothing is left. */
  method PopAll(q: QueryLogEntries, clock: Clock, runSetTimestamp: bool) returns (stream: seq<Job>)
    modifies q`entries
    ensures q.entries == []
    ensures |stream| == |old(q.entries)|
    ensures forall i :: 0 <= i < |stream| ==>
              stream[i] ==
              JobOf(clock, runSetTimestamp, old(q.entries)[i], old(q.entries)[i].item.at in q.lastQueryOfConn)
  {
    hide JobOf;
    stream := [];
    ghost var all := q.entries;
    while true
      invariant |stream| <= |all| && q.entries == all[|stream|..]
      invariant forall i :: 0 <= i < |stream| ==>
                  stream[i] == JobOf(clock, runSetTimestamp, all[i], all[i].item.at in q.lastQueryOfConn)
      decreases |q.entries|
    {
      var entry := q.PopEntry();
      if entry.None? {
        break;
      }
      stream := stream + [JobOf(clock, runSetTimestamp, entry.value.entry, entry.value.shutdown)];
    }
  }

  lemma JobShutdown(clock: Clock, runSetTimestamp: bool, entry: LogEntry, shutdown: bool)
    ensures var plain := JobOf(clock, runSetTimestamp, entry, false);
            plain.Query? && JobOf(clock, runSetTimestamp, entry, shutdown) == plain.(shutdown := shutdown)
    ensures JobOf(clock, runSetTimestamp, entry, shutdown).conn == ThreadIdOf(entry.item.text)
  {
  }

  lemma ConnsOfPlain(clock: Clock, runSetTimestamp: bool, entries: seq<LogEntry>)
    ensures Conns(PlainStream(clock, runSetTimestamp, entries)) == ConnsOf(entries)
  {
    hide ThreadIdOf, IsQuit, RowsSentOf, QueryText.QueryOf;
  }

  /** Marked by slice start and popped, the entries are the plain stream with each connection's last shut down. */
  method PopMarked(q: QueryLogEntries, clock: Clock, runSetTimestamp: bool) returns (stream: seq<Job>)
    requires q.lastQueryOfConn == {} && MarksApart(q.entries)
    modifies q
    ensures stream == WithMarks(PlainStream(clock, runSetTimestamp, old(q.entries)))
    ensures Marked(stream)
  {
    hide MarksApart, LastStarts, FlagsByStart, IsLast, JobOf, ConnsOf, Marked, WithMarks, PlainStream, Conns;
    ghost var entries := q.entries;
    StartMarksCorrectIff(entries);
    ConnsOfPlain(clock, runSetTimestamp, entries);
    WithMarksIsMarked(PlainStream(clock, runSetTimestamp, entries));
    q.SetShutdownOnLastQueryOfConn();
    stream := PopAll(q, clock, runSetTimestamp);
    ghost var marked := WithMarks(PlainStream(clock, runSetTimestamp, entries));
    forall i | 0 <= i < |stream|
      ensures stream[i] == marked[i]
    {
      JobShutdown(clock, runSetTimestamp, entries[i], entries[i].item.at in LastStarts(entries, 0));
      assert FlagsByStart(entries)[i] == LastFlags(ConnsOf(entries))[i];
    }
  }

  /** As many shutdowns as connections. */
  lemma OneShutdownPerConnection(entries: seq<LogEntry>)
    requires MarksApart(entries)
    ensures CountTrue(FlagsByStart(entries)) == |Members(ConnsOf(entries))|
  {
    hide MarksApart, FlagsByStart, ConnsOf, LastFlags, Members;
    StartMarksCorrectIff(entries);
    OneFlagPerConnection(ConnsOf(entries));
  }

  lemma DistinctMarksApart(entries: seq<LogEntry>)
    requires DistinctStarts(entries)
    ensures MarksApart(entries)
  {
    hide ConnsOf, IsLast;
  }
}
