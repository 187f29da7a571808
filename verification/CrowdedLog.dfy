/** A log that one thread per connection cannot replay, written out. */
module CrowdedLog {
  import opened Seqs
  import opened Text
  import opened Segmentation
  import opened Ordering
  import opened LogData
  import opened QueryLog
  import opened Marking
  import opened RoundTrip
  import opened ReadLog
  import opened Jobs
  import opened Workers
  import opened PerConnectionProgress

  /** A record of connection c. */
  function RecordOn(c: nat): Item
  {
    Item(None, ["# User@Host\n"] + ["# Thread_id: " + Decimal(c) + "\n"] + ["SELECT 1;\n"])
  }

  /** One record on each of n connections, and then another on each. */
  function CrowdOf(n: nat): (items: seq<Item>)
    ensures |items| == 2 * n && forall i :: 0 <= i < |items| ==> items[i] == RecordOn(if i < n then i else i - n)
  {
    seq(2 * n, i requires 0 <= i < 2 * n => RecordOn(if i < n then i else i - n))
  }

  function CrowdedLog(n: nat): string { Print(CrowdOf(n)) }

  // ---------- It reads back as written ----------

  lemma {:induction false} IdLine(c: nat)
    ensures var l := "# Thread_id: " + Decimal(c) + "\n"; IsLine(l) && IsTerminated(l) && KindOf(l).Comment?
  {
    var l := "# Thread_id: " + Decimal(c) + "\n";
    assert l[0] == '#' && l[1] == ' ' && l[2] == 'T' && l[3] == 'h';
    assert "# Time"[3] == 'i' && "# User@Host"[2] == 'U';
    hide Decimal;
  }

  lemma FixedLines()
    ensures IsLine("# User@Host\n") && IsTerminated("# User@Host\n") && KindOf("# User@Host\n").UserHost?
    ensures IsLine("SELECT 1;\n") && IsTerminated("SELECT 1;\n") && KindOf("SELECT 1;\n").Sql?
  {
    var l, q := "# User@Host\n", "SELECT 1;\n";
    assert l[..1] == "#" && l[..11] == "# User@Host" && l[2] != "# Time"[2] && q[0] != "#"[0];
  }

  lemma RecordWellFormed(c: nat)
    ensures WellFormed(RecordOn(c))
  {
    IdLine(c);
    FixedLines();
    hide KindOf, IsLine, IsTerminated, Decimal;
    assert KindOf(RecordOn(c).body[2]).Sql?;
  }

  lemma RecordLines(c: nat)
    ensures forall k :: 0 <= k < |RecordOn(c).body| ==> IsLine(RecordOn(c).body[k]) && IsTerminated(RecordOn(c).body[k])
  {
    IdLine(c);
    FixedLines();
    hide KindOf, IsLine, IsTerminated, Decimal;
  }

  /** Lines, all of them terminated. */
  predicate AreTerminated(ls: seq<string>) { forall i :: 0 <= i < |ls| ==> IsLine(ls[i]) && IsTerminated(ls[i]) }

  lemma {:induction false} AllLines(items: seq<Item>)
    requires forall i :: 0 <= i < |items| ==> items[i].time.None? && AreTerminated(items[i].body)
    ensures AreTerminated(LinesOf(items))
  {
    hide IsLine, IsTerminated;
    if items != [] {
      var n := |items| - 1;
      AllLines(items[..n]);
      assert AreTerminated(items[n].body);
    }
  }

  predicate Timeless(items: seq<Item>) { forall k :: 0 <= k < |items| ==> items[k].time.None? }

  lemma RecordForLast(clock: Clock, items: seq<Item>)
    requires items != [] && Timeless(items)
    ensures RecordFor(clock, items).item.text == Flatten(items[|items| - 1].body)
    ensures RecordFor(clock, items).start <= EPOCH
  {
    Untimed(clock, items);
    hide TimeOf, LinesOf, Flatten;
  }

  lemma {:induction false} ExpectedAt(clock: Clock, items: seq<Item>, i: nat)
    requires i < |items| && Timeless(items)
    ensures |Expected(clock, items)| == |items|
    ensures Expected(clock, items)[i].item.text == Flatten(items[i].body) && Expected(clock, items)[i].start <= EPOCH
    decreases |items|
  {
    hide RecordFor, Flatten;
    var n := |items| - 1;
    RecordForLast(clock, items);
    if n > 0 {
      ExpectedAt(clock, items[..n], if i < n then i else 0);
    }
  }

  lemma {:induction false} Untimed(clock: Clock, items: seq<Item>)
    requires Timeless(items)
    ensures TimeOf(clock, items) == EPOCH
  {
    if items != [] {
      Untimed(clock, items[..|items| - 1]);
    }
  }

  lemma IdOfRecord(c: nat)
    requires c <= ULLONG_MAX
    ensures ThreadIdOf(Flatten(RecordOn(c).body)) == c
  {
    hide Decimal, Strtoull, Find, ThreadIdOf;
    var before, rest := "# User@Host\n# ", "\nSELECT 1;\n";
    var data := before + "Thread_id: " + Decimal(c) + rest;
    BodyText(c);
    forall k: nat | k < |before|
      ensures !OccursAt(data, "Thread_id: ", k)
    {
      assert data[k] == before[k] && before[k] != 'T';
      OccursHere(data, "Thread_id: ", k);
    }
    assert before + "Thread_id: " + "" + Decimal(c) + rest == data;
    ThreadIdReadsBack(before, "", c, rest);
  }

  lemma {:induction false} BodyText(c: nat)
    ensures Flatten(RecordOn(c).body) == "# User@Host\n# " + "Thread_id: " + Decimal(c) + "\nSELECT 1;\n"
  {
    hide Decimal;
    var a, b, q := "# User@Host\n", "# Thread_id: " + Decimal(c) + "\n", "SELECT 1;\n";
    FlattenCons(q, []);
    FlattenCons(b, [q]);
    FlattenCons(a, [b] + [q]);
    hide Flatten;
    assert RecordOn(c).body == [a] + ([b] + [q]) && [q] + [] == [q];
    assert Flatten<char>([]) == "" by {
      NothingFlat();
    }
  }

  lemma NothingFlat()
    ensures Flatten<char>([]) == ""
  {
  }

  // ---------- Its replay order ----------

  /** Entries that all start at the epoch or before are all clamped to the epoch and stay where they are. */
  lemma EpochStays<T>(owner: T -> nat, es: seq<Timed<T>>)
    requires forall i :: 0 <= i < |es| ==> es[i].start <= EPOCH
    ensures Items(Preprocessed(owner, es)) == Items(es)
  {
    var cl := Clamped(owner, es);
    ClampRepairs(owner, es);
    forall i | 0 <= i < |es|
      ensures cl[i].start == EPOCH
    {
      ClampedAt(owner, es, i);
      LatestIsSupremum(owner, es[..i + 1], owner(es[i].item), EPOCH);
    }
    hide Clamped, Latest;
    SortOfSorted(cl);
  }

  /** The i-th entry replayed is the i-th record written. */
  lemma CrowdInOrder(clock: Clock, opts: Options, n: nat)
    ensures var entries := ReplayOrder(clock, CrowdedLog(n), opts.disableSorting, opts.accurateMode);
            && |entries| == 2 * n
            && forall i :: 0 <= i < |entries| ==>
                 entries[i].item.text == Flatten(RecordOn(if i < n then i else i - n).body)
  {
    var items := CrowdOf(n);
    hide RecordOn, WellFormed, Expected, LogRecords, StaysAccurate, Preprocessed, Owner, LinesOf, AreTerminated,
      Flatten;
    forall i | 0 <= i < |items|
      ensures WellFormed(items[i]) && items[i].time.None? && AreTerminated(items[i].body)
    {
      CrowdRecord(if i < n then i else i - n);
    }
    AllLines(items);
    TerminatedAreLines(LinesOf(items));
    ReadingPrintedLog(clock, items);
    var es := LogRecords(clock, CrowdedLog(n));
    assert es == Expected(clock, items);
    assert Timeless(items);
    ExpectedSize(clock, items);
    forall i | 0 <= i < |es|
      ensures es[i].start <= EPOCH && es[i].item.text == Flatten(items[i].body)
    {
      ExpectedAt(clock, items, i);
    }
    EpochStays(Owner(), es);
    SameItems(ReplayOrder(clock, CrowdedLog(n), opts.disableSorting, opts.accurateMode), es);
  }

  lemma CrowdRecord(c: nat)
    ensures WellFormed(RecordOn(c)) && RecordOn(c).time.None? && AreTerminated(RecordOn(c).body)
  {
    RecordWellFormed(c);
    RecordLines(c);
    hide WellFormed, IsLine, IsTerminated, Decimal;
  }

  lemma TerminatedAreLines(ls: seq<string>)
    requires AreTerminated(ls)
    ensures AreLines(ls)
  {
    hide IsLine, IsTerminated;
  }

  lemma {:induction false} ExpectedSize(clock: Clock, items: seq<Item>)
    requires Timeless(items)
    ensures |Expected(clock, items)| == |items|
  {
    if items != [] {
      ExpectedAt(clock, items, 0);
    }
  }

  lemma SameItems(a: seq<LogEntry>, b: seq<LogEntry>)
    requires Items(a) == Items(b)
    ensures |a| == |b| && forall i :: 0 <= i < |a| ==> a[i].item == b[i].item
  {
    assert |a| == |Items(a)| == |b|;
    forall i | 0 <= i < |a|
      ensures a[i].item == b[i].item
    {
      assert Items(a)[i] == Items(b)[i];
    }
  }

  /**
    However the log is read, the dispatcher of one thread per connection gets a crowd of connections, and no run of
    it ends.
   */
  lemma NeverReplayed(cfg: Config, clock: Clock, opts: Options, n: nat)
    requires ValidConfig(cfg) && 10001 < n <= ULLONG_MAX
    ensures !SomeRunFinishes(cfg, WithMarks(Dispatched(clock, opts, CrowdedLog(n))))
  {
    hide ReplayOrder, CrowdedLog, ValidConfig, SomeRunFinishes, ThreadIdOf, IsLast, Marked, RecordOn, Flatten,
      PlainStream;
    var data := CrowdedLog(n);
    var entries := ReplayOrder(clock, data, opts.disableSorting, opts.accurateMode);
    var stream := WithMarks(Dispatched(clock, opts, data));
    CrowdInOrder(clock, opts, n);
    BothHandOut(clock, opts, data);
    forall i | 0 <= i < |stream|
      ensures stream[i].Query? && stream[i].conn == if i < n then i else i - n
    {
      JobShutdown(clock, opts.runSetTimestamp, entries[i], stream[i].shutdown);
      IdOfRecord(if i < n then i else i - n);
    }
    WithMarksIsMarked(Dispatched(clock, opts, data));
    CrowdNeverFinishes(cfg, stream, n);
  }
}
