/** The whole replay: from the text of a log to the final report, over either dispatcher and any interleaving. */
module Replay {
  import opened Seqs
  import opened Text
  import opened Ordering
  import opened LogData
  import opened QueryLog
  import opened Marking
  import QueryText
  import opened ReadLog
  import opened Jobs
  import opened Reports
  import opened Contributions
  import opened Workers
  import opened Consistency
  import opened Totals
  import opened FinalReport
  import PerConnection
  import PerConnectionFairness
  import PerConnectionProgress
  import PerConnectionSafety
  import ThreadPool

  // ---------- Sums over the log ----------

  /** A value of a record, whatever start it was given. */
  function OnItem<R>(v: Ref -> R): LogEntry -> R { (e: LogEntry) => v(e.item) }

  /** Repairing and sorting changes no sum over the records. */
  lemma OrderKeepsSums(clock: Clock, opts: Options, data: string, v: Ref -> int)
    ensures Sum(OnItem(v), ReplayOrder(clock, data, opts.disableSorting, opts.accurateMode)) ==
            Sum(OnItem(v), LogRecords(clock, data))
  {
    hide LogRecords, StaysAccurate, Clamped, StableSorted, Owner;
    var es := LogRecords(clock, data);
    ClampRepairs(Owner(), es);
    SortPermutes(Clamped(Owner(), es));
    SumPermuted(OnItem(v), StableSorted(Clamped(Owner(), es)), Clamped(Owner(), es));
    forall i | 0 <= i < |es|
      ensures OnItem(v)(Clamped(Owner(), es)[i]) == OnItem(v)(es[i])
    {
      assert Items(Clamped(Owner(), es))[i] == Items(es)[i];
    }
    SumMatch(OnItem(v), Clamped(Owner(), es), OnItem(v), es);
  }

  /** A sum over the stream is a sum over the records of the log. */
  lemma {:induction false} StreamSum(clock: Clock, opts: Options, data: string, stream: seq<Job>, weight: Job -> int,
                                     v: Ref -> int)
    requires HandsOutLog(clock, opts, data, stream)
    requires forall e, shutdown :: weight(JobOf(clock, opts.runSetTimestamp, e, shutdown)) == v(e.item)
    ensures Sum(weight, stream) == Sum(OnItem(v), LogRecords(clock, data))
  {
    hide JobOf, LogRecords, ReplayOrder;
    OrderKeepsSums(clock, opts, data, v);
    SumMatch(weight, stream, OnItem(v), ReplayOrder(clock, data, opts.disableSorting, opts.accurateMode));
  }

  function IsQuitRecord(): Ref -> bool { (r: Ref) => HasQuitLine(r.text) }

  function Runs(): Ref -> bool { (r: Ref) => !HasQuitLine(r.text) }

  function RunsOn(c: nat): Ref -> bool { (r: Ref) => !HasQuitLine(r.text) && ThreadIdOf(r.text) == c }

  function RowsOf(): Ref -> int { (r: Ref) => if HasQuitLine(r.text) then 0 else RowsSentOf(r.text) }

  function MicrosOf(clock: Clock): Ref -> int
  {
    (r: Ref) => if HasQuitLine(r.text) then 0 else clock.queryMicros(r.text)
  }

  /** How many records of the log satisfy p. */
  function CountOf(clock: Clock, data: string, p: Ref -> bool): nat { |Filter(OnItem(p), LogRecords(clock, data))| }

  lemma {:induction false} ItemCount(p: Ref -> bool, es: seq<LogEntry>)
    ensures Sum(OnItem(Indicator(p)), es) == |Filter(OnItem(p), es)|
  {
    SumCounts(OnItem(p), es);
    SumMatch(OnItem(Indicator(p)), es, Indicator(OnItem(p)), es);
  }

  /** All records less the Quit commands. */
  lemma CountOfRuns(clock: Clock, data: string)
    ensures CountOf(clock, data, Runs()) == |LogRecords(clock, data)| - CountOf(clock, data, IsQuitRecord())
  {
    hide LogRecords, HasQuitLine, Filter;
    var es := LogRecords(clock, data);
    var one := (e: LogEntry) => 1;
    SumPlus(OnItem(Indicator(Runs())), OnItem(Indicator(IsQuitRecord())), one, es);
    SumOfOnes(one, es);
    ItemCount(Runs(), es);
    ItemCount(IsQuitRecord(), es);
  }

  lemma {:induction false} SumOfOnes(one: LogEntry -> int, es: seq<LogEntry>)
    requires forall e :: one(e) == 1
    ensures Sum(one, es) == |es|
  {
    if es != [] {
      SumOfOnes(one, es[..|es| - 1]);
    }
  }

  // ---------- The report of a log ----------

  /**
    What the simple report says of a log: as many queries as the log has records less its Quit commands, on each
    connection as many as it has there, the rows and times of those records, and with the null client no error
    and no difference in rows.
   */
  ghost predicate LogReport(clock: Clock, data: string, client: Client, m: Counters)
  {
    && Get(m, Executed) == |LogRecords(clock, data)| - CountOf(clock, data, IsQuitRecord())
    && ConnTotal(m) == Get(m, Executed)
    && (forall c :: Get(m, Conn(c)) == CountOf(clock, data, RunsOn(c)))
    && Get(m, ExpectedRows) == Sum(OnItem(RowsOf()), LogRecords(clock, data))
    && Get(m, ExpectedTime) == Sum(OnItem(MicrosOf(clock)), LogRecords(clock, data))
    && (client.NullClient? ==>
          Get(m, ActualRows) == Get(m, ExpectedRows) && Get(m, Errors) == 0 && Get(m, RowsDiffer) == 0)
  }

  lemma {:induction false} StreamCount(clock: Clock, opts: Options, data: string, stream: seq<Job>, p: Job -> bool,
                                       q: Ref -> bool)
    requires HandsOutLog(clock, opts, data, stream)
    requires forall e, shutdown :: p(JobOf(clock, opts.runSetTimestamp, e, shutdown)) == q(e.item)
    ensures |Filter(p, stream)| == CountOf(clock, data, q)
  {
    hide JobOf, LogRecords, Filter, HandsOutLog;
    StreamSum(clock, opts, data, stream, Indicator(p), Indicator(q));
    SumCounts(p, stream);
    ItemCount(q, LogRecords(clock, data));
  }

  /** The report of the stream is the report of the log. */
  lemma ReportOfLog(clock: Clock, opts: Options, data: string, stream: seq<Job>, client: Client, m: Counters)
    requires HandsOutLog(clock, opts, data, stream) && SimpleReportOf(client, stream, m)
    ensures LogReport(clock, data, client, m)
  {
    hide LogRecords, Filter, HandsOutLog, Sum, Get, ConnTotal, CountOf, IsQuit, HasQuitLine, ThreadIdOf, RowsSentOf,
      QueryText.QueryOf, InClass;
    forall e: LogEntry, shutdown
      ensures JobOf(clock, opts.runSetTimestamp, e, shutdown).quit <==> HasQuitLine(e.item.text)
    {
      QuitIsLine(e.item.text);
    }
    StreamCount(clock, opts, data, stream, IsExecutable(), Runs());
    CountOfRuns(clock, data);
    forall c
      ensures |Filter(OfConn(c), stream)| == CountOf(clock, data, RunsOn(c))
    {
      StreamCount(clock, opts, data, stream, OfConn(c), RunsOn(c));
    }
    StreamSum(clock, opts, data, stream, LoggedRows(), RowsOf());
    StreamSum(clock, opts, data, stream, LoggedMicros(), MicrosOf(clock));
  }

  /** One thread per connection: every finished replay of a log reports the log, whatever the interleaving. */
  lemma ReplayPerConnection(clock: Clock, opts: Options, data: string, cfg: Config, r: Plugins,
                            trace: seq<PerConnection.State>)
    requires cfg.program == Program(r)
    requires PerConnectionSafety.Run(cfg, WithMarks(Dispatched(clock, opts, data)), trace)
    requires trace[|trace| - 1].stage.Done?
    ensures Accounted(cfg.client, r, WithMarks(Dispatched(clock, opts, data)), trace[|trace| - 1].crew)
    ensures r.simple ==> LogReport(clock, data, cfg.client, trace[|trace| - 1].crew.counters)
  {
    assert trace != [];
    hide Dispatched, HandsOutLog, SimpleReportOf, FullReportOf, CountersOf, SimpleOutcomes, FullOutcomes, LogReport,
      PerConnectionSafety.Run, WithMarks, Marked, Filter, JobsOf, Actions, Executions;
    var stream := WithMarks(Dispatched(clock, opts, data));
    BothHandOut(clock, opts, data);
    WithMarksIsMarked(Dispatched(clock, opts, data));
    ReportPerConnection(cfg, r, stream, trace);
    if r.simple {
      ReportOfLog(clock, opts, data, stream, cfg.client, trace[|trace| - 1].crew.counters);
    }
  }

  /** The thread pool: the same report, whatever the number of workers, the hash and the interleaving. */
  lemma ReplayPool(clock: Clock, opts: Options, data: string, cfg: Config, r: Plugins, pool: ThreadPool.Pool,
                   trace: seq<ThreadPool.State>)
    requires cfg.program == Program(r) && pool.size >= 1
    requires ThreadPool.Run(cfg, pool, Dispatched(clock, opts, data), trace)
    requires trace[|trace| - 1].stage.Done?
    ensures Accounted(cfg.client, r, Dispatched(clock, opts, data), trace[|trace| - 1].crew)
    ensures r.simple ==> LogReport(clock, data, cfg.client, trace[|trace| - 1].crew.counters)
  {
    PlainUnmarked(clock, opts, data);
    assert trace != [];
    hide Dispatched, HandsOutLog, SimpleReportOf, FullReportOf, CountersOf, SimpleOutcomes, FullOutcomes, LogReport,
      ThreadPool.Run, ThreadPool.Unmarked, Filter, JobsOf, Actions, Executions;
    var stream := Dispatched(clock, opts, data);
    BothHandOut(clock, opts, data);
    ReportPool(cfg, r, pool, stream, trace);
    if r.simple {
      ReportOfLog(clock, opts, data, stream, cfg.client, trace[|trace| - 1].crew.counters);
    }
  }

  lemma PlainUnmarked(clock: Clock, opts: Options, data: string)
    ensures ThreadPool.Unmarked(Dispatched(clock, opts, data))
  {
    hide ReplayOrder;
  }

  // ---------- Order ----------

  /**
    Every thread has popped exactly the log records of its connection, in file order, the last of them shut down;
    and every connection of the log has its thread.
   */
  ghost predicate InFileOrder(clock: Clock, opts: Options, data: string, crew: Crew)
  {
    && PerConnection.KeysDistinct(crew)
    && (forall h :: 0 <= h < |crew.workers| ==>
          crew.workers[h].popped == LastMarked(FileOrder(clock, opts, data, crew.workers[h].key)))
    && (forall c :: FileOrder(clock, opts, data, c) != [] ==> PerConnection.HasWorker(crew, c))
  }

  lemma {:induction false} ConnectionServed(cfg: Config, plain: seq<Job>, s: PerConnection.State, c: nat)
    requires forall j :: j in plain ==> j.Query?
    requires PerConnectionSafety.Delivered(cfg, WithMarks(plain), s) && Filter(ByConn(c), plain) != []
    ensures PerConnection.HasWorker(s.crew, c)
  {
    hide PerConnection.HasWorker, PerConnection.KeysDistinct, PerConnection.Complete, CountersAgree, Filter, IsLast;
    var e := Filter(ByConn(c), plain)[0];
    FilterMember(ByConn(c), plain, e);
    var i :| 0 <= i < |plain| && plain[i] == e;
    assert WithMarks(plain)[i].Query? && WithMarks(plain)[i].conn == c;
  }

  lemma SharePopped(clock: Clock, opts: Options, data: string, cfg: Config, w: Worker)
    requires PerConnection.Complete(cfg, WithMarks(Dispatched(clock, opts, data)), w)
    ensures w.popped == LastMarked(FileOrder(clock, opts, data, w.key))
  {
    hide Dispatched, FileOrder, WithMarks, Logged, LogOps, Filter, LastMarked;
    MarkedShare(Dispatched(clock, opts, data), w.key);
    DispatchedInFileOrder(clock, opts, data, w.key);
  }

  lemma DeliveredInFileOrder(clock: Clock, opts: Options, data: string, cfg: Config, s: PerConnection.State)
    requires PerConnectionSafety.Delivered(cfg, WithMarks(Dispatched(clock, opts, data)), s)
    ensures InFileOrder(clock, opts, data, s.crew)
  {
    hide Dispatched, FileOrder, PerConnection.KeysDistinct, PerConnection.HasWorker, WithMarks, CountersAgree, Filter,
      LastMarked, PerConnection.Complete;
    forall h | 0 <= h < |s.crew.workers|
      ensures s.crew.workers[h].popped == LastMarked(FileOrder(clock, opts, data, s.crew.workers[h].key))
    {
      SharePopped(clock, opts, data, cfg, s.crew.workers[h]);
    }
    forall c | FileOrder(clock, opts, data, c) != []
      ensures PerConnection.HasWorker(s.crew, c)
    {
      DispatchedInFileOrder(clock, opts, data, c);
      ConnectionServed(cfg, Dispatched(clock, opts, data), s, c);
    }
  }

  /** In every finished replay with one thread per connection, each thread handles its connection in file order. */
  lemma FileOrderPerConnection(clock: Clock, opts: Options, data: string, cfg: Config, trace: seq<PerConnection.State>)
    requires PerConnectionSafety.Run(cfg, WithMarks(Dispatched(clock, opts, data)), trace)
    requires trace[|trace| - 1].stage.Done?
    ensures InFileOrder(clock, opts, data, trace[|trace| - 1].crew)
  {
    assert trace != [];
    hide Dispatched, PerConnectionSafety.Run, PerConnectionSafety.Delivered, WithMarks, Marked, InFileOrder;
    WithMarksIsMarked(Dispatched(clock, opts, data));
    PerConnectionSafety.ExactlyOnceInOrder(cfg, WithMarks(Dispatched(clock, opts, data)), trace);
    DeliveredInFileOrder(clock, opts, data, cfg, trace[|trace| - 1]);
  }

  /** In the pool each connection's records are handled in file order by the worker of its hash, and by no other. */
  lemma FileOrderPool(clock: Clock, opts: Options, data: string, cfg: Config, pool: ThreadPool.Pool,
                      trace: seq<ThreadPool.State>, h: nat, c: nat)
    requires pool.size >= 1 && h < pool.size
    requires ThreadPool.Run(cfg, pool, Dispatched(clock, opts, data), trace)
    requires trace[|trace| - 1].stage.Done?
    ensures h < |trace[|trace| - 1].crew.workers|
    ensures Filter(ByConn(c), trace[|trace| - 1].crew.workers[h].popped) ==
            if h == pool.hash(c) % pool.size then FileOrder(clock, opts, data, c) else []
  {
    PlainUnmarked(clock, opts, data);
    assert trace != [];
    hide Dispatched, FileOrder, ThreadPool.Run, ThreadPool.Unmarked, ThreadPool.Complete, CountersAgree, Filter;
    var stream, s := Dispatched(clock, opts, data), trace[|trace| - 1];
    ThreadPool.SharesHandledInOrder(cfg, pool, stream, trace);
    assert |s.crew.workers| == pool.size;
    hide ThreadPool.Delivered;
    ThreadPool.ConnectionStaysWithOneWorker(cfg, pool, stream, s, c, h);
    DispatchedInFileOrder(clock, opts, data, c);
  }

  // ---------- Coming to an end ----------

  /**
    One thread per connection with a queue of at least one entry: a log can be replayed to its end if and only if
    no connection starts while more than THROTTLE others are open.
   */
  lemma CanReplayIff(clock: Clock, opts: Options, data: string, depth: nat, client: Client, r: Plugins)
    requires depth >= 1
    ensures var cfg, stream := ReplayConfig(depth, client, r), WithMarks(Dispatched(clock, opts, data));
            PerConnectionProgress.SomeRunFinishes(cfg, stream) <==> PerConnectionProgress.ConnectionsFit(stream)
  {
    hide Dispatched, WithMarks, Marked, ValidConfig, PerConnectionProgress.ConnectionsFit,
      PerConnectionProgress.SomeRunFinishes;
    var cfg, stream := ReplayConfig(depth, client, r), WithMarks(Dispatched(clock, opts, data));
    WithMarksIsMarked(Dispatched(clock, opts, data));
    ReplayConfigValid(depth, client, r);
    PerConnectionProgress.FinishesIffConnectionsFit(cfg, stream);
  }

  /** And if it can, every fairly scheduled replay of it does come to its end. */
  lemma FairReplayEnds(clock: Clock, opts: Options, data: string, depth: nat, client: Client, r: Plugins,
                       trace: nat -> PerConnection.State)
    requires depth >= 1 && PerConnectionProgress.ConnectionsFit(WithMarks(Dispatched(clock, opts, data)))
    requires var cfg, stream := ReplayConfig(depth, client, r), WithMarks(Dispatched(clock, opts, data));
             PerConnectionFairness.InfiniteRun(cfg, stream, trace) && PerConnectionFairness.Fair(cfg, stream, trace)
    ensures exists n: nat :: trace(n).stage.Done?
  {
    hide Dispatched, WithMarks, Marked, ValidConfig, PerConnectionProgress.ConnectionsFit,
      PerConnectionFairness.InfiniteRun, PerConnectionFairness.Fair;
    WithMarksIsMarked(Dispatched(clock, opts, data));
    ReplayConfigValid(depth, client, r);
    var cfg, stream := ReplayConfig(depth, client, r), WithMarks(Dispatched(clock, opts, data));
    PerConnectionFairness.FairRunsFinish(cfg, stream, trace);
  }

  /**
    The thread pool replays every log: some run finishes, no run is longer than its initial work, and none gets
    stuck before the end.
   */
  lemma PoolReplaysAll(clock: Clock, opts: Options, data: string, depth: nat, client: Client, r: Plugins,
                       pool: ThreadPool.Pool, trace: seq<ThreadPool.State>)
    requires depth >= 1 && pool.size >= 1
    ensures var cfg, stream := ReplayConfig(depth, client, r), Dispatched(clock, opts, data);
            && ThreadPool.SomeRunFinishes(cfg, pool, stream)
            && (ThreadPool.Run(cfg, pool, stream, trace) ==>
                  && |trace| <= ThreadPool.Measure(cfg, pool, stream, trace[0]) + 1
                  && (ThreadPool.Stuck(cfg, pool, stream, trace[|trace| - 1]) ==> trace[|trace| - 1].stage.Done?))
  {
    PlainUnmarked(clock, opts, data);
    hide Dispatched, ThreadPool.Run, ThreadPool.Unmarked, ThreadPool.Measure, ThreadPool.Stuck,
      ThreadPool.SomeRunFinishes, ValidConfig;
    var cfg, stream := ReplayConfig(depth, client, r), Dispatched(clock, opts, data);
    ReplayConfigValid(depth, client, r);
    ThreadPool.EveryStreamFinishes(cfg, pool, stream);
    if ThreadPool.Run(cfg, pool, stream, trace) {
      ThreadPool.EveryRunEnds(cfg, pool, stream, trace);
    }
  }
}
