/** The report printed when everything has been joined, in terms of the entries dispatched and the executions made. */
module FinalReport {
  import opened Seqs
  import opened Jobs
  import opened Reports
  import opened Contributions
  import opened Workers
  import opened Consistency
  import opened Totals
  import PerConnection
  import PerConnectionSafety
  import ThreadPool

  /** What an action contributes to a counter. */
  function Part(k: Key, r: Plugins): Action -> int
  {
    (a: Action) =>
      if a.Ran? && a.job.Query? && Reported(r, k)
      then Contribution(k, r.ignoreRowDiffs, ExpectedOf(a.job), a.outcome)
      else 0
  }

  /** Every counter holds the contributions of the executions, no more and no less. */
  ghost predicate CountersOf(r: Plugins, executions: seq<Action>, m: Counters)
  {
    forall k :: Get(m, k) == Sum(Part(k, r), executions)
  }

  function Ones(r: Plugins): Action -> int { (a: Action) => if a.Ran? && a.job.Query? && r.simple then 1 else 0 }

  lemma PartIsCost(cfg: Config, r: Plugins, k: Key, a: Action)
    requires cfg.program == Program(r)
    ensures Cost(cfg, AmountTo(k))(a) == Part(k, r)(a)
    ensures Cost(cfg, ConnAmount())(a) == Ones(r)(a)
  {
    hide Contribution, ReportOps, Reported, AmountTo, ConnAmount;
    if a.Ran? {
      assert cfg.program(a.job, a.outcome) == Program(r)(a.job, a.outcome);
      if a.job.Query? {
        ProgramContributes(k, r, ExpectedOf(a.job), a.outcome);
        ProgramCountsConnection(r, ExpectedOf(a.job), a.outcome);
      }
    }
  }

  /** At rest every counter holds what the executions contribute to it. */
  lemma TotalIsParts(cfg: Config, r: Plugins, crew: Crew, k: Key)
    requires cfg.program == Program(r) && Quiescent(cfg, crew)
    ensures Get(crew.counters, k) == Sum(Part(k, r), Actions(crew.workers))
    ensures ConnTotal(crew.counters) == Sum(Ones(r), Actions(crew.workers))
  {
    assert CountersAgree(crew);
    var f, actions := AmountTo(k), Actions(crew.workers);
    CrewCost(cfg, f, crew.workers);
    CrewCost(cfg, ConnAmount(), crew.workers);
    hide Cost, Part, Ones, Actions, Program, AmountTo, ConnAmount, Quiescent, Get, ConnTotal;
    forall i | 0 <= i < |actions|
      ensures Cost(cfg, f)(actions[i]) == Part(k, r)(actions[i])
      ensures Cost(cfg, ConnAmount())(actions[i]) == Ones(r)(actions[i])
    {
      PartIsCost(cfg, r, k, actions[i]);
    }
    SumMatch(Cost(cfg, f), actions, Part(k, r), actions);
    SumMatch(Cost(cfg, ConnAmount()), actions, Ones(r), actions);
  }

  lemma AllCounters(cfg: Config, r: Plugins, crew: Crew)
    requires cfg.program == Program(r) && Quiescent(cfg, crew)
    ensures CountersOf(r, Executions(crew), crew.counters)
  {
    hide Quiescent, Get, Actions, Contribution, Reported, Program;
    forall k
      ensures Get(crew.counters, k) == Sum(Part(k, r), Executions(crew))
    {
      TotalIsParts(cfg, r, crew, k);
      SumFiltered(Part(k, r), IsExecution(), Actions(crew.workers));
    }
  }

  // ---------- What the outcomes determine ----------

  predicate IsRun(a: Action) { a.Ran? && a.job.Query? }

  function HadError(): Action -> bool { (a: Action) => IsRun(a) && a.outcome.error != 0 }

  function HadOtherRows(): Action -> bool { (a: Action) => IsRun(a) && a.outcome.rows != a.job.rows }

  predicate IsTimedRun(a: Action) { IsRun(a) && a.job.micros != 0 }

  /** The query time is in the log and was not reached. */
  function WasQuicker(): Action -> bool { (a: Action) => IsTimedRun(a) && a.outcome.micros < a.job.micros }

  function WasSlower(): Action -> bool { (a: Action) => IsTimedRun(a) && a.outcome.micros >= a.job.micros }

  function QuickerOf(k: Statement): Action -> bool
  {
    (a: Action) => IsTimedRun(a) && a.outcome.micros < a.job.micros && InClass(k, a.job.text)
  }

  function SlowerOf(k: Statement): Action -> bool
  {
    (a: Action) => IsTimedRun(a) && a.outcome.micros >= a.job.micros && InClass(k, a.job.text)
  }

  function ActualRowsOf(): Action -> int { (a: Action) => if IsRun(a) then a.outcome.rows else 0 }

  function MicrosSpent(): Action -> int { (a: Action) => if IsRun(a) then a.outcome.micros else 0 }

  /** The simple report in terms of what came of the executions. */
  ghost predicate SimpleOutcomes(ignoreRowDiffs: bool, executions: seq<Action>, m: Counters)
  {
    && Get(m, Errors) == |Filter(HadError(), executions)|
    && Get(m, RowsDiffer) == (if ignoreRowDiffs then 0 else |Filter(HadOtherRows(), executions)|)
    && Get(m, Quicker) == |Filter(WasQuicker(), executions)|
    && Get(m, Slower) == |Filter(WasSlower(), executions)|
    && Get(m, ActualRows) == Sum(ActualRowsOf(), executions)
    && Get(m, TotalTime) == Sum(MicrosSpent(), executions)
  }

  ghost predicate FullOutcomes(executions: seq<Action>, m: Counters)
  {
    && Get(m, FullTime) == Sum(MicrosSpent(), executions)
    && (forall k :: Get(m, CountFaster(k)) == |Filter(QuickerOf(k), executions)|)
    && (forall k :: Get(m, CountSlower(k)) == |Filter(SlowerOf(k), executions)|)
  }

  lemma PartSums(r: Plugins, k: Key, weight: Action -> int, executions: seq<Action>, m: Counters)
    requires CountersOf(r, executions, m) && forall a :: Part(k, r)(a) == weight(a)
    ensures Get(m, k) == Sum(weight, executions)
  {
    hide Part;
    SumMatch(Part(k, r), executions, weight, executions);
  }

  lemma PartCounts(r: Plugins, k: Key, p: Action -> bool, executions: seq<Action>, m: Counters)
    requires CountersOf(r, executions, m) && forall a :: Part(k, r)(a) == if p(a) then 1 else 0
    ensures Get(m, k) == |Filter(p, executions)|
  {
    hide Part, CountersOf;
    PartSums(r, k, Indicator(p), executions, m);
    SumCounts(p, executions);
  }

  lemma SimpleByOutcome(r: Plugins, executions: seq<Action>, m: Counters)
    requires CountersOf(r, executions, m) && r.simple
    ensures SimpleOutcomes(r.ignoreRowDiffs, executions, m)
  {
    hide CountersOf, Get, Filter, Sum, InClass;
    PartCounts(r, Errors, HadError(), executions, m);
    PartCounts(r, Quicker, WasQuicker(), executions, m);
    PartCounts(r, Slower, WasSlower(), executions, m);
    PartSums(r, ActualRows, ActualRowsOf(), executions, m);
    PartSums(r, TotalTime, MicrosSpent(), executions, m);
    if r.ignoreRowDiffs {
      var nothing := (a: Action) => 0;
      PartSums(r, RowsDiffer, nothing, executions, m);
      SumVanishes(nothing, executions);
    } else {
      PartCounts(r, RowsDiffer, HadOtherRows(), executions, m);
    }
  }

  lemma FullByOutcome(r: Plugins, executions: seq<Action>, m: Counters)
    requires CountersOf(r, executions, m) && r.full
    ensures FullOutcomes(executions, m)
  {
    hide CountersOf, Get, Filter, Sum, InClass;
    PartSums(r, FullTime, MicrosSpent(), executions, m);
    forall k
      ensures Get(m, CountFaster(k)) == |Filter(QuickerOf(k), executions)|
      ensures Get(m, CountSlower(k)) == |Filter(SlowerOf(k), executions)|
    {
      PartCounts(r, CountFaster(k), QuickerOf(k), executions, m);
      PartCounts(r, CountSlower(k), SlowerOf(k), executions, m);
    }
  }

  // ---------- What the entries determine ----------

  function OfConn(c: nat): Job -> bool { (j: Job) => Executable(j) && j.conn == c }

  function OfClass(k: Statement): Job -> bool { (j: Job) => Executable(j) && InClass(k, j.text) }

  /** Executed entries whose query time is in the log. */
  function HasTime(): Job -> bool { (j: Job) => Executable(j) && j.micros != 0 }

  function TimedOfClass(k: Statement): Job -> bool
  {
    (j: Job) => Executable(j) && InClass(k, j.text) && j.micros != 0
  }

  function LoggedRows(): Job -> int { (j: Job) => if Executable(j) then j.rows else 0 }

  function LoggedMicros(): Job -> int { (j: Job) => if Executable(j) then j.micros else 0 }

  function Zero(): Job -> int { (j: Job) => 0 }

  /**
    The simple report over the executed entries of jobs: all but the Quit entries are executed and counted, once in
    all and once under their connection; the logged rows and times are summed up; every execution with a logged time
    was either quicker or slower. With the null client the rows are as logged and nothing failed.
   */
  ghost predicate SimpleReportOf(client: Client, jobs: seq<Job>, m: Counters)
  {
    && Get(m, Executed) == |Filter(IsExecutable(), jobs)|
    && ConnTotal(m) == Get(m, Executed)
    && (forall c :: Get(m, Conn(c)) == |Filter(OfConn(c), jobs)|)
    && Get(m, Quicker) + Get(m, Slower) == |Filter(HasTime(), jobs)|
    && Get(m, ExpectedRows) == Sum(LoggedRows(), jobs)
    && Get(m, ExpectedTime) == Sum(LoggedMicros(), jobs)
    && (client.NullClient? ==>
          Get(m, ActualRows) == Get(m, ExpectedRows) && Get(m, Errors) == 0 && Get(m, RowsDiffer) == 0)
  }

  /** The full report: the entries of each statement class, and those of them with a logged time, faster or slower. */
  ghost predicate FullReportOf(jobs: seq<Job>, m: Counters)
  {
    && (forall k :: Get(m, Count(k)) == |Filter(OfClass(k), jobs)|)
    && (forall k :: Get(m, CountFaster(k)) + Get(m, CountSlower(k)) == |Filter(TimedOfClass(k), jobs)|)
    && Get(m, FullExpectedTime) == Sum(LoggedMicros(), jobs)
  }

  /** The active reports; both agree on the time spent. */
  ghost predicate ReportOf(client: Client, r: Plugins, jobs: seq<Job>, m: Counters)
  {
    && (r.simple ==> SimpleReportOf(client, jobs, m))
    && (r.full ==> FullReportOf(jobs, m))
    && (r.simple && r.full ==> Get(m, FullTime) == Get(m, TotalTime))
  }

  /** A counter to which each execution contributes what its entry determines. */
  ghost predicate Determined(client: Client, ignoreRowDiffs: bool, k: Key, weight: Job -> int)
  {
    && (forall j :: !Executable(j) ==> weight(j) == 0)
    && (forall j: Job, o :: Executable(j) && Allowed(client, j, o) ==>
          Contribution(k, ignoreRowDiffs, ExpectedOf(j), o) == weight(j))
  }

  lemma {:induction false} ExactKey(cfg: Config, r: Plugins, stream: seq<Job>, crew: Crew, k: Key, weight: Job -> int)
    requires cfg.program == Program(r) && Exact(cfg, stream, crew) && Reported(r, k)
    requires Determined(cfg.client, r.ignoreRowDiffs, k, weight)
    ensures Get(crew.counters, k) == Sum(weight, stream)
  {
    hide Contribution, Program, Get, Quiescent, Reported;
    TotalIsParts(cfg, r, crew, k);
    assert Answers(cfg, Part(k, r), weight);
  }

  /** Two counters to which each execution contributes, together, what its entry determines. */
  ghost predicate DeterminedPair(client: Client, ignoreRowDiffs: bool, a: Key, b: Key, weight: Job -> int)
  {
    && (forall j :: !Executable(j) ==> weight(j) == 0)
    && (forall j: Job, o :: Executable(j) && Allowed(client, j, o) ==>
          weight(j) ==
          Contribution(a, ignoreRowDiffs, ExpectedOf(j), o) + Contribution(b, ignoreRowDiffs, ExpectedOf(j), o))
  }

  function BothParts(a: Key, b: Key, r: Plugins): Action -> int { (x: Action) => Part(a, r)(x) + Part(b, r)(x) }

  lemma PairAnswers(cfg: Config, r: Plugins, a: Key, b: Key, weight: Job -> int)
    requires Reported(r, a) && Reported(r, b) && DeterminedPair(cfg.client, r.ignoreRowDiffs, a, b, weight)
    ensures Answers(cfg, BothParts(a, b, r), weight)
  {
    hide Contribution, Reported;
    var g := BothParts(a, b, r);
    assert g(Skipped) == Part(a, r)(Skipped) + Part(b, r)(Skipped);
    forall j, x | LoggedAs(cfg, j, x)
      ensures g(x) == weight(j)
    {
      assert g(x) == Part(a, r)(x) + Part(b, r)(x);
      assert !Executable(j) ==> weight(j) == 0;
    }
  }

  lemma ExactPair(cfg: Config, r: Plugins, stream: seq<Job>, crew: Crew, a: Key, b: Key, weight: Job -> int)
    requires cfg.program == Program(r) && Exact(cfg, stream, crew) && Reported(r, a) && Reported(r, b)
    requires DeterminedPair(cfg.client, r.ignoreRowDiffs, a, b, weight)
    ensures Get(crew.counters, a) + Get(crew.counters, b) == Sum(weight, stream)
  {
    hide Contribution, Program, Get, Quiescent, Reported, Actions, DeterminedPair, Answers, Sum;
    TotalIsParts(cfg, r, crew, a);
    TotalIsParts(cfg, r, crew, b);
    PairAnswers(cfg, r, a, b, weight);
    SumPlus(Part(a, r), Part(b, r), BothParts(a, b, r), Actions(crew.workers));
  }

  /** The two reports agree on the time spent, which no entry determines. */
  lemma SameDurations(cfg: Config, r: Plugins, crew: Crew)
    requires cfg.program == Program(r) && Quiescent(cfg, crew) && r.simple && r.full
    ensures Get(crew.counters, FullTime) == Get(crew.counters, TotalTime)
  {
    hide InClass, Program, Get, Quiescent, Actions;
    TotalIsParts(cfg, r, crew, FullTime);
    TotalIsParts(cfg, r, crew, TotalTime);
    SumMatch(Part(FullTime, r), Actions(crew.workers), Part(TotalTime, r), Actions(crew.workers));
  }

  // ---------- Clause by clause ----------

  lemma {:induction false} ExecutedClause(cfg: Config, r: Plugins, stream: seq<Job>, crew: Crew)
    requires cfg.program == Program(r) && Exact(cfg, stream, crew) && r.simple
    ensures Get(crew.counters, Executed) == ConnTotal(crew.counters) == |Filter(IsExecutable(), stream)|
  {
    hide InClass, Program, Get, ConnTotal, Filter, Quiescent, Actions;
    var weight := Indicator(IsExecutable());
    ExactKey(cfg, r, stream, crew, Executed, weight);
    TotalIsParts(cfg, r, crew, Executed);
    assert Answers(cfg, Ones(r), weight);
    SumCounts(IsExecutable(), stream);
  }

  lemma {:induction false} ConnClause(cfg: Config, r: Plugins, stream: seq<Job>, crew: Crew, c: nat)
    requires cfg.program == Program(r) && Exact(cfg, stream, crew) && r.simple
    ensures Get(crew.counters, Conn(c)) == |Filter(OfConn(c), stream)|
  {
    hide Exact, Program, Get, InClass;
    ExactKey(cfg, r, stream, crew, Conn(c), Indicator(OfConn(c)));
    SumCounts(OfConn(c), stream);
  }

  lemma {:induction false} ClassClause(cfg: Config, r: Plugins, stream: seq<Job>, crew: Crew, k: Statement)
    requires cfg.program == Program(r) && Exact(cfg, stream, crew) && r.full
    ensures Get(crew.counters, Count(k)) == |Filter(OfClass(k), stream)|
    ensures Get(crew.counters, CountFaster(k)) + Get(crew.counters, CountSlower(k)) ==
            |Filter(TimedOfClass(k), stream)|
  {
    hide Exact, Program, Get, InClass;
    ExactKey(cfg, r, stream, crew, Count(k), Indicator(OfClass(k)));
    ExactPair(cfg, r, stream, crew, CountFaster(k), CountSlower(k), Indicator(TimedOfClass(k)));
    SumCounts(OfClass(k), stream);
    SumCounts(TimedOfClass(k), stream);
  }

  lemma {:induction false} TimeClause(cfg: Config, r: Plugins, stream: seq<Job>, crew: Crew)
    requires cfg.program == Program(r) && Exact(cfg, stream, crew)
    ensures r.simple ==> Get(crew.counters, Quicker) + Get(crew.counters, Slower) == |Filter(HasTime(), stream)|
    ensures r.simple ==> Get(crew.counters, ExpectedTime) == Sum(LoggedMicros(), stream)
    ensures r.full ==> Get(crew.counters, FullExpectedTime) == Sum(LoggedMicros(), stream)
  {
    hide Exact, Program, Get, InClass;
    if r.simple {
      ExactPair(cfg, r, stream, crew, Quicker, Slower, Indicator(HasTime()));
      SumCounts(HasTime(), stream);
      ExactKey(cfg, r, stream, crew, ExpectedTime, LoggedMicros());
    }
    if r.full {
      ExactKey(cfg, r, stream, crew, FullExpectedTime, LoggedMicros());
    }
  }

  lemma {:induction false} RowsClause(cfg: Config, r: Plugins, stream: seq<Job>, crew: Crew)
    requires cfg.program == Program(r) && Exact(cfg, stream, crew) && r.simple
    ensures Get(crew.counters, ExpectedRows) == Sum(LoggedRows(), stream)
    ensures cfg.client.NullClient? ==> Get(crew.counters, ActualRows) == Sum(LoggedRows(), stream)
  {
    hide Exact, Program, Get, InClass;
    ExactKey(cfg, r, stream, crew, ExpectedRows, LoggedRows());
    if cfg.client.NullClient? {
      ExactKey(cfg, r, stream, crew, ActualRows, LoggedRows());
    }
  }

  lemma NothingFailed(cfg: Config, r: Plugins, stream: seq<Job>, crew: Crew)
    requires cfg.program == Program(r) && Exact(cfg, stream, crew) && cfg.client.NullClient? && r.simple
    ensures Get(crew.counters, Errors) == 0 && Get(crew.counters, RowsDiffer) == 0
  {
    hide Exact, Program, Get, InClass;
    ExactKey(cfg, r, stream, crew, Errors, Zero());
    ExactKey(cfg, r, stream, crew, RowsDiffer, Zero());
    SumVanishes(Zero(), stream);
  }

  /** The counters of a crew at rest make up the report of the stream. */
  lemma ExactMeansReport(cfg: Config, r: Plugins, stream: seq<Job>, crew: Crew)
    requires cfg.program == Program(r) && Exact(cfg, stream, crew)
    ensures ReportOf(cfg.client, r, stream, crew.counters)
  {
    hide Exact, Program, Get, ConnTotal, Filter, Sum, InClass;
    TimeClause(cfg, r, stream, crew);
    if r.simple {
      ExecutedClause(cfg, r, stream, crew);
      RowsClause(cfg, r, stream, crew);
      if cfg.client.NullClient? {
        NothingFailed(cfg, r, stream, crew);
      }
      forall c
        ensures Get(crew.counters, Conn(c)) == |Filter(OfConn(c), stream)|
      {
        ConnClause(cfg, r, stream, crew, c);
      }
    }
    if r.full {
      forall k
        ensures Get(crew.counters, Count(k)) == |Filter(OfClass(k), stream)|
        ensures Get(crew.counters, CountFaster(k)) + Get(crew.counters, CountSlower(k)) ==
                |Filter(TimedOfClass(k), stream)|
      {
        ClassClause(cfg, r, stream, crew, k);
      }
    }
    ExactIsQuiescent(cfg, stream, crew);
    if r.simple && r.full {
      SameDurations(cfg, r, crew);
    }
  }

  lemma ExactIsQuiescent(cfg: Config, stream: seq<Job>, crew: Crew)
    requires Exact(cfg, stream, crew)
    ensures Quiescent(cfg, crew)
  {
  }

  // ---------- Both dispatchers ----------

  /**
    What is known of a replay of the stream when all is done: the report its entries determine, that all and only
    its entries other than Quit commands were executed, and every counter as the sum over those executions.
   */
  ghost predicate Accounted(client: Client, r: Plugins, stream: seq<Job>, crew: Crew)
  {
    && ReportOf(client, r, stream, crew.counters)
    && multiset(JobsOf(Actions(crew.workers))) == multiset(Filter(IsExecutable(), stream))
    && CountersOf(r, Executions(crew), crew.counters)
    && (r.simple ==> SimpleOutcomes(r.ignoreRowDiffs, Executions(crew), crew.counters))
    && (r.full ==> FullOutcomes(Executions(crew), crew.counters))
  }

  lemma ExactIsAccounted(cfg: Config, r: Plugins, stream: seq<Job>, crew: Crew)
    requires cfg.program == Program(r) && Exact(cfg, stream, crew)
    ensures Accounted(cfg.client, r, stream, crew)
  {
    hide Exact, Quiescent, Program, ReportOf, CountersOf, Executions, JobsOf, Actions, Filter, SimpleOutcomes,
      FullOutcomes;
    ExactMeansReport(cfg, r, stream, crew);
    ExecutedExactly(cfg, stream, crew);
    ExactIsQuiescent(cfg, stream, crew);
    AllCounters(cfg, r, crew);
    if r.simple {
      SimpleByOutcome(r, Executions(crew), crew.counters);
    }
    if r.full {
      FullByOutcome(r, Executions(crew), crew.counters);
    }
  }

  /** One thread per connection: a finished run over any marked stream accounts for the stream. */
  lemma ReportPerConnection(cfg: Config, r: Plugins, stream: seq<Job>, trace: seq<PerConnection.State>)
    requires cfg.program == Program(r) && Marked(stream)
    requires PerConnectionSafety.Run(cfg, stream, trace) && trace[|trace| - 1].stage.Done?
    ensures Accounted(cfg.client, r, stream, trace[|trace| - 1].crew)
  {
    assert trace != [] && forall j :: j in stream ==> j.Query?;
    hide Marked, Program, Accounted, Exact, PerConnectionSafety.Run, PerConnectionSafety.Delivered;
    PerConnectionSafety.ExactlyOnceInOrder(cfg, stream, trace);
    ExactPerConnection(cfg, stream, trace[|trace| - 1]);
    ExactIsAccounted(cfg, r, stream, trace[|trace| - 1].crew);
  }

  /** The thread pool: the same, whatever the number of workers and the hash. */
  lemma ReportPool(cfg: Config, r: Plugins, pool: ThreadPool.Pool, stream: seq<Job>, trace: seq<ThreadPool.State>)
    requires cfg.program == Program(r) && pool.size >= 1 && ThreadPool.Unmarked(stream)
    requires ThreadPool.Run(cfg, pool, stream, trace) && trace[|trace| - 1].stage.Done?
    ensures Accounted(cfg.client, r, stream, trace[|trace| - 1].crew)
  {
    assert trace != [] && forall j :: j in stream ==> j.Query?;
    hide ThreadPool.Unmarked, Program, Accounted, Exact, ThreadPool.Run, ThreadPool.Delivered;
    ThreadPool.SharesHandledInOrder(cfg, pool, stream, trace);
    ExactPool(cfg, pool, stream, trace[|trace| - 1]);
    ExactIsAccounted(cfg, r, stream, trace[|trace| - 1].crew);
  }
}
