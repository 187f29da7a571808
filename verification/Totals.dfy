/**
  What the counters hold when all workers are done: the sums over the executions, whatever the schedule, and
  hence the sums over the entries where an execution adds what its entry determines.
 */
module Totals {
  import opened Seqs
  import opened Jobs
  import opened Reports
  import opened Workers
  import PerConnection
  import PerConnectionSafety
  import ThreadPool

  /** What an action has added to the counters f looks at. */
  function Cost(cfg: Config, f: Inc -> int): Action -> int
  {
    (a: Action) => if a.Ran? then Sum(f, cfg.program(a.job, a.outcome)) else 0
  }

  /** All that the workers did. */
  function Actions(ws: seq<Worker>): seq<Action>
  {
    if ws == [] then [] else Actions(ws[..|ws| - 1]) + ws[|ws| - 1].log
  }

  function IsExecution(): Action -> bool { (a: Action) => a.Ran? }

  function Executions(crew: Crew): seq<Action> { Filter(IsExecution(), Actions(crew.workers)) }

  /** Nobody is in the middle of an execution. */
  ghost predicate Quiescent(cfg: Config, crew: Crew)
  {
    && CountersAgree(crew)
    && forall h :: 0 <= h < |crew.workers| ==> crew.workers[h].ops == LogOps(cfg, crew.workers[h].log)
  }

  lemma {:induction false} LogCost(cfg: Config, f: Inc -> int, log: seq<Action>)
    ensures Sum(f, LogOps(cfg, log)) == Sum(Cost(cfg, f), log)
  {
    if log != [] {
      var init, a := log[..|log| - 1], log[|log| - 1];
      LogCost(cfg, f, init);
      SumAppend(f, LogOps(cfg, init), if a.Ran? then cfg.program(a.job, a.outcome) else []);
    }
  }

  lemma {:induction false} CrewCost(cfg: Config, f: Inc -> int, ws: seq<Worker>)
    requires forall h :: 0 <= h < |ws| ==> ws[h].ops == LogOps(cfg, ws[h].log)
    ensures Sum(TallyOf(f), ws) == Sum(Cost(cfg, f), Actions(ws))
  {
    if ws != [] {
      var init, w := ws[..|ws| - 1], ws[|ws| - 1];
      CrewCost(cfg, f, init);
      LogCost(cfg, f, w.log);
      SumAppend(Cost(cfg, f), Actions(init), w.log);
    }
  }

  /** At rest every counter is the sum over the executions. */
  lemma TotalsOfExecutions(cfg: Config, crew: Crew, k: Key)
    requires Quiescent(cfg, crew)
    ensures Get(crew.counters, k) == Sum(Cost(cfg, AmountTo(k)), Executions(crew))
    ensures ConnTotal(crew.counters) == Sum(Cost(cfg, ConnAmount()), Executions(crew))
  {
    CrewCost(cfg, AmountTo(k), crew.workers);
    CrewCost(cfg, ConnAmount(), crew.workers);
    SumFiltered(Cost(cfg, AmountTo(k)), IsExecution(), Actions(crew.workers));
    SumFiltered(Cost(cfg, ConnAmount()), IsExecution(), Actions(crew.workers));
  }

  /** Two crews that made the same executions, in whatever order and on whatever threads, end with the same totals. */
  lemma ScheduleIrrelevant(cfg: Config, a: Crew, b: Crew)
    requires Quiescent(cfg, a) && Quiescent(cfg, b)
    requires multiset(Executions(a)) == multiset(Executions(b))
    ensures forall k :: Get(a.counters, k) == Get(b.counters, k)
    ensures ConnTotal(a.counters) == ConnTotal(b.counters)
  {
    hide Quiescent, Executions, Cost, Get, ConnTotal;
    forall k
      ensures Get(a.counters, k) == Get(b.counters, k)
    {
      TotalsOfExecutions(cfg, a, k);
      TotalsOfExecutions(cfg, b, k);
      SumPermuted(Cost(cfg, AmountTo(k)), Executions(a), Executions(b));
    }
    TotalsOfExecutions(cfg, a, Executed);
    TotalsOfExecutions(cfg, b, Executed);
    SumPermuted(Cost(cfg, ConnAmount()), Executions(a), Executions(b));
  }

  // ---------- Sums over the entries ----------

  predicate Executable(j: Job) { j.Query? && !j.quit }

  /** Whatever a worker does with an entry, g gives the action the weight of the entry; FinishEntry weighs nothing. */
  ghost predicate Answers(cfg: Config, g: Action -> int, weight: Job -> int)
  {
    g(Skipped) == 0 && forall j, a :: LoggedAs(cfg, j, a) ==> g(a) == weight(j)
  }

  lemma {:induction false} LoggedSum(cfg: Config, g: Action -> int, weight: Job -> int, log: seq<Action>,
                                     jobs: seq<Job>)
    requires Answers(cfg, g, weight) && Logged(cfg, log, jobs)
    ensures Sum(g, log) == Sum(weight, jobs)
  {
    forall i | 0 <= i < |log|
      ensures g(log[i]) == weight(jobs[i])
    {
      assert LoggedAs(cfg, jobs[i], log[i]);
    }
    SumMatch(g, log, weight, jobs);
  }

  function LogSum(g: Action -> int): Worker -> int { (w: Worker) => Sum(g, w.log) }

  lemma {:induction false} ActionsSum(g: Action -> int, ws: seq<Worker>)
    ensures Sum(g, Actions(ws)) == Sum(LogSum(g), ws)
  {
    if ws != [] {
      var init := ws[..|ws| - 1];
      ActionsSum(g, init);
      SumAppend(g, Actions(init), ws[|ws| - 1].log);
    }
  }

  /** Whatever the entries determine of the actions sums up to its total over the stream. */
  ghost predicate Exact(cfg: Config, stream: seq<Job>, crew: Crew)
  {
    && Quiescent(cfg, crew)
    && forall g, weight :: Answers(cfg, g, weight) ==> Sum(g, Actions(crew.workers)) == Sum(weight, stream)
  }

  /** If the workers' plans divide up the stream, the sums over their logs add up to its weight. */
  lemma {:induction false} DividedWork(cfg: Config, g: Action -> int, weight: Job -> int, stream: seq<Job>,
                                       ws: seq<Worker>, picks: seq<Job -> bool>)
    requires Answers(cfg, g, weight) && |ws| == |picks|
    requires forall h :: 0 <= h < |ws| ==> Logged(cfg, ws[h].log, ws[h].popped)
    requires forall h :: 0 <= h < |ws| ==> Sum(weight, ws[h].popped) == Sum(weight, Filter(picks[h], stream))
    requires forall i :: 0 <= i < |stream| ==> TakenOnce(picks, stream[i])
    ensures Sum(g, Actions(ws)) == Sum(weight, stream)
  {
    hide Answers, Logged, TakenOnce;
    forall h | 0 <= h < |ws|
      ensures LogSum(g)(ws[h]) == Share(weight, stream)(picks[h])
    {
      LoggedSum(cfg, g, weight, ws[h].log, ws[h].popped);
    }
    ActionsSum(g, ws);
    SumMatch(LogSum(g), ws, Share(weight, stream), picks);
    SharesTotal(weight, picks, stream);
  }

  // ---------- What has been executed ----------

  function JobsOf(actions: seq<Action>): seq<Job>
  {
    if actions == [] then []
    else
      var a := actions[|actions| - 1];
      JobsOf(actions[..|actions| - 1]) + (if a.Ran? then [a.job] else [])
  }

  function RunsOf(x: Job): Action -> int { (a: Action) => if a.Ran? && a.job == x then 1 else 0 }

  function OneIf(p: Job -> bool, x: Job): Job -> int { (j: Job) => if p(j) && j == x then 1 else 0 }

  function IsExecutable(): Job -> bool { (j: Job) => Executable(j) }

  lemma {:induction false} JobsCount(actions: seq<Action>, x: Job)
    ensures multiset(JobsOf(actions))[x] == Sum(RunsOf(x), actions)
  {
    if actions != [] {
      JobsCount(actions[..|actions| - 1], x);
    }
  }

  lemma {:induction false} FilterCount(p: Job -> bool, s: seq<Job>, x: Job)
    ensures multiset(Filter(p, s))[x] == Sum(OneIf(p, x), s)
  {
    if s != [] {
      FilterCount(p, s[..|s| - 1], x);
    }
  }

  /** The entries executed are exactly the stream's entries other than Quit commands, each as often as it occurs. */
  lemma {:induction false} ExecutedExactly(cfg: Config, stream: seq<Job>, crew: Crew)
    requires Exact(cfg, stream, crew)
    ensures multiset(JobsOf(Actions(crew.workers))) == multiset(Filter(IsExecutable(), stream))
  {
    hide Quiescent, Actions, JobsOf, Filter, Sum;
    forall x: Job
      ensures multiset(JobsOf(Actions(crew.workers)))[x] == multiset(Filter(IsExecutable(), stream))[x]
    {
      JobsCount(Actions(crew.workers), x);
      FilterCount(IsExecutable(), stream, x);
      assert Answers(cfg, RunsOf(x), OneIf(IsExecutable(), x));
    }
  }

  // ---------- Both dispatchers ----------

  function ConnPicks(ws: seq<Worker>): (ps: seq<Job -> bool>)
    ensures |ps| == |ws| && forall h :: 0 <= h < |ps| ==> ps[h] == ByConn(ws[h].key)
  {
    seq(|ws|, h requires 0 <= h < |ws| => ByConn(ws[h].key))
  }

  lemma ConnTakenOnce(crew: Crew, j: Job)
    requires PerConnection.KeysDistinct(crew) && j.Query? && PerConnection.HasWorker(crew, j.conn)
    ensures TakenOnce(ConnPicks(crew.workers), j)
  {
    var picks := ConnPicks(crew.workers);
    var h :| 0 <= h < |crew.workers| && crew.workers[h].key == j.conn;
    assert picks[h](j) && forall g :: 0 <= g < |picks| && g != h ==> !picks[g](j);
  }

  lemma ExactPerConnection(cfg: Config, stream: seq<Job>, s: PerConnection.State)
    requires PerConnectionSafety.Delivered(cfg, stream, s) && forall j :: j in stream ==> j.Query?
    ensures Exact(cfg, stream, s.crew)
  {
    hide PerConnection.KeysDistinct, PerConnection.HasWorker, CountersAgree, Logged, LogOps, Answers, TakenOnce,
      Actions;
    var ws, picks := s.crew.workers, ConnPicks(s.crew.workers);
    forall i | 0 <= i < |stream|
      ensures TakenOnce(picks, stream[i])
    {
      ConnTakenOnce(s.crew, stream[i]);
    }
    forall h | 0 <= h < |ws|
      ensures Logged(cfg, ws[h].log, ws[h].popped) && ws[h].ops == LogOps(cfg, ws[h].log)
      ensures ws[h].popped == Filter(picks[h], stream)
    {
      assert PerConnection.Complete(cfg, stream, ws[h]);
    }
    forall g, weight | Answers(cfg, g, weight)
      ensures Sum(g, Actions(ws)) == Sum(weight, stream)
    {
      DividedWork(cfg, g, weight, stream, ws, picks);
    }
  }

  function PoolPicks(pool: ThreadPool.Pool): (ps: seq<Job -> bool>)
    requires pool.size >= 1
    ensures |ps| == pool.size && forall h :: 0 <= h < |ps| ==> ps[h] == ThreadPool.ForWorker(pool, h)
  {
    seq(pool.size, h requires 0 <= h < pool.size => ThreadPool.ForWorker(pool, h))
  }

  lemma PoolTakenOnce(pool: ThreadPool.Pool, j: Job)
    requires pool.size >= 1 && j.Query?
    ensures TakenOnce(PoolPicks(pool), j)
  {
    var picks, h := PoolPicks(pool), pool.hash(j.conn) % pool.size;
    assert picks[h](j) && forall g :: 0 <= g < |picks| && g != h ==> !picks[g](j);
  }

  /** The FinishEntry weighs nothing. */
  lemma {:induction false} PlanWeight(cfg: Config, g: Action -> int, weight: Job -> int, pool: ThreadPool.Pool,
                                      stream: seq<Job>, h: nat)
    requires pool.size >= 1 && Answers(cfg, g, weight)
    ensures Sum(weight, ThreadPool.Plan(pool, stream, h)) == Sum(weight, Filter(ThreadPool.ForWorker(pool, h), stream))
  {
    SumAppend(weight, Filter(ThreadPool.ForWorker(pool, h), stream), [Finish]);
    assert LoggedAs(cfg, Finish, Skipped);
    SumOne(weight, Finish);
  }

  lemma ExactPool(cfg: Config, pool: ThreadPool.Pool, stream: seq<Job>, s: ThreadPool.State)
    requires pool.size >= 1 && ThreadPool.Delivered(cfg, pool, stream, s) && forall j :: j in stream ==> j.Query?
    ensures Exact(cfg, stream, s.crew)
  {
    hide CountersAgree, Logged, LogOps, Answers, TakenOnce, ThreadPool.Plan, Actions;
    var ws, picks := s.crew.workers, PoolPicks(pool);
    forall i | 0 <= i < |stream|
      ensures TakenOnce(picks, stream[i])
    {
      PoolTakenOnce(pool, stream[i]);
    }
    forall h | 0 <= h < |ws|
      ensures Logged(cfg, ws[h].log, ws[h].popped) && ws[h].ops == LogOps(cfg, ws[h].log)
      ensures ws[h].popped == ThreadPool.Plan(pool, stream, h)
    {
      assert ThreadPool.Complete(cfg, pool, stream, ws[h], h);
    }
    forall g, weight | Answers(cfg, g, weight)
      ensures Sum(g, Actions(ws)) == Sum(weight, stream)
    {
      forall h | 0 <= h < |ws|
        ensures Sum(weight, ws[h].popped) == Sum(weight, Filter(picks[h], stream))
      {
        PlanWeight(cfg, g, weight, pool, stream, h);
      }
      DividedWork(cfg, g, weight, stream, ws, picks);
    }
  }
}
