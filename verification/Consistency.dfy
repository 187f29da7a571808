/** What a reader of the report counters can rely on in every reachable state, while workers are still counting. */
module Consistency {
  import opened Seqs
  import opened Jobs
  import opened Reports
  import opened ReportOrder
  import opened Workers
  import PerConnection
  import PerConnectionSafety
  import ThreadPool

  /** The active reports' increments for an executed query. */
  function ExpectedOf(j: Job): Expected
    requires j.Query?
  {
    Expected(j.conn, j.rows, j.micros, j.text)
  }

  function Program(r: Plugins): (Job, Outcome) -> seq<Inc>
  {
    (j: Job, o: Outcome) => if j.Query? then ReportOps(r, ExpectedOf(j), o) else []
  }

  function ReplayConfig(depth: nat, client: Client, r: Plugins): Config
  {
    Config(depth, client, Program(r), MAX_OPS)
  }

  lemma ReplayConfigValid(depth: nat, client: Client, r: Plugins)
    requires depth >= 1
    ensures ValidConfig(ReplayConfig(depth, client, r))
  {
    forall j: Job, o: Outcome
      ensures |Program(r)(j, o)| <= MAX_OPS
    {
      if j.Query? {
        ReportOpsBounded(r, ExpectedOf(j), o);
      }
    }
  }

  lemma ProgramPrefix(r: Plugins, law: Law, j: Job, o: Outcome, n: nat)
    requires n <= |Program(r)(j, o)|
    ensures Dominated(First(law), Second(law), Bound(law), Program(r)(j, o)[..n])
  {
    hide Dominated, First, Second, Bound, ReportOps;
    if j.Query? {
      ProgramObeys(law, r, ExpectedOf(j), o);
      assert HoldsUpTo(law, ReportOps(r, ExpectedOf(j), o), n);
    } else {
      NothingDominated(First(law), Second(law), Bound(law), Program(r)(j, o)[..n]);
    }
  }

  lemma {:induction false} LogDominated(cfg: Config, r: Plugins, law: Law, log: seq<Action>)
    requires cfg.program == Program(r)
    ensures Dominated(First(law), Second(law), Bound(law), LogOps(cfg, log))
  {
    hide Dominated, First, Second, Bound, Program;
    if log == [] {
      NothingDominated(First(law), Second(law), Bound(law), LogOps(cfg, log));
    } else {
      var init, a := log[..|log| - 1], log[|log| - 1];
      LogDominated(cfg, r, law, init);
      if a.Ran? {
        var program := cfg.program(a.job, a.outcome);
        ProgramPrefix(r, law, a.job, a.outcome, |program|);
        assert program[..|program|] == program;
        DominatedAppend(First(law), Second(law), Bound(law), LogOps(cfg, init), program);
      } else {
        assert LogOps(cfg, init) + [] == LogOps(cfg, init);
      }
    }
  }

  /** Each worker's increments so far obey the law. */
  lemma WorkerDominated(cfg: Config, r: Plugins, law: Law, w: Worker, fed: seq<Job>)
    requires cfg.program == Program(r) && WorkerOk(cfg, w, fed)
    ensures Dominated(First(law), Second(law), Bound(law), w.ops)
  {
    hide Dominated, First, Second, Bound, Program, LogOps;
    LogDominated(cfg, r, law, w.log);
    var partial := PartialOps(cfg, w);
    if w.phase.Reporting? {
      ProgramPrefix(r, law, w.phase.job, w.phase.outcome, w.phase.n);
    } else {
      NothingDominated(First(law), Second(law), Bound(law), partial);
    }
    DominatedAppend(First(law), Second(law), Bound(law), LogOps(cfg, w.log), partial);
  }

  ghost predicate CrewDominated(law: Law, crew: Crew)
  {
    forall h :: 0 <= h < |crew.workers| ==> Dominated(First(law), Second(law), Bound(law), crew.workers[h].ops)
  }

  lemma {:induction false} TallyDominated(f: Inc -> int, g: Inc -> int, h: Inc -> int, ws: seq<Worker>)
    requires forall i :: 0 <= i < |ws| ==> Dominated(f, g, h, ws[i].ops)
    ensures Sum(TallyOf(f), ws) + Sum(TallyOf(g), ws) <= Sum(TallyOf(h), ws)
  {
    if ws != [] {
      TallyDominated(f, g, h, ws[..|ws| - 1]);
      assert Dominated(f, g, h, ws[|ws| - 1].ops);
    }
  }

  /** What a reader of the counters can rely on while the workers are still counting. */
  ghost predicate CountersConsistent(m: Counters)
  {
    && Get(m, Quicker) + Get(m, Slower) <= Get(m, Executed) <= ConnTotal(m)
    && forall k :: Get(m, CountFaster(k)) + Get(m, CountSlower(k)) <= Get(m, Count(k))
  }

  lemma LawHolds(law: Law, crew: Crew)
    requires CrewDominated(law, crew)
    ensures Sum(TallyOf(First(law)), crew.workers) + Sum(TallyOf(Second(law)), crew.workers)
            <= Sum(TallyOf(Bound(law)), crew.workers)
  {
    TallyDominated(First(law), Second(law), Bound(law), crew.workers);
  }

  lemma {:induction false} SumNothing(ws: seq<Worker>)
    ensures Sum(TallyOf(Nothing()), ws) == 0
  {
    if ws != [] {
      SumNothing(ws[..|ws| - 1]);
      SumVanishes(Nothing(), ws[|ws| - 1].ops);
    }
  }

  lemma CrewConsistent(crew: Crew)
    requires CountersAgree(crew) && forall law :: CrewDominated(law, crew)
    ensures CountersConsistent(crew.counters)
  {
    hide CrewDominated, Sum, TallyOf, ConnTotal, Get;
    assert CrewDominated(TimedWithinExecuted, crew) && CrewDominated(ExecutedWithinConnections, crew);
    LawHolds(TimedWithinExecuted, crew);
    LawHolds(ExecutedWithinConnections, crew);
    SumNothing(crew.workers);
    forall k
      ensures Get(crew.counters, CountFaster(k)) + Get(crew.counters, CountSlower(k)) <= Get(crew.counters, Count(k))
    {
      assert CrewDominated(SpeedWithinClass(k), crew);
      LawHolds(SpeedWithinClass(k), crew);
    }
  }

  // ---------- Whole runs ----------

  /** However many threads are counting, thread-per-connection never shows inconsistent counters. */
  lemma ConsistentPerConnection(cfg: Config, r: Plugins, stream: seq<Job>,
                                                   trace: seq<PerConnection.State>, i: nat)
    requires cfg.program == Program(r)
    requires Marked(stream) && PerConnectionSafety.Run(cfg, stream, trace) && i < |trace|
    ensures CountersConsistent(trace[i].crew.counters)
  {
    hide Marked, PerConnectionSafety.Run, CountersConsistent, CrewDominated, Program;
    PerConnectionSafety.RunKeepsInv(cfg, stream, trace, i);
    var s := trace[i];
    hide WorkerOk, CountersAgree;
    forall law, h | 0 <= h < |s.crew.workers|
      ensures Dominated(First(law), Second(law), Bound(law), s.crew.workers[h].ops)
    {
      WorkerDominated(cfg, r, law, s.crew.workers[h],
                      PerConnection.FedTo(stream, PerConnection.Pushed(s), s.crew.workers[h].key));
    }
    AllDominated(s.crew);
    CrewConsistent(s.crew);
  }

  lemma ConsistentPool(cfg: Config, r: Plugins, pool: ThreadPool.Pool, stream: seq<Job>,
                                          trace: seq<ThreadPool.State>, i: nat)
    requires cfg.program == Program(r) && pool.size >= 1
    requires ThreadPool.Unmarked(stream) && ThreadPool.Run(cfg, pool, stream, trace) && i < |trace|
    ensures CountersConsistent(trace[i].crew.counters)
  {
    hide ThreadPool.Unmarked, ThreadPool.Run, CountersConsistent, CrewDominated, Program;
    ThreadPool.RunKeepsInv(cfg, pool, stream, trace, i);
    var s := trace[i];
    hide WorkerOk, CountersAgree;
    forall law, h | 0 <= h < |s.crew.workers|
      ensures Dominated(First(law), Second(law), Bound(law), s.crew.workers[h].ops)
    {
      WorkerDominated(cfg, r, law, s.crew.workers[h],
                      ThreadPool.FedTo(pool, stream, ThreadPool.Pushed(s), ThreadPool.Told(s), h));
    }
    AllDominated(s.crew);
    CrewConsistent(s.crew);
  }

  lemma AllDominated(crew: Crew)
    requires forall law, h :: 0 <= h < |crew.workers| ==>
               Dominated(First(law), Second(law), Bound(law), crew.workers[h].ops)
    ensures forall law :: CrewDominated(law, crew)
  {
    hide Dominated;
  }
}
