/**
  The worker threads, as small steps of their loop (pop, reconnect or execute, test for shutdown), and the crew
  of all workers with the report counters they share.
 */
module Workers {
  import opened Seqs
  import opened Jobs
  import opened Reports

  /** The null client reports what the log expects; a server may report anything. */
  datatype Client = NullClient | Server

  /** The queue depth, the client, and the increments the active reports make for an executed query. */
  datatype Config = Config(depth: nat, client: Client, program: (Job, Outcome) -> seq<Inc>, maxOps: nat)

  /** A queue holds at least one entry, and no report program is longer than maxOps. */
  ghost predicate ValidConfig(cfg: Config)
  {
    cfg.depth >= 1 && forall j, o :: |cfg.program(j, o)| <= cfg.maxOps
  }

  predicate Allowed(client: Client, j: Job, o: Outcome)
    requires j.Query?
  {
    client.NullClient? ==> o.error == 0 && o.rows == j.rows
  }

  /** Where a worker is in its loop; Reporting has made the first n increments of the program. */
  datatype Phase =
    | AtPop
    | Handling(job: Job)
    | Reporting(job: Job, outcome: Outcome, n: nat)
    | AtTest(job: Job)
    | Exited

  /** What a worker did with a popped entry. */
  datatype Action = Reconnected | Ran(job: Job, outcome: Outcome) | Skipped

  /** A worker: what it serves, its bounded queue, its phase, and the history of what it popped, did and counted. */
  datatype Worker = Worker(key: nat, queue: seq<Job>, phase: Phase, popped: seq<Job>, log: seq<Action>, ops: seq<Inc>)

  function NewWorker(key: nat): Worker { Worker(key, [], AtPop, [], [], []) }

  // ---------- The steps of DBThread::run ----------

  ghost predicate Pops(w: Worker, v: Worker)
  {
    && w.phase.AtPop? && w.queue != []
    && v == w.(queue := w.queue[1..], popped := w.popped + [w.queue[0]], phase := Handling(w.queue[0]))
  }

  /** A Quit entry closes the session and opens a new one; execution goes on at the loop test. */
  ghost predicate Reconnects(w: Worker, v: Worker)
  {
    && w.phase.Handling? && w.phase.job.Query? && w.phase.job.quit
    && v == w.(phase := AtTest(w.phase.job), log := w.log + [Reconnected])
  }

  /** Executing the FinishEntry does nothing. */
  ghost predicate Skips(w: Worker, v: Worker)
  {
    && w.phase.Handling? && w.phase.job.Finish?
    && v == w.(phase := AtTest(w.phase.job), log := w.log + [Skipped])
  }

  ghost predicate Executes(cfg: Config, w: Worker, v: Worker)
  {
    && w.phase.Handling? && w.phase.job.Query? && !w.phase.job.quit
    && v.phase.Reporting? && Allowed(cfg.client, w.phase.job, v.phase.outcome)
    && v == w.(phase := Reporting(w.phase.job, v.phase.outcome, 0))
  }

  /** One atomic increment of a report counter. */
  ghost predicate Counts(cfg: Config, w: Worker, v: Worker, inc: Inc)
  {
    && w.phase.Reporting? && w.phase.n < |cfg.program(w.phase.job, w.phase.outcome)|
    && inc == cfg.program(w.phase.job, w.phase.outcome)[w.phase.n]
    && v == w.(phase := w.phase.(n := w.phase.n + 1), ops := w.ops + [inc])
  }

  ghost predicate Completes(cfg: Config, w: Worker, v: Worker)
  {
    && w.phase.Reporting? && w.phase.n == |cfg.program(w.phase.job, w.phase.outcome)|
    && v == w.(phase := AtTest(w.phase.job), log := w.log + [Ran(w.phase.job, w.phase.outcome)])
  }

  ghost predicate Tests(w: Worker, v: Worker)
  {
    && w.phase.AtTest?
    && v == w.(phase := if Shuts(w.phase.job) then Exited else AtPop)
  }

  ghost predicate SilentStep(cfg: Config, w: Worker, v: Worker)
  {
    Pops(w, v) || Reconnects(w, v) || Skips(w, v) || Executes(cfg, w, v) || Completes(cfg, w, v) || Tests(w, v)
  }

  // ---------- What every step keeps ----------

  ghost predicate LoggedAs(cfg: Config, j: Job, a: Action)
  {
    match j
    case Finish => a == Skipped
    case Query(_, quit, _, _, _, _) =>
      if quit then a == Reconnected else a.Ran? && a.job == j && Allowed(cfg.client, j, a.outcome)
  }

  /** The log answers the jobs one by one: Quit entries reconnected, all other queries executed. */
  ghost predicate Logged(cfg: Config, log: seq<Action>, jobs: seq<Job>)
  {
    |log| == |jobs| && forall i :: 0 <= i < |jobs| ==> LoggedAs(cfg, jobs[i], log[i])
  }

  /** The increments of all actions of a log. */
  function LogOps(cfg: Config, log: seq<Action>): seq<Inc>
  {
    if log == [] then []
    else
      var a := log[|log| - 1];
      LogOps(cfg, log[..|log| - 1]) + (if a.Ran? then cfg.program(a.job, a.outcome) else [])
  }

  /** The part of the current program already counted. */
  function PartialOps(cfg: Config, w: Worker): seq<Inc>
  {
    if w.phase.Reporting? && w.phase.n <= |cfg.program(w.phase.job, w.phase.outcome)|
    then cfg.program(w.phase.job, w.phase.outcome)[..w.phase.n] else []
  }

  /** The entry between pop and loop test. */
  predicate Holds(w: Worker, j: Job) { w.popped != [] && w.popped[|w.popped| - 1] == j }

  ghost predicate PhaseOk(cfg: Config, w: Worker)
  {
    match w.phase
    case AtPop =>
      && Logged(cfg, w.log, w.popped)
      && (w.popped != [] ==> !Shuts(w.popped[|w.popped| - 1]))
    case Handling(j) => Holds(w, j) && Logged(cfg, w.log, w.popped[..|w.popped| - 1])
    case Reporting(j, o, n) =>
      && Holds(w, j) && Logged(cfg, w.log, w.popped[..|w.popped| - 1])
      && j.Query? && !j.quit && Allowed(cfg.client, j, o) && n <= |cfg.program(j, o)|
    case AtTest(j) => Holds(w, j) && Logged(cfg, w.log, w.popped)
    case Exited => Logged(cfg, w.log, w.popped) && w.popped != [] && Shuts(w.popped[|w.popped| - 1])
  }

  /**
    The worker's invariant, fed being all entries pushed to it: nothing is lost, duplicated or reordered, it went
    on only after entries without shutdown, and it counted exactly what it executed.
   */
  ghost predicate WorkerOk(cfg: Config, w: Worker, fed: seq<Job>)
  {
    && w.popped + w.queue == fed
    && (forall i :: 0 <= i < |w.popped| - 1 ==> !Shuts(w.popped[i]))
    && w.ops == LogOps(cfg, w.log) + PartialOps(cfg, w)
    && PhaseOk(cfg, w)
  }

  lemma NewWorkerOk(cfg: Config, key: nat)
    ensures WorkerOk(cfg, NewWorker(key), [])
  {
  }

  lemma {:induction false} LogOpsPush(cfg: Config, log: seq<Action>, a: Action)
    ensures LogOps(cfg, log + [a]) == LogOps(cfg, log) + (if a.Ran? then cfg.program(a.job, a.outcome) else [])
  {
    assert (log + [a])[..|log + [a]| - 1] == log;
  }

  lemma LoggedPush(cfg: Config, log: seq<Action>, jobs: seq<Job>, a: Action)
    requires jobs != [] && Logged(cfg, log, jobs[..|jobs| - 1]) && LoggedAs(cfg, jobs[|jobs| - 1], a)
    ensures Logged(cfg, log + [a], jobs)
  {
    assert forall i :: 0 <= i < |log| ==> jobs[i] == jobs[..|jobs| - 1][i];
  }

  lemma PopOk(cfg: Config, w: Worker, v: Worker, fed: seq<Job>)
    requires WorkerOk(cfg, w, fed) && Pops(w, v)
    ensures WorkerOk(cfg, v, fed)
  {
    assert v.popped[..|v.popped| - 1] == w.popped;
    assert v.popped + v.queue == w.popped + w.queue;
    assert forall i :: 0 <= i < |w.popped| ==> v.popped[i] == w.popped[i];
  }

  /** The entry in hand has been dealt with by action a. */
  lemma {:induction false} ActionOk(cfg: Config, w: Worker, v: Worker, a: Action, fed: seq<Job>)
    requires WorkerOk(cfg, w, fed) && (w.phase.Handling? || w.phase.Reporting?) && LoggedAs(cfg, w.phase.job, a)
    requires v == w.(phase := AtTest(w.phase.job), log := w.log + [a])
    requires w.ops == LogOps(cfg, w.log) + (if a.Ran? then cfg.program(a.job, a.outcome) else [])
    ensures WorkerOk(cfg, v, fed)
  {
    LogOpsPush(cfg, w.log, a);
    LoggedPush(cfg, w.log, w.popped, a);
  }

  lemma SilentStepOk(cfg: Config, w: Worker, v: Worker, fed: seq<Job>)
    requires WorkerOk(cfg, w, fed) && SilentStep(cfg, w, v)
    ensures WorkerOk(cfg, v, fed) && v.key == w.key && v.ops == w.ops
  {
    if Pops(w, v) {
      PopOk(cfg, w, v, fed);
    } else if Reconnects(w, v) {
      ActionOk(cfg, w, v, Reconnected, fed);
    } else if Skips(w, v) {
      ActionOk(cfg, w, v, Skipped, fed);
    } else if Completes(cfg, w, v) {
      var program := cfg.program(w.phase.job, w.phase.outcome);
      assert program[..|program|] == program;
      ActionOk(cfg, w, v, Ran(w.phase.job, w.phase.outcome), fed);
    }
  }

  lemma CountStepOk(cfg: Config, w: Worker, v: Worker, inc: Inc, fed: seq<Job>)
    requires WorkerOk(cfg, w, fed) && Counts(cfg, w, v, inc)
    ensures WorkerOk(cfg, v, fed) && v.key == w.key && v.ops == w.ops + [inc]
  {
    var program := cfg.program(w.phase.job, w.phase.outcome);
    assert program[..w.phase.n + 1] == program[..w.phase.n] + [inc];
  }

  /** Pushing an entry onto the queue. */
  lemma PushOk(cfg: Config, w: Worker, fed: seq<Job>, j: Job)
    requires WorkerOk(cfg, w, fed)
    ensures WorkerOk(cfg, w.(queue := w.queue + [j]), fed + [j])
  {
  }

  // ---------- Plans: what a worker is fed in all ----------

  /** A worker exits exactly when it has been fed its whole plan and has handled all of it. */
  lemma {:induction false} ExitMeansPlanDone(cfg: Config, w: Worker, fed: seq<Job>, plan: seq<Job>)
    requires WorkerOk(cfg, w, fed) && fed <= plan && IsPlan(plan)
    ensures w.phase.Exited? ==> fed == plan && w.popped == plan && w.queue == [] && Logged(cfg, w.log, plan)
    ensures w.phase.Exited? ==> w.ops == LogOps(cfg, w.log)
    ensures fed == plan && w.queue == [] ==> !w.phase.AtPop?
  {
    if w.phase.Exited? {
      var last := |w.popped| - 1;
      assert plan[last] == fed[last] == w.popped[last];
      assert fed == plan && w.popped == plan;
      assert LogOps(cfg, w.log) + [] == LogOps(cfg, w.log);
    }
    if fed == plan && w.queue == [] {
      assert w.popped == plan;
    }
  }

  /** The worker can take a step by itself. */
  predicate CanStep(w: Worker)
  {
    match w.phase
    case AtPop => w.queue != []
    case Exited => false
    case _ => true
  }

  /** How many steps a worker has left for the entries it has got. */
  function Rank(cfg: Config): Worker -> int
  {
    (w: Worker) => |w.queue| * (cfg.maxOps + 4) + PhaseRank(cfg, w.phase)
  }

  function PhaseRank(cfg: Config, p: Phase): int
  {
    match p
    case AtPop => 0
    case Handling(_) => cfg.maxOps + 3
    case Reporting(_, _, n) => cfg.maxOps + 2 - n
    case AtTest(_) => 1
    case Exited => 0
  }

  lemma OneMore(n: nat, weight: nat)
    ensures (n + 1) * weight == n * weight + weight
  {
  }

  lemma RankNonNegative(cfg: Config, w: Worker, fed: seq<Job>)
    requires ValidConfig(cfg) && WorkerOk(cfg, w, fed)
    ensures Rank(cfg)(w) >= PhaseRank(cfg, w.phase) >= 0
  {
  }

  lemma SilentStepRank(cfg: Config, w: Worker, v: Worker, fed: seq<Job>)
    requires ValidConfig(cfg) && WorkerOk(cfg, w, fed) && SilentStep(cfg, w, v)
    ensures Rank(cfg)(v) < Rank(cfg)(w)
  {
    if Pops(w, v) {
      OneMore(|v.queue|, cfg.maxOps + 4);
    }
  }

  // ---------- The crew ----------

  /** All workers, in order of creation, and the counters they share. */
  datatype Crew = Crew(workers: seq<Worker>, counters: Counters)

  /** One step of worker h, with the counter increment it makes, if any. */
  ghost predicate CrewStepAt(cfg: Config, c: Crew, d: Crew, h: nat)
  {
    && h < |c.workers| == |d.workers|
    && d.workers == c.workers[h := d.workers[h]]
    && ( (SilentStep(cfg, c.workers[h], d.workers[h]) && d.counters == c.counters)
       || (exists inc :: Counts(cfg, c.workers[h], d.workers[h], inc) && d.counters == Apply(c.counters, inc)))
  }

  function TallyOf(f: Inc -> int): Worker -> int { (w: Worker) => Sum(f, w.ops) }

  /** Every counter holds what the workers have added to it so far. */
  ghost predicate CountersAgree(c: Crew)
  {
    && (forall k :: Get(c.counters, k) == Sum(TallyOf(AmountTo(k)), c.workers))
    && ConnTotal(c.counters) == Sum(TallyOf(ConnAmount()), c.workers)
  }

  lemma TallyStep(f: Inc -> int, ws: seq<Worker>, h: nat, v: Worker, inc: Inc)
    requires h < |ws| && v.ops == ws[h].ops + [inc]
    ensures Sum(TallyOf(f), ws[h := v]) == Sum(TallyOf(f), ws) + f(inc)
  {
    SumUpdate(TallyOf(f), ws, h, v);
    assert v.ops[..|v.ops| - 1] == ws[h].ops;
  }

  lemma TallySame(f: Inc -> int, ws: seq<Worker>, h: nat, v: Worker)
    requires h < |ws| && v.ops == ws[h].ops
    ensures Sum(TallyOf(f), ws[h := v]) == Sum(TallyOf(f), ws)
  {
    SumUpdate(TallyOf(f), ws, h, v);
  }

  /** A worker step changes one worker by a legal step and keeps the counters exact. */
  lemma CrewStepOk(cfg: Config, c: Crew, d: Crew, h: nat, fed: seq<Job>)
    requires CrewStepAt(cfg, c, d, h) && CountersAgree(c)
    requires WorkerOk(cfg, c.workers[h], fed)
    ensures CountersAgree(d) && WorkerOk(cfg, d.workers[h], fed)
    ensures d.workers[h].key == c.workers[h].key
  {
    var w, v := c.workers[h], d.workers[h];
    if SilentStep(cfg, w, v) && d.counters == c.counters {
      SilentStepOk(cfg, w, v, fed);
      forall k
        ensures Get(d.counters, k) == Sum(TallyOf(AmountTo(k)), d.workers)
      {
        TallySame(AmountTo(k), c.workers, h, v);
      }
      TallySame(ConnAmount(), c.workers, h, v);
    } else {
      var inc :| Counts(cfg, w, v, inc) && d.counters == Apply(c.counters, inc);
      CountStepOk(cfg, w, v, inc, fed);
      forall k
        ensures Get(d.counters, k) == Sum(TallyOf(AmountTo(k)), d.workers)
      {
        TallyStep(AmountTo(k), c.workers, h, v, inc);
        ApplyAdds(c.counters, inc, k);
      }
      TallyStep(ConnAmount(), c.workers, h, v, inc);
      ApplyAdds(c.counters, inc, inc.key);
    }
  }

  /** Changes that touch neither histories nor counters: a push, or a new worker. */
  lemma PushKeepsCounters(c: Crew, h: nat, j: Job)
    requires h < |c.workers| && CountersAgree(c)
    ensures CountersAgree(Push(c, h, j))
  {
    var v := c.workers[h].(queue := c.workers[h].queue + [j]);
    forall k
      ensures Get(c.counters, k) == Sum(TallyOf(AmountTo(k)), c.workers[h := v])
    {
      TallySame(AmountTo(k), c.workers, h, v);
    }
    TallySame(ConnAmount(), c.workers, h, v);
  }

  function Push(c: Crew, h: nat, j: Job): Crew
    requires h < |c.workers|
  {
    c.(workers := c.workers[h := c.workers[h].(queue := c.workers[h].queue + [j])])
  }

  function Hire(c: Crew, key: nat): Crew { c.(workers := c.workers + [NewWorker(key)]) }

  lemma HireKeepsCounters(c: Crew, key: nat)
    requires CountersAgree(c)
    ensures CountersAgree(Hire(c, key))
  {
    assert Hire(c, key).workers[..|c.workers|] == c.workers;
  }

  // ---------- Bounded queues ----------

  ghost predicate QueuesFit(cfg: Config, c: Crew)
  {
    forall h :: 0 <= h < |c.workers| ==> |c.workers[h].queue| <= cfg.depth
  }

  lemma StepKeepsFit(cfg: Config, c: Crew, d: Crew, h: nat)
    requires CrewStepAt(cfg, c, d, h) && QueuesFit(cfg, c)
    ensures QueuesFit(cfg, d)
  {
    StepTakesFromQueue(cfg, c, d, h);
    hide SilentStep, Counts;
  }

  lemma StepTakesFromQueue(cfg: Config, c: Crew, d: Crew, h: nat)
    requires CrewStepAt(cfg, c, d, h)
    ensures |d.workers[h].queue| <= |c.workers[h].queue|
  {
  }

  // ---------- Work left ----------

  function Workload(cfg: Config, c: Crew): int { Sum(Rank(cfg), c.workers) }

  lemma CrewStepWorkload(cfg: Config, c: Crew, d: Crew, h: nat, fed: seq<Job>)
    requires ValidConfig(cfg) && CrewStepAt(cfg, c, d, h) && WorkerOk(cfg, c.workers[h], fed)
    ensures Workload(cfg, d) < Workload(cfg, c)
  {
    var w, v := c.workers[h], d.workers[h];
    SumUpdate(Rank(cfg), c.workers, h, v);
    if SilentStep(cfg, w, v) {
      SilentStepRank(cfg, w, v, fed);
    }
  }

  lemma PushWorkload(cfg: Config, c: Crew, h: nat, j: Job)
    requires h < |c.workers|
    ensures Workload(cfg, Push(c, h, j)) == Workload(cfg, c) + cfg.maxOps + 4
  {
    var w := c.workers[h];
    SumUpdate(Rank(cfg), c.workers, h, w.(queue := w.queue + [j]));
    OneMore(|w.queue|, cfg.maxOps + 4);
  }

  lemma HireWorkload(cfg: Config, c: Crew, key: nat)
    ensures Workload(cfg, Hire(c, key)) == Workload(cfg, c)
  {
    assert Hire(c, key).workers[..|c.workers|] == c.workers;
  }

  /** A worker that can step does so in some successor crew. */
  lemma CrewCanStep(cfg: Config, c: Crew, h: nat, fed: seq<Job>) returns (d: Crew)
    requires h < |c.workers| && WorkerOk(cfg, c.workers[h], fed) && CanStep(c.workers[h])
    ensures CrewStepAt(cfg, c, d, h)
  {
    var w := c.workers[h];
    var v, counters := w, c.counters;
    match w.phase {
      case AtPop =>
        v := w.(queue := w.queue[1..], popped := w.popped + [w.queue[0]], phase := Handling(w.queue[0]));
        assert Pops(w, v);
      case Handling(j) =>
        if j.Finish? {
          v := w.(phase := AtTest(j), log := w.log + [Skipped]);
          assert Skips(w, v);
        } else if j.quit {
          v := w.(phase := AtTest(j), log := w.log + [Reconnected]);
          assert Reconnects(w, v);
        } else {
          v := w.(phase := Reporting(j, Outcome(0, j.rows, 0), 0));
          assert Executes(cfg, w, v);
        }
      case Reporting(j, o, n) =>
        if n < |cfg.program(j, o)| {
          var inc := cfg.program(j, o)[n];
          v, counters := w.(phase := w.phase.(n := n + 1), ops := w.ops + [inc]), Apply(c.counters, inc);
          assert Counts(cfg, w, v, inc);
        } else {
          v := w.(phase := AtTest(j), log := w.log + [Ran(j, o)]);
          assert Completes(cfg, w, v);
        }
      case AtTest(j) =>
        v := w.(phase := if Shuts(j) then Exited else AtPop);
        assert Tests(w, v);
    }
    d := Crew(c.workers[h := v], counters);
  }
}
