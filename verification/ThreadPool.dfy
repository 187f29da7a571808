/** The thread-pool dispatcher: a fixed crew, routing by a hash of the connection, and a FinishEntry for everyone. */
module ThreadPool {
  import opened Seqs
  import opened Jobs
  import opened Reports
  import opened Workers

  /** The number of workers and the checksum of a thread id. */
  datatype Pool = Pool(size: nat, hash: nat -> nat)

  /** The dispatcher's place: popping, pushing one entry, pushing FinishEntry to worker i, joining worker i. */
  datatype Stage = Popping | Pushing(job: Job) | Broadcasting(i: nat) | Joining(i: nat) | Done

  datatype State = State(next: nat, stage: Stage, crew: Crew, joins: seq<nat>)

  function Route(pool: Pool, c: nat): (h: nat)
    requires pool.size >= 1
    ensures h < pool.size
  {
    pool.hash(c) % pool.size
  }

  /** The entries of worker h. */
  function ForWorker(pool: Pool, h: nat): Job -> bool
    requires pool.size >= 1
  {
    (j: Job) => j.Query? && pool.hash(j.conn) % pool.size == h
  }

  function NewCrew(n: nat): (ws: seq<Worker>)
    ensures |ws| == n && forall h :: 0 <= h < n ==> ws[h] == NewWorker(h)
  {
    seq(n, h requires 0 <= h < n => NewWorker(h))
  }

  ghost predicate Init(pool: Pool, s: State)
  {
    && s.next == 0 && s.stage == Popping && s.crew == Crew(NewCrew(pool.size), map[])
    && s.joins == seq(pool.size, _ => 0)
  }

  /** The pool is dispatched without shutdown marks: only FinishEntry ends a worker. */
  ghost predicate Unmarked(stream: seq<Job>)
  {
    forall i :: 0 <= i < |stream| ==> stream[i].Query? && !stream[i].shutdown
  }

  // ---------- Steps ----------

  ghost predicate PopsEntry(stream: seq<Job>, s: State, t: State)
  {
    s.stage.Popping? && s.next < |stream| && t == s.(next := s.next + 1, stage := Pushing(stream[s.next]))
  }

  ghost predicate PushesEntry(cfg: Config, pool: Pool, s: State, t: State)
    requires pool.size >= 1
  {
    && s.stage.Pushing? && s.stage.job.Query?
    && var h := Route(pool, s.stage.job.conn);
       && h < |s.crew.workers| && |s.crew.workers[h].queue| < cfg.depth
       && t == s.(stage := Popping, crew := Push(s.crew, h, s.stage.job))
  }

  ghost predicate EndsDispatch(stream: seq<Job>, s: State, t: State)
  {
    s.stage.Popping? && s.next == |stream| && t == s.(stage := Broadcasting(0))
  }

  ghost predicate PushesFinish(cfg: Config, s: State, t: State)
  {
    && s.stage.Broadcasting? && s.stage.i < |s.crew.workers|
    && |s.crew.workers[s.stage.i].queue| < cfg.depth
    && t == s.(stage := Broadcasting(s.stage.i + 1), crew := Push(s.crew, s.stage.i, Finish))
  }

  ghost predicate EndsBroadcast(s: State, t: State)
  {
    s.stage.Broadcasting? && s.stage.i == |s.crew.workers| && t == s.(stage := Joining(0))
  }

  ghost predicate Joins(s: State, t: State)
  {
    && s.stage.Joining? && s.stage.i < |s.crew.workers| && s.stage.i < |s.joins|
    && s.crew.workers[s.stage.i].phase.Exited?
    && t == s.(stage := Joining(s.stage.i + 1), joins := s.joins[s.stage.i := s.joins[s.stage.i] + 1])
  }

  ghost predicate Finishes(s: State, t: State)
  {
    s.stage.Joining? && s.stage.i == |s.crew.workers| && t == s.(stage := Done)
  }

  ghost predicate WorkerMoves(cfg: Config, s: State, t: State)
  {
    t == s.(crew := t.crew) && exists h :: CrewStepAt(cfg, s.crew, t.crew, h)
  }

  ghost predicate Next(cfg: Config, pool: Pool, stream: seq<Job>, s: State, t: State)
    requires pool.size >= 1
  {
    || PopsEntry(stream, s, t) || PushesEntry(cfg, pool, s, t) || EndsDispatch(stream, s, t)
    || PushesFinish(cfg, s, t) || EndsBroadcast(s, t) || Joins(s, t) || Finishes(s, t) || WorkerMoves(cfg, s, t)
  }

  /** An entry goes to the end of the queue of the worker given by the checksum modulo the number of workers. */
  lemma PushGoesByHash(cfg: Config, pool: Pool, s: State, t: State)
    requires pool.size >= 1 && PushesEntry(cfg, pool, s, t)
    ensures var h := pool.hash(s.stage.job.conn) % pool.size;
            && h < |s.crew.workers| == |t.crew.workers| && |s.crew.workers[h].queue| < cfg.depth
            && t.crew.workers[h].queue == s.crew.workers[h].queue + [s.stage.job]
            && forall g :: 0 <= g < |s.crew.workers| && g != h ==> t.crew.workers[g] == s.crew.workers[g]
  {
  }

  // ---------- The invariant ----------

  /** How many stream entries have been pushed, how many workers have been sent FinishEntry, how many are joined. */
  function Pushed(s: State): int { if s.stage.Pushing? then s.next - 1 else s.next }

  function Told(s: State): nat
  {
    match s.stage
    case Broadcasting(i) => i
    case Joining(_) => |s.crew.workers|
    case Done => |s.crew.workers|
    case _ => 0
  }

  function Joined(s: State): nat
  {
    match s.stage
    case Joining(i) => i
    case Done => |s.crew.workers|
    case _ => 0
  }

  /** What worker h is to handle in all: its share of the stream, then FinishEntry. */
  function Plan(pool: Pool, stream: seq<Job>, h: nat): seq<Job>
    requires pool.size >= 1
  {
    Filter(ForWorker(pool, h), stream) + [Finish]
  }

  function FedTo(pool: Pool, stream: seq<Job>, k: int, told: nat, h: nat): seq<Job>
    requires pool.size >= 1 && 0 <= k <= |stream|
  {
    Filter(ForWorker(pool, h), stream[..k]) + (if h < told then [Finish] else [])
  }

  ghost predicate Position(pool: Pool, stream: seq<Job>, s: State)
  {
    && pool.size >= 1 && |s.crew.workers| == |s.joins| == pool.size
    && 0 <= Pushed(s) <= s.next <= |stream|
    && (s.stage.Pushing? ==> s.stage.job == stream[s.next - 1])
    && (!s.stage.Popping? && !s.stage.Pushing? ==> s.next == |stream|)
    && Told(s) <= pool.size && Joined(s) <= pool.size
  }

  ghost predicate WorkersOk(cfg: Config, pool: Pool, stream: seq<Job>, k: int, told: nat, crew: Crew)
    requires pool.size >= 1 && 0 <= k <= |stream|
  {
    && (forall h :: 0 <= h < |crew.workers| ==> WorkerOk(cfg, crew.workers[h], FedTo(pool, stream, k, told, h)))
    && CountersAgree(crew)
  }

  /** Workers are joined in order, each once and after it exited. */
  ghost predicate JoinsOk(crew: Crew, joins: seq<nat>, joined: nat)
    requires |joins| == |crew.workers|
  {
    forall h :: 0 <= h < |joins| ==>
      joins[h] == (if h < joined then 1 else 0) && (h < joined ==> crew.workers[h].phase.Exited?)
  }

  ghost predicate Inv(cfg: Config, pool: Pool, stream: seq<Job>, s: State)
  {
    && Position(pool, stream, s)
    && WorkersOk(cfg, pool, stream, Pushed(s), Told(s), s.crew)
    && JoinsOk(s.crew, s.joins, Joined(s))
  }

  lemma {:induction false} NewCrewCounts(ws: seq<Worker>, f: Inc -> int)
    requires forall h :: 0 <= h < |ws| ==> ws[h].ops == []
    ensures Sum(TallyOf(f), ws) == 0
  {
    if ws != [] {
      NewCrewCounts(ws[..|ws| - 1], f);
    }
  }

  lemma InitInv(cfg: Config, pool: Pool, stream: seq<Job>, s: State)
    requires pool.size >= 1 && Init(pool, s)
    ensures Inv(cfg, pool, stream, s)
  {
    forall k
      ensures Get(s.crew.counters, k) == Sum(TallyOf(AmountTo(k)), s.crew.workers)
    {
      NewCrewCounts(s.crew.workers, AmountTo(k));
    }
    NewCrewCounts(s.crew.workers, ConnAmount());
    assert ConnTotal(map[]) == 0;
    forall h | 0 <= h < |s.crew.workers|
      ensures WorkerOk(cfg, s.crew.workers[h], FedTo(pool, stream, 0, 0, h))
    {
      NewWorkerOk(cfg, h);
    }
  }

  lemma PlanIsPlan(pool: Pool, stream: seq<Job>, h: nat)
    requires pool.size >= 1 && Unmarked(stream)
    ensures IsPlan(Plan(pool, stream, h))
  {
    var share := Filter(ForWorker(pool, h), stream);
    forall i | 0 <= i < |share|
      ensures !Shuts(share[i])
    {
      FilterMember(ForWorker(pool, h), stream, share[i]);
    }
  }

  lemma FedIsPrefix(pool: Pool, stream: seq<Job>, s: State, h: nat)
    requires Position(pool, stream, s)
    ensures FedTo(pool, stream, Pushed(s), Told(s), h) <= Plan(pool, stream, h)
    ensures h < Told(s) ==> FedTo(pool, stream, Pushed(s), Told(s), h) == Plan(pool, stream, h)
  {
    FilterPrefix(ForWorker(pool, h), stream, Pushed(s));
    if Told(s) > 0 {
      assert stream[..|stream|] == stream;
    }
  }

  // ---------- Steps keep it ----------

  lemma PushedOk(cfg: Config, pool: Pool, stream: seq<Job>, k: int, crew: Crew)
    requires pool.size >= 1 && 0 <= k < |stream| && stream[k].Query? && |crew.workers| == pool.size
    requires WorkersOk(cfg, pool, stream, k, 0, crew)
    ensures WorkersOk(cfg, pool, stream, k + 1, 0, Push(crew, Route(pool, stream[k].conn), stream[k]))
  {
    hide WorkerOk, CountersAgree;
    var target, job := Route(pool, stream[k].conn), stream[k];
    PushKeepsCounters(crew, target, job);
    var after := Push(crew, target, job);
    forall h | 0 <= h < |crew.workers|
      ensures WorkerOk(cfg, after.workers[h], FedTo(pool, stream, k + 1, 0, h))
    {
      FilterPrefix(ForWorker(pool, h), stream, k);
      if h == target {
        PushOk(cfg, crew.workers[h], FedTo(pool, stream, k, 0, h), job);
        assert FedTo(pool, stream, k + 1, 0, h) == FedTo(pool, stream, k, 0, h) + [job];
      } else {
        assert FedTo(pool, stream, k + 1, 0, h) == FedTo(pool, stream, k, 0, h);
      }
    }
  }

  lemma ToldOk(cfg: Config, pool: Pool, stream: seq<Job>, crew: Crew, i: nat)
    requires pool.size >= 1 && i < |crew.workers|
    requires WorkersOk(cfg, pool, stream, |stream|, i, crew)
    ensures WorkersOk(cfg, pool, stream, |stream|, i + 1, Push(crew, i, Finish))
  {
    hide WorkerOk, CountersAgree, ForWorker;
    PushKeepsCounters(crew, i, Finish);
    var share := Filter(ForWorker(pool, i), stream[..|stream|]);
    PushOk(cfg, crew.workers[i], FedTo(pool, stream, |stream|, i, i), Finish);
    assert share + [] == share;
  }

  lemma MovedOk(cfg: Config, pool: Pool, stream: seq<Job>, s: State, t: State)
    requires Inv(cfg, pool, stream, s) && WorkerMoves(cfg, s, t)
    ensures Inv(cfg, pool, stream, t)
  {
    hide WorkerOk, CountersAgree, SilentStep, Counts;
    var h: nat :| CrewStepAt(cfg, s.crew, t.crew, h);
    CrewStepOk(cfg, s.crew, t.crew, h, FedTo(pool, stream, Pushed(s), Told(s), h));
    assert !s.crew.workers[h].phase.Exited? by {
      ExitedStays(cfg, s.crew, t.crew, h);
    }
  }

  lemma ExitedStays(cfg: Config, c: Crew, d: Crew, h: nat)
    requires CrewStepAt(cfg, c, d, h)
    ensures !c.workers[h].phase.Exited?
  {
  }

  /** The invariant is inductive. */
  lemma NextKeeps(cfg: Config, pool: Pool, stream: seq<Job>, s: State, t: State)
    requires Unmarked(stream) && Inv(cfg, pool, stream, s) && Next(cfg, pool, stream, s, t)
    ensures Inv(cfg, pool, stream, t)
  {
    hide WorkersOk, WorkerMoves, Route;
    if PushesEntry(cfg, pool, s, t) {
      PushedOk(cfg, pool, stream, Pushed(s), s.crew);
    } else if PushesFinish(cfg, s, t) {
      ToldOk(cfg, pool, stream, s.crew, s.stage.i);
    } else if WorkerMoves(cfg, s, t) {
      hide Inv;
      MovedOk(cfg, pool, stream, s, t);
    }
  }

  // ---------- Whole runs ----------

  ghost predicate Run(cfg: Config, pool: Pool, stream: seq<Job>, trace: seq<State>)
    requires pool.size >= 1
  {
    && trace != [] && Init(pool, trace[0])
    && forall i :: 0 <= i < |trace| - 1 ==> Next(cfg, pool, stream, trace[i], trace[i + 1])
  }

  lemma {:induction false} RunKeepsInv(cfg: Config, pool: Pool, stream: seq<Job>, trace: seq<State>, i: nat)
    requires pool.size >= 1 && Unmarked(stream) && Run(cfg, pool, stream, trace) && i < |trace|
    ensures Inv(cfg, pool, stream, trace[i])
  {
    hide Inv, Next, Init, Unmarked;
    if i == 0 {
      InitInv(cfg, pool, stream, trace[0]);
    } else {
      RunKeepsInv(cfg, pool, stream, trace, i - 1);
      assert Next(cfg, pool, stream, trace[i - 1], trace[i - 1 + 1]);
      NextKeeps(cfg, pool, stream, trace[i - 1], trace[i]);
    }
  }

  /** The worker has handled its share in dispatch order, then FinishEntry, and left nothing behind. */
  ghost predicate Complete(cfg: Config, pool: Pool, stream: seq<Job>, w: Worker, h: nat)
    requires pool.size >= 1
  {
    && w.phase.Exited? && w.queue == [] && w.popped == Plan(pool, stream, h)
    && Logged(cfg, w.log, w.popped) && w.ops == LogOps(cfg, w.log)
  }

  /** No worker exits before it has handled everything it will ever be given. */
  lemma NoEarlyExit(cfg: Config, pool: Pool, stream: seq<Job>, trace: seq<State>, i: nat, h: nat)
    requires pool.size >= 1 && Unmarked(stream) && Run(cfg, pool, stream, trace) && i < |trace|
    requires h < |trace[i].crew.workers| && trace[i].crew.workers[h].phase.Exited?
    ensures Complete(cfg, pool, stream, trace[i].crew.workers[h], h)
  {
    var s := trace[i];
    RunKeepsInv(cfg, pool, stream, trace, i);
    hide Run;
    ExitedComplete(cfg, pool, stream, s, h);
  }

  lemma ExitedComplete(cfg: Config, pool: Pool, stream: seq<Job>, s: State, h: nat)
    requires pool.size >= 1 && Unmarked(stream) && Inv(cfg, pool, stream, s)
    requires h < |s.crew.workers| && s.crew.workers[h].phase.Exited?
    ensures Complete(cfg, pool, stream, s.crew.workers[h], h)
  {
    hide CountersAgree, Plan, Filter, Unmarked;
    var fed := FedTo(pool, stream, Pushed(s), Told(s), h);
    assert WorkerOk(cfg, s.crew.workers[h], fed);
    PlanIsPlan(pool, stream, h);
    FedIsPrefix(pool, stream, s, h);
    ExitMeansPlanDone(cfg, s.crew.workers[h], fed, Plan(pool, stream, h));
  }

  /** At the end every worker has done exactly its share, its queue is empty, and it was joined once. */
  ghost predicate Delivered(cfg: Config, pool: Pool, stream: seq<Job>, s: State)
    requires pool.size >= 1
  {
    && |s.crew.workers| == |s.joins| == pool.size && CountersAgree(s.crew)
    && forall h :: 0 <= h < pool.size ==> Complete(cfg, pool, stream, s.crew.workers[h], h) && s.joins[h] == 1
  }

  lemma SharesHandledInOrder(cfg: Config, pool: Pool, stream: seq<Job>, trace: seq<State>)
    requires pool.size >= 1 && Unmarked(stream) && Run(cfg, pool, stream, trace) && trace[|trace| - 1].stage.Done?
    ensures Delivered(cfg, pool, stream, trace[|trace| - 1])
  {
    var last: nat := |trace| - 1;
    var s := trace[last];
    RunKeepsInv(cfg, pool, stream, trace, last);
    hide Run, Unmarked, WorkerOk, Complete, CountersAgree;
    forall h | 0 <= h < pool.size
      ensures Complete(cfg, pool, stream, s.crew.workers[h], h)
    {
      ExitedComplete(cfg, pool, stream, s, h);
    }
  }

  lemma {:induction false} FilterCompose(p: Job -> bool, q: Job -> bool, s: seq<Job>)
    ensures (forall j :: p(j) ==> q(j)) ==> Filter(p, Filter(q, s)) == Filter(p, s)
    ensures (forall j :: p(j) ==> !q(j)) ==> Filter(p, Filter(q, s)) == []
  {
    if s != [] {
      var init, e := s[..|s| - 1], s[|s| - 1];
      FilterCompose(p, q, init);
      FilterAppend(p, Filter(q, init), if q(e) then [e] else []);
      assert q(e) ==> [e][..0] == [];
    }
  }

  /** All entries of a connection are handled by one worker, in stream order. */
  lemma {:induction false} ConnectionStaysWithOneWorker(cfg: Config, pool: Pool, stream: seq<Job>, s: State, c: nat,
                                                        h: nat)
    requires pool.size >= 1 && Delivered(cfg, pool, stream, s) && h < pool.size
    ensures Filter(ByConn(c), s.crew.workers[h].popped) ==
            if h == pool.hash(c) % pool.size then Filter(ByConn(c), stream) else []
  {
    hide CountersAgree, Logged;
    var share := Filter(ForWorker(pool, h), stream);
    assert s.crew.workers[h].popped == share + [Finish];
    FilterAppend(ByConn(c), share, [Finish]);
    assert [Finish][..0] == [];
    FilterCompose(ByConn(c), ForWorker(pool, h), stream);
  }

  /** No queue ever holds more entries than its depth. */
  lemma {:induction false} QueuesNeverOverfull(cfg: Config, pool: Pool, stream: seq<Job>, trace: seq<State>, i: nat)
    requires pool.size >= 1 && Run(cfg, pool, stream, trace) && i < |trace|
    ensures QueuesFit(cfg, trace[i].crew)
  {
    hide Next, QueuesFit;
    if i == 0 {
      NewQueuesFit(cfg, pool, trace[0]);
    } else {
      QueuesNeverOverfull(cfg, pool, stream, trace, i - 1);
      assert Next(cfg, pool, stream, trace[i - 1], trace[i - 1 + 1]);
      NextKeepsFit(cfg, pool, stream, trace[i - 1], trace[i]);
    }
  }

  lemma NewQueuesFit(cfg: Config, pool: Pool, s: State)
    requires Init(pool, s)
    ensures QueuesFit(cfg, s.crew)
  {
  }

  lemma NextKeepsFit(cfg: Config, pool: Pool, stream: seq<Job>, s: State, t: State)
    requires pool.size >= 1 && Next(cfg, pool, stream, s, t) && QueuesFit(cfg, s.crew)
    ensures QueuesFit(cfg, t.crew)
  {
    hide CrewStepAt, Route;
    if WorkerMoves(cfg, s, t) {
      var h: nat :| CrewStepAt(cfg, s.crew, t.crew, h);
      StepKeepsFit(cfg, s.crew, t.crew, h);
    }
  }

  // ---------- Progress ----------

  /** Work left for the dispatcher and the workers. */
  function Measure(cfg: Config, pool: Pool, stream: seq<Job>, s: State): int
  {
    (|stream| - s.next) * (cfg.maxOps + 6) + StageCost(cfg, pool, s.stage) + Workload(cfg, s.crew)
  }

  function StageCost(cfg: Config, pool: Pool, st: Stage): int
  {
    match st
    case Popping => (pool.size + 1) * (cfg.maxOps + 5) + pool.size + 3
    case Pushing(_) => (pool.size + 2) * (cfg.maxOps + 5) + pool.size + 3
    case Broadcasting(i) => (pool.size - i) * (cfg.maxOps + 5) + pool.size + 2
    case Joining(i) => pool.size - i + 1
    case Done => 0
  }

  lemma Weigh(n: int, weight: nat)
    ensures n >= 0 ==> n * weight >= 0
    ensures (n - 1) * weight == n * weight - weight
    ensures (n + 1) * weight == n * weight + weight
  {
  }

  lemma WorkerDecreases(cfg: Config, pool: Pool, stream: seq<Job>, s: State, t: State)
    requires ValidConfig(cfg) && Inv(cfg, pool, stream, s) && WorkerMoves(cfg, s, t)
    ensures Measure(cfg, pool, stream, t) < Measure(cfg, pool, stream, s)
  {
    hide CountersAgree, WorkerOk, SilentStep, Counts, Workload, JoinsOk;
    var h: nat :| CrewStepAt(cfg, s.crew, t.crew, h);
    CrewStepWorkload(cfg, s.crew, t.crew, h, FedTo(pool, stream, Pushed(s), Told(s), h));
  }

  /** Every step, of the dispatcher or a worker, takes away from the work left. */
  lemma NextDecreases(cfg: Config, pool: Pool, stream: seq<Job>, s: State, t: State)
    requires ValidConfig(cfg) && Inv(cfg, pool, stream, s) && Next(cfg, pool, stream, s, t)
    ensures Measure(cfg, pool, stream, t) < Measure(cfg, pool, stream, s)
  {
    hide WorkersOk, JoinsOk, Workload, Push, WorkerMoves, Route, ValidConfig;
    if WorkerMoves(cfg, s, t) {
      hide Measure, Inv;
      WorkerDecreases(cfg, pool, stream, s, t);
    } else {
      Weigh(|stream| - s.next, cfg.maxOps + 6);
      Weigh(pool.size + 1, cfg.maxOps + 5);
      if PushesEntry(cfg, pool, s, t) {
        PushWorkload(cfg, s.crew, Route(pool, s.stage.job.conn), s.stage.job);
      } else if PushesFinish(cfg, s, t) {
        PushWorkload(cfg, s.crew, s.stage.i, Finish);
        Weigh(pool.size - s.stage.i, cfg.maxOps + 5);
      } else if EndsDispatch(stream, s, t) {
        Weigh(pool.size, cfg.maxOps + 5);
      }
    }
  }

  lemma MeasureNonNegative(cfg: Config, pool: Pool, stream: seq<Job>, s: State)
    requires ValidConfig(cfg) && Inv(cfg, pool, stream, s)
    ensures Measure(cfg, pool, stream, s) >= 0
  {
    hide WorkerOk, CountersAgree, JoinsOk, Rank;
    forall h | 0 <= h < |s.crew.workers|
      ensures Rank(cfg)(s.crew.workers[h]) >= 0
    {
      RankNonNegative(cfg, s.crew.workers[h], FedTo(pool, stream, Pushed(s), Told(s), h));
    }
    SumNonNegative(Rank(cfg), s.crew.workers);
    hide WorkersOk;
    Weigh(|stream| - s.next, cfg.maxOps + 6);
    Weigh(pool.size + 1, cfg.maxOps + 5);
    Weigh(pool.size + 2, cfg.maxOps + 5);
    if s.stage.Broadcasting? {
      Weigh(pool.size - s.stage.i, cfg.maxOps + 5);
    }
  }

  lemma WorkerAdvances(cfg: Config, pool: Pool, stream: seq<Job>, s: State,
                                          h: nat) returns (t: State)
    requires ValidConfig(cfg) && Inv(cfg, pool, stream, s) && h < |s.crew.workers| && CanStep(s.crew.workers[h])
    ensures Next(cfg, pool, stream, s, t)
  {
    hide CountersAgree, WorkerOk, ValidConfig, CrewStepAt, JoinsOk, CanStep;
    assert WorkerOk(cfg, s.crew.workers[h], FedTo(pool, stream, Pushed(s), Told(s), h));
    var crew := CrewCanStep(cfg, s.crew, h, FedTo(pool, stream, Pushed(s), Told(s), h));
    t := s.(crew := crew);
    assert WorkerMoves(cfg, s, t);
  }

  /** Before its FinishEntry a worker runs on; a full queue can be worked off. */
  lemma RoomOrStep(cfg: Config, pool: Pool, stream: seq<Job>, s: State, h: nat)
    requires Unmarked(stream) && ValidConfig(cfg) && Inv(cfg, pool, stream, s)
    requires h < |s.crew.workers| && h >= Told(s)
    ensures |s.crew.workers[h].queue| < cfg.depth || CanStep(s.crew.workers[h])
  {
    hide CountersAgree, ValidConfig, Filter, JoinsOk, Unmarked;
    var w, fed := s.crew.workers[h], FedTo(pool, stream, Pushed(s), Told(s), h);
    assert WorkerOk(cfg, w, fed);
    PlanIsPlan(pool, stream, h);
    FedIsPrefix(pool, stream, s, h);
    FilterPrefix(ForWorker(pool, h), stream, Pushed(s));
    ExitMeansPlanDone(cfg, w, fed, Plan(pool, stream, h));
    DepthPositive(cfg);
  }

  lemma DepthPositive(cfg: Config)
    requires ValidConfig(cfg)
    ensures cfg.depth >= 1
  {
  }

  /** After its FinishEntry a worker runs until it exits. */
  lemma StepOrExited(cfg: Config, pool: Pool, stream: seq<Job>, s: State, h: nat)
    requires Unmarked(stream) && ValidConfig(cfg) && Inv(cfg, pool, stream, s)
    requires h < |s.crew.workers| && h < Told(s)
    ensures s.crew.workers[h].phase.Exited? || CanStep(s.crew.workers[h])
  {
    hide CountersAgree, ValidConfig, Filter, JoinsOk, Unmarked;
    var w, fed := s.crew.workers[h], FedTo(pool, stream, Pushed(s), Told(s), h);
    assert WorkerOk(cfg, w, fed);
    PlanIsPlan(pool, stream, h);
    FedIsPrefix(pool, stream, s, h);
    ExitMeansPlanDone(cfg, w, fed, Plan(pool, stream, h));
  }

  /** No deadlock: every reachable unfinished state has a step. */
  lemma CanAdvance(cfg: Config, pool: Pool, stream: seq<Job>, s: State) returns (t: State)
    requires Unmarked(stream) && ValidConfig(cfg) && Inv(cfg, pool, stream, s) && !s.stage.Done?
    ensures Next(cfg, pool, stream, s, t)
  {
    hide WorkersOk, JoinsOk, ValidConfig, Route, CanStep, Push, WorkerMoves;
    match s.stage {
      case Popping =>
        t := if s.next < |stream|
             then s.(next := s.next + 1, stage := Pushing(stream[s.next]))
             else s.(stage := Broadcasting(0));
      case Pushing(job) =>
        var h := Route(pool, job.conn);
        RoomOrStep(cfg, pool, stream, s, h);
        if |s.crew.workers[h].queue| < cfg.depth {
          t := s.(stage := Popping, crew := Push(s.crew, h, job));
        } else {
          t := WorkerAdvances(cfg, pool, stream, s, h);
        }
      case Broadcasting(i) =>
        if i == |s.crew.workers| {
          t := s.(stage := Joining(0));
        } else {
          RoomOrStep(cfg, pool, stream, s, i);
          if |s.crew.workers[i].queue| < cfg.depth {
            t := s.(stage := Broadcasting(i + 1), crew := Push(s.crew, i, Finish));
          } else {
            t := WorkerAdvances(cfg, pool, stream, s, i);
          }
        }
      case Joining(i) =>
        if i == |s.crew.workers| {
          t := s.(stage := Done);
        } else {
          StepOrExited(cfg, pool, stream, s, i);
          if s.crew.workers[i].phase.Exited? {
            t := s.(stage := Joining(i + 1), joins := s.joins[i := s.joins[i] + 1]);
          } else {
            t := WorkerAdvances(cfg, pool, stream, s, i);
          }
        }
    }
  }

  ghost predicate Stuck(cfg: Config, pool: Pool, stream: seq<Job>, s: State)
    requires pool.size >= 1
  {
    forall t :: !Next(cfg, pool, stream, s, t)
  }

  /**
    Every run of the pool ends: no run is longer than the initial work, and one that cannot be continued is done.
   */
  lemma EveryRunEnds(cfg: Config, pool: Pool, stream: seq<Job>, trace: seq<State>)
    requires pool.size >= 1 && Unmarked(stream) && ValidConfig(cfg) && Run(cfg, pool, stream, trace)
    ensures |trace| <= Measure(cfg, pool, stream, trace[0]) + 1
    ensures Stuck(cfg, pool, stream, trace[|trace| - 1]) ==> trace[|trace| - 1].stage.Done?
  {
    var last: nat := |trace| - 1;
    StepsTakeWork(cfg, pool, stream, trace, last);
    RunKeepsInv(cfg, pool, stream, trace, last);
    MeasureNonNegative(cfg, pool, stream, trace[last]);
    hide Inv, Run, Next, Measure, ValidConfig, Unmarked;
    if !trace[last].stage.Done? {
      var t := CanAdvance(cfg, pool, stream, trace[last]);
    }
  }

  lemma {:induction false} StepsTakeWork(cfg: Config, pool: Pool, stream: seq<Job>, trace: seq<State>, n: nat)
    requires pool.size >= 1 && Unmarked(stream) && ValidConfig(cfg) && Run(cfg, pool, stream, trace) && n < |trace|
    ensures n + Measure(cfg, pool, stream, trace[n]) <= Measure(cfg, pool, stream, trace[0])
  {
    hide Inv, Next, Measure, ValidConfig, Unmarked, Init;
    if n > 0 {
      StepsTakeWork(cfg, pool, stream, trace, n - 1);
      RunKeepsInv(cfg, pool, stream, trace, n - 1);
      assert Next(cfg, pool, stream, trace[n - 1], trace[n - 1 + 1]);
      NextDecreases(cfg, pool, stream, trace[n - 1], trace[n]);
    }
  }

  /** s leads to the end by the steps of path. */
  ghost predicate LeadsToDone(cfg: Config, pool: Pool, stream: seq<Job>, s: State, path: seq<State>)
    requires pool.size >= 1
  {
    && path != [] && path[0] == s && path[|path| - 1].stage.Done?
    && forall i :: 0 <= i < |path| - 1 ==> Next(cfg, pool, stream, path[i], path[i + 1])
  }

  /** From every reachable state, the initial one in particular, the run can be completed. */
  lemma {:induction false} CanFinish(cfg: Config, pool: Pool, stream: seq<Job>, s: State) returns (path: seq<State>)
    requires pool.size >= 1 && Unmarked(stream) && ValidConfig(cfg) && Inv(cfg, pool, stream, s)
    ensures LeadsToDone(cfg, pool, stream, s, path)
    decreases Measure(cfg, pool, stream, s)
  {
    hide Unmarked, ValidConfig, Inv, Next, Measure;
    MeasureNonNegative(cfg, pool, stream, s);
    if s.stage.Done? {
      path := [s];
    } else {
      var t := CanAdvance(cfg, pool, stream, s);
      NextKeeps(cfg, pool, stream, s, t);
      NextDecreases(cfg, pool, stream, s, t);
      MeasureNonNegative(cfg, pool, stream, t);
      var rest := CanFinish(cfg, pool, stream, t);
      path := [s] + rest;
      assert forall i :: 1 <= i < |path| ==> path[i] == rest[i - 1];
    }
  }

  ghost predicate SomeRunFinishes(cfg: Config, pool: Pool, stream: seq<Job>)
    requires pool.size >= 1
  {
    exists trace: seq<State> :: Run(cfg, pool, stream, trace) && trace[|trace| - 1].stage.Done?
  }

  lemma EveryStreamFinishes(cfg: Config, pool: Pool, stream: seq<Job>)
    requires pool.size >= 1 && Unmarked(stream) && ValidConfig(cfg)
    ensures SomeRunFinishes(cfg, pool, stream)
  {
    hide Unmarked, ValidConfig, Inv, Next;
    var s := State(0, Popping, Crew(NewCrew(pool.size), map[]), seq(pool.size, _ => 0));
    InitInv(cfg, pool, stream, s);
    var path := CanFinish(cfg, pool, stream, s);
    assert Run(cfg, pool, stream, path);
  }
}
