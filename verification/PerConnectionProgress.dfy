/**
  When the thread-per-connection dispatcher finishes: exactly when no new connection finds more than THROTTLE
  others open.
 */
module PerConnectionProgress {
  import opened Seqs
  import opened Jobs
  import opened Reports
  import opened Workers
  import opened PerConnection
  import opened PerConnectionSafety

  // ---------- Open connections ----------

  /** Connections with an entry before position i and another at or after it. */
  ghost function OpenConns(stream: seq<Job>, i: nat): set<nat>
    requires i <= |stream|
  {
    set j | 0 <= j < i && stream[j].Query? && !NoMore(stream, i, stream[j].conn) :: stream[j].conn
  }

  /** Position i starts a connection. */
  ghost predicate Starts(stream: seq<Job>, i: nat)
  {
    i < |stream| && stream[i].Query? && forall j :: 0 <= j < i ==> !ByConn(stream[i].conn)(stream[j])
  }

  ghost predicate FitsAt(stream: seq<Job>, i: nat)
  {
    Starts(stream, i) ==> |OpenConns(stream, i)| <= 10000
  }

  /** Whenever a connection starts, at most 10000 others are open. */
  ghost predicate ConnectionsFit(stream: seq<Job>)
  {
    forall i :: 0 <= i < |stream| ==> FitsAt(stream, i)
  }

  /** Open connections hold their slots. */
  lemma OpenConnLive(cfg: Config, stream: seq<Job>, s: State, c: nat)
    requires Marked(stream) && Inv(cfg, stream, s) && HasWorker(s.crew, c) && !NoMore(stream, Pushed(s), c)
    ensures c in Live(s.executors)
  {
    hide Marked, WorkersOk, Served, KeysDistinct, SlotsOk, NullsOk, OrderOk, CountOk, NoMore, Complete, Unjoined;
    var h :| 0 <= h < |s.crew.workers| && s.crew.workers[h].key == c;
    if s.joins[h] == 1 {
      ExitedComplete(cfg, stream, s, h);
    }
  }

  lemma OpenCount(cfg: Config, stream: seq<Job>, s: State)
    requires Marked(stream) && Inv(cfg, stream, s)
    ensures OpenConns(stream, Pushed(s)) <= Live(s.executors)
    ensures |OpenConns(stream, Pushed(s))| <= s.numRunning
  {
    hide Marked, WorkersOk, KeysDistinct, SlotsOk, NullsOk, JoinsOk, OrderOk, NoMore, HasWorker, Unjoined, Live;
    var open := OpenConns(stream, Pushed(s));
    forall c | c in open
      ensures c in Live(s.executors)
    {
      var j :|
        0 <= j < Pushed(s) && stream[j].Query? && !NoMore(stream, Pushed(s), stream[j].conn) && stream[j].conn == c;
      OpenConnLive(cfg, stream, s, c);
    }
    SubsetSize(open, Live(s.executors));
  }

  lemma SubsetSize(a: set<nat>, b: set<nat>)
    requires a <= b
    ensures |a| <= |b|
  {
    assert b == a + (b - a);
  }

  // ---------- Without the premise no run finishes ----------

  /** Entry i has not been pushed; once it is in hand the dispatcher waits in the throttle loop. */
  ghost predicate HeldBack(s: State, i: nat)
  {
    s.next <= i || (s.next == i + 1 && WaitingFor(s.stage).Some?)
  }

  lemma HeldBackStep(cfg: Config, stream: seq<Job>, s: State, t: State, i: nat)
    requires Marked(stream) && Inv(cfg, stream, s) && Next(cfg, stream, s, t)
    requires !FitsAt(stream, i) && HeldBack(s, i)
    ensures HeldBack(t, i)
  {
    hide Marked, WorkersOk, KeysDistinct, Served, SlotsOk, NullsOk, JoinsOk, OrderOk, CountOk, NoMore, Unjoined,
      OpenConns, CrewStepAt, Hire;
    if PopsEntry(stream, s, t) {
      if s.next == i {
        NewConnHasNoSlot(cfg, stream, s);
      }
    } else if Creates(s, t) {
      OpenCount(cfg, stream, s);
    }
  }

  lemma NewConnHasNoSlot(cfg: Config, stream: seq<Job>, s: State)
    requires Inv(cfg, stream, s) && s.stage.Popping? && Starts(stream, s.next)
    ensures stream[s.next].conn !in s.executors
  {
    hide WorkersOk, KeysDistinct, JoinsOk, OrderOk, CountOk, HasWorker, Unjoined;
    var c := stream[s.next].conn;
    FilterNone(ByConn(c), stream[..s.next]);
  }

  /** If some new connection finds more than THROTTLE others open, no run gets past it. */
  lemma {:induction false} NeverFinishes(cfg: Config, stream: seq<Job>, trace: seq<State>, i: nat, n: nat)
    requires Marked(stream) && Run(cfg, stream, trace) && n < |trace|
    requires i < |stream| && !FitsAt(stream, i)
    ensures HeldBack(trace[n], i) && !trace[n].stage.Done?
  {
    hide FitsAt, Marked, Inv, Next;
    RunKeepsInv(cfg, stream, trace, n);
    if n > 0 {
      NeverFinishes(cfg, stream, trace, i, n - 1);
      RunKeepsInv(cfg, stream, trace, n - 1);
      assert Next(cfg, stream, trace[n - 1], trace[n - 1 + 1]);
      HeldBackStep(cfg, stream, trace[n - 1], trace[n], i);
    }
    assert !trace[n].stage.Done? by {
      DoneIsPastTheEnd(cfg, stream, trace[n]);
    }
  }

  lemma DoneIsPastTheEnd(cfg: Config, stream: seq<Job>, s: State)
    requires Inv(cfg, stream, s)
    ensures s.stage.Done? ==> s.next == |stream|
  {
  }

  // ---------- The measure ----------

  function IfZero(): nat -> int { (n: nat) => if n == 0 then 1 else 0 }

  /** Work left: entries not popped, the dispatcher's stage, entries queued or in hand, workers not joined. */
  function Measure(cfg: Config, stream: seq<Job>, s: State): int
  {
    (|stream| - s.next) * (cfg.maxOps + 9) + StageCost(cfg, s.stage) + Workload(cfg, s.crew) + Sum(IfZero(), s.joins)
  }

  function StageCost(cfg: Config, st: Stage): int
  {
    match st
    case Popping => 2
    case Throttled(_) => cfg.maxOps + 9
    case Sweeping(_, _) => cfg.maxOps + 9
    case Pushing(_) => cfg.maxOps + 7
    case Joining(_) => 1
    case Done => 0
  }

  lemma WorkloadNonNegative(cfg: Config, stream: seq<Job>, k: int, crew: Crew)
    requires ValidConfig(cfg) && 0 <= k <= |stream| && WorkersOk(cfg, stream, k, crew)
    ensures Workload(cfg, crew) >= 0
  {
    hide WorkerOk, CountersAgree, Rank;
    forall h | 0 <= h < |crew.workers|
      ensures Rank(cfg)(crew.workers[h]) >= 0
    {
      RankNonNegative(cfg, crew.workers[h], FedTo(stream, k, crew.workers[h].key));
    }
    SumNonNegative(Rank(cfg), crew.workers);
  }

  lemma MeasureNonNegative(cfg: Config, stream: seq<Job>, s: State)
    requires ValidConfig(cfg) && Inv(cfg, stream, s)
    ensures Measure(cfg, stream, s) >= 0
  {
    hide WorkersOk, KeysDistinct, Served, SlotsOk, NullsOk, Unjoined, JoinsOk, OrderOk, CountOk, Workload;
    WorkloadNonNegative(cfg, stream, Pushed(s), s.crew);
    SumNonNegative(IfZero(), s.joins);
    Weigh(|stream| - s.next, cfg.maxOps + 9);
  }

  lemma Weigh(n: int, weight: nat)
    requires n >= 0
    ensures n * weight >= 0
    ensures (n - 1) * weight == n * weight - weight
  {
  }

  lemma JoinCounts(joins: seq<nat>, h: nat)
    requires h < |joins| && joins[h] == 0
    ensures Sum(IfZero(), joins[h := joins[h] + 1]) == Sum(IfZero(), joins) - 1
  {
    SumUpdate(IfZero(), joins, h, joins[h] + 1);
  }

  lemma DispatchDecreases(cfg: Config, stream: seq<Job>, s: State, t: State)
    requires Inv(cfg, stream, s)
    requires
      PopsEntry(stream, s, t) || Creates(s, t) || PushesEntry(cfg, s, t) || EndsDispatch(stream, s, t) || Finishes(s, t)
    ensures Measure(cfg, stream, t) < Measure(cfg, stream, s)
  {
    hide WorkersOk, KeysDistinct, Served, SlotsOk, NullsOk, Unjoined, JoinsOk, OrderOk, CountOk, Workload, Push, Hire,
      Sum;
    if PopsEntry(stream, s, t) {
      Weigh(|stream| - s.next, cfg.maxOps + 9);
    } else if Creates(s, t) {
      HireWorkload(cfg, s.crew, s.stage.job.conn);
      OneMoreToJoin(s.joins);
    } else if PushesEntry(cfg, s, t) {
      PushWorkload(cfg, s.crew, WorkerOf(s, s.stage.job.conn).value, s.stage.job);
    }
  }

  lemma {:induction false} OneMoreToJoin(joins: seq<nat>)
    ensures Sum(IfZero(), joins + [0]) == Sum(IfZero(), joins) + 1
  {
    assert (joins + [0])[..|joins|] == joins;
  }

  lemma JoinDecreases(cfg: Config, stream: seq<Job>, s: State, t: State)
    requires Inv(cfg, stream, s) && (SweepJoins(s, t) || FinalJoin(s, t))
    ensures Measure(cfg, stream, t) < Measure(cfg, stream, s)
  {
    hide WorkersOk, Served, NullsOk, CountOk, Workload, Sum;
    JoinCounts(s.joins, WorkerOf(s, s.stage.order[0]).value);
  }

  lemma WorkerDecreases(cfg: Config, stream: seq<Job>, s: State, t: State)
    requires ValidConfig(cfg) && Inv(cfg, stream, s) && WorkerMoves(cfg, s, t)
    ensures Measure(cfg, stream, t) < Measure(cfg, stream, s)
  {
    hide KeysDistinct, Served, SlotsOk, NullsOk, Unjoined, JoinsOk, OrderOk, CountOk, Workload, Sum, SilentStep,
      Counts, WorkerOk, CountersAgree;
    var h: nat :| CrewStepAt(cfg, s.crew, t.crew, h);
    CrewStepWorkload(cfg, s.crew, t.crew, h, FedTo(stream, Pushed(s), s.crew.workers[h].key));
  }

  lemma AdvancesDecrease(cfg: Config, stream: seq<Job>, s: State, t: State)
    requires ValidConfig(cfg) && Inv(cfg, stream, s) && Advances(cfg, stream, s, t)
    ensures Measure(cfg, stream, t) < Measure(cfg, stream, s)
  {
    hide ValidConfig, Inv, Measure, PopsEntry, SweepJoins, Creates, PushesEntry, EndsDispatch, FinalJoin, Finishes,
      WorkerMoves;
    if WorkerMoves(cfg, s, t) {
      WorkerDecreases(cfg, stream, s, t);
    } else if SweepJoins(s, t) || FinalJoin(s, t) {
      JoinDecreases(cfg, stream, s, t);
    } else {
      DispatchDecreases(cfg, stream, s, t);
    }
  }

  lemma SpinsKeepMeasure(cfg: Config, stream: seq<Job>, s: State, t: State)
    requires Spins(s, t)
    ensures Measure(cfg, stream, t) == Measure(cfg, stream, s)
  {
    hide Workload, Sum, Enumerates;
  }

  // ---------- With the premise some step always makes progress ----------

  /** How far the throttle loop is from its next successful join, once there is one to make. */
  function SpinDistance(s: State): nat
  {
    match s.stage
    case Throttled(_) => |s.executors| + 1
    case Sweeping(_, order) => |order| + (if exists k :: k in order && Joinable(s, k) then 0 else |s.executors| + 2)
    case _ => 0
  }

  /** t is closer to the end: less work left, or as much but nearer to a join. */
  ghost predicate Closer(cfg: Config, stream: seq<Job>, t: State, s: State)
  {
    || Measure(cfg, stream, t) < Measure(cfg, stream, s)
    || (Measure(cfg, stream, t) == Measure(cfg, stream, s) && SpinDistance(t) < SpinDistance(s))
  }

  lemma {:induction false} EnumerationExists(keys: set<nat>) returns (order: seq<nat>)
    ensures Enumerates(order, keys) && |order| == |keys|
  {
    if keys == {} {
      order := [];
    } else {
      var k :| k in keys;
      var rest := EnumerationExists(keys - {k});
      order := rest + [k];
    }
  }

  lemma {:induction false} EnumerationSize(order: seq<nat>, keys: set<nat>)
    requires Enumerates(order, keys)
    ensures |order| == |keys|
  {
    if order == [] {
      assert keys == {};
    } else {
      var rest, k := order[1..], order[0];
      assert forall x :: x in order <==> x == k || x in rest;
      assert k !in rest;
      EnumerationSize(rest, keys - {k});
    }
  }

  /** A joinable slot ahead of a sweep stays ahead of it until some slot is joined, in whatever order it goes. */
  lemma JoinableStaysAhead(s: State, t: State, k: nat)
    requires Spins(s, t) && s.stage.Sweeping? && k in s.stage.order && Joinable(s, k)
    ensures t.stage.Sweeping? && k in t.stage.order && Joinable(t, k)
  {
    assert s.stage.order == [s.stage.order[0]] + s.stage.order[1..];
  }

  /** Every idle turn brings the next join closer, whatever the order of the sweep: a sweep begun in vain excepted. */
  lemma SpinsCloser(s: State, t: State)
    requires Spins(s, t)
    requires StartsSweep(s, t) ==> exists k :: k in s.executors && Joinable(s, k)
    ensures SpinDistance(t) < SpinDistance(s)
  {
    if StartsSweep(s, t) {
      EnumerationSize(t.stage.order, s.executors.Keys);
      var k :| k in s.executors && Joinable(s, k);
      assert k in t.stage.order && Joinable(t, k);
    } else if SweepSkips(s, t) {
      SkipIsCloser(s, t);
    }
  }

  lemma SkipIsCloser(s: State, t: State)
    requires SweepSkips(s, t)
    ensures SpinDistance(t) < SpinDistance(s)
  {
    var order := s.stage.order;
    assert order == [order[0]] + order[1..];
    assert forall x :: Joinable(t, x) == Joinable(s, x);
    hide Joinable;
    if k :| k in order && Joinable(s, k) {
      assert k in order[1..];
    }
  }

  /** Over an exited worker a sweep can be begun. */
  lemma SweepTowardsJoin(s: State, k: nat) returns (t: State)
    requires s.stage.Throttled? && s.numRunning > THROTTLE && k in s.executors && Joinable(s, k)
    ensures Spins(s, t) && SpinDistance(t) < SpinDistance(s)
  {
    var order := EnumerationExists(s.executors.Keys);
    t := s.(stage := Sweeping(s.stage.job, order));
    assert StartsSweep(s, t);
    SpinsCloser(s, t);
  }

  /** A sweep ends. */
  lemma SweepGoesOn(s: State) returns (t: State)
    requires s.stage.Sweeping? && (s.stage.order != [] ==> !Joinable(s, s.stage.order[0]))
    ensures Spins(s, t) && SpinDistance(t) < SpinDistance(s)
  {
    t := if s.stage.order == [] then s.(stage := Throttled(s.stage.job))
         else s.(stage := s.stage.(order := s.stage.order[1..]));
    assert EndsSweep(s, t) || SweepSkips(s, t);
    SpinsCloser(s, t);
  }

  /** A worker that is fed all its connection's entries has exited or can step. */
  lemma FedWorkerBusyOrExited(cfg: Config, stream: seq<Job>, s: State, h: nat)
    requires Marked(stream) && Inv(cfg, stream, s) && h < |s.crew.workers|
    requires NoMore(stream, Pushed(s), s.crew.workers[h].key) && FedTo(stream, Pushed(s), s.crew.workers[h].key) != []
    ensures CanStep(s.crew.workers[h]) || s.crew.workers[h].phase.Exited?
  {
    hide Served, KeysDistinct, SlotsOk, NullsOk, JoinsOk, OrderOk, CountOk, Unjoined, CountersAgree, Marked;
    var w := s.crew.workers[h];
    AllFedMeansNoMore(stream, Pushed(s), w.key);
    MarkedPlan(stream, w.key);
    assert WorkerOk(cfg, w, FedTo(stream, Pushed(s), w.key));
    ExitMeansPlanDone(cfg, w, FedTo(stream, Pushed(s), w.key), Filter(ByConn(w.key), stream));
  }

  /** Some worker in the table has got its last entry, if a new connection has to wait although the premise holds. */
  lemma SomeConnectionOver(cfg: Config, stream: seq<Job>, s: State) returns (c: nat)
    requires Marked(stream) && Inv(cfg, stream, s) && ConnectionsFit(stream)
    requires WaitingFor(s.stage).Some? && s.numRunning > THROTTLE
    ensures c in Live(s.executors) && NoMore(stream, Pushed(s), c) && FedTo(stream, Pushed(s), c) != []
  {
    hide Marked, WorkersOk, KeysDistinct, OrderOk, JoinsOk, NoMore, Unjoined;
    var i := Pushed(s);
    var job := stream[i];
    assert Starts(stream, i);
    assert FitsAt(stream, i);
    hide HasWorker, Starts;
    if Live(s.executors) <= OpenConns(stream, i) {
      SubsetSize(Live(s.executors), OpenConns(stream, i));
    }
    c :| c in Live(s.executors) && c !in OpenConns(stream, i);
    assert s.crew.workers[s.executors[c].value].key == c;
    var e := FedTo(stream, i, c)[0];
    FilterMember(ByConn(c), stream[..i], e);
    var j :| 0 <= j < i && stream[j] == e;
  }

  /** When a new connection has to wait, some worker in the table is on its way out, or gone and can be joined. */
  lemma SomeWorkerEnding(cfg: Config, stream: seq<Job>, s: State) returns (c: nat, h: nat)
    requires Marked(stream) && Inv(cfg, stream, s) && ConnectionsFit(stream)
    requires WaitingFor(s.stage).Some? && s.numRunning > THROTTLE
    ensures c in s.executors && h < |s.crew.workers|
    ensures CanStep(s.crew.workers[h]) || Joinable(s, c)
  {
    hide Marked, ConnectionsFit, WorkersOk, Served, KeysDistinct, NullsOk, JoinsOk, OrderOk, CountOk, Unjoined,
      CanStep, FedTo, NoMore;
    c := SomeConnectionOver(cfg, stream, s);
    h := s.executors[c].value;
    assert s.crew.workers[h].key == c;
    FedWorkerBusyOrExited(cfg, stream, s, h);
  }

  /** Workers take their steps unless they are idle or gone. */
  lemma WorkerAdvances(cfg: Config, stream: seq<Job>, s: State, h: nat) returns (t: State)
    requires ValidConfig(cfg) && Inv(cfg, stream, s) && h < |s.crew.workers| && CanStep(s.crew.workers[h])
    ensures Next(cfg, stream, s, t) && Closer(cfg, stream, t, s)
  {
    hide Served, KeysDistinct, SlotsOk, NullsOk, JoinsOk, OrderOk, CountOk, Unjoined, CountersAgree, WorkerOk,
      ValidConfig, Measure, SpinDistance, CrewStepAt;
    assert WorkerOk(cfg, s.crew.workers[h], FedTo(stream, Pushed(s), s.crew.workers[h].key));
    var crew := CrewCanStep(cfg, s.crew, h, FedTo(stream, Pushed(s), s.crew.workers[h].key));
    t := s.(crew := crew);
    assert WorkerMoves(cfg, s, t);
    hide Inv, WorkerMoves;
    AdvancesDecrease(cfg, stream, s, t);
  }

  lemma DispatcherAdvances(cfg: Config, stream: seq<Job>, s: State, t: State)
    requires ValidConfig(cfg) && Inv(cfg, stream, s) && Advances(cfg, stream, s, t)
    ensures Next(cfg, stream, s, t) && Closer(cfg, stream, t, s)
  {
    hide Inv, Advances, ValidConfig, Measure, SpinDistance;
    AdvancesDecrease(cfg, stream, s, t);
  }

  lemma PoppingAdvances(cfg: Config, stream: seq<Job>, s: State) returns (t: State)
    requires Marked(stream) && ValidConfig(cfg) && Inv(cfg, stream, s) && s.stage.Popping?
    ensures Next(cfg, stream, s, t) && Closer(cfg, stream, t, s)
  {
    hide WorkersOk, Served, KeysDistinct, SlotsOk, NullsOk, JoinsOk, OrderOk, CountOk, Unjoined, Closer, NoMore;
    if s.next == |stream| {
      var order := EnumerationExists(s.executors.Keys);
      t := s.(stage := Joining(order));
      assert EndsDispatch(stream, s, t);
    } else {
      var job := stream[s.next];
      t := if job.conn in s.executors && s.executors[job.conn].Some?
           then s.(next := s.next + 1, stage := Pushing(job))
           else s.(next := s.next + 1, stage := Throttled(job), executors := s.executors[job.conn := None]);
      assert PopsEntry(stream, s, t);
    }
    hide Inv, ValidConfig, Marked;
    DispatcherAdvances(cfg, stream, s, t);
  }

  /** A push goes through, or the full queue's worker makes room. */
  lemma PushingAdvances(cfg: Config, stream: seq<Job>, s: State) returns (t: State)
    requires Marked(stream) && ValidConfig(cfg) && Inv(cfg, stream, s) && s.stage.Pushing?
    ensures Next(cfg, stream, s, t) && Closer(cfg, stream, t, s)
  {
    hide Inv, Closer, Marked;
    PushTargetAlive(cfg, stream, s);
    var h := WorkerOf(s, s.stage.job.conn).value;
    if |s.crew.workers[h].queue| < cfg.depth {
      t := s.(stage := Popping, crew := Push(s.crew, h, s.stage.job));
      assert PushesEntry(cfg, s, t);
      hide ValidConfig, TargetAlive;
      DispatcherAdvances(cfg, stream, s, t);
    } else {
      t := WorkerAdvances(cfg, stream, s, h);
    }
  }

  lemma ThrottledAdvances(cfg: Config, stream: seq<Job>, s: State) returns (t: State)
    requires Marked(stream) && ValidConfig(cfg) && Inv(cfg, stream, s) && s.stage.Throttled?
    requires ConnectionsFit(stream)
    ensures Next(cfg, stream, s, t) && Closer(cfg, stream, t, s)
  {
    hide Marked, ValidConfig, ConnectionsFit, WorkersOk, Served, KeysDistinct, NullsOk, JoinsOk, OrderOk, CountOk,
      Unjoined, CanStep, FedTo, NoMore, Measure, SpinDistance, Spins;
    if s.numRunning <= THROTTLE {
      var c := s.stage.job.conn;
      t := s.(stage := Pushing(s.stage.job), executors := s.executors[c := Some(|s.crew.workers|)],
              numRunning := s.numRunning + 1, crew := Hire(s.crew, c), joins := s.joins + [0]);
      assert Creates(s, t);
      hide Inv, Creates;
      DispatcherAdvances(cfg, stream, s, t);
    } else {
      var c, h := SomeWorkerEnding(cfg, stream, s);
      if CanStep(s.crew.workers[h]) {
        t := WorkerAdvances(cfg, stream, s, h);
      } else {
        t := SweepTowardsJoin(s, c);
        SpinsKeepMeasure(cfg, stream, s, t);
      }
    }
  }

  lemma SweepingAdvances(cfg: Config, stream: seq<Job>, s: State) returns (t: State)
    requires ValidConfig(cfg) && Inv(cfg, stream, s) && s.stage.Sweeping?
    ensures Next(cfg, stream, s, t) && Closer(cfg, stream, t, s)
  {
    hide ValidConfig, WorkersOk, Served, KeysDistinct, NullsOk, CountOk, Measure, SpinDistance, Spins, JoinsOk;
    var order := s.stage.order;
    if order != [] && Joinable(s, order[0]) {
      var h := WorkerOf(s, order[0]).value;
      t := s.(stage := s.stage.(order := order[1..]), executors := s.executors - {order[0]},
              numRunning := s.numRunning - 1, joins := s.joins[h := s.joins[h] + 1]);
      assert SweepJoins(s, t);
      hide Inv, SweepJoins;
      DispatcherAdvances(cfg, stream, s, t);
    } else {
      hide Inv;
      t := SweepGoesOn(s);
      SpinsKeepMeasure(cfg, stream, s, t);
    }
  }

  lemma JoiningAdvances(cfg: Config, stream: seq<Job>, s: State) returns (t: State)
    requires Marked(stream) && ValidConfig(cfg) && Inv(cfg, stream, s) && s.stage.Joining?
    ensures Next(cfg, stream, s, t) && Closer(cfg, stream, t, s)
  {
    hide Marked, ValidConfig, WorkersOk, KeysDistinct, CountOk, Closer, CanStep, JoinsOk, Unjoined, NoMore, FedTo,
      HasWorker;
    var order := s.stage.order;
    if order == [] {
      t := s.(stage := Done);
      assert Finishes(s, t);
      hide Inv, Finishes;
      DispatcherAdvances(cfg, stream, s, t);
    } else {
      assert s.executors[order[0]].Some?;
      var h := s.executors[order[0]].value;
      assert h < |s.crew.workers| && s.crew.workers[h].key == order[0];
      if Joinable(s, order[0]) {
        t := s.(stage := Joining(order[1..]), joins := s.joins[h := s.joins[h] + 1]);
        assert FinalJoin(s, t);
        hide Inv, FinalJoin;
        DispatcherAdvances(cfg, stream, s, t);
      } else {
        NothingLeft(stream, s.crew.workers[h].key);
        FedWorkerBusyOrExited(cfg, stream, s, h);
        hide Inv;
        t := WorkerAdvances(cfg, stream, s, h);
      }
    }
  }

  lemma NothingLeft(stream: seq<Job>, c: nat)
    ensures NoMore(stream, |stream|, c)
  {
  }

  /** No reachable unfinished state is stuck: some step brings the end closer. */
  lemma CanAdvance(cfg: Config, stream: seq<Job>, s: State) returns (t: State)
    requires Marked(stream) && ValidConfig(cfg) && ConnectionsFit(stream) && Inv(cfg, stream, s) && !s.stage.Done?
    ensures Next(cfg, stream, s, t) && Closer(cfg, stream, t, s)
  {
    hide Marked, ValidConfig, ConnectionsFit, Inv, Next, Closer;
    match s.stage {
      case Popping => t := PoppingAdvances(cfg, stream, s);
      case Throttled(_) => t := ThrottledAdvances(cfg, stream, s);
      case Sweeping(_, _) => t := SweepingAdvances(cfg, stream, s);
      case Pushing(_) => t := PushingAdvances(cfg, stream, s);
      case Joining(_) => t := JoiningAdvances(cfg, stream, s);
    }
  }

  /** s leads to the end by the steps of path. */
  ghost predicate LeadsToDone(cfg: Config, stream: seq<Job>, s: State, path: seq<State>)
  {
    && path != [] && path[0] == s && path[|path| - 1].stage.Done?
    && forall i :: 0 <= i < |path| - 1 ==> Next(cfg, stream, path[i], path[i + 1])
  }

  /** From every reachable state the run can be completed. */
  lemma {:induction false} CanFinish(cfg: Config, stream: seq<Job>, s: State) returns (path: seq<State>)
    requires Marked(stream) && ValidConfig(cfg) && ConnectionsFit(stream) && Inv(cfg, stream, s)
    ensures LeadsToDone(cfg, stream, s, path)
    decreases Measure(cfg, stream, s), SpinDistance(s)
  {
    hide Marked, ValidConfig, ConnectionsFit, Inv, Next, Measure, SpinDistance;
    MeasureNonNegative(cfg, stream, s);
    if s.stage.Done? {
      path := [s];
    } else {
      var t := CanAdvance(cfg, stream, s);
      NextKeeps(cfg, stream, s, t);
      MeasureNonNegative(cfg, stream, t);
      var rest := CanFinish(cfg, stream, t);
      path := [s] + rest;
      assert forall i :: 1 <= i < |path| ==> path[i] == rest[i - 1];
    }
  }

  ghost predicate SomeRunFinishes(cfg: Config, stream: seq<Job>)
  {
    exists trace: seq<State> :: Run(cfg, stream, trace) && trace[|trace| - 1].stage.Done?
  }

  /**
    Exactly when a replay can finish: some run reaches the end if and only if every new connection finds at most
    THROTTLE others open.
   */
  lemma FinishesIffConnectionsFit(cfg: Config, stream: seq<Job>)
    requires Marked(stream) && ValidConfig(cfg)
    ensures SomeRunFinishes(cfg, stream) <==> ConnectionsFit(stream)
  {
    if ConnectionsFit(stream) {
      var s := State(0, Popping, map[], 0, Crew([], map[]), []);
      InitInv(cfg, stream, s);
      var path := CanFinish(cfg, stream, s);
      assert Run(cfg, stream, path);
    } else if SomeRunFinishes(cfg, stream) {
      var trace: seq<State> :| Run(cfg, stream, trace) && trace[|trace| - 1].stage.Done?;
      var i :| 0 <= i < |stream| && !FitsAt(stream, i);
      NeverFinishes(cfg, stream, trace, i, |trace| - 1);
    }
  }

  // ---------- Bounds over a whole run ----------

  /** How many of the first n steps are more than idle turns of the throttle loop. */
  ghost function WorkSteps(trace: seq<State>, n: nat): nat
    requires n < |trace|
  {
    if n == 0 then 0 else WorkSteps(trace, n - 1) + (if Spins(trace[n - 1], trace[n]) then 0 else 1)
  }

  /** In any interleaving the measure bounds the steps that are not idle turns of the throttle loop. */
  lemma {:induction false} WorkIsBounded(cfg: Config, stream: seq<Job>, trace: seq<State>, n: nat)
    requires Marked(stream) && ValidConfig(cfg) && Run(cfg, stream, trace) && n < |trace|
    ensures WorkSteps(trace, n) + Measure(cfg, stream, trace[n]) <= Measure(cfg, stream, trace[0])
    ensures WorkSteps(trace, n) <= Measure(cfg, stream, trace[0])
  {
    hide Marked, ValidConfig, Inv, Measure, Spins, Advances;
    RunKeepsInv(cfg, stream, trace, n);
    MeasureNonNegative(cfg, stream, trace[n]);
    if n > 0 {
      WorkIsBounded(cfg, stream, trace, n - 1);
      RunKeepsInv(cfg, stream, trace, n - 1);
      assert Next(cfg, stream, trace[n - 1], trace[n - 1 + 1]);
      if Spins(trace[n - 1], trace[n]) {
        SpinsKeepMeasure(cfg, stream, trace[n - 1], trace[n]);
      } else {
        AdvancesDecrease(cfg, stream, trace[n - 1], trace[n]);
      }
    }
  }

  // ---------- Streams that cannot be replayed ----------

  /** n connections of two entries each, all of which start before any of them ends. */
  predicate IsCrowd(stream: seq<Job>, n: nat)
  {
    && |stream| == 2 * n
    && forall i :: 0 <= i < |stream| ==> stream[i].Query? && stream[i].conn == if i < n then i else i - n
  }

  /** The numbers below n. */
  function Below(n: nat): (s: set<nat>)
    ensures |s| == n && forall c: nat :: c in s <==> c < n
  {
    if n == 0 then {} else Below(n - 1) + {n - 1}
  }

  /** The last of them to start finds all the others open. */
  lemma CrowdDoesNotFit(stream: seq<Job>, n: nat)
    requires IsCrowd(stream, n) && n > 10001
    ensures !ConnectionsFit(stream)
  {
    var i := n - 1;
    assert Starts(stream, i);
    forall c: nat | c < i
      ensures c in OpenConns(stream, i)
    {
      assert ByConn(c)(stream[n + c]) && stream[c].conn == c;
    }
    SubsetSize(Below(i), OpenConns(stream, i));
    assert !FitsAt(stream, i);
  }

  /** With more than 10001 interleaved connections the dispatcher waits forever: the case its comment admits. */
  lemma CrowdNeverFinishes(cfg: Config, stream: seq<Job>, n: nat)
    requires ValidConfig(cfg) && Marked(stream) && IsCrowd(stream, n) && n > 10001
    ensures !SomeRunFinishes(cfg, stream)
  {
    CrowdDoesNotFit(stream, n);
    hide ConnectionsFit, Marked, SomeRunFinishes, ValidConfig;
    FinishesIffConnectionsFit(cfg, stream);
  }
}
