/** A fairly scheduled replay ends: infinite runs of the thread-per-connection dispatcher and its workers. */
module PerConnectionFairness {
  import opened Seqs
  import opened Jobs
  import opened Reports
  import opened Workers
  import opened PerConnection
  import opened PerConnectionSafety
  import opened PerConnectionProgress

  /** A step of the dispatcher. */
  ghost predicate Dispatches(cfg: Config, stream: seq<Job>, s: State, t: State)
  {
    || PopsEntry(stream, s, t) || SweepJoins(s, t) || Creates(s, t) || PushesEntry(cfg, s, t)
    || EndsDispatch(stream, s, t) || FinalJoin(s, t) || Finishes(s, t) || Spins(s, t)
  }

  /** A step of worker h. */
  ghost predicate WorkerSteps(cfg: Config, s: State, t: State, h: nat)
  {
    t == s.(crew := t.crew) && CrewStepAt(cfg, s.crew, t.crew, h)
  }

  ghost predicate DispatcherEnabled(cfg: Config, stream: seq<Job>, s: State)
  {
    exists t :: Dispatches(cfg, stream, s, t)
  }

  ghost predicate WorkerEnabled(cfg: Config, s: State, h: nat)
  {
    exists t :: WorkerSteps(cfg, s, t, h)
  }

  /** One step of an infinite run, or a pause. */
  ghost predicate Moves(cfg: Config, stream: seq<Job>, s: State, t: State)
  {
    t == s || Next(cfg, stream, s, t)
  }

  ghost predicate InfiniteRun(cfg: Config, stream: seq<Job>, trace: nat -> State)
  {
    Init(trace(0)) && forall i: nat :: Moves(cfg, stream, trace(i), trace(i + 1))
  }

  /** At time j the dispatcher takes a step or has none to take. */
  ghost predicate DispatcherServed(cfg: Config, stream: seq<Job>, trace: nat -> State, j: nat)
  {
    DispatcherEnabled(cfg, stream, trace(j)) ==> Dispatches(cfg, stream, trace(j), trace(j + 1))
  }

  ghost predicate WorkerServed(cfg: Config, trace: nat -> State, h: nat, j: nat)
  {
    WorkerEnabled(cfg, trace(j), h) ==> WorkerSteps(cfg, trace(j), trace(j + 1), h)
  }

  ghost predicate DispatcherServedFrom(cfg: Config, stream: seq<Job>, trace: nat -> State, i: nat)
  {
    exists j: nat :: i <= j && DispatcherServed(cfg, stream, trace, j)
  }

  ghost predicate WorkerServedFrom(cfg: Config, trace: nat -> State, h: nat, i: nat)
  {
    exists j: nat :: i <= j && WorkerServed(cfg, trace, h, j)
  }

  /** Weak fairness: nobody who can always take a step is kept waiting for ever. */
  ghost predicate Fair(cfg: Config, stream: seq<Job>, trace: nat -> State)
  {
    && (forall i: nat :: DispatcherServedFrom(cfg, stream, trace, i))
    && (forall i: nat, h: nat :: WorkerServedFrom(cfg, trace, h, i))
  }

  // ---------- Who can step ----------

  lemma WorkerStepNeedsCanStep(cfg: Config, c: Crew, d: Crew, h: nat)
    requires CrewStepAt(cfg, c, d, h)
    ensures CanStep(c.workers[h])
  {
  }

  lemma CanStepEnables(cfg: Config, stream: seq<Job>, s: State, h: nat)
    requires Inv(cfg, stream, s) && h < |s.crew.workers| && CanStep(s.crew.workers[h])
    ensures WorkerEnabled(cfg, s, h)
  {
    hide CanStep, CrewStepAt, KeysDistinct, Served, SlotsOk, NullsOk, Unjoined, JoinsOk, OrderOk, CountOk, WorkerOk,
      CountersAgree;
    assert WorkerOk(cfg, s.crew.workers[h], FedTo(stream, Pushed(s), s.crew.workers[h].key));
    var crew := CrewCanStep(cfg, s.crew, h, FedTo(stream, Pushed(s), s.crew.workers[h].key));
    assert WorkerSteps(cfg, s, s.(crew := crew), h);
  }

  ghost predicate AllWait(s: State)
  {
    forall h :: 0 <= h < |s.crew.workers| ==> !CanStep(s.crew.workers[h])
  }

  /** While all workers wait, only the dispatcher steps. */
  lemma WaitingMeansDispatch(cfg: Config, stream: seq<Job>, s: State, t: State)
    requires AllWait(s) && Next(cfg, stream, s, t)
    ensures Dispatches(cfg, stream, s, t)
  {
    hide CanStep, CrewStepAt, PopsEntry, SweepJoins, Creates, PushesEntry, EndsDispatch, FinalJoin, Finishes, Spins;
    if WorkerMoves(cfg, s, t) {
      var h: nat :| CrewStepAt(cfg, s.crew, t.crew, h);
      StepIsOfWorker(cfg, s.crew, t.crew, h);
      WorkerStepNeedsCanStep(cfg, s.crew, t.crew, h);
    }
  }

  lemma StepIsOfWorker(cfg: Config, c: Crew, d: Crew, h: nat)
    requires CrewStepAt(cfg, c, d, h)
    ensures h < |c.workers|
  {
  }

  /** While all workers wait, every step of the dispatcher brings the end closer. */
  lemma DispatchCloser(cfg: Config, stream: seq<Job>, s: State, t: State)
    requires Marked(stream) && ValidConfig(cfg) && ConnectionsFit(stream) && Inv(cfg, stream, s)
    requires AllWait(s) && Dispatches(cfg, stream, s, t)
    ensures Closer(cfg, stream, t, s)
  {
    hide Marked, ValidConfig, ConnectionsFit, Inv, Measure, SpinDistance, CanStep, PopsEntry, SweepJoins, Creates,
      PushesEntry, EndsDispatch, FinalJoin, Finishes;
    if Spins(s, t) {
      SpinsKeepMeasure(cfg, stream, s, t);
      if StartsSweep(s, t) {
        ThrottledWaits(cfg, stream, s);
        var c, h := SomeWorkerEnding(cfg, stream, s);
      }
      hide Spins, StartsSweep, AllWait;
      SpinsCloser(s, t);
    } else {
      AdvancesDecrease(cfg, stream, s, t);
    }
  }

  lemma ThrottledWaits(cfg: Config, stream: seq<Job>, s: State)
    requires Inv(cfg, stream, s) && s.stage.Throttled?
    ensures WaitingFor(s.stage).Some?
  {
    hide WorkersOk, KeysDistinct, Served, SlotsOk, NullsOk, Unjoined, JoinsOk, OrderOk, CountOk;
  }

  lemma WaitingEnablesDispatcher(cfg: Config, stream: seq<Job>, s: State)
    requires Marked(stream) && ValidConfig(cfg) && ConnectionsFit(stream) && Inv(cfg, stream, s)
    requires AllWait(s) && !s.stage.Done?
    ensures DispatcherEnabled(cfg, stream, s)
  {
    hide Marked, ValidConfig, ConnectionsFit, Inv, AllWait, Next, Dispatches, Closer;
    var t := CanAdvance(cfg, stream, s);
    WaitingMeansDispatch(cfg, stream, s, t);
  }

  // ---------- Along a fair run ----------

  lemma {:induction false} TraceInv(cfg: Config, stream: seq<Job>, trace: nat -> State, i: nat)
    requires Marked(stream) && InfiniteRun(cfg, stream, trace)
    ensures Inv(cfg, stream, trace(i))
  {
    hide Inv, Marked, Next, Init;
    if i == 0 {
      InitInv(cfg, stream, trace(0));
    } else {
      TraceInv(cfg, stream, trace, i - 1);
      assert Moves(cfg, stream, trace(i - 1), trace(i - 1 + 1));
      if trace(i) != trace(i - 1) {
        NextKeeps(cfg, stream, trace(i - 1), trace(i));
      }
    }
  }

  lemma StepIsAdvance(cfg: Config, stream: seq<Job>, s: State, t: State, h: nat)
    requires WorkerSteps(cfg, s, t, h)
    ensures Advances(cfg, stream, s, t)
  {
    assert WorkerMoves(cfg, s, t);
  }

  /** A step that is no advance leaves the crew and the work as they are. */
  lemma NoAdvance(cfg: Config, stream: seq<Job>, s: State, t: State)
    requires Moves(cfg, stream, s, t) && !Advances(cfg, stream, s, t)
    ensures t.crew == s.crew && Measure(cfg, stream, t) == Measure(cfg, stream, s)
  {
    hide Advances, Measure;
    if t != s {
      SpinsKeepMeasure(cfg, stream, s, t);
    }
  }

  /** If a worker can step at i and is served at j, some step in between takes away from the work left. */
  lemma {:induction false} NextAdvance(cfg: Config, stream: seq<Job>, trace: nat -> State, i: nat, j: nat,
                                       h: nat) returns (m: nat)
    requires Marked(stream) && InfiniteRun(cfg, stream, trace) && i <= j && WorkerServed(cfg, trace, h, j)
    requires h < |trace(i).crew.workers| && CanStep(trace(i).crew.workers[h])
    ensures i <= m && Advances(cfg, stream, trace(m), trace(m + 1))
    ensures Measure(cfg, stream, trace(m)) == Measure(cfg, stream, trace(i))
    decreases j - i
  {
    hide Marked, Advances, Measure, CanStep, Next, Init, Inv, WorkerEnabled, WorkerSteps;
    if Advances(cfg, stream, trace(i), trace(i + 1)) {
      m := i;
    } else {
      if i == j {
        TraceInv(cfg, stream, trace, i);
        CanStepEnables(cfg, stream, trace(i), h);
        StepIsAdvance(cfg, stream, trace(i), trace(i + 1), h);
        assert false;
      }
      assert Moves(cfg, stream, trace(i), trace(i + 1));
      NoAdvance(cfg, stream, trace(i), trace(i + 1));
      m := NextAdvance(cfg, stream, trace, i + 1, j, h);
    }
  }

  /** If all workers wait at i and the dispatcher is served at j, it is the next to step. */
  lemma {:induction false} NextDispatch(cfg: Config, stream: seq<Job>, trace: nat -> State, i: nat,
                                        j: nat) returns (m: nat)
    requires Marked(stream) && ValidConfig(cfg) && ConnectionsFit(stream) && InfiniteRun(cfg, stream, trace)
    requires i <= j && DispatcherServed(cfg, stream, trace, j) && AllWait(trace(i)) && !trace(i).stage.Done?
    ensures i <= m && trace(m) == trace(i) && Dispatches(cfg, stream, trace(m), trace(m + 1))
    decreases j - i
  {
    hide Marked, ValidConfig, ConnectionsFit, AllWait, Next, Init, Inv, Dispatches, DispatcherEnabled;
    assert Moves(cfg, stream, trace(i), trace(i + 1));
    if trace(i + 1) != trace(i) {
      m := i;
      WaitingMeansDispatch(cfg, stream, trace(i), trace(i + 1));
    } else if i == j {
      TraceInv(cfg, stream, trace, i);
      WaitingEnablesDispatcher(cfg, stream, trace(i));
      m := i;
    } else {
      m := NextDispatch(cfg, stream, trace, i + 1, j);
    }
  }

  lemma {:induction false} ReachesDone(cfg: Config, stream: seq<Job>, trace: nat -> State, i: nat) returns (n: nat)
    requires Marked(stream) && ValidConfig(cfg) && ConnectionsFit(stream)
    requires InfiniteRun(cfg, stream, trace) && Fair(cfg, stream, trace)
    ensures i <= n && trace(n).stage.Done?
    decreases Measure(cfg, stream, trace(i)), SpinDistance(trace(i))
  {
    hide Marked, ValidConfig, ConnectionsFit, InfiniteRun, Inv, Measure, SpinDistance, CanStep, WorkerServed,
      DispatcherServed, Dispatches, Advances;
    TraceInv(cfg, stream, trace, i);
    MeasureNonNegative(cfg, stream, trace(i));
    if trace(i).stage.Done? {
      n := i;
    } else if h: nat :| h < |trace(i).crew.workers| && CanStep(trace(i).crew.workers[h]) {
      assert WorkerServedFrom(cfg, trace, h, i);
      var j: nat :| i <= j && WorkerServed(cfg, trace, h, j);
      var m := NextAdvance(cfg, stream, trace, i, j, h);
      TraceInv(cfg, stream, trace, m);
      AdvancesDecrease(cfg, stream, trace(m), trace(m + 1));
      TraceInv(cfg, stream, trace, m + 1);
      MeasureNonNegative(cfg, stream, trace(m + 1));
      n := ReachesDone(cfg, stream, trace, m + 1);
    } else {
      assert DispatcherServedFrom(cfg, stream, trace, i);
      var j: nat :| i <= j && DispatcherServed(cfg, stream, trace, j);
      var m := NextDispatch(cfg, stream, trace, i, j);
      DispatchCloser(cfg, stream, trace(m), trace(m + 1));
      TraceInv(cfg, stream, trace, m + 1);
      MeasureNonNegative(cfg, stream, trace(m + 1));
      n := ReachesDone(cfg, stream, trace, m + 1);
    }
  }

  /** Nobody can step when dispatch and the final join are over. */
  lemma DoneIsQuiet(cfg: Config, stream: seq<Job>, s: State)
    requires Marked(stream) && Inv(cfg, stream, s) && s.stage.Done?
    ensures !DispatcherEnabled(cfg, stream, s) && forall h: nat :: !WorkerEnabled(cfg, s, h)
  {
    hide Marked, Inv, CrewStepAt, Enumerates, Complete, CountersAgree, KeysDistinct, HasWorker;
    DoneMeansDelivered(cfg, stream, s);
    if h: nat, t :| WorkerSteps(cfg, s, t, h) {
      InCrew(cfg, s.crew, t.crew, h);
      WorkerStepNeedsCanStep(cfg, s.crew, t.crew, h);
      CompleteStays(cfg, stream, s.crew.workers[h]);
    }
  }

  lemma InCrew(cfg: Config, c: Crew, d: Crew, h: nat)
    requires CrewStepAt(cfg, c, d, h)
    ensures h < |c.workers|
  {
  }

  lemma CompleteStays(cfg: Config, stream: seq<Job>, w: Worker)
    requires Complete(cfg, stream, w)
    ensures !CanStep(w)
  {
  }

  /** Fair runs there are: one that finishes and pauses from then on. */
  lemma FairRunExists(cfg: Config, stream: seq<Job>)
    requires Marked(stream) && ValidConfig(cfg) && ConnectionsFit(stream)
    ensures exists trace: nat -> State :: InfiniteRun(cfg, stream, trace) && Fair(cfg, stream, trace)
  {
    hide Marked, ValidConfig, ConnectionsFit, Inv, Next, Init, DispatcherEnabled, WorkerEnabled, Dispatches,
      WorkerSteps;
    FinishesIffConnectionsFit(cfg, stream);
    var path: seq<State> :| Run(cfg, stream, path) && path[|path| - 1].stage.Done?;
    var n := |path| - 1;
    RunKeepsInv(cfg, stream, path, n);
    DoneIsQuiet(cfg, stream, path[n]);
    var trace := (i: nat) => if i < n then path[i] else path[n];
    forall i: nat
      ensures Moves(cfg, stream, trace(i), trace(i + 1))
    {
      assert i < n ==> Next(cfg, stream, path[i], path[i + 1]);
    }
    forall i: nat
      ensures DispatcherServedFrom(cfg, stream, trace, i)
    {
      assert DispatcherServed(cfg, stream, trace, i + n);
    }
    forall i: nat, h: nat
      ensures WorkerServedFrom(cfg, trace, h, i)
    {
      assert WorkerServed(cfg, trace, h, i + n);
    }
    assert InfiniteRun(cfg, stream, trace) && Fair(cfg, stream, trace);
  }

  /** Every fairly scheduled replay ends, if every new connection finds at most THROTTLE others open. */
  lemma FairRunsFinish(cfg: Config, stream: seq<Job>, trace: nat -> State)
    requires Marked(stream) && ValidConfig(cfg) && ConnectionsFit(stream)
    requires InfiniteRun(cfg, stream, trace) && Fair(cfg, stream, trace)
    ensures exists n: nat :: trace(n).stage.Done?
  {
    var n := ReachesDone(cfg, stream, trace, 0);
  }
}
