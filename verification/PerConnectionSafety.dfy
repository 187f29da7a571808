/** Every step of the thread-per-connection dispatcher keeps the invariant. */
module PerConnectionSafety {
  import opened Seqs
  import opened Jobs
  import opened Reports
  import opened Workers
  import opened PerConnection

  /** At the loop head a connection without a slot never had a worker. */
  lemma NoSlotNoWorker(cfg: Config, stream: seq<Job>, s: State)
    requires Marked(stream) && Inv(cfg, stream, s)
    requires s.stage.Popping? && s.next < |stream|
    requires stream[s.next].conn !in s.executors
    ensures !HasWorker(s.crew, stream[s.next].conn)
  {
    hide WorkersOk, Complete, Served, NullsOk, SlotsOk, CountOk;
    var c := stream[s.next].conn;
    if HasWorker(s.crew, c) {
      var h :| 0 <= h < |s.crew.workers| && s.crew.workers[h].key == c;
      assert s.joins[h] == 1;
      ExitedComplete(cfg, stream, s, h);
    }
  }

  /** A null slot for a connection that never had a worker. */
  lemma NullSlotAdded(table: map<nat, Option<nat>>, crew: Crew, joins: seq<nat>, numRunning: int,
                                         c: nat)
    requires SlotsOk(table, crew) && NullsOk(table, crew, None) && Unjoined(table, joins)
    requires JoinsOk(table, crew, joins) && CountOk(table, numRunning)
    requires c !in table && !HasWorker(crew, c)
    ensures var t := table[c := None];
            && SlotsOk(t, crew) && NullsOk(t, crew, Some(c)) && Unjoined(t, joins)
            && JoinsOk(t, crew, joins) && CountOk(t, numRunning)
  {
    assert Live(table[c := None]) == Live(table);
    assert forall h :: 0 <= h < |joins| ==> crew.workers[h].key != c;
  }

  lemma PopsEntryKeeps(cfg: Config, stream: seq<Job>, s: State, t: State)
    requires Marked(stream) && Inv(cfg, stream, s) && PopsEntry(stream, s, t)
    ensures Inv(cfg, stream, t)
  {
    hide Marked, WorkersOk, Served, KeysDistinct, HasWorker, Unjoined, JoinsOk, CountOk;
    var c := stream[s.next].conn;
    assert c in s.executors ==> s.executors[c].Some?;
    hide SlotsOk;
    if c !in s.executors {
      NoSlotNoWorker(cfg, stream, s);
      NullSlotAdded(s.executors, s.crew, s.joins, s.numRunning, c);
      hide NullsOk;
    } else {
      ServedWhilePushing(stream, Pushed(s), s.crew, c);
    }
  }

  lemma ServedWhilePushing(stream: seq<Job>, k: int, crew: Crew, c: nat)
    requires 0 <= k <= |stream| && Served(stream, k, crew, None)
    ensures Served(stream, k, crew, Some(c))
  {
  }

  lemma SpinKeeps(cfg: Config, stream: seq<Job>, s: State, t: State)
    requires Inv(cfg, stream, s) && Spins(s, t)
    ensures Inv(cfg, stream, t)
  {
    hide WorkersOk, Served, KeysDistinct, NullsOk, SlotsOk, JoinsOk, CountOk, Unjoined;
    if SweepSkips(s, t) {
      assert forall k :: k in t.stage.order ==> k in s.stage.order;
    }
  }

  /** A joined worker leaves the table. */
  lemma SlotRemoved(table: map<nat, Option<nat>>, crew: Crew, joins: seq<nat>, numRunning: int,
                                       k: nat)
    requires SlotsOk(table, crew) && Unjoined(table, joins) && JoinsOk(table, crew, joins) && KeysDistinct(crew)
    requires CountOk(table, numRunning) && k in table && table[k].Some? && crew.workers[table[k].value].phase.Exited?
    ensures var t, h := table - {k}, table[k].value;
            && h < |joins| && SlotsOk(t, crew) && Unjoined(t, joins[h := joins[h] + 1])
            && JoinsOk(t, crew, joins[h := joins[h] + 1]) && CountOk(t, numRunning - 1)
  {
    assert Live(table - {k}) == Live(table) - {k};
  }

  lemma SweepJoinsKeeps(cfg: Config, stream: seq<Job>, s: State, t: State)
    requires Inv(cfg, stream, s) && SweepJoins(s, t)
    ensures Inv(cfg, stream, t)
  {
    hide WorkersOk, Served, HasWorker, JoinsOk, CountOk, KeysDistinct, SlotsOk, Unjoined;
    var k := s.stage.order[0];
    SlotRemoved(s.executors, s.crew, s.joins, s.numRunning, k);
    assert forall x :: x in t.stage.order ==> x in s.stage.order && x != k;
  }

  lemma CreatedServed(cfg: Config, stream: seq<Job>, k: int, crew: Crew, c: nat)
    requires 0 <= k <= |stream| && WorkersOk(cfg, stream, k, crew) && Served(stream, k, crew, None)
    requires !HasWorker(crew, c)
    ensures WorkersOk(cfg, stream, k, Hire(crew, c)) && Served(stream, k, Hire(crew, c), Some(c))
  {
    hide WorkerOk, CountersAgree;
    var n := |crew.workers|;
    HireKeepsCounters(crew, c);
    if FedTo(stream, k, c) != [] {
      FedHasWorker(stream, k, crew, None, c);
    }
    NewWorkerOk(cfg, c);
    forall d | HasWorker(crew, d)
      ensures HasWorker(Hire(crew, c), d)
    {
      var h :| 0 <= h < n && crew.workers[h].key == d;
      assert Hire(crew, c).workers[h].key == d;
    }
  }

  /** A connection that has been fed has a worker. */
  lemma FedHasWorker(stream: seq<Job>, k: int, crew: Crew, pushingTo: Option<nat>, c: nat)
    requires 0 <= k <= |stream| && Served(stream, k, crew, pushingTo) && FedTo(stream, k, c) != []
    ensures HasWorker(crew, c)
  {
    var e := FedTo(stream, k, c)[0];
    FilterMember(ByConn(c), stream[..k], e);
    var i :| 0 <= i < k && stream[i] == e;
  }

  /** The new worker is unjoined, in its slot, and the first of its connection. */
  lemma FilledJoins(table: map<nat, Option<nat>>, crew: Crew, joins: seq<nat>, c: nat)
    requires JoinsOk(table, crew, joins) && KeysDistinct(crew) && !HasWorker(crew, c)
    ensures var t, d := table[c := Some(|crew.workers|)], Hire(crew, c);
            JoinsOk(t, d, joins + [0]) && KeysDistinct(d)
  {
    assert forall h :: 0 <= h < |joins| ==> crew.workers[h].key != c;
    hide HasWorker;
  }

  lemma FilledSlots(table: map<nat, Option<nat>>, crew: Crew, joins: seq<nat>, c: nat)
    requires SlotsOk(table, crew) && NullsOk(table, crew, Some(c)) && Unjoined(table, joins)
    requires |joins| == |crew.workers|
    ensures var t, d := table[c := Some(|crew.workers|)], Hire(crew, c);
            SlotsOk(t, d) && NullsOk(t, d, None) && Unjoined(t, joins + [0])
  {
    hide HasWorker;
  }

  /** The null slot gets the new worker. */
  lemma SlotFilled(table: map<nat, Option<nat>>, crew: Crew, joins: seq<nat>, c: nat)
    requires SlotsOk(table, crew) && NullsOk(table, crew, Some(c)) && Unjoined(table, joins)
    requires JoinsOk(table, crew, joins) && KeysDistinct(crew)
    ensures var t, d := table[c := Some(|crew.workers|)], Hire(crew, c);
            && SlotsOk(t, d) && NullsOk(t, d, None) && Unjoined(t, joins + [0]) && JoinsOk(t, d, joins + [0])
            && KeysDistinct(d)
  {
    hide SlotsOk, Unjoined, KeysDistinct, HasWorker;
    FilledJoins(table, crew, joins, c);
    FilledSlots(table, crew, joins, c);
  }

  lemma SlotCounted(table: map<nat, Option<nat>>, numRunning: int, c: nat, h: nat)
    requires CountOk(table, numRunning) && numRunning <= THROTTLE && c in table && table[c].None?
    ensures CountOk(table[c := Some(h)], numRunning + 1)
  {
    assert Live(table[c := Some(h)]) == Live(table) + {c};
  }

  lemma CreatesKeeps(cfg: Config, stream: seq<Job>, s: State, t: State)
    requires Inv(cfg, stream, s) && Creates(s, t)
    ensures Inv(cfg, stream, t)
  {
    hide WorkersOk, Served, SlotsOk, Unjoined, JoinsOk, KeysDistinct, CountOk, HasWorker;
    var c := s.stage.job.conn;
    assert c in s.executors && s.executors[c].None? && !HasWorker(s.crew, c);
    hide NullsOk;
    CreatedServed(cfg, stream, Pushed(s), s.crew, c);
    SlotFilled(s.executors, s.crew, s.joins, c);
    SlotCounted(s.executors, s.numRunning, c, |s.crew.workers|);
  }

  lemma PushedServed(cfg: Config, stream: seq<Job>, k: int, crew: Crew, h: nat)
    requires 0 <= k < |stream| && stream[k].Query? && WorkersOk(cfg, stream, k, crew) && KeysDistinct(crew)
    requires Served(stream, k, crew, Some(stream[k].conn))
    requires h < |crew.workers| && crew.workers[h].key == stream[k].conn
    ensures WorkersOk(cfg, stream, k + 1, Push(crew, h, stream[k]))
    ensures Served(stream, k + 1, Push(crew, h, stream[k]), None)
  {
    hide WorkerOk, CountersAgree;
    var job, crew' := stream[k], Push(crew, h, stream[k]);
    PushKeepsCounters(crew, h, job);
    forall g | 0 <= g < |crew.workers|
      ensures WorkerOk(cfg, crew'.workers[g], FedTo(stream, k + 1, crew'.workers[g].key))
      ensures FedTo(stream, k + 1, crew'.workers[g].key) != []
    {
      var w := crew.workers[g];
      FilterPrefix(ByConn(w.key), stream, k);
      if g == h {
        PushOk(cfg, w, FedTo(stream, k, w.key), job);
      } else {
        assert w.key != job.conn;
        assert FedTo(stream, k + 1, w.key) == FedTo(stream, k, w.key);
      }
    }
    SameKeys(crew, crew');
    assert HasWorker(crew, job.conn);
  }

  lemma SameKeys(a: Crew, b: Crew)
    requires |a.workers| == |b.workers| && forall h :: 0 <= h < |a.workers| ==> b.workers[h].key == a.workers[h].key
    ensures forall c :: HasWorker(a, c) <==> HasWorker(b, c)
  {
    forall c
      ensures HasWorker(a, c) <==> HasWorker(b, c)
    {
      if HasWorker(a, c) {
        var h :| 0 <= h < |a.workers| && a.workers[h].key == c;
        assert b.workers[h].key == c;
      }
    }
  }

  /** A push changes neither keys nor phases. */
  lemma PushTable(table: map<nat, Option<nat>>, crew: Crew, joins: seq<nat>, h: nat, j: Job)
    requires h < |crew.workers|
    requires SlotsOk(table, crew) && NullsOk(table, crew, None) && JoinsOk(table, crew, joins) && KeysDistinct(crew)
    ensures var d := Push(crew, h, j);
            SlotsOk(table, d) && NullsOk(table, d, None) && JoinsOk(table, d, joins) && KeysDistinct(d)
  {
  }

  lemma PushesEntryKeeps(cfg: Config, stream: seq<Job>, s: State, t: State)
    requires Inv(cfg, stream, s) && PushesEntry(cfg, s, t)
    ensures Inv(cfg, stream, t)
  {
    hide WorkersOk, Served, HasWorker, KeysDistinct, JoinsOk, CountOk;
    var h := WorkerOf(s, s.stage.job.conn).value;
    assert s.crew.workers[h].key == s.stage.job.conn;
    hide SlotsOk, NullsOk, Unjoined;
    PushedServed(cfg, stream, Pushed(s), s.crew, h);
    PushTable(s.executors, s.crew, s.joins, h, s.stage.job);
  }

  lemma EndsDispatchKeeps(cfg: Config, stream: seq<Job>, s: State, t: State)
    requires Inv(cfg, stream, s) && EndsDispatch(stream, s, t)
    ensures Inv(cfg, stream, t)
  {
    hide WorkersOk, Served, CountOk, HasWorker;
  }

  lemma FinalJoinKeeps(cfg: Config, stream: seq<Job>, s: State, t: State)
    requires Inv(cfg, stream, s) && FinalJoin(s, t)
    ensures Inv(cfg, stream, t)
  {
    hide WorkersOk, Served, CountOk, HasWorker, NullsOk;
    var k := s.stage.order[0];
    assert s.joins[WorkerOf(s, k).value] == 0;
    assert forall x :: x in t.stage.order <==> x in s.stage.order && x != k;
  }

  lemma FinishesKeeps(cfg: Config, stream: seq<Job>, s: State, t: State)
    requires Inv(cfg, stream, s) && Finishes(s, t)
    ensures Inv(cfg, stream, t)
  {
    hide WorkersOk, Served, KeysDistinct, SlotsOk, CountOk, HasWorker, JoinsOk;
  }

  lemma MovedServed(cfg: Config, stream: seq<Job>, k: int, a: Crew, b: Crew, h: nat,
                                       pushingTo: Option<nat>)
    requires 0 <= k <= |stream| && WorkersOk(cfg, stream, k, a) && Served(stream, k, a, pushingTo)
    requires CrewStepAt(cfg, a, b, h)
    ensures WorkersOk(cfg, stream, k, b) && Served(stream, k, b, pushingTo)
    ensures |a.workers| == |b.workers| && forall g :: 0 <= g < |a.workers| ==> b.workers[g].key == a.workers[g].key
    ensures b.workers == a.workers[h := b.workers[h]] && !a.workers[h].phase.Exited?
    ensures forall c :: HasWorker(a, c) <==> HasWorker(b, c)
  {
    hide WorkerOk, CountersAgree, HasWorker;
    CrewStepOk(cfg, a, b, h, FedTo(stream, k, a.workers[h].key));
    assert !a.workers[h].phase.Exited?;
    SameKeys(a, b);
  }

  lemma WorkerMovesKeeps(cfg: Config, stream: seq<Job>, s: State, t: State)
    requires Inv(cfg, stream, s) && WorkerMoves(cfg, s, t)
    ensures Inv(cfg, stream, t)
  {
    hide WorkersOk, Served, CountOk, HasWorker, Unjoined, CrewStepAt;
    var h :| CrewStepAt(cfg, s.crew, t.crew, h);
    MovedServed(cfg, stream, Pushed(s), s.crew, t.crew, h, PushingTo(s.stage));
  }

  /** The invariant is inductive. */
  lemma NextKeeps(cfg: Config, stream: seq<Job>, s: State, t: State)
    requires Marked(stream) && Inv(cfg, stream, s) && Next(cfg, stream, s, t)
    ensures Inv(cfg, stream, t)
  {
    hide Inv, Marked, PopsEntry, SweepJoins, Creates, PushesEntry, EndsDispatch, FinalJoin, Finishes, WorkerMoves,
      Spins;
    if PopsEntry(stream, s, t) {
      PopsEntryKeeps(cfg, stream, s, t);
    } else if SweepJoins(s, t) {
      SweepJoinsKeeps(cfg, stream, s, t);
    } else if Creates(s, t) {
      CreatesKeeps(cfg, stream, s, t);
    } else if PushesEntry(cfg, s, t) {
      PushesEntryKeeps(cfg, stream, s, t);
    } else if EndsDispatch(stream, s, t) {
      EndsDispatchKeeps(cfg, stream, s, t);
    } else if FinalJoin(s, t) {
      FinalJoinKeeps(cfg, stream, s, t);
    } else if Finishes(s, t) {
      FinishesKeeps(cfg, stream, s, t);
    } else if WorkerMoves(cfg, s, t) {
      WorkerMovesKeeps(cfg, stream, s, t);
    } else {
      SpinKeeps(cfg, stream, s, t);
    }
  }

  // ---------- Whole runs ----------

  /** A run of the dispatcher and its workers from the start, in any interleaving. */
  ghost predicate Run(cfg: Config, stream: seq<Job>, trace: seq<State>)
  {
    && trace != [] && Init(trace[0])
    && forall i :: 0 <= i < |trace| - 1 ==> Next(cfg, stream, trace[i], trace[i + 1])
  }

  lemma {:induction false} RunKeepsInv(cfg: Config, stream: seq<Job>, trace: seq<State>, i: nat)
    requires Marked(stream) && Run(cfg, stream, trace) && i < |trace|
    ensures Inv(cfg, stream, trace[i])
  {
    hide Inv, Next, Init, Marked;
    if i == 0 {
      InitInv(cfg, stream, trace[0]);
    } else {
      RunKeepsInv(cfg, stream, trace, i - 1);
      assert Next(cfg, stream, trace[i - 1], trace[i - 1 + 1]);
      NextKeeps(cfg, stream, trace[i - 1], trace[i]);
    }
  }

  /** No queue ever holds more entries than its depth. */
  lemma {:induction false} QueuesNeverOverfull(cfg: Config, stream: seq<Job>, trace: seq<State>, i: nat)
    requires Run(cfg, stream, trace) && i < |trace|
    ensures QueuesFit(cfg, trace[i].crew)
  {
    hide Next;
    if i > 0 {
      QueuesNeverOverfull(cfg, stream, trace, i - 1);
      assert Next(cfg, stream, trace[i - 1], trace[i - 1 + 1]);
      NextKeepsFit(cfg, stream, trace[i - 1], trace[i]);
    }
  }

  lemma NextKeepsFit(cfg: Config, stream: seq<Job>, s: State, t: State)
    requires Next(cfg, stream, s, t) && QueuesFit(cfg, s.crew)
    ensures QueuesFit(cfg, t.crew)
  {
    hide CrewStepAt, Enumerates;
    if WorkerMoves(cfg, s, t) {
      var h: nat :| CrewStepAt(cfg, s.crew, t.crew, h);
      StepKeepsFit(cfg, s.crew, t.crew, h);
    }
  }

  /** Up to 10000 threads nothing is swept and nothing joined until the entries have run out. */
  ghost predicate UnreapedWhileFew(s: State)
  {
    && s.numRunning <= |s.crew.workers|
    && (|s.crew.workers| <= 10000 && !Ending(s.stage) ==>
          !s.stage.Sweeping? && forall h :: 0 <= h < |s.joins| ==> s.joins[h] == 0)
  }

  lemma NextKeepsUnreaped(cfg: Config, stream: seq<Job>, s: State, t: State)
    requires Next(cfg, stream, s, t) && UnreapedWhileFew(s)
    ensures UnreapedWhileFew(t)
  {
    hide Enumerates, Joinable;
  }

  /** The dispatcher sweeps for finished threads only once it has started more than 10000. */
  lemma {:induction false} SweepsOnlyCrowds(cfg: Config, stream: seq<Job>, trace: seq<State>, i: nat)
    requires Run(cfg, stream, trace) && i < |trace|
    ensures UnreapedWhileFew(trace[i])
  {
    hide Next, UnreapedWhileFew;
    if i == 0 {
      NoneReaped(trace[0]);
    } else {
      SweepsOnlyCrowds(cfg, stream, trace, i - 1);
      assert Next(cfg, stream, trace[i - 1], trace[i - 1 + 1]);
      NextKeepsUnreaped(cfg, stream, trace[i - 1], trace[i]);
    }
  }

  lemma NoneReaped(s: State)
    requires Init(s)
    ensures UnreapedWhileFew(s)
  {
  }

  /** The entry in the dispatcher's hand goes to a worker that is running and not joined. */
  ghost predicate TargetAlive(s: State)
  {
    s.stage.Pushing? ==>
      && s.stage.job.Query? && WorkerOf(s, s.stage.job.conn).Some?
      && var h := WorkerOf(s, s.stage.job.conn).value;
         && s.crew.workers[h].key == s.stage.job.conn && !s.crew.workers[h].phase.Exited?
         && h < |s.joins| && s.joins[h] == 0
  }

  lemma PushTargetAlive(cfg: Config, stream: seq<Job>, s: State)
    requires Marked(stream) && Inv(cfg, stream, s)
    ensures TargetAlive(s)
  {
    hide WorkersOk, KeysDistinct, Served, JoinsOk, OrderOk, CountOk, Marked, HasWorker, Complete;
    if s.stage.Pushing? {
      var h := WorkerOf(s, s.stage.job.conn).value;
      assert ByConn(s.stage.job.conn)(stream[s.next - 1]);
      if s.crew.workers[h].phase.Exited? {
        ExitedComplete(cfg, stream, s, h);
      }
    }
  }

  /**
    In every reachable state: no connection has two threads, no thread is joined twice or before it exited, nothing
    is about to be pushed to an exited or joined thread, and num_running is the number of non-null slots, at most
    one above the throttle.
   */
  lemma AlwaysSafe(cfg: Config, stream: seq<Job>, trace: seq<State>, i: nat)
    requires Marked(stream) && Run(cfg, stream, trace) && i < |trace|
    ensures KeysDistinct(trace[i].crew)
    ensures JoinsOk(trace[i].executors, trace[i].crew, trace[i].joins)
    ensures TargetAlive(trace[i])
    ensures trace[i].numRunning == |Live(trace[i].executors)| <= 10001
  {
    RunKeepsInv(cfg, stream, trace, i);
    PushTargetAlive(cfg, stream, trace[i]);
    hide KeysDistinct, JoinsOk, TargetAlive, WorkersOk, Served, SlotsOk, NullsOk, OrderOk, Run, Marked;
  }

  /**
    What a finished run has done: every connection got exactly one thread, which popped exactly the connection's
    entries in stream order, executed the queries and reconnected at the Quit entries among them, ended with an
    empty queue, exited, and was joined exactly once.
   */
  ghost predicate Delivered(cfg: Config, stream: seq<Job>, s: State)
  {
    && KeysDistinct(s.crew)
    && (forall i :: 0 <= i < |stream| && stream[i].Query? ==> HasWorker(s.crew, stream[i].conn))
    && |s.joins| == |s.crew.workers|
    && (forall h :: 0 <= h < |s.crew.workers| ==>
          Complete(cfg, stream, s.crew.workers[h]) && s.crew.workers[h].popped != [] && s.joins[h] == 1)
    && CountersAgree(s.crew)
  }

  lemma DoneMeansDelivered(cfg: Config, stream: seq<Job>, s: State)
    requires Marked(stream) && Inv(cfg, stream, s) && s.stage.Done?
    ensures Delivered(cfg, stream, s)
  {
    hide WorkerOk, CountersAgree, Complete, HasWorker, SlotsOk, NullsOk, CountOk, Marked;
    forall h | 0 <= h < |s.crew.workers|
      ensures Complete(cfg, stream, s.crew.workers[h]) && s.crew.workers[h].popped != [] && s.joins[h] == 1
    {
      assert s.joins[h] == 1;
      ExitedComplete(cfg, stream, s, h);
      AllFedMeansNoMore(stream, |stream|, s.crew.workers[h].key);
      assert Complete(cfg, stream, s.crew.workers[h]) ==> s.crew.workers[h].popped != [] by {
        CompletePopped(cfg, stream, s.crew.workers[h]);
      }
    }
  }

  lemma CompletePopped(cfg: Config, stream: seq<Job>, w: Worker)
    requires Complete(cfg, stream, w) && FedTo(stream, |stream|, w.key) != []
    ensures w.popped != []
  {
    assert stream[..|stream|] == stream;
  }

  /** Exactly-once, in-order delivery, for every interleaving and every queue depth. */
  lemma ExactlyOnceInOrder(cfg: Config, stream: seq<Job>, trace: seq<State>)
    requires Marked(stream) && Run(cfg, stream, trace) && trace[|trace| - 1].stage.Done?
    ensures Delivered(cfg, stream, trace[|trace| - 1])
  {
    var last: nat := |trace| - 1;
    hide Marked, Run, Inv, Delivered;
    RunKeepsInv(cfg, stream, trace, last);
    DoneMeansDelivered(cfg, stream, trace[last]);
  }
}
