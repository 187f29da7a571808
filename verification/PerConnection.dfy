/**
  The thread-per-connection dispatcher and its workers as a transition system: what every step keeps, and what
  holds when dispatch and the final join are over.
 */
module PerConnection {
  import opened Seqs
  import opened Jobs
  import opened Reports
  import opened Workers

  /** The dispatcher opens no connection while more than this many threads run. */
  const THROTTLE: nat := 10000

  /**
    Where the dispatcher is: at the loop head; holding an entry whose connection has no thread, before or during
    a sweep for finished threads; pushing; or joining at the end. order is what is left of an iteration over the
    executor table.
   */
  datatype Stage =
    | Popping
    | Throttled(job: Job)
    | Sweeping(job: Job, order: seq<nat>)
    | Pushing(job: Job)
    | Joining(order: seq<nat>)
    | Done

  /** joins counts the successful joins of each worker; executors maps connections to workers, None is a null slot. */
  datatype State = State(next: nat, stage: Stage, executors: map<nat, Option<nat>>, numRunning: int,
                         crew: Crew, joins: seq<nat>)

  ghost predicate Init(s: State) { s == State(0, Popping, map[], 0, Crew([], map[]), []) }

  /** order is one of the orders in which the hash table may be iterated. */
  ghost predicate Enumerates(order: seq<nat>, keys: set<nat>)
  {
    Distinct(order) && (forall k :: k in order <==> k in keys)
  }

  /** The worker in the slot of connection k. */
  function WorkerOf(s: State, k: nat): Option<nat>
  {
    if k in s.executors && s.executors[k].Some? && s.executors[k].value < |s.crew.workers| then s.executors[k] else None
  }

  /** A try-join on slot k would succeed. */
  predicate Joinable(s: State, k: nat)
  {
    WorkerOf(s, k).Some? && s.crew.workers[WorkerOf(s, k).value].phase.Exited?
  }

  // ---------- Steps ----------

  ghost predicate PopsEntry(stream: seq<Job>, s: State, t: State)
  {
    && s.stage.Popping? && s.next < |stream| && stream[s.next].Query?
    && var job := stream[s.next];
       if job.conn in s.executors && s.executors[job.conn].Some?
       then t == s.(next := s.next + 1, stage := Pushing(job))
       else t == s.(next := s.next + 1, stage := Throttled(job), executors := s.executors[job.conn := None])
  }

  ghost predicate StartsSweep(s: State, t: State)
  {
    && s.stage.Throttled? && s.numRunning > THROTTLE
    && t.stage.Sweeping? && Enumerates(t.stage.order, s.executors.Keys)
    && t == s.(stage := Sweeping(s.stage.job, t.stage.order))
  }

  ghost predicate SweepJoins(s: State, t: State)
  {
    && s.stage.Sweeping? && s.stage.order != [] && Joinable(s, s.stage.order[0])
    && var k := s.stage.order[0];
       var h := WorkerOf(s, k).value;
       && h < |s.joins|
       && t == s.(stage := s.stage.(order := s.stage.order[1..]), executors := s.executors - {k},
                  numRunning := s.numRunning - 1, joins := s.joins[h := s.joins[h] + 1])
  }

  ghost predicate SweepSkips(s: State, t: State)
  {
    && s.stage.Sweeping? && s.stage.order != [] && !Joinable(s, s.stage.order[0])
    && t == s.(stage := s.stage.(order := s.stage.order[1..]))
  }

  ghost predicate EndsSweep(s: State, t: State)
  {
    s.stage.Sweeping? && s.stage.order == [] && t == s.(stage := Throttled(s.stage.job))
  }

  ghost predicate Creates(s: State, t: State)
  {
    && s.stage.Throttled? && s.stage.job.Query? && s.numRunning <= THROTTLE
    && var c := s.stage.job.conn;
       t == s.(stage := Pushing(s.stage.job), executors := s.executors[c := Some(|s.crew.workers|)],
               numRunning := s.numRunning + 1, crew := Hire(s.crew, c), joins := s.joins + [0])
  }

  /** A push blocks while the queue is full. */
  ghost predicate PushesEntry(cfg: Config, s: State, t: State)
  {
    && s.stage.Pushing? && s.stage.job.Query? && WorkerOf(s, s.stage.job.conn).Some?
    && var h := WorkerOf(s, s.stage.job.conn).value;
       && |s.crew.workers[h].queue| < cfg.depth
       && t == s.(stage := Popping, crew := Push(s.crew, h, s.stage.job))
  }

  ghost predicate EndsDispatch(stream: seq<Job>, s: State, t: State)
  {
    && s.stage.Popping? && s.next == |stream|
    && t.stage.Joining? && Enumerates(t.stage.order, s.executors.Keys)
    && t == s.(stage := t.stage)
  }

  ghost predicate FinalJoin(s: State, t: State)
  {
    && s.stage.Joining? && s.stage.order != [] && Joinable(s, s.stage.order[0])
    && var h := WorkerOf(s, s.stage.order[0]).value;
       && h < |s.joins|
       && t == s.(stage := Joining(s.stage.order[1..]), joins := s.joins[h := s.joins[h] + 1])
  }

  ghost predicate Finishes(s: State, t: State)
  {
    s.stage.Joining? && s.stage.order == [] && t == s.(stage := Done)
  }

  ghost predicate WorkerMoves(cfg: Config, s: State, t: State)
  {
    t == s.(crew := t.crew) && exists h :: CrewStepAt(cfg, s.crew, t.crew, h)
  }

  /** The throttle loop going round without joining anybody. */
  ghost predicate Spins(s: State, t: State)
  {
    StartsSweep(s, t) || SweepSkips(s, t) || EndsSweep(s, t)
  }

  ghost predicate Advances(cfg: Config, stream: seq<Job>, s: State, t: State)
  {
    || PopsEntry(stream, s, t) || SweepJoins(s, t) || Creates(s, t) || PushesEntry(cfg, s, t)
    || EndsDispatch(stream, s, t) || FinalJoin(s, t) || Finishes(s, t) || WorkerMoves(cfg, s, t)
  }

  ghost predicate Next(cfg: Config, stream: seq<Job>, s: State, t: State)
  {
    Advances(cfg, stream, s, t) || Spins(s, t)
  }

  // ---------- The invariant ----------

  predicate HasJob(st: Stage) { st.Throttled? || st.Sweeping? || st.Pushing? }

  predicate Ending(st: Stage) { st.Joining? || st.Done? }

  /** The connection a null slot has been made for, until its thread is created. */
  function WaitingFor(st: Stage): Option<nat>
  {
    if (st.Throttled? || st.Sweeping?) && st.job.Query? then Some(st.job.conn) else None
  }

  /** The connection about to be pushed to. */
  function PushingTo(st: Stage): Option<nat>
  {
    if st.Pushing? && st.job.Query? then Some(st.job.conn) else None
  }

  /** How many entries have been pushed. */
  function Pushed(s: State): int { if HasJob(s.stage) then s.next - 1 else s.next }

  ghost predicate Position(stream: seq<Job>, s: State)
  {
    && 0 <= Pushed(s) <= s.next <= |stream| && |s.joins| == |s.crew.workers|
    && (HasJob(s.stage) ==> s.stage.job.Query? && s.stage.job == stream[s.next - 1])
    && (Ending(s.stage) ==> s.next == |stream|)
  }

  /** What connection c has been fed after k pushes. */
  function FedTo(stream: seq<Job>, k: int, c: nat): seq<Job>
    requires 0 <= k <= |stream|
  {
    Filter(ByConn(c), stream[..k])
  }

  ghost predicate HasWorker(crew: Crew, c: nat)
  {
    exists h :: 0 <= h < |crew.workers| && crew.workers[h].key == c
  }

  /** Every worker has been fed its connection's first k entries' share and has handled it properly. */
  ghost predicate WorkersOk(cfg: Config, stream: seq<Job>, k: int, crew: Crew)
    requires 0 <= k <= |stream|
  {
    && (forall h :: 0 <= h < |crew.workers| ==> WorkerOk(cfg, crew.workers[h], FedTo(stream, k, crew.workers[h].key)))
    && CountersAgree(crew)
  }

  /** No two workers for one connection. */
  ghost predicate KeysDistinct(crew: Crew)
  {
    forall g, h :: 0 <= g < h < |crew.workers| ==> crew.workers[g].key != crew.workers[h].key
  }

  /** A worker for each connection pushed to, and no other worker but the one about to be pushed to. */
  ghost predicate Served(stream: seq<Job>, k: int, crew: Crew, pushingTo: Option<nat>)
    requires 0 <= k <= |stream|
  {
    && (forall i :: 0 <= i < k && stream[i].Query? ==> HasWorker(crew, stream[i].conn))
    && (forall h :: 0 <= h < |crew.workers| ==>
          FedTo(stream, k, crew.workers[h].key) != [] || pushingTo == Some(crew.workers[h].key))
  }

  /** Slots hold workers of their own connection. */
  ghost predicate SlotsOk(executors: map<nat, Option<nat>>, crew: Crew)
  {
    forall c :: c in executors && executors[c].Some? ==>
      executors[c].value < |crew.workers| && crew.workers[executors[c].value].key == c
  }

  /** A null slot exists only for the connection waiting for a thread, which has no worker yet. */
  ghost predicate NullsOk(executors: map<nat, Option<nat>>, crew: Crew, waitingFor: Option<nat>)
  {
    && (forall c :: c in executors && executors[c].None? ==> waitingFor == Some(c))
    && (waitingFor.Some? ==>
          waitingFor.value in executors && executors[waitingFor.value].None? && !HasWorker(crew, waitingFor.value))
  }

  /** During dispatch the table holds no joined worker. */
  ghost predicate Unjoined(executors: map<nat, Option<nat>>, joins: seq<nat>)
  {
    forall c :: c in executors && executors[c].Some? ==> executors[c].value < |joins| && joins[executors[c].value] == 0
  }

  /** A worker is joined at most once, only after it exited, and stays in the table until then. */
  ghost predicate JoinsOk(executors: map<nat, Option<nat>>, crew: Crew, joins: seq<nat>)
  {
    && |joins| == |crew.workers|
    && (forall h :: 0 <= h < |joins| ==> joins[h] <= 1)
    && (forall h :: 0 <= h < |joins| && joins[h] == 1 ==> crew.workers[h].phase.Exited?)
    && (forall h :: 0 <= h < |joins| && joins[h] == 0 ==>
          crew.workers[h].key in executors && executors[crew.workers[h].key] == Some(h))
  }

  /** An iteration visits table slots, none twice; the final one leaves exactly the unjoined workers to join. */
  ghost predicate OrderOk(st: Stage, executors: map<nat, Option<nat>>, crew: Crew, joins: seq<nat>)
    requires |joins| == |crew.workers|
  {
    && (st.Sweeping? || st.Joining? ==> Distinct(st.order) && forall k :: k in st.order ==> k in executors)
    && (Ending(st) ==>
          forall h :: 0 <= h < |joins| ==> (joins[h] == 0 <==> st.Joining? && crew.workers[h].key in st.order))
  }

  ghost function Live(executors: map<nat, Option<nat>>): set<nat>
  {
    set c | c in executors && executors[c].Some?
  }

  /** num_running counts the non-null slots, and the throttle bounds it. */
  ghost predicate CountOk(executors: map<nat, Option<nat>>, numRunning: int)
  {
    numRunning == |Live(executors)| && numRunning <= THROTTLE + 1
  }

  ghost predicate Inv(cfg: Config, stream: seq<Job>, s: State)
  {
    && Position(stream, s)
    && WorkersOk(cfg, stream, Pushed(s), s.crew)
    && KeysDistinct(s.crew)
    && Served(stream, Pushed(s), s.crew, PushingTo(s.stage))
    && SlotsOk(s.executors, s.crew)
    && NullsOk(s.executors, s.crew, WaitingFor(s.stage))
    && (!Ending(s.stage) ==> Unjoined(s.executors, s.joins))
    && (s.stage.Pushing? ==> s.stage.job.conn in s.executors)
    && JoinsOk(s.executors, s.crew, s.joins)
    && OrderOk(s.stage, s.executors, s.crew, s.joins)
    && CountOk(s.executors, s.numRunning)
  }

  lemma InitInv(cfg: Config, stream: seq<Job>, s: State)
    requires Init(s)
    ensures Inv(cfg, stream, s)
  {
    assert Live(map[]) == {};
  }

  // ---------- What an exited worker tells ----------

  /** Once a connection has been fed all its entries, none is left. */
  lemma {:induction false} AllFedMeansNoMore(stream: seq<Job>, k: nat, c: nat)
    requires k <= |stream|
    ensures FedTo(stream, k, c) <= Filter(ByConn(c), stream)
    ensures NoMore(stream, k, c) <==> FedTo(stream, k, c) == Filter(ByConn(c), stream)
  {
    var p := ByConn(c);
    FilterPrefix(p, stream, k);
    if NoMore(stream, k, c) {
      FilterAppend(p, stream[..k], stream[k..]);
      assert stream[..k] + stream[k..] == stream;
      FilterNone(p, stream[k..]);
    } else {
      var j :| k <= j < |stream| && p(stream[j]);
      FilterMisses(p, stream, k, j);
    }
  }

  ghost predicate Complete(cfg: Config, stream: seq<Job>, w: Worker)
  {
    && w.phase.Exited? && w.queue == []
    && w.popped == Filter(ByConn(w.key), stream) && Logged(cfg, w.log, w.popped) && w.ops == LogOps(cfg, w.log)
  }

  /** A worker that exited has handled its connection's whole share, and none of it is still to come. */
  lemma ExitedComplete(cfg: Config, stream: seq<Job>, s: State, h: nat)
    requires Marked(stream) && Inv(cfg, stream, s)
    requires h < |s.crew.workers| && s.crew.workers[h].phase.Exited?
    ensures Complete(cfg, stream, s.crew.workers[h])
    ensures NoMore(stream, Pushed(s), s.crew.workers[h].key)
  {
    var w := s.crew.workers[h];
    var plan := Filter(ByConn(w.key), stream);
    AllFedMeansNoMore(stream, Pushed(s), w.key);
    assert WorkerOk(cfg, w, FedTo(stream, Pushed(s), w.key));
    MarkedPlan(stream, w.key);
    ExitMeansPlanDone(cfg, w, FedTo(stream, Pushed(s), w.key), plan);
  }
}
