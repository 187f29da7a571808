/**
  The lock-free maximum kept in g_max_behind_ns: any number of updates, each a load followed by a loop of compare
  and weak compare-and-swap, interleaved in any order.
 */
module MaxBehind {
  import opened Seqs

  /** Where one update is: before its load, at the loop test, at the compare-and-swap, or finished. */
  datatype Phase = Loading | Testing(current: int) | Swapping(current: int) | Finished

  /** One update, proposing a value. */
  datatype Update = Update(proposed: int, phase: Phase)

  datatype State = State(max: int, updates: seq<Update>)

  /** Every update is about to load. */
  ghost predicate Init(s: State)
  {
    forall p :: 0 <= p < |s.updates| ==> s.updates[p].phase == Loading
  }

  ghost predicate Loads(s: State, t: State, p: nat)
    requires p < |s.updates|
  {
    && s.updates[p].phase.Loading?
    && t == s.(updates := s.updates[p := s.updates[p].(phase := Testing(s.max))])
  }

  ghost predicate Tests(s: State, t: State, p: nat)
    requires p < |s.updates|
  {
    && s.updates[p].phase.Testing?
    && var u := s.updates[p];
       t == s.(updates := s.updates[p := u.(phase :=
         if u.phase.current < u.proposed then Swapping(u.phase.current) else Finished)])
  }

  ghost predicate Swaps(s: State, t: State, p: nat)
    requires p < |s.updates|
  {
    && s.updates[p].phase.Swapping? && s.updates[p].phase.current == s.max
    && t == State(s.updates[p].proposed, s.updates[p := s.updates[p].(phase := Finished)])
  }

  /** A failed compare-and-swap reloads; it fails if the value changed, and may fail spuriously even if not. */
  ghost predicate SwapFails(s: State, t: State, p: nat)
    requires p < |s.updates|
  {
    && s.updates[p].phase.Swapping?
    && t == s.(updates := s.updates[p := s.updates[p].(phase := Testing(s.max))])
  }

  ghost predicate Spurious(s: State, t: State, p: nat)
    requires p < |s.updates|
  {
    SwapFails(s, t, p) && s.updates[p].phase.current == s.max
  }

  ghost predicate StepOf(s: State, t: State, p: nat)
    requires p < |s.updates|
  {
    Loads(s, t, p) || Tests(s, t, p) || Swaps(s, t, p) || SwapFails(s, t, p)
  }

  ghost predicate Next(s: State, t: State)
  {
    exists p: nat :: p < |s.updates| && StepOf(s, t, p)
  }

  ghost predicate Run(trace: seq<State>)
  {
    && trace != [] && Init(trace[0])
    && forall i :: 0 <= i < |trace| - 1 ==> Next(trace[i], trace[i + 1])
  }

  // ---------- The invariant ----------

  /** v is the initial value or has been proposed. */
  ghost predicate Offered(initial: int, updates: seq<Update>, v: int)
  {
    v == initial || exists p :: 0 <= p < |updates| && updates[p].proposed == v
  }

  ghost predicate UpdateOk(max: int, u: Update)
  {
    match u.phase
    case Loading => true
    case Testing(current) => current <= max
    case Swapping(current) => current <= max && current < u.proposed
    case Finished => u.proposed <= max
  }

  ghost predicate Inv(initial: int, s: State)
  {
    && initial <= s.max && Offered(initial, s.updates, s.max)
    && forall p :: 0 <= p < |s.updates| ==> UpdateOk(s.max, s.updates[p])
  }

  ghost predicate SameProposals(a: seq<Update>, b: seq<Update>)
  {
    |a| == |b| && forall p :: 0 <= p < |a| ==> a[p].proposed == b[p].proposed
  }

  lemma StepKeeps(initial: int, s: State, t: State, p: nat)
    requires Inv(initial, s) && p < |s.updates| && StepOf(s, t, p)
    ensures Inv(initial, t) && s.max <= t.max && SameProposals(s.updates, t.updates)
  {
    assert t.updates[p].proposed == s.updates[p].proposed;
    if s.max != initial {
      var q :| 0 <= q < |s.updates| && s.updates[q].proposed == s.max;
      assert t.updates[q].proposed == s.max;
    }
  }

  /**
    In every interleaving, spurious failures included: the stored maximum never decreases, covers every finished
    update, and is always the initial value or a proposed one.
   */
  lemma {:induction false} AlwaysSound(trace: seq<State>, i: nat, j: nat)
    requires Run(trace) && i <= j < |trace|
    ensures trace[i].max <= trace[j].max
    ensures Inv(trace[0].max, trace[j]) && SameProposals(trace[0].updates, trace[j].updates)
    decreases j
  {
    if j > 0 {
      AlwaysSound(trace, if i < j then i else j - 1, j - 1);
      assert Next(trace[j - 1], trace[j - 1 + 1]);
      var p: nat :| p < |trace[j - 1].updates| && StepOf(trace[j - 1], trace[j], p);
      StepKeeps(trace[0].max, trace[j - 1], trace[j], p);
    }
  }

  /** v has been the stored maximum, at time j or before. */
  ghost predicate WasStored(trace: seq<State>, j: nat, v: int)
    requires j < |trace|
  {
    exists i :: 0 <= i <= j && trace[i].max == v
  }

  predicate Holding(u: Update, v: int) { (u.phase.Testing? || u.phase.Swapping?) && u.phase.current == v }

  /** What an update compares with has been the stored maximum. */
  lemma {:induction false} ComparesWithStored(trace: seq<State>, j: nat, p: nat, v: int)
    requires Run(trace) && j < |trace| && p < |trace[j].updates| && Holding(trace[j].updates[p], v)
    ensures WasStored(trace, j, v)
  {
    if j > 0 {
      var s, t := trace[j - 1], trace[j];
      assert Next(trace[j - 1], trace[j - 1 + 1]);
      var q: nat :| q < |s.updates| && StepOf(s, t, q);
      if Holding(s.updates[p], v) {
        ComparesWithStored(trace, j - 1, p, v);
      } else {
        assert q == p && v == s.max;
      }
    }
  }

  ghost predicate Quiescent(s: State)
  {
    forall p :: 0 <= p < |s.updates| ==> s.updates[p].phase.Finished?
  }

  /** m is the maximum of the initial value and the proposals. */
  ghost predicate IsMaximum(m: int, initial: int, updates: seq<Update>)
  {
    && initial <= m && (forall p :: 0 <= p < |updates| ==> updates[p].proposed <= m)
    && Offered(initial, updates, m)
  }

  /** When all updates are finished the stored value is the maximum, whatever the schedule was. */
  lemma MaximumAtTheEnd(trace: seq<State>)
    requires Run(trace) && Quiescent(trace[|trace| - 1])
    ensures IsMaximum(trace[|trace| - 1].max, trace[0].max, trace[0].updates)
  {
    var last: nat := |trace| - 1;
    AlwaysSound(trace, 0, last);
    var a, b := trace[0].updates, trace[last].updates;
    forall p | 0 <= p < |a|
      ensures a[p].proposed <= trace[last].max
    {
      assert b[p].phase.Finished? && UpdateOk(trace[last].max, b[p]);
    }
    if trace[last].max != trace[0].max {
      var p :| 0 <= p < |b| && b[p].proposed == trace[last].max;
      assert a[p].proposed == trace[last].max;
    }
  }

  // ---------- Lock freedom ----------

  function Running(): Update -> int { (u: Update) => if u.phase.Finished? then 0 else 1 }

  /** How many steps an update is from its end, if nobody else changes the maximum. */
  function Distance(max: int): Update -> int
  {
    (u: Update) =>
      match u.phase
      case Loading => 5
      case Testing(current) => if current == max then 2 else 4
      case Swapping(current) => if current == max then 1 else 3
      case Finished => 0
  }

  function Unfinished(s: State): int { Sum(Running(), s.updates) }

  function TotalDistance(s: State): int { Sum(Distance(s.max), s.updates) }

  /**
    Every step but a spurious failure makes progress: an update finishes, or the updates together come closer to
    their ends. A swap can fail for a reason only when another update succeeded.
   */
  lemma LockFree(initial: int, s: State, t: State, p: nat)
    requires Inv(initial, s) && p < |s.updates| && StepOf(s, t, p) && !Spurious(s, t, p)
    ensures Unfinished(t) < Unfinished(s) || (Unfinished(t) == Unfinished(s) && TotalDistance(t) < TotalDistance(s))
    ensures Unfinished(t) >= 0 && TotalDistance(t) >= 0
  {
    SumUpdate(Running(), s.updates, p, t.updates[p]);
    SumUpdate(Distance(s.max), s.updates, p, t.updates[p]);
    SumNonNegative(Running(), t.updates);
    SumNonNegative(Distance(t.max), t.updates);
    assert t.updates == s.updates[p := t.updates[p]];
  }
}
