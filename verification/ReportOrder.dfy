/**
  The order of increments within one execution: at every point the quicker and slower counts are covered by the
  executed count, that by the connection counts, and the faster and slower counts of a class by its count.
 */
module ReportOrder {
  import opened Seqs
  import opened Reports
  import opened Contributions

  /** f and g together have added no more than h. */
  ghost predicate Dominated(f: Inc -> int, g: Inc -> int, h: Inc -> int, ops: seq<Inc>)
  {
    Sum(f, ops) + Sum(g, ops) <= Sum(h, ops)
  }

  lemma DominatedAppend(f: Inc -> int, g: Inc -> int, h: Inc -> int, a: seq<Inc>, b: seq<Inc>)
    requires Dominated(f, g, h, a) && Dominated(f, g, h, b)
    ensures Dominated(f, g, h, a + b)
  {
    SumAppend(f, a, b);
    SumAppend(g, a, b);
    SumAppend(h, a, b);
  }

  lemma NothingDominated(f: Inc -> int, g: Inc -> int, h: Inc -> int, ops: seq<Inc>)
    requires ops == []
    ensures Dominated(f, g, h, ops)
  {
  }

  function Nothing(): Inc -> int { (inc: Inc) => 0 }

  /** The counters whose order within one execution matters. */
  datatype Law =
    | TimedWithinExecuted
    | ExecutedWithinConnections
    | SpeedWithinClass(kind: Statement)

  function First(law: Law): Inc -> int
  {
    match law
    case TimedWithinExecuted => AmountTo(Quicker)
    case ExecutedWithinConnections => AmountTo(Executed)
    case SpeedWithinClass(k) => AmountTo(CountFaster(k))
  }

  function Second(law: Law): Inc -> int
  {
    match law
    case TimedWithinExecuted => AmountTo(Slower)
    case ExecutedWithinConnections => Nothing()
    case SpeedWithinClass(k) => AmountTo(CountSlower(k))
  }

  function Bound(law: Law): Inc -> int
  {
    match law
    case TimedWithinExecuted => AmountTo(Executed)
    case ExecutedWithinConnections => ConnAmount()
    case SpeedWithinClass(k) => AmountTo(Count(k))
  }

  /** The law holds of the first n increments. */
  ghost predicate HoldsUpTo(law: Law, ops: seq<Inc>, n: nat)
    requires n <= |ops|
  {
    Dominated(First(law), Second(law), Bound(law), ops[..n])
  }

  /** The law holds at every point of ops. */
  ghost predicate Obeys(law: Law, ops: seq<Inc>)
  {
    forall n :: 0 <= n <= |ops| ==> HoldsUpTo(law, ops, n)
  }

  // ---------- Ways to obey a law ----------

  lemma ObeysAppend(law: Law, a: seq<Inc>, b: seq<Inc>)
    requires Obeys(law, a) && Obeys(law, b)
    ensures Obeys(law, a + b)
  {
    hide First, Second, Bound, Dominated;
    forall n | 0 <= n <= |a + b|
      ensures HoldsUpTo(law, a + b, n)
    {
      if n <= |a| {
        assert HoldsUpTo(law, a, n) && (a + b)[..n] == a[..n];
      } else {
        var m := n - |a|;
        assert HoldsUpTo(law, a, |a|) && HoldsUpTo(law, b, m);
        assert a[..|a|] == a && (a + b)[..n] == a + b[..m];
        DominatedAppend(First(law), Second(law), Bound(law), a, b[..m]);
      }
    }
  }

  ghost predicate NonNegative(f: Inc -> int) { forall inc :: f(inc) >= 0 }

  lemma LawNonNegative(law: Law)
    ensures NonNegative(First(law)) && NonNegative(Second(law)) && NonNegative(Bound(law))
  {
  }

  lemma {:induction false} SumPrefix(f: Inc -> int, ops: seq<Inc>, n: nat)
    requires NonNegative(f) && n <= |ops|
    ensures 0 <= Sum(f, ops[..n]) <= Sum(f, ops)
  {
    assert ops == ops[..n] + ops[n..];
    SumAppend(f, ops[..n], ops[n..]);
    SumNonNegative(f, ops[n..]);
    SumNonNegative(f, ops[..n]);
  }

  /** What adds nothing to the first two counters obeys the law. */
  lemma {:induction false} QuietObeys(law: Law, ops: seq<Inc>)
    requires Sum(First(law), ops) == Sum(Second(law), ops) == 0
    ensures Obeys(law, ops)
  {
    LawNonNegative(law);
    hide First, Second, Bound, Sum, NonNegative;
    forall n | 0 <= n <= |ops|
      ensures HoldsUpTo(law, ops, n)
    {
      SumPrefix(First(law), ops, n);
      SumPrefix(Second(law), ops, n);
      SumPrefix(Bound(law), ops, n);
    }
  }

  /** An increment of the bound pays in advance for all that comes after it. */
  lemma {:induction false} PaidObeys(law: Law, unit: Inc, after: seq<Inc>)
    requires First(law)(unit) == Second(law)(unit) == 0 && Bound(law)(unit) == 1
    requires Sum(First(law), after) + Sum(Second(law), after) <= 1
    ensures Obeys(law, [unit] + after)
  {
    LawNonNegative(law);
    hide First, Second, Bound, Sum, NonNegative;
    forall n | 0 <= n <= |[unit] + after|
      ensures HoldsUpTo(law, [unit] + after, n)
    {
      if n == 0 {
        NothingDominated(First(law), Second(law), Bound(law), ([unit] + after)[..n]);
      } else {
        PaidUpTo(law, unit, after, n - 1);
        assert ([unit] + after)[..n] == [unit] + after[..n - 1];
      }
    }
  }

  lemma {:induction false} PaidUpTo(law: Law, unit: Inc, after: seq<Inc>, m: nat)
    requires First(law)(unit) == Second(law)(unit) == 0 && Bound(law)(unit) == 1
    requires Sum(First(law), after) + Sum(Second(law), after) <= 1 && m <= |after|
    requires NonNegative(First(law)) && NonNegative(Second(law)) && NonNegative(Bound(law))
    ensures Dominated(First(law), Second(law), Bound(law), [unit] + after[..m])
  {
    hide First, Second, Bound, Sum, NonNegative;
    SumPrefix(First(law), after, m);
    SumPrefix(Second(law), after, m);
    SumPrefix(Bound(law), after, m);
    SumAppend(First(law), [unit], after[..m]);
    SumAppend(Second(law), [unit], after[..m]);
    SumAppend(Bound(law), [unit], after[..m]);
    SumOne(First(law), unit);
    SumOne(Second(law), unit);
    SumOne(Bound(law), unit);
  }

  // ---------- The simple report ----------

  lemma BeforeExecuted(k: Key, ignoreRowDiffs: bool, e: Expected, o: Outcome)
    requires k == Quicker || k == Slower
    ensures Sum(AmountTo(k), ErrorOps(o) + ConnOps(e) + DifferOps(ignoreRowDiffs, e, o)) == 0
  {
    hide ErrorOps, ConnOps, DifferOps, Sum;
    var f := AmountTo(k);
    SumAppend(f, ErrorOps(o), ConnOps(e));
    SumAppend(f, ErrorOps(o) + ConnOps(e), DifferOps(ignoreRowDiffs, e, o));
    ErrorSum(f, o);
    ConnSum(f, e);
    DifferSum(f, ignoreRowDiffs, e, o);
  }

  lemma AfterExecuted(k: Key, e: Expected, o: Outcome)
    requires k == Quicker || k == Slower
    ensures Sum(AmountTo(k), FlowOps(e, o) + TimedOps(e, o)) ==
            if e.micros != 0 && k == (if o.micros < e.micros then Quicker else Slower) then 1 else 0
  {
    hide FlowOps, TimedOps, Sum;
    var f := AmountTo(k);
    SumAppend(f, FlowOps(e, o), TimedOps(e, o));
    FlowSum(f, e, o);
    TimedSum(f, e, o);
  }

  /** The time is compared once, after the execution has been counted. */
  lemma SimpleTimed(ignoreRowDiffs: bool, e: Expected, o: Outcome)
    ensures Obeys(TimedWithinExecuted, SimpleOps(ignoreRowDiffs, e, o))
  {
    hide ErrorOps, ConnOps, DifferOps, FlowOps, TimedOps, Sum, Obeys;
    var law, unit := TimedWithinExecuted, Inc(Executed, 1);
    var before := ErrorOps(o) + ConnOps(e) + DifferOps(ignoreRowDiffs, e, o);
    var after := FlowOps(e, o) + TimedOps(e, o);
    BeforeExecuted(Quicker, ignoreRowDiffs, e, o);
    BeforeExecuted(Slower, ignoreRowDiffs, e, o);
    AfterExecuted(Quicker, e, o);
    AfterExecuted(Slower, e, o);
    QuietObeys(law, before);
    PaidObeys(law, unit, after);
    ObeysAppend(law, before, [unit] + after);
    assert SimpleOps(ignoreRowDiffs, e, o) == before + ([unit] + after);
  }

  lemma {:induction false} NothingSum(ops: seq<Inc>)
    ensures Sum(Nothing(), ops) == 0
  {
    SumVanishes(Nothing(), ops);
  }

  lemma AfterConnection(ignoreRowDiffs: bool, e: Expected, o: Outcome)
    ensures var after := DifferOps(ignoreRowDiffs, e, o) + [Inc(Executed, 1)] + FlowOps(e, o) + TimedOps(e, o);
            Sum(AmountTo(Executed), after) == 1
  {
    hide DifferOps, FlowOps, TimedOps, Sum;
    var f, differ := AmountTo(Executed), DifferOps(ignoreRowDiffs, e, o);
    SumPush(f, differ, Inc(Executed, 1));
    SumAppend(f, differ + [Inc(Executed, 1)], FlowOps(e, o));
    SumAppend(f, differ + [Inc(Executed, 1)] + FlowOps(e, o), TimedOps(e, o));
    DifferSum(f, ignoreRowDiffs, e, o);
    FlowSum(f, e, o);
    TimedSum(f, e, o);
  }

  /** An execution is counted once, after its connection has been. */
  lemma SimpleExecuted(ignoreRowDiffs: bool, e: Expected, o: Outcome)
    ensures Obeys(ExecutedWithinConnections, SimpleOps(ignoreRowDiffs, e, o))
  {
    hide ErrorOps, DifferOps, FlowOps, TimedOps, Sum, Obeys;
    var law, unit := ExecutedWithinConnections, Inc(Conn(e.conn), 1);
    var before := ErrorOps(o) + [Inc(Conn(e.conn), 0)];
    var after := DifferOps(ignoreRowDiffs, e, o) + [Inc(Executed, 1)] + FlowOps(e, o) + TimedOps(e, o);
    SumPush(AmountTo(Executed), ErrorOps(o), Inc(Conn(e.conn), 0));
    ErrorSum(AmountTo(Executed), o);
    NothingSum(before);
    NothingSum(after);
    AfterConnection(ignoreRowDiffs, e, o);
    QuietObeys(law, before);
    PaidObeys(law, unit, after);
    ObeysAppend(law, before, [unit] + after);
    assert SimpleOps(ignoreRowDiffs, e, o) == before + ([unit] + after);
  }

  // ---------- The full report ----------

  /** The counts of the query's own class. */
  lemma OwnClassObeys(law: Law, k: Statement, e: Expected, o: Outcome)
    requires law == SpeedWithinClass(k)
    ensures Obeys(law, ClassOps(Some(k), e, o))
  {
    hide Sum, Obeys;
    var unit := Inc(Count(k), 1);
    var faster := Inc(CountFaster(k), if e.micros != 0 && o.micros < e.micros then 1 else 0);
    var slower := Inc(CountSlower(k), if e.micros != 0 && o.micros >= e.micros then 1 else 0);
    SumTwo(First(law), faster, slower);
    SumTwo(Second(law), faster, slower);
    PaidObeys(law, unit, [faster] + [slower]);
    assert ClassOps(Some(k), e, o) == [unit] + ([faster] + [slower]);
  }

  lemma FullTimeQuiet(law: Law, k: Statement, e: Expected, o: Outcome)
    requires law == SpeedWithinClass(k)
    ensures Obeys(law, FullTimeOps(e, o))
  {
    hide FullTimeOps, Sum, Obeys;
    FullTimeSum(First(law), e, o);
    FullTimeSum(Second(law), e, o);
    QuietObeys(law, FullTimeOps(e, o));
  }

  /** A class is counted before its faster and slower executions; other classes are left alone. */
  lemma FullSpeed(k: Statement, e: Expected, o: Outcome)
    ensures Obeys(SpeedWithinClass(k), FullOps(e, o))
  {
    hide Classify, InClass, FullTimeOps, ClassOps, Sum, Obeys;
    var law := SpeedWithinClass(k);
    ClassifyMeans(e.text);
    if Classify(e.text) == Some(k) {
      FullTimeQuiet(law, k, e, o);
      OwnClassObeys(law, k, e, o);
      ObeysAppend(law, FullTimeOps(e, o), ClassOps(Some(k), e, o));
    } else {
      hide FullOps;
      FullContributes(CountFaster(k), false, e, o);
      FullContributes(CountSlower(k), false, e, o);
      QuietObeys(law, FullOps(e, o));
    }
  }

  // ---------- Both ----------

  lemma SimpleObeys(law: Law, ignoreRowDiffs: bool, e: Expected, o: Outcome)
    ensures Obeys(law, SimpleOps(ignoreRowDiffs, e, o))
  {
    hide SimpleOps, Obeys, Sum;
    match law
    case TimedWithinExecuted => SimpleTimed(ignoreRowDiffs, e, o);
    case ExecutedWithinConnections => SimpleExecuted(ignoreRowDiffs, e, o);
    case SpeedWithinClass(k) =>
      SimpleContributes(CountFaster(k), ignoreRowDiffs, e, o);
      SimpleContributes(CountSlower(k), ignoreRowDiffs, e, o);
      QuietObeys(law, SimpleOps(ignoreRowDiffs, e, o));
  }

  lemma FullObeys(law: Law, e: Expected, o: Outcome)
    ensures Obeys(law, FullOps(e, o))
  {
    hide FullOps, Obeys, Sum;
    match law
    case TimedWithinExecuted =>
      FullContributes(Quicker, false, e, o);
      FullContributes(Slower, false, e, o);
      QuietObeys(law, FullOps(e, o));
    case ExecutedWithinConnections =>
      FullContributes(Executed, false, e, o);
      NothingSum(FullOps(e, o));
      QuietObeys(law, FullOps(e, o));
    case SpeedWithinClass(k) => FullSpeed(k, e, o);
  }

  // ---------- Which counter comes after which ----------

  /** The order in which one execution makes its increments, the full report's before the simple report's. */
  function Place(k: Key): nat
  {
    match k
    case FullTime => 0
    case FullExpectedTime => 1
    case Count(_) => 2
    case CountFaster(_) => 3
    case CountSlower(_) => 4
    case Errors => 5
    case Conn(_) => 6
    case RowsDiffer => 7
    case Executed => 8
    case ExpectedRows => 9
    case ActualRows => 10
    case TotalTime => 11
    case ExpectedTime => 12
    case Quicker => 13
    case Slower => 13
  }

  /** The increments are made in their places, from place lo on and before place hi. */
  ghost predicate InPlace(ops: seq<Inc>, lo: nat, hi: nat)
  {
    && (forall i :: 0 <= i < |ops| ==> lo <= Place(ops[i].key) < hi)
    && (forall i, j :: 0 <= i < j < |ops| ==> Place(ops[i].key) <= Place(ops[j].key))
  }

  lemma InPlaceAppend(a: seq<Inc>, b: seq<Inc>, lo: nat, mid: nat, hi: nat)
    requires InPlace(a, lo, mid) && InPlace(b, mid, hi) && lo <= mid <= hi
    ensures InPlace(a + b, lo, hi)
  {
    hide Place;
  }

  lemma FullInPlace(e: Expected, o: Outcome)
    ensures InPlace(FullOps(e, o), 0, 5)
  {
    hide Classify;
    InPlaceAppend(FullTimeOps(e, o), ClassOps(Classify(e.text), e, o), 0, 2, 5);
  }

  lemma SimpleInPlace(ignoreRowDiffs: bool, e: Expected, o: Outcome)
    ensures InPlace(SimpleOps(ignoreRowDiffs, e, o), 5, 14)
  {
    hide InPlace;
    var errors, conn, differ, executed := ErrorOps(o), ConnOps(e), DifferOps(ignoreRowDiffs, e, o), [Inc(Executed, 1)];
    PartsInPlace(ignoreRowDiffs, e, o);
    InPlaceAppend(errors, conn, 5, 6, 7);
    InPlaceAppend(errors + conn, differ, 5, 7, 8);
    InPlaceAppend(errors + conn + differ, executed, 5, 8, 9);
    InPlaceAppend(errors + conn + differ + executed, FlowOps(e, o), 5, 9, 12);
    InPlaceAppend(errors + conn + differ + executed + FlowOps(e, o), TimedOps(e, o), 5, 12, 14);
  }

  lemma PartsInPlace(ignoreRowDiffs: bool, e: Expected, o: Outcome)
    ensures InPlace(ErrorOps(o), 5, 6) && InPlace(ConnOps(e), 6, 7) && InPlace(DifferOps(ignoreRowDiffs, e, o), 7, 8)
    ensures InPlace([Inc(Executed, 1)], 8, 9) && InPlace(FlowOps(e, o), 9, 12) && InPlace(TimedOps(e, o), 12, 14)
  {
  }

  /** Whichever plugins are active, the increments of one execution are made in their places. */
  lemma ProgramInPlace(r: Plugins, e: Expected, o: Outcome)
    ensures InPlace(ReportOps(r, e, o), 0, 14)
  {
    hide FullOps, SimpleOps, Place;
    FullInPlace(e, o);
    SimpleInPlace(r.ignoreRowDiffs, e, o);
    InPlaceAppend(if r.full then FullOps(e, o) else [], if r.simple then SimpleOps(r.ignoreRowDiffs, e, o) else [],
                  0, 5, 14);
  }

  // ---------- Any choice of plugins ----------

  lemma NothingObeys(law: Law)
    ensures Obeys(law, [])
  {
    hide First, Second, Bound, Dominated;
    NothingDominated(First(law), Second(law), Bound(law), [][..0]);
  }

  /** Whichever plugins are active, every law holds at every point of one execution. */
  lemma ProgramObeys(law: Law, r: Plugins, e: Expected, o: Outcome)
    ensures Obeys(law, ReportOps(r, e, o))
  {
    hide FullOps, SimpleOps, Obeys;
    FullObeys(law, e, o);
    SimpleObeys(law, r.ignoreRowDiffs, e, o);
    NothingObeys(law);
    ObeysAppend(law, if r.full then FullOps(e, o) else [], if r.simple then SimpleOps(r.ignoreRowDiffs, e, o) else []);
  }
}
