/** What one executed query contributes to each counter, in the end. */
module Contributions {
  import opened Seqs
  import opened Reports

  predicate OfFullReport(k: Key) { k.FullTime? || k.FullExpectedTime? || k.Count? || k.CountFaster? || k.CountSlower? }

  /** The counter belongs to an active plugin. */
  predicate Reported(r: Plugins, k: Key) { if OfFullReport(k) then r.full else r.simple }

  /** The contribution of one execution to a counter of an active plugin. */
  function Contribution(k: Key, ignoreRowDiffs: bool, e: Expected, o: Outcome): nat
  {
    match k
    case Errors => if o.error != 0 then 1 else 0
    case RowsDiffer => if !ignoreRowDiffs && o.rows != e.rows then 1 else 0
    case Executed => 1
    case ExpectedRows => e.rows
    case ActualRows => o.rows
    case TotalTime => o.micros
    case ExpectedTime => e.micros
    case Quicker => if e.micros != 0 && o.micros < e.micros then 1 else 0
    case Slower => if e.micros != 0 && o.micros >= e.micros then 1 else 0
    case Conn(c) => if c == e.conn then 1 else 0
    case FullTime => o.micros
    case FullExpectedTime => e.micros
    case Count(c) => if InClass(c, e.text) then 1 else 0
    case CountFaster(c) => if InClass(c, e.text) && e.micros != 0 && o.micros < e.micros then 1 else 0
    case CountSlower(c) => if InClass(c, e.text) && e.micros != 0 && o.micros >= e.micros then 1 else 0
  }

  // ---------- The sums of the parts ----------

  lemma ErrorSum(f: Inc -> int, o: Outcome)
    ensures Sum(f, ErrorOps(o)) == if o.error != 0 then f(Inc(Errors, 1)) else 0
  {
    SumOne(f, Inc(Errors, 1));
  }

  lemma ConnSum(f: Inc -> int, e: Expected)
    ensures Sum(f, ConnOps(e)) == f(Inc(Conn(e.conn), 0)) + f(Inc(Conn(e.conn), 1))
  {
    SumTwo(f, Inc(Conn(e.conn), 0), Inc(Conn(e.conn), 1));
  }

  lemma DifferSum(f: Inc -> int, ignoreRowDiffs: bool, e: Expected, o: Outcome)
    ensures Sum(f, DifferOps(ignoreRowDiffs, e, o)) ==
            if !ignoreRowDiffs && o.rows != e.rows then f(Inc(RowsDiffer, 1)) else 0
  {
    SumOne(f, Inc(RowsDiffer, 1));
  }

  lemma FlowSum(f: Inc -> int, e: Expected, o: Outcome)
    ensures Sum(f, FlowOps(e, o)) ==
            f(Inc(ExpectedRows, e.rows)) + f(Inc(ActualRows, o.rows)) + f(Inc(TotalTime, o.micros))
  {
    SumTwo(f, Inc(ExpectedRows, e.rows), Inc(ActualRows, o.rows));
    SumPush(f, [Inc(ExpectedRows, e.rows)] + [Inc(ActualRows, o.rows)], Inc(TotalTime, o.micros));
  }

  lemma TimedSum(f: Inc -> int, e: Expected, o: Outcome)
    ensures Sum(f, TimedOps(e, o)) ==
            if e.micros != 0
            then f(Inc(ExpectedTime, e.micros)) + f(Inc(if o.micros < e.micros then Quicker else Slower, 1))
            else 0
  {
    SumTwo(f, Inc(ExpectedTime, e.micros), Inc(if o.micros < e.micros then Quicker else Slower, 1));
  }

  lemma FullTimeSum(f: Inc -> int, e: Expected, o: Outcome)
    ensures Sum(f, FullTimeOps(e, o)) ==
            f(Inc(FullTime, o.micros)) + (if e.micros != 0 then f(Inc(FullExpectedTime, e.micros)) else 0)
  {
    SumOne(f, Inc(FullTime, o.micros));
    SumPush(f, [Inc(FullTime, o.micros)], Inc(FullExpectedTime, e.micros));
    assert [Inc(FullTime, o.micros)] + [] == [Inc(FullTime, o.micros)];
  }

  lemma ClassSum(f: Inc -> int, kind: Option<Statement>, e: Expected, o: Outcome)
    ensures kind.None? ==> Sum(f, ClassOps(kind, e, o)) == 0
    ensures kind.Some? ==>
              Sum(f, ClassOps(kind, e, o)) ==
              f(Inc(Count(kind.value), 1))
              + f(Inc(CountFaster(kind.value), if e.micros != 0 && o.micros < e.micros then 1 else 0))
              + f(Inc(CountSlower(kind.value), if e.micros != 0 && o.micros >= e.micros then 1 else 0))
  {
    if kind.Some? {
      var c := kind.value;
      var faster := Inc(CountFaster(c), if e.micros != 0 && o.micros < e.micros then 1 else 0);
      var slower := Inc(CountSlower(c), if e.micros != 0 && o.micros >= e.micros then 1 else 0);
      SumTwo(f, Inc(Count(c), 1), faster);
      SumPush(f, [Inc(Count(c), 1)] + [faster], slower);
    }
  }

  // ---------- The sums of the programs ----------

  lemma SimpleSum(f: Inc -> int, ignoreRowDiffs: bool, e: Expected, o: Outcome)
    ensures Sum(f, SimpleOps(ignoreRowDiffs, e, o)) ==
            Sum(f, ErrorOps(o)) + Sum(f, ConnOps(e)) + Sum(f, DifferOps(ignoreRowDiffs, e, o)) + f(Inc(Executed, 1))
            + Sum(f, FlowOps(e, o)) + Sum(f, TimedOps(e, o))
  {
    hide ErrorOps, ConnOps, DifferOps, FlowOps, TimedOps, Sum;
    var counted := ErrorOps(o) + ConnOps(e) + DifferOps(ignoreRowDiffs, e, o);
    SumAppend(f, ErrorOps(o), ConnOps(e));
    SumAppend(f, ErrorOps(o) + ConnOps(e), DifferOps(ignoreRowDiffs, e, o));
    SumPush(f, counted, Inc(Executed, 1));
    SumAppend(f, counted + [Inc(Executed, 1)], FlowOps(e, o));
    SumAppend(f, counted + [Inc(Executed, 1)] + FlowOps(e, o), TimedOps(e, o));
  }

  lemma SimpleContributes(k: Key, ignoreRowDiffs: bool, e: Expected, o: Outcome)
    ensures Sum(AmountTo(k), SimpleOps(ignoreRowDiffs, e, o)) ==
            if OfFullReport(k) then 0 else Contribution(k, ignoreRowDiffs, e, o)
  {
    hide ErrorOps, ConnOps, DifferOps, FlowOps, TimedOps, SimpleOps, Sum, Classify, InClass;
    var f := AmountTo(k);
    SimpleSum(f, ignoreRowDiffs, e, o);
    ErrorSum(f, o);
    ConnSum(f, e);
    DifferSum(f, ignoreRowDiffs, e, o);
    FlowSum(f, e, o);
    TimedSum(f, e, o);
    match k
    case Errors =>
    case RowsDiffer =>
    case Executed =>
    case ExpectedRows =>
    case ActualRows =>
    case TotalTime =>
    case ExpectedTime =>
    case Quicker =>
    case Slower =>
    case Conn(c) =>
    case _ =>
  }

  lemma FullContributes(k: Key, ignoreRowDiffs: bool, e: Expected, o: Outcome)
    ensures Sum(AmountTo(k), FullOps(e, o)) == if OfFullReport(k) then Contribution(k, ignoreRowDiffs, e, o) else 0
  {
    hide FullTimeOps, ClassOps, Classify, InClass, Sum;
    var f, kind := AmountTo(k), Classify(e.text);
    SumAppend(f, FullTimeOps(e, o), ClassOps(kind, e, o));
    FullTimeSum(f, e, o);
    ClassSum(f, kind, e, o);
    assert kind.Some? ==> kind == Some(kind.value);
    ClassifyMeans(e.text);
    hide FullOps;
    match k
    case FullTime =>
    case FullExpectedTime =>
    case Count(c) =>
    case CountFaster(c) =>
    case CountSlower(c) =>
    case _ =>
  }

  /** The increments a query makes to a counter of an active plugin add up to its contribution, others get none. */
  lemma ProgramContributes(k: Key, r: Plugins, e: Expected, o: Outcome)
    ensures Sum(AmountTo(k), ReportOps(r, e, o)) ==
            if Reported(r, k) then Contribution(k, r.ignoreRowDiffs, e, o) else 0
  {
    hide FullOps, SimpleOps, Contribution, AmountTo;
    var f := AmountTo(k);
    SumAppend(f, if r.full then FullOps(e, o) else [], if r.simple then SimpleOps(r.ignoreRowDiffs, e, o) else []);
    FullContributes(k, r.ignoreRowDiffs, e, o);
    SimpleContributes(k, r.ignoreRowDiffs, e, o);
  }

  lemma SimpleCountsConnection(ignoreRowDiffs: bool, e: Expected, o: Outcome)
    ensures Sum(ConnAmount(), SimpleOps(ignoreRowDiffs, e, o)) == 1
  {
    hide ErrorOps, ConnOps, DifferOps, FlowOps, TimedOps, SimpleOps, Sum;
    var f := ConnAmount();
    SimpleSum(f, ignoreRowDiffs, e, o);
    ErrorSum(f, o);
    ConnSum(f, e);
    DifferSum(f, ignoreRowDiffs, e, o);
    FlowSum(f, e, o);
    TimedSum(f, e, o);
  }

  lemma FullCountsNoConnection(e: Expected, o: Outcome)
    ensures Sum(ConnAmount(), FullOps(e, o)) == 0
  {
    hide FullTimeOps, ClassOps, Classify, InClass, Sum;
    var f, kind := ConnAmount(), Classify(e.text);
    SumAppend(f, FullTimeOps(e, o), ClassOps(kind, e, o));
    FullTimeSum(f, e, o);
    ClassSum(f, kind, e, o);
  }

  /** The simple report counts each execution under one connection. */
  lemma ProgramCountsConnection(r: Plugins, e: Expected, o: Outcome)
    ensures Sum(ConnAmount(), ReportOps(r, e, o)) == if r.simple then 1 else 0
  {
    hide FullOps, SimpleOps, ConnAmount;
    var f := ConnAmount();
    SumAppend(f, if r.full then FullOps(e, o) else [], if r.simple then SimpleOps(r.ignoreRowDiffs, e, o) else []);
    FullCountsNoConnection(e, o);
    SimpleCountsConnection(r.ignoreRowDiffs, e, o);
  }
}
