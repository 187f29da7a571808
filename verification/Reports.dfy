/** The atomic counters of the report plugins, and the increments one executed query makes to them. */
module Reports {
  import opened Seqs
  import opened Text

  datatype Statement = Select | Update | Insert | Delete | Replace | Drop

  /** The counters; Conn is the per-connection map of the simple report, the last five belong to the full report. */
  datatype Key =
    | Errors | RowsDiffer | Executed | ExpectedRows | ActualRows | TotalTime | ExpectedTime | Quicker | Slower
    | Conn(id: nat)
    | FullTime | FullExpectedTime
    | Count(kind: Statement) | CountFaster(kind: Statement) | CountSlower(kind: Statement)

  /** One atomic fetch-and-add; adding zero to an absent Conn key is the insertion of a fresh counter. */
  datatype Inc = Inc(key: Key, amount: nat)

  type Counters = map<Key, nat>

  function Get(m: Counters, k: Key): nat { if k in m then m[k] else 0 }

  function Apply(m: Counters, inc: Inc): Counters { m[inc.key := Get(m, inc.key) + inc.amount] }

  function AmountTo(k: Key): Inc -> int { (inc: Inc) => if inc.key == k then inc.amount else 0 }

  function ConnAmount(): Inc -> int { (inc: Inc) => if inc.key.Conn? then inc.amount else 0 }

  // ---------- Sum over the per-connection map ----------

  ghost function ConnIds(m: Counters): set<nat> { set k | k in m && k.Conn? :: k.id }

  ghost function SumConns(m: Counters, ids: set<nat>): nat
    decreases |ids|
  {
    if ids == {} then 0 else var c :| c in ids; Get(m, Conn(c)) + SumConns(m, ids - {c})
  }

  /** The total the report prints for the per-connection counts. */
  ghost function ConnTotal(m: Counters): nat { SumConns(m, ConnIds(m)) }

  lemma {:induction false} SumConnsTake(m: Counters, ids: set<nat>, c: nat)
    requires c in ids
    ensures SumConns(m, ids) == Get(m, Conn(c)) + SumConns(m, ids - {c})
    decreases |ids|
  {
    var d :| d in ids && SumConns(m, ids) == Get(m, Conn(d)) + SumConns(m, ids - {d});
    if d != c {
      SumConnsTake(m, ids - {d}, c);
      SumConnsTake(m, ids - {c}, d);
      assert ids - {d} - {c} == ids - {c} - {d};
    }
  }

  lemma {:induction false} SumConnsAgree(m: Counters, n: Counters, ids: set<nat>)
    requires forall c :: c in ids ==> Get(m, Conn(c)) == Get(n, Conn(c))
    ensures SumConns(m, ids) == SumConns(n, ids)
    decreases |ids|
  {
    if ids != {} {
      var c :| c in ids;
      SumConnsTake(m, ids, c);
      SumConnsTake(n, ids, c);
      SumConnsAgree(m, n, ids - {c});
    }
  }

  /** An increment adds its amount to its own counter and, for a connection counter, to their total. */
  lemma ApplyAdds(m: Counters, inc: Inc, k: Key)
    ensures Get(Apply(m, inc), k) == Get(m, k) + AmountTo(k)(inc)
    ensures ConnTotal(Apply(m, inc)) == ConnTotal(m) + ConnAmount()(inc)
  {
    var n := Apply(m, inc);
    if inc.key.Conn? {
      var c := inc.key.id;
      assert n.Keys == m.Keys + {inc.key};
      assert ConnIds(n) == ConnIds(m) + {c} by {
        forall d ensures d in ConnIds(n) <==> d in ConnIds(m) + {c} {
          assert d in ConnIds(n) <==> Conn(d) in n;
          assert d in ConnIds(m) <==> Conn(d) in m;
        }
      }
      var others := ConnIds(m) - {c};
      SumConnsTake(n, ConnIds(n), c);
      assert ConnIds(n) - {c} == others;
      SumConnsAgree(m, n, others);
      if c in ConnIds(m) {
        SumConnsTake(m, ConnIds(m), c);
      } else {
        assert Conn(c) !in m;
        assert others == ConnIds(m);
      }
    } else {
      assert ConnIds(n) == ConnIds(m) by {
        forall d ensures d in ConnIds(n) <==> d in ConnIds(m) {
          assert d in ConnIds(n) <==> Conn(d) in n;
          assert d in ConnIds(m) <==> Conn(d) in m;
        }
      }
      SumConnsAgree(m, n, ConnIds(m));
    }
  }

  // ---------- What one query adds ----------

  /** What the database client reports for an executed query. */
  datatype Outcome = Outcome(error: int, rows: nat, micros: nat)

  /** What the log expects of it. */
  datatype Expected = Expected(conn: nat, rows: nat, micros: nat, text: string)

  function ToUpper(s: string): (r: string)
    ensures |r| == |s|
  {
    seq(|s|, i requires 0 <= i < |s| => if 'a' <= s[i] <= 'z' then s[i] - 'a' + 'A' else s[i])
  }

  /** The first statement class whose keyword occurs in the query, in the order the report tries them. */
  function Classify(query: string): Option<Statement>
  {
    var q := ToUpper(query);
    if Contains(q, "SELECT ") then Some(Select)
    else if Contains(q, "UPDATE ") then Some(Update)
    else if Contains(q, "INSERT ") then Some(Insert)
    else if Contains(q, "DELETE ") then Some(Delete)
    else if Contains(q, "REPLACE ") then Some(Replace)
    else if Contains(q, "DROP ") then Some(Drop)
    else None
  }

  // ---------- Statement classes, keyword by keyword ----------

  /** c is the letter or other character k of a keyword, capital or not. */
  predicate SameLetter(c: char, k: char) { c == k || ('A' <= k <= 'Z' && c as int == k as int + 32) }

  predicate OccursIgnoringCase(q: string, keyword: string, i: nat)
  {
    i + |keyword| <= |q| && forall m :: 0 <= m < |keyword| ==> SameLetter(q[i + m], keyword[m])
  }

  /** The keyword occurs somewhere in the query, in capitals or not. */
  predicate Mentions(q: string, keyword: string)
  {
    exists i :: 0 <= i <= |q| && OccursIgnoringCase(q, keyword, i)
  }

  /** The query mentions the keyword of the class and none that is tried before it. */
  predicate InClass(k: Statement, q: string)
  {
    match k
    case Select => Mentions(q, "SELECT ")
    case Update => Mentions(q, "UPDATE ") && !Mentions(q, "SELECT ")
    case Insert => Mentions(q, "INSERT ") && !Mentions(q, "UPDATE ") && !Mentions(q, "SELECT ")
    case Delete =>
      && Mentions(q, "DELETE ")
      && !Mentions(q, "INSERT ") && !Mentions(q, "UPDATE ") && !Mentions(q, "SELECT ")
    case Replace =>
      && Mentions(q, "REPLACE ") && !Mentions(q, "DELETE ")
      && !Mentions(q, "INSERT ") && !Mentions(q, "UPDATE ") && !Mentions(q, "SELECT ")
    case Drop =>
      && Mentions(q, "DROP ") && !Mentions(q, "REPLACE ") && !Mentions(q, "DELETE ")
      && !Mentions(q, "INSERT ") && !Mentions(q, "UPDATE ") && !Mentions(q, "SELECT ")
  }

  predicate IsKeyword(keyword: string)
  {
    forall m :: 0 <= m < |keyword| ==> keyword[m] == ' ' || 'A' <= keyword[m] <= 'Z'
  }

  lemma UpperAt(q: string, m: nat, k: char)
    requires m < |q| && (k == ' ' || 'A' <= k <= 'Z')
    ensures ToUpper(q)[m] == k <==> SameLetter(q[m], k)
  {
  }

  lemma OccursUpper(q: string, keyword: string, i: nat)
    requires IsKeyword(keyword)
    ensures OccursAt(ToUpper(q), keyword, i) <==> OccursIgnoringCase(q, keyword, i)
  {
    hide SameLetter;
    var u, n := ToUpper(q), |keyword|;
    if i + n <= |q| {
      forall m | 0 <= m < n
        ensures u[i + m] == keyword[m] <==> SameLetter(q[i + m], keyword[m])
      {
        UpperAt(q, i + m, keyword[m]);
      }
      hide ToUpper;
      if OccursIgnoringCase(q, keyword, i) {
        assert u[i..i + n] == keyword;
      }
      if OccursAt(u, keyword, i) {
        forall m | 0 <= m < n
          ensures SameLetter(q[i + m], keyword[m])
        {
          assert u[i..i + n][m] == u[i + m];
        }
      }
    }
  }

  lemma ContainsUpper(q: string, keyword: string)
    requires IsKeyword(keyword)
    ensures Contains(ToUpper(q), keyword) <==> Mentions(q, keyword)
  {
    hide ToUpper, OccursAt, OccursIgnoringCase;
    forall i: nat
      ensures OccursAt(ToUpper(q), keyword, i) <==> OccursIgnoringCase(q, keyword, i)
    {
      OccursUpper(q, keyword, i);
    }
    if i: nat :| OccursIgnoringCase(q, keyword, i) {
      OccursWithin(q, keyword, i);
      assert OccursAt(ToUpper(q), keyword, i);
    }
    if Contains(ToUpper(q), keyword) {
      var i := Find(ToUpper(q), keyword).value;
      OccursWithin(q, keyword, i);
    }
  }

  lemma OccursWithin(q: string, keyword: string, i: nat)
    requires OccursIgnoringCase(q, keyword, i)
    ensures i <= |q|
  {
  }

  lemma KeywordsAre()
    ensures IsKeyword("SELECT ") && IsKeyword("UPDATE ") && IsKeyword("INSERT ")
    ensures IsKeyword("DELETE ") && IsKeyword("REPLACE ") && IsKeyword("DROP ")
  {
  }

  /** A query gets the first class whose keyword it mentions, and none if it mentions none of the six. */
  lemma ClassifyMeans(q: string)
    ensures forall k :: Classify(q) == Some(k) <==> InClass(k, q)
    ensures Classify(q) == None <==>
            && !Mentions(q, "SELECT ") && !Mentions(q, "UPDATE ") && !Mentions(q, "INSERT ")
            && !Mentions(q, "DELETE ") && !Mentions(q, "REPLACE ") && !Mentions(q, "DROP ")
  {
    hide ToUpper, Contains, Mentions, IsKeyword;
    KeywordsAre();
    ContainsUpper(q, "SELECT ");
    ContainsUpper(q, "UPDATE ");
    ContainsUpper(q, "INSERT ");
    ContainsUpper(q, "DELETE ");
    ContainsUpper(q, "REPLACE ");
    ContainsUpper(q, "DROP ");
  }

  // The parts of SimpleReportPlugin::query_execution, in order.

  function ErrorOps(o: Outcome): seq<Inc> { if o.error != 0 then [Inc(Errors, 1)] else [] }

  /** A fresh counter is inserted for the connection unless it has one, and incremented. */
  function ConnOps(e: Expected): seq<Inc> { [Inc(Conn(e.conn), 0)] + [Inc(Conn(e.conn), 1)] }

  function DifferOps(ignoreRowDiffs: bool, e: Expected, o: Outcome): seq<Inc>
  {
    if !ignoreRowDiffs && o.rows != e.rows then [Inc(RowsDiffer, 1)] else []
  }

  function FlowOps(e: Expected, o: Outcome): seq<Inc>
  {
    [Inc(ExpectedRows, e.rows)] + [Inc(ActualRows, o.rows)] + [Inc(TotalTime, o.micros)]
  }

  function TimedOps(e: Expected, o: Outcome): seq<Inc>
  {
    if e.micros != 0
    then [Inc(ExpectedTime, e.micros)] + [Inc(if o.micros < e.micros then Quicker else Slower, 1)]
    else []
  }

  function SimpleOps(ignoreRowDiffs: bool, e: Expected, o: Outcome): seq<Inc>
  {
    ErrorOps(o) + ConnOps(e) + DifferOps(ignoreRowDiffs, e, o) + [Inc(Executed, 1)] + FlowOps(e, o) + TimedOps(e, o)
  }

  // The parts of FullReportPlugin::query_execution, in order.

  function FullTimeOps(e: Expected, o: Outcome): seq<Inc>
  {
    [Inc(FullTime, o.micros)] + (if e.micros != 0 then [Inc(FullExpectedTime, e.micros)] else [])
  }

  function ClassOps(kind: Option<Statement>, e: Expected, o: Outcome): seq<Inc>
  {
    match kind
    case None => []
    case Some(c) =>
      [Inc(Count(c), 1)]
      + [Inc(CountFaster(c), if e.micros != 0 && o.micros < e.micros then 1 else 0)]
      + [Inc(CountSlower(c), if e.micros != 0 && o.micros >= e.micros then 1 else 0)]
  }

  function FullOps(e: Expected, o: Outcome): seq<Inc>
  {
    FullTimeOps(e, o) + ClassOps(Classify(e.text), e, o)
  }

  /** Which of the two plugins are active, and whether the simple one ignores differences in rows. */
  datatype Plugins = Plugins(simple: bool, full: bool, ignoreRowDiffs: bool)

  /** The active plugins; the registry visits them by name, the full report first. */
  function ReportOps(r: Plugins, e: Expected, o: Outcome): seq<Inc>
  {
    (if r.full then FullOps(e, o) else []) + (if r.simple then SimpleOps(r.ignoreRowDiffs, e, o) else [])
  }

  const MAX_OPS: nat := 16

  lemma ReportOpsBounded(r: Plugins, e: Expected, o: Outcome)
    ensures |ReportOps(r, e, o)| <= MAX_OPS
  {
    hide Classify;
  }

  // ---------- The plugins ----------

  /** The counters after a sequence of increments. */
  function ApplyAll(ops: seq<Inc>): Counters
  {
    if ops == [] then map[] else Apply(ApplyAll(ops[..|ops| - 1]), ops[|ops| - 1])
  }

  /** Every counter is the sum of the increments to it. */
  lemma {:induction false} ApplyAllAdds(ops: seq<Inc>, k: Key)
    ensures Get(ApplyAll(ops), k) == Sum(AmountTo(k), ops)
    ensures ConnTotal(ApplyAll(ops)) == Sum(ConnAmount(), ops)
  {
    if ops == [] {
      assert ConnTotal(map[]) == 0;
    } else {
      var init, last := ops[..|ops| - 1], ops[|ops| - 1];
      hide ConnTotal, Get;
      ApplyAllAdds(init, k);
      ApplyAdds(ApplyAll(init), last, k);
    }
  }

  /** The counters of the report plugins; ops is the history of the increments made to them. */
  class ReportPlugins {
    const plugins: Plugins
    var counters: Counters
    ghost var ops: seq<Inc>

    ghost predicate Valid()
      reads this
    {
      counters == ApplyAll(ops)
    }

    constructor (plugins: Plugins)
      ensures Valid() && counters == map[] && ops == [] && this.plugins == plugins
    {
      this.plugins, this.counters, this.ops := plugins, map[], [];
    }

    method Add(key: Key, amount: nat)
      requires Valid()
      modifies this
      ensures Valid() && ops == old(ops) + [Inc(key, amount)]
    {
      assert (ops + [Inc(key, amount)])[..|ops|] == ops;
      counters := counters[key := (if key in counters then counters[key] else 0) + amount];
      ops := ops + [Inc(key, amount)];
    }

    /** Inserts a zero under the connection unless it has a counter, and adds one to it. */
    method CountConnection(e: Expected)
      requires Valid()
      modifies this
      ensures Valid() && ops == old(ops) + ConnOps(e)
    {
      var conn := e.conn;
      if Conn(conn) !in counters {
        Add(Conn(conn), 0);
      } else {
        assert (ops + [Inc(Conn(conn), 0)])[..|ops|] == ops;
        assert Apply(counters, Inc(Conn(conn), 0)) == counters;
        ops := ops + [Inc(Conn(conn), 0)];
      }
      Add(Conn(conn), 1);
    }

    method CountErrorAndConnection(e: Expected, o: Outcome)
      requires Valid()
      modifies this
      ensures Valid() && ops == old(ops) + ErrorOps(o) + ConnOps(e)
    {
      hide ApplyAll, ConnOps;
      if o.error != 0 {
        Add(Errors, 1);
      }
      CountConnection(e);
    }

    method CountDifference(e: Expected, o: Outcome)
      requires Valid()
      modifies this
      ensures Valid() && ops == old(ops) + DifferOps(plugins.ignoreRowDiffs, e, o)
    {
      hide ApplyAll;
      if !plugins.ignoreRowDiffs && o.rows != e.rows {
        Add(RowsDiffer, 1);
      }
    }

    method SimpleQueryExecution(e: Expected, o: Outcome)
      requires Valid()
      modifies this
      ensures Valid() && ops == old(ops) + SimpleOps(plugins.ignoreRowDiffs, e, o)
    {
      hide ApplyAll, ErrorOps, ConnOps, DifferOps, FlowOps, TimedOps;
      CountErrorAndConnection(e, o);
      CountDifference(e, o);
      Add(Executed, 1);
      CountRowsAndTime(e, o);
    }

    method CountRowsAndTime(e: Expected, o: Outcome)
      requires Valid()
      modifies this
      ensures Valid() && ops == old(ops) + FlowOps(e, o) + TimedOps(e, o)
    {
      hide ApplyAll;
      Add(ExpectedRows, e.rows);
      Add(ActualRows, o.rows);
      Add(TotalTime, o.micros);
      if e.micros != 0 {
        Add(ExpectedTime, e.micros);
        if o.micros < e.micros {
          Add(Quicker, 1);
        } else {
          Add(Slower, 1);
        }
      }
    }

    method FullQueryExecution(e: Expected, o: Outcome)
      requires Valid()
      modifies this
      ensures Valid() && ops == old(ops) + FullOps(e, o)
    {
      hide ApplyAll, Classify;
      var faster, slower := 0, 0;
      Add(FullTime, o.micros);
      if e.micros != 0 {
        Add(FullExpectedTime, e.micros);
        if o.micros < e.micros {
          faster, slower := 1, 0;
        } else {
          faster, slower := 0, 1;
        }
      }
      assert ops == old(ops) + FullTimeOps(e, o);
      hide FullTimeOps;
      var kind := Classify(e.text);
      if kind.Some? {
        Add(Count(kind.value), 1);
        Add(CountFaster(kind.value), faster);
        Add(CountSlower(kind.value), slower);
      }
    }

    /** What an executed query makes the active plugins do, in the order of their names. */
    method QueryExecution(e: Expected, o: Outcome)
      requires Valid()
      modifies this
      ensures Valid() && ops == old(ops) + ReportOps(plugins, e, o)
    {
      hide ApplyAll, Classify, SimpleOps, FullOps;
      if plugins.full {
        FullQueryExecution(e, o);
      }
      if plugins.simple {
        SimpleQueryExecution(e, o);
      }
    }
  }
}
