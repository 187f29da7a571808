/** The queue entries the dispatchers hand to worker threads, and which of them end a worker. */
module Jobs {
  import opened Seqs

  /**
    A log query (its connection, whether it is a Quit command, the rows and microseconds the log reports, its
    text, and the shutdown flag), or the FinishEntry of the thread pool.
   */
  datatype Job =
    | Query(conn: nat, quit: bool, rows: nat, micros: nat, text: string, shutdown: bool)
    | Finish

  predicate Shuts(j: Job) { j.Finish? || j.shutdown }

  function ByConn(c: nat): Job -> bool { (j: Job) => j.Query? && j.conn == c }

  /** No entry of connection c from position k on. */
  ghost predicate NoMore(stream: seq<Job>, k: nat, c: nat)
  {
    forall j :: k <= j < |stream| ==> !ByConn(c)(stream[j])
  }

  /** Every entry is a query, and shutdown is set on exactly the last entry of each connection. */
  ghost predicate Marked(stream: seq<Job>)
  {
    forall i :: 0 <= i < |stream| ==>
      stream[i].Query? && (stream[i].shutdown <==> NoMore(stream, i + 1, stream[i].conn))
  }

  /** What a worker is to be fed: only the last entry ends it. */
  ghost predicate IsPlan(plan: seq<Job>)
  {
    plan != [] && forall i :: 0 <= i < |plan| ==> (Shuts(plan[i]) <==> i == |plan| - 1)
  }

  /** In a marked stream a connection's entries are shut down at the end of the connection and nowhere else. */
  lemma {:induction false} MarksWithinConnection(stream: seq<Job>, c: nat, k: nat)
    requires Marked(stream) && k <= |stream|
    ensures var p := Filter(ByConn(c), stream[..k]);
            forall m :: 0 <= m < |p| ==> (Shuts(p[m]) <==> m == |p| - 1 && NoMore(stream, k, c))
  {
    if k > 0 {
      MarksWithinConnection(stream, c, k - 1);
      FilterPrefix(ByConn(c), stream, k - 1);
      NoMoreStep(stream, k - 1, c);
      hide NoMore;
    }
  }

  lemma NoMoreStep(stream: seq<Job>, k: nat, c: nat)
    requires k < |stream|
    ensures NoMore(stream, k, c) <==> NoMore(stream, k + 1, c) && !ByConn(c)(stream[k])
  {
  }

  lemma {:induction false} MarkedPlan(stream: seq<Job>, c: nat)
    requires Marked(stream)
    requires Filter(ByConn(c), stream) != []
    ensures IsPlan(Filter(ByConn(c), stream))
  {
    assert stream[..|stream|] == stream;
    MarksWithinConnection(stream, c, |stream|);
  }

  // ---------- Marking ----------

  function Conns(stream: seq<Job>): (cs: seq<nat>)
    requires forall j :: j in stream ==> j.Query?
    ensures |cs| == |stream| && forall i :: 0 <= i < |cs| ==> cs[i] == stream[i].conn
  {
    seq<nat>(|stream|, i requires 0 <= i < |stream| => stream[i].conn)
  }

  /** The position holds the last occurrence of its connection. */
  predicate IsLast(conns: seq<nat>, i: nat)
    requires i < |conns|
  {
    conns[i] !in conns[i + 1..]
  }

  function LastFlags(conns: seq<nat>): (fs: seq<bool>)
    ensures |fs| == |conns| && forall i :: 0 <= i < |fs| ==> (fs[i] <==> IsLast(conns, i))
  {
    seq(|conns|, i requires 0 <= i < |conns| => IsLast(conns, i))
  }

  function Members(conns: seq<nat>): set<nat> { set c | c in conns }

  function CountTrue(fs: seq<bool>): nat
  {
    if fs == [] then 0 else (if fs[0] then 1 else 0) + CountTrue(fs[1..])
  }

  /** One shutdown per distinct connection. */
  lemma {:induction false} OneFlagPerConnection(conns: seq<nat>)
    ensures CountTrue(LastFlags(conns)) == |Members(conns)|
  {
    if conns == [] {
      assert Members(conns) == {};
    } else {
      var c, rest := conns[0], conns[1..];
      OneFlagPerConnection(rest);
      assert LastFlags(conns)[1..] == LastFlags(rest) by {
        forall i | 0 <= i < |rest|
          ensures LastFlags(conns)[i + 1] == LastFlags(rest)[i]
        {
          assert conns[i + 1 + 1..] == rest[i + 1..];
        }
      }
      assert Members(conns) == Members(rest) + {c};
      assert c in Members(rest) ==> Members(conns) == Members(rest);
    }
  }

  /** The stream with shutdown set on the last entry of each connection. */
  function WithMarks(stream: seq<Job>): (r: seq<Job>)
    requires forall j :: j in stream ==> j.Query?
    ensures |r| == |stream|
    ensures forall i :: 0 <= i < |r| ==> r[i] == stream[i].(shutdown := IsLast(Conns(stream), i))
  {
    seq(|stream|, i requires 0 <= i < |stream| => stream[i].(shutdown := IsLast(Conns(stream), i)))
  }

  lemma WithMarksIsMarked(stream: seq<Job>)
    requires forall j :: j in stream ==> j.Query?
    ensures Marked(WithMarks(stream))
  {
    var r, conns := WithMarks(stream), Conns(stream);
    forall i | 0 <= i < |r|
      ensures IsLast(conns, i) <==> NoMore(r, i + 1, r[i].conn)
    {
      if IsLast(conns, i) {
        assert forall j :: i + 1 <= j < |r| ==> conns[i + 1..][j - i - 1] == r[j].conn;
      } else {
        var j :| 0 <= j < |conns[i + 1..]| && conns[i + 1..][j] == conns[i];
        assert ByConn(r[i].conn)(r[i + 1 + j]);
      }
    }
  }
}
