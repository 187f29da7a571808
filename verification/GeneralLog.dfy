/** The general log's container: a cursor over entry objects that carry their own shutdown flag. */
module GeneralLog {
  import opened Seqs
  import opened Text
  import opened Jobs

  class GeneralLogEntry {
    const threadId: nat
    const query: string
    var shutdown: bool

    constructor (threadId: nat, query: string)
      ensures this.threadId == threadId && this.query == query && !shutdown
    {
      this.threadId, this.query, this.shutdown := threadId, query, false;
    }

    predicate IsQuit() { StartsWith(query, "# administrator command: Quit;") }

    /** What a worker gets to know; the general log records neither rows nor times. */
    function Job(): (j: Job)
      reads this
      ensures j.Query?
    {
      Query(threadId, IsQuit(), 0, 0, query, shutdown)
    }
  }

  function PlainJob(e: GeneralLogEntry): (j: Job)
    ensures j.Query?
  {
    Query(e.threadId, e.IsQuit(), 0, 0, e.query, false)
  }

  function PlainStream(entries: seq<GeneralLogEntry>): (r: seq<Job>)
    ensures |r| == |entries| && forall i :: 0 <= i < |r| ==> r[i] == PlainJob(entries[i])
    ensures forall j :: j in r ==> j.Query?
  {
    seq(|entries|, i requires 0 <= i < |entries| => PlainJob(entries[i]))
  }

  class GeneralLogQueryEntries {
    var entries: seq<GeneralLogEntry>
    var pos: nat

    /** Every pushed entry is a fresh object. */
    ghost predicate Valid()
      reads this
    {
      pos <= |entries| && forall i, j :: 0 <= i < j < |entries| ==> entries[i] != entries[j]
    }

    constructor (entries: seq<GeneralLogEntry>)
      requires forall i, j :: 0 <= i < j < |entries| ==> entries[i] != entries[j]
      ensures Valid() && this.entries == entries && pos == 0
    {
      this.entries, this.pos := entries, 0;
    }

    method PopEntry() returns (entry: Option<GeneralLogEntry>)
      requires Valid()
      modifies this`pos
      ensures Valid()
      ensures old(pos) == |entries| ==> entry == None && pos == old(pos)
      ensures old(pos) < |entries| ==> entry == Some(entries[old(pos)]) && pos == old(pos) + 1
    {
      entry := None;
      if pos < |entries| {
        entry := Some(entries[pos]);
        pos := pos + 1;
      }
    }

    /** Sets the flag of the last entry of every connection, scanning from the back, and of no other. */
    method SetShutdownOnLastQueryOfConn()
      requires Valid()
      modifies entries
      ensures forall i :: 0 <= i < |entries| ==>
                (entries[i].shutdown <==> old(entries[i].shutdown) || IsLast(Conns(PlainStream(entries)), i))
    {
      hide IsLast, Members;
      var threadIds: set<nat> := {};
      var k := |entries|;
      ghost var conns := Conns(PlainStream(entries));
      NoMembersYet(conns);
      while k > 0
        invariant 0 <= k <= |entries|
        invariant threadIds == Members(conns[k..])
        invariant forall i :: 0 <= i < k ==> entries[i].shutdown == old(entries[i].shutdown)
        invariant forall i :: k <= i < |entries| ==>
                    (entries[i].shutdown <==> old(entries[i].shutdown) || IsLast(conns, i))
      {
        k := k - 1;
        MembersStep(conns, k);
        if entries[k].threadId !in threadIds {
          threadIds := threadIds + {entries[k].threadId};
          entries[k].shutdown := true;
        }
      }
    }
  }

  lemma NoMembersYet(conns: seq<nat>)
    ensures Members(conns[|conns|..]) == {}
  {
  }

  lemma MembersStep(conns: seq<nat>, k: nat)
    requires k < |conns|
    ensures Members(conns[k..]) == Members(conns[k + 1..]) + {conns[k]}
    ensures IsLast(conns, k) <==> conns[k] !in Members(conns[k + 1..])
  {
    assert conns[k..] == [conns[k]] + conns[k + 1..];
  }

  /** What a job says of its entry; a Quit command is recognised by the first 30 characters of the query. */
  ghost predicate Describes(e: GeneralLogEntry, j: Job)
  {
    && j.Query? && j.conn == e.threadId && j.text == e.query && j.rows == 0 && j.micros == 0
    && (j.quit <==> |e.query| >= 30 && e.query[..30] == "# administrator command: Quit;")
  }

  lemma JobDescribes(e: GeneralLogEntry)
    ensures Describes(e, PlainJob(e))
  {
    assert |"# administrator command: Quit;"| == 30;
  }

  lemma AllDescribed(entries: seq<GeneralLogEntry>, stream: seq<Job>)
    requires |stream| == |entries|
    requires forall i :: 0 <= i < |stream| ==>
      stream[i].Query? && stream[i] == PlainJob(entries[i]).(shutdown := stream[i].shutdown)
    ensures forall i :: 0 <= i < |stream| ==> Describes(entries[i], stream[i])
  {
    hide GeneralLogEntry.IsQuit;
    forall i | 0 <= i < |stream|
      ensures Describes(entries[i], stream[i])
    {
      JobDescribes(entries[i]);
    }
  }

  /** Marked by flag and popped, the entries are the plain stream with shutdown on the last of each connection. */
  method PopMarked(q: GeneralLogQueryEntries) returns (stream: seq<Job>)
    requires q.Valid() && q.pos == 0 && forall e :: e in q.entries ==> !e.shutdown
    modifies q, q.entries
    ensures stream == WithMarks(PlainStream(q.entries)) && q.entries == old(q.entries)
    ensures |stream| == |q.entries| && forall i :: 0 <= i < |stream| ==> Describes(q.entries[i], stream[i])
    ensures Marked(stream)
  {
    hide IsLast, Marked, Conns, Describes, GeneralLogEntry.IsQuit;
    WithMarksIsMarked(PlainStream(q.entries));
    q.SetShutdownOnLastQueryOfConn();
    stream := [];
    ghost var entries := q.entries;
    while true
      invariant q.Valid() && q.entries == entries && |stream| == q.pos
      invariant forall i :: 0 <= i < |entries| ==> (entries[i].shutdown <==> IsLast(Conns(PlainStream(entries)), i))
      invariant forall i :: 0 <= i < |stream| ==>
                  stream[i] == PlainJob(entries[i]).(shutdown := IsLast(Conns(PlainStream(entries)), i))
      decreases |q.entries| - q.pos
    {
      var entry := q.PopEntry();
      if entry.None? {
        break;
      }
      stream := stream + [entry.value.Job()];
    }
    AllDescribed(entries, stream);
  }
}
