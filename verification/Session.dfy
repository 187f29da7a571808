/**
  The MySQL client thread as a session state machine. The server is arbitrary: every connect, query and sleep may
  turn out either way. The session-init query is empty.
 */
module Session {
  import opened Seqs
  import opened Jobs
  import opened Reports
  import opened Workers

  /**
    What the client does: a connect that succeeds or is refused, a close, a query. A query has a return code and, if
    that is zero, a number of warnings and one entry per result set: its rows, or nothing if it could not be stored.
   */
  datatype Event = Opened | Refused | Closed | Queried(code: int, warnings: nat, results: seq<Option<nat>>)

  predicate IsOpen(history: seq<Event>)
  {
    if history == [] then false
    else
      match history[|history| - 1]
      case Opened => true
      case Closed => false
      case _ => IsOpen(history[..|history| - 1])
  }

  /** Successful connects and closes strictly alternate, beginning with a connect. */
  predicate Alternates(history: seq<Event>)
  {
    if history == [] then true
    else
      var before := history[..|history| - 1];
      && Alternates(before)
      && (history[|history| - 1].Opened? ==> !IsOpen(before))
      && (history[|history| - 1].Closed? ==> IsOpen(before))
  }

  // ---------- Counting events ----------

  function IsOpened(): Event -> bool { (e: Event) => e.Opened? }

  function IsRefused(): Event -> bool { (e: Event) => e.Refused? }

  function IsClosed(): Event -> bool { (e: Event) => e.Closed? }

  function IsQuery(): Event -> bool { (e: Event) => e.Queried? }

  function HowMany(p: Event -> bool, history: seq<Event>): nat { |Filter(p, history)| }

  lemma CountPush(p: Event -> bool, history: seq<Event>, e: Event)
    ensures HowMany(p, history + [e]) == HowMany(p, history) + (if p(e) then 1 else 0)
  {
    FilterPush(p, history, e);
  }

  lemma CountAppend(p: Event -> bool, a: seq<Event>, b: seq<Event>)
    ensures HowMany(p, a + b) == HowMany(p, a) + HowMany(p, b)
  {
    FilterAppend(p, a, b);
  }

  /** With alternating connects and closes the counts differ by the open connection, if there is one. */
  lemma {:induction false} AlternatingBalance(history: seq<Event>)
    requires Alternates(history)
    ensures HowMany(IsOpened(), history) == HowMany(IsClosed(), history) + (if IsOpen(history) then 1 else 0)
  {
    if history != [] {
      var before, e := history[..|history| - 1], history[|history| - 1];
      AlternatingBalance(before);
      CountPush(IsOpened(), before, e);
      CountPush(IsClosed(), before, e);
      assert history == before + [e];
    }
  }

  lemma {:induction false} OneMoreEvent(history: seq<Event>, e: Event)
    ensures IsOpen(history + [e]) <==> (e.Opened? || (!e.Closed? && IsOpen(history)))
    ensures Alternates(history + [e]) <==>
            Alternates(history) && (e.Opened? ==> !IsOpen(history)) && (e.Closed? ==> IsOpen(history))
  {
    assert (history + [e])[..|history|] == history;
  }

  // ---------- Connecting ----------

  const UINT_RANGE: nat := 0x1_0000_0000

  /** max_retries + 1 in unsigned arithmetic. */
  function Attempts(maxRetries: nat): nat { (maxRetries + 1) % UINT_RANGE }

  /** No attempt at all for the largest value of the option, and only for that. */
  lemma NoAttemptsIff(maxRetries: nat)
    requires maxRetries <= 0xFFFF_FFFF
    ensures Attempts(maxRetries) == 0 <==> maxRetries == 0xFFFF_FFFF
    ensures Attempts(maxRetries) != 0 ==> Attempts(maxRetries) == maxRetries + 1
  {
  }

  function Refusals(n: nat): seq<Event> { seq(n, _ => Refused) }

  /** One call of connect: some refusals, then a success or not; at least one try, at most maxRetries beyond that. */
  predicate IsConnect(maxRetries: nat, added: seq<Event>, ok: bool)
  {
    var tries := |added|;
    && 1 <= tries && (tries == 1 || tries <= maxRetries)
    && added == if ok then Refusals(tries - 1) + [Opened] else Refusals(tries)
  }

  // ---------- Querying ----------

  /** What a query leaves in its QueryResult. */
  datatype Reply = Reply(error: int, warnings: nat, rows: nat)

  /** The rows of the last result set that could be stored. */
  function RowsIn(results: seq<Option<nat>>): nat
  {
    if results == [] then 0
    else if results[|results| - 1].Some? then results[|results| - 1].value
    else RowsIn(results[..|results| - 1])
  }

  /** rows are those of the last result set that could be stored, zero if none could. */
  ghost predicate LastStored(results: seq<Option<nat>>, rows: nat)
  {
    && (forall i :: 0 <= i < |results| && results[i].Some? && (forall m :: i < m < |results| ==> results[m].None?)
                    ==> rows == results[i].value)
    && ((forall i :: 0 <= i < |results| ==> results[i].None?) ==> rows == 0)
  }

  lemma {:induction false} RowsAreLastStored(results: seq<Option<nat>>)
    ensures LastStored(results, RowsIn(results))
  {
    if results != [] && results[|results| - 1].None? {
      RowsAreLastStored(results[..|results| - 1]);
      hide RowsIn;
      StoredBefore(results, RowsIn(results[..|results| - 1]));
    }
  }

  lemma StoredBefore(results: seq<Option<nat>>, rows: nat)
    requires results != [] && results[|results| - 1].None? && LastStored(results[..|results| - 1], rows)
    ensures LastStored(results, rows)
  {
    var init := results[..|results| - 1];
    forall i | 0 <= i < |results| && results[i].Some? && (forall m :: i < m < |results| ==> results[m].None?)
      ensures rows == results[i].value
    {
      assert init[i] == results[i];
      assert forall m :: i < m < |init| ==> init[m] == results[m];
    }
    if forall i :: 0 <= i < |results| ==> results[i].None? {
      assert forall i :: 0 <= i < |init| ==> init[i] == results[i];
    }
  }

  function ReplyTo(e: Event): Reply
    requires e.Queried?
  {
    if e.code != 0 then Reply(e.code, 0, 0) else Reply(0, e.warnings, RowsIn(e.results))
  }

  /** The reply to the last query; all zero if there was none. */
  function LastReply(history: seq<Event>): Reply
  {
    if history == [] then Reply(0, 0, 0)
    else if history[|history| - 1].Queried? then ReplyTo(history[|history| - 1])
    else LastReply(history[..|history| - 1])
  }

  predicate Failed(e: Event) { e.Queried? && e.code != 0 }

  predicate Tries(e: Event) { e.Opened? || e.Refused? }

  /** At i a connect is tried, behind a close if need be. */
  predicate ConnectFollows(history: seq<Event>, i: nat)
  {
    i < |history| && (Tries(history[i]) || (history[i].Closed? && i + 1 < |history| && Tries(history[i + 1])))
  }

  /** Every failed query is followed by a new connect. */
  ghost predicate RetriesReconnect(history: seq<Event>)
  {
    forall i :: 0 <= i < |history| && Failed(history[i]) ==> ConnectFollows(history, i + 1)
  }

  predicate AllFailed(history: seq<Event>)
  {
    forall i :: 0 <= i < |history| && history[i].Queried? ==> Failed(history[i])
  }

  /** All the attempts there are have been made, in vain. */
  predicate Exhausted(maxRetries: nat, added: seq<Event>)
  {
    Attempts(maxRetries) > 0 && HowMany(IsQuery(), added) == Attempts(maxRetries) && AllFailed(added)
  }

  /**
    One call of execute_query: as many queries as it takes to succeed or to use up the attempts, a new connect after
    each failure, and the reply to the last query. An error is reported exactly when all attempts failed.
   */
  ghost predicate IsExecution(maxRetries: nat, added: seq<Event>, reply: Reply)
  {
    && HowMany(IsQuery(), added) <= Attempts(maxRetries)
    && (Attempts(maxRetries) > 0 ==> HowMany(IsQuery(), added) > 0)
    && reply == LastReply(added)
    && EndsWithSuccess(added)
    && RetriesReconnect(added)
    && (reply.error != 0 <==> Exhausted(maxRetries, added))
  }

  /** A query that succeeds is the end: nothing comes after it. */
  ghost predicate EndsWithSuccess(added: seq<Event>)
  {
    forall i :: 0 <= i < |added| - 1 && added[i].Queried? ==> Failed(added[i])
  }

  /** It begins with a connect exactly if there is no connection. */
  ghost predicate BeginsConnected(open: bool, added: seq<Event>)
  {
    if open then added == [] || added[0].Queried? else added != [] && Tries(added[0])
  }

  /** The reply is that to the query at i, after which no further one was sent. */
  ghost predicate RepliesTo(added: seq<Event>, i: nat, reply: Reply)
  {
    && i < |added| && added[i].Queried? && (forall m :: i < m < |added| ==> !added[m].Queried?)
    && reply.error == added[i].code
    && (if added[i].code != 0 then reply.warnings == reply.rows == 0
        else reply.warnings == added[i].warnings && LastStored(added[i].results, reply.rows))
  }

  /** The reply in terms of the events: that to the last query, or all zero without one. */
  lemma {:induction false} LastReplyMeans(added: seq<Event>)
    ensures if exists i :: 0 <= i < |added| && added[i].Queried?
            then exists i: nat :: RepliesTo(added, i, LastReply(added))
            else LastReply(added) == Reply(0, 0, 0)
  {
    if added != [] {
      var n := |added| - 1;
      if added[n].Queried? {
        RowsAreLastStored(added[n].results);
        assert RepliesTo(added, n, LastReply(added));
      } else {
        LastReplyMeans(added[..n]);
        if i: nat :| RepliesTo(added[..n], i, LastReply(added[..n])) {
          RepliesBefore(added, i, LastReply(added));
        }
      }
    }
  }

  lemma RepliesBefore(added: seq<Event>, i: nat, reply: Reply)
    requires added != [] && !added[|added| - 1].Queried? && RepliesTo(added[..|added| - 1], i, reply)
    ensures RepliesTo(added, i, reply)
  {
    assert forall m :: 0 <= m < |added| - 1 ==> added[..|added| - 1][m] == added[m];
  }

  /** A close, if need be, and a connect, whether it succeeds or not. */
  predicate IsReconnect(maxRetries: nat, added: seq<Event>)
  {
    var connect := if added != [] && added[0].Closed? then added[1..] else added;
    IsConnect(maxRetries, connect, true) || IsConnect(maxRetries, connect, false)
  }

  /**
    The events behind what a worker did with an entry: none for FinishEntry, a reconnect for a Quit, an execution
    for a query, whose outcome is the reply.
   */
  ghost predicate Explains(maxRetries: nat, added: seq<Event>, j: Job, a: Action)
  {
    match j
    case Finish => a == Skipped && added == []
    case Query(_, quit, _, _, _, _) =>
      if quit then a == Reconnected && IsReconnect(maxRetries, added)
      else
        && a.Ran? && a.job == j && IsExecution(maxRetries, added, LastReply(added))
        && a.outcome.error == LastReply(added).error && a.outcome.rows == LastReply(added).rows
  }

  /** A log whose actions are explained by the events of their segments of the history, one by one. */
  ghost predicate Explained(maxRetries: nat, segments: seq<seq<Event>>, jobs: seq<Job>, log: seq<Action>)
  {
    |segments| == |jobs| == |log| && forall i :: 0 <= i < |jobs| ==> Explains(maxRetries, segments[i], jobs[i], log[i])
  }

  /** Such a log is one a worker with a server client may have: the session does what the worker's steps allow. */
  lemma SessionIsWorker(cfg: Config, maxRetries: nat, segments: seq<seq<Event>>, jobs: seq<Job>, log: seq<Action>)
    requires cfg.client.Server? && Explained(maxRetries, segments, jobs, log)
    ensures Logged(cfg, log, jobs)
  {
    hide IsExecution, IsReconnect;
    forall i | 0 <= i < |jobs|
      ensures LoggedAs(cfg, jobs[i], log[i])
    {
      assert Explains(maxRetries, segments[i], jobs[i], log[i]);
    }
  }

  function IsSent(): Job -> bool { (j: Job) => j.Query? && !j.quit }

  lemma ReconnectIsQuiet(maxRetries: nat, added: seq<Event>)
    requires IsReconnect(maxRetries, added)
    ensures HowMany(IsQuery(), added) == 0
  {
    hide IsConnect, HowMany;
    var connect := if added != [] && added[0].Closed? then added[1..] else added;
    ConnectIsQuiet(maxRetries, connect, IsConnect(maxRetries, connect, true));
    assert connect != added ==> added == [added[0]] + connect;
    NoQueries(added);
  }

  lemma OneMoreTimes(n: nat, attempts: nat)
    ensures (n + 1) * attempts == n * attempts + attempts
  {
  }

  /** A session sends at most Attempts queries for each entry it executes. */
  lemma {:induction false} QueriesBounded(maxRetries: nat, segments: seq<seq<Event>>, jobs: seq<Job>, log: seq<Action>)
    requires Explained(maxRetries, segments, jobs, log)
    ensures HowMany(IsQuery(), Flatten(segments)) <= |Filter(IsSent(), jobs)| * Attempts(maxRetries)
  {
    hide IsReconnect, HowMany, Attempts, LastReply, Exhausted, RetriesReconnect;
    if jobs == [] {
      NoQueries([]);
    } else {
      var n := |jobs| - 1;
      QueriesBounded(maxRetries, segments[..n], jobs[..n], log[..n]);
      assert Explains(maxRetries, segments[n], jobs[n], log[n]);
      CountAppend(IsQuery(), Flatten(segments[..n]), segments[n]);
      OneMoreTimes(|Filter(IsSent(), jobs[..n])|, Attempts(maxRetries));
      if jobs[n].Finish? {
        NoQueries(segments[n]);
      } else if jobs[n].quit {
        ReconnectIsQuiet(maxRetries, segments[n]);
      }
    }
  }

  /** The state of the retry loop: all queries so far failed, and after each a connect has been tried. */
  ghost predicate Retrying(added: seq<Event>, i: nat)
  {
    && HowMany(IsQuery(), added) == i && AllFailed(added) && RetriesReconnect(added)
    && (if i == 0 then LastReply(added) == Reply(0, 0, 0) else LastReply(added).error != 0)
  }

  lemma {:induction false} LastReplyOf(a: seq<Event>, b: seq<Event>)
    ensures LastReply(a + b) == if HowMany(IsQuery(), b) == 0 then LastReply(a) else LastReply(b)
  {
    if b == [] {
      assert a + b == a;
    } else {
      var init, e := b[..|b| - 1], b[|b| - 1];
      LastReplyOf(a, init);
      CountPush(IsQuery(), init, e);
      assert b == init + [e] && (a + b)[..|a + b| - 1] == a + init;
    }
  }

  lemma NoQueries(a: seq<Event>)
    requires forall i :: 0 <= i < |a| ==> !a[i].Queried?
    ensures HowMany(IsQuery(), a) == 0
  {
    FilterNone(IsQuery(), a);
  }

  /** A connect adds no query. */
  lemma ConnectIsQuiet(maxRetries: nat, added: seq<Event>, ok: bool)
    requires IsConnect(maxRetries, added, ok)
    ensures added != [] && forall i :: 0 <= i < |added| ==> Tries(added[i])
    ensures HowMany(IsQuery(), added) == 0
  {
    NoQueries(added);
  }

  /** Connecting at the start changes nothing about the retries. */
  lemma RetryStart(added: seq<Event>)
    requires HowMany(IsQuery(), added) == 0 && forall i :: 0 <= i < |added| ==> Tries(added[i])
    ensures Retrying(added, 0)
  {
    LastReplyOf([], added);
    assert [] + added == added;
  }

  /** A failed query, and what follows it: a close if need be, and a connect. */
  predicate IsFailure(query: Event, closing: seq<Event>, connect: seq<Event>)
  {
    && Failed(query) && (closing == [] || closing == [Closed])
    && connect != [] && forall k :: 0 <= k < |connect| ==> Tries(connect[k])
  }

  lemma FailureReconnects(added: seq<Event>, query: Event, closing: seq<Event>, connect: seq<Event>)
    requires RetriesReconnect(added) && IsFailure(query, closing, connect)
    ensures RetriesReconnect(added + [query] + closing + connect)
  {
    var all := added + [query] + closing + connect;
    forall k | 0 <= k < |all| && Failed(all[k])
      ensures ConnectFollows(all, k + 1)
    {
      if k < |added| {
        assert all[k] == added[k] && ConnectFollows(added, k + 1);
        assert all[k + 1] == added[k + 1];
        assert added[k + 1].Closed? ==> all[k + 2] == added[k + 2];
      } else {
        assert k == |added|;
      }
    }
  }

  lemma FailureAllFailed(added: seq<Event>, query: Event, closing: seq<Event>, connect: seq<Event>)
    requires AllFailed(added) && IsFailure(query, closing, connect)
    ensures AllFailed(added + [query] + closing + connect)
  {
    var all := added + [query] + closing + connect;
    forall k | 0 <= k < |all| && all[k].Queried?
      ensures Failed(all[k])
    {
      assert k < |added| ==> all[k] == added[k];
    }
  }

  lemma FailureCounts(added: seq<Event>, query: Event, closing: seq<Event>, connect: seq<Event>)
    requires IsFailure(query, closing, connect)
    ensures HowMany(IsQuery(), connect) == 0
    ensures HowMany(IsQuery(), added + [query] + closing + connect) == HowMany(IsQuery(), added) + 1
    ensures LastReply(added + [query] + closing + connect) == ReplyTo(query)
  {
    var asked := added + [query];
    CountPush(IsQuery(), added, query);
    NoQueries(closing);
    NoQueries(connect);
    CountAppend(IsQuery(), asked, closing);
    CountAppend(IsQuery(), asked + closing, connect);
    assert asked[|asked| - 1] == query;
    LastReplyOf(asked, closing);
    LastReplyOf(asked + closing, connect);
  }

  lemma QueryFails(added: seq<Event>, i: nat, query: Event, closing: seq<Event>, connect: seq<Event>)
    requires Retrying(added, i) && IsFailure(query, closing, connect)
    ensures Retrying(added + [query] + closing + connect, i + 1)
    ensures LastReply(added + [query] + closing + connect) == ReplyTo(query)
  {
    hide IsFailure, RetriesReconnect, AllFailed, HowMany, LastReply;
    FailureCounts(added, query, closing, connect);
    FailureReconnects(added, query, closing, connect);
    FailureAllFailed(added, query, closing, connect);
    FailureIsFailed(query, closing, connect);
  }

  lemma FailureIsFailed(query: Event, closing: seq<Event>, connect: seq<Event>)
    requires IsFailure(query, closing, connect)
    ensures Failed(query)
  {
  }

  lemma QuerySucceeds(maxRetries: nat, added: seq<Event>, i: nat, query: Event)
    requires Retrying(added, i) && query.Queried? && query.code == 0 && i < Attempts(maxRetries)
    ensures IsExecution(maxRetries, added + [query], ReplyTo(query))
  {
    var all := added + [query];
    CountPush(IsQuery(), added, query);
    assert all[|all| - 1] == query;
    hide HowMany;
    forall k | 0 <= k < |all| && Failed(all[k])
      ensures ConnectFollows(all, k + 1)
    {
      assert all[k] == added[k] && ConnectFollows(added, k + 1);
    }
  }

  lemma AttemptsUsedUp(maxRetries: nat, added: seq<Event>)
    requires Retrying(added, Attempts(maxRetries))
    ensures IsExecution(maxRetries, added, LastReply(added))
  {
  }

  // ---------- The thread ----------

  class MySQLDBThread {
    const maxRetries: nat
    var haveConnected: bool
    var numConnectErrors: nat
    ghost var history: seq<Event>

    /** The flag says whether the connection is open; the refused connects are counted. */
    ghost predicate Valid()
      reads this
    {
      && Alternates(history) && (haveConnected <==> IsOpen(history))
      && numConnectErrors == HowMany(IsRefused(), history)
    }

    constructor (maxRetries: nat)
      requires maxRetries < UINT_RANGE
      ensures this.maxRetries == maxRetries && history == [] && numConnectErrors == 0 && !haveConnected && Valid()
    {
      this.maxRetries, this.haveConnected, this.numConnectErrors, this.history := maxRetries, false, 0, [];
    }

    ghost method Note(e: Event)
      requires Alternates(history)
      requires (e.Opened? ==> !IsOpen(history)) && (e.Closed? ==> IsOpen(history))
      modifies this`history
      ensures history == old(history) + [e] && Alternates(history)
      ensures IsOpen(history) <==> (e.Opened? || (!e.Closed? && IsOpen(old(history))))
      ensures HowMany(IsRefused(), history) == HowMany(IsRefused(), old(history)) + (if e.Refused? then 1 else 0)
    {
      OneMoreEvent(history, e);
      CountPush(IsRefused(), history, e);
      history := history + [e];
    }

    method Connect() returns (ok: bool)
      requires Valid() && !haveConnected
      modifies this`haveConnected, this`numConnectErrors, this`history
      ensures Valid() && ok == haveConnected
      ensures old(history) <= history && IsConnect(maxRetries, history[|old(history)|..], ok)
    {
      hide Alternates, IsOpen, HowMany;
      var numTries := 0;
      var connected := false;
      while true
        invariant !connected && !IsOpen(history) && Alternates(history)
        invariant numTries == 0 || numTries < maxRetries
        invariant history == old(history) + Refusals(numTries) && haveConnected == old(haveConnected)
        invariant numConnectErrors == HowMany(IsRefused(), history)
        decreases maxRetries + 1 - numTries
      {
        numTries := numTries + 1;
        var tooManyConnections := false;
        var accepted: bool := *;
        connected := accepted;
        if !connected {
          numConnectErrors := numConnectErrors + 1;
          Note(Refused);
          assert Refusals(numTries) == Refusals(numTries - 1) + [Refused];
          var code: int := *;
          if code == 1203 {
            tooManyConnections := true;
          }
        }
        var sleepFailed: bool := *;
        if !(tooManyConnections && numTries < maxRetries && sleepFailed) {
          break;
        }
      }
      haveConnected := connected;
      if connected {
        Note(Opened);
        assert history[|old(history)|..] == Refusals(numTries - 1) + [Opened];
      } else {
        assert history[|old(history)|..] == Refusals(numTries);
      }
      return connected;
    }

    method Disconnect()
      requires Valid()
      modifies this`haveConnected, this`history
      ensures Valid() && !haveConnected
      ensures history == old(history) + (if old(haveConnected) then [Closed] else [])
    {
      hide Alternates, IsOpen, HowMany;
      if haveConnected {
        Note(Closed);
      }
      assert old(history) + [] == old(history);
      haveConnected := false;
    }

    /** Closes the connection if there is one, and connects. */
    method Reconnect() returns (ghost closing: seq<Event>, ghost connect: seq<Event>)
      requires Valid()
      modifies this`haveConnected, this`numConnectErrors, this`history
      ensures Valid() && history == old(history) + closing + connect
      ensures closing == (if old(haveConnected) then [Closed] else []) && IsConnect(maxRetries, connect, haveConnected)
    {
      hide Alternates, IsOpen, HowMany, IsConnect;
      closing := if haveConnected then [Closed] else [];
      Disconnect();
      ghost var closed := history;
      var _ := Connect();
      connect := history[|closed|..];
    }

    /** Queries until one succeeds or the attempts are used up, reconnecting after each failure. */
    method ExecuteQuery() returns (reply: Reply)
      requires Valid() && maxRetries < UINT_RANGE
      modifies this`haveConnected, this`numConnectErrors, this`history
      ensures Valid()
      ensures old(history) <= history && IsExecution(maxRetries, history[|old(history)|..], reply)
      ensures BeginsConnected(old(haveConnected), history[|old(history)|..])
    {
      hide Alternates, IsOpen, HowMany, Retrying, IsExecution, IsConnect, Attempts, LastReply, RowsIn, BeginsConnected;
      ghost var before, added: seq<Event> := history, [];
      reply := Reply(0, 0, 0);
      if !haveConnected {
        var ok := Connect();
        added := history[|before|..];
        ConnectIsQuiet(maxRetries, added, ok);
      } else {
        NoQueries(added);
      }
      RetryStart(added);
      StartReply(added);
      ghost var open := haveConnected && added == [];
      BeginsSo(open, added);
      var i := 0;
      while i < Attempts(maxRetries)
        invariant i <= Attempts(maxRetries) && Valid() && before == old(history)
        invariant history == before + added && Retrying(added, i)
        invariant reply == LastReply(added) && reply.warnings == reply.rows == 0
        invariant open == old(haveConnected) && BeginsConnected(open, added)
      {
        var code: int := *;
        reply := Reply(code, reply.warnings, reply.rows);
        if code != 0 {
          ghost var query := Queried(code, 0, []);
          Note(query);
          ghost var closing, connect := Reconnect();
          ConnectIsQuiet(maxRetries, connect, haveConnected);
          QueryFails(added, i, query, closing, connect);
          Reassociate(before, added, [query], closing, connect);
          StillBegins(open, added, query, closing, connect);
          added := added + [query] + closing + connect;
        } else {
          var warnings: nat := *;
          var rows, results := ReadResults();
          ghost var query := Queried(0, warnings, results);
          Note(query);
          reply := Reply(0, warnings, rows);
          QuerySucceeds(maxRetries, added, i, query);
          Reassociate(before, added, [query], [], []);
          StillBegins(open, added, query, [], []);
          return;
        }
        i := i + 1;
      }
      AttemptsUsedUp(maxRetries, added);
      assert history[|before|..] == added;
    }

    /**
      Runs the thread over its whole plan, for any server: every entry is dealt with as the worker's steps allow,
      connects and closes alternate, and the session ends closed.
     */
    method Run(plan: seq<Job>) returns (log: seq<Action>, ghost segments: seq<seq<Event>>, ghost closing: seq<Event>)
      requires maxRetries < UINT_RANGE && Valid() && history == [] && IsPlan(plan)
      modifies this
      ensures Explained(maxRetries, segments, plan, log)
      ensures history == Flatten(segments) + closing && (closing == [] || closing == [Closed])
      ensures Valid() && !haveConnected && HowMany(IsOpened(), history) == HowMany(IsClosed(), history)
    {
      hide Alternates, IsOpen, HowMany, Explains, IsExecution, IsConnect;
      haveConnected := false;
      log, segments := [], [];
      NothingYet();
      while true
        invariant |log| < |plan| && Valid() && Explained(maxRetries, segments, plan[..|log|], log)
        invariant history == Flatten(segments)
        decreases |plan| - |log|
      {
        var job := plan[|log|];
        var action;
        ghost var before := history;
        action := Handle(job);
        ghost var added := history[|before|..];
        OneMoreExplained(maxRetries, segments, plan, log, added, action);
        log, segments := log + [action], segments + [added];
        if Shuts(job) {
          break;
        }
      }
      closing := if haveConnected then [Closed] else [];
      Disconnect();
      AlternatingBalance(history);
    }

    /** The body of the loop: a Quit entry reconnects, others are executed, which for FinishEntry does nothing. */
    method Handle(job: Job) returns (action: Action)
      requires maxRetries < UINT_RANGE && Valid()
      modifies this
      ensures Valid() && old(history) <= history && Explains(maxRetries, history[|old(history)|..], job, action)
    {
      hide Alternates, IsOpen, HowMany, IsExecution, IsConnect;
      ghost var before := history;
      if job.Query? && job.quit {
        ghost var closing, connect := Reconnect();
        action := Reconnected;
        ConnectIsQuiet(maxRetries, connect, haveConnected);
        assert history[|before|..] == closing + connect && (closing + connect)[|closing|..] == connect;
      } else if job.Query? {
        var reply := ExecuteQuery();
        ReplyIsLast(maxRetries, history[|before|..], reply);
        var micros: nat := *;
        action := Ran(job, Outcome(reply.error, reply.rows, micros));
      } else {
        action := Skipped;
      }
    }

    /** The connection test of the options: the thread is run on nothing but a FinishEntry. */
    method TestConnect() returns (passed: bool)
      requires maxRetries < UINT_RANGE && Valid() && history == []
      modifies this
      ensures passed && history == []
    {
      ghost var segments, closing;
      var log;
      log, segments, closing := Run([Finish]);
      OnlyFinish(maxRetries, segments, log, closing);
      return numConnectErrors == 0;
    }

    /** Reads the result sets of a successful query, one at least; the rows of the last one stored remain. */
    method ReadResults() returns (rows: nat, results: seq<Option<nat>>)
      ensures results != [] && LastStored(results, rows)
      ensures rows == RowsIn(results)
    {
      rows, results := 0, [];
      var remaining: nat := *;
      while true
        invariant rows == RowsIn(results)
        decreases remaining
      {
        var stored: Option<nat> := *;
        if stored.Some? {
          rows := stored.value;
        }
        assert (results + [stored])[..|results|] == results;
        results := results + [stored];
        if remaining == 0 {
          break;
        }
        remaining := remaining - 1;
      }
      RowsAreLastStored(results);
    }
  }

  lemma Reassociate(before: seq<Event>, added: seq<Event>, a: seq<Event>, b: seq<Event>, c: seq<Event>)
    ensures before + added + a + b + c == before + (added + a + b + c)
    ensures (before + added + a)[|before|..] == added + a
  {
  }

  lemma BeginsSo(open: bool, added: seq<Event>)
    requires if open then added == [] else added != [] && Tries(added[0])
    ensures BeginsConnected(open, added)
  {
  }

  lemma StillBegins(open: bool, added: seq<Event>, query: Event, closing: seq<Event>, connect: seq<Event>)
    requires BeginsConnected(open, added) && query.Queried?
    ensures BeginsConnected(open, added + [query] + closing + connect) && BeginsConnected(open, added + [query])
  {
  }

  lemma StartReply(added: seq<Event>)
    requires Retrying(added, 0)
    ensures LastReply(added) == Reply(0, 0, 0)
  {
  }

  lemma NothingYet()
    ensures Flatten<Event>([]) == [] && Alternates([]) && !IsOpen([]) && HowMany(IsRefused(), []) == 0
  {
  }

  lemma ReplyIsLast(maxRetries: nat, added: seq<Event>, reply: Reply)
    requires IsExecution(maxRetries, added, reply)
    ensures reply == LastReply(added)
  {
  }

  lemma {:induction false} OneMoreExplained(maxRetries: nat, segments: seq<seq<Event>>, plan: seq<Job>,
                                            log: seq<Action>, added: seq<Event>, a: Action)
    requires |log| < |plan| && Explained(maxRetries, segments, plan[..|log|], log)
    requires Explains(maxRetries, added, plan[|log|], a)
    ensures Explained(maxRetries, segments + [added], plan[..|log| + 1], log + [a])
    ensures Flatten(segments + [added]) == Flatten(segments) + added
  {
    hide Explains;
    assert (segments + [added])[..|segments|] == segments;
  }

  lemma {:induction false} OnlyFinish(maxRetries: nat, segments: seq<seq<Event>>, log: seq<Action>, closing: seq<Event>)
    requires Explained(maxRetries, segments, [Finish], log) && (closing == [] || closing == [Closed])
    requires Alternates(Flatten(segments) + closing)
    ensures Flatten(segments) + closing == [] && HowMany(IsRefused(), []) == 0
  {
    assert Explains(maxRetries, segments[0], Finish, log[0]);
    assert segments == [[]] && segments[..0] == [];
    assert Flatten(segments) == [] && [] + closing == closing;
    assert [] + [Closed] == [Closed];
    OneMoreEvent([], Closed);
    assert closing != [Closed];
  }
}
