/** What the error count of the report means when the workers run MySQL sessions. */
module SessionErrors {
  import opened Seqs
  import opened Jobs
  import opened Reports
  import opened Contributions
  import opened Workers
  import opened Consistency
  import opened Totals
  import opened FinalReport
  import opened Session

  function ExhaustedIn(maxRetries: nat): seq<Event> -> bool { (added: seq<Event>) => Exhausted(maxRetries, added) }

  /** Each worker's log comes from a session: segments[h] are the events behind its actions, one by one. */
  ghost predicate OfSessions(maxRetries: nat, segments: seq<seq<seq<Event>>>, ws: seq<Worker>)
  {
    |segments| == |ws| && forall h :: 0 <= h < |ws| ==> Explained(maxRetries, segments[h], ws[h].popped, ws[h].log)
  }

  /** An action counts as an error exactly if all attempts behind it failed. */
  lemma ErrorPart(maxRetries: nat, r: Plugins, added: seq<Event>, j: Job, a: Action)
    requires r.simple && Explains(maxRetries, added, j, a)
    ensures Part(Errors, r)(a) == Indicator(ExhaustedIn(maxRetries))(added)
  {
    hide HowMany, Attempts, AllFailed, RetriesReconnect, LastReply, IsReconnect;
    if j.Finish? {
      NoQueries(added);
    } else if j.quit {
      ReconnectIsQuiet(maxRetries, added);
    }
  }

  lemma {:induction false} LogErrors(maxRetries: nat, r: Plugins, segments: seq<seq<Event>>, jobs: seq<Job>,
                                     log: seq<Action>)
    requires r.simple && Explained(maxRetries, segments, jobs, log)
    ensures Sum(Part(Errors, r), log) == |Filter(ExhaustedIn(maxRetries), segments)|
  {
    hide Explains, Part, ExhaustedIn, Filter;
    forall i | 0 <= i < |log|
      ensures Part(Errors, r)(log[i]) == Indicator(ExhaustedIn(maxRetries))(segments[i])
    {
      ErrorPart(maxRetries, r, segments[i], jobs[i], log[i]);
    }
    SumMatch(Part(Errors, r), log, Indicator(ExhaustedIn(maxRetries)), segments);
    SumCounts(ExhaustedIn(maxRetries), segments);
  }

  lemma {:induction false} CrewErrors(maxRetries: nat, r: Plugins, segments: seq<seq<seq<Event>>>, ws: seq<Worker>)
    requires r.simple && OfSessions(maxRetries, segments, ws)
    ensures Sum(Part(Errors, r), Actions(ws)) == |Filter(ExhaustedIn(maxRetries), Flatten(segments))|
  {
    hide Explained, Part, ExhaustedIn;
    if ws != [] {
      var n := |ws| - 1;
      CrewErrors(maxRetries, r, segments[..n], ws[..n]);
      LogErrors(maxRetries, r, segments[n], ws[n].popped, ws[n].log);
      SumAppend(Part(Errors, r), Actions(ws[..n]), ws[n].log);
      FilterAppend(ExhaustedIn(maxRetries), Flatten(segments[..n]), segments[n]);
    }
  }

  /**
    In a finished replay with MySQL sessions the number of errors reported is the number of executed queries all of
    whose attempts failed.
   */
  lemma {:induction false} ErrorsAreExhausted(client: Client, r: Plugins, stream: seq<Job>, crew: Crew, maxRetries: nat,
                           segments: seq<seq<seq<Event>>>)
    requires Accounted(client, r, stream, crew) && r.simple && OfSessions(maxRetries, segments, crew.workers)
    ensures Get(crew.counters, Errors) == |Filter(ExhaustedIn(maxRetries), Flatten(segments))|
  {
    hide ReportOf, SimpleOutcomes, FullOutcomes, JobsOf, OfSessions, Actions, Contribution, Reported, Get;
    CrewErrors(maxRetries, r, segments, crew.workers);
    SumFiltered(Part(Errors, r), Totals.IsExecution(), Actions(crew.workers));
  }
}
