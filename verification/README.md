# Query Playback in Dafny

Query Playback reads a MySQL log, cuts it into records, repairs and sorts their start times, and replays them
against a server over worker threads with bounded queues, while report plugins count what happens. This project
models that path from the text of the log to the final report and proves that nothing is lost, reordered,
duplicated or miscounted on the way, under every interleaving of the threads.

The model has three layers.

* **Reading the log** is imperative, as in the source: classes and loops over lines, a pushed-back line, a map of
  latest times, a set of slice starts. Each method is proved equal to a function of the log, and the functions are
  characterised on their own (`Text`, `Segmentation`, `LogData`, `Ordering`, `QueryLog`, `QueryText`, `Marking`,
  `GeneralLog`, `Tokenize`, `RoundTrip`).
* **Dispatch and execution** are transition systems, because their steps interleave: the dispatcher, the workers'
  loop (`DBThread::run`), the bounded queues, the joins and the atomic report counters take one small step at a
  time (`Jobs`, `Workers`, `PerConnection`, `PerConnectionSafety`, `PerConnectionProgress`,
  `PerConnectionFairness`, `ThreadPool`, `MaxBehind`). The body of one report call and the MySQL session of one
  thread are imperative (`Reports`, `Session`).
* **Composition**: `ReportOrder` and `Consistency` say what a reader of the counters can rely on at any moment,
  `Contributions`, `Totals` and `FinalReport` what they hold in the end, `SessionErrors` what the error count means
  with MySQL sessions, and `ReadLog` and `Replay` join the layers: from the text of a log to the final report, with
  each connection's records handled in file order, over both dispatchers. `CrowdedLog` writes out a log that one
  thread per connection cannot replay.

Conventions. A popped entry is a `Job`; `FinishEntry` is `Finish`. A worker's `popped`, `log` and `ops` are the
histories of what it popped, did and counted. `Marked` streams carry shutdown on exactly the last entry of each
connection. A `Run` is any finite sequence of steps from the initial state.

Where the code and its comments or intent part:

* The comment on the thread limit (thread_per_connection.cc:60-63) admits that dispatch can get stuck with "10000"
  open connections. The code waits while more than 10000 threads run, so 10001 can be alive, and it gets stuck
  exactly when a connection starts while more than 10000 others are open:
  `PerConnectionProgress.FinishesIffConnectionsFit`; `CrowdedLog.NeverReplayed` gives the text of such a log.
* The connection test of the MySQL client (mysql_client.cc:167-174) can never fail: the thread runs only a
  `FinishEntry`, and nothing connects any more until a query is executed. `Session.MySQLDBThread.TestConnect`
  states this.
* `max_retries + 1` is computed in unsigned arithmetic; with the largest value of the option no query is sent and
  no error recorded (`Session.NoAttemptsIff`, `Session.MySQLDBThread.ExecuteQuery`).
* A text returned by `getQuery` that itself begins with `#`, or with `SET timestamp=` while those lines are
  removed, is not a fixed point of `getQuery`; all others are (`QueryText.QueryFixedPointIff`). `NotAlwaysFixed`
  shows a record with such a text.
* Marking by slice start is right exactly when a connection's last record shares its start with no record that is
  not a last one (`Marking.StartMarksCorrectIff`); segmentation guarantees it (`Marking.ReplayStartsDistinct`).

Verify with `dafny verify dfyconfig.toml`.

## Model

| member | source | states |
|---|---|---|
| Replay.ReplayPerConnection | percona_playback/query_log/query_log.cc:354-363 | for every log, option, queue depth, client, choice of plugins and interleaving, a finished thread-per-connection replay is accounted for: exactly the entries other than Quit commands were executed, and the simple report counts as many queries as the log has records less those with a line "# administrator command: Quit;", per connection too, and sums the rows and times those records log; every other counter is counted or summed off the outcomes, class by class; with the null client actual = expected rows and no errors or row differences |
| Replay.ReplayPool | percona_playback/thread_pool/thread_pool.cc:54-89 | the same from the thread pool, for any number of workers and any hash |
| Replay.FileOrderPerConnection | percona_playback/query_log/query_log.cc:194-197 | in every finished replay each thread has popped exactly the log's records of its connection, in file order, only the last of them shut down, and every connection of the log has its thread |
| Replay.FileOrderPool | percona_playback/thread_pool/thread_pool.cc:67-77 | in every finished pool replay a connection's records are handled in file order by the worker of its hash and by no other |
| Replay.FairReplayEnds | percona_playback/thread_per_connection/thread_per_connection.cc:41-114 | if no connection starts while more than 10000 others are open, every fairly scheduled infinite run reaches the end |
| Replay.CanReplayIff | percona_playback/thread_per_connection/thread_per_connection.cc:54-83 | a log can be replayed to its end with one thread per connection if and only if no connection starts while more than 10000 others are open |
| Replay.PoolReplaysAll | percona_playback/thread_pool/thread_pool.cc:64-89 | the pool replays every log: some run finishes, runs are bounded by the initial work, and none gets stuck before the end |
| ReadLog.ReadPerConnection | percona_playback/query_log/query_log.cc:119-215 | reading, marking and popping yields the records in replay order with shutdown on exactly the last of each connection; each job carries its record's connection, Quit line, rows and time, and the text made of its lines: one line, metadata left out, timestamp lines left out unless they are to be run; n_queries is the number of records |
| ReadLog.ReadForPool | percona_playback/query_log/query_log.h:108-118 | without marking, popping yields the same records unmarked, with the same contents |
| ReadLog.JobDescribes | percona_playback/query_log/query_log.h:108-118 | a job says of its record the connection, whether it has a Quit line, the rows, the time and the text |
| ReadLog.HandedOutDescribes | percona_playback/query_log/query_log.cc:221-233 | so every job of the stream describes its record, and these come in replay order |
| ReadLog.QueriesAtMostEntries | percona_playback/query_log/query_log.cc:174-186 | n_queries is at most n_log_entries |
| Replay.ReportOfLog | percona_playback/query_log/query_log.cc:221-284 | a simple report of the popped stream is a report of the log, whatever repair and sorting did to the order |
| ReadLog.DispatchedInFileOrder | percona_playback/query_log/query_log.cc:191-211 | each connection's entries are dispatched in file order, whether or not the log was repaired and sorted |
| ReadLog.MarkedShare | percona_playback/query_log/query_log.cc:365-372 | marking the stream marks exactly the last entry of each connection's share |
| CrowdedLog.NeverReplayed | percona_playback/thread_per_connection/thread_per_connection.cc:60-63 | for each n above 10001 a log text is given which, however it is read, no thread-per-connection run replays to its end |
| SessionErrors.ErrorsAreExhausted | percona_playback/mysql_client/mysql_client.cc:114-155 | with MySQL sessions behind the workers, the errors reported are the executed queries all of whose attempts failed |
| FinalReport.ReportPerConnection | percona_playback/simple_report/simple_report.cc:115-160 | after any finished run over any marked stream, for any client and any active plugins: the counters the entries determine are the counts and sums over the stream; the entries executed are exactly those other than Quit commands; and every single counter, errors, row differences, actual rows, times, quicker, slower and the statement classes included, is the sum of what the executions contribute to it |
| FinalReport.ReportPool | percona_playback/full_report/full_report.cc:83-150 | the same for the thread pool |
| FinalReport.AllCounters | percona_playback/simple_report/simple_report.cc:126-159 | at rest every counter is the sum of the contributions of the executions, and zero if its plugin is inactive |
| Contributions.ProgramContributes | percona_playback/simple_report/simple_report.cc:115-160 | the increments one execution makes to a counter of an active plugin add up to the contribution its entry and outcome call for, counter by counter; other counters get none |
| FinalReport.ExactMeansReport | percona_playback/full_report/full_report.cc:112-148 | if all sums over the actions are exact, the counters are the reports of the stream, statement classes included |
| FinalReport.SimpleByOutcome | percona_playback/simple_report/simple_report.cc:115-160 | errors, row differences, quicker and slower count the executions that failed, returned other rows than logged, or took less or no less than a logged time; actual rows and time sum the outcomes |
| FinalReport.FullByOutcome | percona_playback/full_report/full_report.cc:83-148 | faster and slower of a class count the executions of that class under or over their logged time |
| Totals.TotalsOfExecutions | percona_playback/simple_report/simple_report.cc:126-159 | at rest every counter, and the sum of the per-connection counters, is the sum over the executions |
| Totals.ScheduleIrrelevant | percona_playback/simple_report/simple_report.cc:126-159 | two crews that made the same executions, in any order, on any threads, end with the same totals |
| Totals.ExactPerConnection | percona_playback/thread_per_connection/thread_per_connection.cc:104-114 | the workers' shares divide up the stream: whatever the entries determine of the actions sums to its total over the stream |
| Totals.ExactPool | percona_playback/thread_pool/thread_pool.cc:64-89 | the same for the pool's shares, FinishEntry adding nothing |
| Totals.ExecutedExactly | percona_playback/db_thread.cc:44-58 | the entries executed are the stream's entries other than Quit commands, each exactly as often as it occurs |
| Consistency.ConsistentPerConnection | percona_playback/simple_report/simple_report.cc:126-159 | in every reachable state quicker + slower <= executed <= sum of the per-connection counts, and faster + slower <= total for each statement class |
| Consistency.ConsistentPool | percona_playback/full_report/full_report.cc:94-148 | the same in every reachable state of the pool |
| Consistency.ReplayConfigValid | percona_playback/db_thread.h:49-53 | with a queue depth of at least one the reports' increments are bounded, so the progress results apply to them |
| ReportOrder.PaidObeys | percona_playback/simple_report/simple_report.cc:126-159 | an increment that comes first covers all later ones at every point |
| ReportOrder.ProgramObeys | percona_playback/query_log/query_log.cc:275-283 | whichever plugins are active, at every point of one execution quicker + slower <= executed <= connection counts, and faster + slower <= count of the class |
| ReportOrder.ProgramInPlace | percona_playback/query_log/query_log.cc:274-283 | one execution makes its increments in a fixed order of the counters, the full report's all before the simple report's |
| ReportOrder.SimpleTimed | percona_playback/simple_report/simple_report.cc:145-159 | the time is compared once, after the execution has been counted |
| ReportOrder.SimpleExecuted | percona_playback/simple_report/simple_report.cc:126-145 | an execution is counted once, after its connection has been |
| ReportOrder.FullSpeed | percona_playback/full_report/full_report.cc:94-148 | a class is counted before its faster and slower executions, and other classes are left alone |
| Reports.ReportPlugins.QueryExecution | percona_playback/query_log/query_log.cc:274-283 | the simple and the full report, each if it is active, make exactly the increments of the report program, in order, the full report first |
| Reports.ReportPlugins.SimpleQueryExecution | percona_playback/simple_report/simple_report.cc:115-160 | the simple report's body makes exactly its increments, in order |
| Reports.ReportPlugins.FullQueryExecution | percona_playback/full_report/full_report.cc:83-150 | the full report's body makes exactly its increments, in order, for the class of the query (what a class is: Reports.ClassifyMeans) |
| Reports.ClassifyMeans | percona_playback/full_report/full_report.cc:111-148 | a query is of a class exactly if its keyword occurs in it at some position, letter by letter ignoring case, and no keyword tried before it does; of none exactly if no keyword occurs |
| Reports.ApplyAllAdds | percona_playback/simple_report/simple_report.cc:126-159 | after any increments each counter is the sum of those to it, and the per-connection map sums up its own |
| Reports.ApplyAdds | percona_playback/simple_report/simple_report.cc:132-143 | an increment changes its own counter only and, for a connection's counter, the map's total by its amount |
| PerConnectionSafety.ExactlyOnceInOrder | percona_playback/thread_per_connection/thread_per_connection.cc:41-114 | when dispatch and the final join are over, each connection had exactly one thread, which popped exactly the connection's entries in order, executed the queries, reconnected at the Quit entries, counted just that, exited with an empty queue and was joined once |
| PerConnectionSafety.AlwaysSafe | percona_playback/thread_per_connection/thread_per_connection.cc:49-114 | in every reachable state: one thread per connection at most, joins only after exit and at most once, no push to an exited or joined thread, num_running = number of non-null executors <= 10001 |
| PerConnectionSafety.SweepsOnlyCrowds | percona_playback/thread_per_connection/thread_per_connection.cc:69-75 | while at most 10000 threads have been started nothing is swept or joined before the entries run out |
| PerConnectionSafety.QueuesNeverOverfull | percona_playback/db_thread.h:49-53 | no queue ever holds more than its capacity |
| PerConnectionSafety.NextKeeps | percona_playback/thread_per_connection/thread_per_connection.cc:41-114 | the invariant of dispatcher, table and workers is kept by every step |
| PerConnectionSafety.RunKeepsInv | percona_playback/thread_per_connection/thread_per_connection.cc:41-114 | the invariant holds throughout every run |
| PerConnectionSafety.PushTargetAlive | percona_playback/thread_per_connection/thread_per_connection.cc:50-81 | the thread about to be pushed to serves the entry's connection, runs, and has not been joined |
| PerConnectionSafety.DoneMeansDelivered | percona_playback/thread_per_connection/thread_per_connection.cc:104-114 | after the final join all deliveries are complete |
| PerConnection.ExitedComplete | percona_playback/db_thread.cc:44-58 | a worker that exited has handled all its connection will ever send |
| PerConnectionProgress.FinishesIffConnectionsFit | percona_playback/thread_per_connection/thread_per_connection.cc:54-83 | some run finishes if and only if every new connection finds at most 10000 others open |
| PerConnectionProgress.CanAdvance | percona_playback/thread_per_connection/thread_per_connection.cc:69-81 | under that premise every reachable unfinished state has a step that brings the end closer |
| PerConnectionProgress.CanFinish | percona_playback/thread_per_connection/thread_per_connection.cc:41-114 | and every reachable state can be completed |
| PerConnectionProgress.NeverFinishes | percona_playback/thread_per_connection/thread_per_connection.cc:60-75 | without it no run gets past the connection in question |
| PerConnectionProgress.CrowdNeverFinishes | percona_playback/thread_per_connection/thread_per_connection.cc:60-63 | no run ends over a stream of more than 10001 connections that all start before any of them ends |
| PerConnectionProgress.SpinsCloser | percona_playback/thread_per_connection/thread_per_connection.cc:69-75 | with a slot to be joined, every idle turn of the throttle loop brings the join closer, in whatever order a sweep goes |
| PerConnectionProgress.JoinableStaysAhead | percona_playback/thread_per_connection/thread_per_connection.cc:93-101 | a joinable slot ahead of a sweep stays ahead of it until some slot is joined |
| PerConnectionFairness.FairRunsFinish | percona_playback/thread_per_connection/thread_per_connection.cc:41-114 | under the premise every infinite run that is weakly fair to the dispatcher and to each worker reaches the end |
| PerConnectionFairness.FairRunExists | percona_playback/thread_per_connection/thread_per_connection.cc:41-114 | and there are such runs |
| PerConnectionProgress.AdvancesDecrease | percona_playback/thread_per_connection/thread_per_connection.cc:49-113 | every step but an idle turn of the throttle loop takes away from the work left |
| PerConnectionProgress.WorkIsBounded | percona_playback/thread_per_connection/thread_per_connection.cc:49-113 | in any interleaving the initial work bounds the number of such steps |
| ThreadPool.SharesHandledInOrder | percona_playback/thread_pool/thread_pool.cc:54-89 | at the end each worker has handled exactly its share of the stream in dispatch order, then one FinishEntry, its queue is empty, and it was joined once |
| ThreadPool.NoEarlyExit | percona_playback/db_thread.cc:44-58 | in every reachable state a worker that exited has handled its whole share and its FinishEntry |
| ThreadPool.ConnectionStaysWithOneWorker | percona_playback/thread_pool/thread_pool.cc:67-77 | all entries of a connection are handled by one worker, in stream order |
| ThreadPool.PushGoesByHash | percona_playback/thread_pool/thread_pool.cc:73-77 | an entry goes to the end of the queue of the worker whose index is the checksum modulo the number of workers, and to no other |
| ThreadPool.QueuesNeverOverfull | percona_playback/db_thread.h:49-53 | no queue ever holds more than its capacity |
| ThreadPool.NextKeeps | percona_playback/thread_pool/thread_pool.cc:64-89 | every step keeps the pool's invariant |
| ThreadPool.CanAdvance | percona_playback/thread_pool/thread_pool.cc:64-89 | no deadlock: every reachable unfinished state has a step, a full queue can always be worked off |
| ThreadPool.NextDecreases | percona_playback/thread_pool/thread_pool.cc:64-89 | every step takes away from the work left |
| ThreadPool.EveryRunEnds | percona_playback/thread_pool/thread_pool.cc:64-89 | no run is longer than the initial work, and one that cannot go on is finished |
| Workers.ExitMeansPlanDone | percona_playback/db_thread.cc:44-58 | a worker exits exactly at the one shutdown entry of its plan, everything handled and counted, including an entry that is both Quit and shutdown |
| Workers.SilentStepOk | percona_playback/db_thread.cc:44-62 | pop, reconnect, execute, complete and loop test keep a worker's histories in step |
| Workers.CountStepOk | percona_playback/query_log/query_log.cc:274-283 | so does every single counter increment |
| Workers.CrewStepOk | percona_playback/simple_report/simple_report.cc:126-159 | under interleaved increments every counter stays the sum of what the workers added |
| ThreadPool.EveryStreamFinishes | percona_playback/thread_pool/thread_pool.cc:54-89 | for every stream, hash and number of workers some run reaches the end |
| MaxBehind.AlwaysSound | percona_playback/query_log/query_log.cc:241-248 | in every interleaving, spurious failures included, the stored maximum never decreases, covers every finished update and is the initial or a proposed value |
| MaxBehind.ComparesWithStored | percona_playback/query_log/query_log.cc:243-248 | what an update compares with has been the stored maximum |
| MaxBehind.MaximumAtTheEnd | percona_playback/query_log/query_log.cc:241-248 | when all updates are done the stored value is the maximum of the initial and all proposed values |
| MaxBehind.LockFree | percona_playback/query_log/query_log.cc:245-248 | every step but a spurious failure makes progress |
| Ordering.ClampRepairs | percona_playback/query_log/query_log.cc:194-205 | the clamp leaves records in place, lowers no start, and makes starts non-decreasing along each connection and at least the epoch |
| Ordering.ClampIsLeast | percona_playback/query_log/query_log.cc:198-205 | it is the pointwise least such assignment |
| Ordering.LatestIsSupremum | percona_playback/query_log/query_log.cc:198-205 | the time kept per connection is the least upper bound of the epoch and its starts so far |
| Ordering.ClampedAt | percona_playback/query_log/query_log.cc:199-205 | entry i gets the latest start of its connection up to and including itself |
| Ordering.SortSorts | percona_playback/query_log/query_log.cc:207-208 | the sort yields a sorted permutation |
| Ordering.SortIsStable | percona_playback/query_log/query_log.cc:208 | entries with equal starts keep their order |
| Ordering.StableSortUnique | percona_playback/query_log/query_log.cc:208 | sorted and stable determine the result, so any stable sort gives it |
| Ordering.SortKeepsConnectionIff | percona_playback/query_log/query_log.cc:194-197 | sorting keeps a connection's order exactly if its starts are already in order |
| Ordering.PreprocessingKeepsMeaning | percona_playback/query_log/query_log.cc:191-211 | clamp and sort give a sorted permutation in which each connection's queries are in file order |
| Ordering.PreprocessingIdempotent | percona_playback/query_log/query_log.cc:191-211 | a second pass changes nothing |
| QueryLog.GetEntries | percona_playback/query_log/query_log.cc:119-215 | by default, or in accurate mode if every record has a time, the entries are the records with their starts repaired by the least amount that puts each connection in order, sorted, in file order within each connection and among equal starts; otherwise the records in file order; blocks and records are counted; accurate mode is given up exactly if a record has no time |
| QueryLog.ReplayOrderMeans | percona_playback/query_log/query_log.cc:191-211 | the order of the replay said without the clamp or the sort: least repair, sorted, stable, each connection in file order, or plain file order |
| QueryLog.ReadRecord | percona_playback/query_log/query_log.cc:162-173 | one record extends to the next user or time line; its query lines and length are counted |
| QueryLog.AddRecord | percona_playback/query_log/query_log.cc:162-186 | the record is counted, and added under the current time if it has a query line; without a time it ends accurate mode |
| QueryLog.QueryLogEntries.ClampStartTimes | percona_playback/query_log/query_log.cc:198-205 | the loop with its map of latest times computes the clamp |
| QueryLog.QueryLogEntries.SetShutdownOnLastQueryOfConn | percona_playback/query_log/query_log.cc:365-372 | records the slice starts of the last entry of each connection |
| QueryLog.QueryLogEntries.PopEntry | percona_playback/query_log/query_log.h:108-118 | pops from the front, shut down if its slice start is recorded |
| LogData.LogRecordsAreSlices | percona_playback/query_log/query_log.cc:182-185 | records are non-empty, disjoint slices of the log in increasing order |
| LogData.LogRecordsMean | percona_playback/query_log/query_log.cc:162-186 | the records are, in order, those of the blocks with a line not starting with "#": the text is the block's lines, the place where they lie, the start the time of the last readable time line before less the query time |
| LogData.TimeBeforeIsLatest | percona_playback/query_log/query_log.cc:155-160 | a record's time is that of the last time line before it that can be read, and none without one |
| LogData.StaysAccurateIff | percona_playback/query_log/query_log.cc:177-180 | accurate mode survives exactly if every record has a time |
| LogData.QuitIsLine | percona_playback/query_log/query_log.cc:286-288 | a record is a Quit command exactly if one of its lines but the first starts with "# administrator command: Quit;" |
| LogData.QueryLogData.ParseThreadId | percona_playback/query_log/query_log.cc:311-329 | the cached thread id is always the one the record says |
| LogData.ThreadIdReadsBack | percona_playback/query_log/query_log.cc:316-327 | a thread id printed behind its label, with any white space between, is read back, whichever of the two labels the record uses, up to 64 bits |
| LogData.RowsSentReadsBack | percona_playback/query_log/query_log.cc:331-336 | so is the number of rows sent |
| LogData.NothingNamed | percona_playback/query_log/query_log.cc:328-336 | a record without an id label is of connection 0, one without a rows label sent no rows |
| Segmentation.BlocksSegment | percona_playback/query_log/query_log.cc:126-173 | the scan cuts the log into maximal ordered blocks that cover every line starting a record |
| Segmentation.SegmentationUnique | percona_playback/query_log/query_log.cc:126-173 | and these conditions leave no other choice |
| Segmentation.OpenerInOneBlock | percona_playback/query_log/query_log.cc:148-173 | every '#' line but a time line lies in exactly one block |
| Segmentation.TimeInNoBlock | percona_playback/query_log/query_log.cc:157-160 | no time line lies in any |
| Segmentation.QueryLineCoverage | percona_playback/query_log/query_log.cc:136-173 | a query line is in a block exactly if an opener precedes it with no time line between |
| Segmentation.KindMeans | percona_playback/query_log/query_log.cc:136-173 | the kinds of lines by their first characters |
| RoundTrip.ReadingPrintedLog | percona_playback/query_log/query_log.cc:126-188 | printing well-formed records and reading the text returns them in order and in place, each under the latest readable time before it |
| Text.ReadLine | percona_playback/query_log/query_log.cc:75-85 | returns the first line of what is left and advances past it |
| Text.LinesRebuild | percona_playback/query_log/query_log.cc:75-85 | the lines of a text are lines, and concatenated they are the text |
| Text.LinesOfFlatten | percona_playback/query_log/query_log.cc:75-85 | any list of lines is what its concatenation is cut into |
| Text.Find | percona_playback/query_log/query_log.cc:67-71 | finds the first occurrence, or there is none |
| Text.TrimIsMiddle | percona_playback/query_log/query_log.cc:88-93 | trimming takes the blanks off both ends, all of them, and nothing else |
| Text.BlankIff | percona_playback/query_log/query_log.cc:88 | the blanks are space, newline, carriage return and tab |
| Text.StrtoullReadsBack | percona_playback/query_log/query_log.cc:318-335 | a number printed in decimal is read back behind any white space, sign and zeros, whatever follows it but a digit: a minus sign wraps around 64 bits, a number beyond them saturates |
| Text.StrtoullReadsNothing | percona_playback/query_log/query_log.cc:318-335 | without a digit behind the white space and sign the number is zero |
| QueryText.GetQuery | percona_playback/query_log/query_log.cc:290-309 | the loop computes the pipeline: drop metadata and timestamps, trim, drop blanks, join |
| QueryText.QueryKeepsText | percona_playback/query_log/query_log.cc:290-309 | the text has exactly the non-blank characters of the kept lines, in order |
| QueryText.QueryIsTidy | percona_playback/query_log/query_log.cc:88-93 | it is one line with no blank at either end |
| QueryText.QueryIsText | percona_playback/query_log/query_log.cc:290-309 | the text is one line made of the lines from the first that is no comment, without the "SET timestamp=" lines if asked, each trimmed, empty ones dropped, joined by single spaces, with exactly their non-blank characters |
| QueryText.QueryFixedPointIff | percona_playback/query_log/query_log.cc:290-309 | extracting again changes it exactly if it is not empty and reads like a metadata or removed timestamp line |
| QueryText.NotAlwaysFixed | percona_playback/query_log/query_log.cc:296-301 | such texts come up: an indented comment line behind the metadata gives one |
| Marking.StartMarksCorrectIff | percona_playback/query_log/query_log.cc:365-372 | marks by slice start are the last-of-connection flags if and only if no entry that is not a last one shares its start with one that is |
| Marking.ReplayStartsDistinct | percona_playback/query_log/query_log.cc:183-184 | segmentation, repair and sorting keep all slice starts distinct |
| Marking.PopMarked | percona_playback/query_log/query_log.h:108-118 | marked and popped, the stream has shutdown on exactly the last entry of each connection |
| Marking.OneShutdownPerConnection | percona_playback/query_log/query_log.cc:365-372 | as many entries are marked as there are connections |
| Jobs.OneFlagPerConnection | percona_playback/query_entry.h:67-68 | there are as many last entries as connections |
| Jobs.WithMarksIsMarked | percona_playback/query_entry.h:67-68 | flagging last occurrences marks a stream |
| Jobs.MarkedPlan | percona_playback/db_thread.cc:45-58 | in a marked stream only a connection's last entry ends its worker |
| GeneralLog.GeneralLogQueryEntries.PopEntry | percona_playback/general_log/parse_general_log.cc:20-26 | pops at the cursor and advances it |
| GeneralLog.GeneralLogQueryEntries.SetShutdownOnLastQueryOfConn | percona_playback/general_log/parse_general_log.cc:28-35 | sets the flag of exactly the last entry of each connection, and clears none |
| GeneralLog.PopMarked | percona_playback/general_log/parse_general_log.cc:20-35 | the flagged objects pop as the same marked stream that slice starts give |
| GeneralLog.JobDescribes | percona_playback/general_log/general_log_entry.h:43 | a general log job carries the entry's thread and query, and is a Quit exactly if the first 30 characters of the query are that command |
| Session.MySQLDBThread.Run | percona_playback/mysql_client/mysql_client.cc:158-165 | over any plan and any server the history of the session is, entry by entry, that of a reconnect for a Quit, an execution for a query and nothing for a FinishEntry; connects and closes alternate, and the thread ends disconnected with equal counts |
| Session.SessionIsWorker | percona_playback/db_thread.cc:44-58 | such a log is one the worker's steps allow |
| Session.QueriesBounded | percona_playback/mysql_client/mysql_client.cc:114-115 | a session sends at most max_retries + 1 (unsigned) queries for each entry it executes |
| Session.NoAttemptsIff | percona_playback/mysql_client/mysql_client.cc:115 | there is no attempt at all exactly for the largest value of max_retries |
| Session.MySQLDBThread.ExecuteQuery | percona_playback/mysql_client/mysql_client.cc:104-156 | begins with a connect exactly if there is no connection, sends at least one query if there is an attempt and at most max_retries + 1 (unsigned), stops at the first that succeeds, connects anew after each failed one, and returns the error, warnings and rows of the last; an error is returned exactly when all attempts failed |
| Session.MySQLDBThread.ReadResults | percona_playback/mysql_client/mysql_client.cc:138-151 | the rows are those of the last result set that could be stored, by index, zero if none could |
| Session.RowsAreLastStored | percona_playback/mysql_client/mysql_client.cc:138-151 | the rows remaining are those of the last result set stored, zero if none was |
| Session.LastReplyMeans | percona_playback/mysql_client/mysql_client.cc:118-151 | the reply is that to the last query sent: its error, or else its warnings and rows |
| Session.MySQLDBThread.Connect | percona_playback/mysql_client/mysql_client.cc:56-93 | at least one try and at most max_retries, or one, all refused but the last, which succeeds exactly if true is returned; each refusal is counted as a connect error |
| Session.MySQLDBThread.Disconnect | percona_playback/mysql_client/mysql_client.cc:95-102 | closes the connection if and only if there is one |
| Session.MySQLDBThread.TestConnect | percona_playback/mysql_client/mysql_client.cc:167-174 | the connection test passes without connecting |
| Session.AlternatingBalance | percona_playback/mysql_client/mysql_client.cc:56-102 | alternating connects and closes differ in number by the open connection |
| Tokenize.Tokenize | percona_playback/tokenize.h:27-55 | the loop returns the tokens, without the empty ones if asked |
| Tokenize.TokensRebuild | percona_playback/tokenize.h:33-54 | tokens have no delimiter, number one more than the delimiters, and rebuild the string with them |
| Tokenize.DelimitersAreAll | percona_playback/tokenize.h:35 | those delimiters are all the delimiter characters of the string, in order |
| Tokenize.TokenizeInterleaved | percona_playback/tokenize.h:27-55 | delimiter-free tokens joined by delimiters are read back |

## Left out

- Input and output: mapping and reading files, program options, plugin loading and registration, printing, exit codes.
- Calendar arithmetic and floating point: `parse_time` and `Query_time` are parameters (`Clock`) from a text to a time and to whole microseconds; a negative `Query_time` is not modelled.
- The internals of libraries: the bounded queue is a FIFO with a capacity of at least one, a join succeeds once the worker has exited, the CRC is an arbitrary hash, the pool has at least one worker, and the stable sort is a function justified by `Ordering.StableSortUnique`.
- The dispatchers, the workers and the CAS loop are transition systems on values, not classes with methods, because their steps interleave; what a thread keeps in locals is part of the state. That the same entry object is shared between queue and worker is not modelled.
- The order in which a hash table is iterated is arbitrary, but within one sweep fixed at its start.
- Why the scheduler is fair: `PerConnectionFairness.Fair` is a premise, for the dispatcher and each worker.
- A second dispatch on the same dispatcher object; the executor table is not cleared between two.
- `parseRowsExamined`: it searches `Rows_Examined: ` while logs print `Rows_examined: `, and no report counts what it returns.
- Numbers are read up to the end of a record; the source would go on into the following record, whose first character is `#`.
- `QueryLog.GetEntries` uses the parsed thread id where the source caches it; `LogData.QueryLogData.ParseThreadId` shows that the cache cannot be told apart.
- The retry of `connect` on "too many connections" depends on the return value of `usleep`; the model lets it go either way and promises no retry.
- A non-empty session-init query, on which `execute_query` and `init_session` call each other.
- Line parsing with regular expressions and the reading loop of the general log; its container and entries are modelled from the list of entries on.
- Reports.ReportPlugins.QueryExecution: does not run the error report, whose counters are never reported and which otherwise only prints.
- Printing of the reports, and sleeping: preserved query times and the pauses of accurate mode delay steps, which interleaving covers already; `MaxBehind` is not composed with the workers.
- Overflow of the 64-bit counters, times before the clock's range, and weak memory: counters are unbounded and atomics sequentially consistent.
