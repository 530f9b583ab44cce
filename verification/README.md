# Verification of the bulk insert collector's delivery pipeline

The program accepts INSERTs over HTTP, appends each to a write-ahead log (the journal), gathers them in tables keyed by
their query, flushes a table as one request to a queue, sends the request to a ClickHouse server or writes it to a dump
file, acknowledges the journal ids, and compacts the log. After a crash it replays what was not acknowledged. A second
(backup) ClickHouse can be given the same batches. This project models those parts and proves what they promise.

`dafny verify dfyconfig.toml` checks everything.

| file | what it models |
|---|---|
| Options, Arithmetic, Text | optional values, two facts of arithmetic, string search, split, join and trim |
| Wal | the lines of the WAL file and what a reader makes of them: pending records, ids, torn and glued lines |
| JournalMachine | the journal as a transition system: every I/O action and every update under the mutex is one step |
| JournalSafety | each step against a plain log of records; whole runs with crashes; safe and unsafe appends |
| JournalCounts | `pendingCount`, the length of the log, executions, compaction cut off anywhere |
| JournalLimits | start-up as a whole, and runs on which a stronger promise would be false |
| Journal | the `Journal` class, method by method, each tied to an execution of the machine |
| Messages | what an insert and a batch look like when they are sent or dumped, and whether a dump reads back |
| Pipeline, SenderSafety, PipelineSafety | accept, push, flush, send, dump, acknowledge, replay, crash and start steps around the journal |
| PipelineCounts | the counter, the length of the log and the backlog under the pipeline |
| PipelineHeld, PipelineMessages | that no step loses an insert but those named, and that each is sent under its own statement |
| PipelineRuns, DeliveryRuns | executions of the pipeline in which all goes well |
| PipelineLimits, SharedPrefix | executions that lose an answered insert |
| DualWrite | the live-only system inside the live and backup system |
| Table | rows, flush by count and by timer |
| Percent, Statement, BatchKey | percent-encoding, the cut of a statement, the batch key |
| SyncInsert | the synchronous path against the batched path |
| DumpCodec, DumpName, DumpDirectory, Spool | dump file format, names, the dump directory as a machine, the dumper as a class |
| Failover, RateLimiter | choice of a server, retries, the token bucket |

The journal's machine has a step for every point at which a crash or an I/O error can fall: the id is taken but the line
is not written, part of the line is written, all but its newline is; an acknowledgement line is written; a compaction has
written its temporary file, dropped its handle, renamed, reopened and rescanned, cleared the counters, closed, truncated
or reopened the acknowledgement file. `Log` is what the two files alone say is pending. Methods of the `Journal` class
return, as a ghost value, the steps they took, and are proved to end where those steps lead. The dump directory is done in
the same way: `DumpDirectory` is its machine and the methods of `FileDumper` return the steps they took. The pipeline
uses both machines: its dumps have names and texts, and a replay takes what the text says when it is read.

## Model

| member | source | states |
|---|---|---|
| JournalSafety.StepRefines | journal.go:232-412 | Every step keeps the invariant and acts on the pending records as a plain log does: a written record is appended, an acknowledged id is filtered out, and all other steps, in particular every step of a compaction, leave them as they are. |
| JournalSafety.ReplayIsLog | journal.go:302-335 | The records handed out with the in-memory `acked` map are those the two files tell, at any moment of a process. |
| JournalSafety.CrashDurability | journal.go:53-412 | After any interleaving of appends, acks, compaction steps, I/O errors and crashes, the files hold exactly the records logged and not acknowledged since, in order and unchanged, and a running process would replay exactly those. |
| JournalSafety.SurvivorsMeaning | journal.go:302-335 | A record is among them if and only if it was logged and no acknowledgement of its id came later. |
| JournalSafety.AnsweredIsLogged | journal.go:244-253 | When an append returns, its record is whole in the WAL. |
| JournalSafety.AnsweredSurvives | journal.go:232-253 | A record whose append returned success is pending in every later state, through crashes, unless its id is acknowledged after the append. |
| JournalSafety.FreshIds | journal.go:238-239 | The id of a new record is neither in the acknowledgement file nor in the WAL. |
| JournalSafety.AppendExact | journal.go:238-250 | An append that is written adds its record and touches no other if and only if no stale acknowledgement waits for its id and no unterminated line waits to swallow it. |
| JournalSafety.CompactedIsSafe | server.go:391-398 | If no process serves before one of its compactions has finished, every append of the run begins in such a safe state. |
| JournalCounts.AckCountsExactly | journal.go:272-281 | The counter is right after an acknowledgement if and only if the id acknowledged was pending. |
| JournalCounts.RunCounted | journal.go:251-281 | From the start of a process on, whatever went wrong before: in a run of safe appends that acknowledges only pending ids, `pendingCount` is exact, less the records of appends that reported an error, and never negative as long as no append fails. |
| JournalCounts.LogBound | journal.go:193-201 | From the start of a process on, without I/O errors since: the WAL of a process that has compacted is the pending records plus the acknowledgements since, fewer than 100 of them whenever the lock is free. |
| JournalCounts.BacklogCapped | journal.go:235-237 | With a limit set, `pendingCount` of a process without I/O errors never exceeds the limit or its value at start, whichever is larger. |
| JournalCounts.CompactRuns | journal.go:344-412 | Executed up to any of its steps, a compaction leads to the state described for that step, and the pending records are the same. |
| JournalCounts.ExecIsRun | journal.go:344-412 | What is executed is a run of the machine, so what holds of runs holds of the class methods. |
| JournalLimits.StartRuns | server.go:362-398 | NewJournal, ReplayUnacked and Compact, on any files with lines that fit the scanner, end with a WAL of exactly the pending lines, an empty acknowledgement file and the same pending records. |
| JournalLimits.EmptyServerStarts | server.go:362-398 | The start-up on empty files leads to the server with which the runs below begin. |
| JournalLimits.DoubleAckBreaksCount | journal.go:272-281 | An id acknowledged, compacted away and acknowledged again drives `pendingCount` to minus one. |
| JournalLimits.StaleAckReached | journal.go:390-412 | A crash between the rename of a compaction and the emptying of the acknowledgement file leaves an acknowledged id above every id of the WAL. |
| JournalLimits.FailedStartLosesRecord | server.go:396-398 | If the start-up compaction then fails, which is only warned about, an insert is answered that no later process will replay. |
| JournalLimits.TornRuns | journal.go:238-250 | A crash in the middle of a line and a start-up whose compaction fails leave a serving process with an unterminated WAL. |
| JournalLimits.TornLineSwallows | journal.go:238-250 | On the files that a crash in the middle of a line leaves, if the start-up compaction fails, the next insert is answered, although its line is glued to the torn one and is read by nobody. |
| JournalLimits.RestartExactly | journal.go:134-141 | After an answered append the next start works if and only if the line is shorter than 64 KiB; otherwise NewJournal fails, with the record still in the file. |
| JournalLimits.ReopenExactly | journal.go:390-395 | A compaction that meets no I/O error opens the renamed WAL again if and only if every pending line is shorter than 64 KiB; otherwise it ends there, without a writer. |
| JournalLimits.LongRecordJams | journal.go:390-395 | Two answered appends, of a short record and of one from 64 KiB up to 1 MiB, and the acknowledgement of the first lead to such an end, in a serving process and without an I/O error. |
| JournalLimits.JammedRun | journal.go:240-248 | From there on no append of the process writes a line, whatever else it does, as long as the long record is not acknowledged. |
| JournalObject.Journal.constructor | journal.go:53-60 | A new process on given files, with nothing loaded. |
| JournalObject.Journal.LoadAcked | journal.go:88-105 | The in-memory map is the set of ids in the acknowledgement file; it fails, and stays empty, when the file cannot be opened. |
| JournalObject.Journal.ScanMaxID | journal.go:125-142 | `nextID` becomes the largest id of the WAL, or stays if larger; fails exactly when the file cannot be opened or has a line the scanner does not take. |
| JournalObject.Journal.CountPendingOnDisk | journal.go:144-165 | The number of records not in the map, or failure in the same two cases. |
| JournalObject.Journal.NewJournal | journal.go:53-83 | The state after the Open step, or an error exactly when the directory or a file cannot be opened or a line is too long. |
| JournalObject.Journal.Append | journal.go:232-253 | It succeeds exactly when there is room, a usable writer and no I/O error; then the record is the last pending one and has the id returned. On an error the counter stays and the pending records gain at most that record; over the limit nothing changes; without a writer, as after a compaction that failed past the dropping of its handle, it stops in a panic that changes nothing but `nextID`. |
| JournalObject.Journal.ScanPending | journal.go:348-372 | The lines to keep, or failure exactly when the file cannot be opened or a line reaches 1 MiB. |
| JournalObject.Journal.RewriteWal | journal.go:344-397 | How far the rewrite came before an error, and the state that leaves. |
| JournalObject.Journal.ResetAckFile | journal.go:180-191 | How far the reset came before an error, and the state that leaves. |
| JournalObject.Journal.CompactLocked | journal.go:344-412 | Succeeds exactly when no fault strikes, the writer is not stuck and the lines fit; for each fault it stops at one place and leaves one state; the pending records never change; when only the last sync fails it has done its work all the same. |
| JournalObject.Journal.Compact | journal.go:338-342 | The same; after a success the WAL is the pending records and the acknowledgement file is empty. |
| JournalObject.Journal.ReplayUnacked | journal.go:302-335 | Hands out exactly the pending records, in order, and fails exactly on a stuck writer, a file that cannot be opened or a line of 1 MiB; then it has handed out those before that line. |
| JournalObject.Journal.Ack | journal.go:256-292 | For any ids: when it succeeds, exactly; the one state it leaves; which prefix is gone from the pending records when the line of an id cannot be written; and no step of an Ack that succeeds is an error. |
| JournalObject.Journal.AckLoop | journal.go:271-284 | The loop of Ack, up to the acknowledgement that fails. |
| JournalObject.Journal.MaybeCompactLocked | journal.go:193-201 | A compaction runs if and only if some id was acknowledged since the last and 100 were, or it is five seconds old. |
| JournalObject.AckLeaves | journal.go:256-292 | After an Ack that succeeds with a compaction due, the acknowledgement file is empty and the WAL has as many lines as records are pending; without one, the new ids are in that file, and fewer than 100 wait. |
| JournalObject.NewAcksMeaning | journal.go:271-284 | The ids that get a line are those given that are not zero and not acknowledged yet, each once. |
| JournalObject.WithoutAllMeaning | journal.go:271-284 | The records that are left are those with no id among them. |
| PipelineSafety.PipeStep | clickhouse.go:182-210 | Every step of the pipeline keeps its invariant: ids in one place at most, everything in memory backed by a pending record, nothing acknowledged that is not stored. |
| PipelineSafety.CompactedIsHeedful | server.go:391-398 | A pipeline whose processes compact before they serve begins every append in a safe state and keeps the invariant. |
| PipelineSafety.AnsweredIsSafe | server.go:117-131 | In every state of every run of processes with safe appends and dump prefixes of their own, with crashes anywhere and tables dropped by CleanTables, an insert answered 200 is a pending record of the files, or was taken by live ClickHouse, or is told by a file of the live dump directory or of failed/, provided that no live dump with it was of a text that does not read back. `AnsweredIsLost` and `SharedPrefixLoses` show that neither condition can go. |
| PipelineSafety.SpoiledMeaning | dump.go:228-239 | What is recorded as dumped in a text that does not read back is what some step of the run dumped so: one-line params that do not start with "insert" and no mark in the body is the condition on such a step. |
| PipelineLimits.AnsweredIsLost | dump.go:429-440 | For every insert whose dump would not read back, with some response of the server, there is a run with a clean start-up that answers it 200, dumps it, acknowledges it, replays the dump and removes the file, and ends with the insert in no record, server or file of the live side. |
| PipelineLimits.MarkedRowsAreLost | dump.go:228-239 | So it goes for three rows of which the second is `### RESPONSE ###`, for any parameters and any response. |
| SharedPrefix.SharedPrefixLoses | dump.go:104-109 | For any two inserts there is a run of two processes that compact before they serve and have one dump prefix: the first answers, dumps and acknowledges its insert, the second answers and dumps the other, and the first is then in no record, server or file of the live side, also when its dump reads back. |
| SenderSafety.DumpLosesExactly | dump.go:122-126 | Whatever the prefixes: what a dump loses is exactly what nothing but the file of its name told, less what its own text tells; with no file of that name in the directory it loses nothing. |
| SenderSafety.MoveLosesExactly | dump.go:422-425 | What a move to failed/ loses is exactly what only a file of its name there told. |
| SenderSafety.TakenExactly | clickhouse.go:182-210 | A server has taken no more than was sent to it and arrived. |
| PipelineSafety.AnsweredExactly | server.go:117-131 | Only an append that returned, and a reply to a synchronous insert that was sent and acknowledged, answer 200. |
| PipelineSafety.AckedIsStored | clickhouse.go:189-205 | Whatever is about to be acknowledged is stored on the live side, or is a synchronous insert that failed and is not answered 200, or was dumped in a text that does not read back. |
| PipelineSafety.CountAfter | collector.go:89-109 | An id is held as often after a step as before, once more if it was accepted or replayed, and less only if the step forgets a removed table, fails to dump it, acknowledges it, fails to, or is a crash. |
| PipelineHeld.HeldOrDropped | collector.go:89-109 | From the replay of a process on, every pending record is in exactly one place of the process, or just being accepted, unless such a step dropped it or its append failed. |
| PipelineHeld.WhoDrops | collector.go:179-203 | Which steps these are. |
| PipelineHeld.BatchesStayWhole | collector.go:89-109 | A table leaves whole, and what has left is never split, merged, reordered or changed on its way. |
| PipelineMessages.BatchesAreUniform | collector.go:301-355 | In every state of every run the inserts of a batch are of one table. |
| PipelineMessages.SentUnderOwnStatement | collector.go:81-87 | So every insert of a batch, at the backup too, is sent or dumped under its own statement and parameters, with the contents of the batch in its order; a verbatim one alone and as it came. |
| DeliveryRuns.TwoInsertsDelivered | clickhouse.go:182-210 | There is a run, after a clean start, in which two inserts for one table are answered, gathered, sent as one batch in their order and acknowledged, and copied to the backup if there is one; at the end the servers have both and nothing is pending or under way. |
| DeliveryRuns.SyncDelivered | sync_insert.go:82-120 | And one in which a synchronous insert is taken, acknowledged and answered. |
| PipelineSafety.IdsAreLinear | collector.go:89-109 | An id is in at most one of the pushes, tables, snapshots, live queue, worker, synchronous inserts and the acknowledgement under way, and only while it is pending; the counter is exact but for failed appends. |
| PipelineSafety.AcksAreModest | clickhouse.go:149-158 | The pipeline acknowledges only ids the journal has given out. |
| PipelineCounts.CounterCovers | journal.go:251-281 | Whatever fails, in any process: the ids held, those still to be acknowledged included, are no more than `pendingCount`, so it is never negative. |
| PipelineCounts.LogStaysShort | journal.go:285-291 | Under the pipeline, from the start of a process on and without I/O errors since, a process that has compacted holds at most `pendingCount` + 99 lines whenever the lock is free. |
| PipelineCounts.BacklogStaysCapped | journal.go:235-237 | Under the pipeline, with a limit set, `pendingCount` of a process without I/O errors never exceeds the limit or its value at start, whichever is larger. |
| SenderSafety.WorkKeeps | clickhouse.go:182-210 | No step of a sender, of a replay or of a move to failed/ loses what the sender owes for: a file that tells an insert goes only when the insert has been taken. |
| SenderSafety.ReadsBackTells | dump.go:285-302 | The text of a dump, read by a replay, tells what was dumped if and only if it reads back. |
| DualWrite.BackupStep | dual_sender.go:20-24 | A step of the backup sender changes nothing on the live side. |
| DualWrite.LiveStep | dual_sender.go:20-24 | Every other step is possible without a backup, with the same effect. |
| DualWrite.BackupErased | dual_sender.go:20-24 | Any run with two senders, less its backup steps, is a run with one, from the same start to the same journal, queue, dumps, acknowledgements and answers. |
| DualWrite.BackupGetsTheSame | dual_sender.go:20-24 | In every state the batches handed to live are those handed to backup and those about to be. |
| Batching.Table.constructor | collector.go:288-298 | A new table holds nothing. |
| Batching.Table.SnapshotAndReset | collector.go:89-106 | The snapshot is the request of exactly the inserts held, and nothing stays behind. |
| Batching.Table.Add | collector.go:160-176 | An insert joins those held; if and only if its rows fill the table, all of them leave as one request. |
| Batching.Table.CheckFlush | collector.go:119-127 | What is held leaves as one request, if anything is. |
| Batching.Conservation | collector.go:89-176 | Under any adds and timer flushes the inserts that left, in snapshot order, and those held are the adds in lock order; so are their rows; no insert is split; fewer than FlushCount rows wait, and none after the timer. |
| Batching.GroupsAreFull | collector.go:160-176 | When no timer fires, every group that left had enough rows, and too few before its last insert. |
| Batching.BatchMeaning | collector.go:81-106 | In every format a batch is the query and the inserts' texts, joined by newlines, in RowBinary by nothing; TabSeparated counts the lines of the texts, every other format the texts. |
| Batching.IdsMeaning | collector.go:89-106 | The journal ids of a batch are those of its inserts, in order, less zeros. |
| Messages.MessageMeaning | collector.go:81-87 | To each of the inserts that share a table, the batch is its own statement under its own parameters, followed by the contents of all. |
| Batching.RowsAreLines | collector.go:167-171 | Its rows are the lines of the first insert, then those of the second, and so on. |
| Statement.Parse | collector.go:422-465 | The loop over the format's name and the other cuts, against a declarative place of the cut. |
| Statement.CutBehindValues | collector.go:444-447 | With no FORMAT before it, the cut is behind the first VALUES, or the first values if there is none in capitals. |
| Statement.CutBehindName | collector.go:428-443 | With a FORMAT before it, the cut is behind the space, newline or semicolon that ends the word after it. |
| Statement.CutElsewhere | collector.go:448-462 | Without either, it is behind the blanks after the first format and its name in any case; without that, behind the first values between blanks in any case; else there is no data. |
| Statement.FormatMeaning | collector.go:279-286 | The format of a table is the name behind the first format of its query, in any case, and "values" without one. |
| Statement.ParseKeepsText | collector.go:422-465 | The head and the data are the text cut in two, up to white space around them, if and only if a FORMAT before the VALUES has its name ended; otherwise both are empty. |
| Statement.OpenEndedIsLost | collector.go:428-443 | `INSERT INTO t FORMAT VALUES` is one that is lost. |
| Statement.InsertSeen | collector.go:406-411 | The head is seen as an insert if and only if the statement is one and the cut does not lose it. |
| Messages.SyncMeaning | sync_insert.go:50-64 | A synchronous insert is sent as its statement and its content, which is the content of a batch of it alone when there is no query id to remove. |
| Percent.EscapeRoundTrip | collector.go:400-416 | What is escaped for the key is read back unchanged (section 2.1 of RFC 3986, '+' for a space). |
| Percent.DigitsInBothCases | collector.go:260-277 | Hexadecimal digits count in both cases. |
| Percent.UnescapesExactly | collector.go:260-277 | A string unescapes if and only if every '%' has two hexadecimal digits behind it. |
| Percent.PlainStays | collector.go:260-277 | What holds neither '%' nor '+' is read as it stands. |
| Percent.EscapedChars | collector.go:400-416 | It holds no separator, no '=' and no white space. |
| Percent.EscapeKeepsWord | collector.go:379-381 | The test for "insert" gives the same answer on escaped and plain text. |
| Text.PrefixMeaning | utils.go:117-119 | The prefix test ignores the case of ASCII letters and nothing else. |
| Text.TrimMeaning | collector.go:269-271 | Trimming takes the six ASCII blanks at both ends away, all of them, and nothing else. |
| BatchKey.SeparateQuery | collector.go:260-277 | The loop over the parameters: the last query and the others in order, or the whole key when the query does not unescape. |
| BatchKey.KeyRoundTrip | collector.go:260-277 | For every query string and body that is accepted, separating the key gives the trimmed head of the statement and what the query string is without its query, less the parameters that spell a query too. |
| BatchKey.StatementKept | collector.go:376-419 | The query read back from the key and the content kept are the statement cut in two, up to white space, unless the cut loses it; then both are empty. |
| BatchKey.ItemsKept | collector.go:377-390 | Without the query the request's parameters are left as they were, in order, if and only if the first "query=" stands at the start or behind a '&'. |
| BatchKey.ParamsKept | collector.go:376-419 | Without white space at the ends and without another parameter that spells a query, the key gives back the request's parameters less its query, in order, empty ones aside, if and only if the first "query=" is a parameter of its own; without any it gives back the query string. |
| BatchKey.MiddleIsCut | collector.go:377-390 | The key of `subquery=1&a=2` gives `suba=2`. |
| BatchKey.NotBatched | collector.go:376-419 | A request whose query does not unescape is passed on unchanged and is no insert; nor is one whose query, as spelled in the query string, does not start with "insert" in any case. |
| BatchKey.BrokenKey | collector.go:260-277 | A key whose query lacks the digits of a '%' gives no query and all of itself as parameters. |
| SyncInsert.BrokenParams | sync_insert.go:43-47 | So do the parameters of a synchronous insert. |
| BatchKey.EscapedWordIsNone | collector.go:379-381 | `query=%49NSERT INTO t VALUES`, escaped, is no insert. |
| BatchKey.UrlAndBodyAgree | collector.go:376-419 | An INSERT in the URL and the same INSERT in the body get the same key and content, and when each is taken for an insert. |
| BatchKey.InsertFormsAgree | collector.go:376-465 | When the query starts with "insert", the two forms agree in everything if and only if the cut does not lose the statement. |
| SyncInsert.SeparateInsertParams | sync_insert.go:29-48 | The loop over the parameters, empty ones skipped. |
| SyncInsert.PushKey | collector.go:301-317 | The key under which a table is looked up: the parameters without query_id when so configured. |
| SyncInsert.KeyMeaning | collector.go:301-317 | The key is the parameters that do not start with "query_id=" in any case, all of them in their order, but for white space at the ends of the whole. |
| SyncInsert.NoIdInKey | collector.go:301-317 | No parameter of the key starts so, if and only if the first one kept does not behind its leading white space, which the trim removes. |
| SyncInsert.IdsShareKey | collector.go:301-317 | Requests that differ in such a parameter only share a table. |
| SyncInsert.IdIsRemoved | collector.go:301-317 | `query_id=7&query=...` and `Query_ID=8&query=...` have the key `query=...`. |
| SyncInsert.PathsAgree | sync_insert.go:50-64 | The synchronous request has the statement, content and ids of a new table's single flush; the same parameters if and only if the query does not unescape or no parameter is empty among several; the same count if and only if the table would not split the content. |
| SyncInsert.GapDiffers | sync_insert.go:30-33 | With `a=1&&b=2` the two paths send different parameters. |
| DumpCodec.ReadBack | dump.go:228-239 | What is read is the body up to the first mark in it, where the real mark can share a newline with one before it. |
| DumpCodec.RoundTrip | dump.go:285-302 | A replay sends the params and content that were dumped if and only if params is one line, does not start with "insert", and the mark does not occur in the body, followed by a newline if there is a response. |
| DumpCodec.PayloadParts | dump.go:285-302 | The params, query, content and row count that are found in a dump of lines, and in a file that starts with an insert. |
| DumpCodec.FileParts | dump.go:118-122 | A file starts with params and content and ends with the response. |
| DumpCodec.MarkCutsRows | dump.go:228-239 | Of three rows of which the second is the mark the replay sends the first. |
| DumpDirectory.DumpedStays | dump.go:112-134 | After a dump that reads back, in any run of dumps, replays, moves and retries that neither prunes the file nor writes over it, the file is there with its text, or a send of exactly what was dumped has succeeded. |
| DumpDirectory.ReplayTells | dump.go:429-446 | A replay that goes well removes the file, and has sent what was dumped if and only if the dump reads back. |
| DumpName.AtoiItoa | dump.go:99-101 | The decimal form of a number determines it. |
| DumpName.SameNameExactly | dump.go:99-109 | Two dumps, of any processes, have one name if and only if prefix, number and status are the same. |
| DumpName.SeventhDump | dump.go:99-101 | An example of a name. |
| DumpName.NamesDiffer | dump.go:99-101 | Two dumps of a process with different numbers have different names. |
| DumpName.ScanIsPattern | dump.go:25 | The matcher accepts exactly the names of the pattern. |
| DumpName.RetryClass | clickhouse.go:192-196 | A dump is of the kind that is not retried if and only if the status was in [400, 502). |
| Spool.FileDumper.constructor | dump.go:104-109 | A dumper with a prefix of its own on a directory that other processes may have left. |
| Spool.FileDumper.First | dump.go:218-223 | The first file in name order. |
| Spool.FileDumper.Dump | dump.go:112-134 | A success adds one file with params, content and response under a new name and, without a limit, touches no other; with a limit the files that come first in name order go; without a directory not even the number moves. |
| Spool.FileDumper.WriteFile | dump.go:125-134 | The write alone, whole, partial or failed. |
| Spool.FileDumper.Prune | dump.go:158-179 | As many files go as exceed the limit, and those that go come first; it stops at a file that cannot be removed. |
| Spool.FileDumper.ProcessNextDump | dump.go:410-446 | The first unlocked file is moved, sent and removed, locked or kept, as the I/O turns out, by exactly those steps; a client-error file is never sent; a file sent once is not sent again. |
| Spool.FileDumper.Tick | dump.go:459-473 | A tick ends, at the limit, at the first file that fails or when no unlocked file is left, and not before; it is a run of replay steps; the files that are gone are the first in name order, as many as it counts. |
| Spool.FileDumper.ReplayFailed | dump.go:351-407 | The first files of failed/ in name order are tried, up to the limit, and a file is gone if and only if it was tried and all went well; a listing that fails is one error. |
| Spool.FileDumper.ReplayOne | dump.go:366-400 | One turn of that loop. |
| Spool.SurvivesExactly | dump.go:158-179 | When every file can be removed, a file survives a limit, the one just written like any other, if and only if fewer than that many others come after it in name order. |
| Spool.TenDumps | dump.go:130-134 | Ten dumps of a new process with room for one file leave the ninth. |
| Failover.Clickhouse.GetNextServer | clickhouse.go:115-140 | The least recently used eligible server, the first of equals, or none exactly when all are bad and cooling down; cool-downs that are over are forgiven. |
| Failover.Clickhouse.SendQuery | clickhouse.go:269-289 | The servers tried, the outcome and the servers as they are left; the one that answered is the last tried and is not bad; "no servers" only when every server is bad and cooling down. |
| Failover.TriesHealthyOnce | clickhouse.go:277-288 | If no cool-down ends meanwhile, a call tries no more servers than were healthy and ends. |
| Failover.TriesBounded | clickhouse.go:277-288 | In a time T a call makes at most n * (T / cool-down + 1) attempts on n servers, whatever their state. |
| Failover.RetriesExactly | clickhouse.go:277-288 | With n healthy servers that start level and every attempt in vain, the loop goes on for ever if and only if each attempt from the n-th on comes later than a cool-down after the attempt n before it; otherwise it gives up. |
| Failover.RetriesByDuration | clickhouse.go:277-288 | So it never ends when every attempt takes at least d and n * d exceeds the cool-down, and ends when every attempt takes at most d and n * d does not. |
| Failover.SlowAttemptsNeverEnd | clickhouse.go:119-125 | When all servers are eligible, in whatever state they are, attempts that fail and each outlast the cool-down never end. |
| Failover.RoundRobin | clickhouse.go:127-137 | Healthy servers that start level are chosen in turn: any n calls in a row reach n servers, and the choice repeats after n and not before. |
| RateLimiter.Limiter.Wait | rate_limiter.go:36-66 | A waiter takes one token or none for as long as it reads the clock; the bucket stays in range. |
| RateLimiter.RateBound | rate_limiter.go:36-66 | In a time T, for any number of waiters, at most burst + T / interval tokens are granted. |
| RateLimiter.CreditBound | rate_limiter.go:42-58 | What was granted and what is left was in a full bucket or has come in since. |
| RateLimiter.SleepsAreEnough | rate_limiter.go:55-64 | A waiter without competitors gets its token after one sleep, or after two when the first came out up to a millisecond short. |
| RateLimiter.SleepIsLeast | rate_limiter.go:55-59 | The sleep is a millisecond at least, and otherwise no longer than is needed. |
| RateLimiter.BurstAtOnce | rate_limiter.go:36-66 | A full bucket grants its burst at once, and no more until time passes. |
| RateLimiter.NewBucketValid | rate_limiter.go:17-33 | The bucket is well formed for every rate up to one per nanosecond, full, with the configured burst or else the rate as its burst, and its rate is not below the configured one. |
| RateLimiter.RateIsExact | rate_limiter.go:17-33 | The rate is exactly the configured one if and only if it divides a second. |

## Where the promises stop

- A start-up compaction that fails is only warned about (server.go:396-398); `AppendExact` says exactly which later
  appends are then safe, and `FailedStartLosesRecord` shows one that is not.
- The counter relies on ids being acknowledged once; the pipeline sees to that (`IdsAreLinear`, `CounterCovers`), the
  journal does not (`DoubleAckBreaksCount`).
- The scans at start-up, and that of the renamed WAL in every compaction, use the scanner's default limit of 64 KiB, the
  replay and the rewrite 1 MiB. A longer record is accepted, and then stops the next start (`RestartExactly`) and, while
  it is pending, the next compaction of the running process, without any I/O error (`ReopenExactly`).
- A compaction that ends so, or by an I/O error between the dropping of its handle and the reopening, leaves no writer:
  every append then panics (journal.go:245) until a compaction gets through (`LongRecordJams`, `JammedRun`).
  `Journal.Append` says so with an error of its own.
- A dump whose content holds the response mark is cut on replay (`RoundTrip`), and the insert behind it is lost although
  it was answered (`AnsweredIsLost`); params that start with "insert", as `insert_quorum=2` does, are taken for the query.
- Dump prefixes have a resolution of one second (dump.go:107); two processes in one second can overwrite each other's
  files (`SharedPrefixLoses`), which they do when number and status are the same (`SameNameExactly`).
- The retry loop of a send has no end of its own when n attempts on n servers take longer than the cool-down
  (`RetriesExactly`).
- A limit on dump files prunes in name order; `SurvivesExactly` says which files stay, and `TenDumps` loses the one just
  written.
- The prefix that makes an insert is looked for in the query string as it is spelled; `EscapedWordIsNone` is an INSERT
  that is not batched.
- Trimming the key comes after the removal of query ids, so that a parameter behind white space can become one
  (`NoIdInKey`).
- The first "query=" of a query string counts wherever it is; parameters come back if and only if it is one of its own
  (`ParamsKept`, `MiddleIsCut`).

## Left out

- HTTP handling, basic authentication, TLS, signals, JSON status pages, metrics, logging and configuration: no state the
  properties depend on; a send succeeds, fails with a status or finds the server down.
- Decompression of request bodies, and the matchers that decide which inserts are opaque: an insert is one or the other.
- JSON: a WAL line is a record or does not parse; content that is not valid UTF-8 is not covered.
- Base64 of opaque records: the payload of a record stands for its params and content, whatever their encoding.
- Torn lines of the acknowledgement file, power failure and reordering of writes: a crash is a crash of the process, and
  only the last WAL line can be torn.
- The 64-bit width of ids: they do not wrap around.
- Mutexes and goroutines: steps are atomic where the code holds a lock. The lock order of a dump and of a dump replay is
  inverted (clickhouse.go:164, dump.go:411), so freedom from deadlock is not claimed.
- A sender without a dumper (clickhouse.go:163-168) and a pipeline without a journal: `runServer` sets the first, and
  without the second nothing is promised across a crash.
- A limit on dump files in the pipeline: `AnsweredIsSafe` is about senders that do not prune; `Spool` models pruning.
- One directory for both dumpers: the configuration does not rule out that `dump_dir` and `bkp_dump_dir` are the same
  (utils.go:224-231); the two dumpers would then give each other's file names. The model has two directories.
- `Run`, `Send`, `Push`, `writeHandler`, `finishSyncInsert` and `runServer`, which interleave, are steps of the pipeline's
  machine, not methods.
- The merging of configured query parameters into a request as it is sent: a dump is written without them, and so are
  the messages here.
- The collector's map, its timers and `FlushAll`: a table may be flushed, dropped or flushed late at any time.
- White space, letters and digits outside ASCII in trims, prefix tests and patterns.
- `Close` of the journal: it compacts, which is modelled, and closes its files, which is not.
- `SafeQuit`: a request that the worker has polled can still be in flight when it returns.
- Path checks of dump files, and the `LockedFiles` map before `Listen` makes it.
- Load tests, Docker files and examples.
- Failover.RoundRobin: the two clock readings of one call are taken as one; among healthy servers only the second has an effect.
- RateLimiter.RateBound: tokens are counted in whole nanoseconds of credit, where the code keeps a floating-point quotient.
- Failover.Clickhouse.SendQuery: for a single caller at a time; the outcome of each attempt and the clock are its input.
- RateLimiter.CreditBound: in the same exact credit.
- Spool.FileDumper.Dump: the check of the directory and the write are one call; a crash between them leaves nothing new.
