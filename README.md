# rabbit-index-ingest, modelled in Dafny

The rabbit indexer keeps the CEDA archive's search indices in step with the
files on disk. It has two halves.

- **Event ingestion.** Consumers read filesystem-change messages (DEPOSIT,
  REMOVE, MKDIR, RMDIR, SYMLINK, 00README) from a RabbitMQ queue. Each message
  is decoded into an `IngestMessage`, either from a JSON object or from a
  legacy colon-separated line. The consumer routes it to the update handlers
  and acknowledges it.
  - The directory handler indexes directories, their catalogue (MOLES)
    metadata and their 00README text.
  - The files handler (FBS) indexes files on DEPOSIT and removes them on
    DELETE. The consumers route REMOVE to it, which it ignores. The model
    keeps this behaviour as written.
  - Both handlers share a base class that refreshes the path-to-record
    mapping at most once per interval.
- **Reconciliation.** The consistency checker walks the archive spot by spot.
  It keeps its progress in a file that survives restarts. For each directory
  it compares the directory's listing with what the indices hold, and
  publishes DEPOSIT/REMOVE/MKDIR/RMDIR/README messages for the differences.

The Dafny project models these pieces.

- The message decoder (`ingest_message.dfy`).
- The consumer base class: the acknowledgement path and the reconnect loop
  (`queue_handler.dfy`).
- Every consumer script's callback:
  - `fast_queue_consumer.dfy`
  - `slow_queue_consumer.dfy`
  - `opensearch_queue_consumer.dfy`
  - `opensearch_tagger_consumer.dfy`
  - `queue_consumer.dfy`
  - `script_queue_handler.dfy`
  - `queue_clearer.dfy`
  - `log_listener.dfy`
  - The regex routing these share is in `line_patterns.dfy`.
- The update handlers:
  - `update_handler.dfy`
  - `directory_updates.dfy`
  - `fast_directory_updates.dfy`
  - `fbs_updates.dfy`
  - `fast_fbs_updates.dfy`
- The path tools: MOLES lookup, mapping refresh and document ids
  (`path_tools.dfy`).
- The YAML configuration lookup (`yaml_config.dfy`).
- The consistency checker (`consistency_checker.dfy`).

Some modules hold the Python library behaviour the code relies on. Each is
written out, with its edge cases.

- `str.strip`, `split`, `join`, `upper` and `count` (`py_str.dfy`).
- `posixpath` `dirname`, `basename`, `join` and `splitext` (`posix_path.dfy`).
- `int`/`str` on decimal digits (`decimal.dfy`).
- UTF-8 encoding (`utf8.dfy`).
- The JSON values `json.loads` produces (`json_value.dfy`).
- The Python exception kinds (`wrappers.dfy`).

How state is modelled:

- Objects whose methods update fields are classes with those fields. These
  are `PathTools`, `UpdateHandler`, `DirectoryUpdateHandler`,
  `FbsUpdateHandler`, `YamlConfig` and the checker.
- Each method is proved equal to a specification function of the old state.
  The specification function's properties are proved as lemmas.
- Calls to the outside world are recorded in an append-only effect log:
  - acknowledgements, publications and log lines;
  - index updater calls;
  - MOLES requests;
  - file writes.
- The outside world's answers are parameters:
  - the broker;
  - Elasticsearch scans;
  - directory listings and `os.path` tests;
  - the clock;
  - HTTP responses.

## Model

| member | source | states |
|---|---|---|
| IngestMessages.LegacyDecodeSucceedsIff | rabbit_indexer/queue_handler/queue_handler.py:64-76 | A non-JSON body decodes exactly when its stripped text holds at least five ':' separators. Otherwise decoding raises IndexError and produces no partial message. |
| IngestMessages.LegacyFieldsRebuildLine | rabbit_indexer/queue_handler/queue_handler.py:66-74 | The five decoded fields, re-joined with ':', give back the stripped line. With exactly five separators the line is followed by one extra ':', because the empty message field still gets its separator. |
| IngestMessages.LegacyLineOfPieces | rabbit_indexer/queue_handler/queue_handler.py:66-74 | The same rebuild, stated on the split pieces: datetime is pieces 0-2 re-joined, path/action/size are pieces 3-5, message is pieces 6 onward re-joined. |
| IngestMessages.LegacyDecodeIgnoresPadding | rabbit_indexer/queue_handler/queue_handler.py:66 | Leading and trailing whitespace around a legacy body never changes the decoded message. |
| IngestMessages.SplitLegacyLine | rabbit_indexer/queue_handler/queue_handler.py:66 | Splitting a message's legacy line on ':' gives the datetime's three pieces, then path, action and size, then the pieces of the free-form message. |
| IngestMessages.LegacyRoundTrip | rabbit_indexer/queue_handler/queue_handler.py:64-76 | Decoding the legacy line of a message gives the message back. This holds when the datetime has two ':', path/action/size have none, and the line carries no outer whitespace. The message field may contain ':'. |
| IngestMessages.StructuredAgreesWithLegacy | rabbit_indexer/queue_handler/queue_handler.py:60-76 | A JSON object with the five string fields decodes to the same message as its legacy line does. |
| IngestMessages.JsonBodyNeverIndexError | rabbit_indexer/queue_handler/queue_handler.py:60-64 | A body that parses as JSON never reaches the legacy split, so it never raises IndexError. Anything but an object with exactly the five fields raises TypeError. |
| QueueHandler.EffectLog.AcknowledgeMessage | rabbit_indexer/queue_handler/queue_handler.py:165-174 | `acknowledge_message` only schedules the ack on the connection: exactly one ScheduleAck is appended and nothing else changes. |
| QueueHandler.Channel.AcknowledgeNow | rabbit_indexer/queue_handler/queue_handler.py:152-163 | The scheduled callback acks the delivery tag only when the channel is open. A closed channel sees no ack. |
| QueueHandler.Run | rabbit_indexer/queue_handler/queue_handler.py:190-218 | The event trace equals the reference trace of the session endings. A session that returns normally from `start_consuming` reconnects silently, and one that loses its stream logs and reconnects. The loop stops exactly when some session ends in any other way, and then its last act is `stop_consuming`. The `run` loops of scripts/queue_consumer.py (175-203) and scripts/queue_handler.py (173-202) are the same loop. |
| QueueHandler.RunConnectsUntilFirstStop | rabbit_indexer/queue_handler/queue_handler.py:199-218 | A lost stream and a normal return both reconnect. The loop connects once per session up to and including the first session that ends otherwise, and never again after it. |
| FastQueueConsumer.Handle | rabbit_indexer/scripts/fast_queue_consumer.py:41-66 | The effects appended equal the reference outcome. An undecodable line is acked and dropped. A decoded message goes to its handler and is then acked. A handler failure is logged and re-raised, and the message is not acked. |
| FastQueueConsumer.Callback | rabbit_indexer/scripts/fast_queue_consumer.py:29-66 | The callback's effects equal its reference outcome for every body. |
| FastQueueConsumer.AckedOnceUnlessRaised | rabbit_indexer/scripts/fast_queue_consumer.py:41-66 | Every body is acked exactly once when the callback returns, and never when an exception escapes. |
| FastQueueConsumer.DecodedAckedOnce | rabbit_indexer/scripts/fast_queue_consumer.py:51-66 | The same exactly-once property for an already decoded message. |
| FastQueueConsumer.Routing | rabbit_indexer/scripts/fast_queue_consumer.py:53-61 | With no failing handler: DEPOSIT and REMOVE reach only the files handler; MKDIR, RMDIR and SYMLINK reach only the directory handler; other actions (00README included) reach none; the ack comes last. |
| FastQueueConsumer.HandlerFailure | rabbit_indexer/scripts/fast_queue_consumer.py:63-66 | A failing handler yields an error log, a raised exception and no ack. |
| SlowQueueConsumer.Handle | rabbit_indexer/scripts/slow_queue_consumer.py:45-69 | The callback's effects equal its reference outcome. |
| SlowQueueConsumer.Callback | rabbit_indexer/scripts/slow_queue_consumer.py:33-69 | The callback's effects equal its reference outcome for every body. |
| SlowQueueConsumer.AckedOnceUnlessRaised | rabbit_indexer/scripts/slow_queue_consumer.py:45-69 | Acked exactly once when the callback returns, never when an exception escapes. |
| SlowQueueConsumer.DecodedAckedOnce | rabbit_indexer/scripts/slow_queue_consumer.py:54-69 | The same for an already decoded message. |
| SlowQueueConsumer.UndecodableAcked | rabbit_indexer/scripts/slow_queue_consumer.py:45-51 | A non-JSON line with fewer than five ':' is acked, reaches no handler and raises nothing. |
| SlowQueueConsumer.Routing | rabbit_indexer/scripts/slow_queue_consumer.py:54-64 | With no failing handler: DEPOSIT and REMOVE reach the files handler, and then the directory handler when the path ends with 00README. MKDIR, RMDIR and SYMLINK reach only the directory handler. Other actions reach none. The ack comes last. |
| SlowQueueConsumer.FilesHandlerFailure | rabbit_indexer/scripts/slow_queue_consumer.py:54-69 | A failing files handler is followed only by the error log. The directory handler is not called, the exception is re-raised and the message is left unacked. |
| OpensearchQueueConsumer.Handle | rabbit_indexer/scripts/opensearch_queue_consumer.py:40-62 | The callback's effects equal its as-written outcome. That outcome includes the fall-through after the IndexError and filter acks. |
| OpensearchQueueConsumer.Callback | rabbit_indexer/scripts/opensearch_queue_consumer.py:28-62 | The callback's effects equal the as-written outcome for every body. |
| OpensearchQueueConsumer.RouteAcks | rabbit_indexer/scripts/opensearch_queue_consumer.py:52-62 | Routing acks exactly once when no handler fails and never when one does. Only DEPOSIT and REMOVE reach the files handler. |
| OpensearchQueueConsumer.OutOfProjectAckedTwice | rabbit_indexer/scripts/opensearch_queue_consumer.py:47-57 | As written, a DEPOSIT or REMOVE outside the /neodc project is acked, still reaches the files handler and is acked a second time, and nothing is raised. |
| OpensearchQueueConsumer.UndecodableAckedThenRaises | rabbit_indexer/scripts/opensearch_queue_consumer.py:40-48 | As written, a non-JSON line with fewer than five ':' is acked and then raises on the unbound `message`. |
| OpensearchQueueConsumer.DoubleAckExample | rabbit_indexer/scripts/opensearch_queue_consumer.py:40-57 | A JSON DEPOSIT of /badc/f.nc, which is outside the /neodc filter, reaches the files handler and is acked twice. |
| OpensearchQueueConsumer.IntendedAckedOnceUnlessRaised | rabbit_indexer/scripts/opensearch_queue_consumer.py:40-62 | With a `return` after each early ack, every body is acked exactly once unless an exception escapes. A message outside the project reaches no handler. |
| OpensearchTaggerConsumer.Handle | rabbit_indexer/scripts/opensearch_tagger_consumer.py:43-67 | The callback's effects equal its reference outcome. |
| OpensearchTaggerConsumer.Callback | rabbit_indexer/scripts/opensearch_tagger_consumer.py:31-67 | The callback's effects equal its reference outcome for every body. |
| OpensearchTaggerConsumer.AckedOnceUnlessRaised | rabbit_indexer/scripts/opensearch_tagger_consumer.py:43-67 | Acked exactly once when the callback returns, never when an exception escapes. |
| OpensearchTaggerConsumer.DecodedAckedOnce | rabbit_indexer/scripts/opensearch_tagger_consumer.py:52-67 | The same for an already decoded message. |
| OpensearchTaggerConsumer.ScannedIff | rabbit_indexer/scripts/opensearch_tagger_consumer.py:52-59 | The facet scanner is invoked exactly when the path is inside the project and the action is DEPOSIT or JSON_REFRESH. |
| LinePatterns.FindFromSound | rabbit_indexer/scripts/queue_consumer.py:34-39 | The forward scan from position i succeeds exactly when the tag occurs at some j >= i with no newline between i and j. |
| LinePatterns.MatchesIff | rabbit_indexer/scripts/queue_consumer.py:34-39 | The scanner decides exactly the `re.search` semantics of each pattern. The line must start with the date `\d{4}-\d{2}-\d{2}`, followed on the same line by the action tag. |
| LinePatterns.Classify | rabbit_indexer/scripts/queue_consumer.py:147-163 | The kind is the first pattern, in source order, that matches (DEPOSIT, then REMOVE, MKDIR, RMDIR, SYMLINK), or Unmatched when none does. A deposit carries the readme flag exactly when `00README:` also matches. |
| LinePatterns.RouteLine | rabbit_indexer/scripts/queue_consumer.py:145-163 | The effects appended are the routing of the classified kind. |
| LinePatterns.RouteCounts | rabbit_indexer/scripts/queue_consumer.py:147-163 | Routing never acks. A deposit calls the files handler, then the directory handler for a readme unless the files handler failed. A deletion calls the files handler. MKDIR, RMDIR and SYMLINK call the directory handler. An unmatched line calls nothing. |
| LinePatterns.FieldMatches | rabbit_indexer/scripts/queue_consumer.py:34-39 | A line made of a date prefix, then `:` + action + `:`, then anything, matches that action's pattern. |
| QueueConsumer.Callback | rabbit_indexer/scripts/queue_consumer.py:119-172 | The effects equal the callback's reference outcome. |
| QueueConsumer.ShortLineUnacked | rabbit_indexer/scripts/queue_consumer.py:134-141 | A line with fewer than four ':' raises IndexError before routing. It is never acked and reaches no handler. |
| QueueConsumer.AckedOnceUnlessRaised | rabbit_indexer/scripts/queue_consumer.py:145-172 | A line is acked exactly once unless an exception escapes. A well-formed but unmatched line is only acked. |
| ScriptQueueHandler.Callback | rabbit_indexer/scripts/queue_handler.py:119-171 | The effects equal the callback's reference outcome. |
| ScriptQueueHandler.FailureSwallowed | rabbit_indexer/scripts/queue_handler.py:145-171 | For a line with at least four ':' nothing escapes and at most one ack is scheduled. The ack is missing exactly when the last effect is the logged handler error. |
| ScriptQueueHandler.ShortLineRaises | rabbit_indexer/scripts/queue_handler.py:134-141 | A line with fewer than four ':' raises IndexError with no effect, so it is not acked. |
| QueueClearer.Reraise | rabbit_indexer/scripts/queue_clearer.py:49-57 | Exactly one publication is appended: the message's legacy colon-separated line, sent to the FBI exchange with an empty routing key. |
| QueueClearer.Handle | rabbit_indexer/scripts/queue_clearer.py:40-47 | The callback's effects equal its reference outcome. |
| QueueClearer.Callback | rabbit_indexer/scripts/queue_clearer.py:28-47 | The callback's effects equal its reference outcome for every body. |
| QueueClearer.RepublishIff | rabbit_indexer/scripts/queue_clearer.py:40-47 | A decoded message is republished exactly when its action is DEPOSIT, MKDIR, RMDIR or SYMLINK. It is acked exactly once, last, and no handler is called. |
| QueueClearer.DecodeErrorEscapes | rabbit_indexer/scripts/queue_clearer.py:40 | A body that fails to decode raises before any effect, so it is not acked. |
| QueueClearer.RepublishedLineDecodes | rabbit_indexer/scripts/queue_clearer.py:42-57 | The republished line decodes back to the very message that was consumed, when its fields are colon-safe. |
| LogListener.LabelsOfKind | queue_handler.py:76-92 | Each kind prints at most two labels. A readme label only follows a deposit label. No label is printed exactly for Unmatched. |
| LogListener.LabelsFollowPatterns | queue_handler.py:62-92 | A line with fewer than four ':' raises IndexError. Otherwise the printed labels follow the classification: at most two, a readme only after a deposit, and none exactly when unmatched. |
| ConsistencyChecker.CreateMessageDecodes | rabbit_indexer/scripts/consistency_checker.py:156-168 | The published line decodes to (time, path, upper-cased action, "", ""). Its fourth and fifth ':' fields are the path and the action. |
| ConsistencyChecker.AsWrittenQueryHitsSibling | rabbit_indexer/scripts/consistency_checker.py:177-207 | As written, the directory query also hits a sibling at the next depth whose name extends the item's name ("/badc/xy/a" for "/badc/x"). |
| ConsistencyChecker.QueryHitsChildren | rabbit_indexer/scripts/consistency_checker.py:177-207 | With a trailing separator, an entry is hit exactly when it starts with the item and "/" and its remainder holds no further "/". |
| ConsistencyChecker.ReadmesAreNamed | rabbit_indexer/scripts/consistency_checker.py:261-265 | The readme announcements cover exactly the listed paths whose basename is 00README. |
| ConsistencyChecker.EnumeratesMembers | rabbit_indexer/scripts/consistency_checker.py:227-233 | Iterating a set visits each member exactly once: no repeats, as many visits as members, and the same members. |
| ConsistencyChecker.ReconciliationPublishes | rabbit_indexer/scripts/consistency_checker.py:209-265 | Any reconciliation of a listing is made only of publications, one per path in the four differences plus one per readme, and is just the readmes when the listing and both indices agree. |
| ConsistencyChecker.ReconcileFacts | rabbit_indexer/scripts/consistency_checker.py:209-265 | Reconciling publishes DEPOSIT for files on disk but not indexed and REMOVE for indexed files gone from disk, then MKDIR and RMDIR likewise for directories, then the readmes. Everything it does is a publication. A directory already in sync publishes only its readmes. |
| ConsistencyChecker.NextSpotPersists | rabbit_indexer/scripts/consistency_checker.py:286-324 | After `get_next_spot` a spot file is loaded. The answer is parsed from the line at the new progress, and that progress is what the progress file holds. |
| ConsistencyChecker.NextSpotStep | rabbit_indexer/scripts/consistency_checker.py:298-322 | A blank next line is skipped. A full next line advances the cursor onto it. An empty read (end of file) rolls over to the fresh download. |
| ConsistencyChecker.NextSpotReadsNextLine | rabbit_indexer/scripts/consistency_checker.py:286-324 | The cursor stops at the first non-blank line after the current one, with its number persisted. At end of file the download is loaded and the cursor restarts at line 1, with "1" persisted. |
| ConsistencyChecker.RestartResumes | rabbit_indexer/scripts/consistency_checker.py:84-108 | The progress written by `update_spot_progress` is read back by `_get_spot_progress` as the same line number, so a restart resumes where it stopped. |
| ConsistencyChecker.Checker.constructor | rabbit_indexer/scripts/consistency_checker.py:37-62 | The checker starts with the given queues, the given progress and spot file, and no effects. |
| ConsistencyChecker.Checker.UpdateSpotProgress | rabbit_indexer/scripts/consistency_checker.py:100-108 | The progress moves to the next line, its decimal text is written to the progress file, and nothing else changes. |
| ConsistencyChecker.Checker.DownloadSpotConf | rabbit_indexer/scripts/consistency_checker.py:110-122 | The spot file is replaced by the download and the in-memory progress goes back to 0, unpersisted. Nothing else changes. |
| ConsistencyChecker.Checker.GetNextSpot | rabbit_indexer/scripts/consistency_checker.py:286-324 | The answer and the new cursor are those of the reference `NextSpot`, and the queues and effects are unchanged. |
| ConsistencyChecker.Checker.PublishMessage | rabbit_indexer/scripts/consistency_checker.py:170-175 | Exactly one publication of the body is appended, and nothing else changes. |
| ConsistencyChecker.Checker.PublishAll | rabbit_indexer/scripts/consistency_checker.py:227-233 | The visit order enumerates the set, each member once. One message per member is published in that order with the given action. |
| ConsistencyChecker.Checker.CompareCedaFbi | rabbit_indexer/scripts/consistency_checker.py:209-233 | DEPOSIT is published for each file on disk missing from the index, then REMOVE for each indexed file missing from disk, each exactly once, and nothing else. |
| ConsistencyChecker.Checker.CompareCedaDirs | rabbit_indexer/scripts/consistency_checker.py:235-265 | MKDIR is published for each directory missing from the index and RMDIR for each indexed directory missing from disk, then one README per 00README in the listing. The index's hits use the corrected query (see Findings and Left out). |
| ConsistencyChecker.Checker.PublishReadmes | rabbit_indexer/scripts/consistency_checker.py:261-265 | One README message is published per 00README in the listing, in listing order. |
| ConsistencyChecker.Checker.Reconcile | rabbit_indexer/scripts/consistency_checker.py:280-282 | Files and then directories are reconciled: what is published is one reconciliation of the listing (each of the four differences in some iteration order, then the readmes), all publications, and only the readmes for a directory in sync. Directory hits use the corrected query. |
| ConsistencyChecker.Checker.ProcessQueue | rabbit_indexer/scripts/consistency_checker.py:267-284 | The head of the chosen queue is removed and its listing reconciled. Exactly that reconciliation's messages are published, and only then is the entry acknowledged. A directory in sync publishes only its readmes. |
| ConsistencyChecker.Checker.AddDirsToQueue | rabbit_indexer/scripts/consistency_checker.py:326-337 | Every directory of the walk is appended to the bot queue, in walk order, and nothing else changes. |
| ConsistencyChecker.Checker.Consume | rabbit_indexer/scripts/consistency_checker.py:339-353 | The manual queue is served first, else the bot queue. The effects added are the served entry's reconciliation followed by its ack. When the bot queue was empty outside dev mode, the next spot is read and its walk becomes the bot queue; a bad spot line is reported as the failure. |
| MolesPaths.GenerateId | rabbit_indexer/utils/path_tools.py:141-149 | The hashed bytes are the UTF-8 encoding of the path: between one and four bytes per character. |
| MolesPaths.GenerateIdInputsDistinct | rabbit_indexer/utils/path_tools.py:149 | Different paths (strings of Unicode scalar values, without lone surrogates) hand different byte strings to the hash. |
| MolesPaths.TrimSlash | rabbit_indexer/utils/path_tools.py:81-82 | The result is the path itself, or the path minus one trailing '/'. |
| MolesPaths.Ancestors | rabbit_indexer/utils/path_tools.py:85-99 | The keys tried start at the path itself. There are none exactly when the path is all slashes (or empty). |
| MolesPaths.AncestorsArePrefixes | rabbit_indexer/utils/path_tools.py:85-99 | Every tried key is a prefix of the path and none is all slashes. |
| MolesPaths.AncestorsStepByDirname | rabbit_indexer/utils/path_tools.py:98-99 | Each key after the first is the dirname of the previous one. |
| MolesPaths.AncestorsEndAtRoot | rabbit_indexer/utils/path_tools.py:86-99 | The walk ends at a key whose dirname is all slashes. |
| MolesPaths.FirstHitIsLongest | rabbit_indexer/utils/path_tools.py:85-96 | A cached record is found exactly when some tried key is mapped to a non-null value, and the one returned belongs to the first, that is longest, such key. |
| MolesPaths.AsWrittenLoopSpins | rabbit_indexer/utils/path_tools.py:86-99 | As written, for "//data" the loop reaches "//". The guard lets "//" through, its dirname is itself, and it is unmapped, so the loop never ends. |
| MolesPaths.GuardsAgree | rabbit_indexer/utils/path_tools.py:86 | For paths not starting with "//", the all-slash stop and `test_path != '/' and test_path` accept the same keys and stop at the same place. |
| MolesPaths.DirMeta | rabbit_indexer/utils/path_tools.py:53-69 | The document holds depth (the count of '/'), dir (the basename), path, archive_path (the link target for a link) and link. MOLES title, url and record_type are added exactly when the record has a truthy title. It fails with a Python error exactly when such a record lacks url or record_type, or a truthy record is not a dict with a title. |
| MolesPaths.PathTools.constructor | rabbit_indexer/utils/path_tools.py:20-30 | The tools start with the given mapping, loaded once. |
| MolesPaths.PathTools.GetMolesRecordMetadata | rabbit_indexer/utils/path_tools.py:73-112 | The record and the new mapping are those of the reference `MolesRecord`: the longest mapped ancestor's record, or else the remote answer, cached under the path when it is a hit. The walk stops at any all-slash key. |
| MolesPaths.PathTools.GeneratePathMetadata | rabbit_indexer/utils/path_tools.py:33-71 | The result and the new mapping are those of the reference `GeneratedMetadata`: no document for a non-directory, else `DirMeta` of the looked-up record. |
| MolesPaths.PathTools.UpdateMapping | rabbit_indexer/utils/path_tools.py:127-139 | The result is true exactly when the download succeeded. The mapping is replaced by the download on success and kept on failure. Each call counts one load. |
| MolesPaths.RemoteHitCached | rabbit_indexer/utils/path_tools.py:103-112 | After a remote hit for a path with no mapped ancestor, the next lookup of the same path answers the cached record whatever the remote says. |
| MolesPaths.CachedHitIsLocal | rabbit_indexer/utils/path_tools.py:85-99 | A path with a mapped ancestor gets the same answer whatever the remote would say, and the mapping is unchanged. |
| UpdateHandlers.TimedeltaSeconds | rabbit_indexer/index_updaters/base.py:50 | `timedelta.seconds` always lies in [0, 86400). |
| UpdateHandlers.UpdateHandler.constructor | rabbit_indexer/index_updaters/base.py:24-37 | The refresh interval is the configured minutes times 60. The last refresh time is the creation time, with no effects yet. |
| UpdateHandlers.UpdateHandler.UpdateMappings | rabbit_indexer/index_updaters/base.py:44-61 | The new state is that of the reference `Refresh`, and no index call is made. The timer restarts at the clock read after the download (base.py:61), not at the reading that decided the refresh. |
| UpdateHandlers.UpdateHandler.WaitFor | rabbit_indexer/index_updaters/base.py:63-80 | The effects appended are the reference `WaitForFile`, and the refresh time is unchanged. |
| UpdateHandlers.UpdateHandler.WaitForPath | rabbit_indexer/utils/decorators.py:25-28 | The effects appended are the decorator's wait for a missing path. |
| UpdateHandlers.RefreshOnlyWhenDue | rabbit_indexer/index_updaters/base.py:50-61 | A load is attempted exactly when a refresh is due, and nothing changes otherwise. A successful load stamps the time read after the download and replaces the mapping. A failed one keeps both. |
| UpdateHandlers.FailedRefreshRetries | rabbit_indexer/index_updaters/base.py:57-61 | After a failed load the refresh is still due. |
| UpdateHandlers.SuccessfulRefreshHolds | rabbit_indexer/index_updaters/base.py:50-61 | After a successful load no refresh is due for the next interval seconds counted from the end of the download, for an interval under a day. |
| UpdateHandlers.ElapsedWrapsAtOneDay | rabbit_indexer/index_updaters/base.py:50 | Because `.seconds` drops whole days, one day and ten seconds after the last refresh nothing is refreshed for an interval of ten seconds or more. |
| UpdateHandlers.WaitForFileOnce | rabbit_indexer/index_updaters/base.py:73-80 | There is at most one wait, and one happens exactly when the message is under 300 s old and the path is missing. A message dated up to a day in the future never waits. |
| DirectoryUpdates.DirectoryUpdateHandler.constructor | rabbit_indexer/index_updaters/directory_updates.py:33-51 | The handler wraps the given base handler, fast or not. |
| DirectoryUpdates.DirectoryUpdateHandler.ProcessEvent | rabbit_indexer/index_updaters/directory_updates.py:53-76 | The new state, effects and failure are those of the reference `DirectoryEvent`. |
| DirectoryUpdates.DirectoryUpdateHandler.ProcessCreations | rabbit_indexer/index_updaters/directory_updates.py:78-99 | The new state, effects and failure are those of the reference `Creation`. |
| DirectoryUpdates.DirectoryUpdateHandler.GenerateAndIndex | rabbit_indexer/index_updaters/directory_updates.py:88-99 | The metadata is generated against the current mapping and indexed as the reference `CreationFrom` says. |
| DirectoryUpdates.DirectoryUpdateHandler.IndexCreated | rabbit_indexer/index_updaters/directory_updates.py:90-99 | Indexing the generated metadata is the reference `CreationFrom`. |
| DirectoryUpdates.DirectoryUpdateHandler.ProcessDeletions | rabbit_indexer/index_updaters/directory_updates.py:101-115 | The effects appended are the reference `Deletion`, and the state is unchanged. |
| DirectoryUpdates.DirectoryUpdateHandler.ProcessReadmes | rabbit_indexer/index_updaters/directory_updates.py:128-150 | The effects appended are the reference `ReadmeUpdate`, and the state is unchanged. |
| DirectoryUpdates.SymlinkIsCreation | rabbit_indexer/index_updaters/directory_updates.py:66-73 | A SYMLINK event has exactly the outcome of the same event as MKDIR. |
| DirectoryUpdates.CreationFromIndexesOnce | rabbit_indexer/index_updaters/directory_updates.py:88-99 | At most one index call is made: one `add_dirs` entry under the path's id. It is made exactly when metadata was produced (the fast handler also indexes its fallback). The outcome fails exactly when generating the metadata raised. |
| DirectoryUpdates.GeneratedMetadataShape | rabbit_indexer/utils/path_tools.py:39-40 | No document is generated exactly when the path is not a directory. |
| DirectoryUpdates.CreationIndexesOnce | rabbit_indexer/index_updaters/directory_updates.py:78-99 | At most one index call is made: one `add_dirs` entry under the path's id. The slow handler makes it exactly when the path is a directory and nothing failed. A failure indexes nothing. The fast handler (fast_directory_updates.py:30-61) makes it exactly when nothing failed. |
| DirectoryUpdates.DeletionRemovesCreatedId | rabbit_indexer/index_updaters/directory_updates.py:101-115 | A deletion sends exactly one `delete_dirs` call, with the id that creating the same path indexed. |
| DirectoryUpdates.ReadmeUpdatesItsDirectory | rabbit_indexer/index_updaters/directory_updates.py:128-150 | A readme with non-empty content makes one `update_readmes` call for its directory's id, carrying only the text. Without content it makes none. The state is unchanged and nothing fails. |
| DirectoryUpdates.OtherActionsOnlyRefresh | rabbit_indexer/index_updaters/directory_updates.py:60-76 | Every event first runs the mapping refresh. Any action other than MKDIR, RMDIR, SYMLINK and 00README makes no index call and cannot fail. |
| FastDirectoryUpdates.GenerateDocFromMessage | rabbit_indexer/index_updaters/fast_directory_updates.py:63-76 | The fallback document carries the path and, as dir, a '/'-free suffix of the path. |
| FastDirectoryUpdates.FallbackAgreesWithDirMeta | rabbit_indexer/index_updaters/fast_directory_updates.py:71-76 | The fallback's depth, dir and path equal those of the full metadata document. |
| FbsUpdates.SetInfo | rabbit_indexer/index_updaters/fbs_updates.py:108-115 | Setting a key in `doc['info']` succeeds exactly when info is a dict. A missing info raises KeyError and a non-dict raises TypeError. On success only that key of info changes, and the document's other keys are untouched. |
| FbsUpdates.CreateBodyInfo | rabbit_indexer/index_updaters/fbs_updates.py:103-117 | An empty builder result raises IndexError. Otherwise the body is the first document, with phenomena set when a second non-None item exists and spatial set when a third does. Every other key and info entry is kept. |
| FbsUpdates.CreateBodyOfSingle | rabbit_indexer/index_updaters/fbs_updates.py:103-117 | A one-document builder result is indexed unchanged. |
| FbsUpdates.FbsUpdateHandler.constructor | rabbit_indexer/index_updaters/fbs_updates.py:25-54 | The handler wraps the given base handler, fast or not. |
| FbsUpdates.FbsUpdateHandler.ProcessEvent | rabbit_indexer/index_updaters/fbs_updates.py:56-74 | The new state, effects and failure are those of the reference `FbsEvent`. A DELETE runs the corrected deletion (see Findings and Left out). |
| FbsUpdates.FbsUpdateHandler.ProcessDeposits | rabbit_indexer/index_updaters/fbs_updates.py:76-101 | The new state, effects and failure are those of the reference `Deposit`. |
| FbsUpdates.FbsUpdateHandler.ProcessMessageDeposit | rabbit_indexer/index_updaters/fast_fbs_updates.py:37-54 | The effects appended are the reference `FastDeposit`, and the state is unchanged. |
| FbsUpdates.FbsUpdateHandler.ProcessDeletions | rabbit_indexer/index_updaters/fbs_updates.py:119-129 | The effects appended are the reference `Deletion`, the corrected deletion of the path's own id, and the state is unchanged. |
| FbsUpdates.DepositIndexesOnce | rabbit_indexer/index_updaters/fbs_updates.py:76-101 | At most one `add_files` call is made, for the path's id. It is made exactly when a handler was found, it returned data and nothing failed. The body carries the spot name when the path has a spot, and otherwise keeps whatever spot_name the builder set. |
| FbsUpdates.FastDepositIndexesOnce | rabbit_indexer/index_updaters/fast_fbs_updates.py:37-54 | The fast deposit makes exactly one `add_files` call, for the path's id, with the document built from the message, and nothing else. |
| FbsUpdates.OnlyDepositAndDeleteIndex | rabbit_indexer/index_updaters/fbs_updates.py:56-74 | Only DEPOSIT and DELETE reach the index. Any other action, REMOVE included, only refreshes the mapping. The fast handler (fast_fbs_updates.py:22-35) does not even refresh. |
| FbsUpdates.AsWrittenDeletionIgnoresPath | rabbit_indexer/index_updaters/fbs_updates.py:125-129 | As written, the deletion list is the same for every path and never holds the path's id. |
| FbsUpdates.DeletionRemovesDepositedId | rabbit_indexer/index_updaters/fbs_updates.py:119-129 | The corrected deletion sends one `delete_files` call for exactly the id that depositing the same path indexed. |
| FastFbsUpdates.CreateDocFromMessage | rabbit_indexer/index_updaters/fast_fbs_updates.py:56-79 | name equals name_auto and is a '/'-free suffix of the path, and directory is a prefix of the path. type is either "File without extension." or a '.'-suffix of the name. size is the message's size and location is "on_disk". |
| FastFbsUpdates.DocumentCoversPath | rabbit_indexer/index_updaters/fast_fbs_updates.py:65-70 | The directory and the name cover the path with only '/' between them. The type is the name's extension whenever it has one. |
| YamlConfigs.YamlConfig.constructor | rabbit_indexer/utils/yaml_config.py:16-17 | No configuration is loaded at first. |
| YamlConfigs.YamlConfig.Read | rabbit_indexer/utils/yaml_config.py:19-21 | The loaded document becomes the configuration. |
| YamlConfigs.YamlConfig.Get | rabbit_indexer/utils/yaml_config.py:23-41 | The loop returns the reference `Lookup` of the keys. |
| YamlConfigs.DescendRaisesOnlyAttributeError | rabbit_indexer/utils/yaml_config.py:37-41 | Walking the keys can only raise AttributeError, on a level that is not a dict. |
| YamlConfigs.LookupErrors | rabbit_indexer/utils/yaml_config.py:31-34 | ValueError happens exactly when no config or an empty one is loaded. IndexError happens exactly when a loaded config is asked for no keys. |
| YamlConfigs.SingleKey | rabbit_indexer/utils/yaml_config.py:34-41 | One key reads the top level of a non-empty config with the default. |
| YamlConfigs.MissingIntermediateGivesDefault | rabbit_indexer/utils/yaml_config.py:37-41 | A missing intermediate key gives the default, whatever keys follow. |
| YamlConfigs.EarlyLastKeyShortCircuits | rabbit_indexer/utils/yaml_config.py:34-41 | An earlier copy of the last key answers the lookup, and later keys are never read. |
| YamlConfigs.LookupIsNestedGet | rabbit_indexer/utils/yaml_config.py:23-41 | When the last key does not occur earlier, `get` is the plain nested lookup of the key path. |
| PosixPath.Dirname | rabbit_indexer/utils/path_tools.py:99 | `os.path.dirname` is a prefix of the path. |
| PosixPath.DirnameOfSlashes | rabbit_indexer/utils/path_tools.py:99 | The dirname of an all-slash path is the path itself. |
| PosixPath.DirnameBasename | rabbit_indexer/index_updaters/fast_fbs_updates.py:65-66 | The path starts with its dirname, and only '/' lies between the dirname and the basename. |
| PosixPath.Extension | rabbit_indexer/index_updaters/fast_fbs_updates.py:67 | The extension is empty or a '/'-free suffix of the path starting with '.'. |
| PyStr.Strip | rabbit_indexer/queue_handler/queue_handler.py:66 | The result has no outer whitespace and is no longer than the input. |
| PyStr.SplitLength | rabbit_indexer/queue_handler/queue_handler.py:66 | Splitting on ':' gives one more piece than there are separators. |
| PyStr.JoinSplit | rabbit_indexer/queue_handler/queue_handler.py:66 | Joining the pieces of a split with ':' gives the string back. |
| PyStr.SplitJoin | rabbit_indexer/queue_handler/queue_handler.py:69 | Splitting a join of separator-free pieces gives the pieces back. |
| PyStr.Upper | rabbit_indexer/scripts/consistency_checker.py:168 | ASCII upper-casing as `str.upper` applies it to ASCII text: the length is kept, exactly the lower-case ASCII letters change, and ':' stays where it was. |
| PyStr.WordsAreWords | rabbit_indexer/scripts/consistency_checker.py:306 | Every word of `split()` is non-empty and whitespace-free. |
| Decimal.ParseIntToString | rabbit_indexer/scripts/consistency_checker.py:96-108 | `int(str(n))` is n for every natural n. |
| Utf8.EncodeInjective | rabbit_indexer/utils/path_tools.py:149 | Two strings with the same UTF-8 encoding are equal. |

## Left out

- Text and bytes: bodies are strings. `body.decode('utf-8')` is not modelled, and the result of `json.loads` is an input to the decoder (either "not JSON" or the parsed value).
- IngestMessages.FromJson: a JSON field that is not a string is rejected with TypeError, while the Python namedtuple would hold any value. Only string fields are modelled.
- LinePatterns: `\d` is read as the ASCII digits 0-9. Python's `re` also accepts other Unicode decimal digits.
- Logging, pika connection setup (`_connect`, `rabbit_connect`, the consumers' configuration reads), `main()` and argument parsing are not modelled. Log lines appear only as effects.
- The update handlers the consumers call are abstract: a handler either succeeds or raises, given as a set of failing handlers. The handlers themselves are modelled in their own modules.
- The scripts that call `process_event` with two arguments (`queue_consumer.py` and `queue_handler.py`) are modelled by whether that call raises.
- `_decode_message`, called at fbs_updates.py:63 and fast_fbs_updates.py:29, is not defined in the repository. The handlers are modelled from the decoded message on.
- SHA-1 is symbolic. A document id holds the UTF-8 bytes being hashed, so equal paths give equal ids and the injectivity of the hash itself is not claimed.
- The outside world is given as inputs. This covers `get_readme`, `os.listdir`, `os.walk`, `isfile`/`isdir`/`islink`/`exists`, `normpath`, the spot mapping's `get_archive_path` and `get_spot`, the MOLES HTTP responses, Elasticsearch scans (as sets of index entries), the clock (times are microseconds; `_update_mappings` reads it twice, before and after the download) and the downloaded spot file.
- A MOLES response whose `response.json()` raises is not modelled. A remote lookup either finds a record or does not.
- `_create_body` and the spot-name update mutate the builder's dicts in place and share them. The model builds new values, so aliasing between the builder's result and the indexed body is not captured.
- ConsistencyChecker: one timestamp is used per comparison, where `datetime.now().isoformat()` is called once per message.
- ConsistencyChecker.Checker.PublishAll: the iteration order of a Python set is not specified, so the model picks an order nondeterministically. The contract holds for every order.
- `get_line_in_file` is a 1-based lookup in the spot file's lines that returns "" past the end. The lines are given without their "\n", so an empty line inside the downloaded file would read as end of file; in the source every line before the end keeps its "\n" and never reads as "".
- ConsistencyChecker.Checker.constructor: it takes the progress already read from the progress file, rather than reading the file.
- ConsistencyChecker.Checker.ProcessQueue requires a non-empty manual queue, because `persistqueue`'s `get()` blocks on an empty queue and `consume` checks the size first.
- ConsistencyChecker.Checker.Consume: a ValueError from `get_next_spot` is returned as a failure rather than propagated as an exception.
- Decimal: `int()` is modelled on an optional sign followed by ASCII decimal digits, with surrounding whitespace removed by `Strip` first. Underscores and non-ASCII Unicode digits are not modelled.
- The checker's endless main loop (consistency_checker.py:355-383) is not modelled; `Consume` models one pass.
- These files are not part of this model:
  - facet_scanner_updates.py and opensearch_queue_handler.py;
  - checker_submit.py, check_directory.py and consumer_setup.py;
  - rabbit.py and setup.py;
  - the root-level prototypes directory_updates.py, fbs_updates.py and utils/path_tools.py.
  Only the root-level `queue_handler.py` log listener is modelled.
- Path resolution walks dirnames against a flat mapping. There is no inclusion filter.
- FbsUpdates.FbsUpdateHandler.ProcessDeletions runs the corrected deletion, which deletes `[IdItem(id)]`. As written, fbs_updates.py:125-127 sends `['id']` for every path; that form is kept as `AsWrittenDeletionList` and shown by `AsWrittenDeletionIgnoresPath`.
- ProcessEvent (FbsUpdates.FbsUpdateHandler.ProcessEvent) therefore sends the corrected deletion list on DELETE, not the source's `['id']`.
- ConsistencyChecker.Checker.CompareCedaDirs runs the corrected directory query, with prefix item + "/". As written, consistency_checker.py:185-192 uses the bare item, which also hits siblings whose names extend it; that form is kept as `AsWrittenGetQuery` and shown by `AsWrittenQueryHitsSibling`. ConsistencyChecker.Checker.Reconcile, ConsistencyChecker.Checker.ProcessQueue and ConsistencyChecker.Checker.Consume inherit the corrected query.
- ConsistencyChecker.Checker.ProcessQueue: `os.listdir(item)` is total in the model. In the source a missing or unreadable directory raises at consistency_checker.py:280, before anything is published, and the item is left unacknowledged; the model always reconciles and acknowledges.
- UpdateMapping (MolesPaths.PathTools.UpdateMapping): only the failures caught at path_tools.py:132-133 (Timeout, and ValueError from a bad JSON body) are modelled, as `FetchFailed`. Any other `requests` exception, such as a ConnectionError, escapes `update_mapping` in the source; the model has no such outcome.
- MolesPaths.PathTools.GetMolesRecordMetadata: only Timeout is caught at path_tools.py:104-106. A ConnectionError or other `requests` exception escapes in the source; the model's remote lookup always answers or times out.
- UpdateHandlers.WaitForFile: the message's time is given already parsed. A datetime string that `dateutil.parser.parse` rejects raises at base.py:73 in the source, and that failure is not modelled.
- GenerateIdInputsDistinct: a Dafny string holds Unicode scalar values only. A Python path holding a lone surrogate, which `encode(errors='ignore')` drops, can hash to the same id as a different path; such paths are not modelled.
- Upper (PyStr.Upper): only ASCII letters are upper-cased. Python's `str.upper` also upper-cases other cased letters and can change the length (for example 'ß' becomes "SS"). The action strings it is applied to are ASCII.
- JsonValue: JSON numbers are integers only. Floats are not modelled.

## Findings

| source | as written | input that shows it | evidently intended | confidence | as-written member | corrected member |
|---|---|---|---|---|---|---|
| rabbit_indexer/utils/path_tools.py:86-99 | The lookup loop stops only at "/" or "". | Path "//data" with "//" unmapped: dirname("//") is "//", so the loop never ends. | Stop at any all-slash path. | not executed | MolesPaths.AsWrittenLoopSpins | MolesPaths.PathTools.GetMolesRecordMetadata |
| rabbit_indexer/scripts/opensearch_queue_consumer.py:43-49 | There is no `return` after the ack for an undecodable line or for a path outside the filter. | A JSON DEPOSIT of /badc/f.nc is acked, routed to the files handler and acked again. An undecodable line is acked and then raises on the unbound `message`. | Return after each early ack. | not executed | OpensearchQueueConsumer.OutOfProjectAckedTwice | OpensearchQueueConsumer.IntendedAckedOnceUnlessRaised |
| rabbit_indexer/index_updaters/fbs_updates.py:125-127 | `list({'id': ...})` builds the list of the dict's keys. | Any DELETE: the deletion list is ['id'] whatever the path. | Delete the path's own id. | not executed | FbsUpdates.AsWrittenDeletionIgnoresPath | FbsUpdates.DeletionRemovesDepositedId |
| rabbit_indexer/scripts/consistency_checker.py:185-192 | The directory query's path prefix has no trailing '/'. | Item "/badc/x" while the index holds "/badc/xy/a" at depth 3: that entry counts as a child, so RMDIR is published for it. | Match children only, using the prefix item + "/". | not executed | ConsistencyChecker.AsWrittenQueryHitsSibling | ConsistencyChecker.QueryHitsChildren |
