# OpsRAG: proofs about its stateful cores

OpsRAG answers operations questions from indexed documents and live tools. This project models the parts of it that
keep state across requests and proves what they keep over whole runs. `dafny verify dfyconfig.toml` checks all of it.

- `RedisRateLimit`, `MemoryRateLimit`: request limiting by a fixed window shared through Redis and by a sliding window
  in process, and the login lockout. In the Redis limiter each command is a step, and steps of any number of requests
  interleave with the clock.
- `UsagePersistence`: the buffered sink of usage events, with overflow, swap, chunked writes on an autocommit
  connection, and requeue. Enqueues and database failures may come at any await.
- `Rollup`, `UsageTracker`: the in-memory usage counters, their seeding from a `GROUP BY` query, and the summary, every
  figure of which is a sum over the calls recorded.
- `EventTail`, `EventFraming`: the resumable stream of investigation events, as a cursor protocol over a ledger whose
  sequence numbers are taken before they are committed, and as text that may be cut at any character.
- `Moderation`: corrections submitted, approved and rejected by handlers that interleave between their awaits.
- `IndexingTracker`: progress per source and a bounded run history whose records are shared and updated in place.
- `AnswerQuality`, `CacheJudge`, `SemanticCache`, `CacheGates`, `CacheRuns`: the semantic answer cache, the guard against
  degenerate answers, the judge of borderline hits, and the gates around them over whole runs of turns, in which others
  act while a hit is before the judge.
- `ModelBundles`, `PurposeRouter`: cloud model bundles fill what is unset, in place, and clients are memoised.
- `Classifier`: cosine, the semantic router, and the gate before the one category that skips retrieval.
- `Json`, `Salvage`: recovery of a Prometheus matrix payload cut short, with a reader of JSON text as a character
  automaton.
- `Options`: optional values.

Where a component changes its fields in place there is a class whose methods are proved against functions or state
machines on values, and the results about whole runs are lemmas about those. `{:induction false}` stands on every lemma
to which Dafny would otherwise attach an induction hypothesis of its own. Some results say that a promise fails, with
a run that shows it, and give the exact condition under which it holds:

- The comment at `opsrag/agent/graph.py:1230-1232` says that live answers do not reach the cache. They do whenever any
  other answer would (`CacheRuns.WritesExactly`, `CacheRuns.SkippedTtl`), and are found by every later turn whose own
  category does not skip the cache and whose checks they pass (`CacheRuns.SkippedEntryFound`,
  `CacheRuns.SkippedAnswerServed`).
- The comment at `opsrag/agent/graph.py:1237-1239` says that answers with personal memories are never shared. They stay
  with a name (`CacheRuns.MemoriesStayWithName`), and with a person if and only if no two share a name with memories
  (`CacheRuns.MemoriesStayWithPerson`). The callers make up a name where they have none: `anonymous`
  (`opsrag/api/routes.py:63-75`) has no memories (`opsrag/agent/nodes/memory_saver.py:61`), but the ones at
  `opsrag/slack_bot/handler.py:344` and `opsrag/channels/dispatcher.py:299` do (`CacheRuns.PlaceholderShares`).
- An invalidated answer is not found again, but one that is before the judge at that moment is still served
  (`CacheRuns.ServedSound`, `CacheRuns.FoundStillCached`, `CacheRuns.RemovedYetServed`).
- The docstring of `judge_match` says that a FORENSIC hit at 0.925 is judged; it is not (`CacheJudge.ForensicNotAsked`),
  and a category's whole band is judged only if its floor is at least 0.93 (`CacheJudge.DocumentedBand`).
- `reject_correction` says that a rejected correction never reaches retrieval; an approval in flight can put it there
  (`Moderation.RejectedGoesLive`, `Moderation.RejectedYetLive`), and when a reply is true of its row is
  `Moderation.RepliesExact`.
- Different corrections can replace each other's chunk exactly where a user's name contains a bar in a certain place
  (`Moderation.SameChunkId`, `Moderation.CollidingNames`).
- A source can be shown as done while a run of its own is shown as running. It is so exactly when `repo_done` leaves a
  superseded run behind, or a backfill meets a queued entry whose run is not over
  (`IndexingTracker.DoneOverRunningExactly`, `IndexingTracker.DoneOverCurrentExactly`), and both happen
  (`IndexingTracker.DoneYetRunning`, `IndexingTracker.DoneYetSuperseded`). The runs that stay `running` for ever are those
  that a second `start_listing` superseded (`IndexingTracker.OrphansAreSuperseded`).
- The stream closes after an empty poll, and a row that commits between that poll and the status read is not sent
  (`EventTail.CloseCanMiss`); what is lacking then are exactly the rows that the last poll did not see, and the late ones
  (`EventTail.ClosedLacks`, `EventTail.ClosedLacksNewest`).
- The handler says that an approved correction is live; it is until its key is deleted or written by another one
  (`Moderation.ApprovedGoesLive`).
- A Redis bucket lets through more than its limit only if its counter is created twice, by a late INCR
  (`RedisRateLimit.AdmittedPerCreation`, `RedisRateLimit.AdmittedPerBucket`, `RedisRateLimit.LateIncrementExceedsLimit`).

The stream's docstring says that a network blip never drops events, and with the one runner that awaits each append this
holds (`EventTail.GapFree`); `EventTail.TwoWritersLose` shows that the store alone would not give it.

## Model

| member | source | states |
|---|---|---|
| `Json.LoadsPrint` | opsrag/api/routes.py:859-862 | Reading back the text of any well-formed value gives that value: the reader that `json.loads` stands for inverts the printer. |
| `Salvage.LastClose` | opsrag/api/routes.py:852-854 | The last position of `]}`, or -1: nothing later closes a series. |
| `Salvage.SalvageNeedsMatrix` | opsrag/api/routes.py:851-854 | Only a text that names itself a matrix and closes a series somewhere is salvaged. |
| `Salvage.SalvageIsCut` | opsrag/api/routes.py:841-862 | From any prefix of any JSON text, with or without the truncation marker, the result is nothing, or the same payload cut inside one array two objects deep. No value is altered. |
| `Salvage.ClosersNeedPath` | opsrag/api/routes.py:855-858 | The closers `]}}` complete a text only where exactly an array inside an object inside an object is open. |
| `Salvage.CutMarkerIsMarker` | opsrag/agent/nodes/multi_agent.py:407-414 | The suffix that truncation appends cannot be mistaken for the end of a series or of a value. |
| `Salvage.ChartSeesPrefix` | opsrag/api/routes.py:891-904 | The series the chart reads are a prefix of the payload's own series list. |
| `Salvage.SalvageRecovers` | opsrag/api/routes.py:841-862 | A payload whose first n series are complete, followed by anything in which no other closes, is recovered with exactly those n ... |
| `Salvage.TruncatedRecovers` | opsrag/api/routes.py:841-862 | ... and so is whatever truncation leaves of a printed payload, with its marker or without, if it reaches to the end of the n-th series and no other closes after it. |
| `RedisRateLimit.WindowOf` | opsrag/api/rate_limit_backend.py:197 | The window in whole seconds is at least 1 and otherwise the floor. |
| `RedisRateLimit.AdmittedPerCreation` | opsrag/api/rate_limit_backend.py:196-213 | In any interleaving at all a bucket lets through at most the sum, over the counters created for it, of the limit or the INCRs received, whichever is less; and exactly that once all have their answers ... |
| `RedisRateLimit.LetThroughWithin` | opsrag/api/rate_limit_backend.py:196-213 | ... so at most the limit each time its counter is created. |
| `RedisRateLimit.AdmittedPerBucket` | opsrag/api/rate_limit_backend.py:196-213 | If every INCR of a bucket lands inside it, at most `limit` of its requests are let through, by any number of replicas. |
| `RedisRateLimit.FirstComeFirstServed` | opsrag/api/rate_limit_backend.py:201-213 | They are the first `limit` to increment, and the k-th is told that limit - k remain. |
| `RedisRateLimit.AtMostTwiceTheLimit` | opsrag/api/rate_limit_backend.py:178-185 | No half-open interval of one window length, aligned or not, lets through more than twice the limit. |
| `RedisRateLimit.NoExpiryInBucket` | opsrag/api/rate_limit_backend.py:202-205 | A counter never expires inside its own bucket. |
| `RedisRateLimit.KeyLives` | opsrag/api/rate_limit_backend.py:201-205 | In every run a key expires a window after its creation, or later by as much as its EXPIRE was, and has no expiry if and only if the request that created it has still to send that. |
| `RedisRateLimit.ToldExpiry` | opsrag/api/rate_limit_backend.py:207-213 | In every run the decision compares the count of the INCR with the limit; a refused request is told to wait exactly until the counter expires, or a window if it does not, and one let through what remains. |
| `RedisRateLimit.GoneAtExpiry` | opsrag/api/rate_limit_backend.py:207-210 | Left alone a key is there until its expiry and gone from then on: a refused request that waits as told finds it gone, and a second before still there. |
| `RedisRateLimit.RetryLandsLater` | opsrag/api/rate_limit_backend.py:207-210 | Waiting the returned seconds after a refusal always lands in a later bucket. |
| `RedisRateLimit.LateIncrementExceedsLimit` | opsrag/api/rate_limit_backend.py:198-205 | Promptness is needed: an INCR that lands after its bucket's counter expired is let through beyond the limit. |
| `RedisRateLimit.RedisRateLimitBackend.Hit` | opsrag/api/rate_limit_backend.py:196-213 | A hit that nothing interrupts counts itself, arms the counter it creates, is let through up to the limit, and otherwise told the time to the expiry; and it is the protocol's steps one after the other. |
| `MemoryRateLimit.MemoryRateLimitBackend.Hit` | opsrag/api/rate_limit_backend.py:105-118 | The reply is the decision of the pruned log, and the stored list is the pruned one with this hit if it was let through; an exception exactly for an empty list under a limit below 1. |
| `MemoryRateLimit.MemoryRateLimitBackend.RecordLoginFailure` | opsrag/api/rate_limit_backend.py:120-137 | The failure counts into the open window or opens a new one; True exactly when the count has reached the maximum. |
| `MemoryRateLimit.MemoryRateLimitBackend.RecordLoginSuccess` | opsrag/api/rate_limit_backend.py:139-140 | A success forgets the key and nothing else. |
| `MemoryRateLimit.MemoryRateLimitBackend.LoginLocked` | opsrag/api/rate_limit_backend.py:142-145 | Locked exactly while `locked_until` lies ahead. |
| `MemoryRateLimit.MemoryRateLimitBackend.LoginRetryAfter` | opsrag/api/rate_limit_backend.py:147-152 | The whole seconds to wait, and 0 when not locked. |
| `MemoryRateLimit.BucketsByKey` | opsrag/api/rate_limit_backend.py:105-118 | Hits of other keys never touch a key's list. |
| `MemoryRateLimit.PrunedDecidesAsFull` | opsrag/api/rate_limit_backend.py:107-118 | Refinement: over any run with a nondecreasing clock the pruned list decides as a log that forgets nothing. |
| `MemoryRateLimit.ConsecutiveHitsSpanWindow` | opsrag/api/rate_limit_backend.py:105-118 | Any limit + 1 consecutive hits let through span at least the window. |
| `MemoryRateLimit.RefusedIffWindowFull` | opsrag/api/rate_limit_backend.py:109-118 | A hit is refused if and only if exactly `limit` hits let through lie in the window. |
| `MemoryRateLimit.RemainingIsLeft` | opsrag/api/rate_limit_backend.py:116-118 | A hit let through is told how much of the limit is left in its window, itself counted. |
| `MemoryRateLimit.RetryBounds` | opsrag/api/rate_limit_backend.py:112-114 | After a refusal with retry_after r and nothing let through since: at now + r or later a hit passes, before now + r - 1 it is refused. |
| `MemoryRateLimit.LockNeedsAttempts` | opsrag/api/rate_limit_backend.py:120-137 | A failure that locks is at least the max_attempts-th of consecutive failures since the last success, all within the window of the first. |
| `MemoryRateLimit.RecordExactly` | opsrag/api/rate_limit_backend.py:120-137 | In every run the record is decided by the failures since the last success: it counts the last group of them, a group ending with the first failure more than a window after its first. |
| `MemoryRateLimit.LockedExactly` | opsrag/api/rate_limit_backend.py:120-145 | In every run a key is locked at a time if and only if the last group of its failures has reached the maximum and the lockout time has not passed since the last of them. |
| `MemoryRateLimit.EnoughFailuresLock` | opsrag/api/rate_limit_backend.py:120-137 | Enough failures within one window, with no success among them, lock the key. |
| `MemoryRateLimit.LockLasts` | opsrag/api/rate_limit_backend.py:142-152 | Left alone a key is locked exactly until `locked_until`, and waiting the returned seconds unlocks it. |
| `MemoryRateLimit.GuardedLockHolds` | opsrag/auth/login.py:250-257 | If nothing is recorded while a key is locked, the key is locked at every instant from the locking failure to the end of the lockout time, and not afterwards until something else is recorded. |
| `MemoryRateLimit.FailureWhileLocked` | opsrag/api/rate_limit_backend.py:120-137 | A failure that races past the check keeps the key locked, renewed, except exactly when the counted window has passed and one attempt does not lock: then it unlocks. |
| `UsagePersistence.Conservation` | opsrag/usage_persistence.py:112-213 | In any interleaving of enqueues, flush steps and database failures each accepted event is in exactly one of buffer, batch, discharged and dropped, and the counts add up with `_dropped`. |
| `UsagePersistence.Delivery` | opsrag/usage_persistence.py:169-213 | Every discharged event is in the table; a row repeats only if a flush failed after committing it. |
| `UsagePersistence.OrderKept` | opsrag/usage_persistence.py:172-213 | The batch followed by the buffer is always in acceptance order, through overflow and requeue to the front. |
| `UsagePersistence.TableInOrder` | opsrag/usage_persistence.py:169-213 | While no failed flush left a row, between flushes table and buffer are the accepted events not dropped, in order and each once. |
| `UsagePersistence.OverflowDropsOldest` | opsrag/usage_persistence.py:132-151 | An overflow removes exactly the 5,000 events it counts: the oldest of the buffer, never of the batch in flight. |
| `UsagePersistence.BufferBounded` | opsrag/usage_persistence.py:132-151 | Without a requeue the buffer never exceeds 50,000. |
| `UsagePersistence.Recovers` | opsrag/usage_persistence.py:132-151 | A buffer left at n over the cap by a requeue is back within it after ceil((n - 50000) / 4999) enqueues, whatever else happens but a requeue ... |
| `UsagePersistence.RecoversExactly` | opsrag/usage_persistence.py:132-151 | ... and with no flush not before. |
| `UsagePersistence.UsagePersistence.Open` | opsrag/usage_persistence.py:85-94 | The sink accepts events from here on. |
| `UsagePersistence.UsagePersistence.Enqueue` | opsrag/usage_persistence.py:112-151 | One step of the state machine when open, nothing when not. |
| `UsagePersistence.UsagePersistence.WriteChunks` | opsrag/usage_persistence.py:185-205 | The chunk loop stops at the first await that raises, with the chunks before it committed, and the chunk itself too if the insert raised after its commit. |
| `UsagePersistence.UsagePersistence.Write` | opsrag/usage_persistence.py:181-205 | How many awaits a flush has, which of them raises, what is committed then, and what others enqueued meanwhile. |
| `UsagePersistence.UsagePersistence.FlushOnce` | opsrag/usage_persistence.py:169-213 | The whole new state of a flush in terms of the old: table, buffer, requeue and discharge, for a failure at any await, before or after the insert's commit. |
| `UsagePersistence.UsagePersistence.Close` | opsrag/usage_persistence.py:96-110 | A last flush; what it could not write stays behind in memory. |
| `Rollup.GroupsAddUp` | opsrag/usage_persistence.py:226-234 | The rows of the roll-up query add up to the events, for every selection of keys and in every column. |
| `Rollup.SumPermuted` | opsrag/usage.py:124-140 | A sum over calls does not depend on their order. |
| `UsageTracker.AddedSums` | opsrag/usage.py:124-140 | Each counter of the tracker is the sum of the calls it is for, and there is one exactly where there are calls. |
| `UsageTracker.CallCosts` | opsrag/usage.py:204-213 | A call costs so much a million tokens in and out, by the rates of its own model, and so much a call; nothing without a price. |
| `UsageTracker.PriceAdds` | opsrag/usage.py:204-213 | Prices add up. |
| `UsageTracker.OrderIrrelevant` | opsrag/usage.py:124-140 | The calls in any order leave the same counters. |
| `UsageTracker.SeedingIsRecording` | opsrag/usage_persistence.py:226-245 | Seeding a fresh tracker from the roll-up leaves it as if the events had been recorded one by one, in any order; a NULL purpose and an empty one included. |
| `UsageTracker.TotalsAreSlices` | opsrag/usage.py:124-192 | After every call each model's totals are the sums of its purpose slices. |
| `UsageTracker.ModelSums` | opsrag/usage.py:194-228 | Over the models, totals, slices and costs add up to those of the calls, each priced by itself. |
| `UsageTracker.PurposesSum` | opsrag/usage.py:203-224 | The figures of a purpose are the sums over its calls. |
| `UsageTracker.CategorySum` | opsrag/usage.py:235-242 | The costs of the purposes of a category add up to the price of its calls. |
| `UsageTracker.CategoriesPartition` | opsrag/usage.py:235-242 | Indexing cost and query cost together are the total cost. |
| `UsageTracker.CountCall` | opsrag/usage.py:127-140 | One call in its model's counters, field by field. |
| `UsageTracker.UsageTracker.Record` | opsrag/usage.py:91-146 | The call joins the history, under its purpose or `unknown`, and its session's totals. |
| `UsageTracker.UsageTracker.SeedHistorical` | opsrag/usage.py:163-192 | One aggregated row is added to its model and purpose. |
| `UsageTracker.SeedTracker` | opsrag/usage_persistence.py:215-245 | All rows of the roll-up join the history, if the store is open. |
| `UsageTracker.Totals` | opsrag/usage.py:194-200 | Sums over the models. |
| `UsageTracker.AddSlices` | opsrag/usage.py:204-224 | One model's slices are added to the figures of their purposes. |
| `UsageTracker.RollUp` | opsrag/usage.py:202-224 | Per purpose, sums over the models that have it, and no other purpose. |
| `UsageTracker.CategoryCost` | opsrag/usage.py:235-242 | The sum of the costs of one category. |
| `UsageTracker.UsageTracker.GetSummary` | opsrag/usage.py:194-277 | Every figure of the summary, those of each model and its purposes included, is the sum of what the calls it is for amount to, and there are figures for exactly the models and purposes that have calls. |
| `EventTail.Delivered` | opsrag/api/routes_investigations.py:173-205 | In any interleaving of appends, polls, losses and reconnects the client is handed a rising list, each row once: exactly the rows after `since` up to the last seen, but for those that committed below the cursor. |
| `EventTail.LateIsLost` | opsrag/api/routes_investigations.py:173-184 | A row that committed below what the client has seen is never delivered in any continuation. |
| `EventTail.GapFree` | opsrag/investigations/runner.py:1579-1586 | With one writer that awaits each append there is no gap. |
| `EventTail.TwoWritersLose` | opsrag/investigations/store.py:155-189 | The store alone would not give that: with two appends open at once a committed row can be passed over for good. |
| `EventTail.CloseIsComplete` | opsrag/api/routes_investigations.py:196-203 | When the server closes, everything its last poll could see has been sent, late rows aside. |
| `EventTail.ClosedIsTerminal` | opsrag/api/routes_investigations.py:199-204 | In every run a closed connection belongs to a terminated investigation, and one that timed out made its 60 polls. |
| `EventTail.ClosesWhenDone` | opsrag/api/routes_investigations.py:179-204 | A poll and the status read after it close the connection if and only if the poll was empty and the investigation has terminated; otherwise it polls on, up to 60 times. |
| `EventTail.ClosedLacks` | opsrag/api/routes_investigations.py:180-203 | What the client of a closed connection lacks, of the rows after `since`, are exactly the late rows and those that the last poll did not see. |
| `EventTail.ClosedLacksNewest` | opsrag/api/routes_investigations.py:180-203 | With one writer it lacks exactly those that committed after the last poll. |
| `EventTail.CloseCanMiss` | opsrag/api/routes_investigations.py:180-203 | A row that commits between the last poll and the status read is not sent before the close, even with one writer. |
| `EventTail.DrainsInPages` | opsrag/api/routes_investigations.py:179-184 | With no new rows a backlog of n is never sent before ceil(n / 200) polls, over any number of connections, and is sent after as many if no connection ends with frames on the wire. |
| `EventTail.ListEventsSince` | opsrag/investigations/store.py:191-212 | The page is ascending, after the cursor, at most 200 rows, and skips none. |
| `EventTail.Gen` | opsrag/api/routes_investigations.py:173-204 | Each page holds the first 200 rows after those yielded before; the close frame follows the first empty page of a terminated investigation, and without one there are 60 pages; the frames are the rows of all pages in order. |
| `EventTail.RoundsAre` | opsrag/api/routes_investigations.py:173-204 | So the generator is the server side of the protocol, state by state. |
| `EventFraming.RoundTrip` | opsrag/api/routes_investigations.py:186-203 | The event stream parser of the WHATWG HTML Standard, section 9.2, reads back exactly the frames sent, on the default channel, and the close by its name. |
| `EventFraming.FramesReadBack` | opsrag/api/routes_investigations.py:186-203 | One message comes out for each frame, in order: an event with its payload and its number as the last event id, the close by its name. |
| `EventFraming.CutBetweenFrames` | opsrag/api/routes_investigations.py:186-203 | Wherever the text is cut, the client has been handed the whole frames before the cut and no part of one. |
| `Moderation.ResolvedOnce` | opsrag/pending_corrections.py:124-146 | In every continuation a row keeps its content, and once it has left `pending` it never changes again. |
| `Moderation.OneChunkPerRow` | opsrag/correction_store.py:112-166 | However often and however concurrently a row is approved, it has one live chunk at most, with the row's key and body. |
| `Moderation.LiveSaysRow` | opsrag/correction_store.py:73-181 | In every run a live chunk opens with its row's question and closes with its answer, names both, the wrong answer, the user and the evidence, and has the key of question and user. |
| `Moderation.LiveIsWhole` | opsrag/correction_store.py:131-132 | Only a correction with a question and an answer is ever live. |
| `Moderation.RowsNameChunks` | opsrag/pending_corrections.py:124-146 | In every run an approved row names its chunk, and no other row names one. |
| `Moderation.SubmittedPending` | opsrag/pending_corrections.py:52-81 | A submitted correction is pending, and kept as it is up to 4000 and 8000 characters. |
| `Moderation.RaisedLeavesQueue` | opsrag/api/routes.py:1893-1912 | A handler that raises leaves the queue as it was, even if the chunk was written. |
| `Moderation.LiveWasRead` | opsrag/api/routes.py:1891-1912 | Every live chunk was written by an approval that had read its row as pending. |
| `Moderation.HeldIsWritten` | opsrag/correction_store.py:112-181 | In every run a key holds a row's chunk if and only if an approval wrote it there, and it has since been neither deleted nor overwritten with that of another row. |
| `Moderation.ApprovedGoesLive` | opsrag/api/routes.py:1891-1918 | An approved row's chunk was written by some approval, and is live if and only if nothing has deleted it or overwritten it with another row's since it was last written. |
| `Moderation.RepliesTrue` | opsrag/api/routes.py:1914-1939 | A finished handler's row has been resolved, and `rejected` is only said of a rejected row. |
| `Moderation.RepliesExact` | opsrag/api/routes.py:1877-1939 | In every run a reply is its row's status, then and for ever, if and only if: an approval's row was not rejected before it resolved; a rejection's row was pending then, or had not been when read; and always for a row found resolved. |
| `Moderation.RejectedGoesLive` | opsrag/api/routes.py:1877-1939 | A rejected row's chunk is live now or in some continuation if and only if it is live already or an approval that read the row before is still in flight. |
| `Moderation.RejectedYetLive` | opsrag/api/routes.py:1914-1918 | The approve handler ignores the result of `resolve`: a row can end rejected, its chunk live, and the approval report success. |
| `Moderation.LostRejection` | opsrag/api/routes.py:1931-1939 | A rejection that loses to an approval reports `pending` for a row that is approved. |
| `Moderation.SameChunkId` | opsrag/correction_store.py:73-82 | Two corrections share a chunk if and only if question and user agree up to case and outer blanks, or one user's name ends in a bar and the other's name, and what is before that bar continues the question. |
| `Moderation.SharedChunkId` | opsrag/correction_store.py:73-82 | So corrections of different users to different questions can share one. |
| `Moderation.CollidingNames` | opsrag/correction_store.py:73-82 | Questions for which two names collide exist if and only if the names are one, or one ends in a bar and the other. |
| `Moderation.PendingCorrectionStore.Submit` | opsrag/pending_corrections.py:52-81 | A new pending row with all its fields, question, answer and wrong answer truncated to 4000, 8000 and 8000 characters, under the next id. |
| `Moderation.PendingCorrectionStore.Get` | opsrag/pending_corrections.py:83-99 | The row, or nothing for an unknown id. |
| `Moderation.PendingCorrectionStore.Resolve` | opsrag/pending_corrections.py:124-146 | Only a pending row changes, True says that it did, and a status that is not terminal is refused. |
| `Moderation.CorrectionStore.StoreCorrection` | opsrag/correction_store.py:112-181 | The chunk and its metadata under the deterministic id, replacing an earlier one; an empty question or answer is refused. |
| `Moderation.CorrectionStore.DeleteCorrection` | opsrag/correction_store.py:230-246 | True exactly if the id is not empty and the store takes the deletion, and then the chunk is gone. |
| `Moderation.ApproveCorrection` | opsrag/api/routes.py:1877-1918 | An approval nothing overlaps: the complete new state of queue and retrieval in each case, and a truthful reply. |
| `Moderation.RejectCorrection` | opsrag/api/routes.py:1921-1939 | A rejection nothing overlaps resolves a pending row, never touches retrieval and replies truthfully. |
| `IndexingTracker.NewestIds` | opsrag/indexing_tracker.py:104-111 | The history is the newest min(200, created) runs with ids going down one by one. |
| `IndexingTracker.CurrentDistinct` | opsrag/indexing_tracker.py:152-170 | The current runs of different sources are different, and each is running. |
| `IndexingTracker.FinalisedOnce` | opsrag/indexing_tracker.py:204-224 | In every continuation a run that is over keeps its record: it is finalised at most once and never runs again. |
| `IndexingTracker.RunningIsCurrent` | opsrag/indexing_tracker.py:152-170 | A run shown as running is the current one of its source, or a later `start_listing` superseded it. |
| `IndexingTracker.OrphanedForEver` | opsrag/indexing_tracker.py:152-170 | A run shown as running that is not current is so for ever: no operation can close it. |
| `IndexingTracker.OrphansAreSuperseded` | opsrag/indexing_tracker.py:152-170 | In every run those runs are exactly the ones that a later `start_listing` of their source superseded. |
| `IndexingTracker.CountersAddUp` | opsrag/indexing_tracker.py:130-193 | Until a source is queued again or backfilled its counters only add up, over any number of listings and finished runs. |
| `IndexingTracker.ClosedSinceQueued` | opsrag/indexing_tracker.py:204-224 | So the record that closes a run counts everything since queueing, not since the run was opened. |
| `IndexingTracker.CurrentIsActive` | opsrag/indexing_tracker.py:226-274 | If no source is queued again in mid-run, a current run belongs to a source being listed or indexed, which backfill spares. |
| `IndexingTracker.ActiveExactly` | opsrag/indexing_tracker.py:130-274 | That holds throughout a run of the tracker if and only if no source is queued again while it has a current run. |
| `IndexingTracker.DoneYetRunning` | opsrag/indexing_tracker.py:226-274 | A source queued again in mid-run and then backfilled is shown as done over its current run. |
| `IndexingTracker.DoneYetSuperseded` | opsrag/indexing_tracker.py:152-202 | A source listed twice and then done, never queued again, is shown as done over the run that was superseded. |
| `IndexingTracker.DoneOverRunningExactly` | opsrag/indexing_tracker.py:130-274 | A source is at some time shown as done over a run of its own that is shown as running, if and only if a `repo_done` came when that run had been superseded, or a backfill when the entry was queued and the run not over. |
| `IndexingTracker.DoneOverCurrentExactly` | opsrag/indexing_tracker.py:226-274 | For the current run of a source that is: if and only if a backfill came when the entry was queued and there was one. |
| `IndexingTracker.BackfillSpares` | opsrag/indexing_tracker.py:226-252 | Backfill leaves a listing, indexing or failed entry as it is, and every run. |
| `IndexingTracker.BackfillFills` | opsrag/indexing_tracker.py:246-274 | A source without an entry, or with one that is queued or done, is filled in: done, with these files and chunks, and one more run, restored, with the same. |
| `IndexingTracker.QueueingStarts` | opsrag/indexing_tracker.py:130-150 | Queueing starts an entry from nothing, once only with `ensure_queued`, and touches no run. |
| `IndexingTracker.ListingOpens` | opsrag/indexing_tracker.py:152-170 | Listing opens a run with the source's name and label, which is its current one from then on. |
| `IndexingTracker.ProgressShows` | opsrag/indexing_tracker.py:172-193 | The other operations add to the counters, set the total or the label, and nothing else. |
| `IndexingTracker.FinishingCloses` | opsrag/indexing_tracker.py:195-224 | A source that ends says so, when and with what error, and so does the run that this closes or makes up, with its files and chunks. |
| `IndexingTracker.OthersUntouched` | opsrag/indexing_tracker.py:130-291 | An operation leaves other sources alone, and does nothing to one never queued, but for queueing and backfill. |
| `IndexingTracker.StatusFollows` | opsrag/indexing_tracker.py:130-291 | In every run the status of a source follows from the operations on it alone. |
| `IndexingTracker.IndexingTracker.QueueRepo` | opsrag/indexing_tracker.py:130-135 | A fresh entry; the run history is untouched. |
| `IndexingTracker.IndexingTracker.EnsureQueued` | opsrag/indexing_tracker.py:137-150 | A fresh entry only if there is none. |
| `IndexingTracker.IndexingTracker.StartListing` | opsrag/indexing_tracker.py:152-170 | A new run at the front of the ring, shared with the map of current runs. |
| `IndexingTracker.IndexingTracker.StartIndexing` | opsrag/indexing_tracker.py:172-177 | Status and total of a known source. |
| `IndexingTracker.IndexingTracker.FileIndexed` | opsrag/indexing_tracker.py:179-185 | One more file, and its chunks and entities. |
| `IndexingTracker.IndexingTracker.FileSkipped` | opsrag/indexing_tracker.py:187-193 | One more skipped file. |
| `IndexingTracker.IndexingTracker.FinalizeJob` | opsrag/indexing_tracker.py:204-224 | The current run is closed through the shared record, so the ring shows it; without one a closed run is added. |
| `IndexingTracker.IndexingTracker.RepoDone` | opsrag/indexing_tracker.py:195-202 | Entry done and its run closed as a success. |
| `IndexingTracker.IndexingTracker.RepoFailed` | opsrag/indexing_tracker.py:283-291 | Entry failed and its run closed with the error. |
| `IndexingTracker.IndexingTracker.BackfillDone` | opsrag/indexing_tracker.py:226-274 | A done entry and a restored run, unless the source is in flight or failed. |
| `IndexingTracker.IndexingTracker.SetDisplayName` | opsrag/indexing_tracker.py:276-281 | The label of a known source. |
| `IndexingTracker.IndexingTracker.AppendLeft` | opsrag/indexing_tracker.py:104 | The bounded deque drops the oldest record. |
| `IndexingTracker.IndexingTracker.GetJobs` | opsrag/indexing_tracker.py:333-347 | The newest 200 runs, newest first, with their durations and the numbers of running and failed ones among them. |
| `AnswerQuality.IsDegenerateAnswer` | opsrag/qa_cache.py:321-344 | True exactly for a text that is too short, has too few letters, is nearly blank, has at most three characters, or is mostly one that is not blank; looking at one most common character is enough. |
| `AnswerQuality.MostCommon` | opsrag/qa_cache.py:337-343 | A character no other outnumbers, with its count. |
| `AnswerQuality.OneCharacter` | opsrag/qa_cache.py:311-320 | A text of one repeated character is degenerate, however long. |
| `AnswerQuality.WorthCaching` | opsrag/qa_cache.py:321-344 | An answer passes if and only if it has 40 characters, 25 letters, one character in twenty that is not blank, four different ones, and none but a blank in more than seven tenths of the places. |
| `SemanticCache.QAVectorCache.EnsureCollection` | opsrag/qa_cache.py:405-426 | The collection exists, unless it vanished unnoticed. |
| `SemanticCache.QAVectorCache.QueryTop` | opsrag/qa_cache.py:461-477 | A best point among those shared or the user's own. |
| `SemanticCache.QAVectorCache.Lookup` | opsrag/qa_cache.py:428-542 | The best visible point if it passes every check, marked stale exactly when past its time; else nothing. |
| `SemanticCache.QAVectorCache.Store` | opsrag/qa_cache.py:544-647 | What is stored and under which id, on the retry path too; degenerate and empty answers leave the collection alone. |
| `SemanticCache.QAVectorCache.InvalidateRepo` | opsrag/qa_cache.py:649-680 | Exactly the entries with the repository go. |
| `SemanticCache.QAVectorCache.Purge` | opsrag/qa_cache.py:682-744 | Exactly the entries all filters select go; without a filter none. |
| `SemanticCache.QAVectorCache.PurgeAll` | opsrag/qa_cache.py:703-712 | The collection is empty again. |
| `SemanticCache.QAVectorCache.FlagLowQuality` | opsrag/qa_cache.py:746-757 | The entry under the id without a scope is flagged, no other. |
| `CacheJudge.DocumentedBand` | opsrag/qa_cache_judge.py:182-189 | The model is asked throughout the documented band, from the category's own floor, if and only if the band is empty, or the judge is on and bound, the texts are there and differ, and the floor is at least 0.93. |
| `CacheJudge.ForensicNotAsked` | opsrag/qa_cache_judge.py:182-189 | At the documented input, a FORENSIC hit at 0.925, the model is never asked. |
| `CacheJudge.RefusedExactly` | opsrag/qa_cache_judge.py:205-256 | A hit is refused if and only if the judge is on and bound, the texts differ, the score lies in the band, and the model says `different` or fails while failing closed; the environment wins over the settings. |
| `CacheJudge.QaCacheJudge.Configure` | opsrag/qa_cache_judge.py:79-94 | Only the settings given change. |
| `CacheJudge.QaCacheJudge.JudgeMatch` | opsrag/qa_cache_judge.py:172-256 | Asked exactly for a different text in the band; refused exactly on `different` or on a failure while failing closed; each call counted once. |
| `CacheRuns.ServedSound` | opsrag/agent/graph.py:922-1002 | In every run a served answer was found by an earlier look of its turn, and at that look had been written by an earlier turn without image, tool path or a failed grounding check, and since then not replaced, flagged, invalidated, purged or emptied; it was shared or the user's own, over the floor, equal in discriminators, not degenerate, and in time or marked stale. |
| `CacheRuns.FoundExactly` | opsrag/agent/graph.py:922-954 | In every run a look finds something if and only if the turn may use the cache, nothing breaks, and the best point its user may see is over the floor, not flagged, equal in discriminators, in time or not too stale, and not degenerate; otherwise the turn goes on to answer. |
| `CacheRuns.FoundIsNearest` | opsrag/qa_cache.py:461-477 | Nothing that the user may see is nearer than what is found. |
| `CacheRuns.JudgedExactly` | opsrag/agent/graph.py:955-1002 | A hit is served unless the gate breaks or the judge refuses it, a stale one starts a revalidation, and a turn that is not served goes on to answer. |
| `CacheRuns.FoundStillCached` | opsrag/agent/graph.py:951-970 | While a hit is before the judge it is in the cache if and only if nothing since the look removed or flagged it, or an equal entry was written again since. |
| `CacheRuns.RemovedYetServed` | opsrag/agent/graph.py:951-970 | An invalidation during the judge's await does not stop the hit: there is a run that serves what is gone. |
| `CacheRuns.NeverServed` | opsrag/agent/graph.py:926-938 | No image turn, no skipped query and no LIVE or CASUAL turn is served. |
| `CacheRuns.JudgedHits` | opsrag/agent/graph.py:957-968 | A served hit is at or over the category's floor, and if the judge was asked about it, it was neither refused nor served on a failure unless failing open. |
| `CacheRuns.RevalidationsEnd` | opsrag/agent/graph.py:812-853 | Every stale answer starts one revalidation, and a revalidation is never served stale, so it starts none. |
| `CacheRuns.TwoTurns` | opsrag/agent/graph.py:922-1252 | After one turn has taught an empty cache, a second is served its answer if and only if it may ask, may see the entry and finds it acceptable, and the judge agrees. |
| `CacheRuns.AnswerWrites` | opsrag/agent/graph.py:1212-1253 | In every run an answer is written if and only if the turn has an embedding and no image and the answer is there, not degenerate, not ungrounded and not off the tool path; and what is written is what was asked and answered, as of now, for the category's time, private exactly if memories went into it. |
| `CacheRuns.WritesExactly` | opsrag/agent/graph.py:1212-1253 | The writes in the log of a run are exactly the answers that passed the gate, each where the log then ended ... |
| `CacheRuns.SkippedTtl` | opsrag/qa_cache.py:610 | ... and those of LIVE and CASUAL turns have the default time to live. |
| `CacheRuns.SkippedEntryFound` | opsrag/agent/graph.py:1217-1236 | In every run what a LIVE or CASUAL turn wrote is found by a later look whose best visible point it is, if and only if that turn does not itself skip the cache and the entry passes its checks. |
| `CacheRuns.SkippedAnswerServed` | opsrag/agent/graph.py:1217-1236 | Such runs exist: a LIVE or CASUAL answer is served to the same question if and only if that is classified otherwise later, meets that category's floor, and is in time. |
| `CacheRuns.MemoriesStayWithName` | opsrag/agent/graph.py:1237-1240 | An entry is private to a user's name if and only if memories went into it, and then only that name is served it. |
| `CacheRuns.MemoriesStayWithPerson` | opsrag/agent/graph.py:1237-1240 | Answers made from a person's memories reach no other person in any run if and only if no two persons share a name under which memories are kept. |
| `CacheRuns.PlaceholderShares` | opsrag/slack_bot/handler.py:338-346 | Where ids tell persons apart, that holds if and only if the placeholder for unresolved ones has no memories or at most one person goes by it. |
| `CacheRuns.LeakRun` | opsrag/agent/graph.py:1237-1240 | For any two persons under one such name, a run that serves one what was made from the memories of the other. |
| `CacheRuns.FlagMissesScoped` | opsrag/qa_cache.py:746-757 | A thumbs-down never reaches an answer kept under a user's own id. |
| `CacheGates.LookupGate` | opsrag/agent/graph.py:924-954 | What the look finds: the best visible point if it passes every check, and nothing on a turn that skips the cache. |
| `CacheGates.JudgeGate` | opsrag/agent/graph.py:955-970 | What was found is served exactly if the judge allows it. |
| `CacheGates.StoreGate` | opsrag/agent/graph.py:1212-1253 | Exactly the turns that pass the gate are written, with their category's TTL and scope. |
| `ModelBundles.Idempotent` | opsrag/model_bundles.py:173-248 | Resolving twice is resolving once, for every bundle table. |
| `ModelBundles.KeepsWhatIsSet` | opsrag/model_bundles.py:173-187 | A slot away from its default, a set field of a purpose, a set dimension and a set pro model are never changed. |
| `ModelBundles.TakesWhatIsUnset` | opsrag/model_bundles.py:192-212 | What is unset is taken from the bundle, provider, model and effort each by itself, unless the operator moved the llm slot to another provider, and nothing else changes. |
| `ModelBundles.TakesSlots` | opsrag/model_bundles.py:214-248 | The llm, embedding and reranker slots take the bundle's reason, embed and rerank models if at their defaults, a dimension and a pro model are taken if unset, and without a known cloud nothing changes. |
| `ModelBundles.NoSplitBrain` | opsrag/model_bundles.py:196-212 | After resolution the LLM purposes are on `llm.provider` if and only if those are that the operator set and, unless the operator moved the slot, those of the bundle left to it. |
| `ModelBundles.ShippedTogether` | opsrag/model_bundles.py:46-105 | The shipped tables keep them there wherever the operator sets no provider for a purpose. |
| `ModelBundles.FillsAll` | opsrag/model_bundles.py:173-248 | With nothing set the bundle is taken whole. |
| `ModelBundles.Settings.ResolveCloudBundle` | opsrag/model_bundles.py:173-248 | In place, the whole new settings in terms of the old. |
| `ModelBundles.FillPurposes` | opsrag/model_bundles.py:192-212 | The loop fills each purpose the guard lets it, field by field. |
| `ModelBundles.FillSlot` | opsrag/model_bundles.py:214-245 | A slot at its default takes what the spec has, any other stays. |
| `PurposeRouter.TargetsTogether` | opsrag/model_router.py:130-142 | If the LLM purposes are on the slot's provider, so is every target, inherited ones included. |
| `PurposeRouter.TargetExactly` | opsrag/model_router.py:130-142 | A purpose goes where its own spec says if that names provider and model, a cheap one without a spec where tool_call does, and otherwise to the classic slot. |
| `PurposeRouter.ShippedRoutes` | opsrag/model_bundles.py:46-105 | With a shipped bundle and nothing set, each purpose goes to the named model. |
| `PurposeRouter.ShippedTargets` | opsrag/model_router.py:130-142 | With a shipped bundle, and no provider set for a purpose, none is built from another provider than the llm slot's. |
| `PurposeRouter.PurposeRouter.constructor` | opsrag/model_router.py:104-128 | The default client is seeded under its target, and every LLM purpose is resolved once. |
| `PurposeRouter.MakeRouter` | opsrag/model_router.py:104-128 | With or without a client to start from: the given one, or a new one for the llm slot, or an exception exactly where that provider is not available. |
| `PurposeRouter.PurposeRouter.Pick` | opsrag/model_router.py:144-162 | A known client again, or a new one for the target; None where the provider is not available. |
| `PurposeRouter.PurposeRouter.PickAll` | opsrag/model_router.py:144-162 | Over any sequence of picks one object per target, and the default client where nothing resolves. |
| `Classifier.CauchySchwarz` | opsrag/agent/classifier.py:503-511 | dot(a, b) squared is at most dot(a, a) times dot(b, b), also for unequal lengths. |
| `Classifier.CosineBounded` | opsrag/agent/classifier.py:503-511 | Every cosine lies in [-1, 1]. |
| `Classifier.CosineSymmetric` | opsrag/agent/classifier.py:503-511 | It is symmetric, and 1 between a nonzero vector and itself. |
| `Classifier.DotIsSum` | opsrag/agent/classifier.py:503-511 | The dot product is the sum of the products of the coordinates that both vectors have. |
| `Classifier.CosineIsQuotient` | opsrag/agent/classifier.py:503-511 | The cosine times both lengths is the dot product, and it is 0 where a vector is zero or missing. |
| `Classifier.BestCosine` | opsrag/agent/classifier.py:556-560 | The largest cosine with an anchor. |
| `Classifier.SortedTop` | opsrag/agent/classifier.py:562-566 | The sorted scores begin with the first global maximum and then the best of the rest. |
| `Classifier.SemanticRouter.Fit` | opsrag/agent/classifier.py:529-545 | Anchors are embedded once; examples that fail are left out. |
| `Classifier.EmbeddedKeeps` | opsrag/agent/classifier.py:529-545 | Exactly the examples that can be embedded are kept, each once. |
| `Classifier.SemanticRouter.Classify` | opsrag/agent/classifier.py:547-569 | The category of the anchor nearest of all, the best score of the rest, or an abstention below 0.55; both scores in [-1, 1]. |
| `Classifier.ClassifyQuery` | opsrag/agent/classifier.py:623-706 | The category and the layer in every case, signal by signal and threshold by threshold; CASUAL if and only if its gate is met. |

## Left out

- Qdrant, Postgres and Redis clients, pools and schemas: they are maps, sequences and counters here, and writes take
  effect at once.
- Task cancellation: `_flush_once` does not requeue on it, and `close` may cancel a flush after five seconds.
- The Redis login counter and lockout keys. They expire by themselves, and a lock deletes the failure counter, where the
  in-process record keeps its count.
- Regular expressions, normalisation of questions, discriminator tokens, embeddings and model replies: parameters.
- Hashing: sha256 and uuid5 are taken to be injective on their input strings, though correction ids keep only 64 bits.
- Rounding and display: costs, averages and percentages are exact or left out; ratios and scores are compared as reals.
- JSON: the reader takes any run of characters without blanks, brackets, commas, colons, quotes and backslashes as a
  scalar, and does not decode escapes, so it reads more texts than `json.loads`; what it salvages therefore covers what
  `json.loads` would.
- MemoryRateLimit.MemoryRateLimitBackend.RecordLoginFailure: attempt records are values in the map, not shared objects.
- UsageTracker.UsageTracker.Record: model and purpose usages are values in the map; the persistence hook, its
  swallowed errors and the time stamps are not there.
- UsageTracker.UsageTracker.SeedHistorical: the history is not extended by a direct call, only by `SeedTracker`.
- UsageTracker.UsageTracker.GetSummary: the uptime is not there, and an average latency is given as its total and the
  number of calls.
- IndexingTracker.IndexingTracker.GetJobs: entries per source are values in the map, unlike the run records; durations
  are not rounded, and the per-source summary is not there.
- ModelBundles.Settings.ResolveCloudBundle: specs are values, so the deep copy that keeps settings from sharing the
  table is not visible.
- SemanticCache.QAVectorCache.Store: the fields of the payload that no check reads (sources, their text and URLs, the
  question hash) are not there.
- Moderation.CorrectionStore.StoreCorrection: vectors, and who approved the chunk and when, are not there; `origin`
  stands for the row it was made from.
- RedisRateLimit.AdmittedPerBucket: assumes that each INCR lands in the bucket computed for it, without which it fails
  (`RedisRateLimit.LateIncrementExceedsLimit`); what holds in any case is `RedisRateLimit.AdmittedPerCreation`.
- UsagePersistence.UsagePersistence.Close: the wait for the drain loop and its timeout are not there.
- The streaming twin of the query path (`opsrag/agent/graph.py:1375-1460` and `1665-1705`) has the same gates and no model
  of its own.
- The loops that build router examples, list recent corrections and drive periodic flushes.
- The agent graph, tools, ingestion, MCP, Slack, authentication, configuration and health endpoints.
