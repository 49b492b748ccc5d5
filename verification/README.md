# NookClaw, modelled and proved

A Dafny model of the algorithms and protocols inside NookClaw (a Go agent runtime) whose correctness does
not show in any one function: the message splitter, the crash-safe session store and its migration, the
history sanitiser and the two provider loops, the cron service, the prompt cache, BM25 search, the
similarity cache, the engine cache, provider cooldown and fallback, and session keys.

Code that works by changing things is modelled by methods and classes that change things; each is proved
equal to a specification function or state-machine step, and the properties are proved of that. What those
functions give is also stated without them: in terms of the text, the names, the counts or the run. Protocols
with crashes or concurrency are state machines, and their theorems are about every run.
`dafny verify dfyconfig.toml` checks everything.

| file | what it models |
|---|---|
| `Splitter.dfy` | `SplitMessage`: conservation, length, fence balance, termination |
| `SplitRule.dfy` | where it cuts, told from the text alone |
| `Chat.dfy`, `Options.dfy`, `Text.dfy` | messages; values that may be missing; trimming white space |
| `SessionStore.dfy` | the JSONL log with its skip offset as file writes; crashes; the plain in-memory list |
| `Migration.dfy` | importing older snapshots, stopped at any write and restarted |
| `SessionFiles.dfy` | the classes that make those writes |
| `Sanitizer.dfy` | the two passes, as a projection onto well-formed histories |
| `AgentLoop.dfy`, `Requests.dfy` | requests, rounds of parallel tool calls, retries, compression; what each request says |
| `Cron.dfy`, `CronSchedule.dfy`, `CronSpacing.dfy`, `CronService.dfy` | the scheduler as a state machine; what each job is set for; how far apart it starts a job; the service object as its steps |
| `PromptCache.dfy` | invalidation by existence and modification time |
| `TopK.dfy`, `Bm25.dfy`, `Ranking.dfy` | bounded heap selection; inverted index; what raises a document in the list |
| `SearchCache.dfy` | trigrams, Jaccard similarity, least-recently-used eviction |
| `Registry.dfy`, `EngineCache.dfy` | registry versions; the engine cache under concurrent calls |
| `Cooldown.dfy`, `Fallback.dfy` | backoff over whole histories; the fallback chain |
| `SessionKey.dfy` | building and parsing session keys |
| `KeyIsolation.dfy` | which conversations share a session key |

## What the code does not do

Where code and comments, or code and expectation, disagree, the model follows the code:

- The splitter does not end on every text. Where fences are first on their lines, it ends exactly if no turn of
  the run stands at a long block whose header line has the limit less 6 runes or more
  (`Splitter.EndsIffNeverBlocked`); at such a block it emits chunks for ever (`Splitter.NeverFinishes`). For a
  text that opens with a long block and whose later header lines are all shorter than that, the opening line
  alone decides (`Splitter.OpeningLineDecides`).
- Its blocks are proved balanced where fences are first on their lines, indented or not, and the limit is 10 or
  more. With fences behind other text they can fail to be: `Splitter.TornFence` and `Splitter.OpenCut` give a
  text for each way. `Splitter.SmallLimit` gives one for a limit of 8.
- "The next Compact corrects" an interrupted one (pkg/memory/jsonl.go:419-421) does not hold, since the
  offset is 0 by then (`SessionStore.CompactDoesNotRepairCompact`). Truncating repairs it, exactly when it
  keeps no more messages than the history has (`SessionStore.TruncateRepairsCompact`).
- The in-memory manager ignores a history or summary set before the first message, and the JSONL store does
  not; and keys such as "a:b" and "a_b" share a file (`SessionStore.ColonSharesFile`). The two stores agree
  exactly when the one never happens, and no message is added to a key of the other kind
  (`SessionStore.StoreRefinesList`).
- Restarting the cron service while a loop still works through its due list lets a job start twice at the
  same time (`CronSpacing.RestartBreaksSpacing`). Each loop by itself always keeps the period
  (`CronSpacing.LoopsKeepPeriods`); `CronSpacing.SpacedUntilCheck` says exactly when the service does.
- One-shot jobs run at most once, not at least once: one that a loop had collected when the process died is off
  the saved schedule, and never runs (`Cron.LostForGood`).
- A cached prompt can outlive a file that was written while it was built and deleted afterwards
  (`PromptCache.FileVanishes`), and nothing else (`PromptCache.CachedIsFresh`).
- Different conversations can share a session key. One with a peer on a channel does so exactly if the part of
  its key behind the agent can be taken apart at other colons than it was put together with
  (`KeyIsolation.SharesKey`). Channels such as "a:b" do (`KeyIsolation.ChannelsCollide`), "a: b" does not
  (`KeyIsolation.SpaceProtects`), and nothing without colons does (`KeyIsolation.ColonFreeIsolates`).
- Any two queries of fewer than three bytes have similarity 1 (`SearchCache.ShortQueriesCoincide`).
- Agent IDs need not have the documented form, and normalising twice can differ from normalising once; both
  are characterised (`SessionKey.NormalForm`, `SessionKey.NormalizeTwice`). The main session key does
  normalise twice (`SessionKey.ParseBuilt`).

## Model

| member | source | states |
|---|---|---|
| Splitter.Conservation | pkg/channels/split.go:32-137 | after any number of turns, the visible runes of chunks and rest are the input's, with exactly a fence and a header inserted at each cut inside a block |
| Splitter.RemoveUndoesInsert | pkg/channels/split.go:91-96 | taking the logged insertions out again gives back the text |
| Splitter.ChunksFit | pkg/channels/split.go:32-37 | no turn on any text, terminating or not, emits a chunk longer than the limit |
| Splitter.BetterCut | pkg/channels/split.go:82-90 | the second newline search finds nothing or lands at or after the first cut |
| Splitter.PlainEven | pkg/channels/split.go:101-112 | a chunk cut off as it stands holds an even number of fences and tears none, with fences first on their lines |
| Splitter.ReopenOdd | pkg/channels/split.go:79-98 | before a cut inside a block stands an odd number of fences, so the injected one closes it |
| Splitter.Balanced | pkg/channels/split.go:53-125 | with fences first on their lines, indented or not, every chunk but the last closes all its blocks, and what is left has the parity of the input, across all rewrites |
| Splitter.TornFence | pkg/channels/split.go:50-52 | a text with a fence inside a line that a cut tears, so that no chunk shows the open block |
| Splitter.OpenCut | pkg/channels/split.go:101-107 | and one that is cut inside an earlier block, which the chunk leaves open |
| Splitter.SmallLimit | pkg/channels/split.go:100-121 | a text with its fence at the beginning of a line whose first chunk, at limit 8, is cut inside the fence and stays open |
| Splitter.StepShrinks | pkg/channels/split.go:113-120 | if every header line is shorter than the limit less 6, each turn leaves strictly less text, rewriting turns included, and keeps that condition |
| Splitter.Terminates | pkg/channels/split.go:32-137 | hence the loop ends |
| Splitter.NeverFinishes | pkg/channels/split.go:109-120 | a longer opening line keeps the loop at its first block for ever |
| Splitter.OpeningLineDecides | pkg/channels/split.go:109-120 | for texts that open with a long block and whose later header lines fit, termination if and only if the opening line is short enough |
| Splitter.EndsIffNeverBlocked | pkg/channels/split.go:32-137 | with fences first on their lines and a limit of 10 or more, the loop ends if and only if no state of its run stands at a block that no fence closes within the limit, with a header line of limit - 6 runes or more |
| Splitter.FinishedRunDelivers | pkg/channels/split.go:7-13 | what a finished split guarantees: length, conservation both ways, balance |
| Splitter.FindLastInRange | pkg/channels/split.go:188-208 | the last newline or blank in the window, or start - 1 |
| Splitter.FindNewlineFrom | pkg/channels/split.go:177-184 | the first newline from an index on, or -1 |
| Splitter.FindNextClosing | pkg/channels/split.go:166-173 | just behind the first fence in the range, or -1 |
| Splitter.FindLastUnclosed | pkg/channels/split.go:144-162 | where the block still open at the end began, or -1 |
| Splitter.ChooseCut | pkg/channels/split.go:44-125 | the branches of one turn decide as specified |
| Splitter.SplitMessage | pkg/channels/split.go:13-140 | whenever the loop ends, it computes a finished run of the turns above, and what that delivers |
| SplitRule.RunsByRule | pkg/channels/split.go:25-137 | every turn of every run cuts where a rule on the text says (last newline of 200 runes before the buffer, else last blank of 100, else all of them; an open block whole if it closes within the limit, else cut open behind its first line, or avoided), and writes the chunk and the rest that it says |
| SplitRule.ReadOneWay | pkg/channels/split.go:144-162 | the fences of a stretch can be read in one way only, so whether and where a block is open is determined |
| SplitRule.ChunkEndsAtWord | pkg/channels/split.go:50-66 | where no fence stands within the limit, the next chunk ends at the last newline, blank or rune of that rule, and the one after it begins behind the blanks |
| SplitRule.PlainTextSplits | pkg/channels/split.go:32-137 | a text without fences is split, without insertions, and all of its chunks follow that rule |
| Text.TrimMeans | pkg/channels/split.go:70-93 | trimming takes all Unicode white space off both ends, and nothing else |
| SessionStore.SanitizeKey | pkg/memory/jsonl.go:95-100 | a file name of the key's length without separators |
| SessionStore.SharedName | pkg/memory/jsonl.go:90-100 | two keys share a file if and only if they differ in colons, slashes, backslashes and underscores only |
| SessionStore.SkipsAlwaysInRange | pkg/memory/jsonl.go:221-445 | over every sequence of operations, each cut short after any write, no skip offset passes the end of its log |
| SessionStore.CrashLosesNothing | pkg/memory/jsonl.go:221-445 | a crash between two writes shows the completed result, or all of the old history as a suffix |
| SessionStore.CrashSparesOthers | pkg/memory/jsonl.go:82-100 | sessions with another file name keep history and metadata |
| SessionStore.TruncateKeepsLast | pkg/memory/jsonl.go:333-367 | truncating keeps exactly the last messages |
| SessionStore.CompactKeepsHistory | pkg/memory/jsonl.go:408-445 | compaction rewrites the log to the visible messages and changes nothing visible |
| SessionStore.TruncateRepairsCompact | pkg/memory/jsonl.go:345-367 | after an interrupted compaction, truncating gives what it would have given if and only if it keeps no more than the history has |
| SessionStore.CompactDoesNotRepairCompact | pkg/memory/jsonl.go:415-434 | compacting again writes nothing |
| SessionStore.SetHistoryRepairs | pkg/memory/jsonl.go:369-400 | setting the history after any crash shows exactly that history |
| SessionStore.DoEffect | pkg/memory/jsonl.go:221-445 | the effect of each operation on history and summary, in terms of the plain list |
| SessionStore.CountIsKept | pkg/memory/jsonl.go:221-445 | the count in the metadata of a new session is the number of lines of its log, every operation keeps it so, and setting or truncating makes it so after any crash |
| SessionStore.RunDisagrees | pkg/session/manager.go:114-123 | a history or summary set before the first message makes the two stores differ at once |
| SessionStore.StaysBlank | pkg/memory/jsonl.go:276-310 | a file that no message is added to shows no history and no summary, under any key |
| SessionStore.SharedFileDisagrees | pkg/memory/jsonl.go:95-100 | a message added to one of two keys with the same file makes the stores differ on the other |
| SessionStore.StoreRefinesList | pkg/session/manager.go:71-290 | for all interleaved calls on all keys, both stores agree on every key of the run after every call if and only if no history or summary is set before the first message, and no message is added to a key that shares its file with another |
| SessionStore.ColonSharesFile | pkg/memory/jsonl.go:95-100 | such a run, with the keys "a:b" and "a_b" |
| Migration.ImportAgain | pkg/memory/migration.go:83-102 | an import cut short anywhere makes no difference to the next attempt |
| Migration.ResumeFrom | pkg/memory/migration.go:42-113 | stopping after any write, in or behind entry i, and running from i on ends in the same disk |
| Migration.RestartIsHarmless | pkg/memory/migration.go:31-113 | stopping after any single write and starting again ends with the same files as one uninterrupted run |
| Migration.MigrateGives | pkg/memory/migration.go:76-108 | the history and summary every session is left with: a fold over the snapshots with its file name |
| Migration.MigrateShows | pkg/memory/migration.go:85-88 | the messages of the last such snapshot |
| Migration.MigrateSummary | pkg/memory/migration.go:95-101 | the summary of the last of them that has one |
| Migration.MigrateSpares | pkg/memory/migration.go:42-101 | without a snapshot a session keeps its history, and without one that has a summary its summary |
| Migration.PendingIsSnapshot | pkg/memory/migration.go:47-83 | imported are exactly the readable files named x.json, x.meta.json and x.migrated excepted, each under its own key, or x if that is empty |
| Migration.MigrateRenames | pkg/memory/migration.go:47-110 | every snapshot is renamed to x.json.migrated, and every other entry is left alone |
| Migration.MetadataStays | pkg/memory/migration.go:53-58 | a directory with nothing but the store's own metadata files is left as it is, histories and summaries included |
| Migration.NothingPending | pkg/memory/migration.go:103-110 | afterwards no readable snapshot is left to import |
| SessionFiles.JSONLStore.ReadMessages | pkg/memory/jsonl.go:134-179 | the messages behind the offset, corrupt lines passed over |
| SessionFiles.JSONLStore.CountLines | pkg/memory/jsonl.go:184-203 | the number of lines of a log |
| SessionFiles.JSONLStore.RewriteJSONL | pkg/memory/jsonl.go:449-462 | one write replaces the log |
| SessionFiles.JSONLStore.AddMsg | pkg/memory/jsonl.go:221-274 | makes exactly the writes of an append, in their order |
| SessionFiles.JSONLStore.GetHistory | pkg/memory/jsonl.go:276-296 | the visible history |
| SessionFiles.JSONLStore.GetSummary | pkg/memory/jsonl.go:298-310 | the summary |
| SessionFiles.JSONLStore.PutSummary | pkg/memory/jsonl.go:312-331 | makes exactly the write of a new summary |
| SessionFiles.JSONLStore.TruncateHistory | pkg/memory/jsonl.go:333-367 | makes exactly the write of a truncation |
| SessionFiles.JSONLStore.PutHistory | pkg/memory/jsonl.go:369-400 | metadata first, then the log |
| SessionFiles.JSONLStore.CompactLog | pkg/memory/jsonl.go:408-445 | likewise, and nothing at offset 0 |
| SessionFiles.JSONLStore.MigrateFromJSON | pkg/memory/migration.go:31-114 | the loop over the directory makes exactly the planned writes, and returns the number of entries that were pending |
| SessionFiles.SessionManager.AddFullMessage | pkg/session/manager.go:71-87 | creates the session if need be, and appends |
| SessionFiles.SessionManager.GetHistory | pkg/session/manager.go:89-101 | the list, empty for an unknown key |
| SessionFiles.SessionManager.PutHistory | pkg/session/manager.go:277-290 | replaces the list of a known session only |
| SessionFiles.SessionManager.PutSummary | pkg/session/manager.go:114-123 | sets the summary of a known session only |
| SessionFiles.SessionManager.TruncateHistory | pkg/session/manager.go:125-146 | keeps the last messages |
| Sanitizer.FirstPassLoop | pkg/agent/context.go:577-631 | the loop computes the first pass |
| Sanitizer.FindsTurn | pkg/agent/context.go:592-607 | the backward walk finds a tool-call turn behind trailing tool messages only |
| Sanitizer.CheckResults | pkg/agent/context.go:641-675 | whether the tool run behind a turn answers all its calls, and how long it is |
| Sanitizer.SanitizeHistoryForProvider | pkg/agent/context.go:571-687 | the two loops compute both passes |
| Sanitizer.AcceptsMeansPlaced | pkg/agent/context.go:577-631 | the first pass admits a message exactly when it may stand there |
| Sanitizer.CompleteMeansAnswered | pkg/agent/context.go:641-682 | the second pass keeps a turn exactly when its tool run answers every call |
| Sanitizer.SanitizedIsWellFormed | pkg/agent/context.go:571-687 | no system message, tool messages in runs behind turns, every call answered, turns behind user or tool messages |
| Sanitizer.SanitizeFixesWellFormed | pkg/agent/context.go:571-687 | unchanged if and only if well formed; idempotent |
| Sanitizer.SanitizeKeepsPlain | pkg/agent/context.go:571-687 | a subsequence of the input that keeps every plain assistant message and every message of other roles |
| AgentLoop.BuiltIsReady | pkg/agent/context.go:469-569 | whatever the stored history, the request has one system message, in front, and complete tool blocks |
| AgentLoop.RoundKeepsReady | pkg/agent/loop.go:1221-1387 | a turn and its results keep a request acceptable |
| AgentLoop.ExecuteInParallel | pkg/agent/loop.go:1254-1333 | results land in the order of the calls, whatever order they finish in |
| AgentLoop.CompressionShrinks | pkg/agent/loop.go:1462-1511 | compression shrinks exactly the histories longer than 4, keeps the last message and a suffix behind the first |
| AgentLoop.Session.ForceCompression | pkg/agent/loop.go:1462-1511 | replaces the stored history by the compressed one |
| AgentLoop.CallWithRetries | pkg/agent/loop.go:1091-1158 | at most three requests, all acceptable, each the last repeated or rebuilt from the compressed session; only other errors or the third failure are final |
| AgentLoop.RunLLMIteration | pkg/agent/loop.go:994-1402 | every request of the run is acceptable, and with the session follows from the one before by a round, a repetition, or compression of the session it was sent with; the run ends with a final reply, which is the outcome together with the number of its iteration, or else after exactly maxIterations rounds |
| AgentLoop.CompletionIsUnique | pkg/agent/loop.go:1020-1401 | the beginning, the replies and the tool results leave exactly one run, one final state and one outcome |
| AgentLoop.SinceCompression | pkg/agent/loop.go:1148-1387 | at every request, messages and session are those of the last compression, or the beginning, plus the same rounds; and the first request since then was built from the compressed session |
| AgentLoop.RunToolLoop | pkg/tools/toolloop.go:37-179 | every request answers all its tool calls and extends the first, and is acceptable if the first was; each follows from the one before by a round; the last reply is the outcome unless it calls tools, and then there were exactly maxIterations requests |
| AgentLoop.ToolCompletionIsUnique | pkg/tools/toolloop.go:42-178 | the first request, the replies and the tool results leave exactly one sequence of requests and one outcome |
| Requests.ResultsReachProvider | pkg/agent/loop.go:1091-1387 | in every run, a reply with tool calls is followed by the same request plus an assistant message with its content and IDs and, for each call in order, a tool message with that ID and what the tool returned, or its error; the session grows by the same; a timeout repeats the request, a context error builds it from the halved session |
| Requests.ResultsReachSubagent | pkg/tools/toolloop.go:106-171 | the same of every request of a subagent |
| Requests.BuildsFrom | pkg/agent/context.go:524-569 | a built request is the prompt, the sanitised history, and the current message unless it is blank |
| Requests.Halves | pkg/agent/loop.go:1462-1511 | compression leaves out exactly the older half of what is between the first and the last message, and notes how many that were in decimal notation |
| Cron.Find | pkg/cron/service.go:182-189 | the first job with the ID |
| Cron.DueMembers | pkg/cron/service.go:143-152 | exactly the IDs of enabled jobs whose time has come, without duplicates |
| Cron.Origin | pkg/cron/service.go:135-471 | every job of the new store is an old one with exactly one kind of change, or new |
| Cron.UsedStep | pkg/cron/service.go:143-175 | only collecting a due job uses it up; starting it moves a pending entry to the log; entries die with the process |
| Cron.OneShotStep | pkg/cron/service.go:236-255 | a one-shot job that has been collected is never scheduled again |
| Cron.OnceStep | pkg/cron/service.go:177-264 | no step starts a one-shot job a second time |
| Cron.StrandStep | pkg/cron/service.go:71-310 | no step, the death of the process included, leaves an enabled periodic job of a running service without next run or living loop |
| Cron.CronRuns | pkg/cron/service.go:71-471 | one-shot jobs at most once and no periodic job stranded, in every state of every interleaving of checks, callbacks, edits, stops, restarts and deaths of the process |
| Cron.LostForGood | pkg/cron/service.go:154-175 | in every run, a one-shot job that had been collected but not started when the process died is never started afterwards |
| CronSchedule.SetSince | pkg/cron/service.go:208-310 | in every run, a recurring job that is enabled and in no loop's hands has the next run that is one period, or the library's tick, behind the step which last set it |
| CronSchedule.TimelessNeverRun | pkg/cron/service.go:266-300 | in every run, while the service runs, an enabled job of an unknown kind, or without a time, a positive period or an expression, has no next run |
| CronSchedule.RecursForEver | pkg/cron/service.go:208-264 | in every run, an enabled recurring job stays in the store and enabled until an operator switches it off or removes it |
| CronSchedule.SwitchedOff | pkg/cron/service.go:447-471 | a job that is switched off has no next run |
| CronSchedule.AddedIsOn | pkg/cron/service.go:363-404 | a new job is enabled, and is deleted after its run exactly if it is a one-shot job |
| CronSchedule.OneShotIsOver | pkg/cron/service.go:236-243 | a one-shot job that has run is gone, or switched off with the start recorded, as it asks for |
| CronSchedule.AppointmentsHold | pkg/cron/service.go:82-272 | in every run, while the service runs, an enabled one-shot job whose time is ahead is set for exactly that time |
| CronSchedule.KeepsAppointment | pkg/cron/service.go:82-471 | and stays so until a check at or after its time, unless it is enabled, disabled or removed, or the service is started too late |
| CronSchedule.CheckCollects | pkg/cron/service.go:143-152 | that check puts it into the loop's due list |
| CronSchedule.BeginStarts | pkg/cron/service.go:177-195 | from which the loop starts it when its turn comes |
| CronSpacing.PeriodsStep | pkg/cron/service.go:135-310 | every step keeps a period between a loop's start of a job and that loop's next one |
| CronSpacing.LoopsKeepPeriods | pkg/cron/service.go:71-471 | in every run, with any number of restarts and processes, each loop's successive starts of a periodic job lie a period apart |
| CronSpacing.SafeStep | pkg/cron/service.go:171-264 | until the next check, what the loops hold stays safe to start in any order |
| CronSpacing.SpacedUntilCheck | pkg/cron/service.go:143-175 | until the next check the service-wide log stays spaced whatever happens, if and only if no periodic job is in two due lists, or in one less than a period after an earlier start |
| CronSpacing.SpacedWhileAlone | pkg/cron/service.go:154-163 | a run in which no job is in the hands of two loops keeps all starts of a periodic job a period apart |
| CronSpacing.OneLoopIsSpaced | pkg/cron/service.go:71-264 | so does every run in which each process has one loop, however many processes follow one another |
| CronSpacing.RestartBreaksSpacing | pkg/cron/service.go:82-119 | a run with a restart in which two loops start one job at the same time |
| CronService.Scheduler.constructor | pkg/cron/service.go:71-80 | a new service on the saved file is the machine after the death of the process |
| CronService.Scheduler.StartService | pkg/cron/service.go:82-104 | is the start step of the machine |
| CronService.Scheduler.StopService | pkg/cron/service.go:106-119 | is the stop step |
| CronService.Scheduler.CollectDue | pkg/cron/service.go:135-175 | is the check step: due jobs collected and taken off the schedule in one section |
| CronService.Scheduler.LookUp | pkg/cron/service.go:180-195 | the copy taken when a callback is about to start, none if the job is gone |
| CronService.Scheduler.FinishJob | pkg/cron/service.go:208-264 | the update after a callback, and the save |
| CronService.Scheduler.RecomputeNextRuns | pkg/cron/service.go:302-310 | reschedules exactly the enabled jobs |
| CronService.Scheduler.AddJob | pkg/cron/service.go:363-404 | appends the job with its first run |
| CronService.Scheduler.RemoveJob | pkg/cron/service.go:427-445 | removes exactly the jobs with the ID, says whether there were any, and saves if and only if there were |
| CronService.Scheduler.EnableJob | pkg/cron/service.go:447-471 | switches the job and its next run |
| PromptCache.ChangeIsExact | pkg/agent/context.go:307-426 | the check by existence and times reports a change if and only if a tracked file was created, edited or deleted since the baseline |
| PromptCache.CachedIsFresh | pkg/agent/context.go:160-198 | in every run, with writes between baseline and rendering too, a cached answer was rendered from what is there now, if and only if no file rendered into it was created after the baseline and deleted since |
| PromptCache.FileVanishes | pkg/agent/context.go:185-190 | a run in which one was |
| PromptCache.TrackedIsEverywhere | pkg/agent/context.go:215-242 | tracked are the five source files, the skill roots and every file below them |
| PromptCache.ViewShows | pkg/agent/context.go:215-242 | the prompt shows the source files and the files below the skill roots, and no others |
| PromptCache.BuildsWhenChanged | pkg/agent/context.go:175-190 | a build begins only if there is no prompt or a tracked path differs from the last baseline, and renders what is there |
| PromptCache.ContextBuilder.BuildCacheBaseline | pkg/agent/context.go:253-298 | records existence, skill times and their maximum |
| PromptCache.ContextBuilder.SkillFilesChanged | pkg/agent/context.go:371-426 | the walk decides whether the skill files differ |
| PromptCache.ContextBuilder.SourceFilesChanged | pkg/agent/context.go:307-332 | the whole check |
| PromptCache.ContextBuilder.BuildSystemPromptWithCache | pkg/agent/context.go:160-198 | hands out the cached prompt, or caches the baseline of what is there with a prompt rendered later |
| PromptCache.ContextBuilder.InvalidateCache | pkg/agent/context.go:203-213 | empties the cache |
| TopK.RankingIsDetermined | pkg/utils/bm25.go:187-212 | ties apart there is one ranking, so the heap and sorting everything agree position by position |
| TopK.RootIsLeast | pkg/utils/bm25.go:242-252 | the root of a heap is a minimum |
| TopK.SiftDown | pkg/utils/bm25.go:255-272 | restores the heap in place and loses nothing |
| TopK.MinHeapify | pkg/utils/bm25.go:248-252 | makes any array a heap of the same elements |
| TopK.SelectTopK | pkg/utils/bm25.go:187-212 | for every order of the map, the min(k, n) best in descending order, none left out scoring higher |
| Bm25.Dedupe | pkg/utils/bm25.go:230-240 | the distinct terms in order of first occurrence |
| Bm25.BuildIndex | pkg/utils/bm25.go:112-136 | term counts of every document, and document frequencies |
| Bm25.BuildPostings | pkg/utils/bm25.go:156-163 | for every term the documents that contain it |
| Bm25.AccumulatedOneMore | pkg/utils/bm25.go:165-181 | one posting list brings every score up to date with its term |
| Bm25.DirectScoresCoverMatches | pkg/utils/bm25.go:165-181 | scored are exactly the documents that contain a query term |
| Bm25.Accumulate | pkg/utils/bm25.go:112-181 | posting-list accumulation gives each document its direct sum over distinct query terms |
| Bm25.Search | pkg/utils/bm25.go:97-213 | the top k of the directly scored documents |
| Ranking.ScoreIsOkapi | pkg/utils/bm25.go:138-181 | the score for one term in closed form, over the number of documents with the term, its multiplicity, and the length against the average |
| Ranking.OneMoreTerm | pkg/utils/bm25.go:165-181 | a repeated query term changes no score, and a new one adds its own |
| Ranking.MoreOccurrencesFirst | pkg/utils/bm25.go:176-181 | of two documents of the same length, the one with more occurrences of the term is listed first |
| Ranking.LongerNotFirst | pkg/utils/bm25.go:149-154 | with as many occurrences the longer document never scores higher, and is listed later if b > 0 |
| Ranking.RarerFirst | pkg/utils/bm25.go:140-147 | of two documents of the same length with one query term each, as often, the one whose term is in fewer documents is listed first |
| Ranking.MoreTermsScoreHigher | pkg/utils/bm25.go:165-181 | with each further query term that it contains, a document's score grows |
| SearchCache.PackIsInjective | pkg/skills/search_cache.go:180-183 | packed trigrams are equal only for equal bytes |
| SearchCache.JaccardIsSimilarity | pkg/skills/search_cache.go:198-220 | symmetric, between 0 and 1, and 1 exactly for equal trigram sets |
| SearchCache.CountCommon | pkg/skills/search_cache.go:203-216 | the merge counts exactly the intersection |
| SearchCache.JaccardSimilarity | pkg/skills/search_cache.go:199-220 | the true Jaccard value |
| SearchCache.Dedupe | pkg/skills/search_cache.go:187-195 | in place, each element once, in increasing order |
| SearchCache.BuildTrigrams | pkg/skills/search_cache.go:175-196 | the strictly increasing list of exactly the trigrams of the query |
| SearchCache.ShortQueriesCoincide | pkg/skills/search_cache.go:176-178 | queries of fewer than three bytes are all similar |
| SearchCache.WithoutAt | pkg/skills/search_cache.go:158-164 | cutting a key out where it first occurs takes it out of the order list altogether |
| SearchCache.Dropped | pkg/skills/search_cache.go:119-123 | the entry dropped first was used longest ago |
| SearchCache.Survivors | pkg/skills/search_cache.go:144-156 | after expiry the order list still lists exactly the keys, by time of last use |
| SearchCache.AliveMeans | pkg/skills/search_cache.go:144-156 | what survives expiry was stored less than the time to live ago, and all that was |
| SearchCache.Cache.MoveToEnd | pkg/skills/search_cache.go:158-166 | the key moves to the end, the others keep their order |
| SearchCache.Cache.EvictExpired | pkg/skills/search_cache.go:144-156 | exactly the live entries stay, in order |
| SearchCache.Cache.EvictOldest | pkg/skills/search_cache.go:118-123 | makes room; whatever goes was used before whatever stays |
| SearchCache.Cache.Put | pkg/skills/search_cache.go:93-133 | expiry, then renewal or eviction and insertion; order list a permutation of the keys within capacity |
| SearchCache.Cache.MostSimilar | pkg/skills/search_cache.go:68-82 | the highest similarity among live entries, in any order of the map |
| SearchCache.Cache.Get | pkg/skills/search_cache.go:51-90 | the live entry itself, else a most similar live one from the threshold on, else nothing if there is none |
| Registry.ToolRegistry.Register | pkg/tools/registry.go:33-48 | a new version in which the tool is not hidden |
| Registry.ToolRegistry.RegisterHidden | pkg/tools/registry.go:51-66 | a new version in which it is |
| Registry.ToolRegistry.PromoteTools | pkg/tools/registry.go:70-87 | changes times to live only, so the hidden docs and the version stay |
| Registry.ToolRegistry.TickTTL | pkg/tools/registry.go:90-98 | likewise |
| Registry.ToolRegistry.SnapshotHiddenTools | pkg/tools/registry.go:121-137 | docs and version belong together |
| EngineCache.CacheAdvances | pkg/tools/search_tool.go:255-278 | under the cache lock the engine's version never goes back, and is written before its version number |
| EngineCache.StepKeeps | pkg/tools/search_tool.go:249-279 | every step of every thread, and every registration, keeps the invariant |
| EngineCache.NeverOutOfDate | pkg/tools/search_tool.go:249-279 | in every interleaving, the unlocked fast path included, a call returns the engine of a version that was current during the call |
| EngineCache.QuietCallIsExact | pkg/tools/search_tool.go:247-249 | a call during which nothing is registered returns exactly the current hidden tools |
| EngineCache.CurrentCacheIsFast | pkg/tools/search_tool.go:249-253 | while the cached engine is there and of the current version, a call stays off the lock and returns it |
| EngineCache.StaleCacheWaits | pkg/tools/search_tool.go:249-256 | without an engine, or with versions that differ when they are compared, it goes for the lock, and only then |
| EngineCache.BM25SearchTool.GetOrBuildEngine | pkg/tools/search_tool.go:249-279 | by itself: the current engine, kept while the version stays |
| Cooldown.StandardTable | pkg/providers/cooldown.go:176-189 | 1, 5 and 25 minutes, then an hour |
| Cooldown.BillingTable | pkg/providers/cooldown.go:191-207 | 5, 10 and 20 hours, then a day |
| Cooldown.CooldownBounds | pkg/providers/cooldown.go:42-83 | in every history the error count is the sum of the failure counts, and the ends lie within an hour and a day of the last failure |
| Cooldown.EndsNeverEarlier | pkg/providers/cooldown.go:42-66 | between successes neither end moves to an earlier time, window resets included |
| Cooldown.CountersCountTheStreak | pkg/providers/cooldown.go:49-66 | the counters are the failures since the last success or gap of more than 24 hours, and the end is the backoff of that count |
| Cooldown.RemainingIsExact | pkg/providers/cooldown.go:86-139 | available if and only if nothing remains, and from exactly that time on |
| Cooldown.FailureCools | pkg/providers/cooldown.go:59-65 | a failure makes the provider unavailable for at least a minute |
| Cooldown.Recovers | pkg/providers/cooldown.go:69-83 | a success, or a day without failures, makes it available |
| Cooldown.CooldownTracker.MarkFailure | pkg/providers/cooldown.go:42-66 | keeps every provider's entry what its own history makes of it |
| Cooldown.CooldownTracker.MarkSuccess | pkg/providers/cooldown.go:69-83 | likewise |
| Cooldown.CooldownTracker.IsAvailable | pkg/providers/cooldown.go:86-108 | availability after the provider's history |
| Cooldown.CooldownTracker.CooldownRemaining | pkg/providers/cooldown.go:112-139 | the time left after it |
| Fallback.OutcomeIsDetermined | pkg/providers/fallback.go:101-207 | cooldowns, candidates, replies and clock leave the chain exactly one trail and outcome |
| Fallback.CallsInOrder | pkg/providers/fallback.go:114-139 | each candidate is called at most once, in order |
| Fallback.FailedProviderIsSpared | pkg/providers/fallback.go:114-135 | a provider that failed is not called again within a minute, under another model either: its candidates are skipped, or the chain is cancelled before them |
| Fallback.AnswerForgives | pkg/providers/fallback.go:141-148 | an answer leaves its provider without counted failures and available at once; no other end of the chain marks anything |
| Fallback.FallbackChain.Execute | pkg/providers/fallback.go:101-207 | all before the deciding candidate were in cooldown or failed for another reason than a malformed request; exhaustion records one attempt for each candidate in order; the tracker gets exactly those marks |
| Fallback.FallbackChain.Try | pkg/providers/fallback.go:115-203 | one candidate passes or settles the matter |
| Fallback.ResolveCandidates | pkg/providers/fallback.go:49-89 | exactly the references that are the first with their key, in order |
| Fallback.FirstsAreDistinct | pkg/providers/fallback.go:69-73 | no two candidates have the same key |
| Fallback.FirstsAreAll | pkg/providers/fallback.go:57-78 | every reference that parses has its key among them |
| SessionKey.NormalForm | pkg/routing/agent_id.go:22-44 | a non-empty ID of at most 64 characters, of the documented form if and only if no underscore leads |
| SessionKey.NormalizeMeans | pkg/routing/agent_id.go:22-44 | the ID in lower case if it has the documented form; else with one dash for every run of other characters, none at the ends, cut after 64 characters, and the default if nothing is left |
| SessionKey.LettersAre | pkg/routing/agent_id.go:15-20 | the letters and digits of IDs, and which capitals are lowered to what |
| SessionKey.NormalizeTwice | pkg/routing/agent_id.go:25-44 | idempotent except when an underscore leads and truncation leaves a dash at the end |
| SessionKey.NormalizeTwiceFails | pkg/routing/agent_id.go:37-39 | such an ID |
| SessionKey.KeySpells | pkg/routing/session_key.go:40-100 | every key spells out agent and conversation: groups by channel, kind and peer, direct messages by what their scope names, and all else as the main session |
| SessionKey.ParseIs | pkg/routing/session_key.go:102-121 | a key parses if and only if it has three parts, "agent", an ID and a rest, none empty; the rest may have colons |
| SessionKey.ParseBuilt | pkg/routing/session_key.go:40-121 | parsing any built key gives a non-empty rest and the normalised agent ID, except where a main key's second normalisation differs |
| SessionKey.ResolveLinkedPeerID | pkg/routing/session_key.go:147-192 | a name whose links name the peer, by itself, with its channel in front, or by what follows its first colon; in any order of the links, and none exactly if there is none |
| KeyIsolation.SharesKey | pkg/routing/session_key.go:46-100 | under per-channel-peer scope, a conversation shares its key with another one if and only if channel:kind:peer can be split at other colons into parts that conversations have |
| KeyIsolation.ColonFreeIsolates | pkg/routing/session_key.go:80-100 | a conversation with no colon in channel, kind and peer shares its key with no other, whatever is in the other's parts |
| KeyIsolation.KeysIsolate | pkg/routing/session_key.go:80-100 | between conversations with colon-free channels and kinds, keys are equal if and only if agent, channel, kind and peer are |
| KeyIsolation.SpaceProtects | pkg/routing/session_key.go:80-84 | channel "a: b" has a colon, and its conversation shares with none |
| KeyIsolation.ChannelsCollide | pkg/routing/session_key.go:80-100 | every channel a:b with trimmed lower-case parts shares its keys with kind b on channel a |
| KeyIsolation.PeersCollide | pkg/routing/session_key.go:80-84 | whatever the channel, a peer b:direct:c shares its key with another conversation |
| KeyIsolation.PeersIsolate | pkg/routing/session_key.go:85-88 | under per-peer scope, direct messages share a key if and only if agent and peer are equal |
| KeyIsolation.AccountsIsolate | pkg/routing/session_key.go:74-79 | under per-account-channel-peer scope and colon-free channels, direct messages share a key if and only if agent, channel, account and peer are equal |
| KeyIsolation.AccountsCollide | pkg/routing/session_key.go:74-99 | a group of kind x with peer direct:c shares its key with the direct message of account x and peer c |

## Left out

- HTTP, OAuth, channel SDKs, subprocesses, hardware, the web launcher and the frontend: I/O and libraries.
- JSON: a line is a message or corrupt; encoding loses nothing. Lines over 10 MB are out of scope.
- Torn appends: an append is all or nothing; a partial line that merges with the next append is not modelled.
- Metadata timestamps, sync calls, write errors, and the status and log fields of all entities.
- Splitter.SplitMessage: is only called where the loop ends, which is all it asks; `Splitter.Terminates` gives a condition to check beforehand. Exactly when it ends is settled where fences are first on their lines and the limit is 10 or more, in terms of the run (`Splitter.EndsIffNeverBlocked`), and elsewhere for texts that open with a long block. The invariants hold of every number of turns on every text.
- Splitter.Balanced: asks for fences first on their lines, because the property can fail without (`Splitter.TornFence`, `Splitter.OpenCut`), and for a limit of at least 10, because a smaller one can put a cut inside a fence (`Splitter.SmallLimit`).
- Loading and saving the in-memory manager's snapshots, and GetOrCreate: not part of the list behaviour.
- Retries inside one fallback call send the same messages; they count as one request. Media, summaries as text, model routing and tool-call normalisation are left out of the messages. Errors arrive classified. The content of a final answer is a parameter: that it is the reasoning text when the answer is empty (pkg/agent/loop.go:1191-1193) is not modelled.
- AgentLoop.RunToolLoop: only keeps the block structure of its first request, which the caller builds.
- Results of calls that were never made: extra results inside a complete run are kept by the sanitiser, so nothing is said of them.
- Cron.CronRuns: takes unique IDs, successful saves and a clock that does not run backwards as given. A process dies between locked sections; within one, before or after its save.
- Reading the clock, looking a due job up and starting its callback are one step of `Cron`; the service reads the clock just before the lookup.
- Cron expressions are a parameter; UpdateJob with an arbitrary job is left out.
- PromptCache.CachedIsFresh: takes a write to have a stamp above all earlier ones; taking the baseline, with the check before it, is one step, and rendering another. The prompt is an arbitrary function of the tracked files. Daily notes are part of the prompt but not tracked, and left out.
- Tokenising and query normalisation (letter case and Unicode), floating-point rounding, and the library's sort: scores are reals, the logarithm is a parameter, and which document wins a tie is open.
- SearchCache.Cache: one operation at a time, as under its mutex; copies of results are values.
- EngineCache.NeverOutOfDate: single accesses to memory are taken to be sequentially consistent; the version counter does not wrap around. An engine is identified with the documents it indexes.
- Fallback.FallbackChain.Execute: nobody else changes the tracker meanwhile; parsing model references and building their keys are parameters of ResolveCandidates; ExecuteImage, a simpler loop, is left out.
- SessionKey: letters are lowered in ASCII only. Identity links enter a key as the one name they resolve to, and the isolation results take conversations without links.
- 64-bit overflow of counters and times.
- Typing and reaction bookkeeping, media store, MCP manager, rule classifier, model-list conversion: easy, or not provable as written.
