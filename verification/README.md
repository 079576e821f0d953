# Verified models of casuya-social-news

A Dafny 4.11 model of the stateful parts of the news-drama server (Python) and its Godot client, with
proofs of what they keep over whole runs. `dafny verify dfyconfig.toml` checks everything.

Each component has two forms. A class (or a method with loops) has the fields of the original object and
updates them in place; every method is proved equal to one step of a function on values (`Model() ==
Step(old(Model()), ...)`). The `...Proofs` modules then prove what every run of those steps keeps. Lemmas by
induction, and lemmas about whole runs, switch automatic induction off: the proof is the one written down.

| file | component |
|---|---|
| `Common.dfy` | options, sequence helpers, decimal text of integers |
| `OfflineCache.dfy`, `OfflineCacheProofs.dfy` | the client's offline story cache: LRU eviction, byte accounting, files on disk |
| `OverlapSpeechPlayer.dfy`, `OverlapSpeechPlayerProofs.dfy`, `OverlapSpeechPlayerRuns.dfy` | the client's talk-over player: two voices, one-shot timers, generations |
| `RateLimiter.dfy` | the server's sliding-window limiter, sequential and interleaved |
| `CircuitBreaker.dfy` | the server's three-state breaker and `run_with_breaker` |
| `RetryProtocol.dfy` | the client's retry counters shared by all requests of a tag |
| `CastDelta.dfy` | server diff and client patch of the live cast |
| `ResponseEnvelope.dfy` | the ASGI response envelope and the client's unwrapping |
| `VoteEconomy.dfy` | community votes |
| `NewsDedupe.dfy` | article deduplication |
| `MoodDrift.dfy` | mood drift of the cast |
| `VoiceBudget.dfy` | the monthly voice budget |

Abstractions. Times are integers and every clock is a parameter; moods are thousandths; JSON values are
trees and the JSON library is a pair of functions of which only "reading back what was written" is used;
a URL fingerprint is any function. File operations succeed once a file could be opened; the open itself
may fail (`writable`, `readable`). Signals are logs. Godot's pending one-shot timers are a list from which any due
timer may fire. Everything outside (network, providers, file system errors, database) is an event of a
run.

## Where code and documentation differ

The model follows the code.

- Re-caching a story (`client-godot/storage/OfflineCache.gd:45`) sets its byte count back to the script
  alone while its audio table stays. `TrackedPlusCarriedIsStored` gives the exact difference and when it
  is nil; `TrackedBytesCanBeNegative` shows a count below zero.
- A script with id "manifest" shares its file with the manifest (`StoredScriptLoadsIffNotManifest`).
- A clip under 0.2 s advances the sequence without opening a generation
  (`client-godot/audio/OverlapSpeechPlayer.gd:131-134`), so its own timer advances it again:
  `ShortClipCutsTheNextLine`. The sequence keeps a single live timer, whatever happens to it, exactly when none
  of its short clips is followed by another line with a clip; were timers never late, a short clip would be
  harmless as well when the line right after it overlaps it: `OneTimerIffNoShortClipIsFollowed`.
- Half open admits every caller until one reports back, not "one probe call"
  (`server-python/monitoring/circuit_breaker.py:6,50`): `HalfOpenAdmitsEveryone`.
- A delta cannot say that a memory was emptied (`server-python/api/delta_compressor.py:31`), and the
  ingestor diffs a generated script against the states it was made from, so with the built-in generator
  the broadcast delta is empty: `PatchUndoesDiff`, `DeltaAgainstOwnStatesIsEmpty`.
- Streamed JSON is documented as passing unwrapped; a first chunk that is itself a JSON value is wrapped
  (`server-python/middleware/response_envelope.py:24-27,93-125`): `ChunkedLengthIsRightIffRestIsEmpty`.
- The pulse is documented as following the script voted on most recently; it follows the script whose
  first vote is most recent (`server-python/economy/vote_service.py:69-75`): `PulseFollowsTheNewestScript`.
- `ingest` does not drop repeats within one batch (`server-python/scraper/ingestor.py:106`), `dedupe` does:
  `IngestIsDedupeIffNoRepeat`.
- `max_retries` reads as a limit per request, but the counter belongs to the tag and any answer resets it
  (`client-godot/network/RetryHandler.gd:17,41-45`, `client-godot/autoload/NetworkManager.gd:243-256`). It is one
  exactly when a tag never has two requests outstanding at once, or there are no retries:
  `LimitHoldsIffNoOverlap`. A request that overlaps no other of its tag gets exactly its retries
  (`AloneKeepsTheLimit`). Otherwise every other request that ends while it is outstanding hands it a new round
  (`OneRequestIsBounded`, reached in `OneRequestCanTakeEveryRound`), or it is given up after its first failure
  (`OneRequestCanGetNoRetry`); for the tag as a whole the limit holds on average (`SendsAreBounded`).
- A manifest that cannot be read back leaves the files of the earlier stories on disk, named by no entry and, until
  stored again, never evicted (`client-godot/storage/OfflineCache.gd:203-212`); `DiskHoldsExactlyTheCache` says which files these
  are, and that the directory is exact when there are none.

## Model

| member | source | states |
|---|---|---|
| CacheFiles.AudioFileInjective | client-godot/storage/OfflineCache.gd:185-186 | two clips with the same file name have the same story id and line, for every id text, because line keys hold only digits and a sign |
| CacheFiles.FilesOfDisjoint | client-godot/storage/OfflineCache.gd:146-159 | the script and audio files of two different stories never coincide |
| CacheFiles.ManifestIsNotAStoryFile | client-godot/storage/OfflineCache.gd:181-200 | no file of a story with another id than "manifest" is the manifest file |
| Decimals.TextInjective | client-godot/storage/OfflineCache.gd:67-68 | the line key `str(line)` tells any two line numbers apart |
| OfflineCaches.OfflineCache.CacheScript | client-godot/storage/OfflineCache.gd:30-50 | storing a script writes its file, keeps the audio table, resets the bytes to the text length, stamps the entry and evicts; an empty id or a file that cannot be opened changes nothing |
| OfflineCaches.OfflineCache.CacheAudio | client-godot/storage/OfflineCache.gd:54-74 | storing a clip adds the difference to its previous size, stamps the entry and evicts; an unknown story or unopened file changes nothing |
| OfflineCaches.OfflineCache.LoadScript | client-godot/storage/OfflineCache.gd:82-92 | returns the stored file, or nothing when it is missing, cannot be opened or does not parse; only a successful load touches the entry and saves |
| OfflineCaches.OfflineCache.LoadAudio | client-godot/storage/OfflineCache.gd:96-106 | the same for a clip |
| OfflineCaches.OfflineCache.Total | client-godot/storage/OfflineCache.gd:118-122 | the loop computes the sum of all tracked sizes |
| OfflineCaches.OfflineCache.FindLeastRecent | client-godot/storage/OfflineCache.gd:162-170 | the scan finds the first entry with the smallest stamp, or the empty name |
| OfflineCaches.OfflineCache.EnforceLimits | client-godot/storage/OfflineCache.gd:136-143 | the in-place loop terminates and leaves the state the recursive eviction leaves |
| OfflineCaches.OfflineCache.EvictStory | client-godot/storage/OfflineCache.gd:146-159 | removes exactly the victim's files and entry and signals it |
| OfflineCaches.OfflineCache.LoadManifest | client-godot/storage/OfflineCache.gd:199-212 | a new process ends with exactly the saved entries whose script file exists, and with none when the manifest cannot be opened or parsed |
| OfflineCaches.OfflineCache.SaveManifest | client-godot/storage/OfflineCache.gd:215-222 | writes the current entries and clears the dirty flag |
| OfflineCaches.OfflineCache.ClearAll | client-godot/storage/OfflineCache.gd:125-132 | empties manifest and directory and saves, signalling no eviction |
| Manifests.SumIsSum | client-godot/storage/OfflineCache.gd:118-122 | adding up along any list of all keys is the sum over the map, each key counted once |
| EvictionProofs.TotalLaws | client-godot/storage/OfflineCache.gd:118-122 | the total of an empty cache is 0; storing an entry adds its bytes in place of those it had; erasing one subtracts exactly its bytes |
| EvictionProofs.LimitsMean | client-godot/storage/OfflineCache.gd:137 | a limit is exceeded exactly when there are more entries than max_stories or the sum of their bytes is above max_bytes |
| EvictionProofs.OldestIsFirst | client-godot/storage/OfflineCache.gd:162-170 | of several least recently used stories the victim is the first in dictionary order |
| EvictionProofs.KeysKeepTheirOrder | client-godot/storage/OfflineCache.gd:42-48 | the dictionary keeps the order of first storing: storing again moves nothing, a new story comes last, an erased one leaves the others in place |
| EvictionProofs.VictimsAreNeeded | client-godot/storage/OfflineCache.gd:136-143 | before every eviction a limit was still exceeded, and the victim was a least recently used story of what was left |
| EvictionProofs.NoPrefixSuffices | client-godot/storage/OfflineCache.gd:136-143 | stopping after any proper prefix of the victims would leave a limit exceeded (not that fewer victims in another order would not do) |
| EvictionProofs.VictimsSuffice | client-godot/storage/OfflineCache.gd:136-143 | without the victims both limits hold, or nothing is left |
| EvictionProofs.VictimsAreOlder | client-godot/storage/OfflineCache.gd:162-170 | every victim's stamp is at most every survivor's |
| EvictionProofs.EnforceDropsVictims | client-godot/storage/OfflineCache.gd:136-159 | the loop drops and signals exactly those victims, in that order, and nothing else of the manifest |
| EvictionProofs.EvictionIsLeastRecentlyUsed | client-godot/storage/OfflineCache.gd:136-170 | after every store: limits met or cache empty, victims signalled in order with no proper prefix of them sufficient, each at most as recent as every survivor, survivors unchanged |
| EvictionProofs.NewestIsEvictedOnlyIfTooBig | client-godot/storage/OfflineCache.gd:136-170 | the newest story is evicted only if its own tracked bytes exceed the budget, and exactly then when no tracked size is negative |
| EvictionProofs.JustStoredIsKept | client-godot/storage/OfflineCache.gd:30-74 | with a strictly newer stamp and room for one story, the story just stored by either call survives unless it alone breaks the budget |
| EvictionProofs.EveryStoreKeepsItsStory | client-godot/storage/OfflineCache.gd:30-74 | so on every run, restarts and limit changes included, whose stamps strictly increase: no store loses its own story unless that story alone breaks the budget |
| EvictionProofs.LoadedStoryOutlivesTheOthers | client-godot/storage/OfflineCache.gd:82-92 | a load refreshes recency: the next store evicts the loaded story only after every story neither loaded nor stored since |
| CacheRunProofs.EvictIsExact | client-godot/storage/OfflineCache.gd:146-159 | eviction leaves no file of the victim and every file of every other story, and orphans none |
| CacheRunProofs.RunsStayFaithful | client-godot/storage/OfflineCache.gd:30-222 | over every run of stores, loads, clears, limit changes and restarts, with readable or unreadable manifests, from an empty directory: every entry, in memory or to be reloaded, is on disk at its recorded sizes, every file holds what was last stored under its name, byte counts are accounted for, and the files of no entry are exactly the orphans |
| CacheRunProofs.DiskHoldsExactlyTheCache | client-godot/storage/OfflineCache.gd:34-63 | a file other than the manifest is on disk exactly when a cached story names it or an unreadable manifest orphaned it and it was neither stored again, cleared nor reloaded since; so the directory is exact if and only if there are no such orphans |
| CacheRunProofs.ReadableOrphansNothing | client-godot/storage/OfflineCache.gd:199-212 | there are none on every run in which no manifest was unreadable since the last clear |
| CacheRunProofs.LoadsReturnTheLastStore | client-godot/storage/OfflineCache.gd:82-106 | a load returns the text or clip last stored under that id and line, and finds a clip of a cached story exactly when the entry records it or it is an orphan |
| CacheRunProofs.RestartLosesNothing | client-godot/storage/OfflineCache.gd:199-222 | a new process that can read the manifest has the same entries, in whatever key order, unless an earlier one could not and nothing was saved since |
| CacheRunProofs.ProcessesStartAfresh | client-godot/storage/OfflineCache.gd:13-25 | a new process has the limits 10 stories and 100 MiB, no signals, and the files as they are; with an unreadable manifest it knows no story |
| CacheRunProofs.TrackedPlusCarriedIsStored | client-godot/storage/OfflineCache.gd:43-48 | for each story and for the total, tracked bytes plus the audio held at the last re-cache are the stored bytes; so a story's count is exact if and only if that audio was nil and negative if and only if it exceeds what is stored now, and the total is exact if and only if none is carried |
| CacheRunProofs.TotalIsExactWithoutRecache | client-godot/storage/OfflineCache.gd:118-122 | the total is exactly what is stored on every run that never re-caches a story holding audio |
| CacheRunProofs.StoredScriptLoadsIffNotManifest | client-godot/storage/OfflineCache.gd:181-182 | a script still cached after its store loads back exactly when its id is not "manifest" |
| CacheRunProofs.TrackedBytesCanBeNegative | client-godot/storage/OfflineCache.gd:45-70 | a concrete family of runs ends with a tracked size below zero |
| OverlapSpeechPlayers.OverlapSpeechPlayer.DoPlay | client-godot/audio/OverlapSpeechPlayer.gd:37-43 | stops, loads the script and starts line 0 |
| OverlapSpeechPlayers.OverlapSpeechPlayer.DoSkip | client-godot/audio/OverlapSpeechPlayer.gd:47-56 | opens a generation, silences both players and starts the next line or finishes |
| OverlapSpeechPlayers.OverlapSpeechPlayer.DoStop | client-godot/audio/OverlapSpeechPlayer.gd:59-63 | opens a generation, silences and forgets the position |
| OverlapSpeechPlayers.OverlapSpeechPlayer.DoStartLine | client-godot/audio/OverlapSpeechPlayer.gd:70-94 | announces the line, skips on when it has no clip, otherwise voices it and arms one timer |
| OverlapSpeechPlayers.OverlapSpeechPlayer.DoVoice | client-godot/audio/OverlapSpeechPlayer.gd:79-94 | cuts in on the other player for an overlapping line, silences both first otherwise |
| OverlapSpeechPlayers.OverlapSpeechPlayer.DoNextLine | client-godot/audio/OverlapSpeechPlayer.gd:102-109 | starts the next line or finishes |
| OverlapSpeechPlayers.OverlapSpeechPlayer.OnTimeout | client-godot/audio/OverlapSpeechPlayer.gd:90-94 | a timer acts only in the generation that armed it |
| OverlapSpeechPlayers.OverlapSpeechPlayer.OnPlayerFinished | client-godot/audio/OverlapSpeechPlayer.gd:126-134 | a clip end advances only for a very short clip of the active player that talks over nobody |
| PlayerProofs.LinesStartInOrderAndNeverStall | client-godot/audio/OverlapSpeechPlayer.gd:37-134 | over every interleaving: lines start 0,1,2,... once each, the end is announced at most once and after the last line, and while playing the current line has a live timer and its clip on the active player; live timers are one plus the early clip ends |
| PlayerProofs.StepIsSound | client-godot/audio/OverlapSpeechPlayer.gd:37-134 | every event keeps that invariant, never lowers the generation, and raises it on stop, play, skip and finish |
| PlayerProofs.StaleTimersAreInert | client-godot/audio/OverlapSpeechPlayer.gd:90-94 | a timer pending before a stop, skip, finish or new play never acts again, after any further run |
| PlayerProofs.LiveTimerAdvances | client-godot/audio/OverlapSpeechPlayer.gd:90-116 | one firing of a live timer moves to a later line or announces the end |
| PlayerRunProofs.MovesAreBounded | client-godot/audio/OverlapSpeechPlayer.gd:37-134 | over any run up to the next play, live timers, early clip ends, skips and stops together act at most once for each line still to come, so at most max(1, number of lines) times |
| PlayerRunProofs.TimersFinishThePlay | client-godot/audio/OverlapSpeechPlayer.gd:90-116 | from every state of a playing sequence, timers firing in time order announce its end after at most one firing for each line left |
| PlayerProofs.OverlapKeepsThePreviousVoice | client-godot/audio/OverlapSpeechPlayer.gd:79-85 | an overlapping line leaves the previous voice sounding on its player; any other line is heard alone |
| PlayerProofs.PlayStartsAlone | client-godot/audio/OverlapSpeechPlayer.gd:79-85 | a play starts on the active player, heard alone, whatever the overlap flag of line 0 says |
| PlayerProofs.ClipEndAdvancesIff | client-godot/audio/OverlapSpeechPlayer.gd:126-134 | a clip end moves the sequence on if and only if it is the active player's, the current clip is under 200 ms, and it does not talk over a voice still sounding; otherwise it only silences its slot |
| PlayerProofs.SkipSilencesTheOldLine | client-godot/audio/OverlapSpeechPlayer.gd:47-56 | after a skip the next line is heard alone, overlap or not |
| PlayerRunProofs.OneTimerIffNoShortClipIsFollowed | client-godot/audio/OverlapSpeechPlayer.gd:87-134 | after any history, a sequence just begun has exactly one live timer whenever it is playing, over every run up to the next play in which time does not run back and clips end only when heard in full, if and only if none of its short clips is followed by another line with a clip; and with timers never late, if and only if none is that is not overlapped by the line right after it (or has no length) |
| PlayerProofs.ShortClipCutsTheNextLine | client-godot/audio/OverlapSpeechPlayer.gd:131-134 | with a short clip line 2 starts at the very moment line 1 does |
| PlayerProofs.TimelineIsExact | client-godot/audio/OverlapSpeechPlayer.gd:87-99 | without skips or short clips and with punctual timers, line k starts, and the end comes, at the sum over the earlier lines with a clip of its length, less 350 ms where the next line overlaps, and at least 0 |
| PlayerRunProofs.ClipsStartOnTime | client-godot/audio/OverlapSpeechPlayer.gd:87-134 | with short clips too, as long as none is followed by another clip, every line with a clip starts at that sum |
| RateLimiters.SlidingWindow.Count | server-python/middleware/rate_limiter.py:40-46 | leaves in one list exactly the stamps younger than 60 s and returns how many |
| RateLimiters.SlidingWindow.Hit | server-python/middleware/rate_limiter.py:48-51 | appends one stamp to one list |
| RateLimiters.RateLimiterMiddleware.Dispatch | server-python/middleware/rate_limiter.py:89-115 | admits exactly below the bucket's limit, records only admitted requests, and rejects with the bucket of the path, the limit 5 or 60, and 60 seconds to wait |
| LimiterSteps.BucketOfPath | server-python/middleware/rate_limiter.py:29-95 | a path is in the voice bucket if and only if it is one of two literal texts followed by anything |
| LimiterProofs.CountsLikeTheLog | server-python/middleware/rate_limiter.py:40-46 | the pruned list counts like the full log of admitted requests, at every later time |
| LimiterProofs.StepKeeps | server-python/middleware/rate_limiter.py:40-51 | every check and record of any client keeps the window bound of every budget |
| LimiterProofs.SequentialWindowBound | server-python/middleware/rate_limiter.py:89-115 | in every sequential run of all clients, every 60 s window of every budget admits at most its limit |
| LimiterProofs.EveryMinuteIsLimited | server-python/middleware/rate_limiter.py:25-115 | over every sequential run of clients and paths, every minute lets through at most 5 requests of a client for voice paths and at most 60 for others |
| LimiterProofs.LetThroughIffBelowLimit | server-python/middleware/rate_limiter.py:95-114 | and a request is let through if and only if fewer than that of its client's requests of that kind got through in the minute before it |
| LimiterProofs.InterleavedWindowBound | server-python/middleware/rate_limiter.py:98-114 | with up to k requests between check and record, every window admits at most limit + k - 1, and a request a full window after the last admitted one is admitted |
| LimiterProofs.InterleavedBoundIsReached | server-python/middleware/rate_limiter.py:98-114 | for every k some run admits exactly limit + k - 1 in one window |
| CircuitBreakers.CircuitBreaker.GetState | server-python/monitoring/circuit_breaker.py:37-46 | reading moves an open breaker to half open once the recovery time has passed |
| CircuitBreakers.CircuitBreaker.AllowRequest | server-python/monitoring/circuit_breaker.py:48-50 | allows exactly when the state read is not open |
| CircuitBreakers.CircuitBreaker.RecordFailure | server-python/monitoring/circuit_breaker.py:59-70 | counts, and opens from half open or at the threshold |
| CircuitBreakers.CircuitBreaker.RecordSuccess | server-python/monitoring/circuit_breaker.py:52-57 | clears the failures and closes |
| CircuitBreakers.CircuitBreaker.RunWithBreaker | server-python/monitoring/circuit_breaker.py:91-107 | a call reaches the provider exactly when allowed, and its outcome, if it is a result or an exception, is recorded; a rejection reports the state read at its end |
| BreakerProofs.RunAgrees | server-python/monitoring/circuit_breaker.py:37-77 | the three states are determined by the run of failures since the last success or reset and the time of the last failure |
| BreakerProofs.AllowsIsTheClosedForm | server-python/monitoring/circuit_breaker.py:37-77 | after any interleaving of reads, late failures, successes and resets a request is refused exactly while that run reaches the threshold (at least one) and the last failure is younger than the recovery time |
| BreakerProofs.HalfOpenAdmitsEveryone | server-python/monitoring/circuit_breaker.py:48-50 | after any history that opened the breaker, once the recovery time has passed, any number of callers in a row is admitted |
| BreakerProofs.ProbesAreSpaced | server-python/monitoring/circuit_breaker.py:91-107 | once open, sequential calls reach a failing provider at least the recovery time after the previous failure |
| BreakerProofs.ProbesPerInterval | server-python/monitoring/circuit_breaker.py:91-107 | after any history that opened it, an interval of length D carries at most D / recovery + 1 of them |
| RetryHandlers.RetryHandler.RegisterFailure | client-godot/network/RetryHandler.gd:21-28 | counts, retries while attempts remain and announces the exponential delay |
| RetryHandlers.RetryHandler.DelayFor | client-godot/network/RetryHandler.gd:32-34 | the delay of the current attempt, the same as announced |
| RetryProofs.DelaysGrowByTheFactor | client-godot/network/RetryHandler.gd:26-34 | the first retry waits the base delay and each further one backoff_factor times the one before |
| RetryHandlers.RetryHandler.ResetTag | client-godot/network/RetryHandler.gd:41-45 | forgets one tag, or all for the empty tag |
| RetryHandlers.NetworkManager.OnTransportFailure | client-godot/autoload/NetworkManager.gd:229-263 | schedules a retry or gives up and resets the tag |
| RetryProofs.FailureWaits | client-godot/autoload/NetworkManager.gd:232-241 | a failed request waits the delay of its attempt, the one after the tag's attempts so far, or is given up beyond max_retries |
| RetryHandlers.NetworkManager.OnAnswer | client-godot/autoload/NetworkManager.gd:243-245 | resets the tag and ends the request |
| RetryHandlers.NetworkManager.OnRetryTimer | client-godot/autoload/NetworkManager.gd:261-263 | sends the same request again |
| RetryProofs.StepStaysAmortised | client-godot/autoload/NetworkManager.gd:224-263 | every event keeps: sends so far plus the budget of the outstanding requests fit max_retries + 1 per request issued |
| RetryProofs.SendsAreBounded | client-godot/autoload/NetworkManager.gd:224-263 | for every interleaving, m requests of one tag are sent at most m * (max_retries + 1) times |
| RetryProofs.CompletionsSpendBudget | client-godot/network/RetryHandler.gd:21-45 | outstanding * (max_retries + 1) - attempts drops on every completion |
| RetryProofs.CompletionsAreBounded | client-godot/autoload/NetworkManager.gd:224-263 | over every interleaving from a new client, m requests of one tag see at most m * (max_retries + 1) failures and answers and m * max_retries resends |
| RetryProofs.RunsAreShort | client-godot/autoload/NetworkManager.gd:224-263 | requests of all tags together: m requests cause at most 2m * (max_retries + 1) events, so no run without new requests goes on for ever |
| RetryProofs.EveryRequestEnds | client-godot/autoload/NetworkManager.gd:224-263 | from every reachable state some continuation without new requests brings every request to its caller, each exactly once, within that bound |
| RetryProofs.RestMeansAllAnswered | client-godot/autoload/NetworkManager.gd:229-257 | a run that nothing but new requests could extend has answered every request exactly once |
| RetryProofs.AnsweredIffDelivered | client-godot/autoload/NetworkManager.gd:229-245 | after any run a request counts as answered if and only if an answer was delivered for it |
| RetryProofs.LimitHoldsIffNoOverlap | client-godot/network/RetryHandler.gd:17-45 | for all runs with at most j requests of a tag outstanding at once: no request is sent more than max_retries + 1 times and none is given up before that, if and only if j is at most 1 or there are no retries |
| RetryProofs.AloneKeepsTheLimit | client-godot/autoload/NetworkManager.gd:224-263 | a request is sure of its retries, and gets no more, whenever no other request of its tag is outstanding while it is, whatever came before or comes after |
| RetryProofs.OneRequestIsBounded | client-godot/autoload/NetworkManager.gd:224-263 | in every run a request is sent at most once plus max_retries times the rounds it gets, its own and one for each other request of its tag that ends while it is outstanding; so at most m * max_retries + 1 times among m requests |
| RetryProofs.OneRequestCanTakeEveryRound | client-godot/network/RetryHandler.gd:41-45 | and for every m and max_retries some run sends one that often, others resetting its counter |
| RetryProofs.OneRequestCanGetNoRetry | client-godot/network/RetryHandler.gd:21-25 | with two overlapping requests one can use up all retries, so that the other's first failure is final |
| CastDeltas.BuildCharacterDelta | server-python/api/delta_compressor.py:13-36 | the loop builds the list of changed characters in order |
| CastDeltas.CastPanel.SetSnapshot | client-godot/ui/CastPanel.gd:19-27 | replaces all states, defaults filled in |
| CastDeltas.CastPanel.ApplyDeltas | client-godot/ui/CastPanel.gd:31-47 | folds the changes into states and names |
| CastDeltaProofs.PatchUndoesDiff | server-python/api/delta_compressor.py:13-36 | after the patch each listed character shows its new mood and memory exactly when its memory was not cleared, and all others are untouched |
| CastDeltaProofs.ListedIsUpdated | client-godot/ui/CastPanel.gd:31-47 | what is shown for each listed character, also when its memory was cleared |
| CastDeltaProofs.OnlyChangesAreSent | server-python/api/delta_compressor.py:25-35 | an entry is in the delta exactly for a changed character |
| CastDeltaProofs.EntriesSayWhatChanged | server-python/api/delta_compressor.py:15-35 | every entry carries a character's own id and name and exactly its differing mood, with its own label, and differing memory; a character without an entry has nothing to tell |
| CastDeltaProofs.TheLastWordWins | client-godot/ui/CastPanel.gd:31-47 | for any deltas, the last mood, memory and name given for a character are shown, unmentioned fields stay, and entries without id or names without text change nothing there |
| CastDeltaProofs.ChangedNamesAreLearnt | client-godot/ui/CastPanel.gd:38-40 | the panel learns the name, or else the id, of every changed character |
| CastDeltaProofs.ViewsAreInStep | client-godot/ui/CastPanel.gd:19-27 | a snapshot puts the panel in step with the server's states |
| CastDeltaProofs.PanelShowsTheLatest | client-godot/ui/CastPanel.gd:31-47 | over any sequence of updates, each diffed against what the client shows, the panel shows every character's latest mood and latest non-empty memory |
| CastDeltaProofs.DeltaAgainstOwnStatesIsEmpty | server-python/scraper/ingestor.py:138-145 | a script that copies the stored states yields an empty delta against them |
| ResponseEnvelopes.SendWithEnvelope.OnMessage | server-python/middleware/response_envelope.py:55-139 | the per-message state machine |
| ResponseEnvelopes.ReplaceLength | server-python/middleware/response_envelope.py:106-112 | the header loop replaces every Content-Length and nothing else |
| EnvelopeProofs.SendsTransformed | server-python/middleware/response_envelope.py:55-139 | the whole stream sent on for a well-formed response, decided by its start and first body |
| EnvelopeProofs.WrappableIsJsonSuccess | server-python/middleware/response_envelope.py:62-79 | a response may be wrapped if and only if its status is 200 to 299 and its first content-type header has "application/json" somewhere in it |
| EnvelopeProofs.OnlyJsonSuccessIsWrapped | server-python/middleware/response_envelope.py:55-139 | exactly those with a first body that is a JSON value go out wrapped, with the envelope's six members as listed; all others that do not raise go out unchanged |
| EnvelopeProofs.ErrorsAreReported | client-godot/autoload/NetworkManager.gd:284-290 | a server error passes unwrapped and the client reports its error code and message, in that order, or the defaults |
| EnvelopeProofs.OtherValuesStay | client-godot/autoload/NetworkManager.gd:284-291 | a value that is no envelope, or a success without data, reaches the client as it is |
| EnvelopeProofs.ResponsesStayWellFormed | server-python/middleware/response_envelope.py:55-139 | a well-formed response comes out well formed with the same status, length and more_body flags; only undecodable bytes raise, and then nothing was sent |
| EnvelopeProofs.UnwrapUndoesWrap | client-godot/autoload/NetworkManager.gd:284-293 | for a single-body 2xx JSON response the new Content-Length is the new body's length, other headers stay, and the client unwraps the original value, whatever its keys |
| EnvelopeProofs.ChunkedLengthIsRightIffRestIsEmpty | server-python/middleware/response_envelope.py:24-27 | a wrapped first chunk announces the right length exactly when the later chunks are empty |
| Decimals.ParseNatText | server-python/middleware/response_envelope.py:110 | the printed length reads back as the length |
| VoteServices.VoteService.RecordVote | server-python/economy/vote_service.py:23-39 | stores the client's latest valid vote, reports a change if and only if the stored votes differ afterwards, rejects exactly the directions outside the four |
| VoteServices.VoteService.CountVotes | server-python/economy/vote_service.py:42-49 | the loop counts the clients standing for each direction |
| VoteProofs.BallotIsLatestVote | server-python/economy/vote_service.py:23-39 | over any history the stored ballot is the client's latest valid vote |
| VoteProofs.TallyCountsLatestVotes | server-python/economy/vote_service.py:42-49 | a tally is the number of clients whose latest valid vote is that direction |
| VoteProofs.TotalIsVoters | server-python/economy/vote_service.py:52-54 | the total is the number of distinct voters |
| VoteProofs.WinnerIsFirstMaximum | server-python/economy/vote_service.py:57-63 | the winner has the most supporters and strictly more than directions listed before it; the default exactly when nobody voted |
| VoteProofs.PulseStartsNeutral | server-python/economy/vote_service.py:66-74 | before the first valid vote nothing is stored and the pulse is "utulivu" |
| VoteProofs.InfluenceEqualsVotes | server-python/economy/vote_service.py:79-82 | the influence of all clients sums to the votes of all scripts |
| VoteProofs.PulseFollowsTheNewestScript | server-python/economy/vote_service.py:66-76 | scripts rank by first vote; after a vote the pulse follows the voted script exactly when it was new or already last |
| Dedupers.Dedupe | server-python/scraper/dedupe.py:28-40 | the loop returns the new articles and grows the caller's set in place by exactly their fingerprints |
| Dedupers.Ingest | server-python/scraper/ingestor.py:103-110 | exactly the usable feed articles not seen before the batch come through, each as often as the feed has it and in feed order, and the store grows by the fingerprints of the whole normalised batch, let through or not |
| Dedupers.Normalize | server-python/scraper/ingestor.py:37-42 | the articles kept are exactly those of feed items with a URL and a text: the title, or the headline for want of a title |
| DedupeProofs.BatchesThreadTheSeenSet | server-python/scraper/dedupe.py:28-40 | deduplicating a concatenation is deduplicating batch by batch with the seen set threaded |
| DedupeProofs.FreshIsNewAndDistinct | server-python/scraper/dedupe.py:35-39 | outputs have pairwise distinct fingerprints, none seen before |
| DedupeProofs.EveryArticleIsSeen | server-python/scraper/dedupe.py:31-38 | every article with a URL is accounted for afterwards |
| DedupeProofs.FreshKeepsOrder | server-python/scraper/dedupe.py:30-40 | the output is a subsequence of the input |
| DedupeProofs.IngestIsDedupeIffNoRepeat | server-python/scraper/ingestor.py:106-108 | ingest filters like dedupe exactly when the batch repeats no unseen fingerprint |
| DedupeProofs.SameFingerprintsRemembered | server-python/scraper/ingestor.py:106-108 | both remember the same fingerprints |
| DedupeProofs.IngestsAreDisjoint | server-python/scraper/ingestor.py:88-115 | no fingerprint comes through two ingests |
| Moods.SummarizeScript | server-python/nlp/memory.py:33-49 | the loops compute the headline and mood of each speaker |
| Moods.CastStates.ApplyWeatherBias | server-python/scraper/ingestor.py:153-156 | shifts every mood in place |
| Moods.CastStates.UpdateStates | server-python/scraper/ingestor.py:159-166 | merges a script's summary into the running states |
| MoodProofs.ScriptMoodInRange | server-python/nlp/memory.py:45-48 | for any lines and any rounding to nearest, a speaker's script mood lies in -180..120 |
| MoodProofs.BothEndsAreReached | server-python/nlp/memory.py:33-49 | scripts of any length reach -180 and 120 |
| MoodProofs.UnknownEmotionsAreNeutral | server-python/nlp/memory.py:33-49 | an emotion outside the table, or a neutral one, moves nobody |
| MoodProofs.OneScriptMovesExactly | server-python/scraper/ingestor.py:159-166 | a character with n lines of valence sum S moves by the d with abs(10nd - 3S) at most 5n, from its old mood or from 0 when new, and no further than -1000 and 1000; one without lines stays as it was |
| MoodProofs.OneScriptMovesLittle | server-python/scraper/ingestor.py:159-166 | one script moves each speaker by at most 180 down or 120 up, gives it the headline as memory, and changes no non-speaker |
| MoodProofs.WeatherShiftsByOffset | server-python/scraper/ingestor.py:153-156 | weather moves every mood by its offset as far as the range allows and touches no memory |
| MoodProofs.MoodsStayInRange | server-python/nlp/memory.py:52-59 | over any run of weather and scripts every mood stays in -1000..1000 |
| MoodProofs.DriftIsBounded | server-python/scraper/ingestor.py:138-145 | n scripts move nobody by more than 180n down or 120n up, and a character who never speaks not at all |
| VoiceBudgets.ElevenLabsProvider.BeginSynthesis | server-python/voice/elevenlabs_client.py:49-61 | rolls the month over, then refuses without key or at the budget, else goes in flight |
| BudgetProofs.BudgetIsWhatTheCapBuys | server-python/voice/elevenlabs_client.py:44-47 | the budget is the largest number of characters the cap pays for at 100 USD a million |
| BudgetProofs.NewMonthFreesTheBudget | server-python/voice/elevenlabs_client.py:52-65 | after any run, a call in another month finds the counter at 0, one in the same month as it was, and it is admitted if and only if there is no cap or the counter is below the budget |
| VoiceBudgets.ElevenLabsProvider.EndSynthesis | server-python/voice/elevenlabs_client.py:75-85 | only an answered call is counted |
| BudgetProofs.OvershootIsBounded | server-python/voice/elevenlabs_client.py:49-79 | with k calls in flight and texts of at most L characters the counter never exceeds budget - 1 + kL, over any interleaving and month change |
| BudgetProofs.OvershootIsReached | server-python/voice/elevenlabs_client.py:57-79 | a run from a new provider ends exactly at that bound, for every budget, k and L of at least one |

## Left out

- OfflineCaches.OfflineCache.SaveManifest: a manifest that cannot be opened for writing, which stays unsaved silently, is not modelled.
- CacheRunProofs.RunsStayFaithful: runs start from an empty directory and never store under the id "manifest"; story ids are plain file names (no path separators).
- OfflineCaches.OfflineCache.LoadManifest: whether the text parses is a parameter (`readable`), in runs too; the precision JSON keeps of stamps, and numbers turned into floats are not modelled; the key order of the JSON text is a parameter.
- OfflineCaches.OfflineCache.LoadScript: whether the file opens and parses is a parameter (`readable`), in runs too.
- OfflineCache `list_scripts`: a library sort by stamp.
- OverlapSpeechPlayers.OverlapSpeechPlayer.DoPlay: the clip dictionary is taken by value, while the caller may go on filling the shared one; signal handlers that call back into the player are not modelled.
- OverlapSpeechPlayers.OverlapSpeechPlayer.OnPlayerFinished: on an empty script with a clip 0 the original indexes out of range; the model treats that line as not overlapping.
- PlayerProofs.TimelineIsExact: real timers fire on the next frame after they are due.
- RateLimiters.RateLimiterMiddleware.Dispatch: the client key is a parameter (forwarded headers and proxies are not modelled).
- CircuitBreakers.CircuitBreaker.RunWithBreaker: closing a rejected coroutine is not modelled.
- RetryProofs.SendsAreBounded: an empty tag, which no caller passes, would reset all counters and is excluded; what a delivered answer means to the screens is outside.
- ResponseEnvelopes.SendWithEnvelope.OnMessage: which paths pass through the middleware (`/api/` less the skipped prefixes) is decided before it.
- EnvelopeProofs.UnwrapUndoesWrap: JSON text is a codec that reads back what it wrote; a "success" member that is not a boolean counts as success for the client.
- VoteProofs.BallotIsLatestVote: votes are assumed to be saved; a failing save loses the vote silently.
- Dedupers.Ingest: the seen set is what the stores returned; source names and dates of articles are not modelled.
- MoodProofs.MoodsStayInRange: binary floating point is not modelled; any rounding to a nearest thousandth is covered.
- VoiceBudgets.ElevenLabsProvider.BeginSynthesis: the month is compared by number only, as in the code, so the same month a year later is not a rollover.
- `CastPanel.register_script` and the labels on screen, mood labels, the Redis fallback, the scheduler, retention, authentication and routes: little state or one-step facts.
- Script generation and templates: content.
