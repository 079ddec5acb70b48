# Screenshot queue: a Dafny model

This project models the core of the screenshot back end of a worksheet-solver web
application:

- **the serial screenshot service** (`server/services/screenshot.ts`). Screenshot ids
  wait in `processingQueue` and are taken one at a time. Each record in storage moves
  from pending to processing and then to completed (with a title and two image paths)
  or to failed (with an error message). The first queue item for the id is then
  removed.
- **the bounded-concurrency service** (`server/services/optimized-screenshot.ts`). Jobs
  wait in a FIFO queue, and at most three render at once. Requests for stylesheets,
  fonts, images and media are aborted. An error whose message names a broken DevTools
  connection counts as a browser crash. A crash relaunches the browser unless the
  restart counter has reached its ceiling of three.
- **the in-memory storage** (`server/storage/vercel-storage.ts`). It holds two
  insertion-ordered maps, screenshots and queue items, and serves the queries both
  services and the HTTP handlers use: by owner, recent, queue order, queue position,
  statistics, and cleanup of old records.
- **the file-serving endpoint** (`api/serve-screenshot.ts`). It answers `GET ?file=<name>`
  with the bytes of `screenshots/<name>`. It accepts only plain `.png` names.

Each file follows the form of its source:

- The storage and the two services are classes whose fields the methods update. Their
  contracts tie the new state to functions of the old one.
- The file handler and the pass logic of the concurrent service are pure functions.
- Loops stay loops: the dispatch loop, the cancellation in `cleanup`, and the deletion
  in `cleanupOldScreenshots`.

**Conventions.**

- Every awaited call into the browser, the file system, the clock or `randomUUID` is a
  parameter. Examples: the outcome of a launch or a render, `now` in milliseconds, and
  the id of a new record.
- Each method runs one event of the service to its end.
- A JavaScript `Map` is modelled as a key order plus a map (`InsertionMaps`), because the
  enumeration order decides ties in the stable sorts and in `find`.
- In the concurrent service, every job carries a ticket that stands for the promise
  `takeScreenshot` returns. The map `settled` records how each promise settled. The
  ghost map `inFlight` holds the jobs that have been dispatched and are not yet settled.

Modules, one per file:

- `Wrappers`: `Option`.
- `Text`: the string operations the code relies on: `includes`, `endsWith`,
  `toString`, `parseInt` and `toFixed(1)`.
- `Sequences`: `filter`, a stable sort and `findIndex`.
- `InsertionMaps`: the JavaScript `Map`.
- `Schema`: the records and the partial update.
- `Storage`: the in-memory storage.
- `SerialService`: the serial service.
- `OptimizedService`: the bounded-concurrency service.
- `ServeScreenshot`: the file-serving endpoint.

Four facts the proofs bring out:

- **No per-job retry bound in the concurrent service.** The comment says "retry once
  after restart", but a successful relaunch resets the restart counter to zero. A job
  whose page keeps crashing therefore runs again after every successful relaunch
  (`OptimizedService.CrashAfterGoodLaunchAlwaysRetries`).
- **Cleanup leaves running jobs alone.** `cleanup` rejects only the jobs still waiting.
  Jobs in flight are not settled by it.
- **A page that fails to close fails the screenshot.** In the serial service the
  `finally` closes the page after the completed update. A close that throws replaces
  the outcome of the take, so the record ends failed while still carrying the title and
  both image paths (`SerialService.Processed`).
- **Queue positions read back exactly.** `getQueueItems` sorts by `parseInt(position)`. The
  positions the serial service writes are numerals, and `parseInt` reads them back
  exactly (`Text.ParseIntNatToString`).

## Model

| member | source | states |
|---|---|---|
| Text.ContainsIff | server/services/optimized-screenshot.ts:244 | the left-to-right scan behind `includes` succeeds exactly when the substring occurs at some index |
| Text.ContainsChar | api/serve-screenshot.ts:18 | `includes` of a one-character string is membership of that character |
| Text.NatToString | server/services/screenshot.ts:34 | `toString` of a count is a non-empty string of decimal digits with no leading zero |
| Text.LeadingDigits | server/storage/vercel-storage.ts:64 | the digits `parseInt` reads are the longest all-digit prefix |
| Text.ParseInt | server/storage/vercel-storage.ts:64 | `parseInt` gives a number exactly when the text starts with a digit, and `NaN` otherwise |
| Text.DigitsValueOfNatToString | server/services/screenshot.ts:34 | the digits written for a count have that count as their value |
| Text.ParseIntNatToString | server/storage/vercel-storage.ts:64 | `parseInt` of a written position gives back the position, so the queue sort orders by the number written |
| Text.HalvesInTenths | server/services/screenshot.ts:35 | `(n * 2.5).toFixed(1)` is the whole part of `n * 5 / 2` followed by ".0" for even `n` and ".5" for odd `n` |
| Sequences.Filter | server/storage/vercel-storage.ts:20-22 | `filter` keeps exactly the elements that pass, is never longer than its input, and keeps a list without repeats without repeats |
| Sequences.FilterCount | server/storage/vercel-storage.ts:20-22 | every occurrence of an element that passes is kept, and no occurrence of any other |
| Sequences.FilterSubMultiset | server/storage/vercel-storage.ts:20-22 | a filter never holds more copies of an element than its input |
| Sequences.FilterAppend | server/storage/vercel-storage.ts:20-22 | filtering a concatenation is concatenating the filtered parts, so the kept elements stay in order |
| Sequences.FilterIsSubsequence | server/storage/vercel-storage.ts:20-22 | the result of `filter` is its input with some elements left out and the rest in their original order |
| Sequences.InsertByTies | server/storage/vercel-storage.ts:63-64 | inserting into a sorted list puts the new element ahead of its equal-key elements and keeps their order |
| Sequences.SortBy | server/storage/vercel-storage.ts:63-64 | `sort` with a numeric comparator returns a permutation of its input, ascending by the key, and stable: elements with equal keys keep their input order |
| Sequences.FindIndex | server/storage/vercel-storage.ts:84 | `findIndex` returns the first index whose element passes, or none when no element passes |
| InsertionMaps.RemoveKey | server/storage/vercel-storage.ts:59 | removing a key from the key order drops exactly that key and shortens the order by one when it was there |
| InsertionMaps.RemoveKeyOrder | server/storage/vercel-storage.ts:59 | removing an absent key leaves the order as it was; removing the key at place `i` closes the gap and keeps every other key in its order |
| InsertionMaps.RemoveFromFiltered | server/storage/vercel-storage.ts:114 | deleting one more key from the keys left after earlier deletions leaves the original keys not deleted so far, in their order |
| InsertionMaps.InsertionMap.Empty | server/storage/vercel-storage.ts:10-13 | a new map is empty and well formed |
| InsertionMaps.InsertionMap.Get | server/storage/vercel-storage.ts:16 | `get` is defined exactly on the stored keys and returns the stored value |
| InsertionMaps.InsertionMap.Set | server/storage/vercel-storage.ts:45 | `set` binds the key, keeps an existing key in its place, and appends a new key at the end of the order |
| InsertionMaps.InsertionMap.Delete | server/storage/vercel-storage.ts:59 | `delete` removes the key and shrinks the size by one exactly when the key was present; the other keys keep their insertion order |
| InsertionMaps.InsertionMap.Values | server/storage/vercel-storage.ts:20 | `values()` lists one value per key, in insertion order |
| InsertionMaps.SizeIsCardinality | server/storage/vercel-storage.ts:95 | the number of values enumerated is the number of entries |
| InsertionMaps.ValuesAreEntries | server/storage/vercel-storage.ts:94 | a value is enumerated exactly when some key maps to it |
| Schema.Apply | server/storage/vercel-storage.ts:53 | merging an update that names no field returns the record unchanged |
| Schema.ApplyFieldwise | server/storage/vercel-storage.ts:53 | in the merge, each field comes from the update when the update names it and from the record otherwise |
| Schema.ApplyIdempotent | server/storage/vercel-storage.ts:53 | merging the same update twice equals merging it once |
| Storage.DistinctUsers | server/storage/vercel-storage.ts:98 | the set of owners holds exactly the owners that occur; it is no larger than the list and not empty for a non-empty list |
| Storage.PrefixSubMultiset | server/storage/vercel-storage.ts:30 | `slice(0, n)` holds no element more often than the whole list |
| Storage.NewestFirst | server/storage/vercel-storage.ts:29-30 | exactly the first ten records, or all candidates when fewer, none more often than among the candidates, newest first; records with the same creation time keep the candidates' order and the ones kept are the first of them; a candidate left out means ten were kept, each at least as new as it |
| Storage.PrefixKeepsTieOrder | server/storage/vercel-storage.ts:29-30 | what a filter keeps of `slice(0, n)` is a prefix of what it keeps of the whole list |
| Storage.DeleteKeepsOrder | server/storage/vercel-storage.ts:114 | each deletion in the loop leaves the original keys not yet deleted, in their order |
| Storage.PercentageBounds | server/storage/vercel-storage.ts:97 | the success rate of a non-empty store lies between 0 and 100 |
| Storage.UsersOfValues | server/storage/vercel-storage.ts:98 | the owners collected from `values()` are exactly the owners of the stored records |
| Storage.KeptIsRemoval | server/storage/vercel-storage.ts:108-116 | keeping the records not created before the cutoff is the same as removing the stale keys, and the size drops by their number |
| Storage.StaleKeysListed | server/storage/vercel-storage.ts:110-112 | the filter over `entries()` lists every stale key exactly once |
| Storage.VercelStorage.constructor | server/storage/vercel-storage.ts:10-13 | a new storage holds no screenshots and no queue items |
| Storage.VercelStorage.GetScreenshot | server/storage/vercel-storage.ts:15-17 | a record is returned exactly when one is stored under the id, and it is that record |
| Storage.VercelStorage.GetScreenshotsByUserId | server/storage/vercel-storage.ts:19-23 | the result holds exactly the stored records owned by the user, each as often as `values()` lists it, in insertion order |
| Storage.VercelStorage.GetRecentScreenshots | server/storage/vercel-storage.ts:25-31 | exactly ten stored records created after the cutoff, or all of them when fewer, none listed more often than stored, newest first, records with the same creation time in insertion order and the earliest of them kept; a qualifying record is missing only when ten newer-or-equal ones are returned |
| Storage.VercelStorage.GetQueueItems | server/storage/vercel-storage.ts:62-65 | every stored queue item exactly once, ascending by numeric position, items with the same position in insertion order |
| Storage.VercelStorage.GetQueuePosition | server/storage/vercel-storage.ts:82-86 | 0 exactly when no item is for the screenshot; otherwise the 1-based place of its first item in queue order |
| Storage.VercelStorage.GetStats | server/storage/vercel-storage.ts:88-106 | the total is the number of records, owners are counted once each (at least one when a record exists), the rate is a percentage, and the average is the constant 1.8 |
| Storage.VercelStorage.CreateScreenshot | server/storage/vercel-storage.ts:33-47 | the new record is pending, has no title, paths or error, is created at `now`, and is stored under its id |
| Storage.VercelStorage.UpdateScreenshot | server/storage/vercel-storage.ts:49-56 | an unknown id changes nothing and yields none; otherwise the merged record replaces the stored one in its place |
| Storage.VercelStorage.DeleteScreenshot | server/storage/vercel-storage.ts:58-60 | the result tells whether the record existed; the records become the map `delete` gives, so the record is gone and the other keys keep their order |
| Storage.VercelStorage.CreateQueueItem | server/storage/vercel-storage.ts:67-76 | the item carries the insert's fields, the new id and `now`, and is stored under that id |
| Storage.VercelStorage.RemoveQueueItem | server/storage/vercel-storage.ts:78-80 | the result tells whether the item existed; the items become the map `delete` gives, so the item is gone and the other keys keep their order |
| Storage.VercelStorage.DeleteAll | server/storage/vercel-storage.ts:114 | deleting the listed keys one after another removes exactly those keys, and the remaining keys keep their order |
| Storage.VercelStorage.CleanupOldScreenshots | server/storage/vercel-storage.ts:108-116 | exactly the records created strictly before the cutoff are deleted, the kept records keep their key order, and the count returned is how many were deleted |
| SerialService.EstimatedTime | server/services/screenshot.ts:35 | the estimate for n queued jobs is n times 2.5 minutes, written with one decimal (".0" or ".5") and " min" |
| SerialService.EstimatedTimeExamples | server/services/screenshot.ts:35 | three jobs read "7.5 min"; four read "10.0 min" |
| SerialService.TakeErrorIff | server/services/screenshot.ts:74-161 | a take throws nothing exactly when the browser is there, the page work succeeds and the page closes cleanly |
| SerialService.Taken | server/services/screenshot.ts:74-161 | the record a take leaves: processing, and completed with the title and both paths once the page work succeeded; id, url, owner, creation time and error message untouched |
| SerialService.Processed | server/services/screenshot.ts:50-61 | a processed record keeps its id, url, creation time and owner; it is completed exactly when nothing threw, carries title and both paths whenever the page work succeeded, and is failed with the thrown message or "Unknown error occurred" otherwise |
| SerialService.FirstItemFor | server/services/screenshot.ts:64-65 | `find` returns the first item in the list for the id, or none when no item is for it |
| SerialService.ScreenshotService.constructor | server/services/screenshot.ts:6-9 | a new service holds no browser, an empty queue and no processing |
| SerialService.ScreenshotService.InitBrowser | server/services/screenshot.ts:11-26 | the browser is launched only when none is held; a failed launch is reported and leaves none |
| SerialService.ScreenshotService.TakeScreenshot | server/services/screenshot.ts:74-161 | an unknown id fails with "Screenshot not found" and changes nothing; otherwise the record becomes the taken record, the error is the one the launch, the page work or the page close threw, and queue items are untouched |
| SerialService.ScreenshotService.Process | server/services/screenshot.ts:53-61 | the record for the id becomes the processed record, the browser is held after a successful launch, and an unknown id changes no record |
| SerialService.ScreenshotService.RemoveFirstItemFor | server/services/screenshot.ts:64-68 | exactly the first queue item for the id, in queue order, is deleted from the item map, the other items keeping their order; with no item for the id the item map is unchanged; records are untouched |
| SerialService.ScreenshotService.ProcessQueue | server/services/screenshot.ts:44-72 | an empty queue only clears the flag and leaves browser and storage as they were; otherwise exactly the head id is taken off, its record is processed, the browser is held after a successful launch, and its first queue item is deleted, the other items keeping their order, or the items stay unchanged when it has none |
| SerialService.ScreenshotService.GetQueueStatus | server/services/screenshot.ts:163-172 | reports the number of queue items, the constant average time, and the number of distinct owners of the stored records |
| SerialService.ScreenshotService.AddToQueue | server/services/screenshot.ts:28-42 | while processing runs, the id joins the tail and an item is stored whose position parses back to the new queue length, with the 2.5-minute estimate, browser untouched; when idle, the id is processed at once, the record keys keeping their order |
| SerialService.ScreenshotService.Cleanup | server/services/screenshot.ts:174-179 | a held browser is forgotten unless closing it throws |
| OptimizedService.InterceptRequest | server/services/optimized-screenshot.ts:190-197 | a request is aborted exactly when its type is stylesheet, font, image or media |
| OptimizedService.InterceptRequestExamples | server/services/optimized-screenshot.ts:192 | documents, scripts and data requests continue; images and fonts are aborted |
| OptimizedService.IsBrowserCrash | server/services/optimized-screenshot.ts:244 | an error is taken for a crash exactly when "Protocol error" or "Session closed" occurs in its message |
| OptimizedService.ProtocolErrorIsCrash | server/services/optimized-screenshot.ts:244 | any message starting with "Protocol error" is a crash |
| OptimizedService.NoCrashWithoutCapitals | server/services/optimized-screenshot.ts:244 | a message without a capital P or S is never taken for a crash, so its job is rejected without a restart |
| OptimizedService.ContainsPrefix | server/services/optimized-screenshot.ts:244 | a message containing a phrase contains every prefix of it |
| OptimizedService.GiveUpMessageValue | server/services/optimized-screenshot.ts:115 | the give-up error reads "Browser crashed 3 times, giving up" |
| OptimizedService.EndOfPass | server/services/optimized-screenshot.ts:237-255 | a pass resolves exactly when nothing failed; it retries only after a crash and a successful relaunch; any other error rejects the job with its own message |
| OptimizedService.AfterPass | server/services/optimized-screenshot.ts:164-255 | the browser and restart counter after a pass keep the counter within 0..3 with no browser while restarts are pending; a resolved pass holds a connected browser and a retry a fresh one with the counter at 0 |
| OptimizedService.FailedRelaunchCounts | server/services/optimized-screenshot.ts:111-131 | a crash below the ceiling, thrown by the launch or by the page work, whose relaunch fails leaves no browser and one more restart counted, and rejects the job with "Browser restart failed: " and the relaunch error |
| OptimizedService.RenderCrashFailedRelaunch | server/services/optimized-screenshot.ts:243-250 | with a connected browser, page work that crashes below the ceiling and a failed relaunch leave no browser and the counter one higher |
| OptimizedService.CrashAfterGoodLaunchAlwaysRetries | server/services/optimized-screenshot.ts:246-248 | a crash followed by a successful relaunch always retries, even at the ceiling right after a fresh launch, so no job has a retry bound |
| OptimizedService.GivesUpAtCeiling | server/services/optimized-screenshot.ts:114-116 | at the ceiling, a crashing launch rejects the job with "Browser restart failed: " and the give-up message |
| OptimizedService.EnqueueKeepsTickets | server/services/optimized-screenshot.ts:135 | appending a job with the next ticket keeps the ticket bookkeeping |
| OptimizedService.DispatchKeepsTickets | server/services/optimized-screenshot.ts:147-149 | moving the head into flight uses a free slot and keeps the bookkeeping |
| OptimizedService.DispatchManyKeepsTickets | server/services/optimized-screenshot.ts:147-159 | dispatching the first k jobs one after another keeps the bookkeeping |
| OptimizedService.SettleKeepsTickets | server/services/optimized-screenshot.ts:152-153 | settling a job in flight frees its slot and keeps the bookkeeping |
| OptimizedService.CancelAllKeepsTickets | server/services/optimized-screenshot.ts:292-295 | rejecting every waiting job and emptying the queue keeps the bookkeeping |
| OptimizedService.OptimizedScreenshotService.constructor | server/services/optimized-screenshot.ts:13-20 | a new service has no browser, no jobs and no restarts |
| OptimizedService.OptimizedScreenshotService.TakeScreenshot | server/services/optimized-screenshot.ts:133-138 | the job gets the next ticket; it starts at once exactly when a slot is free and otherwise waits at the tail |
| OptimizedService.OptimizedScreenshotService.ProcessQueue | server/services/optimized-screenshot.ts:140-162 | unless a loop runs, a prefix of the queue moves into flight in order until the queue is empty or all three slots are taken, each taking one slot |
| OptimizedService.OptimizedScreenshotService.DispatchWhileFree | server/services/optimized-screenshot.ts:147-159 | the loop stops with an empty queue or all slots taken, having dispatched a prefix of the queue |
| OptimizedService.OptimizedScreenshotService.InitBrowser | server/services/optimized-screenshot.ts:33-109 | a connected browser is kept; otherwise a successful launch installs one and resets the restart counter, and a failed launch changes nothing |
| OptimizedService.OptimizedScreenshotService.HandleBrowserCrash | server/services/optimized-screenshot.ts:111-131 | at the ceiling it gives up and changes nothing; otherwise it counts a restart, drops the browser and relaunches |
| OptimizedService.OptimizedScreenshotService.Finish | server/services/optimized-screenshot.ts:152-158 | the job's promise is settled, its slot freed, and the head of the queue, if any, takes the slot |
| OptimizedService.OptimizedScreenshotService.ProcessScreenshot | server/services/optimized-screenshot.ts:164-265 | one pass leaves the browser and counter as the pass logic says and either settles the job as it says and frees its slot, or hands it to the queue head, which joins the jobs in flight; or leaves it in flight |
| OptimizedService.OptimizedScreenshotService.PassOverBrowser | server/services/optimized-screenshot.ts:167-255 | the browser side of a pass ends as the pass logic says, with the browser and counter it gives, and keeps the restart counter within its bounds |
| OptimizedService.OptimizedScreenshotService.BrowserDisconnected | server/services/optimized-screenshot.ts:34-36 | after a disconnect the held handle no longer counts as connected |
| OptimizedService.OptimizedScreenshotService.GetStatus | server/services/optimized-screenshot.ts:267-275 | the report shows the queue length, the active pages, the connection and the restart counter as they are, with active pages within 0..3, all three busy when jobs wait, and no connected browser while restarts are pending |
| OptimizedService.OptimizedScreenshotService.Cleanup | server/services/optimized-screenshot.ts:277-296 | drops the browser, rejects every waiting job with "Service is shutting down", keeps earlier settlements and empties the queue |
| OptimizedService.FiveJobs | server/services/optimized-screenshot.ts:133-162 | five jobs on a new service: three run and the last two wait in arrival order |
| ServeScreenshot.DoubleDot | api/serve-screenshot.ts:18 | `includes('..')` holds exactly when two adjacent dots occur |
| ServeScreenshot.SafeFileName | api/serve-screenshot.ts:18-21 | the string tests accept exactly names of at least four characters ending in ".png", with no "/" and no two adjacent dots |
| ServeScreenshot.AcceptedNameIsDirectChild | api/serve-screenshot.ts:22 | an accepted name joins to a direct child of the screenshots directory that is neither "." nor ".." |
| ServeScreenshot.Handler | api/serve-screenshot.ts:5-38 | 405 exactly for a method other than GET, 400 exactly for a missing, repeated or unsafe name, 404 exactly when the file cannot be read, and otherwise 200 with the file's bytes and the PNG and one-year cache headers |
| ServeScreenshot.ReadsOnlyServedPath | api/serve-screenshot.ts:22-33 | the answer depends on the file system only through the one joined path, and a refused request reads nothing |
| ServeScreenshot.RefusedNames | api/serve-screenshot.ts:18-21 | a traversal attempt and a name with a directory part are refused with 400, and a POST with 405 |

## Left out

- Browser automation (launch flags, viewport, user agent, navigation, waits, the injected
  script, page titles and captures), the PNG compression, directory creation and file
  writes. Each is reduced to an outcome passed in as a parameter: success with a title,
  or a thrown error.
- The random choice of the mobile user agent, because its value never reaches state or
  results.
- Timers: the one-second pause before the serial service's next run and the two-second
  pause before a relaunch. The next run is a separate call of `ProcessQueue`.
- Interleavings inside an awaited sequence. Each method runs one event to its end, so
  two passes never interleave halfway.
- `process.on('SIGTERM' | 'SIGINT')` handlers, console logging and the compression-ratio
  figure.
- Errors from `page.close()` in the concurrent service: it catches and logs them, so they
  change nothing. In the serial service they are modelled (`Capture.closeError`).
- The 500 branch of the file handler. Nothing inside its outer `try` can throw except the
  file read, which has its own `catch`.
- `server/storage.ts` is not part of this model. The serial service's `storage` singleton
  is a `VercelStorage` instance passed to its constructor.
- Thrown values in the concurrent service: a non-`Error` is modelled as its message
  (`String(error)`), because only the message reaches the settlement.
- Text.ParseInt: reads only a leading run of decimal digits, with no whitespace, sign or
  radix prefix. An unparsable position sorts as 0, whereas the comparator gives NaN. All
  positions the services write are numerals.
- Storage.VercelStorage.GetStats: states the success rate before
  `parseFloat(toFixed(1))`, because decimal rounding of reals is not modelled; only its
  bounds are stated.
- SerialService.ScreenshotService.AddToQueue: when no processing runs, does not state
  what becomes of the new queue item, which the run it starts may remove again.
- `Date` objects: they are modelled as millisecond numbers. A record without a creation
  time is neither recent nor old, as in the source's truthiness test.
- Integer widths: JavaScript numbers are modelled as unbounded integers. The counts
  involved stay far below 2^53.
- Storage.DistinctUsers: an owner is `Option<string>`, so a record created without a
  `userId` and one created with `userId: null` have the same owner. The source's
  `Set` counts `undefined` and `null` as two owners, so the model's count can be one
  lower.
- Storage.VercelStorage.GetStats: for the same reason, `activeUsers` can be one lower
  than the source's when both a missing and a `null` owner are stored.
- SerialService.ScreenshotService.GetQueueStatus: reports the same owner count as
  `GetStats`, so it has the same gap for missing and `null` owners.
