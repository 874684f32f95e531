# Verification of the scanner's stateful cores

A Dafny 4.11 model of the parts of this repository whose correctness is not visible from reading one function,
with proofs over every input, every run or every interleaving. `dafny verify dfyconfig.toml` checks all of it.

| module | models |
|---|---|
| `Text`, `Sequences`, `Calendar` | Strings, permutations and sorting, and the Gregorian calendar, as the others need them |
| `Lifecycle`, `LifecycleTask`, `LifecycleRuns`, `LifecycleTheorems`, `LifecycleProgress` | Browser tasks: `Factory.Open`, session leases, the browser pool and both `Close` methods, as a transition system over any number of concurrent tasks |
| `AdapterHooks` | `Adapter.Close`, `AddCloseHook` and the network-capture gate for any number of hooks, captures and callers |
| `Lease`, `Soxy`, `SoxyRuns` | One egress lease under `Close`, renewal, reports and cancellation; acquiring a lease and a Soxy session; any number of acquisitions and leases interleaved |
| `CaptureDisk`, `CaptureStore`, `CaptureRoundTrip` | The capture directory with a crash possible after every elementary file operation; `Save`, `Clear` and reading back |
| `CaptureLines`, `CaptureQuery`, `CaptureIndex`, `CaptureCodec` | The index as bytes: its lines, `List` and `Stats`, and what they see of appends that completed or tore; that encodings as the index needs them exist |
| `HttpBody` | The response body that stages what is read from it |
| `RateLimit`, `RateLimitRuns` | The per-host circuit breaker for HTTP 429 |
| `Schedule` | Calendar dates from date-button labels, weekday filter, shards |
| `SeatMap`, `SeatLayout`, `SeatMapParser`, `SeatAvailability` | The normalised seat layout, its canonical form, and live availability from the same payload |

The concurrent protocols are transition systems with one step for each critical section, channel operation or
external call; their theorems speak of every sequence of enabled steps. Objects that one goroutine at a time
updates are classes, each method proved against a pure step function, and the theorems are about sequences of
those steps. Failures of files, of the Soxy service, of the browser and of the random source are arbitrary
choices, and time is a parameter in nanoseconds.

Results that a reader of the code might not expect:

- An index append that stops anywhere inside its line loses its own entry and also the next, successful one. A
  completed append adds its entry to what the index decodes to exactly when the file ended in a newline or was
  empty (`CaptureIndex.AppendedEntryReadable`, `CaptureIndex.TornAppendSwallowsNext`).
- `safeID` is not injective. After any later saves, an exchange saved under a safe name reads back exactly when no
  manifest of its name was stored on another day and the last manifest stored under its own name and day is its
  own; saving id `a/b` after `a_b` on one day makes `a_b` read as the other exchange
  (`CaptureRoundTrip.ReadsBackExactly`, `CaptureRoundTrip.CollidingIdReplaces`).
- An error from closing the inner response body can never reach the saved exchange: by the time `Close` has that
  error, draining has already triggered the save (`HttpBody.SaveIsTheWholeBody`).
- Date labels decode exactly when no earlier date from today on has the same weekday and day of the month. This
  holds for any dates within 28 days. Up to 59 days ahead it fails only for a date 28 days after a day of a
  common-year February (`Schedule.LabelsDecode`, `Schedule.AmbiguousOnlyAfterFebruary`,
  `Schedule.FourWeeksIsTheLimit`).
- Seat identities tell labels apart exactly when lower-casing keeps upper-case characters apart. Unicode's does not:
  a payload with seat 1 in rows named by the Kelvin sign U+212A and by K can be accepted as a layout and then never
  reports availability (`SeatAvailability.SeatIdsAreProper`, `SeatAvailability.KelvinRowsCollide`,
  `SeatAvailability.SharedIdIsIncomplete`).
- The cap of 20 on the backoff exponent can never be observed (`RateLimitRuns.BaseDelayIsCappedDoubling`).

## Model

| member | source | states |
|---|---|---|
| `LifecycleTask.ActionKeepsTask` | internal/provider/cgv/browser/factory.go:184-274 | Whatever statement of opening, unwinding or closing a task executes next, it keeps the full account of what that task owns: slot, session token, own lease, scan profile, pool token, browser process and both close hooks |
| `LifecycleRuns.StepKeepsSlots` | internal/provider/cgv/browser/factory.go:179-193 | Every step keeps free and held slots together exactly 0, 1 and 2, each once |
| `LifecycleRuns.StepKeepsSession` | internal/provider/cgv/browser/factory.go:155-171 | Every step keeps the session token in its channel or with exactly one task |
| `LifecycleRuns.StepKeepsTokens` | internal/provider/cgv/browser.go:192-202 | Every step keeps pool tokens in the channel plus tokens held equal to the capacity |
| `LifecycleRuns.StepKeepsPoolPhase` | internal/provider/cgv/browser.go:220-275 | While the pool closes, its snapshot covers every active adapter, and after the wait no opening is in flight and none can begin |
| `LifecycleRuns.StepKeepsLeases` | internal/provider/cgv/browser/factory.go:286-313 | Every open session lease is the published one or in the hands of the one task replacing it |
| `LifecycleRuns.StepKeepsDirs` | internal/provider/cgv/browser/factory.go:336-345 | Every step keeps the scan profile directories of different tasks different |
| `LifecycleRuns.RunKeepsInv` | internal/provider/cgv/browser/factory.go:148-274 | All of the above hold in every state of every run |
| `LifecycleTheorems.SlotsAreConserved` | internal/provider/cgv/browser/factory.go:148-193 | In every interleaving each of the three slots is either free, once, or held by exactly one task |
| `LifecycleTheorems.SessionTokenIsConserved` | internal/provider/cgv/browser/factory.go:155-171 | In every interleaving the session token is free exactly when no task holds it, and no two tasks hold it |
| `LifecycleTheorems.PoolTokensAreConserved` | internal/provider/cgv/browser.go:188-256 | Pool tokens in the channel and with openings or active adapters always add up to the capacity |
| `LifecycleTheorems.ReturnsFindRoom` | internal/provider/cgv/browser/factory.go:166-193 | Whenever a slot, session token or pool token is sent back its channel has room, so no return blocks |
| `LifecycleTheorems.SlotReturnsLast` | internal/provider/cgv/browser/factory.go:255-264 | A task returns its slot once, and only after its own lease is closed, its scan profile removed and its browser stopped |
| `LifecycleTheorems.AccountProfileIsExclusive` | internal/provider/cgv/browser/factory.go:334-348 | At most one live browser uses the account profile, and its task holds the session token and a slot |
| `LifecycleTheorems.ProfilesFollowPurposes` | internal/provider/cgv/browser/factory.go:276-284 | A live scan browser runs in a scan directory made for it, a live session browser on the account profile, and a task of any other purpose never has a live browser |
| `LifecycleTheorems.ScansHaveTheirOwnDirectory` | internal/provider/cgv/browser/factory.go:336-345 | Two live scan browsers never share a profile directory |
| `LifecycleTheorems.HooksRunOnce` | internal/provider/cgv/browser.go:715-753 | The pool's and the factory's close hook run at most once, with the browser stopped, and exactly once when the adapter has closed and Open has returned |
| `LifecycleTheorems.PoolStaysClosed` | internal/provider/cgv/browser.go:258-275 | A closed pool never reopens |
| `LifecycleTheorems.ClosedPoolIsQuiet` | internal/provider/cgv/browser.go:258-275 | From the return of BrowserPool.Close on, no adapter is active or live, no opening is in flight and no later NewAdapter can start or succeed |
| `LifecycleTheorems.SessionLeasesAreExclusive` | internal/provider/cgv/browser/factory.go:351-367 | At most one session lease is open, and none is after Factory.Close once no leaseForTask is in flight |
| `LifecycleTheorems.ClosedFactoryIsQuiet` | internal/provider/cgv/browser/factory.go:351-367 | After Factory.Close no browser of any task is live |
| `LifecycleTheorems.NothingLeaks` | internal/provider/cgv/browser/factory.go:184-274 | When every task has failed or been closed, all slots and tokens are back and no lease, profile or browser of a task remains |
| `LifecycleTheorems.CloseTerminates` | internal/provider/cgv/browser.go:715-737 | The goroutine inside Adapter.Close can take its next step, or waits for running captures or for an extend call of its own lease; each of its steps leaves strictly less to do, no other step of the task adds work, and no step adds a capture |
| `LifecycleProgress.ClosingMovesOn` | internal/provider/cgv/browser/factory.go:351-367 | While Factory.Close or the pool's Close is in progress, one of their steps or of a task they wait for can be taken, or what they wait for waits for a capture or an extend call |
| `LifecycleProgress.ActionShrinksWork` | internal/provider/cgv/browser/factory.go:148-274 | Whatever statement of Open, its clean-ups or Adapter.Close a task executes next, it has strictly fewer left, and never more than 34 |
| `LifecycleProgress.PoolFlagComesFirst` | internal/provider/cgv/browser/factory.go:351-362 | Between Factory.Close setting its flag and the pool setting its own, setting the latter is the only step of a Close or of a task it waits for |
| `LifecycleProgress.EveryStepHelps` | internal/provider/cgv/browser.go:250-267 | From the moment factory and pool are flagged as closed, a natural number falls with each step of the Close methods and of every task they wait for, and no step of anything else raises it |
| `LifecycleProgress.CloseIsBounded` | internal/provider/cgv/browser/factory.go:351-367 | Hence in any run only as many such steps are ever taken as that number said at first, so with ClosingMovesOn a Close that is not held up by captures or extend calls returns |
| `LifecycleProgress.NothingLeft` | internal/provider/cgv/browser/factory.go:351-367 | That number is zero exactly when Factory.Close has returned |
| `AdapterHooks.RunKeeps` | internal/provider/cgv/browser.go:741-753 | Every hook handed over is in exactly one place: registered, copied, refused or run |
| `AdapterHooks.EveryHookRunsOnce` | internal/provider/cgv/browser.go:715-753 | However AddCloseHook, Close and the watcher interleave, no hook runs twice or with the browser live, and after Close only hooks whose own callers are about to run them are still missing |
| `AdapterHooks.CapturesStayStopped` | internal/provider/cgv/http_logging.go:64-79 | Once stopNetworkCapture has returned no capture runs and none can ever begin |
| `AdapterHooks.BrowserStopsAfterCaptures` | internal/provider/cgv/browser.go:716-727 | The browser stops only after the last capture has ended |
| `Lease.ReleaseIsLast` | internal/egress/egress.go:582-593 | Release is called at most once and no extend call starts after it |
| `Lease.RenewalIsAbandonedExactly` | internal/egress/egress.go:597-620 | The renewal loop has given up exactly when the last maxErrors extends all failed; the renewal error is the cancel cause only then |
| `Lease.AbandonedLeaseIsCancelled` | internal/egress/egress.go:606-612 | Giving up cancels a lease nobody had cancelled with the renewal error; earlier failures leave the cause alone and the loop running |
| `Lease.ReportsAreAcceptedOnce` | internal/egress/egress.go:531-549 | At most one provider failure is accepted, and a refused report leaves the lease open to another |
| `Lease.CloseWaitsOnlyForTheKeeper` | internal/egress/egress.go:582-593 | A waiting Close can release, or the renewal loop can leave, or one extend call is still out |
| `Lease.RenewalRetryDelay` | internal/egress/egress.go:622-631 | The retry pause lies between 1 ms and 5 s and is a tenth of the interval, rounded down, when that lies between them |
| `Soxy.Manager.AvailableSlots` | internal/egress/soxy.go:176-193 | One listing call; offers exactly the ids of usable slots, and reports missing capacity when there are none |
| `Soxy.Manager.CreateSession` | internal/egress/soxy.go:195-213 | Returns only ready sessions; a decoded session that is not ready is released if it has an id |
| `Soxy.Manager.AcquireRandomSoxySession` | internal/egress/egress.go:442-465 | The calls form a listing followed by busy answers for distinct offered slots and one concluding answer, whatever the random source does |
| `Soxy.SwapRemove` | internal/egress/egress.go:452-454 | Overwriting by the last slot and shortening removes exactly the chosen slot |
| `Soxy.SlotsAreTriedOnce` | internal/egress/egress.go:447-463 | No slot is tried more often than it was offered |
| `Soxy.CapacityErrorMeansAllBusy` | internal/egress/egress.go:459-464 | Missing capacity is reported only after every available slot answered 409 or 404 |
| `Soxy.FirstSessionWins` | internal/egress/egress.go:455-458 | A successful search returns the first session created |
| `Soxy.SearchLeavesOnlyItsResult` | internal/egress/egress.go:442-465 | After the search the only session newly outstanding at the service is the one returned |
| `Soxy.RandomSearchOwnsItsResult` | internal/egress/egress.go:442-465 | The same for listing and search together, and the returned session is usable |
| `Soxy.Manager.Acquire` | internal/egress/egress.go:385-440 | Standard proxies first, then scan proxies for scans, then direct, then Soxy, with no remote call before its turn; every session decoded with an id is owned by the lease returned or has had its release attempted |
| `Soxy.Manager.AcquireForPolicy` | internal/egress/egress.go:371-383 | Any purpose but scanning and any policy but the default is rejected without a remote call |
| `Soxy.Manager.ReleaseLease` | internal/egress/egress.go:429-431 | Closing a managed lease gives up exactly its own session |
| `SoxyRuns.StepKeepsLedger` | internal/egress/soxy.go:195-213 | Whatever the service answers, every step of an acquisition or a Lease.Close keeps the sessions decoded equal to those in some hand plus the releases attempted |
| `SoxyRuns.SessionsAreOwned` | internal/egress/egress.go:406-439 | In every interleaving of any number of acquisitions and Lease.Close calls, each session decoded with an id is with exactly one acquisition or unreleased lease, or has had its one release attempted |
| `SoxyRuns.NoSessionLeaks` | internal/egress/egress.go:582-593 | When every acquisition has failed or its lease has been closed, a release was attempted for exactly every session |
| `SoxyRuns.EachSearchesAlone` | internal/egress/egress.go:442-465 | However acquisitions interleave, each one's own calls form a listing and search with its result |
| `SoxyRuns.SearchPromises` | internal/egress/egress.go:442-465 | In every interleaving a scan's acquisition past its listing has tried no slot more often than it was offered, whatever became of it; missing capacity means every offered slot answered 409 or 404; and a lease, open or released, holds the ready session that the last of its own calls created, with a valid proxy, every call before answered 409 or 404 |
| `CaptureDisk.SafeKeepsConsistent` | networkcapture/store.go:277-359 | The order blob, manifest, index entry for writes, and its mirror image for deletes, keeps index, manifests and blobs consistent at each elementary operation |
| `CaptureDisk.ManifestNeedsBodies` | networkcapture/store.go:285-319 | Putting a manifest in place keeps the directory consistent exactly when the bodies it describes are stored |
| `CaptureDisk.EveryCrashPointConsistent` | networkcapture/store.go:200-225 | Hence a crash after any elementary operation leaves a consistent directory |
| `CaptureDisk.ReadExchange` | networkcapture/query.go:182-206 | Below a root without glob characters, a successful read returns a stored manifest of exactly that name |
| `CaptureDisk.ReadBack` | networkcapture/query.go:187-196 | A manifest is found under its name exactly when no other day holds the name; otherwise the id is reported as not unique |
| `CaptureStore.Store.SaveBody` | networkcapture/store.go:382-402 | On success the contents are the blob named by their hash; on failure no blob changes |
| `CaptureStore.Store.SaveBodyFile` | networkcapture/store.go:404-452 | The same Body as the in-memory route gives for equal contents, and the same blob |
| `CaptureStore.Store.AppendIndex` | networkcapture/store.go:344-359 | Success appends one whole line, byte by byte; failure any first part of it, or nothing |
| `CaptureStore.Store.Save` | networkcapture/store.go:232-367 | For any record, every crash point inside is consistent, except that the manifest of a record describing a body it does not supply and that is not stored may lack that body; what was started before the last Clear or is not worth keeping leaves the disk alone; success stores manifest, index line and both bodies; a failure at most leaves blobs, the manifest and part of a line |
| `CaptureStore.Store.Clear` | networkcapture/store.go:200-225 | Every crash point inside is consistent, also when it stops early; success empties everything, leftover temporary files included, and from then on no stored exchange started before the clear |
| `CaptureRoundTrip.SavedExchangeReadsBack` | networkcapture/query.go:182-206 | Right after Save an exchange with a safe name reads back as persisted, exactly when no other day holds its name |
| `CaptureRoundTrip.LaterSavesKeep` | networkcapture/store.go:232-367 | Any number of later saves under other names, failed ones included, change neither what an id reads nor any blob |
| `CaptureRoundTrip.ReadsBackExactly` | networkcapture/query.go:182-206 | After any later saves, completed or not, an exchange saved under a safe name reads back if and only if no manifest of its name was stored on another day and the last manifest stored under its key is its own |
| `CaptureRoundTrip.CollidingIdReplaces` | networkcapture/store.go:311-317 | The failing input: after `a_b` and `a/b` saved on one day, reading `a_b` gives the exchange of `a/b` |
| `CaptureRoundTrip.SecondDayHides` | networkcapture/query.go:194-196 | The other failing input: one name on two days reads as not unique |
| `CaptureRoundTrip.RoundTrip` | networkcapture/query.go:182-230 | Hence an exchange saved under a safe name used once still reads back, with its bytes, after any later saves under other names |
| `CaptureLines.SeekThenSkipIsSuffix` | networkcapture/query.go:79-90 | Seeking to any offset and skipping one line yields trailing whole lines of the file, never a fragment |
| `CaptureLines.AppendLine` | networkcapture/store.go:352 | Appending a line to any file adds it to the file's lines if and only if the file ended in a newline or was empty; otherwise it is glued to the line left over |
| `CaptureIndex.IndexDecodes` | networkcapture/query.go:163-167 | After any appends, each cut short anywhere or completed, the bytes of the index decode to exactly the entries on lines of their own and one that lacks nothing but its newline |
| `CaptureIndex.AppendedEntryReadable` | networkcapture/store.go:344-359 | A completed append adds its entry to what the index decodes to exactly when the file ended in a newline or was empty; otherwise it adds nothing and hides the entry that lacked its newline |
| `CaptureIndex.TornAppendSwallowsNext` | networkcapture/store.go:352-359 | An append cut short at any byte and the next, successful append together leave nothing that decodes |
| `CaptureIndex.SavesAreDecoded` | networkcapture/store.go:322-359 | Completed saves on an index without a torn line add exactly their summaries, in order, to what it decodes to |
| `CaptureIndex.SavesAreListed` | networkcapture/query.go:143-173 | What List and Stats then look at is the newest of all summaries, old and new, and every matching one of them while the index fits the tail |
| `CaptureQuery.TailLinesAreSuffix` | networkcapture/query.go:143-154 | The lines looked at are a suffix of the index, and all of it up to 64 MiB |
| `CaptureQuery.SeekTail` | networkcapture/query.go:79-90 | What is left after seeking and skipping has exactly the tail's lines; gives up only on a skipped line too long for the scanner |
| `CaptureQuery.List` | networkcapture/query.go:129-180 | Scanning line by line gives a permutation, newest first, of the last `limit` matching entries; it fails exactly when some line is too long for the scanner |
| `CaptureQuery.AddSummaryStats` | networkcapture/query.go:105-118 | Counting one more entry keeps each counter equal to the number of entries of its kind |
| `CaptureQuery.TalliesCompare` | networkcapture/query.go:105-118 | Over any entries, blocked plus provider-sent never exceeds captured, and 429s are failures, which are captures |
| `CaptureQuery.Stats` | networkcapture/query.go:65-103 | The counters count exactly the matching entries of the same tail that List reads, and obey those inequalities |
| `HttpBody.CapturingBody.Read` | networkcapture/http.go:145-157 | Passes on the inner reader's answer unchanged and takes the capture one step |
| `HttpBody.CapturingBody.Close` | networkcapture/http.go:159-167 | Drains what is left through the capture before completing, and returns the inner close error |
| `HttpBody.CallersSeeTheInnerReader` | networkcapture/http.go:145-157 | Until Close, a caller's reads return exactly the inner reader's answers in order |
| `HttpBody.RunKeepsFate` | networkcapture/http.go:145-177 | No sequence of Read and Close calls changes the one save that a body will make or has made |
| `HttpBody.SavedExactlyOnce` | networkcapture/http.go:169-177 | For every sequence of calls there is at most one save, and there is one exactly when some call was Close or some read met the end |
| `HttpBody.DrainStages` | networkcapture/http.go:147-149 | Draining stages all remaining bytes if the staging file is open and never fails, and otherwise only a prefix |
| `HttpBody.SaveIsTheWholeBody` | networkcapture/http.go:133-177 | However the caller reads and closes, the save carries the body's own read error and the whole body, or a prefix after a staging failure; never the error of closing |
| `RateLimit.RateLimitGate.Allow` | networkcapture/ratelimit.go:54-72 | Grants exactly what Blocked would not refuse; an expired circuit goes half-open; other keys are untouched |
| `RateLimit.RateLimitGate.Blocked` | networkcapture/ratelimit.go:75-88 | Reports what Allow would refuse, without reserving the probe |
| `RateLimit.RateLimitGate.Observe429` | networkcapture/ratelimit.go:92-131 | Opens, extends or reopens only its own key's circuit and reports where the deadline came from |
| `RateLimit.RateLimitGate.ObserveSuccess` | networkcapture/ratelimit.go:146-159 | Closes exactly a half-open circuit |
| `RateLimit.RateLimitGate.ObserveFailure` | networkcapture/ratelimit.go:164-187 | Reopens exactly a half-open circuit |
| `RateLimitRuns.KeysAreIndependent` | networkcapture/ratelimit.go:54-187 | After any events the circuit of a key depends on that key's events only |
| `RateLimitRuns.BaseDelayIsCappedDoubling` | networkcapture/ratelimit.go:115-119 | Before jitter the n-th delay is min(30 s * 2^(n-1), 15 min) for every n, so the exponent cap is never visible |
| `RateLimitRuns.FallbackDelaysGrow` | networkcapture/ratelimit.go:112-130 | Every fallback delay lies between that and 15 min, and a later one is never shorter, whatever the jitter |
| `RateLimitRuns.StepKeeps` | networkcapture/ratelimit.go:92-187 | A half-open circuit has passed its deadline, deadlines never shrink, and each escalation strictly raises the deadline into the future |
| `RateLimitRuns.DeadlineNeverShrinks` | networkcapture/ratelimit.go:105-128 | Between probe successes a key's deadline never decreases |
| `RateLimitRuns.EscalationRaisesDeadline` | networkcapture/ratelimit.go:112-128 | An escalation anywhere in between makes it strictly later |
| `RateLimitRuns.GrantsRespectDeadlines` | networkcapture/ratelimit.go:65-71 | No request is granted before any earlier deadline unless a probe succeeded in between |
| `RateLimitRuns.ProbesAreSeparated` | networkcapture/ratelimit.go:67-71 | Between two half-open grants on a key lies a success, a 429 or a failed probe |
| `RateLimitRuns.FailuresCountEscalations` | networkcapture/ratelimit.go:112-176 | The failure counter is the number of escalations since the circuit last closed |
| `RateLimitRuns.ProbesAreExponentiallyRare` | networkcapture/ratelimit.go:112-130 | With fallback delays only, the n-th probe without a success comes no earlier than the sum of the first n doubled delays after the first 429 |
| `Calendar.AddDaysNumber` | internal/provider/cgv/schedule.go:333-334 | Counting days forward agrees with the closed-form day number of the Gregorian calendar |
| `Calendar.DayComesBack` | internal/provider/cgv/schedule.go:330-332 | Over less than 59 days a day of the month recurs only after exactly one month |
| `Calendar.SameLabelAgain` | internal/provider/cgv/schedule.go:330-332 | Over less than 59 days weekday and day of the month recur together exactly 28 days after a day of a common-year February |
| `Schedule.FormsDecode` | internal/provider/cgv/schedule.go:491-500 | Every label form is already normal, and its word and its number can be read back from it |
| `Schedule.SharedLabel` | internal/provider/cgv/schedule.go:491-500 | Two dates, one of them not today, share a label only if weekday and day of the month agree |
| `Schedule.AvailableScheduleDates` | internal/provider/cgv/schedule.go:323-355 | The early-exit loop finds what searching the whole 400 days would find, and fails exactly when that is nothing |
| `Schedule.MatchedExact` | internal/provider/cgv/schedule.go:333-350 | The dates found are, strictly increasing, exactly those within the horizon that are nearest from today for some offered label |
| `Schedule.LabelsDecode` | internal/provider/cgv/schedule.go:323-355 | The labels of any dates within the horizon decode to exactly those dates if and only if none of them has an earlier date with the same weekday and day |
| `Schedule.AmbiguousOnlyAfterFebruary` | internal/provider/cgv/schedule.go:330-332 | Within 59 days that condition fails exactly 28 days after a day of a common-year February |
| `Schedule.FourWeeksDecode` | internal/provider/cgv/schedule.go:323-355 | Any dates of the 28 days from today are recovered exactly from their labels |
| `Schedule.FourWeeksIsTheLimit` | internal/provider/cgv/schedule.go:330-332 | The failing input: on 1 February 2026 no labels of 1 March decode to 1 March, 28 days ahead |
| `Schedule.FilterByWeekdays` | internal/provider/cgv/schedule.go:281-307 | Fails exactly on an invalid weekday; no weekday at all keeps every date |
| `Schedule.OnWeekdaysExact` | internal/provider/cgv/schedule.go:292-306 | Filtering keeps exactly the dates on selected weekdays and their chronological order |
| `Schedule.ShardDate` | internal/provider/cgv/schedule.go:103-117 | A shard refreshes one of the available dates on the selected weekdays, or none when there is none; negative shards count as zero |
| `Schedule.ShardsVisitEachOnce` | internal/provider/cgv/schedule.go:114-117 | Any n consecutive non-negative shard numbers visit n dates in rotation, each exactly once |
| `SeatMap.NormalizeKeepsOrder` | internal/provider/cgv/seat_map_snapshot.go:432-438 | Exactly the points of the board's axis are accepted, they land in [0, 1], and their order is kept |
| `SeatMap.LabelIsNormal` | internal/provider/cgv/seat_map_snapshot.go:271-281 | For any upper-casing that does nothing twice and leaves white space and digits alone, a seat label is its own trimmed upper-case form, so the upper-casing inside the seat identity does not merge labels |
| `SeatLayout.CanonicalStringsExact` | internal/provider/cgv/seat_map_snapshot.go:175-185 | The canonical strings are the non-blank trimmed values, sorted and each once |
| `SeatLayout.CanonicalSeatAgain` | internal/provider/cgv/seat_map_snapshot.go:137-154 | Canonicalising a seat twice is canonicalising it once |
| `SeatLayout.AcceptanceIsOrderFree` | internal/provider/cgv/seat_map_snapshot.go:98-131 | Reordering the items, and the seats, zones and blocks inside them, does not change whether a payload is accepted |
| `SeatLayout.LayoutIsOrderFree` | internal/provider/cgv/seat_map_snapshot.go:108-131 | Nor, under any such upper-casing of row names, does it change the seat sequence of the layout, or its zones and blocks when their trimmed codes and names differ pairwise |
| `SeatLayout.LayoutIsNormal` | internal/provider/cgv/seat_map_snapshot.go:134-173 | Every seat, zone and block of a layout lies in the unit square, boxes are ordered, and canonicalising the layout again changes nothing |
| `SeatMapParser.LayoutBuilder.AppendSeat` | internal/provider/cgv/seat_map_snapshot.go:218-259 | Adds the converted seat exactly when it converts and its label is new |
| `SeatMapParser.LayoutBuilder.AppendItem` | internal/provider/cgv/seat_map_snapshot.go:187-208 | Adds exactly the item's seats, zones and blocks; fails exactly when one is malformed or a label repeats |
| `SeatMapParser.LayoutBuilder.AppendItems` | internal/provider/cgv/seat_map_snapshot.go:101-107 | Goes through exactly when every item is sound and no label repeats anywhere, and then holds the seats, zones and blocks of all items |
| `SeatMapParser.LayoutBuilder.Canonicalize` | internal/provider/cgv/seat_map_snapshot.go:136-173 | Replaces every part in place by its canonical form |
| `SeatMapParser.CanonicalizeStrings` | internal/provider/cgv/seat_map_snapshot.go:175-185 | The duplicate-skipping loop and sort compute the canonical strings |
| `SeatMapParser.ParseLayout` | internal/provider/cgv/seat_map_snapshot.go:98-131 | Accepts exactly the payloads that are sound in every part, repeat no label and have a seat; the result is their sorted canonical layout |
| `SeatAvailability.ProviderAvailableSeats` | internal/provider/cgv/seat_availability.go:55-87 | Succeeds exactly when the payload's seats are the known seats, each once, and every status is usable; over a complete payload it can fail only on a status |
| `SeatAvailability.ParseAvailability` | internal/provider/cgv/seat_availability.go:22-42 | The same for the whole parser after decoding, with its identity and empty-payload errors |
| `SeatAvailability.SeatIdsAreProper` | internal/provider/cgv/identity.go:13-23 | For any collision-free digest and any case conversions, the repository's own seat identity is never blank and tells normal labels apart if and only if lower-casing keeps upper-case characters apart |
| `SeatAvailability.AsciiKeepsApart` | internal/provider/cgv/identity.go:13-23 | ASCII case conversion meets that condition |
| `SeatAvailability.KelvinRowsCollide` | internal/provider/cgv/identity.go:13-23 | The failing input: rows named by the Kelvin sign U+212A and by K get different labels and the same identity |
| `SeatAvailability.SharedIdIsIncomplete` | internal/provider/cgv/seat_availability.go:58-71 | A payload two of whose seats share an identity fails availability whatever layout it is held against |
| `SeatAvailability.SeatsSeenOnce` | internal/provider/cgv/seat_availability.go:58-84 | Over the layout accepted from the same payload, the identities seen are a permutation of the layout's; without repetition when identities tell labels apart |
| `SeatAvailability.PassesAgree` | internal/provider/cgv/seat_availability.go:44-84 | Availability over that layout can fail only on a sale flag or a status code if and only if no two seats of the layout share an identity and none is blank; with identities that tell labels apart that is always so |
| `SeatAvailability.AnswerIsTheFreeSeats` | internal/provider/cgv/seat_availability.go:72-86 | And its answer holds, without repetition, exactly the seats with sale flag Y and status 00 |

## Left out

- Playwright, pages, in-page scripts, stealth bundles and browser identity: starting and stopping a browser are steps that may fail.
- HTTP transport, DNS checks, TLS, secret files and proxy URL parsing: a proxy carries whether its URL parses.
- JSON, URL and HTTP-date parsing: the models start from decoded records, and decoders are function parameters.
- Unicode case mapping: row names and seat identities take the library's conversions as parameters; sale flags, keywords of seat kinds and query filters change ASCII letters only. White space is the full Unicode set.
- Nil receivers and nil contexts, which return errors or defaults before any state is touched.
- Clocks, jitter, random choices and cancelled contexts are parameters or arbitrary choices; times are unbounded integers except where the code multiplies or stores seconds in 64 bits.
- Floating point: seat coordinates are reals, and the backoff product is an exact integer because it is below 2^53.
- Lifecycle: a capture that runs while newAdapter fails is not modelled; the factory and the pool are modelled on values as one transition system, not as classes, because the claims are about interleavings; that a task holding a factory slot never waits for a pool slot is not claimed, because a late close hook may return the factory slot first.
- AdapterHooks and Lease: modelled on values for the same reason; maxErrors is taken to be at least 1, as the manager's configuration guarantees.
- SoxyRuns: modelled on values for the same reason; extend and report calls create no session and are left to Lease.
- The drift of the remote session deadline through truncation to whole seconds and accumulated retry pauses.
- CaptureStore.Store.Save: several stores on one root are not modelled.
- CaptureStore.Store.Clear: removing directories is removing their files one by one.
- Stale staging files and their clean-up at start, directory permissions, and syncing to disk.
- CaptureDisk.ReadExchange: it is a specification only, since the glob it stands for has no order; and as that glob takes the path of the root directory as a part of its pattern, roots whose path holds `*`, `?`, `[` or a backslash, where a stored exchange may not be found, are not modelled.
- CaptureIndex.IndexDecodes: of JSON it takes only that an encoded summary is one line that decodes to itself, and that neither a part of one nor one running into the next decodes; CaptureCodec.CodecsExist shows that there are such encodings.
- BodyPath's check that a stored path stays below the root: blobs are addressed by hash.
- HttpBody.CapturingBody.Close: an inner reader that never ends would keep Close from returning; every reader here ends after finitely many answers. The request stage, which is only closed and removed, is not modelled.
- Which part of a payload is reported first when several are malformed: acceptance is exact, the error names one of them.
- SeatAvailability.SeatIdsAreProper: the truncated SHA-256 inside the seat identity is taken to be collision-free.
- Schedule.FilterByWeekdays: it starts from calendar dates, so the errors for unparsable dates do not arise.
- Matching of schedule rows, cinema selection, theatre identity checks and protobuf mapping: one-branch checks.
- `LocalScanner` and `ScheduleSession`, which hold one lock across the whole capture.
- Telemetry and logging.
