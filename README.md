# Raffle core, modelled in Dafny

The system is a raffle app. It offers 1000 numbers (1..1000), and each number can be claimed once by a WhatsApp identity while selection is open. When the countdown ends, the design draws three numbers, announces the winners and clears the tables one hour later for a new round. As written, `onQuizEnd` throws before saving or announcing anything, and even once that is repaired the reset is never armed (see Findings), so no winners are announced and the tables are never cleared. Observers watch the grid, the countdown and the leaderboard live.

This project models four parts of that system:

- **Ledger** (`Ledger.dfy`): the `numbers` and `winners` tables of `server/utils/db.js`.
  - Class `SlotTable` has the fields `numbers` and `winners` and one method per store operation.
  - Each method is tied to a pure function: `Claim`, `ResetRows`, `Ranked`, `QuizStateOf`.
  - The `FOR UPDATE` row lock becomes atomicity. Concurrent claims become a sequence of claims (`ClaimAll`).
  - The `VARCHAR(20)` identity columns follow PostgreSQL's rule. A longer string fails the statement, unless the excess is all spaces, in which case it is truncated (`Storable`, `Stored`).
- **Masking** (`Masking.dfy`): the identity mask `substring(0, len - 4) + 'XXXX'`. The source repeats it four times; here it is defined once.
- **Scheduler** (`Scheduler.dfy`): the two timer slots of `server/utils/scheduler.js`.
  - Class `TimerRegistry` models `startQuizScheduler`, `scheduleReset`, and the runtime's `Fire` step.
  - `now` is a parameter.
  - Node's replacement of a delay above 2^31 − 1 ms by 1 ms is modelled (`DueAt`). So a round longer than about 596 hours ends 1 ms after it starts (`DistantQuizEndRunsAfterOneMs`).
- **Server** (`Server.dfy`): the round state machine of `server/index.js`.
  - Class `QuizServer` holds the `quizSettings` fields, the ledger and the timers, plus an append-only log of broadcast events.
  - Handlers: `SelectNumber`, `SetQuizTime`, `Connect`, `OnQuizEnd` (as written and corrected), `OnResetTrigger`, and `Tick`, which fires a timer and runs its handler.
  - The shuffle is a parameter: any permutation of 1..1000.
- **Client** (`Client.dfy`): the page of `public/js/main.js`.
  - Class `ClientPage` holds `quizState` and `selectedNumber`, with the socket handlers, the click handler, the countdown and the submit handler.
  - The pure decisions are functions with lemmas: cell classes, countdown split, trim, WhatsApp format, leaderboard rows.
- **Protocol** (`Protocol.dfy`): how the server's broadcasts and snapshots meet the page.
  - A page that applies `numberSelected` stays equal to a fresh snapshot.
  - The live leaderboard equals the one rebuilt from a snapshot.
  - A submission the page accepts passes the server's checks.

Where the code and the design documents differ, the model follows the code. Three places where the code defeats its evident intent are listed under Findings. Each has an as-written member and a corrected one; the rest of the model uses the corrected behaviour.

## Model

| member | source | states |
|---|---|---|
| Masking.Mask | server/utils/db.js:56 | the masked identity keeps the first max(len−4, 0) characters and ends in "XXXX"; its length is that count plus 4 |
| Masking.MaskIdempotent | public/js/main.js:107 | masking a masked identity changes nothing, so the page re-masking server-masked winners is harmless |
| Masking.MaskHidesLastFour | server/index.js:48 | two identities of equal length that differ only in their last four characters are shown identically |
| Ledger.AllNumbers | server/utils/db.js:25-27 | the seeded numbers are 1..1000 in order |
| Ledger.SlotMembership | server/utils/db.js:25-27 | a number has a row exactly when it is in 1..1000 |
| Ledger.Storable | server/utils/db.js:16 | an identity of at most 20 characters always fits the column; one that fits has only spaces past its first 20 characters |
| Ledger.Stored | server/utils/db.js:16 | the stored identity has at most 20 characters, is a prefix of the given one, and is the given one when it fits |
| Ledger.Claim | server/utils/db.js:81-92 | a claim succeeds iff the row exists, is unselected and the identity fits the column; then only that row becomes selected and owned. A missing or selected row is refused, and an identity that does not fit is a store fault; both leave the table unchanged |
| Ledger.ClaimTouchesOnlyTarget | server/utils/db.js:87-90 | a claim adds or removes no row and leaves every other row unchanged |
| Ledger.ClaimKeepsRowsConsistent | server/utils/db.js:87-90 | after a claim, a row is selected iff it has an owner, and owners fit the column |
| Ledger.ClaimAll | server/utils/db.js:77-100 | serialised claims yield one outcome per request and keep the set of rows |
| Ledger.SelectedSlotRefusesAll | server/utils/db.js:82-84 | once a number is selected, every later claim on it is refused whoever makes it, and its owner stays |
| Ledger.FirstClaimWins | server/utils/db.js:81-92 | between resets, after the first successful claim on a number every later claim on it fails |
| Ledger.ContendedSlotHasOneWinner | server/utils/db.js:81-92 | when many requests with identities that fit the column contend for one free number, the first wins and owns it and all others are refused |
| Ledger.ResetRows | server/utils/db.js:133 | the reset keeps every row and leaves each unselected with a null owner |
| Ledger.ClaimAfterResetSucceeds | server/utils/db.js:133 | after a reset any existing number can be claimed again with a fitting identity |
| Ledger.Ranked | server/utils/db.js:113-118 | the winners table has one row per winner, in order, with rank i+1 for element i, the winner's number, and the identity as the column stores it |
| Ledger.RankedInOrder | server/utils/db.js:113-118 | a saved winners table keeps ranks in storage order and identities within the column; when every identity fits, a null identity stays null, one of at most 20 characters is kept unchanged, and a longer one loses only trailing spaces |
| Ledger.CellOf | server/utils/db.js:56 | a row's public cell fails only for a selected row without owner; for a consistent row it exists, its owner is null iff the row is unselected, and a selected row shows the masked owner |
| Ledger.TopWinners | server/utils/db.js:62 | `ORDER BY rank ASC LIMIT 3`: the first min(n, 3) rows of the rank-ordered table |
| Ledger.QuizStateOf | server/utils/db.js:49-75 | the snapshot fails exactly when a shown identity is null. Otherwise it has every row; the owner is null iff unselected and otherwise masked; end time and active flag pass through; no winners unless announced; at most 3 winners, masked, in rank order |
| Ledger.ConsistentRowsHaveSnapshot | server/utils/db.js:52-58 | a consistent table with identities for the shown winners always yields a snapshot |
| Ledger.SlotTable.constructor | server/utils/db.js:22-29 | the store starts with numbers 1..1000 unselected and no winners |
| Ledger.SlotTable.UpdateNumberStatus | server/utils/db.js:77-100 | the outcome and the new table are those of `Claim`; the winners table is unchanged; the invariant is kept |
| Ledger.SlotTable.GetNumberOwner | server/utils/db.js:102-105 | null iff the number has no row; otherwise the row's owner, which is null for an unclaimed row |
| Ledger.SlotTable.SaveWinners | server/utils/db.js:107-128 | succeeds iff every identity fits the column; the table is then `Ranked(ws)`, else unchanged (rollback); numbers untouched |
| Ledger.SlotTable.ResetDatabase | server/utils/db.js:130-142 | every row is unselected with no owner and the winners table is empty |
| Ledger.SlotTable.GetQuizState | server/utils/db.js:49-75 | the loop-built snapshot equals `QuizStateOf` of the tables |
| Scheduler.DueAt | server/utils/scheduler.js:14-18 | a timer is due after its delay when the delay is in 1..2^31−1, and after 1 ms otherwise |
| Scheduler.StartQuiz | server/utils/scheduler.js:5-31 | both slots are cancelled and the reset slot stays empty. A future deadline arms the quiz slot with delay end−now > 0 and runs nothing now; a past deadline leaves no quiz timer and runs the given callback (or nothing) at once |
| Scheduler.ScheduleResetOf | server/utils/scheduler.js:34-49 | only the reset slot is cancelled and the quiz slot is untouched. A future deadline arms the reset slot with delay reset−now > 0; a past one runs the callback at once |
| Scheduler.FireOf | server/utils/scheduler.js:14-18 | a due timer stops being pending and its callback (possibly null) runs; the other slot is untouched; nothing due means nothing changes |
| Scheduler.FireAll | server/utils/scheduler.js:14-18 | a run of fire steps yields one result per step |
| Scheduler.EmptySlotNeverFires | server/utils/scheduler.js:7-8 | a cancelled (empty) slot never runs anything, however often it is fired |
| Scheduler.FiresAtMostOnce | server/utils/scheduler.js:14 | within one slot at most one fire step runs a callback |
| Scheduler.ResetNeverRuns | server/utils/scheduler.js:40-41 | while no pending timer carries the reset callback, no run of fire steps ever runs it |
| Scheduler.ResetArmedThroughStartQuizNeverRuns | server/index.js:132 | arming the reset through `startQuizScheduler` leaves only a null-callback quiz timer; the reset handler never runs |
| Scheduler.ScheduledResetRunsAtDeadline | server/utils/scheduler.js:38-43 | a reset armed through `scheduleReset` runs the reset handler exactly once its deadline has come |
| Scheduler.ArmedQuizEndRunsAtDeadline | server/utils/scheduler.js:13-19 | an armed quiz end runs its callback exactly once the deadline has come; the reset slot never fires |
| Scheduler.DistantQuizEndRunsAfterOneMs | server/utils/scheduler.js:14-18 | a deadline more than 2^31−1 ms ahead ends the quiz 1 ms after arming, before the deadline |
| Scheduler.TimerRegistry.constructor | server/utils/scheduler.js:2-3 | both slots start empty |
| Scheduler.TimerRegistry.StartQuizScheduler | server/utils/scheduler.js:5-31 | the new slots and the callback run now are those of `StartQuiz` |
| Scheduler.TimerRegistry.ScheduleReset | server/utils/scheduler.js:34-49 | the new slots and the callback run now are those of `ScheduleResetOf` on the old slots |
| Scheduler.TimerRegistry.Fire | server/utils/scheduler.js:14-18 | the new slots and the callback run are those of `FireOf` on the old slots |
| Server.WellFormedClaim | server/index.js:40 | a claim passes the request check iff the number and a non-empty identity are present and the number is one of 1..1000 |
| Server.ValidDuration | server/index.js:64 | a duration passes iff present and at least one hour, so the end lies at least one hour ahead |
| Server.DistinctOccursOnce | server/index.js:107 | in a sequence of distinct numbers every value occurs at most once |
| Server.RepeatedOccursTwice | server/index.js:108 | a value at two positions occurs at least twice |
| Server.ShuffleIsDistinctInRange | server/index.js:107-108 | a shuffle of 1..1000 has 1000 distinct entries, each in 1..1000 |
| Server.DrawIsThreeDistinctNumbers | server/index.js:107-109 | the draw is three distinct numbers, each in 1..1000 |
| Server.OwnerInfo | server/utils/db.js:104 | `getNumberOwner` is null iff the number has no row; in a consistent table its owner is null iff the row exists unselected |
| Server.WinnerIdentityAsWritten | server/index.js:116 | as written, the identity is null exactly when the row exists without owner; otherwise it agrees with the corrected lookup |
| Server.WinnerIdentity | server/index.js:116 | corrected lookup: the owner's identity when there is one, 'N/A' otherwise |
| Server.UnclaimedWinnerBreaksSnapshot | server/utils/db.js:104 | as written, an unclaimed drawn number gets a null identity, and every later snapshot with winners announced fails |
| Server.DrawWinners | server/index.js:111-118 | the winners list has exactly three entries |
| Server.DrawWinnersAreOwners | server/index.js:107-118 | winners are the first three drawn numbers in draw order, distinct, each with its owner's identity if claimed and 'N/A' if not; all fit the winners table, ranked 1..3 |
| Server.QuizServer.constructor | server/index.js:25-30 | no end or reset time, selection closed, winners not announced, nothing broadcast, fresh ledger, no timers |
| Server.QuizServer.SelectNumber | server/index.js:33-59 | closed selection is rejected before validation and touches nothing; a malformed request is rejected without touching the ledger; otherwise the ledger takes the claim. Success emits exactly one `numberSelected` with the masked identity and answers 200; a refusal answers 409 and a store fault 500, neither emitting anything. Settings never change |
| Server.QuizServer.SetQuizTime | server/index.js:62-83 | a missing or non-positive duration is rejected with no effect. Otherwise: end = now + hours·3600000, selection open, winners not announced, reset time null; the snapshot is broadcast and the quiz timer armed; an open round is not refused |
| Server.QuizServer.Connect | server/index.js:86-91 | the snapshot a joining observer gets is `QuizStateOf` of the current state, and it never fails |
| Server.QuizServer.OnQuizEndAsWritten | server/index.js:99-113 | as written, selection closes and winners are marked announced, then a ReferenceError ends the handler: nothing is saved, broadcast or scheduled |
| Server.QuizServer.OnQuizEnd | server/index.js:99-133 | selection closed and winners announced. The winners are `DrawWinners` in draw order and saved ranked 1..3. The reset time is now + 3600000. `winnersAnnounced` is broadcast before `quizEnded`. Only the reset slot is re-armed, with the reset handler. The invariant is kept |
| Server.QuizServer.OnResetTrigger | server/index.js:135-148 | the ledger is reset; end and reset time null, both flags false, no winners; `databaseReset` then a fresh snapshot are broadcast |
| Server.QuizServer.Tick | server/utils/scheduler.js:14-18 | the slots become those of `FireOf`. A null callback or no due timer changes nothing else. A fired quiz end has exactly the effect of `OnQuizEnd` (draw, save, broadcast, re-arm the reset slot on the fired slots). A fired reset has exactly the effect of `OnResetTrigger`. The invariant is kept |
| Client.CountdownOf | public/js/main.js:90-93 | the split has non-negative days, hours below 24, and minutes and seconds below 60 |
| Client.CountdownRecomposes | public/js/main.js:90-93 | days·86400000 + hours·3600000 + minutes·60000 + seconds·1000 + distance mod 1000 = distance, with hours < 24 and minutes, seconds < 60 |
| Client.CountdownShown | public/js/main.js:72-96 | nothing is counted down iff the end time is null or 0; time is up iff the end has passed; otherwise the split of the remaining distance is shown |
| Client.RemainingRecomposes | public/js/main.js:90-95 | a shown countdown is the remaining time rounded down to the whole second |
| Client.TrimStart | public/js/main.js:117 | removes exactly the leading white space: the result is a suffix, every dropped character is white space, the result does not start with one |
| Client.TrimEnd | public/js/main.js:117 | removes exactly the trailing white space, symmetrically |
| Client.Trim | public/js/main.js:117 | the result is the part of the input left once the white space at both ends is removed, so it has no white space at either end; text without white space at its ends is returned as it is |
| Client.TrimIdempotent | public/js/main.js:117 | trimmed text has no white space at either end, and trimming it again changes nothing |
| Client.IsWhatsappFormat | public/js/main.js:125 | an identity in the format is non-empty and fits the 20-character column |
| Client.DigitsSurviveTrim | public/js/main.js:125 | a well-formed 10–15 digit identity is unchanged by the trim |
| Client.SubmitCheck | public/js/main.js:116-128 | a request is sent iff a number is picked and the trimmed identity is 10–15 ASCII digits; it carries the number and the trimmed identity. A missing pick or empty identity is reported as missing input, before the format check |
| Client.ClassifyCell | public/js/main.js:33-42 | a cell is selected and disabled iff its number is taken; otherwise it is disabled iff selection is closed and clickable iff it is open |
| Client.ClickOutcome | public/js/main.js:48-55 | a click is refused as closed iff selection is closed, and as taken iff selection is open and the number taken |
| Client.ClickMatchesCell | public/js/main.js:33-55 | the click guards accept a number exactly when its cell is rendered clickable; a taken number is rendered selected and disabled |
| Client.RowsShown | public/js/main.js:102-109 | the leaderboard inserts rows up to the first winner with a null identity, where masking throws |
| Client.LeaderRowsOf | public/js/main.js:102-109 | leaderboard rows carry rank index+1 in list order, the number, and the masked identity |
| Client.SnapshotWinnersRenderFully | public/js/main.js:161 | winners from a snapshot always render completely, each masked once more |
| Client.EndTimeOf | public/js/main.js:160 | a truthy end time is kept and anything else (null, 0) becomes null, so the result is null or truthy |
| Client.ClientPage.constructor | public/js/main.js:5-10 | the page starts empty, with no end time, no winners, selection closed and no pick |
| Client.ClientPage.RenderNumbers | public/js/main.js:25-45 | cell i+1 gets `ClassifyCell`: selected and disabled if taken, else disabled if selection is closed, else clickable |
| Client.ClientPage.RenderWinners | public/js/main.js:98-113 | the leaderboard is visible iff there are winners; its rows are `LeaderRowsOf`; it throws iff some winner has a null identity |
| Client.ClientPage.UpdateCountdown | public/js/main.js:72-96 | shows `CountdownShown`; a passed end time closes selection; a null end time changes nothing |
| Client.ClientPage.HandleNumberClick | public/js/main.js:47-70 | the pick becomes the number only past both guards (selection open, number not taken); otherwise it is unchanged |
| Client.ClientPage.Submit | public/js/main.js:116-137 | the request sent is `SubmitCheck` of the pick and the raw input |
| Client.ClientPage.OnSubmitResponse | public/js/main.js:141-150 | a successful reply clears the pick; a failed one keeps it |
| Client.ClientPage.OnInitialData | public/js/main.js:158-170 | numbers, end time (0 read as null), winners and active flag are replaced from the snapshot, then the countdown runs once; the pick stays |
| Client.ClientPage.OnNumberSelected | public/js/main.js:172-180 | only entry n changes, to selected with the masked owner |
| Client.ClientPage.OnQuizEnded | public/js/main.js:182-188 | selection closes; nothing else changes |
| Client.ClientPage.OnWinnersAnnounced | public/js/main.js:190-196 | the winners become the broadcast list; nothing else changes |
| Client.ClientPage.OnDatabaseReset | public/js/main.js:198-202 | the page reloads into its initial state |
| Protocol.SnapshotCellsMatchLedger | public/js/main.js:33-42 | a snapshot renders taken numbers as selected and disabled and the rest by the active flag, as the ledger has them |
| Protocol.NumberSelectedKeepsPageInSync | server/index.js:45-50 | a page holding a snapshot that applies the `numberSelected` of a successful claim has the cells of the snapshot taken after the claim |
| Protocol.SubmissionPassesServerChecks | server/index.js:40-42 | what the page submits passes the server's request check and always fits the identity column, so it is never a store fault |
| Protocol.AnnouncedLeaderboardMatchesSnapshot | server/index.js:128 | the leaderboard drawn from the unmasked `winnersAnnounced` broadcast equals the one a page joining later draws from its snapshot |
| Protocol.UnclaimedWinnerBreaksLeaderboard | public/js/main.js:107 | as written, a null winner identity makes the page's leaderboard throw before completing the first row |

## Left out

- Transport and I/O are left out: Express, socket.io, CORS, static files, HTTP bodies and status plumbing (reduced to a `Response` value), `io.emit` fan-out (an append-only event log), every DOM operation, `alert`, `location.reload` (a return to the initial page state), and `console` logging.
- Concurrency is left out. Each handler is one atomic step. The `FOR UPDATE` row lock becomes atomicity, and concurrent claims become serialised claims (`ClaimAll`). Interleavings of timer callbacks with HTTP requests in the middle of an `await` are not modelled.
- Randomness is left out. The `Math.random` comparator shuffle is a parameter constrained to be a permutation of 1..1000; nothing is claimed about its distribution.
- Real time is left out. `Date.now`, `setTimeout`, `clearTimeout` and `setInterval` become a `now` parameter, pending (armed-at, delay, callback) entries and an explicit fire step. The one-second `setInterval` of the countdown is repeated calls of `UpdateCountdown`.
- Server.QuizServer.SelectNumber: the request body is typed (`number` an integer, `whatsapp` a string). In JavaScript a non-numeric or fractional number passes the check and the store query fails (500). A truthy non-string `whatsapp` is committed to the row, then `substring` throws (500) with no broadcast, so the ledger and the observers disagree.
- Masking.Mask: characters are Unicode scalar values. JavaScript's `length` and `substring` count UTF-16 code units, so outside the Basic Multilingual Plane the masks differ: "😀😀😀" becomes "😀XXXX" in JavaScript and "XXXX" here.
- Server.QuizServer.SetQuizTime: the end time is an unbounded integer. In JavaScript a `durationHours` above about 2.4·10^9 gives an invalid `Date`, so the end time is NaN. `startQuizScheduler` then runs `onQuizEnd` at once, while the model arms a timer that fires after 1 ms.
- Server.QuizServer.OnQuizEndAsWritten: the model records the state after the thrown ReferenceError. On Node 15 and later the unhandled rejection ends the process, so that state exists only on runtimes that merely warn.
- Server.ValidDuration: `durationHours` is an integer. Fractional hours, NaN and string durations are float/JSON behaviour and are not modelled.
- Client.CountdownShown: the distance is an integer number of milliseconds. The text formatting `${days}d …` and `toLocaleString` are not modelled.
- `setupDatabase` (table DDL and seeding) is not modelled. The store starts from 1000 unclaimed rows. The seeding guard at server/utils/db.js:21-22 compares the row count of a `COUNT(*)` query, which is always 1, with 0, so a fresh database is never seeded. The model still refuses a claim on a missing row, as the code does.
- `resetDatabase` runs two separate statements, not one transaction. Since every handler is atomic here, a failure between the two statements is not modelled.
- Store failures other than an identity that does not fit its column (connection loss, for example) are not modelled. Neither is the client's network failure branch (public/js/main.js:151-154).
- Server.QuizServer.SetQuizTime does not model a snapshot failure. With the corrected `OnQuizEnd`, every stored winner has an identity, so the snapshot cannot fail.
- The page's handlers accept a snapshot without checking that it covers 1..1000; the model does not check this either.
- Protocol.NumberSelectedKeepsPageInSync requires the identity to have at most 20 characters. For a longer identity whose excess is spaces, the broadcast masks the full identity while the table keeps it truncated, so the live cell and a later snapshot's cell differ.
- The admin endpoint can start a new round at any time, even while one is open, and `onQuizEnd` has no re-entrancy guard. Both are modelled as written, with no guard added.

## Findings

| source | as written | input that shows it | evidently intended | confidence | as-written member | corrected member |
|---|---|---|---|---|---|---|
| server/index.js:7 | `onQuizEnd` calls `getNumberOwner` (server/index.js:113), but index.js never imports it. The handler throws a ReferenceError after closing selection and marking winners announced. Nothing is saved, no winners or `quizEnded` are broadcast, and no reset is armed. The rejection is not handled: on Node 15 and later it ends the process, so the modelled state after the throw holds only on runtimes that merely warn. | any round whose quiz timer fires | draw, save and announce three winners, then arm the reset | high, not executed | Server.QuizServer.OnQuizEndAsWritten | Server.QuizServer.OnQuizEnd |
| server/index.js:132 | Latent: reached only once `getNumberOwner` is imported, since the first finding stops `onQuizEnd` before this line. The reset is armed with `startQuizScheduler(resetTime, io, null, onResetTrigger)`. That call ignores its fourth argument and arms the quiz slot with a null callback, so the reset handler never runs. `scheduleReset` (server/utils/scheduler.js:34) is never imported or called. | `onQuizEnd` at time t arms a null quiz timer for t + 3600000; firing it at any later time runs nothing | `scheduleReset(resetTime, io, onResetTrigger)`: the reset runs one hour after the draw | high, not executed | Scheduler.ResetArmedThroughStartQuizNeverRuns | Scheduler.ScheduledResetRunsAtDeadline |
| server/utils/db.js:104 | Latent: reached only once `getNumberOwner` is imported (first finding). `getNumberOwner` returns `{whatsapp: null}` for an existing but unclaimed number, so `ownerInfo ? ownerInfo.whatsapp : 'N/A'` yields null rather than 'N/A'. The null winner is saved. Every later snapshot then throws while masking it (server/utils/db.js:65), and the page's leaderboard throws too (public/js/main.js:107). | draw 7 when number 7 is unclaimed: the winner is `{number: 7, whatsapp: null}` | 'N/A' for every drawn number without an owner | high, not executed | Server.UnclaimedWinnerBreaksSnapshot | Server.DrawWinnersAreOwners |
