# UpControl, verified models

UpControl is a monitoring service: it ingests log lines and events, probes websites, opens
incidents, pages people, and draws boards. This project models the parts of its Go backend whose
correctness depends on state and on order, and proves what they promise over every input and every
run. Each model follows the code branch by branch. Code that changes things step by step is a
class or a method, proved against a specification function; the laws are lemmas about that function
or about runs of it.

- `Boards`, `BoardSave`, `BoardRuns`, `BoardEffects`, `Layouts`: the boards of a project, written by a human session
  and by an agent key. One request is one atomic step. `BoardEffects`
  says field by field what each request answers and leaves, `Layouts` holds the documents, their
  validation and the geometry of an appended block.
- `Fingerprint`: the scanner that reduces a log message to the template it is grouped by.
- `Rollup`, `RollupChart`: the hourly index of log lines, and the charts read from it.
- `Delivery`, `DeliveryRuns`, `DeliveryHistory`, `DeliveryTimes`: the queue of pages, its workers, retries
  and circuit breakers, what their runs come to, and when a row may be tried again.
- `Seats`, `Incidents`, `Thaws`, `IncidentEffects`, `IncidentRuns`, `IncidentWitnesses`: who is paged about
  an incident, and the incident's life, request by request and then statement by statement.
- `Claims`, `ClaimRuns`, `ClaimFates`: an anonymous workspace adopted by a signed-in one.
- `Recorder`, `RecorderRuns`, `RecorderLoop`: the analytics recorder, its batches and its channel.
- `Probe`: the bounded pool that fetches a leased batch of checks, in every interleaving.
- `Marks`, `Heat`: deploys folded into marks on a chart, and the windows a heatmap compares.

What the models found where the code and its own words differ:

- A block appended with a negative `y` can land on a stored widget, because only the merged document
  is validated (`Layouts.CollisionFreeIff`). So can a block without one, once a stored widget's `y + h` passes
  2^63-1: the gate gives a height no maximum, and the sum wraps (`Layouts.BoardKeepsThePromiseIff`). A
  column of 2^63-1 passes the gate for the same reason (`Layouts.ColumnCheckIs`).
- Two overlapping opens of one monitor give two open incidents and two pages: the look and the insert
  are two statements, with no lock and no unique index (`IncidentRuns.OneOpenPerMonitorIff`,
  `IncidentWitnesses.TwoOpensTwoPages`). A freeze that falls between a notification's read of it and its
  enqueue does not hold the page back (`IncidentRuns.PageWhileFrozenMeansAFreezeBetween`).
- A mute uses up a delivery attempt: `Reschedule` adds one in every case, though
  `back/internal/deliver/worker.go:111-112` says it does not. A row can therefore run out of attempts
  after fewer than five sends (`DeliveryHistory.ExhaustedAfterFiveSendsIff`, with a run in `DeliveryHistory.MuteCostsASend`).
- A chart's last bucket does not hold the current moment during the one second that falls on a bucket
  boundary, though `back/internal/api/dashboard.go:412-417` says the last bucket is the current one
  (`RollupChart.LastBucketHoldsNowIff`).
- `createBoard`'s comment (`back/internal/api/dashboard.go:1642-1646`) says no lock stands behind the plan's
  count; the code locks the project row first (line 1695), so here a create is one atomic step.
- A visitor's bot flag depends on how the stream was cut into batches, unless all the visitor's
  tracks agree (`RecorderRuns.BotIgnoresBatchingIff`), and so does its event counter, unless they are all
  bots or the bots among them sent nothing (`RecorderRuns.CounterIgnoresBatchingIff`).
- A chart from the rollup misses the lines of a flush whose second write failed
  (`RollupChart.ChartsAgreeIff`).
- A detection that names a monitor could give it a second open incident; none does today
  (`IncidentRuns.StepKeepsOneOpen`).
- A plan that covers chat rooms costs a person the seat that a plan without rooms leaves them exactly
  when the rooms connected before them fill it (`Seats.PersonKeepsSeatIff`).
- The entry of a save that lays a project's first board down is not asked about the plan's limit, a
  limit of zero included (`BoardSave.SaveIsCompareAndSwap`).

## Model

| member | source | states |
|---|---|---|
| Layouts.ValidateLayout | back/internal/api/dashboard.go:2337-2401 | the gate accepts exactly the documents the code does, right edges added with 64-bit wrap-around, and a refusal names the first widget whose addition makes the document invalid |
| Layouts.DocumentIs | back/internal/api/dashboard.go:2337-2401 | a document is stored in either unit, with as many different ids as widgets |
| Layouts.WidgetIs | back/internal/api/dashboard.go:2346-2376 | every reason to refuse a widget, the wrapped right edge that is none included |
| Layouts.MetricIs | back/internal/api/dashboard.go:2376-2400 | every reason to refuse a metric: an amount comes with a currency of three capitals, and none without |
| Layouts.ColumnCheckIs | back/internal/api/dashboard.go:2355-2356 | what the column check lets by is a widget inside the twelve columns, or one whose right edge wraps |
| Layouts.MergeWidgets | back/internal/api/dashboard.go:2198-2256 | the merge succeeds exactly when the board is in the current unit and every widget moved down by the wrapping bottom is valid; it keeps the stored widgets as a prefix and renames only on a clash |
| Layouts.BottomIsBelowIff | back/internal/api/dashboard.go:2225-2231 | the bottom the code adds up lies below every stored widget exactly when no lower edge wraps |
| Layouts.LandsWhereAsked | back/internal/api/dashboard.go:2232-2245 | on a board that takes the block every widget lands at its own row plus the bottom, with no wrap on the way |
| Layouts.MintWidgetId | back/internal/api/dashboard.go:2259-2267 | a minted id is not empty and no widget holds it |
| Layouts.MergedIsDistinct | back/internal/api/dashboard.go:2232-2252 | the merged ids are all different, also when a minted id meets a later incoming one |
| Layouts.MergedIsValid | back/internal/api/dashboard.go:2232-2256 | whether the merged document is refused does not depend on which ids were minted |
| Layouts.AppendNeverCollides | back/internal/api/dashboard.go:2220-2245 | a block with no negative row never overlaps a widget already on the board, if no stored lower edge passes 2^63-1 |
| Layouts.AppendKeepsTheBlocksShape | back/internal/api/dashboard.go:2232-2245 | two widgets of the block overlap after the merge exactly when they did before |
| Layouts.AppendKeepsTheBoardTidy | back/internal/api/dashboard.go:2232-2256 | with no negative row and no stored lower edge past 2^63-1, two overlap-free inputs give an overlap-free board |
| Layouts.CollisionFreeIff | back/internal/api/dashboard.go:2232-2245 | on boards without a wrapped edge, a block lands free of collisions exactly when none of its rows is negative, or it is too tall for any board to take |
| Layouts.BoardKeepsThePromiseIff | back/internal/api/dashboard.go:2220-2245 | a board takes every block without a negative row free of collisions exactly when none of its lower edges passes 2^63-1 |
| Layouts.UnliftableIsRefused | back/internal/api/dashboard.go:2232-2248 | a block with a negative row that no board can lift to zero is refused by every board |
| Layouts.WrappedEdgesPass | back/internal/api/dashboard.go:2337-2401 | two inputs: a column of 2^63-1 passes the gate, and a lower edge past 2^63-1 passes it and is then landed on |
| Layouts.MergeExists | back/internal/api/dashboard.go:2232-2245 | for every board and block some choice of minted ids gives a merged document |
| Boards.BoardStore.CreateBoard | back/internal/api/dashboard.go:1647-1757 | create, with its refusals in the code's order: name, layout, plan wall, and a taken name that also undoes the alias row just laid |
| Boards.BoardStore.LayMain | back/gen/pg/dashboard.sql.go:315-355 | the alias's first write inserts the row, or takes over one a former tenant left |
| Boards.BoardStore.PutBoardLayout | back/internal/api/dashboard.go:1785-1858 | a key's replace of a curated board only fills its proposal; any other replace writes the document, its author and clears the proposal |
| Boards.BoardStore.AppendBoardWidgets | back/internal/api/dashboard.go:2135-2193 | an append changes the one board's layout to a merge of it and the block, and nothing else |
| Boards.BoardStore.SaveBoards | back/internal/api/dashboard.go:1868-1987 | the transaction's loop with rollback is the fold of its entries, or no change |
| Boards.BoardStore.RenameBoard | back/internal/api/dashboard.go:1992-2057 | rename, with the freeze, the taken name and the insert for a project that stored nothing |
| Boards.BoardStore.DeleteBoard | back/internal/api/dashboard.go:2058-2101 | delete takes out exactly the named board and never the last one |
| Boards.BoardStore.ClearBoardProposal | back/internal/api/dashboard.go:2291-2334 | clearing drops the proposal of a running board and changes nothing else |
| BoardEffects.PutAnswers | back/internal/api/dashboard.go:1785-1858 | what a replace answers, each answer exactly when, and that a refused one changes nothing |
| BoardEffects.PutWrites | back/gen/pg/dashboard.sql.go:190-239 | an accepted replace leaves the document under its writer with no proposal; a key's on a running curated board leaves all but the proposal; every other board and field is kept, and an empty project gets its one board |
| BoardEffects.SaveWrites | back/gen/pg/dashboard.sql.go:211-239 | a committed save leaves each board it names with the last document given for it, a session's, without a proposal, under its id and name, and every other board as it was |
| BoardEffects.FirstSaveWrites | back/gen/pg/dashboard.sql.go:315-355 | a committed save onto an empty project leaves one board, the last entry's, a session's, on a new row or a leftover one |
| BoardEffects.CreateAnswers | back/internal/api/dashboard.go:1647-1757 | what a create answers, each answer exactly when; on an empty project the alias takes a place and its name |
| BoardEffects.CreateAdds | back/internal/api/dashboard.go:1700-1757 | the new board comes last with a fresh id: the given document by its author, or an empty one open to keys; all others are kept |
| BoardEffects.RenameIs | back/internal/api/dashboard.go:1992-2057 | what a rename answers, exactly when, and that it changes the one name alone |
| BoardEffects.DeleteIs | back/internal/api/dashboard.go:2058-2101 | what a delete answers, exactly when, and that the others close up in order |
| BoardEffects.ClearIs | back/internal/api/dashboard.go:2291-2334 | what clearing answers, exactly when, and that only the proposal goes |
| BoardEffects.AppendIs | back/internal/api/dashboard.go:2135-2193 | what an append answers, exactly when, and that author, name and proposal stay |
| BoardEffects.BoardNameIs | back/internal/api/dashboard.go:1578-1600 | a name is what was typed without the spaces around it, 1 to 40 characters and no control among them |
| BoardEffects.LowerIs | back/internal/storage/pg/schema.sql:1138-1138 | two names clash exactly when they differ in nothing but the case of letters |
| BoardEffects.ResolveIs | back/internal/api/dashboard.go:1365-1400 | the alias is the oldest board, an id the board that has it |
| BoardSave.SaveIsCompareAndSwap | back/internal/api/dashboard.go:1896-1975 | whatever was stored, a save commits exactly when every entry names a running board, is valid and has a base equal to the document just before it, entries for one board chaining; the entry that lays the alias down says `main` and is asked for no limit; what the save leaves is said board by board |
| BoardSave.SaveOntoNothing | back/internal/api/dashboard.go:1908-1960 | the first entry onto a project that stored nothing is a write of the empty board the alias serves, under every limit |
| BoardSave.SaveIsAllOrNothing | back/internal/api/dashboard.go:1868-1987 | one to sixteen acceptable entries are all committed; any other save leaves the store as it was |
| BoardSave.SaveErasesOnlyWhatItsBaseHeld | back/internal/api/dashboard.go:1930-1960 | a committed save removes a widget only if one of its entries had the document that held it as its base |
| BoardRuns.StepKeepsWellFormed | back/internal/api/dashboard.go:1554-2101 | every request keeps the store well formed and never empties a project that had a board |
| BoardRuns.RunsStayWellFormed | back/internal/api/dashboard.go:1554-2101 | over every run: valid layouts and proposals, proposals only on curated boards, distinct ids and names, and never back to no board |
| BoardRuns.StepKeepsCuration | back/internal/api/dashboard.go:1785-1858 | no request but a human rewrite or a delete takes anything off a curated board |
| BoardRuns.CurationSurvives | back/internal/api/dashboard.go:1785-1858 | over every run without a session write or delete of it, a curated board keeps every widget unchanged and in order, and stays curated |
| BoardRuns.ProvenanceNeverGoesBack | back/gen/pg/dashboard.sql.go:190-239 | a session's board never becomes a key's, whatever the request |
| BoardRuns.CreateFreezesNothing | back/internal/api/dashboard.go:1642-1757 | a create leaves each stored board as it was and on its side of the freeze, for every limit |
| BoardRuns.DeleteThawsTheOldestFrozen | back/internal/api/dashboard.go:2058-2101 | a delete thaws a board exactly if it was the oldest frozen one and the deleted board ran; all others keep document and side |
| BoardRuns.FrozenBoardsAreKept | back/internal/api/dashboard.go:1491-1506 | a frozen board is changed by no request but its own deletion |
| BoardRuns.MainIsTheOldest | back/gen/pg/dashboard.sql.go:263-294 | the board `main` names changes only by being deleted, and then the next oldest takes over |
| BoardRuns.FirstCreateLaysMainFirst | back/internal/api/dashboard.go:1708-1728 | the first named board of a project is its second row, behind the alias's own |
| BoardRuns.PlanScreenAgreesWithTheFreeze | back/gen/pg/read_api.sql.go:14-18 | the frozen number the plan screen computes from counts is the number of boards the rank rule freezes |
| Fingerprint.MaskMessage | back/internal/ingest/fingerprint.go:24-67 | the index loop computes the token-by-token specification of the template |
| Fingerprint.BytesAre | back/internal/ingest/fingerprint.go:24-90 | the quotes, hex digits and marks the scanner looks for, as characters |
| Fingerprint.MaskIgnoresId | back/internal/ingest/fingerprint.go:24-67 | two messages that differ in one id share their template, inside a quoted string too |
| Fingerprint.MaskIgnoresQuotedText | back/internal/ingest/fingerprint.go:27-46 | what a quoted string says never reaches the template, wherever the scan comes to rest at its opening quote, a second quoted string on the line included |
| Fingerprint.MaskSplits | back/internal/ingest/fingerprint.go:24-67 | where the scan comes to rest, the template is the templates of the two parts put together |
| Fingerprint.PlainTextRests | back/internal/ingest/fingerprint.go:27-67 | after text without quotes the scan always rests at a quote |
| Fingerprint.LoneStaysLone | back/internal/ingest/fingerprint.go:27-46 | a quote that is not closed on its line is not closed on it after masking |
| Fingerprint.MaskIsIdempotent | back/internal/ingest/fingerprint.go:24-67 | masking a template changes nothing, for every byte string |
| Fingerprint.MaskLength | back/internal/ingest/fingerprint.go:24-67 | a template is at most half as long again as its message |
| Rollup.DecodeRows | back/internal/api/wire.go:169-235 | the rows of a flush are split into lines and events, each in order and none lost or doubled, and no line keeps a time outside the accepted span |
| Rollup.LogRowIs | back/internal/api/wire.go:169-235 | only an event outside the last thirty days and the next two leaves no line; a plain line outside is stamped now; nothing else of a line changes |
| Rollup.DecodesPiecewise | back/internal/api/wire.go:169-235 | a batch decodes envelope by envelope, in order |
| Rollup.SameKeyIff | back/internal/api/wire.go:117-142 | two lines share a rollup row exactly when they differ in nothing but the minute of the hour |
| Rollup.AggregateHistory | back/internal/api/wire.go:117-142 | the loop computes the counts of its rows by hour, service, level and fingerprint |
| Rollup.AddedIsRollup | back/internal/storage/pgstore/pgstore.go:227-250 | adding a batch's counts to the rollup of earlier lines is the rollup of all the lines |
| Rollup.AddedBump | back/internal/storage/pgstore/pgstore.go:227-250 | storing an unsigned fingerprint in a signed column merges no two keys |
| Rollup.RollupCounts | back/internal/api/wire.go:117-142 | each rollup row is the number of lines with its key, and no row is zero |
| Rollup.Store.LandFlush | back/internal/api/wire.go:33-60 | lines and rollup stay what the flushes that landed make of them, when either write fails too |
| RollupChart.RollupAgreesWithLines | back/internal/storage/pgstore/series.go:197-240 | for whole-hour buckets the sum over rollup rows is the count of lines, for every filter and bucket |
| RollupChart.LineTestIs | back/internal/ring/query/catalog.go:80-120 | what a bucket counts: the project's own lines of that stretch that the filter asks for |
| RollupChart.LevelsAddUp | back/internal/storage/pgstore/series.go:197-240 | errors, warnings and the rest make up all lines of a bucket, none twice |
| RollupChart.ChartsAgreeIff | back/internal/api/wire.go:50-60 | over every history of flushes the two charts differ by the lines whose rollup write failed, and agree on a bucket exactly when none of those is in it |
| RollupChart.BucketsCoverTheWindow | back/internal/api/dashboard.go:412-422 | the buckets of a window hold each of its lines exactly once |
| RollupChart.RollupReadsAreOnTheHour | back/internal/api/dashboard.go:88-93 | every read that the rollup serves has its window and its buckets on the hour |
| RollupChart.ReadsKeepTheirSpan | back/internal/api/dashboard.go:212-227 | an accepted board-wide bucket has its own step and keeps the range's span exactly, the one its name says |
| RollupChart.LastBucketHoldsNowIff | back/internal/api/dashboard.go:412-422 | the last bucket holds now exactly when the current second is not a bucket boundary |
| RollupChart.WindowIs | back/internal/api/dashboard.go:412-422 | both ends of a window are whole steps, the last the first one not before now's second |
| RollupChart.CountPoints | back/internal/api/dashboard.go:887-930 | a point is its row's count, zero where measured, a gap where not; the total is the sum of the points and absent only if nothing was measured |
| RollupChart.CountedIsMeasured | back/internal/api/dashboard.go:872-886 | a bucket that counted something is never drawn as a gap |
| RollupChart.MeasuredIff | back/internal/api/dashboard.go:872-886 | a bucket is a gap exactly when it ended before the first hour the project has a row of |
| RollupChart.RollupSeries | back/internal/api/dashboard.go:955-992 | a chart read from the rollup shows the count of lines at every measured point, and its total is the lines of the window |
| Delivery.BreakerMeaning | back/internal/deliver/deliver.go:66-93 | the breaker is open exactly when only failures were seen for five minutes since the last success |
| Delivery.Breaker.IsOpen | back/internal/deliver/deliver.go:77-80 | the field says what the log of reports says |
| Delivery.Worker.ProcessItem | back/internal/deliver/worker.go:63-214 | one leased row: dropped, deferred, or sent and recorded, with failover to email by the channel's own breaker; no other row changes, and the breaker hears of the send alone |
| Delivery.Worker.Tick | back/internal/deliver/worker.go:46-61 | a round leases its rows and handles them one after the other, each under the breakers the earlier ones left |
| Delivery.Worker.GetBreaker | back/internal/deliver/worker.go:224-231 | each channel has one breaker of its own, made on first use |
| Delivery.BatchIsWorkedOff | back/internal/deliver/worker.go:46-61 | each row of a batch becomes what its own handling makes of it, unleased with exactly one more mark |
| Delivery.OutsideTheBatch | back/internal/deliver/worker.go:46-61 | a row outside the batch is left alone |
| Delivery.Queue.Lease | back/gen/pg/delivery.sql.go:163-175 | leasing marks the earliest twenty of the due rows nobody holds or has locked, and no others |
| Delivery.Queue.Reschedule | back/gen/pg/delivery.sql.go:267-280 | a reschedule unleases, sets the next try and uses an attempt, for a mute as for a failure |
| DeliveryRuns.NextKeepsInv | back/internal/deliver/worker.go:46-214 | every step of every worker keeps the account between a row's lease, state, attempts and history |
| DeliveryRuns.OneHolder | back/gen/pg/delivery.sql.go:163-190 | in every interleaving a row is in the hands of at most one worker, once, and only while pending |
| DeliveryRuns.FinalRowsNeverChange | back/gen/pg/delivery.sql.go:224-250 | sent and dead rows are unleased and never written again |
| DeliveryRuns.WorkedOffRowsAreFree | back/internal/deliver/worker.go:63-214 | a row a worker is done with is unleased and out of its hands, one attempt on |
| DeliveryRuns.ProcessItemIsTwoSteps | back/internal/deliver/worker.go:63-214 | the worker's method is a run of the interleaved steps |
| DeliveryTimes.FinishLeaves | back/internal/deliver/worker.go:176-214 | what a send leaves by the status that came back: sent, dead, or pending with its next try a backoff and a jitter below half of it after the send; no other row changes |
| DeliveryTimes.TakeUpLeaves | back/internal/deliver/worker.go:63-175 | a mute puts the row off to its own end, a drop is final, a send leaves the row as it is |
| DeliveryTimes.OthersLeave | back/gen/pg/delivery.sql.go:163-190 | only a lease and a lifted mute change any other row, and only its holder or its next try |
| DeliveryTimes.SendsIff | back/internal/deliver/worker.go:63-175 | a page is sent exactly when it has a channel, a live project or a test, a target, a sender, no mute and for a follow-up its incident; deferred exactly for a mute alone |
| DeliveryTimes.DropsFor | back/internal/deliver/worker.go:63-175 | why a page is dropped, each reason exactly when |
| DeliveryTimes.MessageIs | back/internal/deliver/worker.go:119-175 | only Telegram shows buttons, and on a follow-up only while the site is down |
| DeliveryTimes.ClassifyIs | back/internal/deliver/deliver.go:33-50 | which statuses deliver, which reject for good, and that all others may be tried again |
| DeliveryTimes.BackoffIs | back/internal/deliver/deliver.go:13-25 | the waits after the first four failures: 2, 4, 8 and 16 seconds |
| DeliveryTimes.LeaseServesTheEarliest | back/gen/pg/delivery.sql.go:163-190 | a lease leaves a due row behind only if it is locked elsewhere or twenty that were due earlier went first |
| DeliveryTimes.LeasedOnlyWhenDue | back/gen/pg/delivery.sql.go:163-190 | over every run a row is leased no sooner than its next try, unless a lifted mute released it |
| DeliveryTimes.RetriesWait | back/internal/deliver/worker.go:204-214 | over every run the lease after a failed send comes a whole backoff later, and the one after a mute once it has ended |
| DeliveryTimes.MessagesStay | back/gen/pg/delivery.sql.go:163-281 | over every run a row keeps its channel, topic and incident |
| DeliveryTimes.PutOffIsTheWaits | back/internal/deliver/worker.go:204-214 | over every run the waits in a row's history are the distances from its failed sends to the next tries they gave |
| DeliveryHistory.TrailIsWhatHappened | back/internal/deliver/worker.go:46-214 | over every run a row's marks are its take-ups in order, a deferral for each that found the channel muted and dropped nothing, an attempt for each send, and one for each lease worked off |
| DeliveryHistory.DefersIffMuted | back/internal/deliver/worker.go:111-119 | a take-up defers only a muted channel, and sends only through one not muted |
| DeliveryHistory.DeferralsAreMutes | back/internal/deliver/worker.go:111-119 | over every run a row's deferrals are exactly the take-ups that found its channel muted, but for a last one that dropped it |
| DeliveryHistory.AtMostFiveSends | back/internal/deliver/deliver.go:52-64 | over every run a row is sent at most five times, successfully at most once, and that exactly when its state is sent |
| DeliveryHistory.ExhaustedAfterFiveSendsIff | back/gen/pg/delivery.sql.go:267-271 | over every run, a row that ran out was sent five times exactly when none of its first four take-ups found its channel muted |
| DeliveryHistory.MuteCostsASend | back/internal/deliver/worker.go:111-119 | a run with one mute and four failures in which a row runs out after four sends |
| DeliveryHistory.UnmutedEndsWithinFiveLeases | back/internal/deliver/worker.go:46-214 | over every run, a row whose channel no worker found muted is leased at most five times and is final once the fifth lease is worked off |
| DeliveryTimes.RetryWindow | back/internal/deliver/deliver.go:15-35 | over every run, a never muted row that ran out was sent five times, and from its failed sends to the next tries they gave it was put off by 30 to 45 seconds in all |
| DeliveryHistory.LogsAreOwnSends | back/internal/deliver/worker.go:188-209 | over every run a breaker's log is its worker's own sends for its channel |
| DeliveryHistory.FailsOverIff | back/internal/deliver/worker.go:83-103 | over every run a row of a channel other than email goes to email exactly when its worker's own sends for that channel have only failed for five minutes since the last success, and is dead for want of an email only then |
| Seats.MutedTelegram | back/internal/incident/incident.go:310-337 | the loop mutes a Telegram destination exactly when its seat key is not among the first distinct eligible keys, and holds as many seats as there are seats and keys for them |
| Seats.NewerNeverChangesOlder | back/internal/incident/incident.go:310-337 | a newer connection never changes an older one's answer |
| Seats.MoreSeatsMuteNoOne | back/internal/incident/incident.go:310-337 | more seats never mute anyone |
| Seats.PersonKeepsSeatIff | back/internal/incident/incident.go:310-337 | a person is reached exactly when fewer persons than seats came before them, and where the plan covers rooms fewer persons and rooms together |
| Seats.KeysCount | back/internal/incident/incident.go:318-334 | there is one seat key a person and, where the plan covers rooms, one a room |
| Seats.RoomsNeverHelpAPerson | back/internal/incident/incident.go:310-337 | turning rooms on never gives a person a seat |
| Seats.RoomsCanMuteAPerson | back/internal/incident/incident.go:310-337 | a room connected before a person takes the only seat from them: a witness of the condition above |
| Incidents.Lifecycle.NotifyChannels | back/internal/incident/incident.go:219-278 | the pages added for one incident and whether it counts as notified |
| Incidents.Lifecycle.Open | back/internal/incident/incident.go:91-154 | an undisturbed open is a no-op while the monitor has an open incident, else one incident and its pages |
| Incidents.Lifecycle.OpenDetect | back/internal/incident/incident.go:411-469 | an undisturbed detection opens once for its key |
| Incidents.Lifecycle.Close | back/internal/incident/incident.go:340-376 | closing resolves the monitor's open incident and nothing else |
| Incidents.Lifecycle.CloseByFingerprint | back/internal/incident/incident.go:490-524 | closing by key resolves that key's open incident |
| Incidents.Lifecycle.NotifyThawed | back/internal/incident/incident.go:191-202 | a thaw notifies each open incident of the project that is not notified yet |
| IncidentEffects.HearsIs | back/internal/incident/incident.go:228-250 | a destination hears of what its own setting asks for, unless the plan has no seat for its Telegram |
| IncidentEffects.NotifiedIs | back/internal/incident/incident.go:219-278 | one notification adds exactly the rows due, pages to those who hear and follow-ups for outages to those of a paying project who asked; none for a frozen project; and marks the incident exactly if someone hears |
| IncidentEffects.ThawIs | back/internal/incident/incident.go:191-202 | a thaw pages exactly those due for each open outage of the project not told of, whose monitor is still there, and changes nothing else |
| IncidentEffects.OpenIs | back/internal/incident/incident.go:91-154 | an outage is opened exactly if its monitor is there and has none open: one incident more, and exactly the rows due for it |
| IncidentEffects.DetectIs | back/internal/incident/incident.go:411-469 | a detection is opened exactly if its tenant's key has none open |
| IncidentEffects.CloseIs | back/gen/pg/incident.sql.go:60-75 | after a close none of the monitor's incidents is open, they differ in nothing else, and no other incident, row or project is touched |
| IncidentEffects.CloseKeyIs | back/internal/incident/incident.go:490-524 | the same for a tenant's key |
| IncidentEffects.FreezeIs | back/internal/incident/incident.go:187-202 | a freeze and a thaw change one project alone |
| IncidentEffects.StepsOpenAndClose | back/internal/incident/incident.go:91-376 | in every interleaving an incident is closed only by a close of its monitor or key, which leaves none of them open, and opened only by its insert |
| IncidentEffects.StepsFreezeAndThaw | back/internal/incident/incident.go:187-226 | in every interleaving a project is frozen from its freeze to its thaw |
| Incidents.EnqueueAllAdds | back/gen/pg/delivery.sql.go:14-30 | the insert adds only rows of the incident to those who hear of it, reaches all of them, and never doubles a row |
| Incidents.NotifyIsIdempotent | back/internal/incident/incident.go:219-278 | replaying a notification changes nothing |
| IncidentRuns.StepKeepsOneOpen | back/internal/incident/incident.go:91-119 | statement by statement: the laws of one open incident per monitor and per key are broken by exactly one kind of step, an insert that lands while one is already open |
| IncidentRuns.OneOpenPerMonitorIff | back/internal/incident/incident.go:91-119 | over every interleaving, a monitor has at most one open incident all along exactly if no insert landed on an open one |
| IncidentRuns.OneOpenPerKeyIff | back/internal/incident/incident.go:411-443 | over every interleaving, a detector key has at most one open incident all along exactly if no insert landed on an open one |
| IncidentRuns.UnoverlappedOpensKeepTheLaws | back/internal/incident/incident.go:91-119 | over every run in which no opener looks while a rival has looked and not yet inserted, both laws hold |
| IncidentWitnesses.TwoOpensTwoPages | back/internal/incident/incident.go:91-119 | a run of two overlapping opens of one monitor that ends with two open incidents and two pages to one destination |
| IncidentRuns.StepEnqueuesRightly | back/internal/incident/incident.go:219-278 | a row is only ever added by an enqueue, for the incident being notified and to a destination of the audience read for it that hears of it |
| IncidentRuns.PageWhileFrozenMeansAFreezeBetween | back/internal/incident/incident.go:219-226 | over every interleaving, a page is added for a frozen project only if the freeze fell between the notification's one read of it and that page |
| IncidentWitnesses.FreezeComesTooLate | back/internal/incident/incident.go:219-226 | a run in which a freeze falls there and the page goes out |
| IncidentRuns.RunsKeepRowsDistinct | back/gen/pg/delivery.sql.go:14-30 | over every interleaving the queue holds at most one row per incident, channel and message |
| IncidentWitnesses.UndisturbedOpen | back/internal/incident/incident.go:91-154 | an open or a detection nobody disturbs is, statement by statement, the one step of the sequential code |
| IncidentWitnesses.UndisturbedThaw | back/internal/incident/incident.go:191-202 | and so is a thaw notification nobody disturbs |
| Thaws.ThawReachesEveryone | back/internal/incident/incident.go:191-202 | undisturbed on a live project, a thaw notification pages every open, not yet notified incident to everyone who hears of it |
| Thaws.ThawIsIdempotent | back/internal/incident/incident.go:191-202 | a second thaw notice changes nothing |
| Claims.Store.AdoptTenant | back/internal/api/install.go:356-518 | the transaction, its early refusals and rollback included, is the claim's specification; unless it answers claimed, everything is as it was and the page still claimable |
| Claims.Store.ReparentTables | back/internal/api/install.go:460-476 | reparenting moves the tenant's rows of the listed tables and no others |
| Claims.Store.SeedChannels | back/internal/api/install.go:481-495 | each adopted project gets the claimer's email channel once |
| ClaimRuns.ClaimMovesEverything | back/internal/api/install.go:356-518 | a successful claim moves every project and every listed row of the page, deletes only the claimer's placeholder and the anonymous tenant, and adds only email channels of adopted projects |
| ClaimRuns.ClaimAddsUp | back/internal/api/install.go:398-480 | afterwards the claimer holds their kept projects and all of the page's, none counted twice |
| ClaimRuns.ClaimedPagesReachTheClaimer | back/internal/api/install.go:481-495 | every page that comes in carries the claimer's address |
| ClaimRuns.RunsKeepOnePage | back/internal/api/install.go:229-260 | over every run an unclaimed workspace holds the one project it was made with |
| ClaimRuns.AdoptedAtMostOnce | back/internal/api/install.go:376-390 | over every run each anonymous workspace is adopted at most once |
| ClaimRuns.ClaimsStayWithinThePlan | back/internal/api/projects.go:158-178 | over every run a claim ends within the claimer's project limit |
| ClaimFates.DeletesIff | back/internal/api/install.go:398-425 | a claim deletes a project exactly if it is the claimer's only one, and no key ingested into it, no monitor watches it, and the claimer saw no event or page view |
| ClaimFates.ClaimAnswers | back/internal/api/install.go:356-450 | a claimable page meets the wall exactly when the claimer's surviving projects reach the limit; any other answer than claimed leaves everything as it was |
| ClaimFates.RowsMove | back/internal/api/install.go:449-518 | every row of the page moves but for five tables, a deleted project takes what hangs on it, and no other row is touched |
| ClaimFates.ChannelsAdded | back/internal/api/install.go:481-495 | a claim adds at most one row to each page it moves, an email channel with the claimer's address |
| ClaimFates.UsedProjectsSurvive | back/internal/api/install.go:398-425 | over every run a project that a key ingested into or a monitor watches is never deleted by any claim |
| Recorder.Store.GroupByVisitor | back/internal/analytics/recorder.go:350-373 | the groups hold each visitor's tracks in arrival order and their merged touch, visitors by first appearance |
| Recorder.OrderIsByArrival | back/internal/analytics/recorder.go:350-373 | a batch's visitors are taken in the order of their first tracks |
| Recorder.Store.Flush | back/internal/analytics/recorder.go:342-433 | a flush upserts and counts each visitor once and appends every event of the batch to the sink |
| RecorderRuns.FirstTouchIgnoresBatching | back/gen/pg/analytics.sql.go:104-124 | for every cut into batches a visitor's seven fields are one merge over all their tracks |
| RecorderRuns.FieldIsTheFirstNonEmpty | back/internal/analytics/recorder.go:445-468 | each field is the first non-empty one in arrival order |
| RecorderRuns.BotIgnoresBatchingIff | back/gen/pg/analytics.sql.go:122-122 | the bot flag is the same for every cut exactly when all the visitor's tracks agree |
| RecorderRuns.BotLiesBetween | back/internal/analytics/recorder.go:467-467 | a visitor of bots only is a bot, and one marked a bot had a bot's track |
| RecorderRuns.CounterLiesBetween | back/gen/pg/analytics.sql.go:73-80 | for every cut the counter holds all human events and no event twice |
| RecorderRuns.CounterIgnoresBatchingIff | back/internal/analytics/recorder.go:375-433 | the counter is the same for every cut exactly when all the visitor's tracks are bots, or the bots among them sent no event |
| RecorderRuns.SinkIgnoresBatching | back/internal/analytics/recorder.go:375-433 | for every cut each event is in the sink once, a visitor's events in arrival order |
| RecorderLoop.Loop.Enqueue | back/internal/analytics/recorder.go:290-297 | the channel takes a track while it has room and counts a drop otherwise |
| RecorderLoop.Loop.Receive | back/internal/analytics/recorder.go:315-320 | a taken track joins the pending ones, which are flushed at one hundred rows |
| RecorderLoop.Loop.Stop | back/internal/analytics/recorder.go:323-334 | stopping drains the channel and flushes once |
| RecorderLoop.Loop.TrackEvents | back/internal/analytics/recorder.go:179-196 | an empty request is a no-op; otherwise its events are merged after the request's own first touch |
| RecorderLoop.StepKeepsSound | back/internal/analytics/recorder.go:299-338 | every step keeps flushed, pending and queued tracks together equal to the accepted ones, in order |
| RecorderLoop.ArrivalIs | back/internal/analytics/recorder.go:290-297 | a track is dropped only by a full channel |
| RecorderLoop.ArrivalsAreCounted | back/internal/analytics/recorder.go:290-297 | over every run each track that arrived was accepted or counted as dropped |
| RecorderLoop.FlushesWhenDue | back/internal/analytics/recorder.go:299-338 | the loop flushes exactly when the timer fires, a hundred rows are together, or it stops with an empty channel, and then all it holds |
| RecorderLoop.NothingAcceptedIsLost | back/internal/analytics/recorder.go:299-338 | over every run that ended, all that was accepted before the end is in the sink once, in each visitor's order, and in the first touch |
| RecorderLoop.NothingIsFlushedAfterTheEnd | back/internal/analytics/recorder.go:323-334 | a loop that ended flushes nothing more, whatever still arrives in its channel |
| RecorderLoop.DrainedIsARun | back/internal/analytics/recorder.go:323-334 | draining in one go is a run of the loop's own steps |
| RecorderLoop.ReadIsTouch | back/internal/analytics/recorder.go:186-194 | a request's events count as later touches than the request itself |
| RecorderLoop.ReadFieldIs | back/internal/analytics/recorder.go:179-196 | a request's own word comes first in each field, then its events', in order; country, device and the bot flag are the request's alone |
| Probe.StepKeepsSound | back/cmd/ucprobe/main.go:143-163 | every step keeps the account of permits, goroutines and slots |
| Probe.AtMostTwentyInFlight | back/cmd/ucprobe/main.go:143-160 | in every interleaving at most twenty fetches are in flight |
| Probe.EachSlotIsWrittenOnce | back/cmd/ucprobe/main.go:157-160 | in every interleaving no slot is written twice, and only those of started checks |
| Probe.NoDeadlock | back/cmd/ucprobe/main.go:143-162 | a run is stuck exactly when the pool has finished, also after the guard kept its permit |
| Probe.RunsAreShort | back/cmd/ucprobe/main.go:143-162 | every run ends, within four steps a check and two |
| Probe.ResultIsTheStartedPrefix | back/cmd/ucprobe/main.go:143-163 | what is returned is the results of the started checks in leased order, all of them exactly if the guard never fired |
| Probe.ExecuteChecks | back/cmd/ucprobe/main.go:143-163 | the pool under any schedule ends and returns the started prefix |
| Marks.FoldDeploys | back/internal/api/marks.go:109-125 | the loop gives one mark for each maximal chain of gaps under ten minutes |
| Marks.BurstsAreBursts | back/internal/api/marks.go:102-125 | the bursts hold every deploy in order, gaps inside are under ten minutes and gaps between are not |
| Marks.BurstsAreUnique | back/internal/api/marks.go:102-108 | there is only one way to cut deploys into such chains |
| Marks.MarksAreApart | back/internal/api/marks.go:20-22 | marks of time-sorted deploys are at least ten minutes apart |
| Marks.LastShaIs | back/internal/api/marks.go:116-119 | a burst is labelled by its last sha that is not empty |
| Marks.BurstMarkIs | back/internal/api/marks.go:109-125 | a burst is one mark at its last event, under its last commit or else that event's name |
| Marks.DeployLabelIs | back/internal/api/marks.go:143-168 | a deploy shows the front of its commit, or of its name if it has none |
| Marks.ReleaseLabelIs | back/internal/api/marks.go:143-168 | a release that is a full commit hash is shown as a commit |
| Marks.BuildMarks | back/internal/api/marks.go:109-139 | the answer is a stable time-sorted permutation of the bursts, the releases and the incidents |
| Marks.EveryRowIsMarked | back/internal/api/marks.go:109-139 | the answer holds one mark for each burst, each release and each incident, of its kind, time and text, and nothing else |
| Marks.StableSortIsUnique | back/internal/api/marks.go:138-138 | a stable sort by time has only one outcome |
| Marks.MarksCoverEveryChart | back/internal/api/marks.go:91-100 | whichever bucket draws a range, the marks' window starts no later than the chart's and reaches to within a second of now |
| Heat.Heatmap | back/internal/api/web.go:753-894 | which windows a read covers and when it is refused; a split exactly when it is ahead of today, more than 15 days old, or beyond the plan |
| Heat.AnswersAre | back/internal/api/web.go:753-894 | which reads are refused and how, and the range an answer is labelled with |
| Heat.PlainLookIs | back/internal/api/web.go:753-894 | a named range covers its own days, snapped at its old end, and is refused exactly by a plan that keeps fewer |
| Heat.WeekStartIsMonday | back/internal/api/web.go:926-938 | a bound past a week goes to its Monday, counted from 1970-01-05, at most six days back; a younger one stays |
| Heat.WeekStartIsMonotone | back/internal/api/web.go:926-938 | the snap keeps the order of days |
| Heat.WeekStartIsIdempotent | back/internal/api/web.go:926-938 | snapping twice is snapping once |
| Heat.NoWeekIsCut | back/internal/api/web.go:926-932 | a snapped bound past a week has every week whole on one side |
| Heat.SplitComparesEqualHalves | back/internal/api/web.go:786-850 | for every accepted split the windows share one bound, are disjoint, adjacent, not empty, of equal days before the snap, and reach at most 31 days, or 37 snapped |
| Heat.FirstLookIsNeverAWall | back/internal/api/web.go:803-807 | a first look is never refused and reaches as deep as any range the plan allows |
| Heat.OfferDeploys | back/internal/api/web.go:834-857 | of the ten newest marks the overlay is offered exactly those whose split the same door accepts |

## Left out

- HTTP, JSON, cookies, templates, the front and every network client: a request is its decoded arguments and its answer a value.
- Body and document size caps: the body cap and the stored size are two different numbers.
- Two half-done board requests at a time: a replace, an append, a rename, a clear and a delete read and
  then write without a lock, so what is proved of them holds for whole requests. Two deletes at once can
  empty a project of two boards. A save locks its rows and a create its project.
- Within one notification a destination's page and follow-up are enqueued in one step, and an open in a
  caller's transaction (`OpenOnTx`) takes effect statement by statement rather than at its commit.
- A widget list that is absent and one that is empty are one document.
- Names and labels: lower case is ASCII only, and a length in bytes is a length in characters.
- A project of no tenant at a board door, and the project picker.
- The hash of a template, of a document's revision and of a visitor's token: taken as injective.
- Random ids are some fresh id, random jitter some value in its range, and the clock a parameter.
- A worker that crashes: its leases are never given back by any shown statement.
- Delivery rows deleted with their channel, incident or tenant (`back/internal/storage/pg/schema.sql:193-200`): a run has no such step.
- Delivery.Worker.ProcessItem: a read of the channel or the plan that fails counts as its answer to deliver; what a message says is not modelled.
- A failed read, write or transaction anywhere but in the log flush, where both failures are modelled.
- Recorder.Store.Flush: a failing visitor store or sink, links to people and emails, and the last seen time and place are not modelled.
- `ServerEvent` and the link tracks enter the recorder as tracks; how their properties are built is left out.
- ClaimRuns.ClaimsStayWithinThePlan: holds for workspaces with the one project `newUnclaimedTenant` makes.
- The session's move after a claim, and the rows of tables the claim does not name one by one.
- Monitors being edited or deleted, incidents of monitors the plan pauses, and an incident's slice of lines.
- The one-minute series and the previous period's total, which repeat the hourly ones.
- Marks.BuildMarks: invalid UTF-8 in a label is not modelled.
- Heat.Heatmap: the token, the path and the other filters are checked before; what is stored per cell is not modelled.
- The rest of the analytics door (beacons, salts, segments): one branch settles each.
