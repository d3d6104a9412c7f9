# CleanApp backend: a verified model

A Dafny model of the parts of the CleanApp services whose correctness depends on protocols, on
invariants over whole runs, or on a fast form agreeing with a simple one. Dafny checks every file;
`dafny verify dfyconfig.toml` verifies the project.

| files | what they model |
|---|---|
| `RetryHeader`, `Consumer`, `ConsumerInvariant`, `ConsumerQuiet`, `ConsumerProgress`, `ConsumerCopies`, `ConsumerSafety`, `ConsumerEnds`, `ConsumerPool`, `ConsumerEndless`, `ConsumerStop`, `ConsumerClose`, `Session` | the RabbitMQ consumer: broker, channel, consume loop, `jobs` channel, worker pool, retry header, reconnects |
| `MapCells`, `MapPins`, `MapAggregator` | the pyramid of map cells that groups report points for a viewport |
| `ReportCounts`, `CounterCache`, `BrandCounts` | the incremental report and brand counters, their stored watermarks and the queries they replace |
| `LeaderboardCache`, `LeaderboardRefresh`, `TopScores` | the cached leaderboards under concurrent readers and refreshers, and the places in a response |
| `Text`, `Hub`, `HubRun` | the two WebSocket hubs, the write pump that batches messages into frames, and runs of both |
| `ContactLists`, `Contacts`, `ContactRules` | the lists of contact e-mails that are stored as text and merged again |
| `TileZoom` | the zoom search and the placement of points on an OSM tile map |
| `BrandNames` | the two brand-name normalisers |
| `Scheduler`, `SchedulerLog` | the report periods of detail subscriptions |
| `Images` | EXIF orientation and downscaling |

## How it is built

- **Concurrent parts are state machines.** `Consumer` and `LeaderboardCache` have a datatype of steps, `Enabled` and
  `Apply`, and the results are about every reachable state: every interleaving of the steps. A step is one
  critical section, one channel operation or one call into a library. The hubs are classes whose methods are the
  branches of the hub loop and of the pump; every method keeps the invariant, so it holds after any order of calls.
- **Code that updates fields in place is a class**, and each method is proved against a function on values
  (`Updated` for the counters, `AfterTurns` for the scheduler, `UnitsAt` and `Lists` for the aggregator). The
  results over runs are lemmas about those functions.
- **Outside calls are parameters**: database and network calls succeed or fail as a parameter says, and rows
  that other processes commit in the meantime are parameters too.

Assumptions. Go's `int` has 64 bits. Closing an AMQP channel requeues its unacked deliveries (sections 3.1.7 and
3.1.8 of AMQP 0-9-1 describe prefetch and acknowledgement; `nack` is RabbitMQ's extension), and a retry publish
that returns no error is stored. One process at a time
runs the updaters of the counters: two that overlap would each add the same brand counts. Clocks do not run
backwards. A SQL statement is atomic and is written out as a function of the tables. Strings are valid Unicode and
case folding covers ASCII. S2 geometry and the Mercator formulas are symbolic or parameters, and real numbers
stand for floating point.

## What the proofs found

- A worker can dereference the nil channel that `closeLocked` leaves behind, and the process dies
  (`ConsumerSafety.RetryCanCrash`); only a worker whose delivery is already back in the queue can
  (`ConsumerSafety.NilChannelOnlyWhenStale`), so even this loses no message (`ConsumerSafety.NothingLost`).
- The live copies of a message are one and the number of steps that duplicated it
  (`ConsumerSafety.LiveCopiesCounted`). Three kinds of steps do: a retry published for a delivery whose session is
  gone, and a session lost or a process killed between a retry publish and its ack.
- The retry count is exact for 0 to 2^31-1 and starts again from zero after that (`RetryHeader.CountRises`), so a
  retry limit is kept exactly if it is at most 2^31-1 (`ConsumerEndless.LimitHoldsExactlyWhen`).
- While nothing is lost, closed or refused and nobody asks to stop, work goes on exactly as long as a message is
  neither done nor dead (`ConsumerSafety.WorkGoesOnExactlyWhilePending`), and it comes to an end
  (`ConsumerProgress.QuietRunsEnd`): each message can be brought to the end that its callback's outcome asks for, after
  exactly as many runs as the limit makes it (`ConsumerEnds.EveryMessageEnds`).
- After `Close` has returned, the consume loop can still open a session, exactly if it was already past its check of
  `done` (`ConsumerClose.ReopensExactlyWhen`); that session takes messages which nobody will process
  (`ConsumerClose.CloseCanAbandon`).
- The totals are right after a scan exactly if what it saw above the `MAX(seq)` read before, having no upper bound, is
  what was added below its watermark meanwhile (`CounterCache.ScanExactlyWhenClean`). Otherwise the error stays: the
  next update counts those rows a second time (`CounterCache.DirtyScanOvercounts`), as it happens when one row comes in
  during the first scan (`CounterCache.DirtyScanHappens`). The first scan of the brand counters has to see no
  row above (`BrandCounts.FirstScanExactlyWhenClean`).
- A good stored row of totals is overwritten with zeros exactly if a fresh process can neither load it nor scan, and
  still writes (`CounterCache.StoredGoesBackExactlyWhen`; `CounterCache.StoredZerosHappen` is a run that does).
- A restart of the brand counters with a lagging stored watermark is safe exactly if no brand has a row in
  between (`BrandCounts.RestartSafeExactlyWhen`); in `BrandCounts.LaggingRestartHappens` one has.
- A report whose analysis appears after its period was queried is never mailed (`Scheduler.MailedExactlyWhen`,
  `Scheduler.PassedForGood`; `Scheduler.LateReportIsLost` is such a history). One that appears between the end of a
  period and its query is mailed twice, and as long as `last_report_at` can be written none is mailed more often
  (`Scheduler.MailedAtMostTwice`).
- When even zoom 1 needs more than 16 tiles, the search returns zoom 19 with the tiles of zoom 1
  (`TileZoom.SearchResult`), for instance for a polygon from longitude -2000 to 2000 (`TileZoom.WidePolygonFails`).
- A box that reaches longitude 180 asks for a column of tiles that there is not, at every zoom, and the failing fetch
  loses the whole image (`TileZoom.TilesExistExactlyWhen`, `TileZoom.KilometreAtAntimeridian`).
- The kilometre box reaches beyond a pole from about 89.49 degrees of latitude on
  (`TileZoom.KilometreDefinedExactlyWhen`, `TileZoom.KilometreNearPole`), where the source takes the logarithm of a negative number.
- Brand normalisation is idempotent except where spaces and `and`s keep apart the letters of another `and`, as in `A nd`
  (`BrandNames.IdempotentExactlyWhenApart`, `BrandNames.NotIdempotent`); the services disagree exactly on names with
  an apostrophe (`BrandNames.SameNameExactlyWhen`).
- A leaderboard call can be given fewer rows than it asks for and than there are, whenever another call asked for
  fewer (`LeaderboardCache.AnswerCanBeShort`); while all ask for the same number it cannot
  (`LeaderboardCache.AnswersAreFull`). The two callers in the code both ask for 7
  (`backend/server/top_scores.go:33`, `backend/server/leaderboard_cache.go:85`), so they do not meet this.
- EXIF orientations 5 and 7 (section 4.6.4 of Exif 2.3) get the pixel maps of 8 and 6: such an image is turned but not
  mirrored, and comes out right exactly if its rows are palindromes (`Images.TransposedExactlyWhen`,
  `Images.TransversedExactlyWhen`).
- An image more than 1024 times longer than wide is scaled down to no pixels at all (`Images.KeepsAspect`). The comment on
  `CompressImage` speaks of 512 pixels; the constant in the code is 1024, which is what the model has.

## Model

| member | source | states |
|---|---|---|
| RetryHeader.ReadBack | backend/rabbitmq/subscriber.go:103-161 | a count written to the header reads back exactly for 0 to 2^31-1 and for no other integer, and other headers are kept |
| RetryHeader.CountRises | backend/rabbitmq/subscriber.go:103-161 | along a retry chain the count strictly rises exactly while it is below 2^31-1, and wraps to 0 there |
| RetryHeader.WithRetryCountHeader | backend/rabbitmq/subscriber.go:151-161 | the loop over the table, in any order, gives the old headers with the count set |
| RetryHeader.IntegersRead | backend/rabbitmq/subscriber.go:103-149 | a header of any integer type reads as the integer exactly if that is 0 to 2^63-1, as 0 below and as 2^63-1 above; a missing header or one of another type reads as 0 |
| RetryHeader.DecimalTextReads | backend/rabbitmq/subscriber.go:141-145 | a number written as text, with or without a sign, reads as the number, or as 0 if it is negative or too large |
| RetryHeader.OtherTextReads | backend/rabbitmq/subscriber.go:141-145 | text with any other character reads as 0 |
| Session.Subscriber.CloseLocked | backend/rabbitmq/subscriber.go:248-257 | afterwards nothing of the subscriber is open or stored |
| Session.Subscriber.ReconnectLocked | backend/rabbitmq/subscriber.go:259-305 | on success exactly one fresh connection with one fresh channel is open; on each failing path nothing is left open |
| Session.Subscriber.StartConsumeSessionLocked | backend/rabbitmq/subscriber.go:313-357 | on success the one channel has the pool's prefetch limit, a consumer and all bindings; on failure nothing is open and the next attempt dials afresh; success exactly if no call on the path fails |
| Session.Subscriber.Close | backend/rabbitmq/subscriber.go:590-617 | when it returns nothing of the subscriber is open, and the first library error is the one returned; `ConsumerClose.ReopensExactlyWhen` says what a loop that is connecting does afterwards |
| Session.Run | backend/rabbitmq/subscriber.go:248-357 | over every sequence of attempts, losses and closes nothing is open but what the subscriber has stored, and nothing at all after a close |
| ConsumerClose.ReopensExactlyWhen | backend/rabbitmq/subscriber.go:508-527 | after `Close` has closed the channel the same process can open a session again exactly if the loop was about to connect |
| ConsumerClose.CloseCanAbandon | backend/rabbitmq/subscriber.go:508-566 | from every such state, if a message is ready, a run of the same process that begins with the close ends with the loop stopped, a session open, and the message unacked in a buffer that nobody reads |
| ConsumerClose.AbandonedStays | backend/rabbitmq/subscriber.go:508-566 | it stays there as long as the process lives and the session is neither lost nor closed |
| ConsumerClose.CloseWhileConnecting | backend/rabbitmq/subscriber.go:508-527 | such a state is reachable |
| ConsumerInvariant.InvStep | backend/rabbitmq/subscriber.go:372-577 | every step of broker, loop, workers and owner keeps the invariant: each delivery is held once, each held delivery is backed by a copy while its session is open, each accepted tag is settled or held, no message loses all copies |
| ConsumerInvariant.InvRun | backend/rabbitmq/subscriber.go:372-577 | so does every run |
| ConsumerQuiet.QuietStep | backend/rabbitmq/subscriber.go:372-577 | while no session is lost or closed, no process dies and no retry publish is refused, every step keeps: one live copy per message, every unacked copy is held while the loop consumes, callback runs match the retry count, counts stay within the limit |
| ConsumerCopies.LiveStep | backend/rabbitmq/subscriber.go:372-577 | a step adds a live copy of a message exactly if it brings the message or duplicates it, and no step removes one |
| ConsumerSafety.NothingLost | backend/rabbitmq/subscriber.go:372-577 | in every reachable state each message that arrived has a copy that is ready, unacked, waiting for retry, dead or done |
| ConsumerSafety.LiveCopiesCounted | backend/rabbitmq/subscriber.go:372-577 | in every run, lossy or not, an arrived message has one live copy and one more for each step that duplicated it, where the copy between retry publish and ack counts as replaced |
| ConsumerSafety.ExactlyOneLiveCopy | backend/rabbitmq/subscriber.go:372-577 | it has exactly one live copy exactly if no step of the run duplicated it, and so in every run in which no session is lost or closed and the process is not killed |
| ConsumerSafety.CallbackRunsBounded | backend/rabbitmq/subscriber.go:426-464 | while nothing is lost, closed or refused a message's callback runs at most maxRetries + 1 times, fewer if it arrived with a count, for limits up to 2^31-1; `ConsumerEnds.LastFailureIsExact` and `ConsumerEnds.EveryMessageEnds` give the exact numbers |
| ConsumerEnds.LastFailureIsExact | backend/rabbitmq/subscriber.go:426-464 | when a transient failure is nacked for good, while nothing is lost, closed or refused, the callback has run exactly max(maxRetries - n, 0) + 1 times for a message that arrived with count n |
| ConsumerEnds.WhatEndedIsRight | backend/rabbitmq/subscriber.go:391-481 | over every run without losses in which the callback of each message always comes to the same: a message is done only after a success, dead only without a handler or after another outcome, and its callback has then run exactly once, or as often as the limit makes it if it always fails transiently, or never without a handler |
| ConsumerEnds.EveryMessageEnds | backend/rabbitmq/subscriber.go:372-577 | and every such run in which nobody asked to stop can be continued until every message that arrived has ended like that |
| ConsumerEnds.OnlySettlingEnds | backend/rabbitmq/subscriber.go:391-481 | in every state a copy becomes done or dead only when a worker acks or nacks its delivery for one of the reasons in the code, never by a loss, a refused retry, a crash or a restart, and then stays as it is |
| ConsumerEnds.EndedWasSettled | backend/rabbitmq/subscriber.go:391-481 | so in every run each copy that has ended was settled by a worker in some step, and its outcome decided between done and dead |
| ConsumerEnds.ContentsKeptFromStart | backend/rabbitmq/subscriber.go:433-456 | in every run, lossy or not, every copy and every held delivery has the id, the routing key and all headers but the retry count of the message that arrived |
| ConsumerEndless.LimitHoldsExactlyWhen | backend/rabbitmq/subscriber.go:85-93 | that bound holds exactly if the limit is at most 2^31-1 |
| ConsumerEndless.RetriesNeverEnd | backend/rabbitmq/subscriber.go:426-464 | with a larger limit there are runs without losses or further arrivals of every length from the same state, with any number of callbacks of one message |
| ConsumerSafety.SettleHitsOwnCopy | backend/rabbitmq/subscriber.go:391-481 | a settlement changes exactly the copy that was delivered, to done, dead or ready or by removal as the branch says; for a dead session it changes nothing |
| ConsumerSafety.OneCallPerDelivery | backend/rabbitmq/subscriber.go:372-495 | no delivery gets a second ack or nack call |
| ConsumerSafety.DrainedPoolSettledAll | backend/rabbitmq/subscriber.go:372-495 | when the pool has drained, every delivery put on `jobs` has had its call |
| ConsumerSafety.NoSendAfterClose | backend/rabbitmq/subscriber.go:498-566 | `jobs` is closed at most once and never sent on afterwards |
| ConsumerStop.NextStop | backend/rabbitmq/subscriber.go:362-566 | once `done` is closed, whatever was lost before, the loop can give up, a worker can finish or leave, or everything has stopped |
| ConsumerStop.StopsSoon | backend/rabbitmq/subscriber.go:362-566 | such steps are at most two for each worker and each delivery on `jobs`, and two for the loop |
| ConsumerStop.StopCompletes | backend/rabbitmq/subscriber.go:362-566 | from every reachable state of a living process that was told to stop they end with the loop stopped, `jobs` closed and empty, all workers gone, and each delivery that was put on `jobs` acked or nacked |
| ConsumerSafety.BoundedConcurrency | backend/rabbitmq/subscriber.go:362-566 | in every run at most `workers` callbacks run and at most 2 * workers + 1 deliveries are held outside the library |
| ConsumerPool.AllCanRun | backend/rabbitmq/subscriber.go:362-566 | for every pool size and routing key the bound is reached: a run after which all workers run a callback of that key |
| ConsumerSafety.HeldWithinPrefetch | backend/rabbitmq/subscriber.go:323-326 | in every run the whole process holds at most `workers` deliveries of the open session |
| ConsumerSafety.LoopBlocksOnlyWhenStale | backend/rabbitmq/subscriber.go:557-562 | in every run the loop blocks on `jobs` only if that or the delivery in hand is of a session that is gone |
| ConsumerSafety.LoopNeverBlocks | backend/rabbitmq/subscriber.go:557-562 | and never while no session is lost or closed and the process is not killed |
| ConsumerSafety.NilChannelOnlyWhenStale | backend/rabbitmq/subscriber.go:446-448 | the nil dereference is possible exactly when the channel is nil, and then the delivery's session is gone |
| ConsumerSafety.RetryCanCrash | backend/rabbitmq/subscriber.go:446-448 | a reachable state in which it happens |
| ConsumerSafety.LossCanDuplicate | backend/rabbitmq/subscriber.go:446-456 | a reachable state with two live copies of one message, after a lost session |
| ConsumerProgress.QuietRunsEnd | backend/rabbitmq/subscriber.go:372-577 | a measure over the whole queue bounds every run without losses, refusals and arrivals, for limits up to 2^31-1 |
| ConsumerProgress.NeverStuck | backend/rabbitmq/subscriber.go:372-577 | while nothing is lost, closed or refused, the loop consumes and a message is neither done nor dead, a step that processes messages is enabled, whatever the callbacks come to |
| ConsumerProgress.Drains | backend/rabbitmq/subscriber.go:372-577 | from every such state a run of such steps ends with every message done or dead, whatever the callbacks come to, for limits up to 2^31-1 |
| ConsumerSafety.WorkGoesOnExactlyWhilePending | backend/rabbitmq/subscriber.go:372-577 | in every reachable state without losses, refusals or a request to stop, such a step is enabled exactly if a message is neither done nor dead |
| MapAggregator.CellBaseLevel | backend/map_aggr/map_aggr_s2.go:32-59 | the finest level from 18 to 2 whose cells cover the viewport fewer than 16 times, or 2 |
| MapAggregator.Aggregator.AddPoint | backend/map_aggr/map_aggr_s2.go:69-76 | keeps the grouping of the added points by their level-18 cells |
| MapAggregator.Aggregator.Aggregate | backend/map_aggr/map_aggr_s2.go:176-188 | the units are exactly the cells at the level with points below them, each with the number of its points, all of them listed if at most 10 and none otherwise, and its pin |
| MapAggregator.Aggregator.AggrStep | backend/map_aggr/map_aggr_s2.go:124-174 | going up level by level, in any map order, ends in the units of direct grouping at the aggregator's level |
| MapAggregator.Aggregator.ToArray | backend/map_aggr/map_aggr_s2.go:78-96 | one entry per point of a small cell, one cluster per large one; the counts sum to the number of points |
| MapAggregator.Aggregator.Children | backend/map_aggr/map_aggr_s2.go:155-165 | every containment bit finds its child |
| MapAggregator.ComputeCentroid | backend/map_aggr/map_aggr_s2.go:98-122 | the pin is placed from the children kept by the weight filter, for positive weights; where that is, the rows of `MapPins` say |
| MapPins.KeptUnlessOutweighed | backend/map_aggr/map_aggr_s2.go:106-110 | a child's pin is kept exactly if no child has eight times as many points |
| MapPins.OneHeavy | backend/map_aggr/map_aggr_s2.go:111-113 | with one such child the pin of a cell is that child's pin |
| MapPins.TwoHeavy | backend/map_aggr/map_aggr_s2.go:114-115 | with two it is their centroid with the first one, by position, counted twice |
| MapPins.ThreeHeavy | backend/map_aggr/map_aggr_s2.go:116-117 | with three it is their centroid |
| MapPins.AllHeavy | backend/map_aggr/map_aggr_s2.go:118-119 | with four it is the centre of the cell |
| MapPins.SomeHeavy | backend/map_aggr/map_aggr_s2.go:98-122 | every cell with points has one such child at least |
| MapPins.OneCell | backend/map_aggr/map_aggr_s2.go:98-122 | if all points below a cell lie in one level-18 cell, its pin is the centre of that cell, at every level |
| MapAggregator.MergedStep | backend/map_aggr/map_aggr_s2.go:131-154 | one more child, in any order, keeps count, containment bits and listed points of every parent right |
| MapAggregator.MergedUnits | backend/map_aggr/map_aggr_s2.go:124-170 | once all children have joined, the parents are those of direct grouping |
| MapAggregator.PointsAppearOnce | backend/map_aggr/map_aggr_s2.go:78-96 | a point is in the output as often as it was added, or counted in its cell's cluster |
| MapAggregator.NothingElseIsListed | backend/map_aggr/map_aggr_s2.go:78-96 | whatever else is in the output is a cluster of an occupied cell with more than ten points, with its pin and their number |
| MapAggregator.ResultIgnoresOrder | backend/map_aggr/map_aggr_s2.go:130-169 | the output, as a multiset, depends on the multiset of points only |
| MapCells.Regroup | backend/map_aggr/map_aggr_s2.go:130-154 | the points of a cell are the points of its occupied children |
| MapCells.HeaviestIsKept | backend/map_aggr/map_aggr_s2.go:98-122 | of one to four children, one to four pins are kept and every heaviest child's is among them |
| MapCells.PlacedFromHeaviest | backend/map_aggr/map_aggr_s2.go:98-122 | for every cell that occurs: no weight is zero, and the fallback after the switch is unreachable |
| ReportCounts.ScanIsTally | backend/server/reports_count.go:119-137 | the single scan with MAX(CASE) per seq returns what three separate counts of distinct seqs return, for every table |
| ReportCounts.TallySplit | backend/server/reports_count.go:157-191 | recounts add up over adjacent seq ranges |
| ReportCounts.TallyAppend | backend/server/reports_count.go:119-191 | more rows leave a recount as it is exactly if they add no report and no class of a report to it |
| ReportCounts.LeavesAlone | backend/server/brand_counts.go:115-123 | an invalid row changes no recount; one that is not visible, not in English or of another or no brand changes none of a brand |
| ReportCounts.CountsOnce | backend/server/brand_counts.go:108-123 | the first row of a report that counts raises the total by one, and the count of its class |
| ReportCounts.TotalBetween | backend/db/db.go:922-956 | max(physical, digital) <= total <= physical + digital when every valid row has one of the two classes |
| CounterCache.ScanExactlyWhenClean | backend/server/reports_count.go:116-191 | after a successful scan the totals are a recount up to the new watermark exactly if what it saw above is what was added below meanwhile; if nothing was added there, exactly if it saw no valid row above |
| CounterCache.DirtyScanOvercounts | backend/server/reports_count.go:157-191 | the next update is right exactly if that scan was; if nothing was added below, it counts what the scan saw above a second time |
| CounterCache.DirtyScanHappens | backend/server/reports_count.go:64-155 | one valid row committed during the first scan is enough to make the totals wrong |
| CounterCache.UpdateKeeps | backend/server/reports_count.go:64-114 | whichever database calls fail and whatever is committed meanwhile, an update keeps cache and stored row correct up to their own watermarks exactly if it is harmless: a scan is balanced, or else the late rows change no report up to the watermarks that stay |
| CounterCache.AppendKeeps | backend/server/reports_count.go:123-191 | new rows keep them correct exactly if they change no report up to a watermark |
| CounterCache.RestartKeeps | backend/server/reports_count.go:193-240 | so does a crash or restart |
| CounterCache.CountsAreRecounts | backend/server/reports_count.go:64-240 | over every run of appends, updates with failures and late rows, crashes and restarts the totals equal a full recount up to the watermark all the time exactly if every event is harmless |
| CounterCache.CountsAreRecountsFromStart | backend/server/reports_count.go:64-240 | the same from the first start on, with any rows; and no watermark is ever ahead of the rows |
| CounterCache.StoredGoesBackExactlyWhen | backend/server/reports_count.go:86-114 | the stored watermark goes back, to a row of zeros, exactly if a fresh process cannot load it, cannot scan and still writes |
| CounterCache.StoredZerosHappen | backend/server/reports_count.go:86-114 | a run from the first start that stores zeros over a good row |
| CounterCache.UpdateCatchesUp | backend/server/reports_count.go:64-114 | an update without failures makes the cache the recount up to the newest seq, and the stored row with it unless one of the two had reached it |
| CounterCache.ReportCountCache.UpdateCounterCache | backend/server/reports_count.go:64-114 | the method does what the specification function says, field by field and in the tables |
| CounterCache.ReportCountCache.TryLoadCounterCacheFromDB | backend/server/reports_count.go:193-220 | loads the stored row exactly if it can be read and has a positive watermark |
| CounterCache.ReportCountCache.GetValidReportsCounts | backend/db/db.go:911-956 | the stored row, or else the three grouped counts |
| BrandCounts.RecomputedCounts | backend/server/brand_counts.go:98-132 | the absolute upsert gives every brand its recount, also brands left by an earlier process |
| BrandCounts.FirstScanExactlyWhenClean | backend/server/brand_counts.go:60-76 | after the unbounded first scan every brand's counters are a recount up to the watermark exactly if the scan saw no row that counts above it |
| BrandCounts.IncrementedCounts | backend/server/brand_counts.go:134-167 | after the additive upsert the counters are recounts up to the new watermark exactly if they were up to the old one |
| BrandCounts.UpdateKeeps | backend/server/brand_counts.go:33-96 | whichever database calls fail and whatever is committed meanwhile, an update keeps every brand's counters a recount up to the watermark exactly if an unbounded scan is clean, or else the late rows change no report up to the watermark |
| BrandCounts.RestartSafeExactlyWhen | backend/server/brand_counts.go:52-92 | a restart from a stored watermark that lags is safe exactly if no brand has a row in between |
| BrandCounts.LaggingRestartHappens | backend/server/brand_counts.go:33-96 | a run from the first start in which a restart is harmful |
| BrandCounts.BrandCountsAreRecounts | backend/server/brand_counts.go:33-167 | in every run, with late rows and crashes at any point, each brand's counters equal a recount all the time exactly if every event is harmless |
| BrandCounts.BrandCountsAreRecountsFromStart | backend/server/brand_counts.go:33-167 | the same from the first start on, with any rows |
| BrandCounts.Updater.UpdateBrandReportCounts | backend/server/brand_counts.go:33-96 | the method does what the specification function says, of which the next three rows give the progress |
| BrandCounts.ReachesNewestExactlyWhen | backend/server/brand_counts.go:33-96 | whichever calls fail, the watermark is at the newest seq afterwards exactly if the queries and the upsert succeed, or it was, or was found stored, there already |
| BrandCounts.AddsWhatIsNew | backend/server/brand_counts.go:52-92 | from a watermark in memory or loaded, each brand's counters grow by exactly its reports above it up to the newest seq, which is stored |
| BrandCounts.CatchesUpAfterRun | backend/server/brand_counts.go:33-96 | after every harmless run from the first start, also right after a harmless restart, an update without failures makes each brand's counters the recount up to the newest seq |
| LeaderboardCache.AtMostOneRefresh | backend/server/leaderboard_cache.go:123-154 | in every interleaving at most one refresh holds the flag, and the flag is up exactly while one does |
| LeaderboardCache.FlagIsGivenBack | backend/server/leaderboard_cache.go:137-146 | only the holder clears the flag, and it does so before it returns, also when its query fails |
| LeaderboardCache.CallsReturn | backend/server/leaderboard_cache.go:90-234 | no call waits for another, and each returns within five steps of its own |
| LeaderboardCache.AnswersAreLoaded | backend/server/leaderboard_cache.go:90-234 | a call that returns without error returns what a version of the tables gives, cut to the rows asked for: never an unloaded value |
| LeaderboardCache.OldValuesAreRefreshed | backend/server/leaderboard_cache.go:156-188 | a read that finds the value older than two minutes, too short or missing leaves a refresh under way or about to start |
| LeaderboardRefresh.RefreshLoads | backend/server/leaderboard_cache.go:199-234 | a refresh that finds the flag down and whose query succeeds leaves the newest ranking in the cache, loaded now, with the flag down, and returns it |
| LeaderboardRefresh.ReadAnswers | backend/server/leaderboard_cache.go:156-186 | a read answers from the cache at once exactly if the value is usable or young, and starts a call in the background exactly if it is usable, not young, and no refresh is under way |
| LeaderboardRefresh.StaleReadRefreshes | backend/server/leaderboard_cache.go:156-197 | a stale read returns the old value and its background call, once connected, puts the newest ranking in its place |
| LeaderboardRefresh.EmptyReadRefreshes | backend/server/leaderboard_cache.go:156-186 | a read with nothing usable and no refresh under way returns the newest ranking and caches it |
| LeaderboardRefresh.WhileRefreshing | backend/server/leaderboard_cache.go:199-216 | while another call refreshes, a call answers from a usable cache or with the newest ranking, and does not touch the cache |
| LeaderboardRefresh.RefreshIsSeen | backend/server/leaderboard_cache.go:199-234 | among any other steps: once a refresh that raised the flag has returned without error, its answer and the cache are at least as new as the tables were when it began |
| LeaderboardCache.CacheNeverGoesBack | backend/server/leaderboard_cache.go:143-154 | a cached snapshot is never replaced by one queried earlier |
| LeaderboardCache.AnswersAreFull | backend/server/leaderboard_cache.go:156-234 | while all calls ask for at least k rows each answer has k rows or all there were |
| LeaderboardCache.AnswerCanBeShort | backend/server/leaderboard_cache.go:161-187 | conversely, for all 0 < a < b and every ranking longer than a, a reachable state answers a call for b rows with a of them |
| TopScores.BuildTopScoresResponse | backend/server/leaderboard_cache.go:261-284 | the rows with their places, then the user's own record exactly if the user is not listed and it could be loaded |
| TopScores.PlacesRise | backend/server/leaderboard_cache.go:261-284 | places strictly rise, at most one row is the user's own, and there is one whenever the user is listed or has a record |
| TopScores.OwnPlaceIsPossible | backend/server/leaderboard_cache.go:316-350 | some ranking of the users that starts with the listed rows has the user at the reported place, and the record is that row's |
| TopScores.OwnRecordExactlyWhen | backend/server/leaderboard_cache.go:316-350 | there is an own record exactly for a user of the table, with that user's title and score |
| TopScores.SelfRankCache.GetSelfRankCached | backend/server/leaderboard_cache.go:293-314 | a rank younger than the time limit or a new query's; errors are not kept; while all calls use the same number of rows every place is beyond the listed ones |
| Hubs.Hub.Register | custom-area-dashboard/websocket/hub.go:48-53 | the client joins at the end of the stream so far; `connectedClients` equals the number of clients |
| Hubs.Hub.Unregister | custom-area-dashboard/websocket/hub.go:55-63 | closes the channel of a client that is still there, and of no other |
| Hubs.Hub.Broadcast | custom-area-dashboard/websocket/hub.go:65-76 | every client with room gets the message, every other is closed and dropped, and each client ever registered has been sent exactly a contiguous run of the stream |
| Hubs.SendToAll | custom-area-dashboard/websocket/hub.go:67-74 | the same for the loop, in any order, without a send on a closed channel or a second close |
| Hubs.WebSocketHub.Broadcast | brand-dashboard/services/websocket_service.go:62-73 | the same for the brand dashboard, with its broadcast counter |
| Hubs.WebSocketHub.Stop | brand-dashboard/services/websocket_service.go:78-86 | every open channel is closed once and what was queued stays readable |
| Hubs.WritePump.AddQueued | custom-area-dashboard/websocket/client.go:97-102 | the receive for a counted message always finds one, whatever the hub does meanwhile |
| Hubs.WritePump.WriteFrame | custom-area-dashboard/websocket/client.go:81-106 | with no broadcast in between, a frame is everything that was queued, joined by newlines |
| Hubs.WritePump.WireIsPrefix | custom-area-dashboard/websocket/client.go:81-106 | splitting the frames at newlines gives a prefix of the client's run of the stream, all of it once drained, if no message contains a newline |
| HubRuns.Run | custom-area-dashboard/websocket/hub.go:45-79 | over every run of steps of the hub and of all pumps, in any order, `connectedClients` is the number of clients, the stream grows by exactly the run's broadcasts, and every browser reads a prefix of the broadcasts since its client joined |
| Text.SplitJoin | email-fetcher/src/main.rs:896-901 | splitting a join gives the parts back exactly if no part contains the separator |
| Contacts.NormalizeEmailCandidates | email-fetcher/src/main.rs:264-287 | the nested loops give the filtered, deduplicated and capped list |
| Contacts.NormalizePhysicalEmailCandidates | email-fetcher/src/main.rs:289-313 | the area-tagged loops give the same addresses, each with the id of an area that lists it |
| Contacts.AcceptIsStable | email-fetcher/src/main.rs:219-262 | an address that is kept is kept unchanged when it is read again |
| ContactRules.KeptExactlyWhen | email-fetcher/src/main.rs:219-262 | a token is kept exactly if, without the white space around it and in lower case, it is one name, one `@` and one domain with an inner dot and no underscore, has six bytes or more, no blank, angle bracket or brace, and no placeholder; that form is what is kept |
| ContactRules.CaseAndSpacesDoNotMatter | email-fetcher/src/main.rs:264-275 | neither upper case nor white space around a token matters |
| ContactLists.KeptExactlyWhenFound | email-fetcher/src/main.rs:264-287 | below the cap exactly what some comma-separated piece stands for is in the list, and a smaller cap keeps the front of it |
| Contacts.NormalizingIsStable | email-fetcher/src/main.rs:264-287 | normalising the comma-join of a normalised list with the same cap gives the same list |
| Contacts.MergingIsStable | email-fetcher/src/main.rs:847-901 | the merged list starts with all valid stored contacts, has no duplicates, stays within the cap, adds only found addresses and all of them below the cap, and merging again changes nothing |
| TileZoom.CountGrows | email-service/email/draw_image.go:208-222 | the number of tiles never grows as the zoom drops, for every box given in order |
| TileZoom.SearchZoom | email-service/email/draw_image.go:75-85 | the loop finds the largest zoom from 19 to 1 with at most 16 tiles and its tiles, or ends with zoom 19 and the tiles of zoom 1 |
| TileZoom.SearchResult | email-service/email/draw_image.go:198-214 | zoom and tiles belong together exactly if at most 16 tiles cover the box at zoom 1 |
| TileZoom.SquareFits | email-service/email/draw_image.go:217-222 | that is so for every box inside the Web Mercator square |
| TileZoom.WidePolygonFails | email-service/email/draw_image.go:198-214 | and not for a polygon from longitude -2000 to 2000 at latitude 0, for which the search ends with zoom 19 and the tiles of zoom 1 |
| TileZoom.KilometreIsCovered | email-service/email/draw_image.go:57-72 | the box around a report is at least a kilometre high and wide, with the report in its middle |
| TileZoom.KilometreDefinedExactlyWhen | email-service/email/draw_image.go:57-72 | the kilometre box stays between the poles exactly if half its side is less than the distance to the nearer pole |
| TileZoom.KilometreNearPole | email-service/email/draw_image.go:57-72 | so it does up to 89.492 degrees of latitude and does not from 89.493 degrees on |
| TileZoom.Generate1kmBoundingBox | email-service/email/draw_image.go:56-88 | for every box on the map, also over the antimeridian, at most 16 tiles of the zoom that is returned, the largest such zoom; for every box between the poles zoom and tiles match exactly if 16 tiles are enough at zoom 1 |
| TileZoom.ComputeBoundingBoxPolygon | email-service/email/draw_image.go:235-267 | the least box, among those that meet the globe, with every point of every ring in it |
| TileZoom.ComputeBoundingBoxMultiPolygon | email-service/email/draw_image.go:269-297 | the same over several polygons |
| TileZoom.BoundToZoomXY | email-service/email/draw_image.go:198-214 | for every polygon with points, all on the map, at most 16 tiles of the zoom that is returned |
| TileZoom.GetAllTiles | email-service/email/draw_image.go:358-369 | the matrix has the tile at row i and column j of the bounds at place i, j |
| TileZoom.MatrixCovers | email-service/email/draw_image.go:358-369 | for every box the matrix lists exactly the tiles that points of the box have as indices, each once |
| TileZoom.MeetsOnMap | email-service/email/draw_image.go:217-222 | for a box in the square these are the tiles with a point of the box on them |
| TileZoom.TilesExistExactlyWhen | email-service/email/draw_image.go:217-222 | the tiles exist exactly if the box stays within a tile of the west and north edges and short of the east and south edges |
| TileZoom.KilometreAtAntimeridian | email-service/email/draw_image.go:56-88 | the kilometre box asks for a missing column exactly if it reaches longitude 180 |
| TileZoom.PixelXIsTileOffset | email-service/email/draw_image.go:346-355 | the pixel x of a longitude is 256 times its distance from the west edge in tiles |
| TileZoom.PointOnItsColumn | email-service/email/draw_image.go:346-355 | every point of a box is drawn in the image exactly if it is not west of the first tile; from longitude -180 on always, on the column of tiles it lies on |
| TileZoom.PixelYInImage | email-service/email/draw_image.go:346-355 | the pixel y is 0 at the north edge, the height at the south edge, and inside the image exactly for latitudes between them |
| TileZoom.PointOnTheRows | email-service/email/draw_image.go:346-355 | where the two directions of the projection undo each other, a point is drawn inside the image exactly if its place lies on the rows of tiles, and on an edge exactly if it lies on that edge of the rows |
| TileZoom.PointInItsRows | email-service/email/draw_image.go:346-355 | so every point of a box that is not north of the map is drawn inside the image |
| TileZoom.SouthIsLower | email-service/email/draw_image.go:346-355 | of two points the southern one is drawn lower |
| BrandNames.IdempotentExactlyWhen | customer-service/utils/brand_normalizer.go:10-32 | normalising twice equals normalising once exactly if the result has no `and` in it |
| BrandNames.IdempotentExactlyWhenApart | customer-service/utils/brand_normalizer.go:10-32 | normalising twice equals normalising once exactly if, in the folded input without marks, no a, n and d outside an `and` stand in order with nothing but spaces and `and`s between them |
| BrandNames.NotIdempotent | customer-service/utils/brand_normalizer.go:10-32 | it fails on `A nd` |
| BrandNames.CaseAndMarksDoNotMatter | customer-service/utils/brand_normalizer.go:15-26 | folding and removing the marks beforehand gives the same name |
| BrandNames.NameIsRest | customer-service/utils/brand_normalizer.go:10-32 | the name is what is left, in order, of the lower-case input without the seven marks when spaces and all `and`s are left out at once |
| BrandNames.FixedPointReached | customer-service/utils/brand_normalizer.go:10-32 | after a third of the length plus one calls nothing changes any more |
| BrandNames.SameNameExactlyWhen | brand-dashboard/utils/brand_name.go:6-22 | the two services agree on a name exactly if it has no apostrophe of either kind |
| Scheduler.ReportScheduler.ProcessAllSubscriptions | details-subscription-service/scheduler/scheduler.go:57-109 | one run leaves subscriptions, log and mails as the specification function says, and its counters are the mailed and failed turns |
| Scheduler.FailuresNeverAdvance | details-subscription-service/scheduler/scheduler.go:75-105 | after a run the next period starts at the end of the mailed one if it was mailed and recorded, and where it did before otherwise |
| Scheduler.LogTellsTheMails | details-subscription-service/scheduler/scheduler.go:75-105 | in every history in which the log can be written, the rows marked as sent are the mails, one for one, with their periods and sizes |
| SchedulerLog.RunIsLogged | details-subscription-service/scheduler/scheduler.go:75-105 | if every row can be written, a run's rows are its turns, each with the subscription, its whole period, and the number of reports, or 0 if the query failed |
| SchedulerLog.TurnIsLogged | details-subscription-service/scheduler/scheduler.go:82-103 | and a failed turn sends no mail and changes no subscription |
| SchedulerLog.FailedPeriodsAreRetried | details-subscription-service/scheduler/scheduler.go:75-105 | in every history that is recorded, the next period of a subscription starts where the last one ended if that was sent and where it started if it failed |
| Scheduler.NoReportIsMissed | details-subscription-service/scheduler/scheduler.go:75-105 | in every history, whatever fails, each report visible from its timestamp on and not later than the last mailed period has been mailed, below the row limit |
| Scheduler.MailedExactlyWhen | details-subscription-service/scheduler/scheduler.go:75-105 | if `last_report_at` could always be written, each time lies in exactly one mailed period, and a report was mailed exactly if the query of its period could see it |
| Scheduler.MailedAtMostTwice | details-subscription-service/scheduler/scheduler.go:75-105 | a report is mailed at most twice: in the mail whose period spans its time, and in the one right before exactly if it appeared between the end of that period and the query |
| Scheduler.PassedForGood | details-subscription-service/scheduler/scheduler.go:75-105 | a report that was passed over is never mailed, whatever happens afterwards |
| Scheduler.LateReportIsLost | details-subscription-service/scheduler/scheduler.go:75-105 | a history in which that happens, and all that begin with it |
| Images.CorrectImageOrientation | backend/image/compress.go:40-106 | every pixel arrives at its place in an image of the stated size; other orientations return the image itself |
| Images.MirrorsRows | backend/image/compress.go:46-53 | 2: every row stays in its place, backwards |
| Images.TurnsUpsideDown | backend/image/compress.go:54-61 | 3: the rows change places from top to bottom, each backwards |
| Images.MirrorsColumns | backend/image/compress.go:62-69 | 4: the rows change places, each as it is |
| Images.TurnsClockwise | backend/image/compress.go:78-93 | 6 and 7: the top row becomes the right column from the top down, and so on |
| Images.TurnsCounterClockwise | backend/image/compress.go:70-101 | 8 and 5: the top row becomes the left column from the bottom up, and so on |
| Images.TransposedExactlyWhen | backend/image/compress.go:70-77 | so 5 exchanges rows and columns, as its comment says, exactly if every row is a palindrome |
| Images.TransversedExactlyWhen | backend/image/compress.go:86-93 | and 7 exchanges them along the other diagonal under the same condition |
| Images.TargetIsBijection | backend/image/compress.go:40-106 | each orientation is a bijection of pixels |
| Images.OrientationTable | backend/image/compress.go:40-106 | 6 and 8 undo each other, 6 twice is 3, 2 after 4 is 3, 2, 3 and 4 undo themselves; 5 and 7 are undone by 6 and 8 |
| Images.TurnTwice | backend/image/compress.go:40-106 | which carries over to whole images |
| Images.TurnBack | backend/image/compress.go:40-106 | an image turned by 6 and then 8, and by each other such pair, is the image again pixel by pixel |
| Images.KeepsAspect | backend/image/compress.go:125-154 | the longer side becomes 1024, the shorter one keeps the aspect ratio to within a pixel and vanishes exactly if it is more than 1024 times shorter |
| Images.SentSizeFits | backend/image/compress.go:125-154 | what is sent has at most 1024 by 1024 pixels, and is the image as it came exactly if that had |

## Left out

- ConsumerSafety.CallbackRunsBounded: does not count closing: after `Close` requeues a message its callback can run again with the same retry count, as after a lost session.
- TileZoom.SearchResult: is for boxes between the poles; beyond them the source's indices are conversions of NaN, which Go leaves open.
- MapAggregator.Aggregator.ToArray: requires that it is called once for an aggregator, as the map handler does; a second call would mix levels.
- MapAggregator.Aggregator.AddPoint: takes a point's coordinates to be its leaf cell; pins are terms over cell centres and centroids, and the sharing of slice memory by `append` is not modelled.
- TileZoom.PixelYInImage: does not say where between the edges a latitude is drawn, because the code interpolates linearly in latitude where the tiles do not.
- Images.KeepsAspect: scales in exact arithmetic; floating-point rounding can shorten the longer side by a pixel.
- Scheduler.NoReportIsMissed: takes the area and visibility of a report and the area of a subscription to stay as they are, and `last_report_at` to be stored exactly.
- TopScores.OwnPlaceIsPossible: takes the snapshot and both queries of the rank to see the same contents of the table.
- Hubs.WritePump.WireIsPrefix: is about frames that were completed; a connection that breaks while a frame is written loses that frame.
- The publishes that RabbitMQ answers by closing the channel (an undeclared retry exchange): the model lets such a publish fail at once.
- The failing first session of `Start` and the constructor `NewSubscriber`: no consume loop runs in either case.
- The sleeps and the backoff between reconnects, log output, JSON encoding, sockets, TLS and real time.
- `GetStats` of the custom-area hub: it takes the read lock, as a broadcast does, and so can give the number of clients before a broadcast that has dropped some already.
- The write pump of the brand dashboard, which writes one message per frame, the read pumps and `lastBroadcastSeq`.
- `ToTitleCase`, `GetBrandDisplayName`, Unicode case folding.
- `convertPoly`, which applies the formulas of `convertPoint` to each point of a polygon, and the drawing itself.
- HTTP handlers, migrations, configuration, payment, e-mail and blockchain clients.
