# Verified model of the message streaming and publishing core

A Dafny model of the parts of the node whose correctness depends on several components at once,
with machine-checked proofs of what they guarantee together. `dafny verify dfyconfig.toml` checks
everything.

**The Subscribe stream** (most of the project). A stream has one writer, which owns all state and
the output; it is fed by a poller over two id-ordered tables through a bounded dispatcher
subscription, and by catch-up scans that replay each topic's history.

- `Rows`, `WaveScan`, `Fetcher`: the tables, the per-topic LIMIT query, the rotating scan loops.
- `Frames`: the high-water dedup and the packing of frames.
- `Writer` is the writer as functions on its state; `Stream` is the same writer as an object
  updated in place, each method proved to compute the function of its name.
- `Bookkeeping`, `LogSteps`, `EpochLog`, `AnswerCount`, `WriterRuns`, `MutateShape`,
  `MutateMeaning`, `Sender`: what the writer keeps when fed *anything at all*, in any order.
- `StreamSystem`, `TopicView`, `TopicSlice`, `Delivery`, `WriterSteps`, `MutateSteps`,
  `Theorems`: the writer together with store, poller, dispatcher, scans and lane, over every
  interleaving; the end-to-end delivery theorems are in `Theorems`.
- `Completion`, `Output`: what completing a wave sends and leaves, and what each step sends.
- `Verdicts`: which steps end a stream and which closes its subscription, and that no others do;
  `RefreshReach`: how far a replay reaches once its scan has re-read the ceiling.
- `HistoryReplay`: exactly when a history_only replay is complete; `StaleReplay`: a run in which
  one loses a row (see below).
- `Progress`: from every reachable state every wave can complete, every row can arrive, and a
  closed or half-closed stream can end.
- `Admission`: the scan slots, byte budget and wakeup token shared by the fetchers.

**Around it.** `Dispatcher` and `Worker` (bounded subscriptions and the polling loops),
`Pagination` (keyset queries of stored envelopes), `RateLimit` and `RateLimiter` (the two-generation
token bucket), `IdentityLog` (identity updates under snapshot isolation), `Backfill` (size-bounded
classification requests).

Assumptions, all explicit in preconditions or in the steps a run may take: row ids are at least 1,
unique, and become visible in id order (`StreamSystem.Enabled`, as the comment at
pkg/mls/api/v1/subscribe.go:653-656 says); the poller and the scans read the same store; nothing is
pruned while a stream runs; group rows always parse; an envelope carries the topic of its row;
parsing and marshalling of protobufs succeed (except in `Worker.Listen`, which models a row that
cannot be marshalled); stored messages have data, as publishing requires
(pkg/mls/api/v1/service.go:978, 1052), so a turn with rows has bytes. Topics are a kind and an
identifier instead of a prefixed string. `epochs` in the writer state and `against` and `publisher`
in the identity log are history: no decision reads them.

## What is false of the code, and what holds instead

- *A history_only replay announced complete is complete.* False when envelopes of the topic are
  still queued in the subscription's channel at the moment the topic is registered history_only
  (removed and re-added, say) and skip one of its rows: the topic has no gate, so they go straight
  out, raise the high-water mark, and the dedup then discards the row when the replay brings it, yet
  CatchupComplete follows. `HistoryReplay.HistoryReplayExactly` says exactly when every
  continuation is truthful: when the queued envelopes above the new floor are the first of the rows
  the topic has there, which nothing queued is a special case of.
  `StaleReplay.StaleEnvelopeBreaksReplay` is a concrete run. `Theorems.CatchupCompleteIsTrue` holds
  for every other registration, those for live delivery included.
- *A page query with a cursor returns the rows after the cursor.* False for a cursor with a digest
  and time zero, and for a cursor with a time and no digest, which the code ignores altogether.
  `Pagination.QueryIsPageExactly` gives the exact condition.
- *Every page query is answered.* A cursor message whose index is not set makes the builder
  dereference nil (pkg/store/query.go:40-44) and panic; the model's cursors have an index.
- *A failed publish of an identity update has committed nothing.* False when a COMMIT takes effect
  and its acknowledgement is lost: the retry then publishes a second time, or fails.
  `IdentityLog.PublishedOnce` counts exactly; the log chain holds regardless.
- *A sweep of the rate limiter is invisible.* True exactly under the condition in
  `RateLimit.SweepsAreInvisibleExactly`; the shipped limits satisfy it.

One promise holds of the code only because of what its callers send: *a parked fetcher is always
woken* (`Admission.NoLostWakeup`) needs turns of at least one byte, which the check at publishing
provides. Of the reservation by itself `Admission.StuckExactly` says which limits and turn sizes
would break it.

The comment above PublishIdentityUpdate describes SERIALIZABLE isolation and SELECT FOR UPDATE; the
code uses repeatable read, an advisory lock and the touched inbox row, and the model follows the code.

## Model

| member | source | states |
|---|---|---|
| Theorems.EndToEndDelivery | pkg/mls/api/v1/subscribe.go:652-768 | In every state of every run of a live stream: the rows sent for a subscribed topic since its registration are exactly its rows above the floor up to its high-water mark, once each and in id order; once its gate is open, adding what its channel still holds gives exactly its rows up to everything the poller has offered |
| Theorems.CatchupCompleteIsTrue | pkg/mls/api/v1/subscribe.go:484-544 | When the writer takes a wave's last done marker, each topic the wave owns has been sent exactly its rows above the floor up to the replay's bound; the bound reaches every row visible when the wave began; for a topic going live the buffered and queued rows complete this to everything offered; the only registrations left out are those `HistoryReplay.HistoryReplayExactly` proves cannot keep it |
| Theorems.BoundCoversRegistration | pkg/mls/api/v1/subscribe.go:652-690 | Every row of the topic above its floor that was visible in any state before the wave began, the one its Mutate found included, lies within the bound its CatchupComplete speaks of |
| Theorems.StepKeeps | pkg/mls/api/v1/subscribe.go:902-1273 | Every step of the system (publish, poll, ceiling, refresh, scan turn, done marker, batch, live envelope, Mutate, half-close) keeps the delivery invariant unless it ends the stream |
| Theorems.RunInv | pkg/mls/api/v1/subscribe.go:205-224 | The delivery invariant holds in every state of every run until the stream ends |
| Theorems.SeamInEveryRun | pkg/mls/api/v1/subscribe.go:484-544 | In the running system a live topic's frames are its wave's replay under the wave's id, then TopicsLive and CatchupComplete side by side, then live frames under 0 |
| Verdicts.EndsExactly | pkg/mls/api/v1/subscribe.go:902-1273 | A step of a live stream's run ends it if and only if it is a live envelope of a topic in catch-up that takes what is held back over the cap, a Mutate that is not acceptable, the closed subscription found drained, a half-close with no wave in flight, or the last marker of the only wave left after a half-close: taking a batch never fails, and no step of the tables, the poller, the dispatcher or the scans ends it |
| Verdicts.LiveFailsExactly | pkg/mls/api/v1/subscribe.go:1238-1273 | In every state the writer can reach, whatever it was fed, a live envelope fails with ResourceExhausted if and only if its topic is in catch-up and the bytes held back with it exceed the cap; otherwise the stream goes on |
| Verdicts.BatchVerdict | pkg/mls/api/v1/subscribe.go:1175-1236 | Taking a batch never fails; it closes the stream exactly when the client has half-closed and this is the last marker of the only wave left |
| Verdicts.HalfClosedExactly | pkg/mls/api/v1/subscribe.go:909-935 | A stream that has not ended is half-closed exactly when its client has half-closed, and then a wave is in flight |
| Verdicts.ClosesExactly | pkg/subscriptions/dispatcher.go:58-78 | A live stream's subscription is closed by one thing only: the poller offers it the next row, of a subscribed topic, while its channel is full |
| Completion.CompletionIsExact | pkg/mls/api/v1/subscribe.go:484-544 | A wave's last marker sends the messages held back for its gated topics that lie above their marks, groups before welcomes and each kind in id order across topics, in frames under its id; then one TopicsLive naming exactly the topics it still owns, each once; then its CatchupComplete; that wave alone is gone, its gated topics are open, its history_only ones forgotten, all others as they were |
| Output.OutputIsExact | pkg/mls/api/v1/subscribe.go:902-1273 | What each step of a live stream's run sends, and nothing else: an envelope of an open topic goes out under 0 unless it is a duplicate, a gated one waits; a batch brings, of each topic its wave still owns, the rows above its mark under the wave's id, in the batch's order by id; a last marker brings the wave's completion; a Mutate brings one answer for its own id unless it starts a wave, and one for each wave it empties; no other step sends anything |
| Output.StartedOnce | pkg/mls/api/v1/subscribe.go:546-551 | Started is the first frame of a stream and is never sent again |
| Progress.WavesCanComplete | pkg/mls/api/v1/subscribe.go:1175-1236 | From every reachable state of a live stream the scans and the writer can, with no new row, envelope or request and handing over each turn only into an empty lane, complete every wave: each Mutate in flight gets its one CatchupComplete, and the stream then ends exactly when its client has half-closed |
| Progress.EverythingCanArrive | pkg/mls/api/v1/subscribe.go:652-768 | From every reachable state whose subscription is open and whose client has not half-closed, the scans, the poller and the writer can on their own send every subscribed topic, from its registration on, exactly all the rows the store has above its floor |
| Progress.ClosedCanEnd | pkg/mls/api/v1/subscribe.go:1238-1241 | A stream whose subscription was closed can complete every wave, send all that was queued, and return |
| Progress.RegisteredAsAsked | pkg/mls/api/v1/subscribe.go:1046-1110 | When a Mutate registers a topic, the floor all delivery statements count from is the lowest cursor the request's adds name it with, nothing has been sent of it since, and it is live exactly when the request is not for history only |
| RefreshReach.BoundCoversRefresh | pkg/mls/api/v1/subscribe.go:676-690 | After a successful refresh the bound a wave's CatchupComplete speaks of covers every row of an unpruned topic visible at the refresh |
| HistoryReplay.HistoryReplayExactly | pkg/mls/api/v1/subscribe.go:1046-1095 | For a topic registered history_only, in every continuation of the run the CatchupComplete of its wave finds exactly its rows up to a bound sent that reaches all rows visible at the registration, if and only if the envelopes queued for it at the registration, less those at or below its floor, are the first of the rows it has above the floor |
| HistoryReplay.FirstReadIsComplete | pkg/mls/api/v1/subscribe.go:1046-1095 | What a client can check itself: the history_only read of a topic that no earlier request on the stream asked to follow live is complete in every continuation |
| HistoryReplay.DoomedBreaks | pkg/mls/api/v1/subscribe.go:1238-1273 | From a state whose queue skips a row, removing the gated topics, draining the queue and letting the scans run ends with the wave announced complete and the row never sent |
| Theorems.FoldOrderIsForced | pkg/mls/api/v1/subscribe.go:520-531 | However a wave's folded messages are sorted by id, stably or not, the result is the same: no two of one kind share an id |
| StaleReplay.StaleEnvelopeBreaksReplay | pkg/mls/api/v1/subscribe.go:1046-1095 | A concrete run in which a history_only replay is announced complete although one of its two rows was never sent |
| WriterRuns.BookkeepingHolds | pkg/mls/api/v1/subscribe.go:205-224 | Whatever the writer is fed: dispatcher set and gauge equal subscribed, gated topics are exactly the subscribed ones a wave owns, every mapped topic's wave is active and lists it, waves count their topics, buffered bytes are exact and within the cap, in-flight ids are distinct and nonzero |
| WriterRuns.IdsRise | pkg/mls/api/v1/subscribe.go:339-411 | From an add to the topic's next drop the ids sent for it strictly increase above the floor, over both lanes, for any rows in any order, repeated or not |
| WriterRuns.SeamHolds | pkg/mls/api/v1/subscribe.go:1187-1218 | While a topic is gated only its wave's frames carry it and neither its TopicsLive nor its CatchupComplete is out; afterwards both are out side by side and only frames tagged 0 carry it |
| WriterRuns.AnsweredOnce | pkg/mls/api/v1/subscribe.go:1112-1157 | Answers given to an id plus its in-flight wave equal the Mutates accepted with that id: each is answered exactly once or still in flight |
| WriterRuns.CleanCloseAnswersAll | pkg/mls/api/v1/subscribe.go:915-935 | When a run finishes cleanly no wave is left and every Mutate of the run has had its CatchupComplete |
| WriterRuns.HalfCloseDrains | pkg/mls/api/v1/subscribe.go:1219-1236 | After a half-close active waves only leave, no topic is dropped, and the stream finishes exactly at the input that completes the last wave |
| WriterRuns.SupersededBatch | pkg/mls/api/v1/subscribe.go:1187-1218 | A batch of a wave that no longer owns a topic adds no row of it and leaves the topic's state alone, even when the batch completes the wave |
| WriterRuns.TakeSound | pkg/mls/api/v1/subscribe.go:947-1273 | Every accepted input keeps bookkeeping, logs and tags, and changes the answers owed by exactly the Mutate it is |
| EpochLog.SeamOpens | pkg/mls/api/v1/subscribe.go:517-543 | Appending a wave's fold, TopicsLive and CatchupComplete to a gated topic's log gives the log of an open topic |
| EpochLog.Climb | pkg/mls/api/v1/subscribe.go:359-371 | Sending what passes the dedup keeps the ids of a topic rising and moves its mark to the last of them |
| LogSteps.CompleteSound | pkg/mls/api/v1/subscribe.go:484-544 | Completing a wave keeps bookkeeping, logs and tags of every topic |
| LogSteps.DropSound | pkg/mls/api/v1/subscribe.go:438-474 | Dropping a topic keeps them too, for every other topic and with a Mutate half done |
| LogSteps.StartSound | pkg/mls/api/v1/subscribe.go:1122-1150 | Starting a wave for the topics a Mutate registered keeps them, and every topic's wave carries the id of its registration |
| AnswerCount.DropBalanced | pkg/mls/api/v1/subscribe.go:456-472 | A wave that loses its last topic is answered then and there: no answer is lost or duplicated by a drop |
| AnswerCount.CompleteBalanced | pkg/mls/api/v1/subscribe.go:537-543 | Completing a wave turns the answer it owed into the one it sends |
| Bookkeeping.DropBook | pkg/mls/api/v1/subscribe.go:438-474 | Dropping any topic keeps gauges, waves, ids and gates, in the middle of a Mutate too |
| Bookkeeping.CompleteBook | pkg/mls/api/v1/subscribe.go:484-544 | Completing a wave keeps them, removes exactly that wave and frees exactly its topics |
| Bookkeeping.StartBook | pkg/mls/api/v1/subscribe.go:1122-1150 | Starting a wave keeps them when the id is not in flight |
| Bookkeeping.LiveBook | pkg/mls/api/v1/subscribe.go:1238-1253 | Taking a live envelope keeps them, and the buffer stays within the cap unless the stream fails |
| MutateMeaning.SucceedsExactly | pkg/mls/api/v1/subscribe.go:947-1110 | A Mutate succeeds if and only if it is admissible, each of its wires, added or removed, is a byte 0 or 1 followed by an identifier, and every topic an add's bytes name is addable once the topics the removes' bytes name are gone |
| MutateMeaning.SplitWires | pkg/mls/api/v1/subscribe.go:112-129 | On literal bytes: 0 and a non-empty identifier is that group topic, 1 and one that welcome topic, and nothing else names a topic |
| MutateMeaning.FreshMutate | pkg/mls/api/v1/subscribe.go:947-1157 | The first request of a stream, on its bytes: accepted exactly when its adds have an id, are not too many and every wire is a kind byte 0 or 1 with an identifier; then exactly the topics its adds name are registered, at their lowest cursors, live unless history_only, and exactly these are scanned, groups and welcomes apart |
| MutateMeaning.RefusalCode | pkg/mls/api/v1/subscribe.go:947-1070 | A refused request fails with ResourceExhausted exactly when its adds have an id and are too many, else with InvalidArgument |
| MutateMeaning.ScansMean | pkg/mls/api/v1/subscribe.go:1097-1150 | A successful Mutate spawns the scans of exactly the topics it registers, from their floors, each once and under its kind, for the wave it starts |
| MutateMeaning.TopicFate | pkg/mls/api/v1/subscribe.go:1005-1110 | Topic by topic what a Mutate does, on the bytes of its lists: registered afresh at the lowest cursor any add names it with, unless it stays subscribed at or above that cursor; gone if only removed; else untouched |
| MutateMeaning.MutateMeans | pkg/mls/api/v1/subscribe.go:1005-1157 | The whole writer after a successful Mutate as a function of the removed set and the lowest cursors, new wave included |
| MutateMeaning.OrderDoesNotMatter | pkg/mls/api/v1/subscribe.go:1005-1110 | Requests with the same removed set and lowest cursors both succeed or both fail, and leave the same writer up to the new wave's list order and the order of frames |
| MutateMeaning.ParseLowest | pkg/mls/api/v1/subscribe.go:1005-1025 | Parsing keeps exactly the topics the adds' bytes name, each with the lowest cursor requested for it |
| MutateSteps.InvMutate | pkg/mls/api/v1/subscribe.go:947-1157 | An accepted Mutate keeps the whole system's delivery invariant |
| Stream.SubscribeStream.DropTopic | pkg/mls/api/v1/subscribe.go:438-474 | The in-place drop computes the writer function: new state in every field |
| Stream.SubscribeStream.SettleTopics | pkg/mls/api/v1/subscribe.go:490-518 | The completion loop computes the fold: state, group rows, welcome rows and marker |
| Stream.SubscribeStream.CompleteWave | pkg/mls/api/v1/subscribe.go:484-544 | The in-place completion computes the writer function |
| Stream.SubscribeStream.KeepWanted | pkg/mls/api/v1/subscribe.go:1194-1216 | The filter keeps exactly the rows whose topics the batch's wave owns, in order |
| Stream.SubscribeStream.TakeBatch | pkg/mls/api/v1/subscribe.go:1175-1236 | Taking a batch in place computes the writer function and its verdict |
| Stream.SubscribeStream.TakeLive | pkg/mls/api/v1/subscribe.go:1238-1273 | Taking a live envelope in place computes the writer function and its verdict, whose meaning `Verdicts.LiveFailsExactly` states |
| Stream.SubscribeStream.HalfClose | pkg/mls/api/v1/subscribe.go:915-935 | The half-close computes the writer function and its verdict |
| Stream.SubscribeStream.IdInFlight | pkg/mls/api/v1/subscribe.go:975-985 | The loop over waves finds exactly the ids in flight |
| Stream.SubscribeStream.ParseAdds | pkg/mls/api/v1/subscribe.go:1005-1025 | The parse loop computes the collapsed adds or rejects; `MutateMeaning.ParseMeans` says on the bytes which |
| Stream.SubscribeStream.AddTopic | pkg/mls/api/v1/subscribe.go:1046-1110 | One add in place: rejected, no-op or registered with the gate closed first |
| Stream.SubscribeStream.Mutate | pkg/mls/api/v1/subscribe.go:947-1157 | The whole Mutate in place computes the writer function, its verdict and the scans to spawn, which `MutateMeaning` gives the meaning of |
| MutateMeaning.ParseMeans | pkg/mls/api/v1/subscribe.go:1005-1025 | Adds parse if and only if each of their wires names a topic, and the result maps exactly the named topics to the lowest cursors |
| Frames.PackMeaning | pkg/mls/api/v1/subscribe.go:339-411 | Frames concatenate to exactly the surviving messages; each is non-empty and within the cap or a single message; each was closed only because the next message would not fit |
| Frames.SurvivorsOfTopic | pkg/mls/api/v1/subscribe.go:359-371 | The dedup of a mixed batch acts on every topic by itself, as the rise above its own mark |
| Frames.BuildFrames | pkg/mls/api/v1/subscribe.go:339-411 | The one-pass loop computes dedup, marks and packing |
| Fetcher.CatchUpGroups | pkg/mls/api/v1/subscribe.go:652-768 | For any batch size and limit the scan hands over, for every topic, exactly its rows above the cursor up to its bound in order; turns are bounded; no row is fetched twice; one done marker ends it; it terminates while the table grows |
| Fetcher.CatchUpWelcomes | pkg/mls/api/v1/subscribe.go:776-859 | The same with rows nobody can parse: exactly the parseable rows, because rotation follows the raw progress |
| Fetcher.QueryGroupMessagesWaveScan | pkg/mls/store/readStore.go:408-467 | With unique filters every group's share of the result is its own limited probe, in id order; the shares come merged by id; no filters or no ceiling give nothing |
| Fetcher.QueryWelcomeMessagesWaveScan | pkg/mls/store/readStore.go:493-581 | The query returns the parseable rows, and the raw count and last raw id of every topic with rows |
| Fetcher.Rotate | pkg/mls/api/v1/subscribe.go:752-765 | Requeueing computes the rotation: full topics move on and go to the back, others retire |
| Fetcher.TakeCeiling | pkg/mls/api/v1/subscribe.go:653-690 | The ceiling is the refreshed one unless the refresh fails, and the queue is pruned by the first |
| Fetcher.ScanTurns | pkg/mls/api/v1/subscribe.go:703-766 | A turn of the rotation moves every topic's replay forward by exactly the rows between its old and new position |
| Fetcher.TurnConserves | pkg/mls/api/v1/subscribe.go:703-766 | Rows fetched plus rows ahead are conserved by a turn, and rows ahead plus queue length strictly fall |
| Fetcher.TurnPinned | pkg/mls/api/v1/subscribe.go:653-656 | A turn pinned by the ceiling reads the same whenever it runs, whatever is published meanwhile |
| WaveScan.ProbeIsRaw | pkg/mls/store/readStore.go:364-370 | Clamping makes an oversized cursor match nothing and changes no other probe |
| WaveScan.QueryOfTopic | pkg/mls/store/readStore.go:372-404 | A topic's share of the result is its own probe, in order |
| WaveScan.QueryBounded | pkg/mls/store/readStore.go:372-404 | The result holds at most one page per filter, comes from the table and ascends |
| WaveScan.TurnOfTopic | pkg/mls/api/v1/subscribe.go:703-766 | What one turn does to one topic's position and rows, whether or not the topic is in the batch |
| TopicView.OpenGate | pkg/mls/api/v1/subscribe.go:500-530 | Folding the buffer in above the replay keeps delivery exact and lets the gate open |
| TopicView.TakeTail | pkg/mls/api/v1/subscribe.go:1255-1273 | An open topic's next envelope is a duplicate or exactly its next row |
| TopicView.Offer | pkg/mls/api/v1/worker.go:88-145 | The poller's next row extends what the topic has queued by exactly that row, or by nothing |
| Delivery.InvDispatch | pkg/mls/api/v1/worker.go:99-131 | Dispatching the poller's next row keeps the delivery invariant, also when it overflows the subscription |
| Delivery.InvSnapshot | pkg/mls/api/v1/subscribe.go:663-675 | Taking the ceiling keeps it: nothing above the ceiling has been offered yet |
| Delivery.InvTurn | pkg/mls/api/v1/subscribe.go:703-766 | A scan turn keeps it |
| WriterSteps.InvBatch | pkg/mls/api/v1/subscribe.go:1175-1236 | Taking a batch keeps it, whatever the batch is: rows, a done marker, a straggler or the last marker |
| WriterSteps.InvLive | pkg/mls/api/v1/subscribe.go:1238-1273 | Taking a live envelope keeps it |
| Admission.BudgetHolds | pkg/mls/api/v1/subscribe.go:564-637 | In every interleaving the counter is the sum of outstanding reservations, within the budget or dominated by one turn, and scans never exceed the slots |
| Admission.AdmitsExactly | pkg/mls/api/v1/subscribe.go:571-622 | A slot is free while fewer than the configured number are taken, and always when none is; a fetcher that looks at the counter reserves if and only if the lane is empty or its turn fits, and parks otherwise |
| Admission.NoLostWakeup | pkg/mls/api/v1/subscribe.go:596-637 | With turns of at least one byte, as publishing guarantees, parked fetchers with nothing on its way to wake them always have an outstanding reservation whose release will |
| Admission.StuckExactly | pkg/mls/api/v1/subscribe.go:596-637 | For given limits and turn sizes, a state in which fetchers are parked and no release that wakes one is left to come can be reached if and only if there is a turn of no bytes, a turn over the budget and a second scan slot |
| Admission.ZeroByteTurnLosesWakeup | pkg/mls/api/v1/subscribe.go:628-637 | With two slots, any turn over the budget and a turn of no bytes, this run of reserveCatchUpBytes ends with a parked fetcher nobody will wake; the publish check keeps such turns out |
| Sender.SuccessMeansDrained | pkg/mls/api/v1/subscribe.go:271-297 | flush reports success to a client that is still there only if every queued frame was sent, in order |
| Sender.ReportsExactly | pkg/mls/api/v1/subscribe.go:271-297 | What flush may report in each reachable state: success exactly when the sender has drained the closed channel or the client is gone, the send error exactly after a failed send, otherwise only the deadline |
| Sender.FlushCanSucceed | pkg/mls/api/v1/subscribe.go:244-297 | From every state with the channel closed and no failed send, the sender alone can get to where everything handed over is sent and flush reports success |
| Sender.EverythingCanBeSent | pkg/mls/api/v1/subscribe.go:225-337 | From every state with the channel open and no failed send, whatever batches the writer still has can be handed over and sent behind what was handed over before, and flush then reports success |
| Sender.ChannelBounded | pkg/mls/api/v1/subscribe.go:225-262 | The channel to the sender never holds more batches than it has room for |
| Sender.SuccessMeansAnswered | pkg/mls/api/v1/subscribe.go:1219-1236 | Clean completion plus a successful flush: the client was sent exactly one CatchupComplete per Mutate |
| Sender.SuccessMeansReplayed | pkg/mls/api/v1/subscribe.go:271-297 | After a successful flush the client was sent, ahead of each wave's CatchupComplete, exactly the rows of each of its topics from the floor to the replay's bound, once each and in id order, and the bound reaches every row visible when the wave began |
| Dispatcher.PrefixDelivered | pkg/subscriptions/dispatcher.go:46-80 | Over any interleaving of dispatch, Add, Remove, receive and Unsubscribe: received plus queued is exactly the envelopes that matched at their moment, in order, and after an overflow a proper prefix of them |
| Dispatcher.ClosesExactly | pkg/subscriptions/dispatcher.go:58-78 | A subscription is closed exactly at the first matching envelope that finds as many envelopes unreceived as its channel holds |
| Dispatcher.SilentWhenGone | pkg/subscriptions/dispatcher.go:58-78 | A closed or unsubscribed subscription gets nothing more |
| Dispatcher.SubscriptionDispatcher.HandleEnvelope | pkg/subscriptions/dispatcher.go:46-80 | Every registered subscription is offered the envelope once; exactly the full ones that matched are closed and dropped; no send or close hits a closed channel |
| Dispatcher.SubscriptionDispatcher.NewSubscription | pkg/subscriptions/dispatcher.go:135-148 | A fresh, empty, open subscription holding the size asked for, 1024 at least, joins the registered ones |
| Dispatcher.Subscription.Add | pkg/subscriptions/subscription.go:24-37 | The topic set grows by the listed topics, not at all for a wildcard subscription |
| Dispatcher.Subscription.Remove | pkg/subscriptions/subscription.go:39-45 | The topic set shrinks by the listed topics |
| Dispatcher.Subscription.Unsubscribe | pkg/subscriptions/subscription.go:14-18 | The dispatcher forgets the subscription and no other |
| Worker.Listen | pkg/mls/api/v1/worker.go:88-145 | Over any ticks, failed queries and rows that cannot be marshalled included, the cursor ends where `Worker.CursorAdvances` says and every subscription is offered the same rows; after the dedup they are exactly the parseable rows above the start up to the last one passed, in id order, and nothing is repeated unless a row could not be marshalled |
| Worker.CursorAdvances | pkg/mls/api/v1/worker.go:88-145 | One more tick moves the cursor over the next 500 rows or over all there are; a failed query, or a row among them that cannot be marshalled, leaves it where it is |
| Worker.PollWindow | pkg/mls/store/queries/queries.sql.go:400-410 | A poll returns exactly the rows between the cursor and the last row it returns, and all of them unless it is full |
| Worker.DispatchIsOffer | pkg/subscriptions/dispatcher.go:58-78 | The stream system's dispatch step is the dispatcher's offer to the stream's subscription |
| Worker.PageIsDispatches | pkg/mls/api/v1/worker.go:99-131 | A tick's page is that many dispatch steps of the stream system: possible, in the page's order, leaving the cursor at its last row, as long as the subscription keeps up |
| Pagination.QueryIsPage | pkg/store/query.go:25-97 | Without a cursor, or with one that has a time and a digest, the sorted and limited union of the two limited queries equals the first k selected rows after the cursor in (time, id) order, for every table, filter, direction and limit |
| Pagination.PageMeans | pkg/store/query.go:25-155 | What a query returns, on the fields, for every request: rows of the table, of a topic asked for or of any when none is listed, within the start and end times that are not zero, and behind the cursor (a cursor without a digest leaves all rows, one with time zero those beyond its digest); last (time, id) first unless ascending order is asked for; at most the limit, 100 when it is zero, and a row left out comes after a full page |
| Pagination.QueryIsPageExactly | pkg/store/query.go:40-80 | For a given request this holds on every table if and only if the cursor is absent or empty, has a time and a digest, or no selected row could be on the wrong side of it |
| Pagination.NextPage | pkg/store/query.go:178-200 | Each response continues the listing where the client stands and either moves the client to its end, with a limit of at most 100 for the next page, or, exactly when it is not full, says this was all |
| Pagination.Enumerate | pkg/store/query.go:157-200 | Feeding paging info back enumerates exactly the rows whose fields the request asks for, each once, last (time, id) first unless ascending order is asked for, and stops |
| RateLimit.RefillIsExact | pkg/ratelimiter/rate_limiter.go:51-70 | The saturating uint16 refill is min(tokens + rate * minutes, max) in unbounded arithmetic |
| RateLimit.PolicyIsExact | pkg/ratelimiter/rate_limiter.go:51-160 | The answer and the balance of every spend, in unbounded arithmetic and by the kind of request: a regular one refills at the configured rate a whole minute up to the configured cap, a priority PUBLISH one at these times the publish multiplier, a priority DEFAULT one at these times the default multiplier, products modulo 65536; a new bucket is full; a cost is granted if and only if the balance holds it |
| RateLimit.FreshGrant | pkg/ratelimiter/rate_limiter.go:103-160 | On a new bucket a cost is granted if and only if it is at most the cap of its kind of request |
| RateLimit.ShippedLimitsGrant | pkg/ratelimiter/rate_limiter.go:15-23 | With the shipped constants every spend runs on 4000 a minute up to 20000, with priority 8000 up to 40000; publishes on 600 up to 3000, with priority 2400 up to 12000 |
| RateLimit.SweepsAreInvisibleExactly | pkg/ratelimiter/rate_limiter.go:175-186 | Sweeps never change an answer, in any run, if and only if every policy refills to its cap in the shortest time after which an entry may be dropped |
| RateLimit.OneGeneration | pkg/ratelimiter/rate_limiter.go:108-130 | No bucket name is ever in both generations |
| RateLimit.SpendIsBounded | pkg/ratelimiter/rate_limiter.go:133-160 | Over any stretch of a run a bucket is granted at most its cap plus its rate times the whole minutes the stretch lasts, sweeps included |
| RateLimit.BucketNameDetermines | pkg/api/interceptor.go:111-116 | A bucket name determines client, limit type and priority, so one policy per bucket |
| RateLimit.ShippedLimitsRecover | pkg/api/server.go:46-53 | The shipped limits and the one-hour expiry meet the condition for invisible sweeps |
| RateLimiter.Refill | pkg/ratelimiter/rate_limiter.go:51-70 | The in-place refill computes the refill function |
| RateLimiter.Buckets.GetAndRefill | pkg/ratelimiter/buckets.go:26-58 | The bucket's own entry, refilled or created full; no other entry changes |
| RateLimiter.Buckets.DeleteExpired | pkg/ratelimiter/buckets.go:60-88 | Exactly the entries idle beyond the expiry go, and the count is right |
| RateLimiter.TokenBucketRateLimiter.Spend | pkg/ratelimiter/rate_limiter.go:133-160 | A spend on the objects computes the two-generation spend of its kind of request and its answer, which `RateLimit.PolicyIsExact` gives in plain arithmetic |
| RateLimiter.TokenBucketRateLimiter.SweepAndSwap | pkg/ratelimiter/rate_limiter.go:175-186 | A sweep on the objects computes the two-generation sweep |
| IdentityLog.ChainHolds | pkg/mls/store/store.go:149-254 | In every interleaving each committed update was validated against exactly the committed updates of its inbox with lower sequence ids, in that order, and no inbox has more than 256 |
| IdentityLog.AdmissibleCommits | pkg/mls/store/store.go:149-254 | From every reachable state in which the inbox's lock is free, it has fewer than 256 entries and the validation accepts the update, the five steps of an attempt are enabled in a row and end in success, with this update the one new entry of the log, at a higher id than all others |
| IdentityLog.UndoneAtTouch | pkg/mls/store/queries/queries.sql.go:1563-1574 | An attempt is undone at its touch of the inbox row if and only if another publisher has committed to the inbox, acknowledged or not, between its begin and its touch |
| IdentityLog.UndoneAtInsert | pkg/mls/store/store.go:168-203 | An attempt is undone at its insert if and only if the log at its begin holds 256 entries of the inbox or the validation refuses the update after them |
| IdentityLog.GivesUpExactly | pkg/mls/store/store.go:543-563 | A publish gives up exactly when its third attempt has failed |
| IdentityLog.FailureUndoes | pkg/mls/store/store.go:543-563 | Any statement of an open transaction may fail; nothing is then committed, its lock is free, no other publisher has moved, and it can begin again unless it was its third attempt |
| IdentityLog.LaterReadExtends | pkg/identity/api/v1/identity_service.go:69-78 | A later read of an inbox is the earlier one followed by updates with higher sequence ids |
| IdentityLog.PublishedOnce | pkg/mls/store/store.go:543-563 | Over all its attempts a publish has committed one entry if it reports success, plus one for each commit whose acknowledgement was lost, and at most three: with no acknowledgement lost, success means exactly one entry and anything else none |
| IdentityLog.StepKeeps | pkg/mls/store/queries/queries.sql.go:1563-1574 | Every statement, commit, lost acknowledgement, conflict and failure of every publisher keeps locks, snapshots, pending inserts and the log chain consistent |
| IdentityLog.RunInRepeatableReadTx | pkg/mls/store/store.go:543-563 | The retry loop stops at the first success or at the first attempt the context has ended before, makes at most the given number of attempts, and reports the context's error or the last attempt's |
| Backfill.RequestsMeaning | pkg/mls/store/backfiller_group_messages.go:84-139 | The requests split the page in order; none is empty or over 4 MiB; each was closed only because the next message would not fit |
| Backfill.ClassifyMakesRequests | pkg/mls/store/backfiller_group_messages.go:84-139 | When every message is within the limit, classifying is making exactly those requests |
| Backfill.ClassifyMeaning | pkg/mls/store/backfiller_group_messages.go:84-139 | A successful classification keeps ids, contents and order and gives every message its own verdict; it fails with the service's error exactly when one of its requests fails, and otherwise exactly on a message over the limit |
| Backfill.ClassifyMessageBatch | pkg/mls/store/backfiller_group_messages.go:141-171 | One request stamps its results in place, or touches nothing on failure |
| Backfill.ClassifyMessages | pkg/mls/store/backfiller_group_messages.go:84-139 | The batching loop computes the classification |

## Left out

- Capacity of the catch-up lane's channel and the coupling of `Admission` to `StreamSystem`: the system lets a scan hand over a turn at any time, a superset of the admitted interleavings, so its safety theorems cover them. The runs `Progress` constructs hand over each turn into an empty lane, where `Admission` lets in any turn.
- A scan's turn is one atomic step of the system: reading a page and handing it over are not separated. `Fetcher` proves that pinning by the ceiling makes the moment of the read irrelevant.
- A Mutate is one step of the stream system against publishing, polling and scanning, while the code locks the dispatcher once per topic: a row dispatched between two of its Adds is not a separate interleaving of the runs.
- Worker.PageIsDispatches: in the stream system every row marshals, so a row offered again after a marshalling failure is absorbed in `Worker.Listen` and not a step of the runs.
- Fetch errors, transport errors, the ping and pong exchange, the send deadline and the server's shutdown: each ends the stream, and nothing is claimed of an ended stream.
- WriterRuns.AnsweredOnce: counts the Mutates of a run that goes on; the Mutate that fails a stream is answered by the error.
- That scans and pollers are scheduled at all is not stated: `Progress` proves that nothing they wait for can be missing, not that they run.
- `PublishIdentityUpdate` and `reserveCatchUpBytes` are modelled as the steps of an interleaving (`IdentityLog`, `Admission`), not as methods updating one object: what is proved of them is about several of them running at once.
- IdentityLog.RunInRepeatableReadTx: the random sleep between attempts is not modelled; in `IdentityLog.Run` any statement of any attempt may fail.
- Address log rows written with an identity update, and the validation service beyond a function that accepts or refuses.
- Pagination.RunQuery: the SQL text itself; the model is the meaning of the clauses the builder emits. A cursor message without an index, which crashes the builder, is not a value of the model's cursor.
- RateLimit.Refilled: the floating-point conversion of the elapsed time is exact division here; the two agree for any idle time below half a year. Entry-level races between a Spend and a sweep of the same entry are left out: both are atomic steps.
- RateLimiter.TokenBucketRateLimiter.Spend: limit types other than the two configured ones, for which the code would dereference a missing limit.
- Dispatcher.SubscriptionDispatcher.HandleEnvelope: the nil envelope, which the code ignores with a warning; and `Subscribe`, which creates a subscription with a fixed topic set.
- Backfill.ClassifyMessages: the surrounding transaction and the loop that fetches pages.
- gRPC and HTTP plumbing, metrics, logging, tracing, migrations, pruners, and the older single-topic subscribe calls, which would add weaker duplicates.
