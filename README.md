# Pubx.ai analytics adapter — a Dafny model

This project models the core of the Pubx.ai analytics adapter for Prebid.js
(`modules/pubxaiAnalyticsAdapter.js`). The adapter listens to Prebid's
auction events and does four things:

- It keeps a per-auction record in `auctionCache`. The record is created
  lazily on first read and takes the next number of a `refreshRank` counter.
- It appends every extracted bid of a bid-rejected, bid-response or
  bid-timeout event to its auction's record, tagged 1, 2 or 3. A won bid is
  tagged 4 and stored apart, as the record's `winningBid`.
- On auction end and on bid won, it puts a filtered copy of the record into
  `sendCache`, keyed by request URL. This is gated by sampling, by a
  required-keys check and, for auctions, by an "already sent" marker.
- When the page is hidden, `send()` cuts each URL's queue into beacons by a
  sliding-window rule meant to keep each under 64 KiB, then empties the
  queue. The rule does not always keep a beacon under that limit, and the
  model proves concrete cases where it does not.

The files follow the program's structure:

| file | module | what it holds |
|---|---|---|
| `seqs.dfy` | `Sequences` | a shared lemma on sequence concatenation |
| `json.dfy` | `JsValues` | JSON values, JavaScript truthiness, `\|\|` and `.find(i => i)` |
| `bids.dfy` | `BidExtraction` | `extractBid`, the ad-server targeting filter, the winning-bid decoration |
| `sampling.dfy` | `Sampling` | `shouldFireEventRequest` |
| `store.dfy` | `AuctionStore` | the lazy `auctionCache`, `refreshRank`, bid pushes, auction end |
| `sendqueue.dfy` | `SendQueue` | the auction snapshot, the required-keys gate, request URLs, `storeDataInSendCache` |
| `flush.dfy` | `Flusher` | the beacon-cutting loop of `send()` over one queue |
| `events.dfy` | `Tracking` | the module state, `track`, the two `prepare…` functions, `enableAnalytics`, the whole flush |
| `adapter.dfy` | `Adapter` | the module state as a class whose methods update it in place, each proved against `Tracking` |

The module's state changes in place, so `Adapter.AnalyticsAdapter` holds it
in fields. Each method ensures `State() == Tracking.F(old(State()), …)`. The
properties are proved about those `Tracking` functions, and the class keeps
the invariant `Valid()`.

## Model

| member | source | states |
|---|---|---|
| AuctionStore.NewRecord | modules/pubxaiAnalyticsAdapter.js:66-101 | a fresh record has no bids, an empty floor detail, no `sendAs` marks and the given rank and auction id; its `initOptions` are the adapter's options with `auctionId` overridden; stored pmac/extra data are used when truthy and are `{}` otherwise |
| AuctionStore.Touch | modules/pubxaiAnalyticsAdapter.js:63-106 | reading an auction id makes it present; reading a known id changes nothing; reading an unknown id adds exactly that record with the current rank and raises the counter by one; store validity is preserved |
| AuctionStore.FreshAuctionsRankInOrder | modules/pubxaiAnalyticsAdapter.js:71 | distinct new auctions read in order get consecutive ranks from the counter's value on, and the counter moves by their number |
| Adapter.AnalyticsAdapter.GetAuction | modules/pubxaiAnalyticsAdapter.js:63-106 | the in-place lazy read moves the state exactly as `Touch` and returns the stored record |
| Tracking.Loaded | modules/pubxaiAnalyticsAdapter.js:25-54 | the initial state is valid, with no auctions, rank 0 and no queued events |
| Tracking.Enable | modules/pubxaiAnalyticsAdapter.js:397-402 | `enableAnalytics` stores the new options and resets the rank to 0; the auction cache and the send queues are kept as they were, and validity with them |
| Tracking.EnableRestartsNumbering | modules/pubxaiAnalyticsAdapter.js:397-402 | after `enableAnalytics`, the next new auction gets rank 0 and carries the new options, and auctions already cached keep theirs |
| Adapter.AnalyticsAdapter.EnableAnalytics | modules/pubxaiAnalyticsAdapter.js:397-402 | the in-place `enableAnalytics` moves the state exactly as `Enable` |
| BidExtraction.ExtractBid | modules/pubxaiAnalyticsAdapter.js:137-164 | every copied field equals the raw bid's; the GPT slot code is the looked-up one when truthy and `null` otherwise; `bidId` falls back to `requestId` when falsy; `placementId` is `null` without params; `source` is always truthy and defaults to `'null'` |
| BidExtraction.TaggedBids | modules/pubxaiAnalyticsAdapter.js:176-177 | each raw bid is extracted and tagged, one for one and in order |
| BidExtraction.AdServerData | modules/pubxaiAnalyticsAdapter.js:113-129 | no slot gives `{}`; otherwise a key is kept iff it passes the targeting filter, and is mapped to the slot's targeting value |
| BidExtraction.KeptTargetingKeyIff | modules/pubxaiAnalyticsAdapter.js:122-126 | a key is kept iff it starts with `pubx-`, or it starts with `hb_` and has no other underscore |
| BidExtraction.WinningBid | modules/pubxaiAnalyticsAdapter.js:210-223 | the winning bid is the extracted bid tagged 4, marked winning, with the rendered size and ad-server data; each of the six floor fields is the floor detail's value when that is truthy, and `null`, `0` or `false` when it is absent or falsy |
| Sampling.ShouldFire | modules/pubxaiAnalyticsAdapter.js:239-241 | an event fires iff the hash is a multiple of the rate; a rate of 0 never fires and a rate of ±1 always fires |
| AuctionStore.PushBid | modules/pubxaiAnalyticsAdapter.js:178 | pushing a bid appends it to its auction's bids (creating the record if needed); no other field or auction changes; the rank moves only for a new auction |
| Adapter.AnalyticsAdapter.PushBid | modules/pubxaiAnalyticsAdapter.js:182-189 | the in-place push moves the state exactly as `AuctionStore.PushBid` |
| AuctionStore.PushBidsAppends | modules/pubxaiAnalyticsAdapter.js:176-179 | pushing a sequence of bids appends to each auction exactly the sub-sequence of bids for that auction, in order |
| AuctionStore.PushBidsKeeps | modules/pubxaiAnalyticsAdapter.js:176-179 | pushing a sequence of bids changes nothing but bid lists, never lowers the rank and keeps store validity |
| Tracking.TrackAppendsBids | modules/pubxaiAnalyticsAdapter.js:172-231 | for every auction, one tracked event leaves its bids as before plus exactly the event's newly tagged bids for it (timeout 3, response 2, rejected 1, and none for other events) |
| Tracking.SingleBidAppends | modules/pubxaiAnalyticsAdapter.js:182-189 | a single pushed bid is appended to its own auction and to no other |
| Adapter.AnalyticsAdapter.TrackTimeout | modules/pubxaiAnalyticsAdapter.js:175-180 | the in-place loop over timed-out bids moves the state exactly as `track` on that event |
| AuctionStore.FirstFloorData | modules/pubxaiAnalyticsAdapter.js:195-197 | there is floor data iff some ad unit has bids and a truthy first-bid floor, and then it is the first such one |
| AuctionStore.EndAuction | modules/pubxaiAnalyticsAdapter.js:192-205 | auction end merges the first floor data into the floor detail, sets `cdep` to the first truthy one, and records ad-unit codes and timestamp; bids, winner and `sendAs` are unchanged |
| SendQueue.Entry | modules/pubxaiAnalyticsAdapter.js:269-271 | a queued entry holds exactly the required keys present in the data, each with the data's value |
| SendQueue.SnapshotPassesAuctionGate | modules/pubxaiAnalyticsAdapter.js:316-336 | a cached auction record always passes the auction event's required-keys check |
| SendQueue.SnapshotPassesWinGate | modules/pubxaiAnalyticsAdapter.js:285-306 | a cached auction record with a winning bid always passes the win event's required-keys check |
| SendQueue.Snapshot | modules/pubxaiAnalyticsAdapter.js:285 | the shallow copy of a record has every record key, and `winningBid` exactly when the record has a winning bid; each key holds the record's own value (bids, winning bid, page, device, floor, auction, user, consent, pmac, extra data, init options) |
| SendQueue.RequestUrl | modules/pubxaiAnalyticsAdapter.js:255-267 | the URL is `https`, has the event's path, the adapter's version, the Prebid version placeholder and the adapter's `pubxId`; its host is the record's truthy `hostName` and otherwise the default host; its `auctionTimestamp` is the snapshot's auction timestamp, and `undefined` when there is none |
| SendQueue.Push | modules/pubxaiAnalyticsAdapter.js:273 | appending to a URL's queue creates it if absent and leaves every other queue unchanged |
| SendQueue.PushAddsOne | modules/pubxaiAnalyticsAdapter.js:273 | appending adds exactly one event to the total count of queued events |
| SendQueue.StoreData | modules/pubxaiAnalyticsAdapter.js:250-274 | data failing the required-keys check leaves the queues unchanged; otherwise its entry is appended to its URL's queue and the total grows by one |
| Adapter.AnalyticsAdapter.StoreDataInSendCache | modules/pubxaiAnalyticsAdapter.js:250-274 | the in-place version moves the state exactly as `StoreData` |
| Tracking.PrepareSendWinningBids | modules/pubxaiAnalyticsAdapter.js:280-307 | an unsampled win changes nothing; otherwise the store is read lazily and the record's snapshot with the winning bid attached goes to `storeDataInSendCache` on the bid-won path with the win keys; the store only grows and bid lists are kept |
| Adapter.AnalyticsAdapter.PrepareSendWinningBids | modules/pubxaiAnalyticsAdapter.js:280-307 | the in-place version moves the state exactly as `PrepareSendWinningBids` |
| Tracking.PrepareAuctionSend | modules/pubxaiAnalyticsAdapter.js:313-338 | an unsampled auction changes nothing, and neither does one already sent as `auction`; a sampled one ends up marked as sent; otherwise only that auction's record changes (the key set gains the id, other records and the rank are as the lazy read leaves them), the record is the lazily read one with the `auction` mark appended, and its snapshot goes to `storeDataInSendCache` on the auction path with the auction keys; the store only grows and bid lists are kept |
| Adapter.AnalyticsAdapter.PrepareAuctionSend | modules/pubxaiAnalyticsAdapter.js:313-338 | the in-place version moves the state exactly as `PrepareAuctionSend` |
| Tracking.AuctionEndQueuesOnce | modules/pubxaiAnalyticsAdapter.js:192-207 | after auction end the auction is marked as sent; if it was not marked before, exactly one entry is queued, namely the merged record's snapshot with the auction keys, at the end of the `/analytics/auction` URL's queue, and no other queue changes; if it was, nothing is queued |
| Tracking.AuctionSentAtMostOnce | modules/pubxaiAnalyticsAdapter.js:334-337 | a second auction-end event for the same auction leaves the queues as they were |
| Tracking.BidWonQueuesOne | modules/pubxaiAnalyticsAdapter.js:209-226 | after bid won, the auction holds the decorated winning bid, and exactly one entry is queued every time: the record's snapshot carrying that bid, with the win keys, at the end of the `/analytics/bidwon` URL's queue; no other queue changes |
| Tracking.OnAuctionEnd | modules/pubxaiAnalyticsAdapter.js:192-207 | only the auction's record changes (the key set gains the id, other records and the rank are as the lazy read leaves them); it becomes `EndAuction` of its (lazily read) record, up to the `sendAs` mark; a sampled auction is marked as sent; the queues are unchanged when sampled out or already sent, and otherwise are `storeDataInSendCache` of the merged record's snapshot on the auction path; options and validity are kept, the store only grows |
| Tracking.OnBidWon | modules/pubxaiAnalyticsAdapter.js:209-226 | only the auction's record changes (the key set gains the id, other records and the rank are as the lazy read leaves them): it is the lazily read record with the winning bid set; the queues are unchanged when sampled out, and otherwise are `storeDataInSendCache` of that record's snapshot on the bid-won path; options and validity are kept, the store only grows |
| Tracking.Track | modules/pubxaiAnalyticsAdapter.js:172-231 | `track` keeps options and validity and never removes an auction; an unknown event changes nothing; only auction end and bid won touch the queues |
| Tracking.TrackGrows | modules/pubxaiAnalyticsAdapter.js:172-231 | every event only extends records: a record keeps its context, and its bids and `sendAs` marks only grow, as does the rank counter |
| Adapter.AnalyticsAdapter.TrackAuctionEnd | modules/pubxaiAnalyticsAdapter.js:192-207 | the in-place auction-end case moves the state exactly as `OnAuctionEnd` |
| Adapter.AnalyticsAdapter.TrackBidWon | modules/pubxaiAnalyticsAdapter.js:209-226 | the in-place bid-won case moves the state exactly as `OnBidWon` |
| Adapter.AnalyticsAdapter.Track | modules/pubxaiAnalyticsAdapter.js:172-231 | the in-place `track` moves the state exactly as `Track` and keeps the class invariant |
| Flusher.Windows | modules/pubxaiAnalyticsAdapter.js:347-361 | the windows the loop emits exist iff the queue is non-empty |
| Flusher.Batches | modules/pubxaiAnalyticsAdapter.js:347-361 | a non-empty queue gives at least one beacon and an empty queue none |
| Flusher.FlushQueue | modules/pubxaiAnalyticsAdapter.js:348-361 | the imperative loop over one queue emits exactly the batches `Batches` defines |
| Flusher.BatchesAreSlices | modules/pubxaiAnalyticsAdapter.js:351-359 | each beacon is the contiguous slice of the queue its window spans, and `payloadStart` never moves back |
| Flusher.EveryEarlierEventSent | modules/pubxaiAnalyticsAdapter.js:350-361 | every event except the last lies in some emitted window |
| Flusher.LastEventSentIff | modules/pubxaiAnalyticsAdapter.js:350-361 | some window ends at the end of the queue exactly when the final window was within the limit; when it overflowed, no window reaches the last event |
| Flusher.FittingQueueIsOneBeacon | modules/pubxaiAnalyticsAdapter.js:350-361 | when no prefix of the queue exceeds the limit (the only windows checked while nothing overflows), the whole queue goes out as one beacon |
| Flusher.BoundaryEventSentTwice | modules/pubxaiAnalyticsAdapter.js:351-359 | after a cut, the last event of one beacon is the first of the next: it is sent twice |
| Flusher.OversizedSingleEventSentEmpty | modules/pubxaiAnalyticsAdapter.js:351-357 | a lone event over the limit is sent as an empty beacon |
| Flusher.OverflowingPairDropsSecond | modules/pubxaiAnalyticsAdapter.js:351-359 | for two events that together exceed the limit, the first is sent twice and the second never |
| Flusher.BatchOverLimit | modules/pubxaiAnalyticsAdapter.js:342-361 | with 40 KB events a beacon of 80 KB is sent: beacons are not kept under the limit |
| Tracking.Flushed | modules/pubxaiAnalyticsAdapter.js:363 | after flushing, every URL keeps its queue key and order, and every queue is empty |
| Tracking.FlushedIsEmpty | modules/pubxaiAnalyticsAdapter.js:344-365 | flushing keeps queue validity and leaves no event queued |
| Tracking.Addressed | modules/pubxaiAnalyticsAdapter.js:355-358 | every beacon of a queue is addressed to that queue's URL, in order |
| Tracking.BeaconsInclude | modules/pubxaiAnalyticsAdapter.js:347-361 | every batch of every queue appears among the beacons sent, with its URL |
| Tracking.EarlierEntriesSent | modules/pubxaiAnalyticsAdapter.js:347-361 | every queued event except the last of its queue goes out in a beacon to its own URL |
| Adapter.FlushOne | modules/pubxaiAnalyticsAdapter.js:347-364 | one turn over a URL: its whole queue goes out in the flusher's beacons, addressed to that URL, and is emptied |
| Adapter.FlushAll | modules/pubxaiAnalyticsAdapter.js:347-364 | the loop over all queues leaves exactly the flushed cache and emits exactly the beacons `Beacons` defines, queue by queue |
| Adapter.AnalyticsAdapter.Send | modules/pubxaiAnalyticsAdapter.js:344-365 | `send()` empties every queue, keeps everything else, appends exactly the defined beacons to the beacon log and keeps the class invariant |
| Adapter.AnalyticsAdapter.VisibilityChanged | modules/pubxaiAnalyticsAdapter.js:368-374 | the page becoming hidden flushes every queue and logs exactly the defined beacons; any other visibility change leaves the state and the beacon log unchanged |

## Left out

- Aliasing: a queued entry shares the live `bids` array (and the other detail objects) of its cached auction. Later pushes then show up in entries already queued. The model queues a value snapshot taken when the entry is queued.
- Page, device, user, consent and local-storage data come in as one `Context` value. These are `getWindowLocation`, `navigator`, `getUserIds`, `getConsentMetadata` and the `pubx:pmac` / `pubx:extraData` items.
- `cyrb53Hash`, `parseSizesInput`, `deepAccess`, `getGptSlotInfoForAdUnitCode` and `getGptSlotForAdUnitCode` are given as functions in a `Lookups` parameter. Their code is not part of this model.
- `toBlob(payload).size` is an arbitrary function from a batch to a byte count. No property of JSON serialisation is assumed.
- `sendBeacon` is a ghost log of (URL, batch) pairs. Its return value and the network are left out.
- `document.visibilityState` is a boolean parameter. The listener's registration is left out.
- `buildUrl` is a record of its parts, not a string.
- Adapter registration, `originEnableAnalytics` and the analytics base adapter are not part of this model.
- `initOptions` is `undefined` until the first `enableAnalytics`. The constructor performs the first enable, so that state is not modelled.
- Tracking.Track does not model the `TypeError`s the source throws during auction end on a `null` ad unit or bid request, on an ad unit without `bids` (`i?.bids.length`, line 196), or on an event without `adUnits` or `bidderRequests` (lines 195 and 200). It also leaves out NaN and non-integer hashes.
- Sampling.ShouldFire takes the hash as an integer. It does not model `parseInt` on the hash string.
- Each auction only ever gets the `auction` mark in `sendAs`, because the source never adds a `win` mark.
- Flusher.FlushQueue is a value-level method over a sequence. The source's `events.splice(0)` is modelled by `Tracking.Flushed` and by `Send`'s new state.
- The comment at `modules/pubxaiAnalyticsAdapter.js:342` promises beacons under the size limit. The loop as written does not keep that promise, and the model follows the loop: see Flusher.BatchOverLimit, Flusher.OverflowingPairDropsSecond and Flusher.OversizedSingleEventSentEmpty.
- The Pubx.ai RTD provider (`modules/pubxaiRtdProvider.js`) is not part of this model.
