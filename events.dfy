/**
  The event handler of the adapter as a state machine: the auction store,
  the options captured at enable time and the send queues, moved by each
  tracked Prebid event; and what a flush of the queues hands out.
 */
module Tracking {
  import opened JsValues
  import opened BidExtraction
  import opened Sampling
  import opened AuctionStore
  import opened SendQueue
  import opened Flusher

  /** The Prebid events the adapter handles, with the parts of their
      arguments it reads; every other event type is ignored. */
  datatype Event =
    | BidTimeout(raws: seq<RawBid>)
    | BidResponse(raw: RawBid)
    | BidRejected(raw: RawBid)
    | AuctionEnd(auctionId: string, adUnits: seq<AdUnit>, bidderRequests: seq<BidderRequest>, timestamp: Json)
    | BidWon(raw: RawBid)
    | OtherEvent(eventType: string)

  /** The module-level state: `auctionCache` with `refreshRank`, the
      `initOptions` of the last enable, and `sendCache`. */
  datatype State = State(store: Store, initOptions: map<string, Json>, queues: Queues)

  predicate Valid(st: State) {
    StoreValid(st.store) && QueuesValid(st.queues)
  }

  /** The state once the module is loaded and analytics enabled: both
      caches empty, the counter at 0. */
  function Loaded(options: map<string, Json>): (st: State)
    ensures Valid(st) && Total(st.queues) == 0
    ensures st.store.auctions == map[] && st.store.refreshRank == 0
  {
    State(Store(map[], 0), options, Queues(map[], []))
  }

  /** `enableAnalytics(config)`: the new options are kept and the counter
      restarts at 0; the caches are not cleared. */
  function Enable(st: State, options: map<string, Json>): (t: State)
    ensures Valid(st) ==> Valid(t)
    ensures t.store.refreshRank == 0 && t.initOptions == options
    ensures t.store.auctions == st.store.auctions && t.queues == st.queues
  {
    State(Store(st.store.auctions, 0), options, st.queues)
  }

  // ----- the two send preparations -----

  /** The sampling decision for an auction, at the rate every caller uses. */
  predicate Fires(lk: Lookups, id: string) {
    ShouldFire(lk.hash, id, DefaultSamplingRate)
  }

  /** Store `t` differs from `s` only in auction `id`'s record, which the
      lazy read of `id` may have created, numbering it with the counter. */
  predicate OnlyRecordChanged(s: Store, t: Store, id: string, options: map<string, Json>, ctx: Context) {
    && t.auctions.Keys == s.auctions.Keys + {id}
    && t.refreshRank == Touch(s, id, options, ctx).refreshRank
    && forall k :: k in s.auctions && k != id ==> t.auctions[k] == s.auctions[k]
  }

  /** Auction `id` has already been queued as an auction. */
  predicate SentAsAuction(s: Store, id: string) {
    id in s.auctions && AuctionClass in s.auctions[id].sendAs
  }

  /** `prepareAuctionSend(id)`: unless sampled out or already sent, a
      snapshot of the record is queued and the record marked as sent. */
  function PrepareAuctionSend(st: State, id: string, lk: Lookups, ctx: Context): (t: State)
    ensures t.initOptions == st.initOptions
    ensures Valid(st) ==> Valid(t)
    ensures !Fires(lk, id) ==> t == st
    ensures Fires(lk, id) ==> SentAsAuction(t.store, id)
    ensures SentAsAuction(st.store, id) ==> t == st
    ensures Fires(lk, id) ==> OnlyRecordChanged(st.store, t.store, id, st.initOptions, ctx)
    ensures Fires(lk, id) && !SentAsAuction(st.store, id) ==>
      var r := Touch(st.store, id, st.initOptions, ctx).auctions[id];
      && t.store.auctions[id] == r.(sendAs := r.sendAs + [AuctionClass])
      && t.queues == StoreData(st.queues, AuctionPath, AuctionKeys, Snapshot(r), st.initOptions)
    ensures Grows(st.store, t.store) && BidsKept(st.store, t.store)
  {
    if !Fires(lk, id) then st
    else
      var s1 := Touch(st.store, id, st.initOptions, ctx);
      var r := s1.auctions[id];
      TouchGrows(st.store, id, st.initOptions, ctx);
      if AuctionClass in r.sendAs then st.(store := s1)
      else
        var marked := r.(sendAs := r.sendAs + [AuctionClass]);
        PutGrows(s1, id, marked);
        GrowsTrans(st.store, s1, Put(s1, id, marked));
        KeptTrans(st.store, s1, Put(s1, id, marked));
        var queues := StoreData(st.queues, AuctionPath, AuctionKeys, Snapshot(r), st.initOptions);
        State(Put(s1, id, marked), st.initOptions, queues)
  }

  /** `prepareSendWinningBids(w)`: unless sampled out, a snapshot of the
      auction's record with the winning bid attached is queued. */
  function PrepareSendWinningBids(st: State, w: Bid, lk: Lookups, ctx: Context): (t: State)
    ensures t.initOptions == st.initOptions
    ensures Valid(st) ==> Valid(t)
    ensures !Fires(lk, w.auctionId) ==> t == st
    ensures Fires(lk, w.auctionId) ==> t.store == Touch(st.store, w.auctionId, st.initOptions, ctx)
    ensures Fires(lk, w.auctionId) ==>
      t.queues == StoreData(st.queues, WinningBidPath, WinKeys,
        Snapshot(t.store.auctions[w.auctionId]).(winningBid := Some(w)), st.initOptions)
    ensures Grows(st.store, t.store) && BidsKept(st.store, t.store)
  {
    if !Fires(lk, w.auctionId) then st
    else
      var s1 := Touch(st.store, w.auctionId, st.initOptions, ctx);
      TouchGrows(st.store, w.auctionId, st.initOptions, ctx);
      var data := Snapshot(s1.auctions[w.auctionId]).(winningBid := Some(w));
      State(s1, st.initOptions, StoreData(st.queues, WinningBidPath, WinKeys, data, st.initOptions))
  }

  // ----- the handler -----

  /** The auction's floor detail as the bid-won handler reads it; a record
      created by that read has an empty one. */
  function FloorOf(s: Store, id: string): map<string, Json> {
    if id in s.auctions then s.auctions[id].floorDetail else map[]
  }

  /** The winning-bid record a bid-won event builds. */
  function WinnerOf(st: State, raw: RawBid, lk: Lookups): (w: Bid)
    ensures w.auctionId == raw.auctionId
  {
    var w := WinningBid(raw, FloorOf(st.store, raw.auctionId), lk);
    assert w.(bidType := None, win := None).auctionId == raw.auctionId;
    w
  }

  /** The auction's record once auction end has merged its arguments in. */
  function Ended(st: State, id: string, units: seq<AdUnit>, reqs: seq<BidderRequest>, timestamp: Json, ctx: Context): AuctionRecord {
    EndAuction(Touch(st.store, id, st.initOptions, ctx).auctions[id], units, reqs, timestamp)
  }

  /** The auction-end merge, on the auction's record. */
  function RecordAuctionEnd(st: State, id: string, units: seq<AdUnit>, reqs: seq<BidderRequest>, timestamp: Json, ctx: Context): (t: State)
    ensures id in t.store.auctions && t.store.auctions[id] == Ended(st, id, units, reqs, timestamp, ctx)
    ensures OnlyRecordChanged(st.store, t.store, id, st.initOptions, ctx)
    ensures SentAsAuction(t.store, id) <==> SentAsAuction(st.store, id)
    ensures t.initOptions == st.initOptions && t.queues == st.queues
    ensures Grows(st.store, t.store) && BidsKept(st.store, t.store)
    ensures Valid(st) ==> Valid(t)
  {
    var s1 := Touch(st.store, id, st.initOptions, ctx);
    var ended := EndAuction(s1.auctions[id], units, reqs, timestamp);
    TouchGrows(st.store, id, st.initOptions, ctx);
    PutGrows(s1, id, ended);
    GrowsTrans(st.store, s1, Put(s1, id, ended));
    KeptTrans(st.store, s1, Put(s1, id, ended));
    st.(store := Put(s1, id, ended))
  }

  /** `auctionCache[w.auctionId].winningBid = w`. */
  function RecordWin(st: State, w: Bid, ctx: Context): (t: State)
    ensures w.auctionId in t.store.auctions
    ensures t.store.auctions[w.auctionId] == Touch(st.store, w.auctionId, st.initOptions, ctx).auctions[w.auctionId].(winningBid := Some(w))
    ensures OnlyRecordChanged(st.store, t.store, w.auctionId, st.initOptions, ctx)
    ensures t.initOptions == st.initOptions && t.queues == st.queues
    ensures Grows(st.store, t.store) && BidsKept(st.store, t.store)
    ensures Valid(st) ==> Valid(t)
  {
    var s1 := Touch(st.store, w.auctionId, st.initOptions, ctx);
    var won := s1.auctions[w.auctionId].(winningBid := Some(w));
    TouchGrows(st.store, w.auctionId, st.initOptions, ctx);
    PutGrows(s1, w.auctionId, won);
    GrowsTrans(st.store, s1, Put(s1, w.auctionId, won));
    KeptTrans(st.store, s1, Put(s1, w.auctionId, won));
    st.(store := Put(s1, w.auctionId, won))
  }

  /** `track({eventType, args})`. `ctx` is what a record created during the
      event captures from the page. */
  function Track(st: State, ev: Event, lk: Lookups, ctx: Context): (t: State)
    ensures t.initOptions == st.initOptions
    ensures Valid(st) ==> Valid(t)
    ensures st.store.auctions.Keys <= t.store.auctions.Keys
    ensures ev.OtherEvent? ==> t == st
    ensures !ev.AuctionEnd? && !ev.BidWon? ==> t.queues == st.queues
  {
    match ev
    case BidTimeout(raws) =>
      PushBidsKeeps(st.store, TaggedBids(raws, TimedOut, lk), st.initOptions, ctx);
      st.(store := PushBids(st.store, TaggedBids(raws, TimedOut, lk), st.initOptions, ctx))
    case BidResponse(raw) =>
      st.(store := PushBid(st.store, TaggedBid(raw, Response, lk), st.initOptions, ctx))
    case BidRejected(raw) =>
      st.(store := PushBid(st.store, TaggedBid(raw, Rejected, lk), st.initOptions, ctx))
    case AuctionEnd(id, units, reqs, timestamp) => OnAuctionEnd(st, id, units, reqs, timestamp, lk, ctx)
    case BidWon(raw) => OnBidWon(st, raw, lk, ctx)
    case OtherEvent(_) => st
  }

  /** The auction-end case of `track`: the merge, then the auction send. */
  function OnAuctionEnd(st: State, id: string, units: seq<AdUnit>, reqs: seq<BidderRequest>, timestamp: Json, lk: Lookups, ctx: Context): (t: State)
    ensures t.initOptions == st.initOptions
    ensures Valid(st) ==> Valid(t)
    ensures Grows(st.store, t.store) && BidsKept(st.store, t.store)
    // the record is the merged one, up to the `sendAs` mark; no other changes
    ensures id in t.store.auctions
    ensures OnlyRecordChanged(st.store, t.store, id, st.initOptions, ctx)
    ensures t.store.auctions[id].(sendAs := Ended(st, id, units, reqs, timestamp, ctx).sendAs) == Ended(st, id, units, reqs, timestamp, ctx)
    ensures Fires(lk, id) ==> SentAsAuction(t.store, id)
    ensures !Fires(lk, id) || SentAsAuction(st.store, id) ==> t.queues == st.queues
    ensures Fires(lk, id) && !SentAsAuction(st.store, id) ==>
      t.queues == StoreData(st.queues, AuctionPath, AuctionKeys, Snapshot(Ended(st, id, units, reqs, timestamp, ctx)), st.initOptions)
  {
    var ended := RecordAuctionEnd(st, id, units, reqs, timestamp, ctx);
    assert Touch(ended.store, id, st.initOptions, ctx) == ended.store;
    GrowsTrans(st.store, ended.store, PrepareAuctionSend(ended, id, lk, ctx).store);
    KeptTrans(st.store, ended.store, PrepareAuctionSend(ended, id, lk, ctx).store);
    PrepareAuctionSend(ended, id, lk, ctx)
  }

  /** The bid-won case of `track`: the winning bid is built, recorded on its
      auction, then sent. */
  function OnBidWon(st: State, raw: RawBid, lk: Lookups, ctx: Context): (t: State)
    ensures t.initOptions == st.initOptions
    ensures Valid(st) ==> Valid(t)
    ensures Grows(st.store, t.store) && BidsKept(st.store, t.store)
    // the auction's record gains the winning bid and nothing else changes
    ensures raw.auctionId in t.store.auctions
    ensures OnlyRecordChanged(st.store, t.store, raw.auctionId, st.initOptions, ctx)
    ensures t.store.auctions[raw.auctionId]
      == Touch(st.store, raw.auctionId, st.initOptions, ctx).auctions[raw.auctionId].(winningBid := Some(WinnerOf(st, raw, lk)))
    ensures !Fires(lk, raw.auctionId) ==> t.queues == st.queues
    ensures Fires(lk, raw.auctionId) ==>
      t.queues == StoreData(st.queues, WinningBidPath, WinKeys, Snapshot(t.store.auctions[raw.auctionId]), st.initOptions)
  {
    var w := WinnerOf(st, raw, lk);
    var won := RecordWin(st, w, ctx);
    assert Touch(won.store, w.auctionId, st.initOptions, ctx) == won.store;
    GrowsTrans(st.store, won.store, PrepareSendWinningBids(won, w, lk, ctx).store);
    KeptTrans(st.store, won.store, PrepareSendWinningBids(won, w, lk, ctx).store);
    PrepareSendWinningBids(won, w, lk, ctx)
  }

  // ----- what the handler guarantees -----

  /** The bids an event stores, in order. */
  function NewBids(ev: Event, lk: Lookups): seq<Bid> {
    match ev
    case BidTimeout(raws) => TaggedBids(raws, TimedOut, lk)
    case BidResponse(raw) => [TaggedBid(raw, Response, lk)]
    case BidRejected(raw) => [TaggedBid(raw, Rejected, lk)]
    case _ => []
  }

  /** Every event appends to each auction's bid list exactly the bids it
      stores for that auction, in order; auction end and bid won store none
      (the winning bid is kept apart). */
  lemma TrackAppendsBids(st: State, ev: Event, lk: Lookups, ctx: Context, id: string)
    ensures BidsOf(Track(st, ev, lk, ctx).store, id) == BidsOf(st.store, id) + BidsFor(NewBids(ev, lk), id)
  {
    match ev
    case BidTimeout(raws) =>
      PushBidsAppends(st.store, TaggedBids(raws, TimedOut, lk), id, st.initOptions, ctx);
    case BidResponse(raw) =>
      SingleBidAppends(st.store, TaggedBid(raw, Response, lk), id, st.initOptions, ctx);
    case BidRejected(raw) =>
      SingleBidAppends(st.store, TaggedBid(raw, Rejected, lk), id, st.initOptions, ctx);
    case AuctionEnd(_, _, _, _) =>
    case BidWon(_) =>
    case OtherEvent(_) =>
  }

  lemma SingleBidAppends(s: Store, bid: Bid, id: string, options: map<string, Json>, ctx: Context)
    ensures BidsOf(PushBid(s, bid, options, ctx), id) == BidsOf(s, id) + BidsFor([bid], id)
  {
    PushBidBids(s, bid, id, options, ctx);
    assert [bid][..0] == [];
  }

  lemma TrackGrows(st: State, ev: Event, lk: Lookups, ctx: Context)
    ensures Grows(st.store, Track(st, ev, lk, ctx).store)
  {
    var t := Track(st, ev, lk, ctx);
    if ev.BidTimeout? {
      PushBidsKeeps(st.store, NewBids(ev, lk), st.initOptions, ctx);
    }
    if ev.BidTimeout? || ev.BidResponse? || ev.BidRejected? {
      forall id | id in st.store.auctions
        ensures id in t.store.auctions && Extends(st.store.auctions[id], t.store.auctions[id])
      {
        TrackAppendsBids(st, ev, lk, ctx, id);
        assert BidsOf(t.store, id) == t.store.auctions[id].bids;
      }
    }
  }

  /** An auction end queues one auction entry the first time (the default
      rate never samples out): the snapshot of the merged record, holding
      exactly the auction keys, at the end of the auction path's queue; and
      nothing once the auction was sent. */
  lemma AuctionEndQueuesOnce(st: State, id: string, units: seq<AdUnit>, reqs: seq<BidderRequest>, timestamp: Json, lk: Lookups, ctx: Context)
    requires Valid(st)
    ensures SentAsAuction(OnAuctionEnd(st, id, units, reqs, timestamp, lk, ctx).store, id)
    ensures Total(OnAuctionEnd(st, id, units, reqs, timestamp, lk, ctx).queues)
      == Total(st.queues) + (if SentAsAuction(st.store, id) then 0 else 1)
    ensures !SentAsAuction(st.store, id) ==>
      var p := Snapshot(Ended(st, id, units, reqs, timestamp, ctx));
      var u := RequestUrl(AuctionPath, p, st.initOptions);
      && u.pathname == AuctionPath
      && QueueAt(OnAuctionEnd(st, id, units, reqs, timestamp, lk, ctx).queues, u) == QueueAt(st.queues, u) + [Entry(p, AuctionKeys)]
      && forall v :: v != u ==> QueueAt(OnAuctionEnd(st, id, units, reqs, timestamp, lk, ctx).queues, v) == QueueAt(st.queues, v)
  {
    assert Fires(lk, id);
    var s1 := Touch(st.store, id, st.initOptions, ctx);
    var e := Ended(st, id, units, reqs, timestamp, ctx);
    assert WellFormedRecord(id, s1.auctions[id]);
    assert SameContext(s1.auctions[id], e);
    SnapshotPassesAuctionGate(e);
  }

  /** A bid won records the winning bid on its auction and queues one win
      entry, every time: the snapshot of the record with the winning bid,
      holding exactly the win keys, at the end of the bid-won path's queue. */
  lemma BidWonQueuesOne(st: State, raw: RawBid, lk: Lookups, ctx: Context)
    requires Valid(st)
    ensures raw.auctionId in OnBidWon(st, raw, lk, ctx).store.auctions
    ensures OnBidWon(st, raw, lk, ctx).store.auctions[raw.auctionId].winningBid
      == Some(WinningBid(raw, FloorOf(st.store, raw.auctionId), lk))
    ensures Total(OnBidWon(st, raw, lk, ctx).queues) == Total(st.queues) + 1
    ensures
      var p := Snapshot(OnBidWon(st, raw, lk, ctx).store.auctions[raw.auctionId]);
      var u := RequestUrl(WinningBidPath, p, st.initOptions);
      && u.pathname == WinningBidPath
      && p.winningBid == Some(WinningBid(raw, FloorOf(st.store, raw.auctionId), lk))
      && QueueAt(OnBidWon(st, raw, lk, ctx).queues, u) == QueueAt(st.queues, u) + [Entry(p, WinKeys)]
      && forall v :: v != u ==> QueueAt(OnBidWon(st, raw, lk, ctx).queues, v) == QueueAt(st.queues, v)
  {
    var w := WinnerOf(st, raw, lk);
    assert Fires(lk, raw.auctionId);
    var s1 := Touch(st.store, raw.auctionId, st.initOptions, ctx);
    var r := OnBidWon(st, raw, lk, ctx).store.auctions[raw.auctionId];
    assert WellFormedRecord(raw.auctionId, s1.auctions[raw.auctionId]);
    assert r == s1.auctions[raw.auctionId].(winningBid := Some(w));
    assert Snapshot(r) == Snapshot(r).(winningBid := Some(w));
    SnapshotPassesWinGate(r, w);
  }

  /** Once sent as an auction, an auction is never queued as one again:
      a second auction end for it leaves the queues as they were. */
  lemma AuctionSentAtMostOnce(st: State, id: string, e1: Event, e2: Event, lk: Lookups, ctx: Context)
    requires Valid(st)
    requires e1.AuctionEnd? && e1.auctionId == id && e2.AuctionEnd? && e2.auctionId == id
    ensures Track(Track(st, e1, lk, ctx), e2, lk, ctx).queues == Track(st, e1, lk, ctx).queues
  {
    var t1 := OnAuctionEnd(st, id, e1.adUnits, e1.bidderRequests, e1.timestamp, lk, ctx);
    assert t1 == Track(st, e1, lk, ctx);
    assert Fires(lk, id);
    assert SentAsAuction(t1.store, id);
    var t2 := OnAuctionEnd(t1, id, e2.adUnits, e2.bidderRequests, e2.timestamp, lk, ctx);
    assert t2.queues == t1.queues;
    assert Track(t1, e2, lk, ctx) == t2;
  }

  /** After a re-enable, the next new auction is numbered 0 again, next to
      the records numbered before, which keep their numbers. */
  lemma EnableRestartsNumbering(st: State, options: map<string, Json>, id: string, ctx: Context)
    requires id !in st.store.auctions
    ensures Touch(Enable(st, options).store, id, options, ctx).auctions[id].auctionDetail.refreshRank == 0
    ensures Touch(Enable(st, options).store, id, options, ctx).auctions[id].initOptions == options["auctionId" := Str(id)]
    ensures forall k :: k in st.store.auctions ==>
      Touch(Enable(st, options).store, id, options, ctx).auctions[k] == st.store.auctions[k]
  {
  }

  // ----- flushing -----

  /** `events.splice(0)` on every queue: all emptied, none removed. */
  function Flushed(q: Queues): (r: Queues)
    ensures r.order == q.order && r.cache.Keys == q.cache.Keys
    ensures forall u :: QueueAt(r, u) == []
  {
    Queues(map u | u in q.cache :: [], q.order)
  }

  lemma {:induction false} SumOverEmpty(order: seq<Url>, q: Queues)
    requires forall u :: QueueAt(q, u) == []
    ensures SumOver(order, q) == 0
  {
    if order != [] {
      SumOverEmpty(order[..|order| - 1], q);
    }
  }

  /** A flush leaves the queues valid and empty. */
  lemma FlushedIsEmpty(q: Queues)
    requires QueuesValid(q)
    ensures QueuesValid(Flushed(q)) && Total(Flushed(q)) == 0
  {
    SumOverEmpty(q.order, Flushed(q));
  }

  /** The queues once the first `i` URLs of the order have been flushed,
      one after the other. */
  function FlushedUpTo(q: Queues, i: nat): map<Url, seq<Payload>>
    requires i <= |q.order|
  {
    if i == 0 then q.cache else FlushedUpTo(q, i - 1)[q.order[i - 1] := []]
  }

  /** After the first `i` URLs, exactly their queues are empty and every
      other queue is untouched. */
  lemma {:induction false} FlushedUpToIs(q: Queues, i: nat)
    requires QueuesValid(q) && i <= |q.order|
    ensures FlushedUpTo(q, i).Keys == q.cache.Keys
    ensures forall u :: u in q.cache ==> FlushedUpTo(q, i)[u] == if u in q.order[..i] then [] else q.cache[u]
  {
    if i > 0 {
      FlushedUpToIs(q, i - 1);
      assert q.order[..i] == q.order[..i - 1] + [q.order[i - 1]];
    }
  }

  lemma FlushedUpToAll(q: Queues)
    requires QueuesValid(q)
    ensures FlushedUpTo(q, |q.order|) == Flushed(q).cache
  {
    FlushedUpToIs(q, |q.order|);
    assert q.order[..|q.order|] == q.order;
  }

  /** The beacons of one queue, each addressed to its URL. */
  function Addressed(u: Url, batches: seq<seq<Payload>>): (r: seq<(Url, seq<Payload>)>)
    ensures |r| == |batches|
    ensures forall i :: 0 <= i < |batches| ==> r[i] == (u, batches[i])
  {
    seq(|batches|, i requires 0 <= i < |batches| => (u, batches[i]))
  }

  /** What `send` hands to `sendBeacon`, URL by URL in the order the URLs
      were first queued to. */
  function Beacons(order: seq<Url>, q: Queues, size: seq<Payload> -> nat): seq<(Url, seq<Payload>)> {
    if order == [] then []
    else
      var u := order[|order| - 1];
      Beacons(order[..|order| - 1], q, size) + Addressed(u, Batches(QueueAt(q, u), size))
  }

  lemma BeaconsSnoc(order: seq<Url>, i: nat, q: Queues, size: seq<Payload> -> nat)
    requires i < |order|
    ensures Beacons(order[..i + 1], q, size)
      == Beacons(order[..i], q, size) + Addressed(order[i], Batches(QueueAt(q, order[i]), size))
  {
    assert order[..i + 1][..i] == order[..i];
  }

  /** One turn of the loop of `send`: the queue about to be flushed is
      still whole, and flushing it moves both the queues and the beacons on. */
  lemma FlushOneStep(q: Queues, size: seq<Payload> -> nat, i: nat, cache: map<Url, seq<Payload>>, sent: seq<(Url, seq<Payload>)>)
    requires QueuesValid(q) && i < |q.order|
    requires cache == FlushedUpTo(q, i) && sent == Beacons(q.order[..i], q, size)
    ensures q.order[i] in cache && cache[q.order[i]] == QueueAt(q, q.order[i])
    ensures sent + Addressed(q.order[i], Batches(cache[q.order[i]], size)) == Beacons(q.order[..i + 1], q, size)
  {
    assert q.order[i] !in q.order[..i];
    BeaconsSnoc(q.order, i, q, size);
    FlushedUpToIs(q, i);
  }

  lemma {:induction false} BeaconsInclude(order: seq<Url>, q: Queues, size: seq<Payload> -> nat, u: Url, j: nat)
    requires u in order && j < |Batches(QueueAt(q, u), size)|
    ensures (u, Batches(QueueAt(q, u), size)[j]) in Beacons(order, q, size)
  {
    var last := order[|order| - 1];
    if u == last {
      assert Addressed(u, Batches(QueueAt(q, u), size))[j] == (u, Batches(QueueAt(q, u), size)[j]);
    } else {
      BeaconsInclude(order[..|order| - 1], q, size, u, j);
    }
  }

  /** Every queued entry but the last of its queue goes out in a beacon to
      its URL. */
  lemma EarlierEntriesSent(q: Queues, size: seq<Payload> -> nat, u: Url, i: nat)
    requires u in q.order && i + 1 < |QueueAt(q, u)|
    ensures exists b :: b in Beacons(q.order, q, size) && b.0 == u && QueueAt(q, u)[i] in b.1
  {
    var events := QueueAt(q, u);
    var ws := Windows(events, size);
    EveryEarlierEventSent(events, size, i);
    var j :| 0 <= j < |ws| && ws[j].start <= i < ws[j].end;
    WindowsFromShape(events, size, 0, 0);
    assert ws[j] in ws;
    SlicesAt(events, ws, j);
    var batch := Batches(events, size)[j];
    assert batch == events[ws[j].start..ws[j].end];
    assert events[i] == batch[i - ws[j].start];
    BeaconsInclude(q.order, q, size, u, j);
  }
}
