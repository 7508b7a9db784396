/**
  The adapter object: the module-level state of the analytics module held
  in the fields of one object, and its operations as methods that update
  those fields in place. Each method is proved to move the state exactly as
  the corresponding function of `Tracking` says.
 */
module Adapter {
  import opened JsValues
  import opened BidExtraction
  import opened Sampling
  import opened AuctionStore
  import opened SendQueue
  import opened Flusher
  import Tracking

  class AnalyticsAdapter {
    /** `auctionCache`, filled on first read. */
    var auctions: map<string, AuctionRecord>
    /** The number the next new auction record gets. */
    var refreshRank: nat
    /** `initOptions`, as of the last `enableAnalytics`. */
    var initOptions: map<string, Json>
    /** `sendCache`, and the order in which its URLs were first used. */
    var sendCache: map<Url, seq<Payload>>
    var urlOrder: seq<Url>
    /** Every beacon handed to `sendBeacon` so far, with its URL. */
    ghost var beacons: seq<(Url, seq<Payload>)>

    function State(): Tracking.State
      reads this
    {
      Tracking.State(Store(auctions, refreshRank), initOptions, Queues(sendCache, urlOrder))
    }

    ghost predicate Valid()
      reads this
    {
      Tracking.Valid(State())
    }

    /** Loading the module, then the first `enableAnalytics`. */
    constructor(options: map<string, Json>)
      ensures State() == Tracking.Loaded(options) && Valid()
      ensures beacons == []
    {
      auctions := map[];
      refreshRank := 0;
      initOptions := options;
      sendCache := map[];
      urlOrder := [];
      beacons := [];
    }

    /** `enableAnalytics(config)` with `config.options`. */
    method EnableAnalytics(options: map<string, Json>)
      modifies this
      ensures State() == Tracking.Enable(old(State()), options)
      ensures old(Valid()) ==> Valid()
      ensures beacons == old(beacons)
    {
      initOptions := options;
      refreshRank := 0;
    }

    /** `auctionCache[id]`: the record, created on the first read. */
    method GetAuction(id: string, ctx: Context) returns (r: AuctionRecord)
      modifies this
      ensures State() == old(State()).(store := Touch(old(State()).store, id, initOptions, ctx))
      ensures id in auctions && r == auctions[id]
      ensures beacons == old(beacons)
    {
      if id !in auctions {
        auctions := auctions[id := NewRecord(id, refreshRank, initOptions, ctx)];
        refreshRank := refreshRank + 1;
      }
      r := auctions[id];
    }

    /** `auctionCache[bid.auctionId].bids.push(bid)`. */
    method PushBid(bid: Bid, ctx: Context)
      modifies this
      ensures State() == old(State()).(store := AuctionStore.PushBid(old(State()).store, bid, initOptions, ctx))
      ensures beacons == old(beacons)
    {
      var r := GetAuction(bid.auctionId, ctx);
      auctions := auctions[bid.auctionId := r.(bids := r.bids + [bid])];
    }

    /** `storeDataInSendCache(eventData, auctionData)`. */
    method StoreDataInSendCache(path: string, keys: seq<Key>, data: Payload)
      modifies this
      ensures State() == old(State()).(queues := StoreData(old(State()).queues, path, keys, data, initOptions))
      ensures beacons == old(beacons)
    {
      if !PassesGate(data, keys) {
        return;
      }
      var u := RequestUrl(path, data, initOptions);
      var e := Entry(data, keys);
      if u !in sendCache {
        sendCache := sendCache[u := []];
        urlOrder := urlOrder + [u];
      }
      assert sendCache[u] + [e] == QueueAt(old(State()).queues, u) + [e];
      sendCache := sendCache[u := sendCache[u] + [e]];
    }

    /** `prepareAuctionSend(id)`. */
    method PrepareAuctionSend(id: string, lk: Lookups, ctx: Context)
      modifies this
      ensures State() == Tracking.PrepareAuctionSend(old(State()), id, lk, ctx)
      ensures beacons == old(beacons)
    {
      if !ShouldFire(lk.hash, id, DefaultSamplingRate) {
        return;
      }
      var r := GetAuction(id, ctx);
      var data := Snapshot(r);
      if AuctionClass in r.sendAs {
        return;
      }
      StoreDataInSendCache(AuctionPath, AuctionKeys, data);
      auctions := auctions[id := r.(sendAs := r.sendAs + [AuctionClass])];
    }

    /** `prepareSendWinningBids(w)`. */
    method PrepareSendWinningBids(w: Bid, lk: Lookups, ctx: Context)
      modifies this
      ensures State() == Tracking.PrepareSendWinningBids(old(State()), w, lk, ctx)
      ensures beacons == old(beacons)
    {
      if !ShouldFire(lk.hash, w.auctionId, DefaultSamplingRate) {
        return;
      }
      var r := GetAuction(w.auctionId, ctx);
      var data := Snapshot(r).(winningBid := Some(w));
      StoreDataInSendCache(WinningBidPath, WinKeys, data);
    }

    /** The bid-timeout case of `track`: each raw bid extracted, tagged as
        timed out and pushed, in order. */
    method TrackTimeout(raws: seq<RawBid>, lk: Lookups, ctx: Context)
      modifies this
      ensures State() == Tracking.Track(old(State()), Tracking.BidTimeout(raws), lk, ctx)
      ensures beacons == old(beacons)
    {
      ghost var bids := TaggedBids(raws, TimedOut, lk);
      ghost var s0 := old(State()).store;
      var i := 0;
      while i < |raws|
        invariant i <= |raws|
        invariant Store(auctions, refreshRank) == PushBids(s0, bids[..i], initOptions, ctx)
        invariant initOptions == old(initOptions) && sendCache == old(sendCache) && urlOrder == old(urlOrder)
        invariant beacons == old(beacons)
      {
        var bid := ExtractBid(raws[i], lk).(bidType := Some(TimedOut));
        PushBidsSnoc(s0, bids, i, initOptions, ctx);
        assert bid == bids[i];
        PushBid(bid, ctx);
        i := i + 1;
      }
      assert bids[..|raws|] == bids;
    }

    /** The auction-end case of `track`. */
    method TrackAuctionEnd(id: string, units: seq<AdUnit>, reqs: seq<BidderRequest>, timestamp: Json, lk: Lookups, ctx: Context)
      modifies this
      ensures State() == Tracking.OnAuctionEnd(old(State()), id, units, reqs, timestamp, lk, ctx)
      ensures beacons == old(beacons)
    {
      var r := GetAuction(id, ctx);
      auctions := auctions[id := EndAuction(r, units, reqs, timestamp)];
      PrepareAuctionSend(id, lk, ctx);
    }

    /** The bid-won case of `track`. */
    method TrackBidWon(raw: RawBid, lk: Lookups, ctx: Context)
      modifies this
      ensures State() == Tracking.OnBidWon(old(State()), raw, lk, ctx)
      ensures beacons == old(beacons)
    {
      var r := GetAuction(raw.auctionId, ctx);
      var w := WinningBid(raw, r.floorDetail, lk);
      assert w == Tracking.WinnerOf(old(State()), raw, lk);
      auctions := auctions[w.auctionId := r.(winningBid := Some(w))];
      ghost var won := Tracking.RecordWin(old(State()), w, ctx);
      assert State() == won;
      PrepareSendWinningBids(w, lk, ctx);
      assert State() == Tracking.PrepareSendWinningBids(won, w, lk, ctx);
    }

    /** `track({eventType, args})`. */
    method Track(ev: Tracking.Event, lk: Lookups, ctx: Context)
      modifies this
      ensures State() == Tracking.Track(old(State()), ev, lk, ctx)
      ensures old(Valid()) ==> Valid()
      ensures beacons == old(beacons)
    {
      match ev
      case BidTimeout(raws) =>
        TrackTimeout(raws, lk, ctx);
      case BidResponse(raw) =>
        PushBid(ExtractBid(raw, lk).(bidType := Some(Response)), ctx);
      case BidRejected(raw) =>
        PushBid(ExtractBid(raw, lk).(bidType := Some(Rejected)), ctx);
      case AuctionEnd(id, units, reqs, timestamp) =>
        TrackAuctionEnd(id, units, reqs, timestamp, lk, ctx);
      case BidWon(raw) =>
        TrackBidWon(raw, lk, ctx);
      case OtherEvent(_) =>
    }

    /** `send()`: every queue, in the order its URL was first used, goes out
        in the beacons the flusher cuts, and is then emptied; the URLs stay. */
    method Send(size: seq<Payload> -> nat)
      requires Valid()
      modifies this
      ensures State() == old(State()).(queues := Tracking.Flushed(old(State()).queues))
      ensures beacons == old(beacons) + Tracking.Beacons(urlOrder, old(State()).queues, size)
      ensures Valid()
    {
      var cache, sent := FlushAll(State().queues, size);
      Tracking.FlushedIsEmpty(old(State()).queues);
      sendCache := cache;
      beacons := beacons + sent;
    }

    /** The `visibilitychange` listener: a flush when the page is hidden. */
    method VisibilityChanged(hidden: bool, size: seq<Payload> -> nat)
      requires Valid()
      modifies this
      ensures hidden ==> State() == old(State()).(queues := Tracking.Flushed(old(State()).queues))
      ensures hidden ==> beacons == old(beacons) + Tracking.Beacons(urlOrder, old(State()).queues, size)
      ensures !hidden ==> State() == old(State()) && beacons == old(beacons)
      ensures Valid()
    {
      if hidden {
        Send(size);
      }
    }
  }

  /** The body of `send` on the queues: each URL's queue, in order, cut into
      beacons by the flusher, then emptied. */
  method FlushAll(q: Queues, size: seq<Payload> -> nat) returns (cache: map<Url, seq<Payload>>, sent: seq<(Url, seq<Payload>)>)
    requires QueuesValid(q)
    ensures cache == Tracking.Flushed(q).cache
    ensures sent == Tracking.Beacons(q.order, q, size)
  {
    cache, sent := q.cache, [];
    var i := 0;
    while i < |q.order|
      invariant i <= |q.order|
      invariant cache == Tracking.FlushedUpTo(q, i)
      invariant sent == Tracking.Beacons(q.order[..i], q, size)
    {
      cache, sent := FlushOne(q, size, i, cache, sent);
      i := i + 1;
    }
    assert q.order[..i] == q.order;
    Tracking.FlushedUpToAll(q);
  }

  /** One turn of `send`'s loop over the URLs: the `i`th URL's queue goes out
      in the flusher's beacons, addressed to that URL, and is emptied. */
  method FlushOne(q: Queues, size: seq<Payload> -> nat, i: nat, cache: map<Url, seq<Payload>>, sent: seq<(Url, seq<Payload>)>)
    returns (cache': map<Url, seq<Payload>>, sent': seq<(Url, seq<Payload>)>)
    requires QueuesValid(q) && i < |q.order|
    requires cache == Tracking.FlushedUpTo(q, i) && sent == Tracking.Beacons(q.order[..i], q, size)
    ensures cache' == Tracking.FlushedUpTo(q, i + 1)
    ensures sent' == Tracking.Beacons(q.order[..i + 1], q, size)
  {
    var u := q.order[i];
    Tracking.FlushOneStep(q, size, i, cache, sent);
    var batches := FlushQueue(cache[u], size);
    sent' := sent + Tracking.Addressed(u, batches);
    cache' := cache[u := []];
  }
}
