/**
  The auction record store: a lazily populated map from auction id to the
  record that aggregates the auction's events, with the global refresh-rank
  counter that numbers new records.
 */
module AuctionStore {
  import opened JsValues
  import opened Sequences
  import opened BidExtraction

  /** `auctionDetail`; the ad-unit codes and the timestamp are set by the
      auction-end event. */
  datatype AuctionDetail = AuctionDetail(
    refreshRank: nat,
    auctionId: string,
    adUnitCodes: Option<seq<Json>>,
    timestamp: Option<Json>)

  /** The reporting classes an auction is marked as sent as (`sendAs`
      entries); only the auction class is ever recorded. */
  datatype EventClass = AuctionClass

  /** What a new record captures from the page when it is created: the
      location parts, the device description, the user-id and consent type
      names, and the two values parsed from local storage. */
  datatype Context = Context(
    page: map<string, Json>,
    device: map<string, Json>,
    userIdTypes: seq<string>,
    consentTypes: seq<string>,
    storedPmac: Json,
    storedExtra: Json)

  datatype AuctionRecord = AuctionRecord(
    bids: seq<Bid>,
    auctionDetail: AuctionDetail,
    floorDetail: map<string, Json>,
    pageDetail: map<string, Json>,
    deviceDetail: map<string, Json>,
    userDetail: seq<string>,
    consentDetail: seq<string>,
    pmacDetail: Json,
    extraData: Json,
    initOptions: map<string, Json>,
    winningBid: Option<Bid>,
    sendAs: seq<EventClass>)

  /** The record the cache synthesises on the first read of `id`. */
  function NewRecord(id: string, rank: nat, options: map<string, Json>, ctx: Context): (r: AuctionRecord)
    ensures r.bids == [] && r.floorDetail == map[] && r.sendAs == [] && r.winningBid == None
    ensures r.auctionDetail == AuctionDetail(rank, id, None, None)
    ensures Member(r.initOptions, "auctionId") == Str(id)
    ensures forall k :: k != "auctionId" ==> Member(r.initOptions, k) == Member(options, k)
    // `JSON.parse(...) || {}`: the stored value when truthy, `{}` otherwise
    ensures Truthy(r.pmacDetail) && Truthy(r.extraData)
    ensures Truthy(ctx.storedPmac) ==> r.pmacDetail == ctx.storedPmac
    ensures !Truthy(ctx.storedPmac) ==> r.pmacDetail == Obj(map[])
    ensures Truthy(ctx.storedExtra) ==> r.extraData == ctx.storedExtra
    ensures !Truthy(ctx.storedExtra) ==> r.extraData == Obj(map[])
    ensures r.pageDetail == ctx.page && r.deviceDetail == ctx.device
    ensures r.userDetail == ctx.userIdTypes && r.consentDetail == ctx.consentTypes
  {
    AuctionRecord(
      bids := [],
      auctionDetail := AuctionDetail(rank, id, None, None),
      floorDetail := map[],
      pageDetail := ctx.page,
      deviceDetail := ctx.device,
      userDetail := ctx.userIdTypes,
      consentDetail := ctx.consentTypes,
      pmacDetail := Or(ctx.storedPmac, Obj(map[])),
      extraData := Or(ctx.storedExtra, Obj(map[])),
      initOptions := options["auctionId" := Str(id)],
      winningBid := None,
      sendAs := [])
  }

  /** The cache and the counter. */
  datatype Store = Store(auctions: map<string, AuctionRecord>, refreshRank: nat)

  /** What every record keeps from its creation: it is filed under its own
      id, its options copy names that id, and its storage values are truthy. */
  predicate WellFormedRecord(id: string, r: AuctionRecord) {
    && r.auctionDetail.auctionId == id
    && Member(r.initOptions, "auctionId") == Str(id)
    && Truthy(r.pmacDetail) && Truthy(r.extraData)
  }

  predicate StoreValid(s: Store) {
    forall id :: id in s.auctions ==> WellFormedRecord(id, s.auctions[id])
  }

  /** The fields of a record that are fixed at its creation. `deviceDetail`
      may only gain or change its `cdep` entry. */
  predicate SameContext(a: AuctionRecord, b: AuctionRecord) {
    && a.auctionDetail.refreshRank == b.auctionDetail.refreshRank
    && a.auctionDetail.auctionId == b.auctionDetail.auctionId
    && a.pageDetail == b.pageDetail
    && a.deviceDetail - {"cdep"} == b.deviceDetail - {"cdep"}
    && a.userDetail == b.userDetail && a.consentDetail == b.consentDetail
    && a.pmacDetail == b.pmacDetail && a.extraData == b.extraData
    && a.initOptions == b.initOptions
  }

  /** Reading `auctionCache[id]`: the existing record, or a new one numbered
      with the counter, which then moves on by one. */
  function Touch(s: Store, id: string, options: map<string, Json>, ctx: Context): (t: Store)
    ensures id in t.auctions && t.auctions.Keys == s.auctions.Keys + {id}
    ensures id in s.auctions ==> t == s
    ensures id !in s.auctions ==>
      && t.refreshRank == s.refreshRank + 1
      && t.auctions[id] == NewRecord(id, s.refreshRank, options, ctx)
      && forall k :: k in s.auctions ==> t.auctions[k] == s.auctions[k]
    ensures StoreValid(s) ==> StoreValid(t)
  {
    if id in s.auctions then s
    else Store(s.auctions[id := NewRecord(id, s.refreshRank, options, ctx)], s.refreshRank + 1)
  }

  /** `auctionCache[bid.auctionId].bids.push(bid)`: one bid at the end of its
      auction's list, the record created first if need be; nothing else moves. */
  function PushBid(s: Store, bid: Bid, options: map<string, Json>, ctx: Context): (t: Store)
    ensures t.auctions.Keys == s.auctions.Keys + {bid.auctionId}
    ensures t.auctions[bid.auctionId].bids ==
      (if bid.auctionId in s.auctions then s.auctions[bid.auctionId].bids else []) + [bid]
    ensures OnlyBidsChanged(s, t)
    ensures t.refreshRank == if bid.auctionId in s.auctions then s.refreshRank else s.refreshRank + 1
    ensures bid.auctionId !in s.auctions ==>
      t.auctions[bid.auctionId] == NewRecord(bid.auctionId, s.refreshRank, options, ctx).(bids := [bid])
    ensures StoreValid(s) ==> StoreValid(t)
  {
    var touched := Touch(s, bid.auctionId, options, ctx);
    var r := touched.auctions[bid.auctionId];
    Store(touched.auctions[bid.auctionId := r.(bids := r.bids + [bid])], touched.refreshRank)
  }

  /** The auction ids a batch of bids refers to. */
  function AuctionIds(bids: seq<Bid>): set<string>
  {
    if bids == [] then {} else AuctionIds(bids[..|bids| - 1]) + {bids[|bids| - 1].auctionId}
  }

  /** Pushing each bid of a batch in turn: the cache gains exactly the
      batch's new ids. */
  function PushBids(s: Store, bids: seq<Bid>, options: map<string, Json>, ctx: Context): (t: Store)
    ensures t.auctions.Keys == s.auctions.Keys + AuctionIds(bids)
  {
    if bids == [] then s
    else PushBid(PushBids(s, bids[..|bids| - 1], options, ctx), bids[|bids| - 1], options, ctx)
  }

  lemma PushBidsSnoc(s: Store, bids: seq<Bid>, i: nat, options: map<string, Json>, ctx: Context)
    requires i < |bids|
    ensures PushBids(s, bids[..i + 1], options, ctx) == PushBid(PushBids(s, bids[..i], options, ctx), bids[i], options, ctx)
  {
    assert bids[..i + 1][..i] == bids[..i];
  }

  /** The records of `s` are all in `t`, changed in their `bids` at most. */
  predicate OnlyBidsChanged(s: Store, t: Store) {
    forall id :: id in s.auctions ==> id in t.auctions && t.auctions[id] == s.auctions[id].(bids := t.auctions[id].bids)
  }

  /** Pushing a batch changes existing records in their `bids` only, never
      lowers the counter, and keeps the store well formed. */
  lemma {:induction false} PushBidsKeeps(s: Store, bids: seq<Bid>, options: map<string, Json>, ctx: Context)
    ensures OnlyBidsChanged(s, PushBids(s, bids, options, ctx))
    ensures PushBids(s, bids, options, ctx).refreshRank >= s.refreshRank
    ensures StoreValid(s) ==> StoreValid(PushBids(s, bids, options, ctx))
  {
    if bids != [] {
      var mid := PushBids(s, bids[..|bids| - 1], options, ctx);
      PushBidsKeeps(s, bids[..|bids| - 1], options, ctx);
    }
  }

  /** The bids of a batch that belong to auction `id`, in batch order. */
  function BidsFor(bids: seq<Bid>, id: string): seq<Bid>
  {
    if bids == [] then []
    else BidsFor(bids[..|bids| - 1], id) + (if bids[|bids| - 1].auctionId == id then [bids[|bids| - 1]] else [])
  }

  /** The bids stored for `id` so far; none when it has no record yet. */
  function BidsOf(s: Store, id: string): seq<Bid> {
    if id in s.auctions then s.auctions[id].bids else []
  }

  lemma PushBidBids(s: Store, bid: Bid, id: string, options: map<string, Json>, ctx: Context)
    ensures BidsOf(PushBid(s, bid, options, ctx), id) ==
      BidsOf(s, id) + (if bid.auctionId == id then [bid] else [])
  {
  }

  /** Pushing a batch appends, to auction `id`'s `bids`, exactly the batch's
      bids for that auction, in batch order. */
  lemma {:induction false} PushBidsAppends(s: Store, bids: seq<Bid>, id: string, options: map<string, Json>, ctx: Context)
    ensures BidsOf(PushBids(s, bids, options, ctx), id) == BidsOf(s, id) + BidsFor(bids, id)
  {
    if bids == [] {
      assert BidsFor(bids, id) == [];
    } else {
      var init, last := bids[..|bids| - 1], bids[|bids| - 1];
      var mid := PushBids(s, init, options, ctx);
      var c := if last.auctionId == id then [last] else [];
      PushBidsAppends(s, init, id, options, ctx);
      PushBidBids(mid, last, id, options, ctx);
      AppendAssociates(BidsOf(s, id), BidsFor(init, id), c);
    }
  }

  /** Reading a sequence of auction ids in turn. */
  function TouchAll(s: Store, ids: seq<string>, options: map<string, Json>, ctx: Context): (t: Store)
    ensures forall id :: id in t.auctions <==> id in s.auctions || id in ids
    ensures forall id :: id in s.auctions ==> t.auctions[id] == s.auctions[id]
  {
    if ids == [] then s
    else
      var t := Touch(TouchAll(s, ids[..|ids| - 1], options, ctx), ids[|ids| - 1], options, ctx);
      assert forall id :: id in ids <==> id in ids[..|ids| - 1] || id == ids[|ids| - 1];
      t
  }

  /** Successive new auctions are numbered with successive refresh ranks,
      starting from the counter's value. */
  lemma {:induction false} FreshAuctionsRankInOrder(s: Store, ids: seq<string>, options: map<string, Json>, ctx: Context)
    requires forall i, j :: 0 <= i < j < |ids| ==> ids[i] != ids[j]
    requires forall i :: 0 <= i < |ids| ==> ids[i] !in s.auctions
    ensures TouchAll(s, ids, options, ctx).refreshRank == s.refreshRank + |ids|
    ensures forall i :: 0 <= i < |ids| ==>
      TouchAll(s, ids, options, ctx).auctions[ids[i]].auctionDetail.refreshRank == s.refreshRank + i
  {
    if ids != [] {
      var init, last := ids[..|ids| - 1], ids[|ids| - 1];
      FreshAuctionsRankInOrder(s, init, options, ctx);
      var mid := TouchAll(s, init, options, ctx);
      assert last !in mid.auctions by {
        assert forall i :: 0 <= i < |init| ==> init[i] == ids[i];
      }
      var t := TouchAll(s, ids, options, ctx);
      assert t == Touch(mid, last, options, ctx);
      forall i | 0 <= i < |ids|
        ensures t.auctions[ids[i]].auctionDetail.refreshRank == s.refreshRank + i
      {
        if i < |init| {
          assert ids[i] == init[i] && ids[i] != last;
        }
      }
    }
  }

  // ----- auction end -----

  /** The first bid of an ad unit, as far as the floor merge looks at it. */
  datatype AdUnitBid = AdUnitBid(floorData: Option<map<string, Json>>)

  datatype AdUnit = AdUnit(code: Json, bids: seq<AdUnitBid>)

  /** A bidder request, reduced to `ortb2?.device?.ext?.cdep`. */
  datatype BidderRequest = BidderRequest(cdep: Json)

  /** `i?.bids.length && i.bids[0]?.floorData` is truthy. */
  predicate HasFloorData(u: AdUnit) {
    |u.bids| > 0 && u.bids[0].floorData.Some?
  }

  /** The floor data of the first ad unit that has any. */
  function FirstFloorData(units: seq<AdUnit>): (r: Option<map<string, Json>>)
    ensures r.Some? <==> exists i :: 0 <= i < |units| && HasFloorData(units[i])
    ensures r.Some? ==> exists i ::
      && 0 <= i < |units| && HasFloorData(units[i]) && r == units[i].bids[0].floorData
      && forall j :: 0 <= j < i ==> !HasFloorData(units[j])
  {
    if units == [] then None
    else if HasFloorData(units[0]) then units[0].bids[0].floorData
    else
      var r := FirstFloorData(units[1..]);
      assert forall i :: 1 <= i < |units| ==> units[i] == units[1..][i - 1];
      r
  }

  function AdUnitCodes(units: seq<AdUnit>): (codes: seq<Json>)
    ensures |codes| == |units| && forall i :: 0 <= i < |units| ==> codes[i] == units[i].code
  {
    seq(|units|, i requires 0 <= i < |units| => units[i].code)
  }

  function Cdeps(reqs: seq<BidderRequest>): (cs: seq<Json>)
    ensures |cs| == |reqs| && forall i :: 0 <= i < |reqs| ==> cs[i] == reqs[i].cdep
  {
    seq(|reqs|, i requires 0 <= i < |reqs| => reqs[i].cdep)
  }

  /** The record after the auction-end merge. */
  function EndAuction(r: AuctionRecord, units: seq<AdUnit>, reqs: seq<BidderRequest>, timestamp: Json): (e: AuctionRecord)
    ensures FirstFloorData(units).None? ==> e.floorDetail == r.floorDetail
    ensures FirstFloorData(units).Some? ==> e.floorDetail == r.floorDetail + FirstFloorData(units).value
    ensures e.deviceDetail == r.deviceDetail["cdep" := FirstTruthy(Cdeps(reqs))]
    ensures e.auctionDetail.adUnitCodes == Some(AdUnitCodes(units))
    ensures e.auctionDetail.timestamp == Some(timestamp)
    ensures SameContext(r, e)
    ensures e.bids == r.bids && e.winningBid == r.winningBid && e.sendAs == r.sendAs
  {
    var floor := match FirstFloorData(units) case Some(f) => f case None => map[];
    r.(
      floorDetail := r.floorDetail + floor,
      deviceDetail := r.deviceDetail["cdep" := FirstTruthy(Cdeps(reqs))],
      auctionDetail := r.auctionDetail.(adUnitCodes := Some(AdUnitCodes(units)), timestamp := Some(timestamp)))
  }

  // ----- growth -----

  /** A record only grows: what it took from its creation stays, its bid
      list and its sent-as list are only extended. */
  predicate Extends(a: AuctionRecord, b: AuctionRecord) {
    SameContext(a, b) && a.bids <= b.bids && a.sendAs <= b.sendAs
  }

  /** Every record of `s` is still in `t`, grown at most; the counter never
      goes back. */
  ghost predicate Grows(s: Store, t: Store) {
    && (forall id :: id in s.auctions ==> id in t.auctions && Extends(s.auctions[id], t.auctions[id]))
    && s.refreshRank <= t.refreshRank
  }

  /** No auction's bid list changes. */
  ghost predicate BidsKept(s: Store, t: Store) {
    forall id :: BidsOf(t, id) == BidsOf(s, id)
  }

  lemma GrowsTrans(a: Store, b: Store, c: Store)
    requires Grows(a, b) && Grows(b, c)
    ensures Grows(a, c)
  {
  }

  lemma KeptTrans(a: Store, b: Store, c: Store)
    requires BidsKept(a, b) && BidsKept(b, c)
    ensures BidsKept(a, c)
  {
  }

  /** Reading a record grows the store and adds no bid. */
  lemma TouchGrows(s: Store, id: string, options: map<string, Json>, ctx: Context)
    ensures Grows(s, Touch(s, id, options, ctx)) && BidsKept(s, Touch(s, id, options, ctx))
  {
    var t := Touch(s, id, options, ctx);
    if id !in s.auctions {
      forall k | k in s.auctions
        ensures k in t.auctions && Extends(s.auctions[k], t.auctions[k])
      {
        assert t.auctions[k] == s.auctions[k];
      }
      forall k ensures BidsOf(t, k) == BidsOf(s, k) {
        if k == id {
          assert t.auctions[id].bids == [];
        }
      }
    }
  }

  /** `auctionCache[id] = r` on an existing auction: the record is replaced,
      nothing else changes. */
  function Put(s: Store, id: string, r: AuctionRecord): (t: Store)
    ensures id in t.auctions && t.auctions[id] == r
    ensures t.auctions.Keys == s.auctions.Keys + {id} && t.refreshRank == s.refreshRank
    ensures forall k :: k in s.auctions && k != id ==> t.auctions[k] == s.auctions[k]
  {
    Store(s.auctions[id := r], s.refreshRank)
  }

  /** Replacing a record by one that extends it grows the store and keeps it
      well formed. */
  lemma PutGrows(s: Store, id: string, r: AuctionRecord)
    requires id in s.auctions && Extends(s.auctions[id], r)
    ensures Grows(s, Put(s, id, r))
    ensures r.bids == s.auctions[id].bids ==> BidsKept(s, Put(s, id, r))
    ensures StoreValid(s) ==> StoreValid(Put(s, id, r))
  {
  }
}
