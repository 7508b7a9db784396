/**
  The bid extractor: turning a raw bid event argument into the adapter's
  normalised bid record, the bid-won enrichment with floor defaults, and the
  ad-server targeting pairs kept for a winning bid.
 */
module BidExtraction {
  import opened JsValues

  /** The fields of a raw bid event argument that the adapter reads.
      `auctionId` is the key into the auction cache, so it is a string here. */
  datatype RawBid = RawBid(
    adUnitCode: Json,
    auctionId: string,
    bidder: Json,
    cpm: Json,
    creativeId: Json,
    dealId: Json,
    currency: Json,
    floorData: Json,
    mediaType: Json,
    netRevenue: Json,
    requestTimestamp: Json,
    responseTimestamp: Json,
    status: Json,
    size: Json,
    statusMessage: Json,
    timeToRespond: Json,
    transactionId: Json,
    bidId: Json,
    requestId: Json,
    params: Json,
    source: Json)

  /** The bid-type tag of a stored bid. */
  datatype BidType = Rejected | Response | TimedOut | Winning {
    /** The integer the adapter stores as `bidType`. */
    function Code(): (c: nat)
      ensures 1 <= c <= 4
    {
      match this
      case Rejected => 1
      case Response => 2
      case TimedOut => 3
      case Winning => 4
    }
  }

  /** The fields only a winning bid carries. */
  datatype WinDetail = WinDetail(
    floorProvider: Json,
    floorFetchStatus: Json,
    floorLocation: Json,
    floorModelVersion: Json,
    floorSkipRate: Json,
    isFloorSkipped: Json,
    isWinningBid: bool,
    renderedSize: Json,
    adServerData: map<string, seq<string>>)

  /** A normalised bid record. `bidType` is absent straight out of the
      extractor and set by the event that stores the bid. */
  datatype Bid = Bid(
    adUnitCode: Json,
    gptSlotCode: Json,
    auctionId: string,
    bidderCode: Json,
    cpm: Json,
    creativeId: Json,
    dealId: Json,
    currency: Json,
    floorData: Json,
    mediaType: Json,
    netRevenue: Json,
    requestTimestamp: Json,
    responseTimestamp: Json,
    status: Json,
    sizes: string,
    statusMessage: Json,
    timeToRespond: Json,
    transactionId: Json,
    bidId: Json,
    placementId: Json,
    source: Json,
    bidType: Option<BidType>,
    win: Option<WinDetail>)

  /** An ad-server slot: its targeting keys, in order, and the values
      `getTargeting` returns for them (an empty list for an unknown key). */
  datatype Slot = Slot(targetingKeys: seq<string>, targeting: map<string, seq<string>>)

  /** The foreign helpers the adapter calls, as functions of their arguments:
      - gptSlotCode: `getGptSlotInfoForAdUnitCode(code).gptSlot`
      - gptSlot:     `getGptSlotForAdUnitCode(code)`, None when no slot is found
      - sizes:       `parseSizesInput(size).toString()`
      - placement:   `deepAccess(bid, 'params.0.placementId')`, given `bid.params`
      - hash:        `parseInt(cyrb53Hash(auctionId))` */
  datatype Lookups = Lookups(
    gptSlotCode: Json -> Json,
    gptSlot: Json -> Option<Slot>,
    sizes: Json -> string,
    placement: Json -> Json,
    hash: string -> nat)

  /** `extractBid`: the normalised view of a raw bid. */
  function ExtractBid(raw: RawBid, lk: Lookups): (r: Bid)
    ensures r.auctionId == raw.auctionId && r.adUnitCode == raw.adUnitCode
    ensures r.bidderCode == raw.bidder && r.cpm == raw.cpm && r.floorData == raw.floorData
    ensures r.creativeId == raw.creativeId && r.dealId == raw.dealId && r.currency == raw.currency
    ensures r.mediaType == raw.mediaType && r.netRevenue == raw.netRevenue
    ensures r.requestTimestamp == raw.requestTimestamp && r.responseTimestamp == raw.responseTimestamp
    ensures r.status == raw.status && r.statusMessage == raw.statusMessage
    ensures r.timeToRespond == raw.timeToRespond && r.transactionId == raw.transactionId
    ensures r.bidType == None && r.win == None
    ensures r.sizes == lk.sizes(raw.size)
    // `gptSlot || null`: the slot code when truthy, null otherwise
    ensures Truthy(lk.gptSlotCode(raw.adUnitCode)) ==> r.gptSlotCode == lk.gptSlotCode(raw.adUnitCode)
    ensures !Truthy(lk.gptSlotCode(raw.adUnitCode)) ==> r.gptSlotCode == Null
    // `bidId || requestId`
    ensures Truthy(raw.bidId) ==> r.bidId == raw.bidId
    ensures !Truthy(raw.bidId) ==> r.bidId == raw.requestId
    // `params ? deepAccess(...) : null`
    ensures !Truthy(raw.params) ==> r.placementId == Null
    ensures Truthy(raw.params) ==> r.placementId == lk.placement(raw.params)
    // `source || 'null'`: always a truthy value
    ensures Truthy(r.source)
    ensures Truthy(raw.source) ==> r.source == raw.source
    ensures !Truthy(raw.source) ==> r.source == Str("null")
  {
    Bid(
      adUnitCode := raw.adUnitCode,
      gptSlotCode := Or(lk.gptSlotCode(raw.adUnitCode), Null),
      auctionId := raw.auctionId,
      bidderCode := raw.bidder,
      cpm := raw.cpm,
      creativeId := raw.creativeId,
      dealId := raw.dealId,
      currency := raw.currency,
      floorData := raw.floorData,
      mediaType := raw.mediaType,
      netRevenue := raw.netRevenue,
      requestTimestamp := raw.requestTimestamp,
      responseTimestamp := raw.responseTimestamp,
      status := raw.status,
      sizes := lk.sizes(raw.size),
      statusMessage := raw.statusMessage,
      timeToRespond := raw.timeToRespond,
      transactionId := raw.transactionId,
      bidId := Or(raw.bidId, raw.requestId),
      placementId := if Truthy(raw.params) then lk.placement(raw.params) else Null,
      source := Or(raw.source, Str("null")),
      bidType := None,
      win := None)
  }

  /** The extracted bid of `raw`, tagged with `t`. */
  function TaggedBid(raw: RawBid, t: BidType, lk: Lookups): (r: Bid)
    ensures r.bidType == Some(t) && r.auctionId == raw.auctionId
    ensures r.(bidType := None) == ExtractBid(raw, lk)
  {
    ExtractBid(raw, lk).(bidType := Some(t))
  }

  /** Every raw bid of a timeout event, extracted and tagged, in order. */
  function TaggedBids(raws: seq<RawBid>, t: BidType, lk: Lookups): (r: seq<Bid>)
    ensures |r| == |raws|
    ensures forall i :: 0 <= i < |raws| ==> r[i] == TaggedBid(raws[i], t, lk)
  {
    seq(|raws|, i requires 0 <= i < |raws| => TaggedBid(raws[i], t, lk))
  }

  // ----- ad-server targeting -----

  predicate StartsWith(s: string, prefix: string) {
    |prefix| <= |s| && s[..|prefix|] == prefix
  }

  /** Number of occurrences of `c` in `s`. */
  function Occurrences(c: char, s: string): (n: nat)
    ensures n <= |s|
  {
    if s == [] then 0 else (if s[0] == c then 1 else 0) + Occurrences(c, s[1..])
  }

  /** The key filter of the ad-server lookup: a `pubx-` key, or an `hb_` key
      with exactly one underscore in it. */
  predicate KeptTargetingKey(key: string) {
    StartsWith(key, "pubx-") || (StartsWith(key, "hb_") && Occurrences('_', key) == 1)
  }

  /** What `getTargeting(key)` returns on a slot. */
  function Targeting(slot: Slot, key: string): seq<string> {
    if key in slot.targeting then slot.targeting[key] else []
  }

  /** `getAdServerDataForBid`: the kept targeting keys of the bid's slot with
      their values; no slot gives an empty map. */
  function AdServerData(adUnitCode: Json, lk: Lookups): (m: map<string, seq<string>>)
    ensures lk.gptSlot(Or(adUnitCode, Str(""))).None? ==> m == map[]
    ensures forall key :: key in m <==>
      var slot := lk.gptSlot(Or(adUnitCode, Str("")));
      slot.Some? && key in slot.value.targetingKeys && KeptTargetingKey(key)
    ensures forall key :: key in m ==> m[key] == Targeting(lk.gptSlot(Or(adUnitCode, Str(""))).value, key)
  {
    match lk.gptSlot(Or(adUnitCode, Str("")))
    case None => map[]
    case Some(slot) =>
      map key | key in slot.targetingKeys && KeptTargetingKey(key) :: Targeting(slot, key)
  }

  lemma {:induction false} OccurrencesAppend(c: char, a: string, b: string)
    ensures Occurrences(c, a + b) == Occurrences(c, a) + Occurrences(c, b)
  {
    if a != [] {
      assert (a + b)[1..] == a[1..] + b;
      OccurrencesAppend(c, a[1..], b);
    } else {
      assert a + b == b;
    }
  }

  lemma {:induction false} NoOccurrences(c: char, s: string)
    ensures Occurrences(c, s) == 0 <==> forall j :: 0 <= j < |s| ==> s[j] != c
  {
    if s != [] {
      NoOccurrences(c, s[1..]);
      assert forall j :: 1 <= j < |s| ==> s[j] == s[1..][j - 1];
    }
  }

  /** The key filter, stated without counting: an `hb_` key is kept exactly
      when no further underscore follows its prefix. */
  lemma KeptTargetingKeyIff(key: string)
    ensures KeptTargetingKey(key) <==>
      StartsWith(key, "pubx-") ||
      (StartsWith(key, "hb_") && forall j :: 3 <= j < |key| ==> key[j] != '_')
  {
    if StartsWith(key, "hb_") {
      assert key == key[..3] + key[3..];
      OccurrencesAppend('_', key[..3], key[3..]);
      assert Occurrences('_', key[..3]) == 1 by {
        assert key[..3] == "hb_";
      }
      NoOccurrences('_', key[3..]);
      assert forall j :: 3 <= j < |key| ==> key[j] == key[3..][j - 3];
    }
  }

  // ----- bid won -----

  /** The bid-won record: the extracted bid with the floor fields taken from
      the auction's `floorDetail` (each defaulted when falsy), the winning
      flags, the rendered size and the ad-server targeting pairs. */
  function WinningBid(raw: RawBid, floorDetail: map<string, Json>, lk: Lookups): (r: Bid)
    ensures r.bidType == Some(Winning) && r.bidType.value.Code() == 4
    ensures r.(bidType := None, win := None) == ExtractBid(raw, lk)
    ensures r.win.Some? && r.win.value.isWinningBid
    ensures r.win.value.renderedSize == raw.size
    ensures r.win.value.adServerData == AdServerData(raw.adUnitCode, lk)
    // `floorDetail?.k || default`, for each floor field
    ensures Truthy(Member(floorDetail, "floorProvider")) ==> r.win.value.floorProvider == floorDetail["floorProvider"]
    ensures !Truthy(Member(floorDetail, "floorProvider")) ==> r.win.value.floorProvider == Null
    ensures Truthy(Member(floorDetail, "fetchStatus")) ==> r.win.value.floorFetchStatus == floorDetail["fetchStatus"]
    ensures !Truthy(Member(floorDetail, "fetchStatus")) ==> r.win.value.floorFetchStatus == Null
    ensures Truthy(Member(floorDetail, "location")) ==> r.win.value.floorLocation == floorDetail["location"]
    ensures !Truthy(Member(floorDetail, "location")) ==> r.win.value.floorLocation == Null
    ensures Truthy(Member(floorDetail, "modelVersion")) ==> r.win.value.floorModelVersion == floorDetail["modelVersion"]
    ensures !Truthy(Member(floorDetail, "modelVersion")) ==> r.win.value.floorModelVersion == Null
    ensures Truthy(Member(floorDetail, "skipRate")) ==> r.win.value.floorSkipRate == floorDetail["skipRate"]
    ensures !Truthy(Member(floorDetail, "skipRate")) ==> r.win.value.floorSkipRate == Num(0.0)
    ensures Truthy(Member(floorDetail, "skipped")) ==> r.win.value.isFloorSkipped == floorDetail["skipped"]
    ensures !Truthy(Member(floorDetail, "skipped")) ==> r.win.value.isFloorSkipped == Bool(false)
  {
    var bid := ExtractBid(raw, lk);
    bid.(
      bidType := Some(Winning),
      win := Some(WinDetail(
        floorProvider := Or(Member(floorDetail, "floorProvider"), Null),
        floorFetchStatus := Or(Member(floorDetail, "fetchStatus"), Null),
        floorLocation := Or(Member(floorDetail, "location"), Null),
        floorModelVersion := Or(Member(floorDetail, "modelVersion"), Null),
        floorSkipRate := Or(Member(floorDetail, "skipRate"), Num(0.0)),
        isFloorSkipped := Or(Member(floorDetail, "skipped"), Bool(false)),
        isWinningBid := true,
        renderedSize := raw.size,
        adServerData := AdServerData(bid.adUnitCode, lk))))
  }
}
