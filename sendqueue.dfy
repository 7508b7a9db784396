/**
  The send-queue builder: the strict required-keys gate, the flattened
  payload holding exactly the required keys, the request URL, and the
  per-URL queues (`sendCache`) that payloads are appended to.
 */
module SendQueue {
  import opened JsValues
  import opened BidExtraction
  import opened AuctionStore

  const DefaultHost: string := "api.pbxai.com"
  const AuctionPath: string := "/analytics/auction"
  const WinningBidPath: string := "/analytics/bidwon"
  /** The parts of every request URL that never vary. */
  const Protocol: string := "https"
  const AnalyticsVersion: string := "v2.1.0"
  const PrebidVersion: string := "$prebid.version$"

  /** The top-level keys of a record that a payload can carry. */
  datatype Key =
    | BidsKey | WinningBidKey | PageDetailKey | DeviceDetailKey | FloorDetailKey
    | AuctionDetailKey | UserDetailKey | ConsentDetailKey | PmacDetailKey
    | ExtraDataKey | InitOptionsKey

  /** A flat object with some of those keys; `None` is an absent key. */
  datatype Payload = Payload(
    bids: Option<seq<Bid>>,
    winningBid: Option<Bid>,
    pageDetail: Option<map<string, Json>>,
    deviceDetail: Option<map<string, Json>>,
    floorDetail: Option<map<string, Json>>,
    auctionDetail: Option<AuctionDetail>,
    userDetail: Option<seq<string>>,
    consentDetail: Option<seq<string>>,
    pmacDetail: Option<Json>,
    extraData: Option<Json>,
    initOptions: Option<map<string, Json>>)

  const AuctionKeys: seq<Key> := [
    BidsKey, PageDetailKey, DeviceDetailKey, FloorDetailKey, AuctionDetailKey,
    UserDetailKey, ConsentDetailKey, PmacDetailKey, ExtraDataKey, InitOptionsKey]

  const WinKeys: seq<Key> := [
    WinningBidKey, PageDetailKey, DeviceDetailKey, FloorDetailKey, AuctionDetailKey,
    UserDetailKey, ConsentDetailKey, PmacDetailKey, ExtraDataKey, InitOptionsKey]

  /** `Object.assign({}, record)`: a copy of the record's own keys, taken
      at the time of the call. `winningBid` is an own key only once set. */
  function Snapshot(r: AuctionRecord): (p: Payload)
    ensures forall k :: k != WinningBidKey ==> Has(p, k)
    ensures Has(p, WinningBidKey) <==> r.winningBid.Some?
    // each key holds the record's own value
    ensures p.bids == Some(r.bids) && p.winningBid == r.winningBid
    ensures p.pageDetail == Some(r.pageDetail) && p.deviceDetail == Some(r.deviceDetail)
    ensures p.floorDetail == Some(r.floorDetail) && p.auctionDetail == Some(r.auctionDetail)
    ensures p.userDetail == Some(r.userDetail) && p.consentDetail == Some(r.consentDetail)
    ensures p.pmacDetail == Some(r.pmacDetail) && p.extraData == Some(r.extraData)
    ensures p.initOptions == Some(r.initOptions)
  {
    Payload(
      bids := Some(r.bids),
      winningBid := r.winningBid,
      pageDetail := Some(r.pageDetail),
      deviceDetail := Some(r.deviceDetail),
      floorDetail := Some(r.floorDetail),
      auctionDetail := Some(r.auctionDetail),
      userDetail := Some(r.userDetail),
      consentDetail := Some(r.consentDetail),
      pmacDetail := Some(r.pmacDetail),
      extraData := Some(r.extraData),
      initOptions := Some(r.initOptions))
  }

  /** The payload has key `k`. */
  predicate Has(p: Payload, k: Key) {
    match k
    case BidsKey => p.bids.Some?
    case WinningBidKey => p.winningBid.Some?
    case PageDetailKey => p.pageDetail.Some?
    case DeviceDetailKey => p.deviceDetail.Some?
    case FloorDetailKey => p.floorDetail.Some?
    case AuctionDetailKey => p.auctionDetail.Some?
    case UserDetailKey => p.userDetail.Some?
    case ConsentDetailKey => p.consentDetail.Some?
    case PmacDetailKey => p.pmacDetail.Some?
    case ExtraDataKey => p.extraData.Some?
    case InitOptionsKey => p.initOptions.Some?
  }

  /** `!!payload[k]`: present and truthy. Arrays, records and maps are
      JavaScript objects and so always truthy; the two values parsed from
      storage may be any JavaScript value. */
  predicate Truthful(p: Payload, k: Key) {
    && Has(p, k)
    && (k == PmacDetailKey ==> Truthy(p.pmacDetail.value))
    && (k == ExtraDataKey ==> Truthy(p.extraData.value))
  }

  /** `p` and `q` agree on key `k` (both lack it, or hold the same value). */
  predicate Agree(p: Payload, q: Payload, k: Key) {
    match k
    case BidsKey => p.bids == q.bids
    case WinningBidKey => p.winningBid == q.winningBid
    case PageDetailKey => p.pageDetail == q.pageDetail
    case DeviceDetailKey => p.deviceDetail == q.deviceDetail
    case FloorDetailKey => p.floorDetail == q.floorDetail
    case AuctionDetailKey => p.auctionDetail == q.auctionDetail
    case UserDetailKey => p.userDetail == q.userDetail
    case ConsentDetailKey => p.consentDetail == q.consentDetail
    case PmacDetailKey => p.pmacDetail == q.pmacDetail
    case ExtraDataKey => p.extraData == q.extraData
    case InitOptionsKey => p.initOptions == q.initOptions
  }

  /** `requiredKeys.every((key) => !!auctionData[key])`. */
  predicate PassesGate(data: Payload, keys: seq<Key>) {
    forall k :: k in keys ==> Truthful(data, k)
  }

  function Pick<T>(k: Key, keys: seq<Key>, v: Option<T>): Option<T> {
    if k in keys then v else None
  }

  /** `Object.fromEntries(requiredKeys.map((key) => [key, auctionData[key]]))`:
      behind the gate, the entry has exactly the required keys, each with
      the snapshot's value. */
  function Entry(data: Payload, keys: seq<Key>): (e: Payload)
    ensures forall k :: Has(e, k) <==> k in keys && Has(data, k)
    ensures forall k :: k in keys ==> Agree(e, data, k)
    ensures PassesGate(data, keys) ==> forall k :: Has(e, k) <==> k in keys
  {
    Payload(
      bids := Pick(BidsKey, keys, data.bids),
      winningBid := Pick(WinningBidKey, keys, data.winningBid),
      pageDetail := Pick(PageDetailKey, keys, data.pageDetail),
      deviceDetail := Pick(DeviceDetailKey, keys, data.deviceDetail),
      floorDetail := Pick(FloorDetailKey, keys, data.floorDetail),
      auctionDetail := Pick(AuctionDetailKey, keys, data.auctionDetail),
      userDetail := Pick(UserDetailKey, keys, data.userDetail),
      consentDetail := Pick(ConsentDetailKey, keys, data.consentDetail),
      pmacDetail := Pick(PmacDetailKey, keys, data.pmacDetail),
      extraData := Pick(ExtraDataKey, keys, data.extraData),
      initOptions := Pick(InitOptionsKey, keys, data.initOptions))
  }

  /** A snapshot of a record whose storage values are truthy passes the
      auction gate, and, once a winning bid is attached, the win gate: in
      the adapter the gate never rejects a send. */
  lemma SnapshotPassesAuctionGate(r: AuctionRecord)
    requires Truthy(r.pmacDetail) && Truthy(r.extraData)
    ensures PassesGate(Snapshot(r), AuctionKeys)
  {
  }

  lemma SnapshotPassesWinGate(r: AuctionRecord, winner: Bid)
    requires Truthy(r.pmacDetail) && Truthy(r.extraData)
    ensures PassesGate(Snapshot(r).(winningBid := Some(winner)), WinKeys)
  {
  }

  /** The request URL `buildUrl` assembles, as its parts. */
  datatype Url = Url(
    protocol: string,
    hostname: Json,
    pathname: string,
    auctionTimestamp: Json,
    analyticsVersion: string,
    prebidVersion: string,
    pubxId: Json)

  /** `buildUrl(...)` in `storeDataInSendCache`: the host comes from the
      snapshot's options copy, the account id from the adapter's options. */
  function RequestUrl(path: string, data: Payload, options: map<string, Json>): (u: Url)
    ensures u.protocol == Protocol && u.pathname == path
    ensures u.analyticsVersion == AnalyticsVersion && u.prebidVersion == PrebidVersion
    ensures Truthy(u.hostname)
    ensures u.hostname == Str(DefaultHost) || (data.initOptions.Some? && u.hostname == Member(data.initOptions.value, "hostName"))
    ensures data.initOptions.Some? && Truthy(Member(data.initOptions.value, "hostName")) ==>
      u.hostname == Member(data.initOptions.value, "hostName")
    ensures u.auctionTimestamp ==
      if data.auctionDetail.Some? && data.auctionDetail.value.timestamp.Some? then data.auctionDetail.value.timestamp.value
      else Undefined
    ensures u.pubxId == Member(options, "pubxId")
  {
    Url(
      protocol := Protocol,
      hostname := match data.initOptions
        case Some(io) => Or(Member(io, "hostName"), Str(DefaultHost))
        case None => Str(DefaultHost),
      pathname := path,
      // behind the gate the snapshot always has `auctionDetail`
      auctionTimestamp := match data.auctionDetail
        case Some(d) => (match d.timestamp case Some(t) => t case None => Undefined)
        case None => Undefined,
      analyticsVersion := AnalyticsVersion,
      prebidVersion := PrebidVersion,
      pubxId := Member(options, "pubxId"))
  }

  // ----- the per-URL queues -----

  /** `sendCache` and the order in which its keys were first created. */
  datatype Queues = Queues(cache: map<Url, seq<Payload>>, order: seq<Url>)

  predicate Distinct(order: seq<Url>) {
    forall i, j :: 0 <= i < j < |order| ==> order[i] != order[j]
  }

  predicate QueuesValid(q: Queues) {
    Distinct(q.order) && q.cache.Keys == set u | u in q.order
  }

  /** `sendCache[u]`: a missing key reads as an empty queue. */
  function QueueAt(q: Queues, u: Url): seq<Payload> {
    if u in q.cache then q.cache[u] else []
  }

  /** `sendCache[u].push(e)`. */
  function Push(q: Queues, u: Url, e: Payload): (r: Queues)
    ensures r.cache.Keys == q.cache.Keys + {u}
    ensures QueueAt(r, u) == QueueAt(q, u) + [e]
    ensures forall v :: v != u ==> QueueAt(r, v) == QueueAt(q, v)
    ensures QueuesValid(q) ==> QueuesValid(r)
  {
    if u in q.cache then Queues(q.cache[u := q.cache[u] + [e]], q.order)
    else
      var r := Queues(q.cache[u := [e]], q.order + [u]);
      assert forall v :: v in r.order <==> v in q.order || v == u;
      r
  }

  /** The number of queued payloads over the URLs in `order`. */
  function SumOver(order: seq<Url>, q: Queues): nat {
    if order == [] then 0 else SumOver(order[..|order| - 1], q) + |QueueAt(q, order[|order| - 1])|
  }

  /** The number of queued payloads. */
  function Total(q: Queues): nat {
    SumOver(q.order, q)
  }

  lemma {:induction false} SumOverOthers(order: seq<Url>, q: Queues, r: Queues, u: Url)
    requires u !in order
    requires forall v :: v != u ==> QueueAt(r, v) == QueueAt(q, v)
    ensures SumOver(order, r) == SumOver(order, q)
  {
    if order != [] {
      SumOverOthers(order[..|order| - 1], q, r, u);
    }
  }

  lemma {:induction false} SumOverOne(order: seq<Url>, q: Queues, r: Queues, u: Url)
    requires Distinct(order) && u in order
    requires forall v :: v != u ==> QueueAt(r, v) == QueueAt(q, v)
    ensures SumOver(order, r) + |QueueAt(q, u)| == SumOver(order, q) + |QueueAt(r, u)|
  {
    var init, last := order[..|order| - 1], order[|order| - 1];
    if last == u {
      assert u !in init;
      SumOverOthers(init, q, r, u);
    } else {
      SumOverOne(init, q, r, u);
    }
  }

  /** A push adds exactly one payload to the queues as a whole. */
  lemma PushAddsOne(q: Queues, u: Url, e: Payload)
    requires QueuesValid(q)
    ensures Total(Push(q, u, e)) == Total(q) + 1
  {
    var r := Push(q, u, e);
    if u in q.cache {
      SumOverOne(q.order, q, r, u);
    } else {
      SumOverOthers(q.order, q, r, u);
      assert r.order == q.order + [u];
      assert r.order[..|r.order| - 1] == q.order;
    }
  }

  /** `storeDataInSendCache`: behind the gate, exactly one entry with exactly
      the required keys goes to the end of exactly one URL's queue; a failed
      gate changes nothing. */
  function StoreData(q: Queues, path: string, keys: seq<Key>, data: Payload, options: map<string, Json>): (r: Queues)
    ensures !PassesGate(data, keys) ==> r == q
    ensures PassesGate(data, keys) ==>
      var u := RequestUrl(path, data, options);
      && QueueAt(r, u) == QueueAt(q, u) + [Entry(data, keys)]
      && (forall v :: v != u ==> QueueAt(r, v) == QueueAt(q, v))
      && r.cache.Keys == q.cache.Keys + {u}
    ensures QueuesValid(q) ==> QueuesValid(r)
    ensures QueuesValid(q) ==> Total(r) == Total(q) + (if PassesGate(data, keys) then 1 else 0)
  {
    if !PassesGate(data, keys) then q
    else
      var u := RequestUrl(path, data, options);
      var e := Entry(data, keys);
      if QueuesValid(q) then PushAddsOne(q, u, e); Push(q, u, e)
      else Push(q, u, e)
  }
}
