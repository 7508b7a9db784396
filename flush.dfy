/**
  The flusher of `send`: for each URL's queue, the loop over its events that
  slides a window `[payloadStart, index + 2)` along the queue, checks the
  JSON size of the window against the beacon limit, and emits a beacon on
  overflow or at the last event. The size of a JSON text is a parameter.

  The loop is modelled as written. Its consequences, proved below: an
  overflowing window sends all but its last event and the next window
  starts one event earlier, so the event on the boundary is sent twice; an
  overflow at the last event drops that event; a lone oversized event is
  sent as an empty batch; and the batch sent after an overflow is never
  itself checked, so it can exceed the limit.
 */
module Flusher {
  import opened JsValues
  import opened Sequences

  /** The size limit a window is checked against, in bytes. */
  const MaxBeaconBytes: nat := 65536

  /** One beacon: the queue slice `[start, end)` it carries, and whether the
      window it was cut from was over the limit. */
  datatype Window = Window(start: nat, end: nat, tooLarge: bool)

  function Min(a: nat, b: nat): nat {
    if a < b then a else b
  }

  /** The shape of a window `w` of a queue of `n` events. */
  predicate WindowShape(n: nat, w: Window) {
    && w.start <= w.end <= n
    // an overflowing window stops short of the end of the queue
    && (w.tooLarge ==> w.end < n)
    // a window within the limit runs to the end of the queue
    && (!w.tooLarge ==> w.end == n)
    // only a window starting at the last event can be empty
    && (w.start + 1 < n ==> w.start < w.end)
  }

  /** The size check behind a window `w` of queue `q`: an overflowing window
      is the batch plus the next event, and is over the limit; a window
      within the limit is the batch itself. */
  predicate WindowChecked<P>(q: seq<P>, size: seq<P> -> nat, w: Window)
    requires WindowShape(|q|, w)
  {
    if w.tooLarge then size(q[w.start..w.end + 1]) > MaxBeaconBytes
    else size(q[w.start..w.end]) <= MaxBeaconBytes
  }

  /** Every beacon but the last comes from an overflow and is not empty, and
      the next window starts at the last event of the one before. */
  ghost predicate Chain(ws: seq<Window>) {
    |ws| <= 1 ||
    (ws[0].tooLarge && ws[0].start < ws[0].end && ws[1].start + 1 == ws[0].end && Chain(ws[1..]))
  }

  lemma {:induction false} ChainAt(ws: seq<Window>, i: nat)
    requires Chain(ws) && i + 1 < |ws|
    ensures ws[i].tooLarge && ws[i].start < ws[i].end && ws[i + 1].start + 1 == ws[i].end
  {
    if i > 0 {
      ChainAt(ws[1..], i - 1);
    }
  }

  /** The beacon the loop emits at event `index` when `payloadStart` is
      `start`, if any: the window `[start, index + 2)` is cut at the end of
      the queue; over the limit, it is sent without its last event. */
  function Emitted<P>(q: seq<P>, size: seq<P> -> nat, index: nat, start: nat): (r: Option<Window>)
    requires start <= index < |q|
    // only the last event always emits
    ensures r.None? ==> index + 1 < |q|
    ensures r.Some? ==> r.value.start == start
  {
    var hi := Min(index + 2, |q|);
    var tooLarge := size(q[start..hi]) > MaxBeaconBytes;
    if tooLarge || index + 1 == |q| then
      Some(Window(start, if tooLarge then hi - 1 else hi, tooLarge))
    else
      None
  }

  /** An emitted window has the shape of a window and passed its size check;
      one emitted before the last event comes from an overflow, and its last
      event is the current one. */
  lemma EmittedSound<P>(q: seq<P>, size: seq<P> -> nat, index: nat, start: nat)
    requires start <= index < |q|
    ensures match Emitted(q, size, index, start)
      case Some(w) =>
        && WindowShape(|q|, w) && WindowChecked(q, size, w)
        && (index + 1 < |q| ==> w.tooLarge && w.end == index + 1)
        && (index + 1 == |q| ==> w.end + 1 >= |q|)
      case None => true
  {
    var hi := Min(index + 2, |q|);
    var tooLarge := size(q[start..hi]) > MaxBeaconBytes;
    var w := Window(start, if tooLarge then hi - 1 else hi, tooLarge);
    assert tooLarge ==> q[w.start..w.end + 1] == q[start..hi];
  }

  /** The beacons the loop emits from event `index` on, when `payloadStart`
      is `start`. */
  function WindowsFrom<P>(q: seq<P>, size: seq<P> -> nat, index: nat, start: nat): (ws: seq<Window>)
    requires start <= index
    // a beacon is emitted exactly when events remain (the last one always emits)
    ensures |ws| > 0 <==> index < |q|
    ensures |ws| > 0 ==> ws[0].start == start
    decreases |q| - index
  {
    if index >= |q| then []
    else
      match Emitted(q, size, index, start)
      case Some(w) => [w] + WindowsFrom(q, size, index + 1, index)
      case None => WindowsFrom(q, size, index + 1, start)
  }

  /** Every window the loop emits has the shape of a window. */
  lemma {:induction false} WindowsFromShape<P>(q: seq<P>, size: seq<P> -> nat, index: nat, start: nat)
    requires start <= index
    ensures forall w :: w in WindowsFrom(q, size, index, start) ==> start <= w.start && WindowShape(|q|, w)
    decreases |q| - index
  {
    if index < |q| {
      EmittedSound(q, size, index, start);
      match Emitted(q, size, index, start)
      case Some(w) =>
        WindowsFromShape(q, size, index + 1, index);
      case None =>
        WindowsFromShape(q, size, index + 1, start);
    }
  }

  /** Every window the loop emits passed the size check that made it. */
  lemma {:induction false} WindowsFromChecked<P>(q: seq<P>, size: seq<P> -> nat, index: nat, start: nat)
    requires start <= index
    ensures forall w :: w in WindowsFrom(q, size, index, start) ==>
      WindowShape(|q|, w) && WindowChecked(q, size, w)
    decreases |q| - index
  {
    if index < |q| {
      EmittedSound(q, size, index, start);
      match Emitted(q, size, index, start)
      case Some(w) =>
        WindowsFromChecked(q, size, index + 1, index);
      case None =>
        WindowsFromChecked(q, size, index + 1, start);
    }
  }

  /** The windows form a chain ending at the last event or just before it. */
  lemma {:induction false} WindowsFromChain<P>(q: seq<P>, size: seq<P> -> nat, index: nat, start: nat)
    requires start <= index
    ensures Chain(WindowsFrom(q, size, index, start))
    ensures index < |q| ==>
      WindowsFrom(q, size, index, start)[|WindowsFrom(q, size, index, start)| - 1].end + 1 >= |q|
    decreases |q| - index
  {
    if index < |q| {
      EmittedSound(q, size, index, start);
      match Emitted(q, size, index, start)
      case Some(w) =>
        var rest := WindowsFrom(q, size, index + 1, index);
        WindowsFromChain(q, size, index + 1, index);
        assert ([w] + rest)[1..] == rest;
      case None =>
        WindowsFromChain(q, size, index + 1, start);
    }
  }

  /** The beacons the loop emits for queue `q`. */
  function Windows<P>(q: seq<P>, size: seq<P> -> nat): (ws: seq<Window>)
    ensures |ws| > 0 <==> |q| > 0
  {
    WindowsFrom(q, size, 0, 0)
  }

  /** The slice of `q` a window carries. */
  function Cut<P>(q: seq<P>, w: Window): seq<P> {
    if w.start <= w.end <= |q| then q[w.start..w.end] else []
  }

  /** The queue slices the windows carry. */
  function Slices<P>(q: seq<P>, ws: seq<Window>): (bs: seq<seq<P>>)
    ensures |bs| == |ws|
  {
    if ws == [] then [] else Slices(q, ws[..|ws| - 1]) + [Cut(q, ws[|ws| - 1])]
  }

  /** The batches of events sent for queue `q`, in order: at least one for
      a queue that has events, none for an empty one. */
  function Batches<P>(q: seq<P>, size: seq<P> -> nat): (bs: seq<seq<P>>)
    ensures |bs| == |Windows(q, size)|
    ensures |bs| > 0 <==> |q| > 0
  {
    Slices(q, Windows(q, size))
  }

  /** One turn of the loop of `FlushQueue`, on the windows: the window it
      emits, if any, is the next one. */
  lemma WindowsStep<P>(q: seq<P>, size: seq<P> -> nat, sent: seq<Window>, index: nat, start: nat)
    requires start <= index < |q|
    requires sent + WindowsFrom(q, size, index, start) == Windows(q, size)
    ensures
      var hi := Min(index + 2, |q|);
      var tooLarge := size(q[start..hi]) > MaxBeaconBytes;
      if tooLarge || index + 1 == |q| then
        (sent + [Window(start, if tooLarge then hi - 1 else hi, tooLarge)])
          + WindowsFrom(q, size, index + 1, index) == Windows(q, size)
      else
        sent + WindowsFrom(q, size, index + 1, start) == Windows(q, size)
  {
    match Emitted(q, size, index, start)
    case Some(w) =>
      AppendAssociates(sent, [w], WindowsFrom(q, size, index + 1, index));
    case None =>
  }

  lemma {:induction false} SlicesAt<P>(q: seq<P>, ws: seq<Window>, i: nat)
    requires i < |ws|
    ensures Slices(q, ws)[i] == Cut(q, ws[i])
  {
    if i < |ws| - 1 {
      SlicesAt(q, ws[..|ws| - 1], i);
    }
  }

  lemma SlicesSnoc<P>(q: seq<P>, ws: seq<Window>, w: Window)
    ensures Slices(q, ws + [w]) == Slices(q, ws) + [Cut(q, w)]
  {
    assert (ws + [w])[..|ws|] == ws;
  }

  /** One turn of the loop of `FlushQueue`: the beacon it sends, if any, is
      the cut of the next window, and the invariant moves on. */
  lemma FlushStep<P>(q: seq<P>, size: seq<P> -> nat, sent: seq<Window>, batches: seq<seq<P>>, index: nat, start: nat,
                     hi: nat, tooLarge: bool)
    requires start <= index < |q|
    requires sent + WindowsFrom(q, size, index, start) == Windows(q, size)
    requires batches == Slices(q, sent)
    requires hi == Min(index + 2, |q|) && tooLarge == (size(q[start..hi]) > MaxBeaconBytes)
    ensures start < hi
    ensures tooLarge || index + 1 == |q| ==>
      var w := Window(start, if tooLarge then hi - 1 else hi, tooLarge);
      && (sent + [w]) + WindowsFrom(q, size, index + 1, index) == Windows(q, size)
      && batches + [if tooLarge then q[start..hi - 1] else q[start..hi]] == Slices(q, sent + [w])
    ensures !(tooLarge || index + 1 == |q|) ==>
      sent + WindowsFrom(q, size, index + 1, start) == Windows(q, size)
  {
    WindowsStep(q, size, sent, index, start);
    if tooLarge || index + 1 == |q| {
      var w := Window(start, if tooLarge then hi - 1 else hi, tooLarge);
      SlicesSnoc(q, sent, w);
      assert Cut(q, w) == if tooLarge then q[start..hi - 1] else q[start..hi];
    }
  }

  /** The `events.forEach` loop of `send` for one queue: the batches it hands
      to `sendBeacon`, in order. */
  method FlushQueue<P>(q: seq<P>, size: seq<P> -> nat) returns (batches: seq<seq<P>>)
    ensures batches == Batches(q, size)
  {
    batches := [];
    ghost var sent: seq<Window> := [];
    var payloadStart := 0;
    var index := 0;
    while index < |q|
      invariant payloadStart <= index <= |q|
      invariant sent + WindowsFrom(q, size, index, payloadStart) == Windows(q, size)
      invariant batches == Slices(q, sent)
      decreases |q| - index
    {
      var hi := Min(index + 2, |q|);
      var tooLarge := size(q[payloadStart..hi]) > MaxBeaconBytes;
      FlushStep(q, size, sent, batches, index, payloadStart, hi, tooLarge);
      if tooLarge || index + 1 == |q| {
        sent := sent + [Window(payloadStart, if tooLarge then hi - 1 else hi, tooLarge)];
        batches := batches + [if tooLarge then q[payloadStart..hi - 1] else q[payloadStart..hi]];
        payloadStart := index;
      }
      index := index + 1;
    }
    assert sent + [] == sent;
  }

  // ----- what the loop guarantees -----

  lemma {:induction false} CoveredBy(ws: seq<Window>, m: nat, i: nat) returns (j: nat)
    requires 0 < m <= |ws| && ws[0].start == 0 && Chain(ws)
    requires i < ws[m - 1].end
    ensures j < m && ws[j].start <= i < ws[j].end
  {
    if i >= ws[m - 1].start {
      j := m - 1;
    } else {
      ChainAt(ws, m - 2);
      j := CoveredBy(ws, m - 1, i);
    }
  }

  /** Every event but the last is sent in some beacon, at its position. */
  lemma EveryEarlierEventSent<P>(q: seq<P>, size: seq<P> -> nat, i: nat)
    requires i + 1 < |q|
    ensures exists j ::
      0 <= j < |Windows(q, size)| && Windows(q, size)[j].start <= i < Windows(q, size)[j].end
  {
    var ws := Windows(q, size);
    WindowsFromChain(q, size, 0, 0);
    var j := CoveredBy(ws, |ws|, i);
  }

  /** The last event is sent exactly when the last window is within the limit. */
  lemma LastEventSentIff<P>(q: seq<P>, size: seq<P> -> nat)
    requires |q| > 0
    ensures (exists j :: 0 <= j < |Windows(q, size)| && Windows(q, size)[j].end == |q|)
        <==> !Windows(q, size)[|Windows(q, size)| - 1].tooLarge
  {
    var ws := Windows(q, size);
    WindowsFromShape(q, size, 0, 0);
    var last := ws[|ws| - 1];
    assert last in ws;
    if last.tooLarge {
      WindowsFromChain(q, size, 0, 0);
      forall j | 0 <= j < |ws|
        ensures ws[j].end < |q|
      {
        if j + 1 < |ws| {
          ChainAt(ws, j);
        }
        assert ws[j] in ws;
      }
    }
  }

  /** A queue whose every prefix fits (the only windows the loop checks
      while nothing overflows) goes out as one beacon holding all of it. */
  lemma FittingQueueIsOneBeacon<P>(q: seq<P>, size: seq<P> -> nat)
    requires |q| > 0
    requires forall j :: 0 < j <= |q| ==> size(q[..j]) <= MaxBeaconBytes
    ensures Batches(q, size) == [q]
  {
    var ws := Windows(q, size);
    WindowsFromChecked(q, size, 0, 0);
    WindowsFromChain(q, size, 0, 0);
    assert ws[0] in ws && WindowChecked(q, size, ws[0]);
    assert !ws[0].tooLarge;
    assert |ws| == 1;
    assert q[0..|q|] == q;
  }

  /** Each batch is the contiguous slice of the queue its window spans, and
      windows start in order: `payloadStart` never moves back. */
  lemma BatchesAreSlices<P>(q: seq<P>, size: seq<P> -> nat, j: nat)
    requires j < |Windows(q, size)|
    ensures Windows(q, size)[j].start <= Windows(q, size)[j].end <= |q|
    ensures Batches(q, size)[j] == q[Windows(q, size)[j].start..Windows(q, size)[j].end]
    ensures j + 1 < |Windows(q, size)| ==> Windows(q, size)[j].start <= Windows(q, size)[j + 1].start
  {
    var ws := Windows(q, size);
    WindowsFromShape(q, size, 0, 0);
    assert ws[j] in ws;
    SlicesAt(q, ws, j);
    if j + 1 < |ws| {
      WindowsFromChain(q, size, 0, 0);
      ChainAt(ws, j);
    }
  }

  /** On an overflow the event on the boundary ends one beacon and starts the next. */
  lemma BoundaryEventSentTwice<P>(q: seq<P>, size: seq<P> -> nat, j: nat)
    requires j + 1 < |Batches(q, size)|
    ensures |Batches(q, size)[j]| > 0 && |Batches(q, size)[j + 1]| > 0
    ensures Batches(q, size)[j][|Batches(q, size)[j]| - 1] == Batches(q, size)[j + 1][0]
  {
    var ws := Windows(q, size);
    WindowsFromShape(q, size, 0, 0);
    WindowsFromChain(q, size, 0, 0);
    assert ws[j] in ws && ws[j + 1] in ws;
    ChainBoundary(q, ws, j);
  }

  lemma ChainBoundary<P>(q: seq<P>, ws: seq<Window>, j: nat)
    requires Chain(ws) && j + 1 < |ws|
    requires WindowShape(|q|, ws[j]) && WindowShape(|q|, ws[j + 1])
    ensures |Slices(q, ws)[j]| > 0 && |Slices(q, ws)[j + 1]| > 0
    ensures Slices(q, ws)[j][|Slices(q, ws)[j]| - 1] == Slices(q, ws)[j + 1][0]
  {
    ChainAt(ws, j);
    var a, b := ws[j], ws[j + 1];
    SlicesAt(q, ws, j);
    SlicesAt(q, ws, j + 1);
    var x, y := q[a.start..a.end], q[b.start..b.end];
    assert x[|x| - 1] == q[a.end - 1];
    assert y[0] == q[b.start];
  }

  // ----- counterexamples to a size ceiling -----

  /** A lone event over the limit is sent as an empty batch. */
  lemma OversizedSingleEventSentEmpty<P>(q: seq<P>, size: seq<P> -> nat)
    requires |q| == 1 && size(q) > MaxBeaconBytes
    ensures Batches(q, size) == [[]]
  {
    assert q[0..1] == q;
  }

  /** Two events that overflow together: the first is sent twice, the second never. */
  lemma OverflowingPairDropsSecond<P>(q: seq<P>, size: seq<P> -> nat)
    requires |q| == 2 && size(q) > MaxBeaconBytes
    ensures Batches(q, size) == [[q[0]], [q[0]]]
  {
    assert q[0..2] == q && q[0..1] == [q[0]];
    assert Emitted(q, size, 0, 0) == Some(Window(0, 1, true));
    assert Emitted(q, size, 1, 0) == Some(Window(0, 1, true));
    assert WindowsFrom(q, size, 1, 0) == [Window(0, 1, true)];
    var ws := [Window(0, 1, true), Window(0, 1, true)];
    assert Windows(q, size) == ws;
    SlicesAt(q, ws, 0);
    SlicesAt(q, ws, 1);
  }

  /** A JSON size that grows by 40000 bytes per event. */
  function FortyKilobytesEach(s: seq<int>): nat {
    |s| * 40000
  }

  /** The batch cut after an overflow is never checked, and can be over the limit. */
  lemma BatchOverLimit()
    ensures Batches([1, 2, 3], FortyKilobytesEach) == [[1], [1, 2], [2]]
    ensures FortyKilobytesEach([1, 2]) > MaxBeaconBytes
  {
    var q, size := [1, 2, 3], FortyKilobytesEach;
    assert q[0..2] == [1, 2] && q[0..3] == q && q[1..3] == [2, 3];
    assert q[0..1] == [1] && q[1..2] == [2];
    assert Emitted(q, size, 0, 0) == Some(Window(0, 1, true));
    assert Emitted(q, size, 1, 0) == Some(Window(0, 2, true));
    assert Emitted(q, size, 2, 1) == Some(Window(1, 2, true));
    var ws := [Window(0, 1, true), Window(0, 2, true), Window(1, 2, true)];
    assert WindowsFrom(q, size, 2, 1) == ws[2..];
    assert WindowsFrom(q, size, 1, 0) == ws[1..];
    assert Windows(q, size) == ws;
    SlicesAt(q, ws, 0);
    SlicesAt(q, ws, 1);
    SlicesAt(q, ws, 2);
  }
}
