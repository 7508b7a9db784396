/**
  The sampling gate: an auction is reported when the hash of its id is a
  multiple of the sampling rate.
 */
module Sampling {

  /** The rate every caller in the adapter uses. */
  const DefaultSamplingRate: int := 1

  function Abs(x: int): nat {
    if x < 0 then -x else x
  }

  /** `shouldFireEventRequest(auctionId, rate)`: `hash % rate === 0`, with
      JavaScript's `%` (whose result takes the sign of the dividend, never
      negative here) and a rate of 0 giving NaN, which is never `=== 0`.
      The decision depends on nothing but the hash of the id and the rate. */
  function ShouldFire(hash: string -> nat, auctionId: string, rate: int): (fire: bool)
    ensures rate == 0 ==> !fire
    ensures Abs(rate) == 1 ==> fire
    ensures fire <==>
      rate != 0 && hash(auctionId) == (hash(auctionId) / Abs(rate)) * Abs(rate)
  {
    if rate == 0 then false
    else
      var h, r := hash(auctionId), Abs(rate);
      assert h == (h / r) * r + h % r;
      h % r == 0
  }
}
