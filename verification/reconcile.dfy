/**
 The per-tick update of the home table's coin list and the delayed flash clear.
 A tick carries a resolved coin id and a new trade price. The three percentage
 windows are not recomputed from market data: each accepted tick nudges them by
 a small, sign-consistent, randomly jittered step, an intentional approximation.
 */
module Reconcile {
  import opened Wrappers
  import opened Coins

  /** Per-tick weights of the 1h, 24h and 7d windows: shorter windows move more. */
  const Weight1h: real := 0.04
  const Weight24h: real := 0.02
  const Weight7d: real := 0.01
  /** Volume added per unit of absolute price change, before jitter. */
  const VolumeScale: real := 12000.0

  /** The range of the multiplier `Math.random() * (1.1 - 0.9) + 0.9`. */
  predicate ValidJitter(m: real)
  {
    0.9 <= m <= 1.1
  }

  /** One jitter draw per coin position; only the draws of updated coins are used. */
  predicate ValidDraws(draws: seq<real>, n: nat)
  {
    |draws| == n && forall i :: 0 <= i < |draws| ==> ValidJitter(draws[i])
  }

  function Abs(x: real): real { if x < 0.0 then -x else x }

  /** How far a percentage field moved, a missing value counting as 0. */
  function Moved(before: Option<real>, after: Option<real>): real
  {
    after.GetOr(0.0) - before.GetOr(0.0)
  }

  /** The fields a tick never touches. */
  predicate SameStatic(a: CoinData, b: CoinData)
  {
    && a.marketCapRank == b.marketCapRank && a.id == b.id && a.name == b.name
    && a.circulatingSupply == b.circulatingSupply && a.maxSupply == b.maxSupply
    && a.symbol == b.symbol && a.image == b.image && a.marketCap == b.marketCap
    && a.sparkline == b.sparkline
  }

  /** `a * m` for a non-negative amount `a` and a jitter `m`: between 0.9 and
      1.1 times `a`. */
  function Jittered(a: real, m: real): (r: real)
    requires a >= 0.0 && ValidJitter(m)
    ensures 0.9 * a <= r <= 1.1 * a
  {
    var low := m - 0.9;
    var high := 1.1 - m;
    assert a * low >= 0.0;
    assert a * high >= 0.0;
    assert a * m - 0.9 * a == a * low;
    assert 1.1 * a - a * m == a * high;
    a * m
  }

  /** One window's nudge `(before ?? 0) + sign * weight * m`, with `sign` the
      direction of the price move. */
  function Nudge(before: Option<real>, sign: real, weight: real, m: real): (after: real)
    requires sign == 1.0 || sign == -1.0
    requires weight > 0.0 && ValidJitter(m)
    ensures after - before.GetOr(0.0) > 0.0 <==> sign == 1.0
    ensures 0.9 * weight <= Abs(after - before.GetOr(0.0)) <= 1.1 * weight
  {
    var base := before.GetOr(0.0);
    var step := Jittered(weight, m);
    var moved := if sign == 1.0 then step else -step;
    assert moved == sign * step;
    assert (base + moved) - base == moved;
    base + moved
  }

  /** The volume after a price move of `diff`: `volume + |diff| * 12000 * m`. */
  function GrowVolume(volume: real, diff: real, m: real): (v: real)
    requires diff != 0.0 && ValidJitter(m)
    ensures v > volume
    ensures 10800.0 * Abs(diff) <= v - volume <= 13200.0 * Abs(diff)
  {
    var added := VolumeScale * Jittered(Abs(diff), m);
    assert (volume + added) - volume == added;
    volume + added
  }

  /** The update of the one coin a tick matched, with jitter `m`. */
  function UpdateCoin(c: Coin, newPrice: real, m: real): (r: Coin)
    requires ValidJitter(m)
    ensures SameStatic(r.data, c.data)
    // an unchanged price leaves the coin exactly as it was
    ensures newPrice == c.data.currentPrice ==> r == c
    // a changed price is taken over and flashes green on a rise, red on a fall
    ensures newPrice != c.data.currentPrice ==>
      && r.data.currentPrice == newPrice
      && (r.flash == Some(Green) <==> newPrice > c.data.currentPrice)
      && (r.flash == Some(Red) <==> newPrice < c.data.currentPrice)
    // every window moves in the direction of the price, shorter windows further
    ensures newPrice != c.data.currentPrice ==>
      && r.data.change1h.Some? && r.data.change24h.Some? && r.data.change7d.Some?
      && (newPrice > c.data.currentPrice <==> Moved(c.data.change1h, r.data.change1h) > 0.0)
      && (newPrice > c.data.currentPrice <==> Moved(c.data.change24h, r.data.change24h) > 0.0)
      && (newPrice > c.data.currentPrice <==> Moved(c.data.change7d, r.data.change7d) > 0.0)
      && Abs(Moved(c.data.change1h, r.data.change1h)) > Abs(Moved(c.data.change24h, r.data.change24h))
      && Abs(Moved(c.data.change24h, r.data.change24h)) > Abs(Moved(c.data.change7d, r.data.change7d))
      && Abs(Moved(c.data.change7d, r.data.change7d)) > 0.0
    // all three windows share one jitter draw, so their steps keep the weights' 4:2:1 ratio
    ensures newPrice != c.data.currentPrice ==>
      && Moved(c.data.change1h, r.data.change1h) == 2.0 * Moved(c.data.change24h, r.data.change24h)
      && Moved(c.data.change24h, r.data.change24h) == 2.0 * Moved(c.data.change7d, r.data.change7d)
    // each window's step stays within its weight times the jitter range
    ensures newPrice != c.data.currentPrice ==>
      && 0.036 <= Abs(Moved(c.data.change1h, r.data.change1h)) <= 0.044
      && 0.018 <= Abs(Moved(c.data.change24h, r.data.change24h)) <= 0.022
      && 0.009 <= Abs(Moved(c.data.change7d, r.data.change7d)) <= 0.011
    // volume strictly grows, by 12000 times the jittered absolute price change
    ensures newPrice != c.data.currentPrice ==>
      && r.data.totalVolume > c.data.totalVolume
      && 10800.0 * Abs(newPrice - c.data.currentPrice)
           <= r.data.totalVolume - c.data.totalVolume
           <= 13200.0 * Abs(newPrice - c.data.currentPrice)
    ensures r.data.totalVolume >= c.data.totalVolume
  {
    var oldPrice := c.data.currentPrice;
    var diff := newPrice - oldPrice;
    if diff == 0.0 then c
    else
      var sign := if diff > 0.0 then 1.0 else -1.0;
      Coin(
        c.data.(
          currentPrice := newPrice,
          change1h := Some(Nudge(c.data.change1h, sign, Weight1h, m)),
          change24h := Some(Nudge(c.data.change24h, sign, Weight24h, m)),
          change7d := Some(Nudge(c.data.change7d, sign, Weight7d, m)),
          totalVolume := GrowVolume(c.data.totalVolume, diff, m)),
        if diff > 0.0 then Some(Green) else Some(Red))
  }

  /** The `prevCoins.map` of a tick for coin `id`: coins with that id are updated,
      each with its own jitter draw, and every other coin is kept as it is. */
  function ApplyTick(coins: seq<Coin>, id: string, newPrice: real, draws: seq<real>): (r: seq<Coin>)
    requires ValidDraws(draws, |coins|)
    ensures |r| == |coins|
    ensures Ids(r) == Ids(coins)
    ensures forall i :: 0 <= i < |coins| && coins[i].data.id != id ==> r[i] == coins[i]
    ensures forall i :: 0 <= i < |coins| && coins[i].data.id == id ==>
      r[i] == UpdateCoin(coins[i], newPrice, draws[i])
  {
    var r := seq(|coins|, i requires 0 <= i < |coins| =>
      if coins[i].data.id == id then UpdateCoin(coins[i], newPrice, draws[i]) else coins[i]);
    assert forall i :: 0 <= i < |coins| ==> Ids(r)[i] == Ids(coins)[i];
    r
  }

  /** The expiry of one flash timer: coins with id `id` lose their flash. */
  function ClearFlash(coins: seq<Coin>, id: string): (r: seq<Coin>)
    ensures |r| == |coins|
    ensures Ids(r) == Ids(coins)
    ensures forall i :: 0 <= i < |coins| ==> r[i].data == coins[i].data
    ensures forall i :: 0 <= i < |coins| && coins[i].data.id == id ==> r[i].flash == None
    ensures forall i :: 0 <= i < |coins| && coins[i].data.id != id ==> r[i] == coins[i]
  {
    var r := seq(|coins|, i requires 0 <= i < |coins| =>
      if coins[i].data.id == id then coins[i].(flash := None) else coins[i]);
    assert forall i :: 0 <= i < |coins| ==> Ids(r)[i] == Ids(coins)[i];
    r
  }

  /** A tick never lowers any coin's volume. */
  lemma ApplyTickVolumeMonotone(coins: seq<Coin>, id: string, newPrice: real, draws: seq<real>)
    requires ValidDraws(draws, |coins|)
    ensures forall i :: 0 <= i < |coins| ==>
      ApplyTick(coins, id, newPrice, draws)[i].data.totalVolume >= coins[i].data.totalVolume
  {
  }

  /** A tick at the matched coin's current price changes nothing. */
  lemma ApplyTickSamePrice(coins: seq<Coin>, id: string, newPrice: real, draws: seq<real>)
    requires ValidDraws(draws, |coins|)
    requires forall i :: 0 <= i < |coins| && coins[i].data.id == id ==> coins[i].data.currentPrice == newPrice
    ensures ApplyTick(coins, id, newPrice, draws) == coins
  {
    var r := ApplyTick(coins, id, newPrice, draws);
    assert forall i :: 0 <= i < |coins| ==> r[i] == coins[i];
  }

  /** Clearing a flash twice is the same as clearing it once. */
  lemma ClearFlashIdempotent(coins: seq<Coin>, id: string)
    ensures ClearFlash(ClearFlash(coins, id), id) == ClearFlash(coins, id)
  {
    var once := ClearFlash(coins, id);
    var twice := ClearFlash(once, id);
    assert forall i :: 0 <= i < |coins| ==> twice[i] == once[i];
  }
}
