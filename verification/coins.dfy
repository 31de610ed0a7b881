/**
 The coin records of the home table: the snapshot shape `CoinData` fetched by the
 page, and the table's own record, which adds the transient price flash.
 Prices, volumes and percentages are idealised as `real`.
 */
module Coins {
  import opened Wrappers

  /** The snapshot record of one coin. The three percentage windows may be
      missing (`null`) in the market data, which the tick update treats as 0. */
  datatype CoinData = CoinData(
    marketCapRank: int,
    id: string,
    name: string,
    circulatingSupply: real,
    maxSupply: Option<real>,
    symbol: string,
    image: string,
    marketCap: real,
    change1h: Option<real>,
    change24h: Option<real>,
    change7d: Option<real>,
    currentPrice: real,
    totalVolume: real,
    sparkline: seq<real>)

  /** Colour of the transient highlight after a price move. */
  datatype Flash = Green | Red

  /** One row of the home table: the snapshot record plus its flash (`None` is `null`). */
  datatype Coin = Coin(data: CoinData, flash: Option<Flash>)

  /** The ids of a coin list, position by position. */
  function Ids(coins: seq<Coin>): (ids: seq<string>)
    ensures |ids| == |coins|
    ensures forall i :: 0 <= i < |coins| ==> ids[i] == coins[i].data.id
  {
    seq(|coins|, i requires 0 <= i < |coins| => coins[i].data.id)
  }

  predicate NoFlash(coins: seq<Coin>)
  {
    forall i :: 0 <= i < |coins| ==> coins[i].flash == None
  }

  /** The table's initial state: every snapshot record, in order, without a flash. */
  function FromSnapshot(snapshot: seq<CoinData>): (coins: seq<Coin>)
    ensures |coins| == |snapshot|
    ensures forall i :: 0 <= i < |snapshot| ==> coins[i].data == snapshot[i]
    ensures NoFlash(coins)
  {
    seq(|snapshot|, i requires 0 <= i < |snapshot| => Coin(snapshot[i], None))
  }
}
