/**
 Concrete runs of the home-table state machine on a one-coin table.
 */
module FeedScenarios {
  import opened Wrappers
  import opened Coins
  import opened SymbolResolver
  import opened Reconcile
  import opened HomeFeed

  function BitcoinAt(price: real): CoinData
  {
    CoinData(1, "bitcoin", "Bitcoin", 19000000.0, Some(21000000.0), "btc", "",
             950000000000.0, Some(0.5), None, Some(-2.0), price, 1000.0, [])
  }

  function TradeMsg(symbol: string, price: real): Message
  {
    Message(Some(Trade(symbol, price)))
  }

  lemma BtcUsdtResolves()
    ensures Resolve("btcusdt") == Some("bitcoin")
    ensures Resolve("BTCUSDT") == Some("bitcoin")
  {
    ResolveSymbolFor("bitcoin");
    assert ToLower("BTCUSDT") == "btcusdt";
  }

  /** A rise from 50000 to 50100: the price is taken over, the coin flashes green,
      its volume grows by 100 * 12000 * m, and one clear is scheduled; when that
      clear fires the flash is gone. */
  lemma RisingTickThenExpiry(m: real)
    requires ValidJitter(m)
    ensures var st := Init([BitcoinAt(50000.0)]);
      var s1 := OnMessage(st, TradeMsg("btcusdt", 50100.0), [m]);
      && s1.coins[0].data.currentPrice == 50100.0
      && s1.coins[0].flash == Some(Green)
      && 1080000.0 <= s1.coins[0].data.totalVolume - 1000.0 <= 1320000.0
      && s1.pending == ["bitcoin"]
      && OnTimer(s1).coins[0].flash == None
      && OnTimer(s1).pending == []
  {
    BtcUsdtResolves();
  }

  /** A trade for an untracked pair changes nothing and schedules nothing. */
  lemma UntrackedSymbolIgnored(m: real)
    requires ValidJitter(m)
    ensures var st := Init([BitcoinAt(50000.0)]);
      OnMessage(st, TradeMsg("dogeusdt", 0.1), [m]) == st
  {
    assert ToLower("dogeusdt") == "dogeusdt";
  }

  /** A tick at the unchanged price leaves the coin alone but still schedules a clear. */
  lemma UnchangedPriceStillSchedules(m: real)
    requires ValidJitter(m)
    ensures var st := Init([BitcoinAt(50000.0)]);
      var s1 := OnMessage(st, TradeMsg("btcusdt", 50000.0), [m]);
      s1.coins == st.coins && s1.pending == ["bitcoin"]
  {
    BtcUsdtResolves();
  }

  /** Timers stack rather than restart: after a rise and then a fall, the rise's
      clear fires first and removes the red flash of the later fall while the
      fall's own clear is still pending. */
  lemma OlderTimerClearsNewerFlash(m1: real, m2: real)
    requires ValidJitter(m1) && ValidJitter(m2)
    ensures var st := Init([BitcoinAt(50000.0)]);
      var s1 := OnMessage(st, TradeMsg("btcusdt", 50100.0), [m1]);
      var s2 := OnMessage(s1, TradeMsg("BTCUSDT", 50050.0), [m2]);
      var s3 := OnTimer(s2);
      && s2.coins[0].flash == Some(Red)
      && s2.pending == ["bitcoin", "bitcoin"]
      && s3.coins[0].flash == None
      && s3.pending == ["bitcoin"]
  {
    BtcUsdtResolves();
  }
}
