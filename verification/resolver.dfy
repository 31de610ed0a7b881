/**
 Resolution of an exchange trade-stream symbol (for example `BTCUSDT`) to the
 canonical coin id of the market snapshot. Matching ignores letter case; any
 symbol outside the six tracked pairs resolves to nothing and is ignored.
 */
module SymbolResolver {
  import opened Wrappers

  /** Lower-cases one ASCII letter; every other character is kept. */
  function LowerChar(c: char): char
  {
    if 'A' <= c <= 'Z' then (c as int + 32) as char else c
  }

  function ToLower(s: string): (r: string)
    ensures |r| == |s|
    ensures forall i :: 0 <= i < |s| ==> r[i] == LowerChar(s[i])
  {
    seq(|s|, i requires 0 <= i < |s| => LowerChar(s[i]))
  }

  /** The six lower-case pair symbols the resolver accepts. */
  const TrackedSymbols: set<string> :=
    {"btcusdt", "ethusdt", "bnbusdt", "xrpusdt", "adausdt", "solusdt"}

  /** The six coin ids it can return. */
  const TrackedIds: set<string> :=
    {"bitcoin", "ethereum", "binancecoin", "ripple", "cardano", "solana"}

  /** The streams the page subscribes to: `solusdt` is resolvable but never subscribed. */
  const SubscribedStreams: seq<string> :=
    ["btcusdt", "ethusdt", "bnbusdt", "xrpusdt", "adausdt"]

  /** The pair symbol of a tracked coin id: the inverse of `Resolve`. */
  function SymbolFor(id: string): (sym: string)
    requires id in TrackedIds
    ensures sym in TrackedSymbols
  {
    if id == "bitcoin" then "btcusdt"
    else if id == "ethereum" then "ethusdt"
    else if id == "binancecoin" then "bnbusdt"
    else if id == "ripple" then "xrpusdt"
    else if id == "cardano" then "adausdt"
    else "solusdt"
  }

  /** `getCoinIdBySymbol`: compares the lower-cased symbol against the six pairs. */
  function Resolve(symbol: string): (r: Option<string>)
    ensures r.Some? <==> ToLower(symbol) in TrackedSymbols
    ensures r.Some? ==> r.value in TrackedIds && SymbolFor(r.value) == ToLower(symbol)
  {
    var lower := ToLower(symbol);
    if lower == "btcusdt" then Some("bitcoin")
    else if lower == "ethusdt" then Some("ethereum")
    else if lower == "bnbusdt" then Some("binancecoin")
    else if lower == "xrpusdt" then Some("ripple")
    else if lower == "adausdt" then Some("cardano")
    else if lower == "solusdt" then Some("solana")
    else None
  }

  lemma ToLowerIdempotent(s: string)
    ensures ToLower(ToLower(s)) == ToLower(s)
  {
  }

  /** Resolution is case-insensitive: a symbol and its lower-cased form resolve alike. */
  lemma ResolveCaseInsensitive(s: string)
    ensures Resolve(s) == Resolve(ToLower(s))
  {
    ToLowerIdempotent(s);
  }

  /** Every tracked coin id is reached from its pair symbol, in any letter case. */
  lemma ResolveSymbolFor(id: string)
    requires id in TrackedIds
    ensures Resolve(SymbolFor(id)) == Some(id)
  {
    var sym := SymbolFor(id);
    assert ToLower(sym) == sym by {
      assert forall i :: 0 <= i < |sym| ==> 'a' <= sym[i] <= 'z';
    }
  }

  /** Two symbols that resolve to the same id are the same symbol up to letter case. */
  lemma ResolveInjective(a: string, b: string)
    requires Resolve(a).Some? && Resolve(a) == Resolve(b)
    ensures ToLower(a) == ToLower(b)
  {
  }

  /** Exactly six distinct coin ids can be returned. */
  lemma SixTrackedIds()
    ensures |TrackedIds| == 6
  {
  }

  /** Every subscribed stream resolves, but the `solana` coin receives no stream. */
  lemma SubscribedStreamsOmitSolana()
    ensures forall k :: 0 <= k < |SubscribedStreams| ==> Resolve(SubscribedStreams[k]).Some?
    ensures forall k :: 0 <= k < |SubscribedStreams| ==> Resolve(SubscribedStreams[k]) != Some("solana")
  {
  }
}
