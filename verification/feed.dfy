/**
 The home table as a state machine: the coin list plus the flash-clear timers
 that are scheduled but have not fired yet.

 Every message whose symbol resolves schedules one clear for its coin id, also
 when the price did not change and also when a clear for that id is already
 pending. Timers are never cancelled, and since they all share one delay they
 fire in the order they were scheduled, so `pending` is a first-in first-out
 queue. Consequently an older timer can clear the flash of a newer tick early.
 */
module HomeFeed {
  import opened Wrappers
  import opened Coins
  import opened SymbolResolver
  import opened Reconcile

  /** The `data` part of a decoded trade message: pair symbol `s` and price `p`. */
  datatype Trade = Trade(s: string, p: real)

  /** A decoded stream message; `data` is absent on messages that carry no trade. */
  datatype Message = Message(data: Option<Trade>)

  /** `pending` holds the coin ids of the scheduled clears, oldest first; each
      clear fires 1200 ms after the tick that scheduled it. */
  datatype State = State(coins: seq<Coin>, pending: seq<string>)

  /** What can happen next: a message arrives (with the jitter draws the update
      would make), or the oldest scheduled clear fires. */
  datatype Event = Received(msg: Message, draws: seq<real>) | TimerFired

  predicate EventOk(e: Event, n: nat)
  {
    e.Received? ==> ValidDraws(e.draws, n)
  }

  /** Each flash on screen is backed by a scheduled clear for its coin. */
  predicate FlashBacked(st: State)
  {
    forall i :: 0 <= i < |st.coins| && st.coins[i].flash.Some? ==> st.coins[i].data.id in st.pending
  }

  /** The state the table mounts with. */
  function Init(snapshot: seq<CoinData>): (st: State)
    ensures |st.coins| == |snapshot|
    ensures forall i :: 0 <= i < |snapshot| ==> st.coins[i].data == snapshot[i]
    ensures NoFlash(st.coins) && st.pending == []
    ensures FlashBacked(st)
  {
    State(FromSnapshot(snapshot), [])
  }

  /** The coin id a message concerns, if it carries a trade for a tracked pair. */
  function MatchedId(msg: Message): (r: Option<string>)
    ensures r.Some? <==> msg.data.Some? && Resolve(msg.data.value.s).Some?
    ensures r.Some? ==> r == Resolve(msg.data.value.s) && r.value in TrackedIds
  {
    if msg.data.None? then None else Resolve(msg.data.value.s)
  }

  /** The message handler: update the matched coin, then schedule its clear. */
  function OnMessage(st: State, msg: Message, draws: seq<real>): (r: State)
    requires ValidDraws(draws, |st.coins|)
    // no trade, or an untracked symbol: nothing changes and nothing is scheduled
    ensures MatchedId(msg).None? ==> r == st
    // a tracked symbol: the tick is applied and exactly one more clear is scheduled
    // for its id, behind every clear already pending
    ensures MatchedId(msg).Some? ==>
      && r.coins == ApplyTick(st.coins, MatchedId(msg).value, msg.data.value.p, draws)
      && |r.pending| == |st.pending| + 1
      && r.pending[..|st.pending|] == st.pending
      && multiset(r.pending) == multiset(st.pending) + multiset{MatchedId(msg).value}
    ensures Ids(r.coins) == Ids(st.coins)
    ensures FlashBacked(st) ==> FlashBacked(r)
  {
    match MatchedId(msg)
    case None => st
    case Some(id) =>
      var coins := ApplyTick(st.coins, id, msg.data.value.p, draws);
      State(coins, st.pending + [id])
  }

  /** The oldest scheduled clear fires and removes the flash of its coin. */
  function OnTimer(st: State): (r: State)
    requires |st.pending| > 0
    ensures r.coins == ClearFlash(st.coins, st.pending[0])
    ensures multiset(r.pending) + multiset{st.pending[0]} == multiset(st.pending)
    ensures |r.pending| == |st.pending| - 1
    ensures Ids(r.coins) == Ids(st.coins)
    ensures FlashBacked(st) ==> FlashBacked(r)
  {
    assert st.pending == [st.pending[0]] + st.pending[1..];
    var r := State(ClearFlash(st.coins, st.pending[0]), st.pending[1..]);
    assert FlashBacked(st) ==> FlashBacked(r) by {
      if FlashBacked(st) {
        forall i | 0 <= i < |r.coins| && r.coins[i].flash.Some?
          ensures r.coins[i].data.id in r.pending
        {
          assert st.coins[i].data.id != st.pending[0];
        }
      }
    }
    r
  }

  /** One event; a timer event with no clear pending changes nothing. */
  function Step(st: State, e: Event): (r: State)
    requires EventOk(e, |st.coins|)
    ensures |r.coins| == |st.coins|
    ensures Ids(r.coins) == Ids(st.coins)
    ensures FlashBacked(st) ==> FlashBacked(r)
    ensures forall i :: 0 <= i < |st.coins| ==> r.coins[i].data.totalVolume >= st.coins[i].data.totalVolume
  {
    match e
    case Received(msg, draws) => OnMessage(st, msg, draws)
    case TimerFired => if |st.pending| == 0 then st else OnTimer(st)
  }

  predicate EventsOk(events: seq<Event>, n: nat)
  {
    forall k :: 0 <= k < |events| ==> EventOk(events[k], n)
  }

  /** The state after a sequence of events. */
  function Run(st: State, events: seq<Event>): (r: State)
    requires EventsOk(events, |st.coins|)
    decreases |events|
  {
    if |events| == 0 then st else Run(Step(st, events[0]), events[1..])
  }

  /** Over any run the coin list keeps its length, order and ids: ticks never
      create, remove or re-identify coins. */
  lemma {:induction false} RunKeepsIds(st: State, events: seq<Event>)
    requires EventsOk(events, |st.coins|)
    ensures Ids(Run(st, events).coins) == Ids(st.coins)
    ensures |Run(st, events).coins| == |st.coins|
    decreases |events|
  {
    if |events| > 0 {
      RunKeepsIds(Step(st, events[0]), events[1..]);
    }
  }

  /** Over any run no coin's volume decreases. */
  lemma {:induction false} RunVolumeMonotone(st: State, events: seq<Event>)
    requires EventsOk(events, |st.coins|)
    ensures |Run(st, events).coins| == |st.coins|
    ensures forall i :: 0 <= i < |st.coins| ==>
      Run(st, events).coins[i].data.totalVolume >= st.coins[i].data.totalVolume
    decreases |events|
  {
    if |events| > 0 {
      var next := Step(st, events[0]);
      RunVolumeMonotone(next, events[1..]);
    }
  }

  /** From the initial state, every flash is backed by a pending clear after any run. */
  lemma {:induction false} RunFlashBacked(st: State, events: seq<Event>)
    requires EventsOk(events, |st.coins|)
    requires FlashBacked(st)
    ensures FlashBacked(Run(st, events))
    decreases |events|
  {
    if |events| > 0 {
      RunFlashBacked(Step(st, events[0]), events[1..]);
    }
  }

  /** Let every scheduled clear fire, with no further messages. */
  function Drain(st: State): (r: State)
    ensures r.pending == []
    ensures Ids(r.coins) == Ids(st.coins)
    decreases |st.pending|
  {
    if |st.pending| == 0 then st else Drain(OnTimer(st))
  }

  /** Once the pending clears have fired, no coin is flashing: every highlight
      expires when the ticks stop. */
  lemma {:induction false} DrainClearsEveryFlash(st: State)
    requires FlashBacked(st)
    ensures NoFlash(Drain(st).coins)
    ensures forall i :: 0 <= i < |st.coins| ==> Drain(st).coins[i].data == st.coins[i].data
    decreases |st.pending|
  {
    if |st.pending| > 0 {
      DrainClearsEveryFlash(OnTimer(st));
    }
  }
}
