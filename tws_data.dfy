/** The sequential bookkeeping of the TWS market-data service
    (src/tbot/services/tws_data_service.py): the subscription set and command queue filled by
    the caller, the worker's draining of that queue into contracts and cached quotes, and the
    per-field merge of ticker updates. The broker connection, the worker thread and the lock are
    replaced by explicit inputs: how a connection attempt ends, which symbols the broker can
    qualify, and the clock reading. */
module TwsData {
  import opened Wrappers
  import opened Num
  import opened Text
  import opened Clock

  /** A queued command for the worker. */
  datatype Command = Subscribe(symbol: string) | Unsubscribe(symbol: string) | Stop

  /** `StockData`: the cached quote of one symbol. */
  datatype StockData = StockData(
    symbol: string, price: real, bid: real, ask: real, high: real, low: real, open: real,
    close: real, volume: int, vwap: real, exchange: string, updatedAt: Instant)

  /** A fresh quote: every number 0. */
  function Fresh(symbol: string, exchange: string, now: Instant): StockData {
    StockData(symbol, 0.0, 0.0, 0.0, 0.0, 0.0, 0.0, 0.0, 0, 0.0, exchange, now)
  }

  /** The fields of an ib_insync ticker the service reads; `None` where the ticker has no value. */
  datatype Ticker = Ticker(
    last: Option<real>, close: Option<real>, bid: Option<real>, ask: Option<real>,
    high: Option<real>, low: Option<real>, open: Option<real>, volume: Option<real>,
    vwap: Option<real>)

  function Pick(field: Option<real>, current: real): real {
    if field.Some? then field.value else current
  }

  /** The update of `_on_ticker_update`: the price is the last trade when positive, else the
      close when present; every other field is overwritten only when the ticker has it. */
  function Merge(d: StockData, t: Ticker, now: Instant): (r: StockData)
    ensures r.symbol == d.symbol && r.exchange == d.exchange && r.updatedAt == now
    ensures t.last.Some? && t.last.value > 0.0 ==> r.price == t.last.value
    ensures !(t.last.Some? && t.last.value > 0.0) && t.close.Some? ==> r.price == t.close.value
    ensures !(t.last.Some? && t.last.value > 0.0) && t.close.None? ==> r.price == d.price
    ensures t.volume.Some? ==> r.volume == Trunc(t.volume.value)
    ensures t.volume.None? ==> r.volume == d.volume
    ensures r.bid == (if t.bid.Some? then t.bid.value else d.bid)
    ensures r.ask == (if t.ask.Some? then t.ask.value else d.ask)
    ensures r.high == (if t.high.Some? then t.high.value else d.high)
    ensures r.low == (if t.low.Some? then t.low.value else d.low)
    ensures r.open == (if t.open.Some? then t.open.value else d.open)
    ensures r.close == (if t.close.Some? then t.close.value else d.close)
    ensures r.vwap == (if t.vwap.Some? then t.vwap.value else d.vwap)
  {
    var price :=
      if t.last.Some? && t.last.value > 0.0 then t.last.value
      else if t.close.Some? then t.close.value
      else d.price;
    d.(price := price, bid := Pick(t.bid, d.bid), ask := Pick(t.ask, d.ask), high := Pick(t.high, d.high),
       low := Pick(t.low, d.low), open := Pick(t.open, d.open), close := Pick(t.close, d.close),
       volume := if t.volume.Some? then Trunc(t.volume.value) else d.volume,
       vwap := Pick(t.vwap, d.vwap), updatedAt := now)
  }

  /** Applying the same ticker twice is applying it once. */
  lemma MergeIdempotent(d: StockData, t: Ticker, now: Instant)
    ensures Merge(Merge(d, t, now), t, now) == Merge(d, t, now)
  {
  }

  /** A ticker with no values only refreshes the time stamp. */
  lemma MergeEmpty(d: StockData, now: Instant)
    ensures Merge(d, Ticker(None, None, None, None, None, None, None, None, None), now) == d.(updatedAt := now)
  {
  }

  // ----- the caller's side: subscription set and queue -----

  /** `subscribe` on values, one symbol at a time: the check is on the symbol as given, the
      command and the set entry use its upper-case form. */
  function SubscribeAll(subscribed: set<string>, queue: seq<Command>, symbols: seq<string>): (r: (seq<Command>, set<string>))
    ensures queue <= r.0 && |r.0| <= |queue| + |symbols|
    ensures subscribed <= r.1
  {
    if symbols == [] then (queue, subscribed)
    else
      var (q, s) := SubscribeAll(subscribed, queue, symbols[..|symbols| - 1]);
      var x := symbols[|symbols| - 1];
      if x !in s then (q + [Subscribe(Upper(x))], s + {Upper(x)}) else (q, s)
  }

  /** `unsubscribe` on values: upper-case first, then act only on a subscribed symbol. */
  function UnsubscribeAll(subscribed: set<string>, queue: seq<Command>, symbols: seq<string>): (r: (seq<Command>, set<string>))
    ensures queue <= r.0 && r.1 <= subscribed
    ensures |r.0| - |queue| == |subscribed| - |r.1| <= |symbols|
  {
    if symbols == [] then (queue, subscribed)
    else
      var (q, s) := UnsubscribeAll(subscribed, queue, symbols[..|symbols| - 1]);
      var x := Upper(symbols[|symbols| - 1]);
      if x in s then (q + [Unsubscribe(x)], s - {x}) else (q, s)
  }

  function UpperSet(symbols: seq<string>): set<string> {
    set x | x in symbols :: Upper(x)
  }

  /** Subscribing adds the upper-case forms to the set and only appends subscribe commands for
      upper-case symbols. */
  lemma {:induction false} SubscribeAllSpec(subscribed: set<string>, queue: seq<Command>, symbols: seq<string>)
    requires forall y :: y in subscribed ==> AllUpper(y)
    ensures SubscribeAll(subscribed, queue, symbols).1 == subscribed + UpperSet(symbols)
    ensures |queue| <= |SubscribeAll(subscribed, queue, symbols).0|
    ensures SubscribeAll(subscribed, queue, symbols).0[..|queue|] == queue
    ensures forall k :: |queue| <= k < |SubscribeAll(subscribed, queue, symbols).0| ==>
      var c := SubscribeAll(subscribed, queue, symbols).0[k];
      c.Subscribe? && AllUpper(c.symbol) && c.symbol in UpperSet(symbols)
  {
    if symbols != [] {
      var init := symbols[..|symbols| - 1];
      var x := symbols[|symbols| - 1];
      SubscribeAllSpec(subscribed, queue, init);
      UpperIsUpper(x);
      assert symbols == init + [x];
      assert UpperSet(symbols) == UpperSet(init) + {Upper(x)};
      var (q, s) := SubscribeAll(subscribed, queue, init);
      var r := SubscribeAll(subscribed, queue, symbols);
      assert s == subscribed + UpperSet(init);
      if x in s {
        if x in subscribed {
          UpperOfUpper(x);
        } else {
          var y :| y in init && Upper(y) == x;
          UpperIsUpper(y);
          UpperOfUpper(x);
        }
      }
      if x !in s {
        assert r.1 == s + {Upper(x)};
        assert r.0 == q + [Subscribe(Upper(x))];
        assert r.0[..|q|] == q;
        assert r.0[..|queue|] == q[..|queue|];
        forall k | |queue| <= k < |r.0|
          ensures r.0[k].Subscribe? && AllUpper(r.0[k].symbol) && r.0[k].symbol in UpperSet(symbols)
        {
          if k < |q| {
            assert r.0[k] == q[k];
          }
        }
      }
    }
  }

  /** Unsubscribing removes the upper-case forms from the set. */
  lemma {:induction false} UnsubscribeAllSpec(subscribed: set<string>, queue: seq<Command>, symbols: seq<string>)
    ensures UnsubscribeAll(subscribed, queue, symbols).1 == subscribed - UpperSet(symbols)
  {
    if symbols != [] {
      var init := symbols[..|symbols| - 1];
      var x := symbols[|symbols| - 1];
      UnsubscribeAllSpec(subscribed, queue, init);
      assert symbols == init + [x];
      assert UpperSet(symbols) == UpperSet(init) + {Upper(x)};
    }
  }

  /** A symbol given in lower case is checked as given but stored upper-cased, so asking twice
      queues two subscriptions; given in upper case it is queued once. */
  lemma SubscribeRepeats()
    ensures SubscribeAll({}, [], ["aapl", "aapl"]).0 == [Subscribe("AAPL"), Subscribe("AAPL")]
    ensures SubscribeAll({}, [], ["AAPL", "AAPL"]).0 == [Subscribe("AAPL")]
  {
    assert Upper("aapl") == "AAPL";
    assert Upper("AAPL") == "AAPL";
    assert ["aapl", "aapl"][..1] == ["aapl"];
    assert ["AAPL", "AAPL"][..1] == ["AAPL"];
  }

  /** Subscribing upper-case symbols that were not subscribed, then unsubscribing them, restores
      the subscription set. */
  lemma SubscribeThenUnsubscribe(subscribed: set<string>, queue: seq<Command>, symbols: seq<string>)
    requires forall y :: y in subscribed ==> AllUpper(y)
    requires forall k :: 0 <= k < |symbols| ==> symbols[k] !in subscribed
    requires forall k :: 0 <= k < |symbols| ==> AllUpper(symbols[k])
    ensures var (q, s) := SubscribeAll(subscribed, queue, symbols);
            UnsubscribeAll(s, q, symbols).1 == subscribed
  {
    var (q, s) := SubscribeAll(subscribed, queue, symbols);
    SubscribeAllSpec(subscribed, queue, symbols);
    UnsubscribeAllSpec(s, q, symbols);
    forall x | x in UpperSet(symbols) ensures x !in subscribed {
      var k :| 0 <= k < |symbols| && Upper(symbols[k]) == x;
      UpperOfUpper(symbols[k]);
    }
  }

  // ----- the worker's side: contracts and cached quotes -----

  /** What the worker holds: the qualified contracts (their exchange) and the cached quotes. */
  datatype Feed = Feed(contracts: map<string, string>, data: map<string, StockData>)

  /** Every qualified contract has a cached quote. */
  predicate Covered(f: Feed) {
    f.contracts.Keys <= f.data.Keys
  }

  /** One command as `_process_commands` runs it. `qualify` gives the exchange of each symbol
      the broker can qualify. A known contract is not subscribed again; an unknown one is not
      unsubscribed; `Stop` leaves the feed alone. */
  function Apply(f: Feed, c: Command, qualify: map<string, string>, now: Instant): (r: Feed)
    ensures Covered(f) ==> Covered(r)
    ensures c.Subscribe? && c.symbol in f.contracts ==> r == f
    ensures c.Subscribe? && c.symbol !in f.contracts && c.symbol in qualify ==>
      r.contracts == f.contracts[c.symbol := qualify[c.symbol]] && r.data == f.data[c.symbol := Fresh(c.symbol, qualify[c.symbol], now)]
    ensures c.Unsubscribe? ==> c.symbol !in r.contracts && (c.symbol in f.contracts ==> c.symbol !in r.data)
    ensures c.Unsubscribe? && c.symbol !in f.contracts ==> r == f
  {
    match c
    case Stop => f
    case Subscribe(s) =>
      if s in f.contracts || s !in qualify then f
      else Feed(f.contracts[s := qualify[s]], f.data[s := Fresh(s, qualify[s], now)])
    case Unsubscribe(s) =>
      if s !in f.contracts then f
      else Feed(f.contracts - {s}, f.data - {s})
  }

  /** Draining the queue in order: a contract afterwards was there before or was subscribed by
      the queue, and one that was there stays unless the queue unsubscribes it. */
  function Drain(f: Feed, queue: seq<Command>, qualify: map<string, string>, now: Instant): (r: Feed)
    ensures forall s :: s in r.contracts ==> s in f.contracts || Subscribe(s) in queue
    ensures forall s :: s in f.contracts && Unsubscribe(s) !in queue ==> s in r.contracts
    decreases |queue|
  {
    if queue == [] then f else Drain(Apply(f, queue[0], qualify, now), queue[1..], qualify, now)
  }

  lemma {:induction false} DrainCovered(f: Feed, queue: seq<Command>, qualify: map<string, string>, now: Instant)
    requires Covered(f)
    ensures Covered(Drain(f, queue, qualify, now))
    decreases |queue|
  {
    if queue != [] {
      DrainCovered(Apply(f, queue[0], qualify, now), queue[1..], qualify, now);
    }
  }

  /** A stop in the middle of the queue does not cut the pass short: the commands after it are
      applied just as if it were not there. */
  lemma {:induction false} StopDoesNotCut(f: Feed, before: seq<Command>, after: seq<Command>,
                                          qualify: map<string, string>, now: Instant)
    ensures Drain(f, before + [Stop] + after, qualify, now) == Drain(f, before + after, qualify, now)
    decreases |before|
  {
    if before == [] {
      var q := before + [Stop] + after;
      assert q[0] == Stop && q[1..] == after && before + after == after;
      assert Drain(f, q, qualify, now) == Drain(Apply(f, Stop, qualify, now), after, qualify, now);
    } else {
      assert (before + [Stop] + after)[0] == before[0];
      assert (before + [Stop] + after)[1..] == before[1..] + [Stop] + after;
      assert (before + after)[1..] == before[1..] + after;
      StopDoesNotCut(Apply(f, before[0], qualify, now), before[1..], after, qualify, now);
    }
  }

  /** Subscribing a qualifiable symbol and then unsubscribing it leaves neither a contract nor a
      quote for it. */
  lemma SubscribeUnsubscribeDrops(f: Feed, s: string, qualify: map<string, string>, now: Instant)
    requires s !in f.contracts && s in qualify
    ensures var g := Drain(f, [Subscribe(s), Unsubscribe(s)], qualify, now);
            s !in g.contracts && s !in g.data
            && g.contracts == f.contracts && g.data == f.data - {s}
  {
    var q := [Subscribe(s), Unsubscribe(s)];
    var f1 := Apply(f, Subscribe(s), qualify, now);
    var f2 := Apply(f1, Unsubscribe(s), qualify, now);
    assert q[1..] == [Unsubscribe(s)] && q[1..][1..] == [];
    assert Drain(f1, [Unsubscribe(s)], qualify, now) == Drain(f2, [], qualify, now);
    assert f2.contracts == f.contracts;
    assert f2.data == f.data - {s};
  }

  /** How the worker's connection attempt ends, as `start` observes it while polling. */
  datatype ConnectOutcome = Connected | Failed(message: string) | TimedOut

  datatype ServiceError = ConnectError(message: string) | ConnectTimeout

  /** `TWSDataService`, without the thread, the event loop and the lock. */
  class TwsDataService {
    var running: bool
    var connected: bool
    var error: Option<ServiceError>
    var queue: seq<Command>
    var subscribed: set<string>
    var contracts: map<string, string>
    var stockData: map<string, StockData>

    function FeedState(): Feed
      reads this
    {
      Feed(contracts, stockData)
    }

    /** Every qualified contract has a quote, and the subscription set holds upper-case symbols. */
    ghost predicate Valid()
      reads this
    {
      && Covered(FeedState())
      && forall y :: y in subscribed ==> AllUpper(y)
    }

    constructor ()
      ensures Valid()
      ensures !running && !connected && error == None
      ensures queue == [] && subscribed == {} && contracts == map[] && stockData == map[]
    {
      running := false;
      connected := false;
      error := None;
      queue := [];
      subscribed := {};
      contracts := map[];
      stockData := map[];
    }

    /** `start`: already running answers true at once and changes nothing; otherwise the service
        is marked running and the outcome of the connection decides the answer. A failed or
        timed-out start stays marked running. */
    method Start(outcome: ConnectOutcome) returns (ok: bool)
      requires Valid()
      modifies this
      ensures Valid()
      ensures old(running) ==> ok && running == old(running) && connected == old(connected) && error == old(error)
      ensures !old(running) ==> running
      ensures !old(running) ==> (ok <==> outcome.Connected?)
      ensures !old(running) && outcome.Connected? ==> connected && error == None
      ensures !old(running) && outcome.Failed? ==> error == Some(ConnectError(outcome.message)) && connected == old(connected)
      ensures !old(running) && outcome.TimedOut? ==> error == Some(ConnectTimeout) && connected == old(connected)
      ensures queue == old(queue) && subscribed == old(subscribed) && FeedState() == old(FeedState())
    {
      if running {
        return true;
      }
      running := true;
      error := None;
      match outcome
      case Connected =>
        connected := true;
        ok := true;
      case Failed(m) =>
        error := Some(ConnectError(m));
        ok := false;
      case TimedOut =>
        error := Some(ConnectTimeout);
        ok := false;
    }

    /** `stop`: a no-op when not running; otherwise it clears the flags and queues a stop. */
    method Stop()
      requires Valid()
      modifies this
      ensures Valid()
      ensures !old(running) ==> running == old(running) && connected == old(connected) && queue == old(queue)
      ensures old(running) ==> !running && !connected && queue == old(queue) + [Command.Stop]
      ensures error == old(error) && subscribed == old(subscribed) && FeedState() == old(FeedState())
    {
      if !running {
        return;
      }
      running := false;
      queue := queue + [Command.Stop];
      connected := false;
    }

    /** `subscribe`. */
    method SubscribeSymbols(symbols: seq<string>)
      requires Valid()
      modifies this
      ensures Valid()
      ensures (queue, subscribed) == SubscribeAll(old(subscribed), old(queue), symbols)
      ensures running == old(running) && connected == old(connected) && error == old(error)
      ensures FeedState() == old(FeedState())
    {
      var i := 0;
      while i < |symbols|
        invariant 0 <= i <= |symbols|
        invariant (queue, subscribed) == SubscribeAll(old(subscribed), old(queue), symbols[..i])
        invariant Valid()
        invariant running == old(running) && connected == old(connected) && error == old(error)
        invariant FeedState() == old(FeedState())
      {
        var symbol := symbols[i];
        assert symbols[..i + 1][..i] == symbols[..i];
        if symbol !in subscribed {
          UpperIsUpper(symbol);
          queue := queue + [Subscribe(Upper(symbol))];
          subscribed := subscribed + {Upper(symbol)};
        }
        i := i + 1;
      }
      assert symbols[..i] == symbols;
    }

    /** `unsubscribe`. */
    method UnsubscribeSymbols(symbols: seq<string>)
      requires Valid()
      modifies this
      ensures Valid()
      ensures (queue, subscribed) == UnsubscribeAll(old(subscribed), old(queue), symbols)
      ensures running == old(running) && connected == old(connected) && error == old(error)
      ensures FeedState() == old(FeedState())
    {
      var i := 0;
      while i < |symbols|
        invariant 0 <= i <= |symbols|
        invariant (queue, subscribed) == UnsubscribeAll(old(subscribed), old(queue), symbols[..i])
        invariant Valid()
        invariant running == old(running) && connected == old(connected) && error == old(error)
        invariant FeedState() == old(FeedState())
      {
        var symbol := Upper(symbols[i]);
        assert symbols[..i + 1][..i] == symbols[..i];
        if symbol in subscribed {
          queue := queue + [Unsubscribe(symbol)];
          subscribed := subscribed - {symbol};
        }
        i := i + 1;
      }
      assert symbols[..i] == symbols;
    }

    /** `get_stock_data`: looked up under the upper-case symbol. */
    function GetStockData(symbol: string): (r: Option<StockData>)
      reads this
      ensures r.Some? <==> Upper(symbol) in stockData
      ensures r.Some? ==> r.value == stockData[Upper(symbol)]
    {
      if Upper(symbol) in stockData then Some(stockData[Upper(symbol)]) else None
    }

    /** `_process_commands`: drains the whole queue in order; a stop clears the running flag
        but the commands behind it still run in the same pass. */
    method ProcessCommands(qualify: map<string, string>, now: Instant)
      requires Valid()
      modifies this
      ensures Valid()
      ensures queue == []
      ensures FeedState() == Drain(old(FeedState()), old(queue), qualify, now)
      ensures running == (old(running) && Command.Stop !in old(queue))
      ensures connected == old(connected) && error == old(error) && subscribed == old(subscribed)
    {
      ghost var q0 := queue;
      ghost var n: nat := 0;
      while queue != []
        invariant Valid()
        invariant n <= |q0| && queue == q0[n..]
        invariant Drain(FeedState(), queue, qualify, now) == Drain(old(FeedState()), q0, qualify, now)
        invariant running == (old(running) && Command.Stop !in q0[..n])
        invariant connected == old(connected) && error == old(error) && subscribed == old(subscribed)
        decreases |queue|
      {
        var cmd := queue[0];
        assert q0[..n + 1] == q0[..n] + [cmd];
        queue := queue[1..];
        n := n + 1;
        match cmd
        case Stop =>
          running := false;
        case Subscribe(s) =>
          SubscribeSymbol(s, qualify, now);
        case Unsubscribe(s) =>
          UnsubscribeSymbol(s);
      }
      assert q0[..n] == q0;
    }

    /** `_subscribe_symbol`. */
    method SubscribeSymbol(symbol: string, qualify: map<string, string>, now: Instant)
      requires Valid()
      modifies this
      ensures Valid()
      ensures FeedState() == Apply(old(FeedState()), Subscribe(symbol), qualify, now)
      ensures running == old(running) && connected == old(connected) && error == old(error)
      ensures subscribed == old(subscribed) && queue == old(queue)
    {
      if symbol in contracts {
        return;
      }
      if symbol !in qualify {
        return;
      }
      contracts := contracts[symbol := qualify[symbol]];
      stockData := stockData[symbol := Fresh(symbol, qualify[symbol], now)];
    }

    /** `_unsubscribe_symbol`. */
    method UnsubscribeSymbol(symbol: string)
      requires Valid()
      modifies this
      ensures Valid()
      ensures FeedState() == Apply(old(FeedState()), Unsubscribe(symbol), map[], 0)
      ensures running == old(running) && connected == old(connected) && error == old(error)
      ensures subscribed == old(subscribed) && queue == old(queue)
    {
      if symbol !in contracts {
        return;
      }
      contracts := contracts - {symbol};
      stockData := stockData - {symbol};
    }

    /** `_on_ticker_update`: creates the entry when missing, then merges the ticker into it. */
    method OnTickerUpdate(symbol: string, ticker: Ticker, now: Instant)
      requires Valid()
      modifies this
      ensures Valid()
      ensures var base := if symbol in old(stockData) then old(stockData)[symbol] else Fresh(symbol, "", now);
              stockData == old(stockData)[symbol := Merge(base, ticker, now)]
      ensures contracts == old(contracts) && running == old(running) && connected == old(connected)
      ensures error == old(error) && subscribed == old(subscribed) && queue == old(queue)
    {
      if symbol !in stockData {
        stockData := stockData[symbol := Fresh(symbol, "", now)];
      }
      var data := stockData[symbol];
      stockData := stockData[symbol := Merge(data, ticker, now)];
    }
  }
}
