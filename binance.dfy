/** The Binance market-stream monitor: per-frame decision logic and the
    in-memory state it keeps between frames (burst windows, order-wall
    cooldown history, volume baselines). Telegram sends become returned alerts. */
module Binance {
  import opened PyValues
  import opened Strings

  /** The burst window in milliseconds. It is written `60 * 100` in the source,
      although the configuration comment speaks of one minute. */
  const BurstWindowMs: int := 60 * 100
  /** Seconds during which a wall at the same (symbol, side, integer price) is not re-alerted. */
  const WallCooldownSeconds: real := 300.0
  /** Baseline stored when no candle history could be read for a symbol. */
  const BaselineSentinel: real := 99999999.0

  /** The environment-driven thresholds. `singleQty` is keyed by upper-case symbol. */
  datatype Config = Config(
    singleQty: map<string, real>,
    burstAmountUsd: real,
    burstCountTrigger: int,
    volumeMultiplier: real,
    wallThreshold: real)

  /** The configuration when no environment variable overrides a default. */
  function DefaultConfig(): Config {
    Config(map["BTCUSDT" := 1.0, "ETHUSDT" := 50.0], 100000.0, 1, 3.0, 5000000.0)
  }

  // ---------------------------------------------------------------- amounts

  datatype Unit = Millions | Thousands | Units
  /** An amount as `format_amount` shows it: a scaled value and a suffix ("M", "K" or none). */
  datatype Scaled = Scaled(value: real, unit: Unit)

  function Factor(u: Unit): real {
    match u
    case Millions => 1000000.0
    case Thousands => 1000.0
    case Units => 1.0
  }

  /** The unit bucket and scaled value of `format_amount`; the two-decimal
      rendering is not modelled. */
  function FormatAmount(amount: real): (r: Scaled)
    ensures r.value * Factor(r.unit) == amount
    ensures r.unit == Millions <==> amount >= 1000000.0
    ensures r.unit == Thousands <==> 1000.0 <= amount < 1000000.0
    ensures r.unit == Units <==> amount < 1000.0
    ensures r.unit != Units ==> r.value >= 1.0
    ensures r.unit == Thousands ==> r.value < 1000.0
  {
    if amount >= 1000000.0 then Scaled(amount / 1000000.0, Millions)
    else if amount >= 1000.0 then Scaled(amount / 1000.0, Thousands)
    else Scaled(amount, Units)
  }

  /** The three amounts the formatting tests check ("1.50M", "50.00K", "100.50"). */
  lemma FormatAmountExamples()
    ensures FormatAmount(1500000.0) == Scaled(1.5, Millions)
    ensures FormatAmount(50000.0) == Scaled(50.0, Thousands)
    ensures FormatAmount(100.5) == Scaled(100.5, Units)
  {
  }

  // ---------------------------------------------------------------- alerts

  datatype Side = Buy | Sell
  datatype BookSide = Bid | Ask

  datatype Alert =
    | LargeTrade(symbol: string, side: Side, qty: real, price: real, amountUsd: real, time: int)
    | BurstTrades(symbol: string, side: Side, count: nat, totalUsd: real, price: real)
    | VolumeSpike(symbol: string, volume: real, average: real, multiple: real, amountUsd: real, time: int)
    | OrderWall(symbol: string, bookSide: BookSide, price: real, amountUsd: real)

  function OptionToSeq<T>(o: Option<T>): seq<T> {
    if o.Some? then [o.value] else []
  }

  // ---------------------------------------------------------------- trades

  /** One aggregated trade: price, quantity, trade time in ms, buyer-is-maker flag. */
  datatype Trade = Trade(price: real, qty: real, time: int, buyerIsMaker: bool)

  /** `price * qty`, the trade's USD value. */
  function Notional(t: Trade): real {
    t.price * t.qty
  }

  /** A buyer-maker trade is an aggressive sell. */
  function TradeSide(t: Trade): Side {
    if t.buyerIsMaker then Sell else Buy
  }

  /** The single-trade rule: a threshold must be configured for the symbol and be
      truthy (non-zero), and the quantity must reach it. */
  function SingleTradeAlert(cfg: Config, symbol: string, t: Trade): (r: Option<Alert>)
    ensures r.Some? <==> symbol in cfg.singleQty && cfg.singleQty[symbol] != 0.0 && t.qty >= cfg.singleQty[symbol]
    ensures symbol !in cfg.singleQty ==> r.None?
    ensures r.Some? ==> r.value == LargeTrade(symbol, TradeSide(t), t.qty, t.price, Notional(t), t.time)
  {
    var threshold := if symbol in cfg.singleQty then Some(cfg.singleQty[symbol]) else None;
    if threshold.Some? && threshold.value != 0.0 && t.qty >= threshold.value
    then Some(LargeTrade(symbol, TradeSide(t), t.qty, t.price, Notional(t), t.time))
    else None
  }

  /** An entry of a burst window: trade time (ms) and USD value. */
  datatype BurstEntry = BurstEntry(t: int, v: real)

  /** Head eviction: drop entries from the front while they are older than the window. */
  function Evict(q: seq<BurstEntry>, now: int): (r: seq<BurstEntry>)
    ensures |r| <= |q| && r == q[|q| - |r|..]
    ensures r == [] || now - r[0].t <= BurstWindowMs
    ensures forall i :: 0 <= i < |q| - |r| ==> now - q[i].t > BurstWindowMs
    decreases |q|
  {
    if q != [] && now - q[0].t > BurstWindowMs then Evict(q[1..], now) else q
  }

  function SumValues(q: seq<BurstEntry>): real
    decreases |q|
  {
    if q == [] then 0.0 else q[0].v + SumValues(q[1..])
  }

  function Max0(n: int): nat { if n < 0 then 0 else n }

  datatype BurstOutcome = BurstOutcome(queue: seq<BurstEntry>, fired: bool, count: nat, total: real)

  /** Append, evict, and fire (then clear) when the window holds more than `trigger` entries. */
  function BurstStep(q: seq<BurstEntry>, e: BurstEntry, trigger: int): (r: BurstOutcome)
    ensures var w := Evict(q + [e], e.t);
      && w != [] && w[|w| - 1] == e
      && (r.fired <==> |w| > trigger)
      && (r.fired ==> r.queue == [] && r.count == |w| && r.total == SumValues(w))
      && (!r.fired ==> r.queue == w)
    ensures |r.queue| <= Max0(trigger)
  {
    var w := Evict(q + [e], e.t);
    assert (q + [e])[|q|] == e;
    if |w| > trigger then BurstOutcome([], true, |w|, SumValues(w))
    else BurstOutcome(w, false, 0, 0.0)
  }

  /** The default thresholds and a trigger of 1: two $100,001 trades 500 ms apart on
      the same side fire on the second trade and leave the window empty. */
  lemma BurstExample()
    ensures var first := BurstStep([], BurstEntry(0, 100001.0), 1);
      var second := BurstStep(first.queue, BurstEntry(500, 100001.0), 1);
      !first.fired && first.queue == [BurstEntry(0, 100001.0)]
      && second.fired && second.count == 2 && second.queue == []
  {
    var e0 := BurstEntry(0, 100001.0);
    var e1 := BurstEntry(500, 100001.0);
    assert [] + [e0] == [e0];
    assert Evict([e0], 0) == [e0];
    assert Evict([e0, e1], 500) == [e0, e1];
    assert [e0] + [e1] == [e0, e1];
  }

  /** The burst queues, keyed by (symbol, side); a missing key is an empty deque. */
  function QueueOf(bursts: map<(string, Side), seq<BurstEntry>>, key: (string, Side)): seq<BurstEntry> {
    if key in bursts then bursts[key] else []
  }

  datatype TradeResult = TradeResult(bursts: map<(string, Side), seq<BurstEntry>>, alerts: seq<Alert>)

  /** The burst alert raised when a burst step fires. */
  function BurstAlert(symbol: string, t: Trade, b: BurstOutcome): seq<Alert> {
    if b.fired then [BurstTrades(symbol, TradeSide(t), b.count, b.total, t.price)] else []
  }

  /** Both trade rules for one trade: the single-trade alert first, then the
      burst rule on the (symbol, side) window when the trade is large enough. */
  function TradeStep(cfg: Config, bursts: map<(string, Side), seq<BurstEntry>>, symbol: string, t: Trade): (r: TradeResult)
    ensures forall k :: k != (symbol, TradeSide(t)) ==> QueueOf(r.bursts, k) == QueueOf(bursts, k)
    ensures Notional(t) < cfg.burstAmountUsd ==> r.bursts == bursts
  {
    var amount := Notional(t);
    var key := (symbol, TradeSide(t));
    var single := OptionToSeq(SingleTradeAlert(cfg, symbol, t));
    if amount >= cfg.burstAmountUsd then
      var b := BurstStep(QueueOf(bursts, key), BurstEntry(t.time, amount), cfg.burstCountTrigger);
      TradeResult(bursts[key := b.queue], single + BurstAlert(symbol, t, b))
    else TradeResult(bursts, single)
  }

  /** What one trade does: the single-trade alert, then a burst alert exactly when
      the trade reaches the USD floor and the window, once it holds this trade and
      has lost its entries older than 6 seconds, holds more than the trigger; and
      the trade's own window becomes the one the burst step leaves. */
  lemma TradeStepSpec(cfg: Config, bursts: map<(string, Side), seq<BurstEntry>>, symbol: string, t: Trade)
    ensures var r := TradeStep(cfg, bursts, symbol, t);
      var key := (symbol, TradeSide(t));
      var e := BurstEntry(t.time, Notional(t));
      var w := Evict(QueueOf(bursts, key) + [e], t.time);
      && r.alerts == OptionToSeq(SingleTradeAlert(cfg, symbol, t))
                     + (if Notional(t) >= cfg.burstAmountUsd && |w| > cfg.burstCountTrigger
                        then [BurstTrades(symbol, TradeSide(t), |w|, SumValues(w), t.price)] else [])
      && (Notional(t) >= cfg.burstAmountUsd ==>
            QueueOf(r.bursts, key) == (if |w| > cfg.burstCountTrigger then [] else w))
  {
    var key := (symbol, TradeSide(t));
    var e := BurstEntry(t.time, Notional(t));
    var single := OptionToSeq(SingleTradeAlert(cfg, symbol, t));
    if Notional(t) >= cfg.burstAmountUsd {
      var b := BurstStep(QueueOf(bursts, key), e, cfg.burstCountTrigger);
      assert TradeStep(cfg, bursts, symbol, t) == TradeResult(bursts[key := b.queue], single + BurstAlert(symbol, t, b));
      assert QueueOf(bursts[key := b.queue], key) == b.queue;
    } else {
      assert TradeStep(cfg, bursts, symbol, t) == TradeResult(bursts, single);
    }
  }

  /** The burst-window invariant: every window holds at most `trigger` entries, all
      of them at or above the USD floor. */
  predicate WindowsBounded(cfg: Config, bursts: map<(string, Side), seq<BurstEntry>>) {
    forall k :: k in bursts ==>
      |bursts[k]| <= Max0(cfg.burstCountTrigger) && forall i :: 0 <= i < |bursts[k]| ==> bursts[k][i].v >= cfg.burstAmountUsd
  }

  /** A burst step keeps its window at most `trigger` long and lets only entries at
      or above the floor into it when the new entry and the old window are. */
  lemma BurstStepEntries(q: seq<BurstEntry>, e: BurstEntry, trigger: int, floor: real)
    requires forall i :: 0 <= i < |q| ==> q[i].v >= floor
    requires e.v >= floor
    ensures var b := BurstStep(q, e, trigger);
      |b.queue| <= Max0(trigger) && forall i :: 0 <= i < |b.queue| ==> b.queue[i].v >= floor
  {
    var b := BurstStep(q, e, trigger);
    var qe := q + [e];
    var w := Evict(qe, e.t);
    forall i | 0 <= i < |b.queue| ensures b.queue[i].v >= floor {
      assert b.queue == w;
      assert w[i] == qe[|qe| - |w| + i];
    }
  }

  /** Each trade keeps the burst-window invariant: the window either fires and is
      cleared or is left at most `trigger` long, and only qualifying trades enter. */
  lemma TradeStepKeepsWindowsBounded(cfg: Config, bursts: map<(string, Side), seq<BurstEntry>>, symbol: string, t: Trade)
    requires WindowsBounded(cfg, bursts)
    ensures WindowsBounded(cfg, TradeStep(cfg, bursts, symbol, t).bursts)
  {
    if Notional(t) >= cfg.burstAmountUsd {
      var key := (symbol, TradeSide(t));
      var q := QueueOf(bursts, key);
      var e := BurstEntry(t.time, Notional(t));
      var b := BurstStep(q, e, cfg.burstCountTrigger);
      var r: map<(string, Side), seq<BurstEntry>> := bursts[key := b.queue];
      assert TradeStep(cfg, bursts, symbol, t).bursts == r;
      BurstStepEntries(q, e, cfg.burstCountTrigger, cfg.burstAmountUsd);
      forall k: (string, Side) | k in r
        ensures |r[k]| <= Max0(cfg.burstCountTrigger) && forall i :: 0 <= i < |r[k]| ==> r[k][i].v >= cfg.burstAmountUsd
      {
        if k != key {
          assert r[k] == bursts[k];
        }
      }
    }
  }

  // ---------------------------------------------------------------- klines

  /** A 5-minute candle update: closed flag `x`, volume, close price, event time. */
  datatype Kline = Kline(closed: bool, volume: real, close: real, eventTime: int)

  /** The volume rule. A missing baseline counts as 0 and so never alerts. */
  function KlineAlert(cfg: Config, baseline: map<string, real>, symbol: string, k: Kline): (r: Option<Alert>)
    ensures !k.closed ==> r.None?
    ensures symbol !in baseline ==> r.None?
    ensures r.Some? <==> k.closed && symbol in baseline && baseline[symbol] > 0.0
                         && k.volume > baseline[symbol] * cfg.volumeMultiplier
    ensures r.Some? ==> r.value.VolumeSpike? && r.value.multiple * baseline[symbol] == k.volume
                        && r.value.multiple > cfg.volumeMultiplier
                        && r.value.amountUsd == k.volume * k.close
    ensures r.Some? ==> r.value.symbol == symbol && r.value.volume == k.volume
                        && r.value.average == baseline[symbol] && r.value.time == k.eventTime
  {
    if !k.closed then None
    else
      var avg := if symbol in baseline then baseline[symbol] else 0.0;
      if avg > 0.0 && k.volume > avg * cfg.volumeMultiplier then
        var multiple := k.volume / avg;
        assert multiple * avg == k.volume;
        assert (multiple - cfg.volumeMultiplier) * avg == k.volume - avg * cfg.volumeMultiplier;
        PositiveFactor(multiple - cfg.volumeMultiplier, avg);
        Some(VolumeSpike(symbol, k.volume, avg, multiple, k.volume * k.close, k.eventTime))
      else None
  }

  /** A product that is positive with a positive factor has a positive co-factor. */
  lemma PositiveFactor(x: real, y: real)
    requires y > 0.0 && x * y > 0.0
    ensures x > 0.0
  {
    assert x == (x * y) / y;
  }

  /** A baseline of 100 and a closed candle of 350 alert with a 3.5 multiple. */
  lemma KlineExample(cfg: Config)
    requires cfg.volumeMultiplier == 3.0
    ensures var r := KlineAlert(cfg, map["BTCUSDT" := 100.0], "BTCUSDT", Kline(true, 350.0, 1.0, 0));
      r.Some? && r.value.multiple == 3.5
  {
  }

  // ---------------------------------------------------------------- baseline

  function Sum(vs: seq<real>): real
    decreases |vs|
  {
    if vs == [] then 0.0 else vs[0] + Sum(vs[1..])
  }

  /** `total_vol / len(data)` */
  function Mean(vs: seq<real>): (r: real)
    requires |vs| > 0
    ensures r * |vs| as real == Sum(vs)
  {
    Sum(vs) / |vs| as real
  }

  lemma {:induction false} SumBounds(vs: seq<real>, lo: real, hi: real)
    requires forall i :: 0 <= i < |vs| ==> lo <= vs[i] <= hi
    ensures |vs| as real * lo <= Sum(vs) <= |vs| as real * hi
    decreases |vs|
  {
    if vs != [] {
      SumBounds(vs[1..], lo, hi);
    }
  }

  /** A non-negative product with a positive factor has a non-negative co-factor. */
  lemma NonNegativeFactor(x: real, y: real)
    requires y > 0.0 && x * y >= 0.0
    ensures x >= 0.0
  {
    assert x == (x * y) / y;
  }

  /** The average lies between the smallest and the largest candle volume. */
  lemma {:induction false} MeanBetween(vs: seq<real>, lo: real, hi: real)
    requires |vs| > 0
    requires forall i :: 0 <= i < |vs| ==> lo <= vs[i] <= hi
    ensures lo <= Mean(vs) <= hi
  {
    SumBounds(vs, lo, hi);
    var n := |vs| as real;
    var m := Mean(vs);
    assert m * n == Sum(vs);
    assert (m - lo) * n == Sum(vs) - n * lo;
    assert (hi - m) * n == n * hi - Sum(vs);
    NonNegativeFactor(m - lo, n);
    NonNegativeFactor(hi - m, n);
  }

  /** The baseline for one symbol: the mean of the candle volumes when the history
      is a non-empty list, otherwise the sentinel. `None` stands for a response
      that was not a list or a request that raised. */
  function BaselineValue(fetched: Option<seq<real>>): (r: real)
    ensures fetched.None? || fetched.value == [] ==> r == BaselineSentinel
    ensures fetched.Some? && fetched.value != [] ==> r * |fetched.value| as real == Sum(fetched.value)
  {
    if fetched.Some? && |fetched.value| > 0 then Mean(fetched.value) else BaselineSentinel
  }

  /** The baseline map after the start-up loop has visited every symbol, in order. */
  function BaselineAfter(baseline: map<string, real>, symbols: seq<string>, fetched: seq<Option<seq<real>>>): map<string, real>
    requires |fetched| == |symbols|
    decreases |symbols|
  {
    if symbols == [] then baseline
    else
      var n := |symbols| - 1;
      BaselineAfter(baseline, symbols[..n], fetched[..n])[Upper(symbols[n]) := BaselineValue(fetched[n])]
  }

  /** Every configured symbol gets a baseline; the value is that of the last
      occurrence of its upper-case name; other keys keep their value. */
  lemma {:induction false} BaselineAfterSpec(baseline: map<string, real>, symbols: seq<string>, fetched: seq<Option<seq<real>>>)
    requires |fetched| == |symbols|
    ensures var r := BaselineAfter(baseline, symbols, fetched);
      && (forall i :: 0 <= i < |symbols| ==> Upper(symbols[i]) in r)
      && (forall i :: 0 <= i < |symbols| && (forall j :: i < j < |symbols| ==> Upper(symbols[j]) != Upper(symbols[i]))
            ==> r[Upper(symbols[i])] == BaselineValue(fetched[i]))
      && (forall k :: k in baseline && (forall i :: 0 <= i < |symbols| ==> Upper(symbols[i]) != k)
            ==> k in r && r[k] == baseline[k])
  {
    BaselineAfterCovers(baseline, symbols, fetched);
    BaselineAfterLast(baseline, symbols, fetched);
    BaselineAfterKeeps(baseline, symbols, fetched);
  }

  lemma {:induction false} BaselineAfterCovers(baseline: map<string, real>, symbols: seq<string>, fetched: seq<Option<seq<real>>>)
    requires |fetched| == |symbols|
    ensures forall i :: 0 <= i < |symbols| ==> Upper(symbols[i]) in BaselineAfter(baseline, symbols, fetched)
    decreases |symbols|
  {
    if symbols != [] {
      var n := |symbols| - 1;
      BaselineAfterCovers(baseline, symbols[..n], fetched[..n]);
      forall i | 0 <= i < n
        ensures Upper(symbols[i]) in BaselineAfter(baseline, symbols, fetched)
      {
        assert symbols[..n][i] == symbols[i];
      }
    }
  }

  lemma {:induction false} BaselineAfterLast(baseline: map<string, real>, symbols: seq<string>, fetched: seq<Option<seq<real>>>)
    requires |fetched| == |symbols|
    ensures var r := BaselineAfter(baseline, symbols, fetched);
      forall i :: 0 <= i < |symbols| && (forall j :: i < j < |symbols| ==> Upper(symbols[j]) != Upper(symbols[i]))
        ==> Upper(symbols[i]) in r && r[Upper(symbols[i])] == BaselineValue(fetched[i])
    decreases |symbols|
  {
    if symbols != [] {
      var n := |symbols| - 1;
      var prev := BaselineAfter(baseline, symbols[..n], fetched[..n]);
      BaselineAfterLast(baseline, symbols[..n], fetched[..n]);
      forall i | 0 <= i < n && (forall j :: i < j < |symbols| ==> Upper(symbols[j]) != Upper(symbols[i]))
        ensures var r := BaselineAfter(baseline, symbols, fetched);
          Upper(symbols[i]) in r && r[Upper(symbols[i])] == BaselineValue(fetched[i])
      {
        assert symbols[..n][i] == symbols[i] && fetched[..n][i] == fetched[i];
        forall j | i < j < n
          ensures Upper(symbols[..n][j]) != Upper(symbols[..n][i])
        {
          assert symbols[..n][j] == symbols[j];
        }
        assert Upper(symbols[n]) != Upper(symbols[i]);
        assert prev[Upper(symbols[i])] == BaselineValue(fetched[i]);
      }
    }
  }

  lemma {:induction false} BaselineAfterKeeps(baseline: map<string, real>, symbols: seq<string>, fetched: seq<Option<seq<real>>>)
    requires |fetched| == |symbols|
    ensures var r := BaselineAfter(baseline, symbols, fetched);
      forall k :: k in baseline && (forall i :: 0 <= i < |symbols| ==> Upper(symbols[i]) != k)
        ==> k in r && r[k] == baseline[k]
    decreases |symbols|
  {
    if symbols != [] {
      var n := |symbols| - 1;
      BaselineAfterKeeps(baseline, symbols[..n], fetched[..n]);
      forall k | k in baseline && (forall i :: 0 <= i < |symbols| ==> Upper(symbols[i]) != k)
        ensures forall i :: 0 <= i < n ==> Upper(symbols[..n][i]) != k
      {
        forall i | 0 <= i < n
          ensures Upper(symbols[..n][i]) != k
        {
          assert symbols[..n][i] == symbols[i];
        }
      }
    }
  }

  // ---------------------------------------------------------------- order book

  datatype Level = Level(price: real, qty: real)
  /** A depth payload: `bids`/`asks` (partial book) or `b`/`a` (diff stream), each possibly absent. */
  datatype Depth = Depth(bids: Option<seq<Level>>, b: Option<seq<Level>>, asks: Option<seq<Level>>, a: Option<seq<Level>>)

  /** `data.get('bids') or data.get('b', [])`: an empty primary list falls through too. */
  function PickLevels(primary: Option<seq<Level>>, fallback: Option<seq<Level>>): seq<Level> {
    if primary.Some? && primary.value != [] then primary.value
    else if fallback.Some? then fallback.value
    else []
  }

  /** The cooldown key: symbol, side, and the price truncated to an integer. */
  datatype WallKey = WallKey(symbol: string, side: BookSide, price: int)

  function LastAlertTime(walls: map<WallKey, real>, key: WallKey): real {
    if key in walls then walls[key] else 0.0
  }

  datatype WallResult = WallResult(walls: map<WallKey, real>, alerts: seq<Alert>)

  /** `check_wall` for one price level. */
  function WallStep(cfg: Config, walls: map<WallKey, real>, symbol: string, side: BookSide, lv: Level, now: real): (r: WallResult)
    ensures var key := WallKey(symbol, side, Trunc(lv.price));
      && (|r.alerts| == 1 <==> lv.price * lv.qty >= cfg.wallThreshold && now - LastAlertTime(walls, key) >= WallCooldownSeconds)
      && (r.alerts == [] ==> r.walls == walls)
      && (r.alerts != [] ==>
            r.walls == walls[key := now] && r.alerts == [OrderWall(symbol, side, lv.price, lv.price * lv.qty)])
    ensures |r.alerts| <= 1
  {
    var amount := lv.price * lv.qty;
    if amount >= cfg.wallThreshold then
      var key := WallKey(symbol, side, Trunc(lv.price));
      if now - LastAlertTime(walls, key) < WallCooldownSeconds then WallResult(walls, [])
      else WallResult(walls[key := now], [OrderWall(symbol, side, lv.price, amount)])
    else WallResult(walls, [])
  }

  /** The spec example: a bid of 200 at 50000 alerts once, then is suppressed for 300 seconds. */
  lemma WallExample(now: real)
    requires now >= 300.0
    ensures var lv := Level(50000.0, 200.0);
      var first := WallStep(DefaultConfig(), map[], "BTCUSDT", Bid, lv, now);
      var again := WallStep(DefaultConfig(), first.walls, "BTCUSDT", Bid, lv, now + 299.0);
      var later := WallStep(DefaultConfig(), first.walls, "BTCUSDT", Bid, lv, now + 300.0);
      |first.alerts| == 1 && again.alerts == [] && |later.alerts| == 1
  {
  }

  /** The key an order-wall alert was raised for. */
  function AlertKey(a: Alert): WallKey
    requires a.OrderWall?
  {
    WallKey(a.symbol, a.bookSide, Trunc(a.price))
  }

  /** `process_depth_logic`: the bid side (`bids`, or `b` when that is absent or
      empty), then the ask side, at one clock reading. */
  function DepthStep(cfg: Config, walls: map<WallKey, real>, symbol: string, d: Depth, now: real): WallResult {
    var bids := WallScan(cfg, walls, symbol, Bid, PickLevels(d.bids, d.b), now);
    var asks := WallScan(cfg, bids.walls, symbol, Ask, PickLevels(d.asks, d.a), now);
    WallResult(asks.walls, bids.alerts + asks.alerts)
  }

  /** `check_wall` over the levels of one side, first level first. */
  function WallScan(cfg: Config, walls: map<WallKey, real>, symbol: string, side: BookSide, levels: seq<Level>, now: real): (r: WallResult)
    ensures forall i :: 0 <= i < |r.alerts| ==> r.alerts[i].OrderWall? && r.alerts[i].symbol == symbol && r.alerts[i].bookSide == side
    decreases |levels|
  {
    if levels == [] then WallResult(walls, [])
    else
      var n := |levels| - 1;
      var p := WallScan(cfg, walls, symbol, side, levels[..n], now);
      var s := WallStep(cfg, p.walls, symbol, side, levels[n], now);
      WallResult(s.walls, p.alerts + s.alerts)
  }

  /** Within one snapshot side, every alerted key's history becomes `now`, and no
      more alerts are raised than there are levels. */
  lemma {:induction false} WallScanHistory(cfg: Config, walls: map<WallKey, real>, symbol: string, side: BookSide, levels: seq<Level>, now: real)
    ensures var r := WallScan(cfg, walls, symbol, side, levels, now);
      && (forall i :: 0 <= i < |r.alerts| ==> AlertKey(r.alerts[i]) in r.walls && r.walls[AlertKey(r.alerts[i])] == now)
      && |r.alerts| <= |levels|
    decreases |levels|
  {
    if levels != [] {
      var n := |levels| - 1;
      var p := WallScan(cfg, walls, symbol, side, levels[..n], now);
      WallScanHistory(cfg, walls, symbol, side, levels[..n], now);
      var s := WallStep(cfg, p.walls, symbol, side, levels[n], now);
      var r := WallResult(s.walls, p.alerts + s.alerts);
      assert WallScan(cfg, walls, symbol, side, levels, now) == r;
      forall i | 0 <= i < |r.alerts|
        ensures AlertKey(r.alerts[i]) in r.walls && r.walls[AlertKey(r.alerts[i])] == now
      {
        if i < |p.alerts| {
          assert r.alerts[i] == p.alerts[i];
        } else {
          assert r.alerts[i] == s.alerts[0];
        }
      }
    }
  }

  /** Within one snapshot side, every key that did not alert keeps its history
      entry, or its absence. */
  lemma {:induction false} WallScanUntouched(cfg: Config, walls: map<WallKey, real>, symbol: string, side: BookSide, levels: seq<Level>, now: real)
    ensures var r := WallScan(cfg, walls, symbol, side, levels, now);
      forall k :: k !in AlertKeys(r.alerts) ==> (k in r.walls <==> k in walls) && (k in walls ==> r.walls[k] == walls[k])
    decreases |levels|
  {
    if levels != [] {
      var n := |levels| - 1;
      var p := WallScan(cfg, walls, symbol, side, levels[..n], now);
      WallScanUntouched(cfg, walls, symbol, side, levels[..n], now);
      var s := WallStep(cfg, p.walls, symbol, side, levels[n], now);
      var r := WallResult(s.walls, p.alerts + s.alerts);
      assert WallScan(cfg, walls, symbol, side, levels, now) == r;
      AlertKeysAppend(p.alerts, s.alerts);
      forall k | k !in AlertKeys(r.alerts)
        ensures (k in r.walls <==> k in walls) && (k in walls ==> r.walls[k] == walls[k])
      {
        assert k !in AlertKeys(p.alerts);
        if s.alerts != [] {
          assert AlertKey(s.alerts[0]) in AlertKeys(s.alerts);
          assert k != AlertKey(s.alerts[0]);
          assert s.walls == p.walls[AlertKey(s.alerts[0]) := now];
        } else {
          assert s.walls == p.walls;
        }
      }
    }
  }

  /** The set of keys a run of wall alerts was raised for. */
  function AlertKeys(alerts: seq<Alert>): set<WallKey>
    requires forall i :: 0 <= i < |alerts| ==> alerts[i].OrderWall?
  {
    set i | 0 <= i < |alerts| :: AlertKey(alerts[i])
  }

  lemma AlertKeysAppend(xs: seq<Alert>, ys: seq<Alert>)
    requires forall i :: 0 <= i < |xs| ==> xs[i].OrderWall?
    requires forall i :: 0 <= i < |ys| ==> ys[i].OrderWall?
    ensures AlertKeys(xs + ys) == AlertKeys(xs) + AlertKeys(ys)
  {
    var zs := xs + ys;
    forall k | k in AlertKeys(zs) ensures k in AlertKeys(xs) + AlertKeys(ys) {
      var i :| 0 <= i < |zs| && AlertKey(zs[i]) == k;
      if i < |xs| {
        assert zs[i] == xs[i];
      } else {
        assert zs[i] == ys[i - |xs|];
      }
    }
    forall k | k in AlertKeys(xs) + AlertKeys(ys) ensures k in AlertKeys(zs) {
      if k in AlertKeys(xs) {
        var i :| 0 <= i < |xs| && AlertKey(xs[i]) == k;
        assert zs[i] == xs[i];
      } else {
        var i :| 0 <= i < |ys| && AlertKey(ys[i]) == k;
        assert zs[|xs| + i] == ys[i];
      }
    }
  }

  /** Within one snapshot side no key alerts twice: once a key alerts its history
      is `now`, and the cooldown suppresses it for the rest of the scan. */
  lemma {:induction false} WallScanDistinct(cfg: Config, walls: map<WallKey, real>, symbol: string, side: BookSide, levels: seq<Level>, now: real)
    ensures var r := WallScan(cfg, walls, symbol, side, levels, now);
      forall i, j :: 0 <= i < j < |r.alerts| ==> AlertKey(r.alerts[i]) != AlertKey(r.alerts[j])
    decreases |levels|
  {
    if levels != [] {
      var n := |levels| - 1;
      var p := WallScan(cfg, walls, symbol, side, levels[..n], now);
      WallScanDistinct(cfg, walls, symbol, side, levels[..n], now);
      WallScanHistory(cfg, walls, symbol, side, levels[..n], now);
      var s := WallStep(cfg, p.walls, symbol, side, levels[n], now);
      var r := WallResult(s.walls, p.alerts + s.alerts);
      assert WallScan(cfg, walls, symbol, side, levels, now) == r;
      if s.alerts != [] {
        var key := WallKey(symbol, side, Trunc(levels[n].price));
        assert LastAlertTime(p.walls, key) != now;
        forall i, j | 0 <= i < j < |r.alerts| ensures AlertKey(r.alerts[i]) != AlertKey(r.alerts[j]) {
          assert r.alerts[i] == p.alerts[i];
          if j < |p.alerts| {
            assert r.alerts[j] == p.alerts[j];
          } else {
            assert r.alerts[j] == s.alerts[0];
            assert p.walls[AlertKey(p.alerts[i])] == now;
          }
        }
      } else {
        assert r.alerts == p.alerts;
      }
    }
  }

  // ---------------------------------------------------------------- stream dispatch

  datatype Payload = TradeData(trade: Trade) | KlineData(kline: Kline) | DepthData(depth: Depth)
  /** A combined-stream frame: the stream name and, when the frame has a `data` key, its payload. */
  datatype Frame = Frame(stream: string, data: Option<Payload>)

  datatype Route = ToTrade | ToKline | ToDepth | Unrouted

  /** `stream_name.split('@')[0].upper()` */
  function StreamSymbol(stream: string): (r: string)
    ensures |r| <= |stream| && r == Upper(stream[..|r|])
    ensures '@' !in r
    ensures |r| < |stream| ==> stream[|r|] == '@'
    ensures '@' in stream ==> |r| < |stream|
  {
    var head := Split(stream, '@')[0];
    SplitHead(stream, '@');
    assert head == stream[..|head|];
    assert forall i :: 0 <= i < |head| ==> Upper(head)[i] == UpperChar(head[i]);
    Upper(head)
  }

  /** The symbol is the upper-cased text before the first `@`. */
  lemma StreamSymbolAt(stream: string, k: nat)
    requires k < |stream| && stream[k] == '@' && '@' !in stream[..k]
    ensures StreamSymbol(stream) == Upper(stream[..k])
  {
    IndexOfUnique(stream, '@', k);
    assert Split(stream, '@')[0] == stream[..k];
  }

  /** Substring tests on the stream name, in the source's order. */
  function RouteOf(stream: string): (r: Route)
    ensures Contains(stream, "aggTrade") ==> r == ToTrade
    ensures !Contains(stream, "aggTrade") && Contains(stream, "kline") ==> r == ToKline
    ensures !Contains(stream, "aggTrade") && !Contains(stream, "kline") && Contains(stream, "depth") ==> r == ToDepth
    ensures r == Unrouted <==> !Contains(stream, "aggTrade") && !Contains(stream, "kline") && !Contains(stream, "depth")
  {
    if Contains(stream, "aggTrade") then ToTrade
    else if Contains(stream, "kline") then ToKline
    else if Contains(stream, "depth") then ToDepth
    else Unrouted
  }

  /** A stream name `<name>@<rest>` carries the symbol `<name>`, upper-cased. */
  lemma StreamSymbolOf(name: string, rest: string)
    requires '@' !in name
    ensures StreamSymbol(name + ['@'] + rest) == Upper(name)
  {
    var s := name + ['@'] + rest;
    assert s[..|name|] == name;
    StreamSymbolAt(s, |name|);
  }

  /** A lower-cased symbol holds no capital letter, so never the pattern `aggTrade`. */
  lemma LowerNameLacksAggTrade(name: string)
    requires name == Lower(name)
    ensures !Contains(name, "aggTrade")
  {
    forall i | 0 <= i < |name|
      ensures name[i] != 'T'
    {
      assert name[i] == LowerChar(name[i]);
    }
    MissingCharNotContained(name, "aggTrade", 'T');
  }

  /** `<symbol>@aggTrade` is a trade stream for the upper-cased symbol. */
  lemma TradeStreamRouted(name: string)
    requires '@' !in name
    ensures var s := name + ['@'] + "aggTrade";
      StreamSymbol(s) == Upper(name) && RouteOf(s) == ToTrade
  {
    StreamSymbolOf(name, "aggTrade");
    ContainedAfterAt(name, "aggTrade", "aggTrade");
  }

  /** `<symbol>@kline_5m` is a candle stream for the upper-cased symbol. */
  lemma KlineStreamRouted(name: string)
    requires '@' !in name && name == Lower(name)
    ensures var s := name + ['@'] + "kline_5m";
      StreamSymbol(s) == Upper(name) && RouteOf(s) == ToKline
  {
    var s := name + ['@'] + "kline_5m";
    StreamSymbolOf(name, "kline_5m");
    ContainedAfterAt(name, "kline_5m", "kline");
    LowerNameLacksAggTrade(name);
    NotContainedAcrossAt(name, "kline_5m", "aggTrade", 'T');
    RoutedToKline(s);
  }

  /** `<symbol>@depth20@100ms` is a depth stream for the upper-cased symbol, unless
      the symbol itself holds `kline`. */
  lemma DepthStreamRouted(name: string)
    requires '@' !in name && name == Lower(name) && !Contains(name, "kline")
    ensures var s := name + ['@'] + "depth20@100ms";
      StreamSymbol(s) == Upper(name) && RouteOf(s) == ToDepth
  {
    var s := name + ['@'] + "depth20@100ms";
    StreamSymbolOf(name, "depth20@100ms");
    DepthStreamNotTrade(name);
    DepthStreamNotKline(name);
    ContainedAfterAt(name, "depth20@100ms", "depth");
    RoutedToDepth(s);
  }

  lemma RoutedToKline(s: string)
    requires !Contains(s, "aggTrade") && Contains(s, "kline")
    ensures RouteOf(s) == ToKline
  {
  }

  lemma RoutedToDepth(s: string)
    requires !Contains(s, "aggTrade") && !Contains(s, "kline") && Contains(s, "depth")
    ensures RouteOf(s) == ToDepth
  {
  }

  lemma DepthStreamNotTrade(name: string)
    requires '@' !in name && name == Lower(name)
    ensures !Contains(name + ['@'] + "depth20@100ms", "aggTrade")
  {
    LowerNameLacksAggTrade(name);
    NotContainedAcrossAt(name, "depth20@100ms", "aggTrade", 'T');
  }

  lemma DepthStreamNotKline(name: string)
    requires '@' !in name && !Contains(name, "kline")
    ensures !Contains(name + ['@'] + "depth20@100ms", "kline")
  {
    NotContainedAcrossAt(name, "depth20@100ms", "kline", 'k');
  }

  /** A pattern without `@` found in `name@rest` lies in `name` or in `rest`; so it
      is not found when `name` lacks it and `rest` lacks one of its characters. */
  lemma NotContainedAcrossAt(name: string, rest: string, pat: string, c: char)
    requires '@' !in pat && !Contains(name, pat)
    requires c in pat && c !in rest
    ensures !Contains(name + ['@'] + rest, pat)
  {
    MissingCharNotContained(rest, pat, c);
    var s := name + ['@'] + rest;
    if Contains(s, pat) {
      ContainsOccurs(s, pat);
      var k :| OccursAt(s, pat, k);
      OccurrenceCovers(s, pat, k, |name|);
      assert s[|name|] == '@';
      if k + |pat| <= |name| {
        assert s == name + (['@'] + rest);
        OccursInLeft(name, ['@'] + rest, pat, k);
        OccursContains(name, pat, k);
      } else if k > |name| {
        OccursInRight(name + ['@'], rest, pat, k);
        OccursContains(rest, pat, k - |name| - 1);
      } else {
        assert false;
      }
    }
  }

  /** An occurrence of `pat` at `k` spells out every character it covers. */
  lemma OccurrenceCovers(s: string, pat: string, k: nat, j: nat)
    requires OccursAt(s, pat, k)
    ensures k <= j < k + |pat| ==> pat[j - k] == s[j]
  {
    if k <= j < k + |pat| {
      assert s[k..k + |pat|][j - k] == s[j];
    }
  }

  /** A pattern that starts the tail of `name@rest` occurs in it. */
  lemma ContainedAfterAt(name: string, rest: string, pat: string)
    requires pat <= rest
    ensures Contains(name + ['@'] + rest, pat)
  {
    ContainsStart(pat, rest[|pat|..]);
    assert pat + rest[|pat|..] == rest;
    ContainsRight(name + ['@'], rest, pat);
  }

  /** A pattern can only occur in a text holding each of its characters. */
  lemma MissingCharNotContained(text: string, pat: string, c: char)
    requires c in pat
    ensures Contains(text, pat) ==> c in text
  {
    if Contains(text, pat) {
      ContainsOccurs(text, pat);
      var k :| OccursAt(text, pat, k);
      var j :| 0 <= j < |pat| && pat[j] == c;
      assert text[k + j] == c;
    }
  }

  // ---------------------------------------------------------------- state

  /** The process-wide state of the monitor: burst deques, wall history, baselines. */
  class Monitor {
    const cfg: Config
    var bursts: map<(string, Side), seq<BurstEntry>>
    var walls: map<WallKey, real>
    var baseline: map<string, real>

    /** Every window holds at most `trigger` qualifying trades between frames. */
    ghost predicate Valid()
      reads this
    {
      WindowsBounded(cfg, bursts)
    }

    constructor (cfg: Config)
      ensures Valid() && this.cfg == cfg
      ensures bursts == map[] && walls == map[] && baseline == map[]
    {
      this.cfg := cfg;
      bursts := map[];
      walls := map[];
      baseline := map[];
    }

    /** `init_volume_baseline`: one candle-history result per symbol, as fetched. */
    method InitBaseline(symbols: seq<string>, fetched: seq<Option<seq<real>>>)
      requires |fetched| == |symbols|
      modifies this`baseline
      ensures baseline == BaselineAfter(old(baseline), symbols, fetched)
    {
      var i := 0;
      while i < |symbols|
        invariant 0 <= i <= |symbols|
        invariant baseline == BaselineAfter(old(baseline), symbols[..i], fetched[..i])
      {
        var sym := Upper(symbols[i]);
        var value := BaselineValue(fetched[i]);
        baseline := baseline[sym := value];
        assert symbols[..i + 1][..i] == symbols[..i];
        assert fetched[..i + 1][..i] == fetched[..i];
        i := i + 1;
      }
      assert symbols[..i] == symbols && fetched[..i] == fetched;
    }

    /** `process_trade_logic` */
    method ProcessTrade(symbol: string, t: Trade) returns (alerts: seq<Alert>)
      requires Valid()
      modifies this`bursts
      ensures Valid()
      ensures bursts == TradeStep(cfg, old(bursts), symbol, t).bursts
      ensures alerts == TradeStep(cfg, old(bursts), symbol, t).alerts
    {
      TradeStepKeepsWindowsBounded(cfg, bursts, symbol, t);
      alerts := OptionToSeq(SingleTradeAlert(cfg, symbol, t));
      var amount := Notional(t);
      if amount >= cfg.burstAmountUsd {
        var key := (symbol, TradeSide(t));
        var b := PushBurst(QueueOf(bursts, key), BurstEntry(t.time, amount), cfg.burstCountTrigger);
        alerts := alerts + BurstAlert(symbol, t, b);
        bursts := bursts[key := b.queue];
      }
    }

    /** The deque update of one large trade: append, evict, then alert and clear
        when the window holds more than `trigger` trades. */
    static method PushBurst(q: seq<BurstEntry>, e: BurstEntry, trigger: int) returns (b: BurstOutcome)
      ensures b == BurstStep(q, e, trigger)
    {
      var queue := EvictHead(q + [e], e.t);
      if |queue| > trigger {
        b := BurstOutcome([], true, |queue|, SumValues(queue));
      } else {
        b := BurstOutcome(queue, false, 0, 0.0);
      }
    }

    /** The `while dq and t - dq[0][0] > window: dq.popleft()` loop. */
    static method EvictHead(q: seq<BurstEntry>, now: int) returns (queue: seq<BurstEntry>)
      ensures queue == Evict(q, now)
    {
      queue := q;
      while queue != [] && now - queue[0].t > BurstWindowMs
        invariant Evict(queue, now) == Evict(q, now)
        decreases |queue|
      {
        queue := queue[1..];
      }
    }

    /** `check_wall` */
    method CheckWall(symbol: string, side: BookSide, lv: Level, now: real) returns (alert: Option<Alert>)
      modifies this`walls
      ensures walls == WallStep(cfg, old(walls), symbol, side, lv, now).walls
      ensures OptionToSeq(alert) == WallStep(cfg, old(walls), symbol, side, lv, now).alerts
    {
      ghost var step := WallStep(cfg, walls, symbol, side, lv, now);
      alert := None;
      var amount := lv.price * lv.qty;
      if amount >= cfg.wallThreshold {
        var key := WallKey(symbol, side, Trunc(lv.price));
        var last := LastAlertTime(walls, key);
        if now - last < WallCooldownSeconds {
          assert step == WallResult(walls, []);
          return;
        }
        assert step == WallResult(walls[key := now], [OrderWall(symbol, side, lv.price, amount)]);
        walls := walls[key := now];
        alert := Some(OrderWall(symbol, side, lv.price, amount));
      } else {
        assert step == WallResult(walls, []);
      }
    }

    method CheckSide(symbol: string, side: BookSide, levels: seq<Level>, now: real) returns (alerts: seq<Alert>)
      modifies this`walls
      ensures walls == WallScan(cfg, old(walls), symbol, side, levels, now).walls
      ensures alerts == WallScan(cfg, old(walls), symbol, side, levels, now).alerts
    {
      alerts := [];
      var i := 0;
      while i < |levels|
        invariant 0 <= i <= |levels|
        invariant walls == WallScan(cfg, old(walls), symbol, side, levels[..i], now).walls
        invariant alerts == WallScan(cfg, old(walls), symbol, side, levels[..i], now).alerts
      {
        assert levels[..i + 1][..i] == levels[..i];
        var a := CheckWall(symbol, side, levels[i], now);
        alerts := alerts + OptionToSeq(a);
        i := i + 1;
      }
      assert levels[..i] == levels;
    }

    /** `process_depth_logic`: every bid level, then every ask level, at one clock reading. */
    method ProcessDepth(symbol: string, d: Depth, now: real) returns (alerts: seq<Alert>)
      modifies this`walls
      ensures WallResult(walls, alerts) == DepthStep(cfg, old(walls), symbol, d, now)
    {
      var bidAlerts := CheckSide(symbol, Bid, PickLevels(d.bids, d.b), now);
      var askAlerts := CheckSide(symbol, Ask, PickLevels(d.asks, d.a), now);
      alerts := bidAlerts + askAlerts;
    }

    /** The frame dispatch of `connect_binance`. A payload whose shape does not
        match its stream raises in the source, possibly after some bid walls have
        been recorded, and the connection is re-opened; the model cannot represent
        such a frame and drops it. */
    method HandleFrame(frame: Frame, now: real) returns (alerts: seq<Alert>)
      requires Valid()
      modifies this`bursts, this`walls
      ensures Valid()
      ensures frame.data.None? ==> alerts == [] && bursts == old(bursts) && walls == old(walls)
      ensures frame.data.Some? ==>
        var sym := StreamSymbol(frame.stream);
        match (RouteOf(frame.stream), frame.data.value)
        case (ToTrade, TradeData(t)) =>
          bursts == TradeStep(cfg, old(bursts), sym, t).bursts && alerts == TradeStep(cfg, old(bursts), sym, t).alerts
          && walls == old(walls)
        case (ToKline, KlineData(k)) =>
          alerts == OptionToSeq(KlineAlert(cfg, baseline, sym, k)) && bursts == old(bursts) && walls == old(walls)
        case (ToDepth, DepthData(d)) =>
          WallResult(walls, alerts) == DepthStep(cfg, old(walls), sym, d, now) && bursts == old(bursts)
        case _ => alerts == [] && bursts == old(bursts) && walls == old(walls)
    {
      alerts := [];
      if frame.data.Some? {
        var sym := StreamSymbol(frame.stream);
        match (RouteOf(frame.stream), frame.data.value)
        case (ToTrade, TradeData(t)) =>
          alerts := ProcessTrade(sym, t);
        case (ToKline, KlineData(k)) =>
          alerts := OptionToSeq(KlineAlert(cfg, baseline, sym, k));
        case (ToDepth, DepthData(d)) =>
          alerts := ProcessDepth(sym, d, now);
        case _ =>
      }
    }
  }
}
