/**
 * The RSI crossover strategy (`MyStrategy` in mystudy/study.py).
 *
 * Each bar the strategy is either flat (the broker reports no position) or
 * holding. Flat, it buys when RSI(6) crosses strictly above RSI(12) and records
 * the entry price and a stop-loss 2% below it. Holding, it sells when RSI(12)
 * is above 70, otherwise when the close is at or below the stop-loss. The
 * `order` field guards against a second order while one is pending, but it is
 * cleared at the end of every bar.
 *
 * The indicator values and the broker's position size are inputs of a bar;
 * every broker call (`buy`, `sell`) is recorded as an `Order` value.
 */
module RsiCross {
  import opened Outcomes

  /** Multiplier applied to the entry price to get the stop-loss price. */
  const StopLossFactor: real := 0.98
  /** RSI(12) level above which a held position is sold. */
  const OverboughtLevel: real := 70.0

  /** Which exit rule issued a sell. */
  datatype ExitReason = Overbought | StopLossHit

  /** One broker call made by the strategy. */
  datatype Order = Buy | Sell(reason: ExitReason)

  /**
   * What one call of `next` sees: the current close, the current and previous
   * RSI(6) and RSI(12) values, and the broker's position size.
   */
  datatype Bar = Bar(close: real, rsi6: real, rsi6Prev: real, rsi12: real, rsi12Prev: real, position: int)

  /**
   * The strategy's own fields. `stopLossPrice` is `None` until the first buy:
   * the source never assigns it before then.
   */
  datatype Fields = Fields(order: Option<Order>, buyPrice: Option<real>, stopLossPrice: Option<real>)

  /** Reading `stop_loss_price` before any buy assigned it. */
  datatype Error = StopLossUnset

  /** The fields after a bar together with the orders issued during it. */
  datatype Transition = Transition(fields: Fields, intents: seq<Order>)

  /** The fields as the constructor leaves them. */
  const Initial := Fields(None, None, None)

  /** The position is truthy when its size is non-zero. */
  predicate Holding(bar: Bar) {
    bar.position != 0
  }

  /** RSI(6) crosses strictly above RSI(12) on this bar. */
  predicate CrossedUp(bar: Bar) {
    bar.rsi6 > bar.rsi12 && bar.rsi6Prev <= bar.rsi12Prev
  }

  /** The stop-loss is set exactly when the entry price is, and sits 2% below it. */
  predicate StopTracksEntry(f: Fields) {
    && (f.buyPrice.Some? <==> f.stopLossPrice.Some?)
    && (f.buyPrice.Some? ==> f.stopLossPrice.value == f.buyPrice.value * StopLossFactor)
  }

  /** The decision taken by one call of `next`. */
  function Step(s: Fields, bar: Bar): (r: Result<Transition, Error>)
    // a pending order blocks the whole bar
    ensures s.order.Some? ==> r == Ok(Transition(s, []))
    // the order slot is empty again whenever the bar was evaluated
    ensures s.order.None? && r.Ok? ==> r.value.fields.order.None?
    ensures r.Ok? ==> |r.value.intents| <= 1
    // entry: only when flat, and only on a strict upward crossover
    ensures r.Ok? ==> (Buy in r.value.intents <==> s.order.None? && !Holding(bar) && CrossedUp(bar))
    ensures r.Ok? && Buy in r.value.intents ==>
              && r.value.fields.buyPrice == Some(bar.close)
              && r.value.fields.stopLossPrice == Some(bar.close * StopLossFactor)
              && (bar.close > 0.0 ==> r.value.fields.stopLossPrice.value < bar.close)
    // exits, in priority order
    ensures r.Ok? ==>
              (Sell(Overbought) in r.value.intents <==> s.order.None? && Holding(bar) && bar.rsi12 > OverboughtLevel)
    ensures r.Ok? ==>
              (Sell(StopLossHit) in r.value.intents <==>
                 && s.order.None? && Holding(bar) && bar.rsi12 <= OverboughtLevel
                 && s.stopLossPrice.Some? && bar.close <= s.stopLossPrice.value)
    // the stop-loss test reads a field that only a buy assigns
    ensures r.Err? <==> s.order.None? && Holding(bar) && bar.rsi12 <= OverboughtLevel && s.stopLossPrice.None?
    // the entry price and stop-loss change only on a buy
    ensures r.Ok? && Buy !in r.value.intents ==>
              r.value.fields.buyPrice == s.buyPrice && r.value.fields.stopLossPrice == s.stopLossPrice
  {
    if s.order.Some? then
      Ok(Transition(s, []))
    else if !Holding(bar) then
      if CrossedUp(bar) then
        Ok(Transition(Fields(None, Some(bar.close), Some(bar.close * StopLossFactor)), [Buy]))
      else
        Ok(Transition(s, []))
    else if bar.rsi12 > OverboughtLevel then
      Ok(Transition(s, [Sell(Overbought)]))
    else
      match s.stopLossPrice
      case None => Err(StopLossUnset)
      case Some(stop) =>
        if bar.close <= stop then Ok(Transition(s, [Sell(StopLossHit)])) else Ok(Transition(s, []))
  }

  /** The strategy driven over consecutive bars; an exception ends the run. */
  function Run(s: Fields, bars: seq<Bar>): (r: Result<Transition, Error>)
    ensures r.Ok? ==> |r.value.intents| <= |bars|
    decreases |bars|
  {
    if bars == [] then
      Ok(Transition(s, []))
    else
      match Step(s, bars[0])
      case Err(e) => Err(e)
      case Ok(t) =>
        match Run(t.fields, bars[1..])
        case Err(e) => Err(e)
        case Ok(u) => Ok(Transition(u.fields, t.intents + u.intents))
  }

  /**
   * Because `order` is cleared at the end of every bar, the pending-order
   * guard never fires again once the slot is empty.
   */
  lemma {:induction false} OrderSlotStaysClear(s: Fields, bars: seq<Bar>)
    requires s.order.None?
    ensures Run(s, bars).Ok? ==> Run(s, bars).value.fields.order.None?
    decreases |bars|
  {
    if bars != [] {
      match Step(s, bars[0])
      case Err(_) =>
      case Ok(t) => OrderSlotStaysClear(t.fields, bars[1..]);
    }
  }

  /** Over any run, the stop-loss stays 2% below the recorded entry price. */
  lemma {:induction false} StopLossTracksBuyPrice(s: Fields, bars: seq<Bar>)
    requires StopTracksEntry(s)
    ensures Run(s, bars).Ok? ==> StopTracksEntry(Run(s, bars).value.fields)
    decreases |bars|
  {
    if bars != [] {
      match Step(s, bars[0])
      case Err(_) =>
      case Ok(t) => StopLossTracksBuyPrice(t.fields, bars[1..]);
    }
  }

  /** Once a stop-loss has been recorded, no later bar can raise. */
  lemma {:induction false} NoErrorOnceEntered(s: Fields, bars: seq<Bar>)
    requires s.stopLossPrice.Some?
    ensures Run(s, bars).Ok?
    decreases |bars|
  {
    if bars != [] {
      var t := Step(s, bars[0]).value;
      NoErrorOnceEntered(t.fields, bars[1..]);
    }
  }

  /** Two RSI series that agree on every bar never produce a buy. */
  lemma {:induction false} EqualSeriesNeverBuy(s: Fields, bars: seq<Bar>)
    requires forall i :: 0 <= i < |bars| ==> bars[i].rsi6 == bars[i].rsi12
    ensures Run(s, bars).Ok? ==> Buy !in Run(s, bars).value.intents
    decreases |bars|
  {
    if bars != [] {
      match Step(s, bars[0])
      case Err(_) =>
      case Ok(t) =>
        EqualSeriesNeverBuy(t.fields, bars[1..]);
    }
  }

  /** The strategy object; its fields are updated in place by `Next`. */
  class MyStrategy {
    var order: Option<Order>
    var buyPrice: Option<real>
    var stopLossPrice: Option<real>

    /** The current values of the fields. */
    function Snapshot(): Fields
      reads this
    {
      Fields(order, buyPrice, stopLossPrice)
    }

    constructor ()
      ensures Snapshot() == Initial
    {
      order := None;
      buyPrice := None;
      stopLossPrice := None;
    }

    /** One call of `next`: returns the orders issued, or the exception raised. */
    method Next(bar: Bar) returns (r: Result<seq<Order>, Error>)
      modifies this
      ensures Step(old(Snapshot()), bar).Ok? ==>
                && r == Ok(Step(old(Snapshot()), bar).value.intents)
                && Snapshot() == Step(old(Snapshot()), bar).value.fields
      ensures Step(old(Snapshot()), bar).Err? ==>
                r == Err(Step(old(Snapshot()), bar).error) && Snapshot() == old(Snapshot())
      ensures old(order).None? ==> order.None?
    {
      if order.Some? {
        return Ok([]);
      }
      var intents: seq<Order> := [];
      if !Holding(bar) {
        if bar.rsi6 > bar.rsi12 && bar.rsi6Prev <= bar.rsi12Prev {
          buyPrice := Some(bar.close);
          stopLossPrice := Some(buyPrice.value * StopLossFactor);
          order := Some(Buy);
          intents := [Buy];
        }
      } else {
        if bar.rsi12 > OverboughtLevel {
          order := Some(Sell(Overbought));
          intents := [Sell(Overbought)];
        } else if stopLossPrice.None? {
          return Err(StopLossUnset);
        } else if bar.close <= stopLossPrice.value {
          order := Some(Sell(StopLossHit));
          intents := [Sell(StopLossHit)];
        }
      }
      if order.Some? {
        order := None;
      }
      return Ok(intents);
    }
  }
}
