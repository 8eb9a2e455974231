/**
 * The Bollinger-band scaling strategy (`BBandStrategy` in
 * mystudy/study_onlyone.py).
 *
 * Each bar reads the broker's position size once, then runs five independent
 * rules in a fixed order; every rule that matches calls `order_target_percent`
 * and appends the close to, or clears, the entry-price history `buy_value`:
 *   - flat, close at or below the lower band: target 30%, record the close;
 *   - holding, close at or below the lower band and below the last recorded
 *     price: target 70%, record the close;
 *   - holding, close at or above the mid band: target `position_size // 2`,
 *     record the close;
 *   - holding, close at or above the top band: target 0, clear the history;
 *   - flat, close at or below the mid band: target 30%, record the close.
 * Several rules can match on one bar, so one bar can issue several orders.
 *
 * Band values and the position size are inputs of a bar; every broker call is
 * recorded as an `Order` value tagged with the rule that made it.
 */
module BBandScaling {
  import opened Outcomes

  /** Target fraction of the portfolio for a first or renewed entry. */
  const EntryTarget: real := 0.3
  /** Target fraction after adding on a new low. */
  const AddTarget: real := 0.7
  /** Target fraction that closes the position. */
  const ExitTarget: real := 0.0

  /** The five `order_target_percent` call sites, in source order. */
  datatype Rule = LowerBandEntry | LowerBandAdd | MidBandTrim | TopBandExit | MidBandReentry

  /** A call of `order_target_percent(target)` made by `rule`. */
  datatype Order = TargetPercent(rule: Rule, target: real)

  /** What one call of `next` sees: the close, the three band values and the position size. */
  datatype Bar = Bar(close: real, bot: real, mid: real, top: real, position: int)

  /** `buy_value[-1]` on an empty history. */
  datatype Error = NoEntryRecorded

  /** The entry-price history after a bar together with the orders issued during it. */
  datatype Transition = Transition(buyValue: seq<real>, intents: seq<Order>)

  /** Position of a rule in the source. */
  function Rank(rule: Rule): nat {
    match rule
    case LowerBandEntry => 0
    case LowerBandAdd => 1
    case MidBandTrim => 2
    case TopBandExit => 3
    case MidBandReentry => 4
  }

  /** Orders appear in source rule order, so no rule appears twice. */
  predicate InRuleOrder(intents: seq<Order>) {
    forall i, j :: 0 <= i < j < |intents| ==> Rank(intents[i].rule) < Rank(intents[j].rule)
  }

  /** Some order in `intents` was made by `rule`. */
  predicate Fired(intents: seq<Order>, rule: Rule) {
    exists i :: 0 <= i < |intents| && intents[i].rule == rule
  }

  /** Rules that only fire while the broker reports no long position. */
  predicate FlatRule(rule: Rule) {
    rule == LowerBandEntry || rule == MidBandReentry
  }

  /**
   * The condition of each rule, read against the position size and the history
   * as they were when the bar started.
   */
  predicate Fires(rule: Rule, buyValue: seq<real>, bar: Bar) {
    match rule
    case LowerBandEntry => bar.close <= bar.bot && bar.position <= 0
    case LowerBandAdd =>
      bar.close <= bar.bot && bar.position > 0 && buyValue != [] && bar.close < buyValue[|buyValue| - 1]
    case MidBandTrim => bar.close >= bar.mid && bar.position > 0
    case TopBandExit => bar.close >= bar.top && bar.position > 0
    case MidBandReentry => bar.close <= bar.mid && bar.position <= 0
  }

  /** The rules whose condition holds, in source order. */
  function Firing(buyValue: seq<real>, bar: Bar): seq<Rule> {
    (if Fires(LowerBandEntry, buyValue, bar) then [LowerBandEntry] else [])
    + (if Fires(LowerBandAdd, buyValue, bar) then [LowerBandAdd] else [])
    + (if Fires(MidBandTrim, buyValue, bar) then [MidBandTrim] else [])
    + (if Fires(TopBandExit, buyValue, bar) then [TopBandExit] else [])
    + (if Fires(MidBandReentry, buyValue, bar) then [MidBandReentry] else [])
  }

  /**
   * The target each rule passes. The mid-band rule passes the halved share
   * count; `/` on `int` with a positive divisor rounds down like `//`.
   */
  function TargetOf(rule: Rule, position: int): real {
    match rule
    case LowerBandEntry => EntryTarget
    case LowerBandAdd => AddTarget
    case MidBandTrim => (position / 2) as real
    case TopBandExit => ExitTarget
    case MidBandReentry => EntryTarget
  }

  /** The orders made by `rules`, one each. */
  function Orders(rules: seq<Rule>, position: int): seq<Order>
  {
    seq(|rules|, i requires 0 <= i < |rules| => TargetPercent(rules[i], TargetOf(rules[i], position)))
  }

  /** `n` copies of `x`. */
  function Repeat(x: real, n: nat): seq<real>
  {
    seq(n, _ => x)
  }

  /** A rule that records the close when it fires: one order, one appended price. */
  function Record(t: Transition, fires: bool, rule: Rule, position: int, close: real): Transition {
    if fires then Transition(t.buyValue + [close], t.intents + [TargetPercent(rule, TargetOf(rule, position))])
    else t
  }

  /** The top-band rule: one order and a cleared history when it fires. */
  function Flatten(t: Transition, fires: bool): Transition {
    if fires then Transition([], t.intents + [TargetPercent(TopBandExit, ExitTarget)]) else t
  }

  /** The rules run by one call of `next`, on the history `buyValue` it starts from. */
  function Step(buyValue: seq<real>, bar: Bar): (r: Result<Transition, Error>)
    // only the new-low rule indexes the history, and it fails on an empty one
    ensures r.Err? <==> bar.close <= bar.bot && bar.position > 0 && buyValue == []
    // every rule reads the same snapshot: the orders are those of the rules whose condition held
    ensures r.Ok? ==> r.value.intents == Orders(Firing(buyValue, bar), bar.position)
    // the history is either cleared, or kept with one copy of the close appended per order
    ensures r.Ok? && Fires(TopBandExit, buyValue, bar) ==> r.value.buyValue == []
    ensures r.Ok? && !Fires(TopBandExit, buyValue, bar) ==>
              r.value.buyValue == buyValue + Repeat(bar.close, |r.value.intents|)
  {
    var close, size := bar.close, bar.position;
    var t0 := Transition(buyValue, []);
    var t1 := Record(t0, close <= bar.bot && size <= 0, LowerBandEntry, size, close);
    if close <= bar.bot && size > 0 && t1.buyValue == [] then
      Err(NoEntryRecorded)
    else
      var t2 := Record(t1, close <= bar.bot && size > 0 && close < t1.buyValue[|t1.buyValue| - 1],
                       LowerBandAdd, size, close);
      var t3 := Record(t2, close >= bar.mid && size > 0, MidBandTrim, size, close);
      var t4 := Flatten(t3, close >= bar.top && size > 0);
      var t5 := Record(t4, close <= bar.mid && size <= 0, MidBandReentry, size, close);
      Ok(t5)
  }

  /** Rules are issued in source order, at most three per bar, each at most once. */
  lemma RulesInSourceOrder(buyValue: seq<real>, bar: Bar)
    requires Step(buyValue, bar).Ok?
    ensures |Step(buyValue, bar).value.intents| <= 3
    ensures InRuleOrder(Step(buyValue, bar).value.intents)
  {
  }

  /** A rule has an order among `Orders(rules, _)` exactly when it is one of `rules`. */
  lemma FiredOrders(rules: seq<Rule>, position: int, rule: Rule)
    ensures Fired(Orders(rules, position), rule) <==> rule in rules
  {
    var s := Orders(rules, position);
    if rule in rules {
      var k :| 0 <= k < |rules| && rules[k] == rule;
      assert s[k].rule == rule;
    }
    if Fired(s, rule) {
      var k :| 0 <= k < |s| && s[k].rule == rule;
      assert rules[k] == rule;
    }
  }

  /**
   * Each rule issues an order exactly when its condition holds, and the rules
   * for a flat book never fire together with the rules for a long one.
   */
  lemma EachRuleFiresOnItsCondition(buyValue: seq<real>, bar: Bar, rule: Rule)
    requires Step(buyValue, bar).Ok?
    ensures Fired(Step(buyValue, bar).value.intents, rule) <==> Fires(rule, buyValue, bar)
    ensures Fired(Step(buyValue, bar).value.intents, rule) ==> (FlatRule(rule) <==> bar.position <= 0)
  {
    FiredOrders(Firing(buyValue, bar), bar.position, rule);
  }

  /** The strategy driven over consecutive bars; an exception ends the run. */
  function Run(buyValue: seq<real>, bars: seq<Bar>): (r: Result<Transition, Error>)
    ensures r.Ok? ==> |r.value.intents| <= 3 * |bars|
    decreases |bars|
  {
    if bars == [] then
      Ok(Transition(buyValue, []))
    else
      match Step(buyValue, bars[0])
      case Err(e) => Err(e)
      case Ok(t) =>
        match Run(t.buyValue, bars[1..])
        case Err(e) => Err(e)
        case Ok(u) => Ok(Transition(u.buyValue, t.intents + u.intents))
  }

  /** The closes of a run of bars. */
  function Closes(bars: seq<Bar>): seq<real>
  {
    seq(|bars|, i requires 0 <= i < |bars| => bars[i].close)
  }

  /** Flat with the close at or below the lower band, and the lower band at or below the mid band: two entries. */
  lemma DoubleEntryWhenFlat(buyValue: seq<real>, bar: Bar)
    requires bar.position <= 0 && bar.close <= bar.bot <= bar.mid
    ensures Step(buyValue, bar).Ok?
    ensures Step(buyValue, bar).value.intents ==
              [TargetPercent(LowerBandEntry, EntryTarget), TargetPercent(MidBandReentry, EntryTarget)]
    ensures Step(buyValue, bar).value.buyValue == buyValue + [bar.close, bar.close]
  {
  }

  /**
   * The mid-band rule passes half the share count as a portfolio fraction: with
   * two shares or more it asks for at least 100% of the portfolio, which is
   * more than either entry target, never a trim.
   */
  lemma MidBandTargetIsShareCount(buyValue: seq<real>, bar: Bar)
    requires bar.position >= 2 && bar.close >= bar.mid && !(bar.close <= bar.bot && buyValue == [])
    ensures Step(buyValue, bar).Ok?
    ensures TargetPercent(MidBandTrim, (bar.position / 2) as real) in Step(buyValue, bar).value.intents
    ensures (bar.position / 2) as real >= 1.0 > AddTarget > EntryTarget
  {
  }

  /**
   * Holding with the close at or above the top band closes the position and
   * leaves the history empty, even when the mid-band rule appended to it first.
   */
  lemma TopBandClearsHistory(buyValue: seq<real>, bar: Bar)
    requires Step(buyValue, bar).Ok? && bar.position > 0 && bar.close >= bar.top
    ensures TargetPercent(TopBandExit, ExitTarget) in Step(buyValue, bar).value.intents
    ensures Step(buyValue, bar).value.buyValue == []
  {
  }

  /** Every recorded entry price was already recorded or is the close of a bar of the run. */
  lemma {:induction false} RecordedPricesAreCloses(buyValue: seq<real>, bars: seq<Bar>)
    ensures Run(buyValue, bars).Ok? ==>
              forall x :: x in Run(buyValue, bars).value.buyValue ==> x in buyValue || x in Closes(bars)
    decreases |bars|
  {
    if bars != [] {
      match Step(buyValue, bars[0])
      case Err(_) =>
      case Ok(t) =>
        RecordedPricesAreCloses(t.buyValue, bars[1..]);
        assert Closes(bars) == [bars[0].close] + Closes(bars[1..]);
    }
  }

  /** While the broker reports no long position the strategy never raises and only asks for 30%. */
  lemma {:induction false} FlatRunOnlyEnters(buyValue: seq<real>, bars: seq<Bar>)
    requires forall i :: 0 <= i < |bars| ==> bars[i].position <= 0
    ensures Run(buyValue, bars).Ok?
    ensures forall o :: o in Run(buyValue, bars).value.intents ==> o.target == EntryTarget
    decreases |bars|
  {
    if bars != [] {
      var t := Step(buyValue, bars[0]).value;
      FlatRunOnlyEnters(t.buyValue, bars[1..]);
    }
  }

  /** The strategy object; `buy_value` is updated in place by `Next`. */
  class BBandStrategy {
    var buyValue: seq<real>

    constructor ()
      ensures buyValue == []
    {
      buyValue := [];
    }

    /** One call of `next`: returns the orders issued, or the exception raised. */
    method Next(bar: Bar) returns (r: Result<seq<Order>, Error>)
      modifies this
      ensures Step(old(buyValue), bar).Ok? ==>
                r == Ok(Step(old(buyValue), bar).value.intents) && buyValue == Step(old(buyValue), bar).value.buyValue
      ensures Step(old(buyValue), bar).Err? ==>
                r == Err(Step(old(buyValue), bar).error) && buyValue == old(buyValue)
    {
      var positionSize := bar.position;
      var close := bar.close;
      var intents: seq<Order> := [];
      if close <= bar.bot && positionSize <= 0 {
        intents := intents + [TargetPercent(LowerBandEntry, EntryTarget)];
        buyValue := buyValue + [close];
      }
      if close <= bar.bot && positionSize > 0 {
        if buyValue == [] {
          return Err(NoEntryRecorded);
        }
        if close < buyValue[|buyValue| - 1] {
          intents := intents + [TargetPercent(LowerBandAdd, AddTarget)];
          buyValue := buyValue + [close];
        }
      }
      if close >= bar.mid && positionSize > 0 {
        intents := intents + [TargetPercent(MidBandTrim, (positionSize / 2) as real)];
        buyValue := buyValue + [close];
      }
      if close >= bar.top && positionSize > 0 {
        intents := intents + [TargetPercent(TopBandExit, ExitTarget)];
        buyValue := [];
      }
      if close <= bar.mid && positionSize <= 0 {
        intents := intents + [TargetPercent(MidBandReentry, EntryTarget)];
        buyValue := buyValue + [close];
      }
      return Ok(intents);
    }
  }
}
