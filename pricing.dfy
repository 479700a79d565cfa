/**
 * The repricing step of `drawInflationEvent` (src/components/GameBoard.tsx):
 * a pure map over the price list that applies, to each resource, the first
 * effect of the event whose category filter matches it.
 */
module Pricing {
  import opened Wrappers
  import opened Types

  /**
   * A resource as the board displays it (`PriceWithChange`): the resource
   * with its current price in `item.basePrice`, and the price and percentage
   * change of the latest repricing, absent until the first one.
   */
  datatype PricedResource = PricedResource(
    item: Resource,
    previousPrice: Option<int>,
    percentageChange: Option<int>)

  /** The resource table as an initial, not yet repriced, price list. */
  function Unpriced(resources: seq<Resource>): (r: seq<PricedResource>)
    ensures |r| == |resources|
    ensures forall i :: 0 <= i < |r| ==>
              r[i].item == resources[i] && r[i].previousPrice.None? && r[i].percentageChange.None?
  {
    seq(|resources|, i requires 0 <= i < |resources| => PricedResource(resources[i], None, None))
  }

  /**
   * `!e.category || e.category === resource.category`: an absent filter, or
   * an empty one (which JavaScript treats as false), matches every category.
   */
  predicate Matches(e: Effect, c: Category)
  {
    e.category.None? || e.category.value == "" || e.category.value == CategoryName(c)
  }

  /** Effect `k` is the first one in `effects` that matches category `c`. */
  predicate IsFirstMatch(effects: seq<Effect>, c: Category, k: int)
  {
    0 <= k < |effects| && Matches(effects[k], c) &&
    forall j :: 0 <= j < k ==> !Matches(effects[j], c)
  }

  /** `event.effects.find(...)`: the first effect that matches `c`, if any. */
  function FindEffect(effects: seq<Effect>, c: Category): (r: Option<Effect>)
    ensures r.Some? ==> r.value in effects && Matches(r.value, c)
    ensures r.None? ==> forall k :: 0 <= k < |effects| ==> !Matches(effects[k], c)
  {
    if effects == [] then None
    else if Matches(effects[0], c) then Some(effects[0])
    else FindEffect(effects[1..], c)
  }

  /** `find` returns the first matching effect, whatever follows it. */
  lemma {:induction false} FindEffectIsFirst(effects: seq<Effect>, c: Category, k: int)
    requires IsFirstMatch(effects, c, k)
    ensures FindEffect(effects, c) == Some(effects[k])
  {
    if k > 0 {
      assert !Matches(effects[0], c);
      FindEffectIsFirst(effects[1..], c, k - 1);
    }
  }

  /**
   * `Math.round(price * multiplier)` with the multiplier in hundredths.
   * JavaScript rounds halves up, toward positive infinity.
   */
  function RoundedPercent(price: int, percent: int): int
  {
    (price * percent + 50) / 100
  }

  /**
   * The rounded value is the integer nearest to price * percent / 100, a
   * tie going to the larger one, and it is the only integer that is.
   */
  lemma RoundedPercentIsNearest(price: int, percent: int, n: int)
    ensures var r := RoundedPercent(price, percent);
            100 * r - 50 <= price * percent < 100 * r + 50
    ensures 100 * n - 50 <= price * percent < 100 * n + 50 ==> n == RoundedPercent(price, percent)
  {
  }

  /** Two resources that agree on everything except their price. */
  predicate SameGoods(a: Resource, b: Resource)
  {
    a.id == b.id && a.name == b.name && a.isRequired == b.isRequired &&
    a.category == b.category && a.energyBoost == b.energyBoost
  }

  /**
   * Repricing of one resource under an event: only the price changes, and
   * the pre-call price becomes the previous one.
   */
  function Reprice(p: PricedResource, event: InflationEvent): (r: PricedResource)
    ensures SameGoods(r.item, p.item)
    ensures r.previousPrice == Some(p.item.basePrice) && r.percentageChange.Some?
  {
    var price := p.item.basePrice;
    match FindEffect(event.effects, p.item.category)
    case Some(effect) =>
      PricedResource(p.item.(basePrice := RoundedPercent(price, effect.multiplierPercent)),
                     Some(price), Some(effect.multiplierPercent - 100))
    case None =>
      PricedResource(p.item, Some(price), Some(0))
  }

  /** The price list after `event` (the `currentPrices.map(...)` of `drawInflationEvent`). */
  function ApplyEvent(prices: seq<PricedResource>, event: InflationEvent): seq<PricedResource>
  {
    seq(|prices|, i requires 0 <= i < |prices| => Reprice(prices[i], event))
  }

  /**
   * Repricing keeps the length and the order of the list, changes nothing of
   * a resource but its price, and records the pre-call price as the previous one.
   */
  lemma ApplyEventKeepsGoods(prices: seq<PricedResource>, event: InflationEvent)
    ensures var r := ApplyEvent(prices, event);
            |r| == |prices| &&
            forall i :: 0 <= i < |r| ==>
              SameGoods(r[i].item, prices[i].item) && r[i].previousPrice == Some(prices[i].item.basePrice)
  {
  }

  /**
   * When effect `k` is the first one matching resource `i`, the new price is
   * the old one times that multiplier, rounded half up, and the percentage
   * change is the multiplier minus 100%.
   */
  lemma ApplyEventUsesFirstMatch(prices: seq<PricedResource>, event: InflationEvent, i: int, k: int)
    requires 0 <= i < |prices|
    requires IsFirstMatch(event.effects, prices[i].item.category, k)
    ensures var q := ApplyEvent(prices, event)[i];
            q.item.basePrice == RoundedPercent(prices[i].item.basePrice, event.effects[k].multiplierPercent) &&
            q.percentageChange == Some(event.effects[k].multiplierPercent - 100)
  {
    FindEffectIsFirst(event.effects, prices[i].item.category, k);
  }

  /** When no effect matches resource `i`, its price stays and the change is 0%. */
  lemma ApplyEventWithoutMatch(prices: seq<PricedResource>, event: InflationEvent, i: int)
    requires 0 <= i < |prices|
    requires forall k :: 0 <= k < |event.effects| ==> !Matches(event.effects[k], prices[i].item.category)
    ensures var q := ApplyEvent(prices, event)[i];
            q.item.basePrice == prices[i].item.basePrice && q.percentageChange == Some(0)
  {
  }

  /**
   * The recorded percentage explains the new price: applying it to the
   * previous price, with the same rounding, gives the current price exactly.
   */
  lemma PercentageChangeExplainsPrice(prices: seq<PricedResource>, event: InflationEvent, i: int)
    requires 0 <= i < |prices|
    ensures var q := ApplyEvent(prices, event)[i];
            q.previousPrice.Some? && q.percentageChange.Some? &&
            RoundedPercent(q.previousPrice.value, 100 + q.percentageChange.value) == q.item.basePrice
  {
  }

  /** An event none of whose multipliers is below 1. */
  predicate Inflationary(event: InflationEvent)
  {
    forall e :: e in event.effects ==> e.multiplierPercent >= 100
  }

  /** An inflationary event never lowers a non-negative price. */
  lemma ApplyEventNeverLowers(prices: seq<PricedResource>, event: InflationEvent, i: int)
    requires Inflationary(event)
    requires 0 <= i < |prices| && prices[i].item.basePrice >= 0
    ensures ApplyEvent(prices, event)[i].item.basePrice >= prices[i].item.basePrice
  {
  }
}
