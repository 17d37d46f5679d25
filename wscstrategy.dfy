/**
 * The one-shot buy strategy of the WebSocket client (`TradingStrategy.process_event`). The
 * trader is external: the orders it is asked to place are recorded in order.
 */
module WscStrategy {
  import opened Wrappers
  import opened Models

  /** One `trader.place_order(stock_code, order_type, quantity)` call. */
  datatype OrderCall = OrderCall(stockCode: string, orderType: string, quantity: int)

  const MarketOrder: string := "02"
  const PriceCeiling: int := 70000

  /** `event.get("type") == "price" and event.get("code") == target` */
  predicate IsTargetPrice(event: Dict, target: string)
  {
    Get(event, "type") == Some(VStr("price")) && Get(event, "code") == Some(VStr(target))
  }

  /**
   * `event['price'] <= 70000`: a missing key raises KeyError, a number (a bool counts as
   * 0 or 1) is compared, and any other value raises TypeError.
   */
  function WithinCeiling(price: Option<Value>): (r: Result<bool>)
    ensures price.None? ==> r == Err(KeyError("price"))
    ensures price.Some? && price.value.VInt? ==> r == Ok(price.value.i <= PriceCeiling)
    ensures price.Some? && price.value.VReal? ==> r == Ok(price.value.r <= PriceCeiling as real)
    ensures price.Some? && price.value.VBool? ==> r == Ok(true)
    ensures price.Some? && !(price.value.VInt? || price.value.VReal? || price.value.VBool?) ==> r.Err? && r.error.TypeError?
  {
    match price
    case None => Err(KeyError("price"))
    case Some(VInt(i)) => Ok(i <= PriceCeiling)
    case Some(VReal(x)) => Ok(x <= PriceCeiling as real)
    case Some(VBool(b)) => Ok((if b then 1 else 0) <= PriceCeiling)
    case Some(_) => Err(TypeError("'<=' not supported"))
  }

  /**
   * Whether an event places the order: only a price event for the target while no position
   * is held looks at the price; the price is read only then.
   */
  function Decide(hasPosition: bool, event: Dict, target: string): Result<bool>
  {
    if !IsTargetPrice(event, target) || hasPosition then Ok(false)
    else WithinCeiling(Get(event, "price"))
  }

  /** An order is placed exactly for a target price event at most 70000 while flat. */
  lemma DecideSpec(hasPosition: bool, event: Dict, target: string)
    ensures Decide(hasPosition, event, target) == Ok(true) <==>
      IsTargetPrice(event, target) && !hasPosition && Get(event, "price").Some?
      && match Get(event, "price").value
         case VInt(i) => i <= PriceCeiling
         case VReal(x) => x <= PriceCeiling as real
         case VBool(_) => true
         case _ => false
    ensures hasPosition ==> Decide(hasPosition, event, target) == Ok(false)
  {
  }

  /**
   * What `process_event` reports: whether an order was placed, the exception the price
   * comparison raised, or the exception `place_order` raised (`fail`), which escapes before
   * the position flag is set.
   */
  function Outcome(hasPosition: bool, event: Dict, target: string, fail: Option<Error>): Result<bool>
  {
    match Decide(hasPosition, event, target)
    case Ok(true) => if fail.Some? then Err(fail.value) else Ok(true)
    case d => d
  }

  /**
   * The number of orders that went through while events are handled in turn, `fail` being
   * the outcome of the one `place_order` call the run can make; an exception ends the
   * consuming loop, as it escapes `run`.
   */
  function Replay(hasPosition: bool, events: seq<Dict>, target: string, fail: Option<Error>): (placed: nat)
    decreases |events|
  {
    if |events| == 0 then 0
    else
      match Outcome(hasPosition, events[0], target, fail)
      case Err(_) => 0
      case Ok(buy) => (if buy then 1 else 0) + Replay(hasPosition || buy, events[1..], target, fail)
  }

  /**
   * A run places at most one order, none when a position is already held, and none when
   * the trader's call raises.
   */
  lemma {:induction false} ReplayAtMostOne(hasPosition: bool, events: seq<Dict>, target: string, fail: Option<Error>)
    ensures Replay(hasPosition, events, target, fail) <= (if hasPosition || fail.Some? then 0 else 1)
    decreases |events|
  {
    if |events| > 0 {
      var o := Outcome(hasPosition, events[0], target, fail);
      if o.Ok? {
        ReplayAtMostOne(hasPosition || o.value, events[1..], target, fail);
        if o.value {
          DecideSpec(true, events[0], target);
          ReplayHeld(events[1..], target, fail);
        }
      }
    }
  }

  /** While a position is held no event places an order. */
  lemma {:induction false} ReplayHeld(events: seq<Dict>, target: string, fail: Option<Error>)
    ensures Replay(true, events, target, fail) == 0
    decreases |events|
  {
    if |events| > 0 {
      DecideSpec(true, events[0], target);
      ReplayHeld(events[1..], target, fail);
    }
  }

  class TradingStrategy {
    const target: string
    var hasPosition: bool
    /** The calls made on the trader so far. */
    var orders: seq<OrderCall>

    /**
     * Every call on the trader is the market order of one share of the target, and a
     * position is held only after such a call.
     */
    predicate Valid()
      reads this
    {
      (hasPosition ==> |orders| >= 1)
      && forall k | 0 <= k < |orders| :: orders[k] == OrderCall(target, MarketOrder, 1)
    }

    constructor(targetStock: string)
      ensures Valid() && target == targetStock && !hasPosition && orders == []
    {
      target := targetStock;
      hasPosition := false;
      orders := [];
    }

    /**
     * `process_event`: a qualifying event calls `place_order(target, "02", 1)` and, when
     * that call returns (`fail` is None), sets the position flag; every other event changes
     * nothing. The outcome is whether an order was placed, or the exception raised.
     */
    method ProcessEvent(event: Dict, fail: Option<Error>) returns (r: Result<bool>)
      requires Valid()
      modifies this
      ensures Valid()
      ensures r == Outcome(old(hasPosition), event, target, fail)
      ensures Decide(old(hasPosition), event, target) == Ok(true) ==>
        orders == old(orders) + [OrderCall(target, MarketOrder, 1)] && (hasPosition <==> fail.None?)
      ensures Decide(old(hasPosition), event, target) != Ok(true) ==>
        hasPosition == old(hasPosition) && orders == old(orders)
      ensures old(hasPosition) ==> hasPosition && orders == old(orders)
      ensures hasPosition <==> old(hasPosition) || r == Ok(true)
    {
      r := Ok(false);
      if Get(event, "type") == Some(VStr("price")) && Get(event, "code") == Some(VStr(target)) {
        if !hasPosition {
          r := WithinCeiling(Get(event, "price"));
          if r == Ok(true) {
            orders := orders + [OrderCall(target, MarketOrder, 1)];
            if fail.Some? {
              return Err(fail.value);
            }
            hasPosition := true;
          }
        }
      }
    }
  }
}
