/**
  How the checkout page's earliest pickup date (a calendar day in the browser's
  time zone) relates to the server's lead-time rule (an instant compared with
  `now + 3 days`).

  The browser runs at `offset` from UTC (negative west of Greenwich; the bakery
  in Thornhill, Ontario is at UTC-5 in winter and UTC-4 in summer). The page's
  "today" is the local day of the server's `now`. The page sends the chosen day
  and hour marked as UTC, so the server reads the instant
  `day * Day + hour * Hour`, not the local time the shopper picked.
*/
module PickupLeadTime {
  import Checkout
  import CartStore
  import OrderValidation

  const Hour: int := 3_600_000_000

  /** The hours the pickup-time select offers, 10:00 to 18:00. */
  predicate IsPickupHour(h: int)
  {
    10 <= h <= 18
  }

  /** The instant the server reads from the chosen day and hour. */
  function PickupInstant(day: int, hour: int): OrderValidation.Instant
  {
    day * OrderValidation.Day + hour * Hour
  }

  /** The browser's calendar day at instant `now`. */
  function LocalDay(now: OrderValidation.Instant, offset: int): int
  {
    (now + offset) / OrderValidation.Day
  }

  /** The browser's clock reading at instant `now`, from local midnight. */
  function LocalTimeOfDay(now: OrderValidation.Instant, offset: int): (t: int)
    ensures 0 <= t < OrderValidation.Day
    ensures now + offset == LocalDay(now, offset) * OrderValidation.Day + t
  {
    (now + offset) % OrderValidation.Day
  }

  /** The posted items carry the same custom-cake flags as the cart lines they came from. */
  predicate SameFlags(lines: seq<CartStore.CartLine>, items: seq<OrderValidation.ItemData>)
  {
    |lines| == |items| && forall i :: 0 <= i < |lines| ==> lines[i].isCustomCake == items[i].product.isCustomCake
  }

  /** Client and server agree on whether the order holds a custom cake. */
  lemma SameCustomCakeVerdict(lines: seq<CartStore.CartLine>, items: seq<OrderValidation.ItemData>)
    requires SameFlags(lines, items)
    ensures Checkout.HasCustomCake(lines) <==> OrderValidation.HasCustomCake(items)
  {
    if Checkout.HasCustomCake(lines) {
      var i :| 0 <= i < |lines| && lines[i].isCustomCake;
      assert items[i].product.isCustomCake;
    }
    if OrderValidation.HasCustomCake(items) {
      var i :| 0 <= i < |items| && items[i].product.isCustomCake;
      assert lines[i].isCustomCake;
    }
  }

  /**
    Without a custom cake, a day the page offers passes the server whenever the
    chosen hour, read as UTC, is not before local midnight; from UTC-10 eastward
    (the bakery's zone included) that holds for every offered day and hour.
  */
  lemma OrdinaryPickupAccepted(
    lines: seq<CartStore.CartLine>, data: OrderValidation.OrderIn,
    now: OrderValidation.Instant, offset: int, day: int, hour: int)
    requires SameFlags(lines, data.items) && !Checkout.HasCustomCake(lines)
    requires day >= Checkout.MinPickupDay(lines, LocalDay(now, offset)) && IsPickupHour(hour)
    requires data.pickupDatetime == PickupInstant(day, hour)
    ensures hour * Hour + offset >= 0 ==> OrderValidation.Acceptable(data, now)
    ensures offset >= -10 * Hour ==> OrderValidation.Acceptable(data, now)
  {
    SameCustomCakeVerdict(lines, data.items);
    var today, t := LocalDay(now, offset), LocalTimeOfDay(now, offset);
    assert day >= today + 1;
    assert day * OrderValidation.Day >= (today + 1) * OrderValidation.Day;
  }

  /**
    With a custom cake, the earliest day the page offers passes the server
    exactly when the chosen hour, shifted by the offset, is not earlier than the
    local time of the check; otherwise the server answers with the lead-time
    message.
  */
  lemma CustomCakeEarliestDay(
    lines: seq<CartStore.CartLine>, data: OrderValidation.OrderIn,
    now: OrderValidation.Instant, offset: int, hour: int)
    requires SameFlags(lines, data.items) && Checkout.HasCustomCake(lines)
    requires IsPickupHour(hour)
    requires data.pickupDatetime == PickupInstant(Checkout.MinPickupDay(lines, LocalDay(now, offset)), hour)
    ensures OrderValidation.Acceptable(data, now) <==> hour * Hour + offset >= LocalTimeOfDay(now, offset)
    ensures !OrderValidation.Acceptable(data, now) ==>
      OrderValidation.RejectionFor(data, now).message == OrderValidation.LeadTimeMessage
  {
    SameCustomCakeVerdict(lines, data.items);
    var today, t := LocalDay(now, offset), LocalTimeOfDay(now, offset);
    assert Checkout.MinPickupDay(lines, today) == today + 3;
    assert (today + 3) * OrderValidation.Day == today * OrderValidation.Day + OrderValidation.LeadTime;
  }

  /**
    In the bakery's zone, a custom-cake order placed after 14:00 local time is
    refused for every time slot of the earliest day the page offers (after 13:00
    in winter, at UTC-5).
  */
  lemma CustomCakeEarliestDayRefusedInTheEvening(
    lines: seq<CartStore.CartLine>, data: OrderValidation.OrderIn,
    now: OrderValidation.Instant, offset: int, hour: int)
    requires SameFlags(lines, data.items) && Checkout.HasCustomCake(lines)
    requires IsPickupHour(hour)
    requires data.pickupDatetime == PickupInstant(Checkout.MinPickupDay(lines, LocalDay(now, offset)), hour)
    requires offset == -4 * Hour || offset == -5 * Hour
    requires LocalTimeOfDay(now, offset) > 14 * Hour
    ensures !OrderValidation.Acceptable(data, now)
    ensures OrderValidation.RejectionFor(data, now).message == OrderValidation.LeadTimeMessage
  {
    CustomCakeEarliestDay(lines, data, now, offset, hour);
  }

  /**
    With a custom cake, any day after the page's earliest one passes the server
    whenever the chosen hour, read as UTC, is not before local midnight; from
    UTC-10 eastward that holds for every offered hour.
  */
  lemma CustomCakeLaterDayAccepted(
    lines: seq<CartStore.CartLine>, data: OrderValidation.OrderIn,
    now: OrderValidation.Instant, offset: int, day: int, hour: int)
    requires SameFlags(lines, data.items) && Checkout.HasCustomCake(lines)
    requires IsPickupHour(hour)
    requires day > Checkout.MinPickupDay(lines, LocalDay(now, offset))
    requires data.pickupDatetime == PickupInstant(day, hour)
    ensures hour * Hour + offset >= 0 ==> OrderValidation.Acceptable(data, now)
    ensures offset >= -10 * Hour ==> OrderValidation.Acceptable(data, now)
  {
    SameCustomCakeVerdict(lines, data.items);
    var today, t := LocalDay(now, offset), LocalTimeOfDay(now, offset);
    assert day >= today + 4;
    assert day * OrderValidation.Day >= (today + 4) * OrderValidation.Day;
  }
}
