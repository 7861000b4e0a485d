/**
  The checkout page's rules (frontend/src/app/checkout/page.tsx): the earliest
  pickup date it offers, the order payload it posts, and what `handleSubmit`
  does with the store and the page's state when the post succeeds or fails.

  Dates are day numbers; `format(addDays(new Date(), n), 'yyyy-MM-dd')` is the
  ISO date of day `today + n`. The POST itself is not modelled: its outcome is
  a parameter of `HandleSubmit`.
*/
module Checkout {
  import opened Wrappers
  import opened CartStore
  import opened CartId

  /** The form's fields. */
  datatype FormData = FormData(
    name: string, email: string, phone: string, pickupDate: string, pickupTime: string)

  /** One entry of the payload's `items`. */
  datatype OrderItem = OrderItem(
    product: nat, quantity: int,
    flavor: Option<string>, filling: Option<string>, size: Option<string>,
    price: int)

  /** The JSON body posted to `/orders/`. */
  datatype OrderData = OrderData(
    customerName: string, email: string, phone: string,
    totalPrice: int, pickupDatetime: string, items: seq<OrderItem>)

  // ---------------------------------------------------------------------------
  // Earliest pickup

  /** `items.some(item => item.isCustomCake)`. */
  function HasCustomCake(items: seq<CartLine>): (b: bool)
    ensures b <==> exists i :: 0 <= i < |items| && items[i].isCustomCake
  {
    if items == [] then false else items[0].isCustomCake || HasCustomCake(items[1..])
  }

  /** The day `minDate` names: three days ahead with a custom cake in the cart, else one. */
  function MinPickupDay(items: seq<CartLine>, today: int): (day: int)
    ensures day == today + 3 <==> exists i :: 0 <= i < |items| && items[i].isCustomCake
    ensures day == today + 1 <==> forall i :: 0 <= i < |items| ==> !items[i].isCustomCake
  {
    if HasCustomCake(items) then today + 3 else today + 1
  }

  // ---------------------------------------------------------------------------
  // pickup_datetime

  /** The shape of a date input's value: `yyyy-MM-dd`. */
  predicate IsFullDate(d: string)
  {
    && |d| == 10
    && IsDigit(d[0]) && IsDigit(d[1]) && IsDigit(d[2]) && IsDigit(d[3]) && d[4] == '-'
    && IsDigit(d[5]) && IsDigit(d[6]) && d[7] == '-' && IsDigit(d[8]) && IsDigit(d[9])
  }

  /** The shape of a time input's value: `HH:mm`. */
  predicate IsHourMinute(t: string)
  {
    |t| == 5 && IsDigit(t[0]) && IsDigit(t[1]) && t[2] == ':' && IsDigit(t[3]) && IsDigit(t[4])
  }

  /** The shape of an RFC 3339 (section 5.6) UTC date-time with whole seconds, `yyyy-MM-ddTHH:mm:ssZ`. */
  predicate IsUtcDateTime(s: string)
  {
    && |s| == 20
    && IsFullDate(s[..10]) && s[10] == 'T' && IsHourMinute(s[11..16])
    && s[16] == ':' && IsDigit(s[17]) && IsDigit(s[18]) && s[19] == 'Z'
  }

  /** The `pickup_datetime` text: the chosen date and time, zero seconds, marked as UTC. */
  function PickupDatetime(date: string, time: string): (s: string)
    ensures |s| == |date| + |time| + 5
    ensures s[..|date|] == date && s[|date|] == 'T'
    ensures s[|date| + 1..|date| + 1 + |time|] == time
    ensures s[|date| + 1 + |time|..] == ":00Z"
  {
    date + "T" + time + ":00Z"
  }

  /**
    A date and a time of the inputs' shapes make text of the shape of an RFC 3339 UTC date-time, and
    only they do; the date and the time can be read back out of it.
  */
  lemma PickupDatetimeFormat(date: string, time: string)
    requires |date| == 10 && |time| == 5
    ensures IsUtcDateTime(PickupDatetime(date, time)) <==> IsFullDate(date) && IsHourMinute(time)
    ensures PickupDatetime(date, time)[..10] == date
    ensures PickupDatetime(date, time)[11..16] == time
    ensures PickupDatetime(date, time)[17..19] == "00"
  {
    var s := PickupDatetime(date, time);
    assert s[..10] == date;
    assert s[11..16] == time;
  }

  // ---------------------------------------------------------------------------
  // The payload

  /** `value || null` for an optional string: a missing or empty option is sent as null. */
  function OrNull(s: Option<string>): (r: Option<string>)
    ensures r.None? <==> s.None? || s.value == ""
    ensures r.Some? ==> r == s
  {
    if s.Some? && s.value != "" then s else None
  }

  /** One payload entry: the line's id, quantity and price, each option or null. */
  function PayloadItem(line: CartLine): (r: OrderItem)
    ensures r.product == line.id && r.quantity == line.quantity && r.price * r.quantity == LineTotal(line)
    ensures r.flavor.None? <==> line.flavor.None? || line.flavor.value == ""
    ensures r.filling.None? <==> line.filling.None? || line.filling.value == ""
    ensures r.size.None? <==> line.size.None? || line.size.value == ""
    ensures r.flavor.Some? ==> r.flavor == line.flavor
    ensures r.filling.Some? ==> r.filling == line.filling
    ensures r.size.Some? ==> r.size == line.size
  {
    OrderItem(line.id, line.quantity, OrNull(line.flavor), OrNull(line.filling), OrNull(line.size), line.price)
  }

  /** `items.map(...)` building the payload's items. */
  function PayloadItems(lines: seq<CartLine>): (r: seq<OrderItem>)
    ensures |r| == |lines|
    ensures forall i :: 0 <= i < |lines| ==> r[i] == PayloadItem(lines[i])
  {
    if lines == [] then [] else [PayloadItem(lines[0])] + PayloadItems(lines[1..])
  }

  /** One payload entry per line, in order, with id, quantity and price copied and blank options nulled. */
  lemma PayloadCopiesLines(lines: seq<CartLine>)
    ensures |PayloadItems(lines)| == |lines|
    ensures forall i :: 0 <= i < |lines| ==>
      && PayloadItems(lines)[i].product == lines[i].id
      && PayloadItems(lines)[i].quantity == lines[i].quantity
      && PayloadItems(lines)[i].price == lines[i].price
      && (PayloadItems(lines)[i].flavor.None? <==> lines[i].flavor.None? || lines[i].flavor.value == "")
      && (PayloadItems(lines)[i].filling.None? <==> lines[i].filling.None? || lines[i].filling.value == "")
      && (PayloadItems(lines)[i].size.None? <==> lines[i].size.None? || lines[i].size.value == "")
  {
  }

  /** The sum of price times quantity over the payload's items. */
  function ItemsTotal(items: seq<OrderItem>): int
  {
    if items == [] then 0 else ItemsTotal(items[..|items| - 1]) + items[|items| - 1].price * items[|items| - 1].quantity
  }

  /** The order built from the form and the cart's lines at submission. */
  function BuildOrder(form: FormData, lines: seq<CartLine>): (o: OrderData)
    ensures o.totalPrice == Total(lines) && o.totalPrice == ItemsTotal(o.items)
    ensures |o.items| == |lines| && o.items == PayloadItems(lines)
    ensures o.pickupDatetime == PickupDatetime(form.pickupDate, form.pickupTime)
    ensures o.customerName == form.name && o.email == form.email && o.phone == form.phone
    ensures |form.pickupDate| < |o.pickupDatetime| && o.pickupDatetime[..|form.pickupDate|] == form.pickupDate
  {
    OrderTotalMatchesItems(lines);
    OrderData(form.name, form.email, form.phone, Total(lines),
              PickupDatetime(form.pickupDate, form.pickupTime), PayloadItems(lines))
  }

  /** The cart total, which is posted as `total_price`, is also the sum over the posted items. */
  lemma {:induction false} OrderTotalMatchesItems(lines: seq<CartLine>)
    ensures Total(lines) == ItemsTotal(PayloadItems(lines))
  {
    if lines != [] {
      var front := lines[..|lines| - 1];
      OrderTotalMatchesItems(front);
      var items := PayloadItems(lines);
      assert items[..|items| - 1] == PayloadItems(front);
    }
  }

  // ---------------------------------------------------------------------------
  // handleSubmit

  /** What the POST to `/orders/` came back with: success, or an error carrying a message. */
  datatype PostOutcome = Posted | Failed(message: string)

  const DefaultError: string := "An error occurred while placing your order."

  /** The checkout page's state and the store it reads. */
  class CheckoutPage {
    const cart: Cart
    var form: FormData
    var isLoading: bool
    var error: string
    var success: bool

    /** The page as first rendered; `tomorrow` is the ISO date of today plus one day. */
    constructor (cart: Cart, tomorrow: string)
      ensures this.cart == cart
      ensures form == FormData("", "", "", tomorrow, "12:00")
      ensures !isLoading && error == "" && !success
    {
      this.cart := cart;
      form := FormData("", "", "", tomorrow, "12:00");
      isLoading := false;
      error := "";
      success := false;
    }

    /**
      `handleSubmit`: posts the order built from the form and the current lines;
      on success marks the page done and clears the cart, on failure keeps the
      cart and shows the error's message or the default text.
    */
    method HandleSubmit(outcome: PostOutcome) returns (sent: OrderData)
      requires cart.Valid()
      modifies this, cart
      ensures sent == BuildOrder(form, old(cart.items))
      ensures form == old(form) && cart.Valid()
      ensures !isLoading
      ensures outcome.Posted? ==> success && error == "" && cart.items == []
      ensures outcome.Failed? ==>
        && success == old(success)
        && cart.items == old(cart.items)
        && error == (if outcome.message == "" then DefaultError else outcome.message)
    {
      isLoading := true;
      error := "";
      var total := cart.GetTotalPrice();
      sent := OrderData(form.name, form.email, form.phone, total,
                        PickupDatetime(form.pickupDate, form.pickupTime), PayloadItems(cart.items));
      match outcome {
        case Posted =>
          success := true;
          cart.ClearCart();
        case Failed(message) =>
          error := if message == "" then DefaultError else message;
      }
      isLoading := false;
    }
  }
}
