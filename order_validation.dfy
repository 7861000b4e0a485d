/**
  `OrderSerializer.validate` (backend/api/serializers.py): the pickup rules the
  server applies to an order after field validation.

  Instants are whole microseconds since the epoch, the resolution of Python's
  `datetime`; `now` is the value `timezone.now()` returns.
*/
module OrderValidation {
  import opened Wrappers

  type Instant = int

  const Day: int := 86_400_000_000
  /** `timedelta(days=3)`. */
  const LeadTime: int := 3 * Day

  /** The ordered product as the serializer resolves it from the primary key. */
  datatype ProductRef = ProductRef(id: nat, isCustomCake: bool)

  /** One validated entry of `items`. */
  datatype ItemData = ItemData(
    product: ProductRef, quantity: int,
    flavor: Option<string>, filling: Option<string>, size: Option<string>,
    price: int)

  /** The status choices of an order (Order.STATUS_CHOICES); new orders are Pending. */
  datatype Status = Pending | Paid | Ready | Collected

  /** The validated fields of an order. */
  datatype OrderIn = OrderIn(
    customerName: string, email: string, phone: string, totalPrice: int,
    pickupDatetime: Instant, status: Status, items: seq<ItemData>)

  /** A `ValidationError` raised with a dictionary of one field and its message. */
  datatype ValidationError = ValidationError(field: string, message: string)

  const PickupField: string := "pickup_datetime"
  const LeadTimeMessage: string := "Custom Cakes require a minimum 3-day lead time from the current date."
  const PastMessage: string := "Pickup time cannot be in the past."

  /** The order contains at least one custom cake. */
  predicate HasCustomCake(items: seq<ItemData>)
  {
    exists i :: 0 <= i < |items| && items[i].product.isCustomCake
  }

  /** The orders the server accepts at `now`. */
  predicate Acceptable(data: OrderIn, now: Instant)
  {
    && (HasCustomCake(data.items) ==> data.pickupDatetime >= now + LeadTime)
    && data.pickupDatetime >= now
  }

  /** The error the server reports for an order it refuses: the lead-time check comes first. */
  function RejectionFor(data: OrderIn, now: Instant): ValidationError
  {
    if HasCustomCake(data.items) && data.pickupDatetime < now + LeadTime
    then ValidationError(PickupField, LeadTimeMessage)
    else ValidationError(PickupField, PastMessage)
  }

  /**
    `validate`: scans the items for a custom cake (stopping at the first), then
    applies the custom-cake lead time and the no-past-pickup rule in that order.
  */
  method Validate(data: OrderIn, now: Instant) returns (r: Result<OrderIn, ValidationError>)
    ensures r.Success? <==> Acceptable(data, now)
    ensures r.Success? ==> r.value == data
    ensures r.Failure? ==> r.error.field == PickupField
    ensures r.Failure? ==> r.error == RejectionFor(data, now)
  {
    var hasCustomCake := false;
    var i := 0;
    while i < |data.items|
      invariant 0 <= i <= |data.items|
      invariant hasCustomCake ==> HasCustomCake(data.items)
      invariant !hasCustomCake ==> forall j :: 0 <= j < i ==> !data.items[j].product.isCustomCake
      invariant !hasCustomCake || i < |data.items|
    {
      if data.items[i].product.isCustomCake {
        hasCustomCake := true;
        break;
      }
      i := i + 1;
    }
    assert hasCustomCake <==> HasCustomCake(data.items);

    if hasCustomCake {
      var minLeadTime := now + LeadTime;
      if data.pickupDatetime < minLeadTime {
        return Failure(ValidationError(PickupField, LeadTimeMessage));
      }
    }
    if data.pickupDatetime < now {
      return Failure(ValidationError(PickupField, PastMessage));
    }
    return Success(data);
  }

  /**
    `Acceptable` restated as distances from `now`: every accepted custom-cake
    order is at least three days out, and every accepted order is not in the
    past. `Validate` succeeds exactly on `Acceptable` orders, so this is what a
    success promises.
  */
  lemma AcceptedBounds(data: OrderIn, now: Instant)
    requires Acceptable(data, now)
    ensures HasCustomCake(data.items) ==> data.pickupDatetime - now >= 3 * Day
    ensures data.pickupDatetime - now >= 0
  {
  }

  /** The boundaries are accepted: a custom cake exactly three days out, any other order exactly now. */
  lemma BoundariesAccepted(data: OrderIn, now: Instant)
    ensures data.pickupDatetime == now + LeadTime ==> Acceptable(data, now)
    ensures !HasCustomCake(data.items) && data.pickupDatetime == now ==> Acceptable(data, now)
  {
  }

  /** A custom-cake order in the past gets the lead-time message, not the past-pickup one. */
  lemma PastCustomCakeReportsLeadTime(data: OrderIn, now: Instant)
    requires HasCustomCake(data.items) && data.pickupDatetime < now
    ensures !Acceptable(data, now)
    ensures RejectionFor(data, now).message == LeadTimeMessage
  {
  }

  /**
    The server has no one-day minimum: an order without custom cakes is accepted
    for any pickup from `now` on, however soon.
  */
  lemma NoOneDayMinimum(data: OrderIn, now: Instant)
    requires !HasCustomCake(data.items)
    ensures Acceptable(data, now) <==> data.pickupDatetime >= now
  {
  }
}
