# Natalie Bakery: cart, checkout and pickup rules in Dafny

This project models the ordering core of the Natalie Bakery web shop and proves
properties of it. The shop has a Next.js storefront and a Django REST backend.

- **Cart store** (`useCartStore`): the list of cart lines a shopper builds.
  - Each line has an id made from the product id and the JSON text of the chosen options.
  - Adding merges into the line with the same id, or else appends a new line.
  - Quantities are capped at 10. `updateQuantity` also floors them at 1; `addItem` does not.
  - There are also remove, clear and the total price.
  - Files: `json.dfy` (the `JSON.stringify` encoding of a flat object, with a decoder), `cart_id.dfy`, `cart_store.dfy`.
- **Checkout page** (`checkout.dfy`):
  - the earliest pickup date it offers (one day ahead, three with a custom cake);
  - the order payload it posts;
  - what submitting does to the cart and the page on success and on failure.
- **Server validation** (`order_validation.dfy`): `OrderSerializer.validate`.
  - A custom-cake order must be at least three days out.
  - No pickup may be in the past.
- **Client and server together** (`lead_time.dfy`): when a date the page offers passes the server's rule.
- **Featured carousel** (`carousel.dfy`): grid or carousel layout, and the index that the arrows, indicators and auto-advance move.
- **Footer badge** (`footer.dfy`): the open/closed predicate over weekday and hour, against the posted hours.

Conventions:

- Prices are integers in cents.
- Server instants are microseconds since the epoch.
- Client dates are day numbers.
- The clock, the network and timers become parameters: "today", "now", the width, and the outcome of the POST.

Where the code and a natural reading of the feature differ, the model follows the code:

- **Empty options.** Only a missing `options` argument gives the bare id. An empty object `{}` is truthy, so it gives `"1-{}"` (`CartId.EmptyOptionsAreNotMissing`).
- **Option order matters.** Options are serialised in insertion order, so an options object with the same members inserted in another order gives another id (`CartId.CartIdInjective`). The product page always inserts flavor, filling and size in that order, and passes no options for a product that is not a custom cake.
- **No lower clamp on add.** `addItem` caps quantities from above only, so a new line can hold 0 or a negative quantity (`CartStore.AddDoesNotFloor`).
- **Client and server lead times differ.**
  - The page's three-day minimum is a calendar date. The server compares against `now + 72h`.
  - The page's "today" is the browser's local date. The chosen local time is sent marked as UTC (`Z`).
  - On a custom-cake order, the earliest offered date passes only when the chosen hour plus the browser's UTC offset is not earlier than the local time of the check (`PickupLeadTime.CustomCakeEarliestDay`).
  - The bakery is in Thornhill, Ontario, at UTC-5 or UTC-4. There, a custom-cake order placed after 14:00 local time is refused at every time slot of the earliest offered date (`PickupLeadTime.CustomCakeEarliestDayRefusedInTheEvening`).
- **Resizing moves the index range.** A resize does not reset the carousel's index.
  - After the window widens, the index can sit past the last window position (`Carousel.WideningLeavesIndexPastLastWindow`).
  - The invariant `0 <= currentIndex <= n - k` therefore holds only while the width is fixed (`Carousel.RunInRange`).
  - What holds across resizes is `0 <= currentIndex <= max(0, n - 1)` (`Carousel.FeaturedCarousel.Valid`).

## Model

| member | source | states |
|---|---|---|
| Json.EscapeChar | frontend/src/store/useCartStore.ts:29 | a character is written as itself exactly when it is not a quote, a backslash or a control character; otherwise as a backslash escape of at least two characters |
| Json.Escape | frontend/src/store/useCartStore.ts:29 | the escaped text is never shorter than the string |
| Json.EscapeWellFormed | frontend/src/store/useCartStore.ts:29 | escaped text holds no raw control character, and is as long as the string exactly when nothing needed escaping |
| Json.Quote | frontend/src/store/useCartStore.ts:29 | a string literal opens and closes with a double quote around at least the string's length |
| Json.MemberText | frontend/src/store/useCartStore.ts:29 | a member's text begins and ends with a double quote and is at least five characters longer than key and value together |
| Json.MembersText | frontend/src/store/useCartStore.ts:29 | the member list is empty exactly when there are no members, begins and ends with a double quote otherwise, and takes at least five characters per member |
| Json.Stringify | frontend/src/store/useCartStore.ts:29 | the object text is enclosed in braces and is `{}` exactly when there are no members |
| Json.EscapePlain | frontend/src/store/useCartStore.ts:29 | text without quotes, backslashes or control characters is written unchanged inside the JSON string |
| Json.EscapeCharRoundTrip | frontend/src/store/useCartStore.ts:29 | each escaped character, including `\"`, `\\`, the short escapes and `\u00XX`, decodes back to that character |
| Json.StringRoundTrip | frontend/src/store/useCartStore.ts:29 | an escaped string followed by its closing quote decodes back to the string and the rest of the input |
| Json.MemberRoundTrip | frontend/src/store/useCartStore.ts:29 | a `"key":"value"` member decodes back to its key and value |
| Json.MembersRoundTrip | frontend/src/store/useCartStore.ts:29 | a comma-separated member list closed by `}` decodes back to the same members in the same order |
| Json.StringifyRoundTrip | frontend/src/store/useCartStore.ts:29 | the stringified object decodes back to its members in insertion order |
| Json.StringifyInjective | frontend/src/store/useCartStore.ts:29 | two member lists with the same JSON text are equal |
| CartId.KeyOf | backend/api/models.py:48-52 | a member name maps to an option key exactly when it is that key's name (flavor, filling, size) |
| CartId.Decimal | frontend/src/store/useCartStore.ts:28 | `toString` of a product id gives at least one decimal digit and nothing else, exactly one digit for ids below 10 |
| CartId.DecimalRoundTrip | frontend/src/store/useCartStore.ts:28 | `toString` of a product id is canonical decimal (no leading zero) whose value is the id |
| CartId.GenerateCartId | frontend/src/store/useCartStore.ts:27-30 | the id begins with the product id in decimal; it is exactly that when the options argument is missing, and otherwise goes on with a dash and a brace-enclosed object |
| CartId.CartIdRoundTrip | frontend/src/store/useCartStore.ts:27-29 | a cart id parses back to the product id and the options argument it was made from, missing or present |
| CartId.CartIdInjective | frontend/src/store/useCartStore.ts:26-29 | equal cart ids imply the same product and the same options argument, so a missing argument, `{}`, and an object with the same members inserted in another order all differ |
| CartId.BareCartId | frontend/src/store/__tests__/cartStore.test.ts:18-21 | without options the id is the canonical decimal text of the product id |
| CartId.EmptyOptionsAreNotMissing | frontend/src/store/useCartStore.ts:28-29 | `generateCartId(1)` is `"1"` and `generateCartId(1, {})` is `"1-{}"` |
| CartStore.Clamp | frontend/src/store/useCartStore.ts:75 | `min(10, max(1, q))` lies in 1..10, is `q` itself when `q` is already in range, 10 for any `q` of 10 or more and 1 for any `q` of 1 or less |
| CartStore.OptionValue | frontend/src/store/useCartStore.ts:61 | a line field set by spreading the options holds a value that was selected for that key, and is unset when no selection has that key |
| CartStore.FindLine | frontend/src/store/useCartStore.ts:38 | `find` returns the first line with the id, and nothing exactly when no line has it |
| CartStore.SetQuantity | frontend/src/store/useCartStore.ts:42-46 | the `map` keeps the length, changes only the quantity of lines with the id and leaves other lines equal |
| CartStore.AfterRemove | frontend/src/store/useCartStore.ts:69 | `filter` keeps exactly the lines whose id differs and never lengthens the list |
| CartStore.NewLine | frontend/src/store/useCartStore.ts:52-62 | a new line's quantity is at most 10 and is the given one when that is at most 10; each selected option lands in its own field, and without options all three are unset |
| CartStore.AfterAdd | frontend/src/store/useCartStore.ts:36-66 | afterwards a line has the generated id; the list grows by one exactly when no line had it; lines with other ids are unchanged |
| CartStore.AddMergesExisting | frontend/src/store/useCartStore.ts:38-47 | adding to a present id keeps the count, sets that line's quantity to `min(10, old + q)` and leaves every other line and field as it was |
| CartStore.AddAppendsNew | frontend/src/store/useCartStore.ts:48-64 | adding a new id appends one line after unchanged earlier lines, with the product's fields, `min(10, q)` and the selected options |
| CartStore.AddKeepsInvariant | frontend/src/store/useCartStore.ts:36-66 | `addItem` keeps cart ids unique and quantities at most 10 |
| CartStore.AddDoesNotFloor | frontend/src/store/useCartStore.ts:59 | a new line stores a quantity of at most 10 exactly as given, however low |
| CartStore.AddTwiceMerges | frontend/src/store/__tests__/cartStore.test.ts:39-46 | adding the same product and options twice gives one line with `min(10, min(10, q1) + q2)` |
| CartStore.AddDifferentOptionsSeparate | frontend/src/store/__tests__/cartStore.test.ts:48-59 | two different option selections give two lines, in order, each with its own flavor |
| CartStore.RemoveAbsent | frontend/src/store/useCartStore.ts:67-71 | removing an absent id leaves the list unchanged |
| CartStore.RemovePresent | frontend/src/store/useCartStore.ts:67-71 | removing a present id drops exactly that line and keeps the others in order |
| CartStore.RemoveKeepsInvariant | frontend/src/store/useCartStore.ts:67-71 | removal keeps ids unique and quantities capped |
| CartStore.AfterUpdate | frontend/src/store/useCartStore.ts:72-78 | the update keeps the length and every line's id, and leaves each matching line with a quantity in 1..10 |
| CartStore.UpdateSetsClamped | frontend/src/store/useCartStore.ts:72-78 | the matching line gets `min(10, max(1, q))` and nothing else changes; an absent id changes nothing |
| CartStore.UpdateKeepsInvariant | frontend/src/store/useCartStore.ts:72-78 | `updateQuantity` keeps ids unique and quantities capped |
| CartStore.Total | frontend/src/store/useCartStore.ts:80-82 | an empty cart totals 0, and a cart with no negative price or quantity never totals below 0 |
| CartStore.ItemCount | frontend/src/components/Navbar.tsx:11 | the navbar count of an empty cart is 0, and it counts at least one per line when every quantity is at least 1 |
| CartStore.ItemCountBound | frontend/src/components/Navbar.tsx:11 | the navbar count is at most ten per line |
| CartStore.TotalAppend | frontend/src/store/useCartStore.ts:81 | the `reduce` total of a concatenation is the sum of the two totals |
| CartStore.TotalAfterAddNew | frontend/src/store/useCartStore.ts:48-64 | a new line raises the total by price times `min(10, q)` |
| CartStore.TotalAfterRemove | frontend/src/store/useCartStore.ts:67-71 | removing a line lowers the total by exactly its price times quantity |
| CartStore.TotalExample | frontend/src/store/__tests__/cartStore.test.ts:77-85 | 2 at 10.00 plus 1 at 20.00 totals 40.00 |
| CartStore.Cart.constructor | frontend/src/store/useCartStore.ts:35 | the store starts empty, satisfying the invariant |
| CartStore.Cart.AddItem | frontend/src/store/useCartStore.ts:36-66 | replaces `items` with the merged or appended list and keeps the invariant |
| CartStore.Cart.RemoveItem | frontend/src/store/useCartStore.ts:67-71 | replaces `items` with the filtered list and keeps the invariant |
| CartStore.Cart.UpdateQuantity | frontend/src/store/useCartStore.ts:72-78 | replaces `items` with the clamped update and keeps the invariant |
| CartStore.Cart.ClearCart | frontend/src/store/useCartStore.ts:79 | `items` becomes empty, whatever it was |
| CartStore.Cart.GetTotalPrice | frontend/src/store/useCartStore.ts:80-82 | returns the left-to-right sum of price times quantity and changes nothing |
| Checkout.HasCustomCake | frontend/src/app/checkout/page.tsx:25 | true exactly when some line is a custom cake |
| Checkout.MinPickupDay | frontend/src/app/checkout/page.tsx:26 | today + 3 exactly when some line is a custom cake, today + 1 exactly when none is |
| Checkout.PickupDatetime | frontend/src/app/checkout/page.tsx:33 | the chosen date and time can be read back at fixed positions, separated by `T` and followed by zero seconds and the UTC mark `Z` |
| Checkout.PickupDatetimeFormat | frontend/src/app/checkout/page.tsx:33 | the sent text has the character layout of an RFC 3339 (section 5.6) UTC date-time exactly when the date and time inputs have their shapes (field ranges are not checked), and the date and time read back out of it |
| Checkout.OrNull | frontend/src/app/checkout/page.tsx:44-46 | a missing or empty option becomes null, any other value is kept |
| Checkout.PayloadItem | frontend/src/app/checkout/page.tsx:41-48 | an entry carries the line's id and quantity, its price times quantity is the line's total, and each option is null exactly when missing or empty and the line's value otherwise |
| Checkout.PayloadItems | frontend/src/app/checkout/page.tsx:41-48 | one payload entry per cart line, in order |
| Checkout.PayloadCopiesLines | frontend/src/app/checkout/page.tsx:41-48 | each entry has `product` = line id, the line's quantity and price, and null exactly for missing or empty options |
| Checkout.OrderTotalMatchesItems | frontend/src/app/checkout/page.tsx:39-48 | the cart total equals the sum of price times quantity over the posted items |
| Checkout.BuildOrder | frontend/src/app/checkout/page.tsx:35-49 | the order's `total_price` is the cart total and also the sum over its items; the items are the payload entries of the lines, one per line and in order, with blank options nulled; contact fields from the form; `pickup_datetime` is the chosen date, `T`, the chosen time and `:00Z` |
| Checkout.CheckoutPage.constructor | frontend/src/app/checkout/page.tsx:13-23 | empty contact fields, pickup tomorrow at 12:00, not loading, no error, not done |
| Checkout.CheckoutPage.HandleSubmit | frontend/src/app/checkout/page.tsx:28-64 | posts the order built from the form and the lines at submission; on success the page is done and the cart empty; on failure the cart is untouched and the error is the message or the default text; loading ends false |
| OrderValidation.Validate | backend/api/serializers.py:36-61 | succeeds exactly for acceptable pickups and returns the data unchanged; otherwise fails on `pickup_datetime` with the lead-time message when that check fails first, else the past-pickup message |
| OrderValidation.AcceptedBounds | backend/api/serializers.py:48-59 | restating the acceptance rule as distances from `now`: accepted custom-cake orders are at least three days out and every accepted order is not in the past |
| OrderValidation.BoundariesAccepted | backend/api/serializers.py:50-56 | exactly `now + 3 days`, and for ordinary orders exactly `now`, are accepted |
| OrderValidation.PastCustomCakeReportsLeadTime | backend/api/serializers.py:48-59 | a past pickup on a custom-cake order is refused with the lead-time message |
| OrderValidation.NoOneDayMinimum | backend/api/serializers.py:55-61 | an order without custom cakes is accepted for any pickup from `now` on |
| PickupLeadTime.SameCustomCakeVerdict | backend/api/serializers.py:41-46 | the server's custom-cake scan agrees with the page's `hasCustomCake` on the same lines |
| PickupLeadTime.OrdinaryPickupAccepted | frontend/src/app/checkout/page.tsx:26 | without custom cakes, every date and time slot the page offers (today being the browser's local date) passes the server whenever the hour plus the UTC offset is not negative, so always from UTC-10 eastward |
| PickupLeadTime.CustomCakeEarliestDay | frontend/src/app/checkout/page.tsx:26 | with a custom cake, the earliest offered date passes the server exactly when the chosen hour plus the browser's UTC offset is not earlier than the local time of the check, else it gets the lead-time message |
| PickupLeadTime.CustomCakeEarliestDayRefusedInTheEvening | backend/api/serializers.py:48-53 | at the bakery's UTC-4 or UTC-5, a custom-cake order placed after 14:00 local time is refused with the lead-time message at every slot of the earliest offered date |
| PickupLeadTime.CustomCakeLaterDayAccepted | frontend/src/app/checkout/page.tsx:26 | with a custom cake, every date after the earliest offered one passes the server whenever the hour plus the UTC offset is not negative, so always from UTC-10 eastward |
| Carousel.ItemsToShow | frontend/src/components/FeaturedCarousel.tsx:18-28 | below 640px one card (1.2), below 1024px two, otherwise four |
| Carousel.FitsIffFitsFloor | frontend/src/components/FeaturedCarousel.tsx:37 | for a whole number of products, `n <= itemsToShow` iff `n <= floor(itemsToShow)` |
| Carousel.GridIffNoAutoAdvance | frontend/src/components/FeaturedCarousel.tsx:50 | the grid is rendered exactly when the auto-advance guard says everything fits |
| Carousel.NextIndex | frontend/src/components/FeaturedCarousel.tsx:60-64 | next moves the index one step right exactly when the next arrow is enabled, otherwise not at all, and keeps it among the window positions |
| Carousel.PrevIndex | frontend/src/components/FeaturedCarousel.tsx:66-70 | prev moves the index one step left exactly when it is above 0, otherwise not at all, and never below 0 |
| Carousel.AutoAdvanceIndex | frontend/src/components/FeaturedCarousel.tsx:40-43 | a tick goes back to 0 when the next arrow would be disabled, else one step right; from any non-negative index, even one past the last window, it lands among the window positions |
| Carousel.Step | frontend/src/components/FeaturedCarousel.tsx:115-118 | a click on a rendered indicator (numbers `0 .. n - k`) sets the index to its number; no event makes a non-negative index negative |
| Carousel.Run | frontend/src/components/FeaturedCarousel.tsx:36-70 | a sequence of events never takes a non-negative index below 0, and no events leave it where it was |
| Carousel.IndicatorCount | frontend/src/components/FeaturedCarousel.tsx:115 | `max(0, n - k + 1)` indicators, numbered exactly by the window positions `0 .. n - k`, at least two in carousel mode |
| Carousel.StepInRange | frontend/src/components/FeaturedCarousel.tsx:40-43 | next, prev, a tick or an indicator click keeps the index within `0 .. n - k` |
| Carousel.RunInRange | frontend/src/components/FeaturedCarousel.tsx:12 | from an in-range start (0 included), any event sequence at a fixed width stays within `0 .. n - k` |
| Carousel.NextReaches | frontend/src/components/FeaturedCarousel.tsx:60-64 | pressing next `j` times reaches window `j`, for every window |
| Carousel.TicksReach | frontend/src/components/FeaturedCarousel.tsx:40-43 | `j` ticks from the start reach window `j` |
| Carousel.TicksWrapAround | frontend/src/components/FeaturedCarousel.tsx:40-43 | one tick per window position brings the index back to 0 |
| Carousel.ArrowsMoveIffEnabled | frontend/src/components/FeaturedCarousel.tsx:99-107 | next moves exactly when not disabled (`index >= n - k`), prev exactly when `index > 0` |
| Carousel.FeaturedCarousel.constructor | frontend/src/components/FeaturedCarousel.tsx:12-31 | index 0, not hovered, the card count for the width; in carousel mode the index is a window position |
| Carousel.FeaturedCarousel.HandleNext | frontend/src/components/FeaturedCarousel.tsx:60-64 | steps right below `n - k`, otherwise no change; it changes exactly when the button is enabled and keeps the range |
| Carousel.FeaturedCarousel.HandlePrev | frontend/src/components/FeaturedCarousel.tsx:66-70 | steps left above 0; it changes exactly when the button is enabled and keeps the range |
| Carousel.FeaturedCarousel.Tick | frontend/src/components/FeaturedCarousel.tsx:36-47 | when scheduled, wraps to 0 from `n - k` or beyond, else steps right, and always lands in range |
| Carousel.FeaturedCarousel.SelectIndicator | frontend/src/components/FeaturedCarousel.tsx:115-118 | a rendered indicator sets the index to its number, which is in range |
| Carousel.FeaturedCarousel.MouseEnter | frontend/src/components/FeaturedCarousel.tsx:77 | hovering stops the auto-advance |
| Carousel.FeaturedCarousel.MouseLeave | frontend/src/components/FeaturedCarousel.tsx:78 | leaving schedules the auto-advance exactly in carousel mode |
| Carousel.FeaturedCarousel.Resize | frontend/src/components/FeaturedCarousel.tsx:17-34 | takes the new width's card count and leaves the index as it was |
| Carousel.RecoveryPastLastWindow | frontend/src/components/FeaturedCarousel.tsx:40-70 | with the index past the last window, the right arrow leaves it out of range, the left arrow brings it into range only from one past the end, and a tick or any rendered indicator click always does |
| Carousel.WideningLeavesIndexPastLastWindow | frontend/src/components/FeaturedCarousel.tsx:17-34 | six products: five presses of next on a narrow window give index 5, which is past the last window position once the window is wide |
| Footer.PostedHours | frontend/src/components/Footer.tsx:69-76 | each day's posted hours open before they close and lie within 9:00 AM to 8:00 PM; only Sunday opens at 10:00 AM |
| Footer.IsOpen | frontend/src/components/Footer.tsx:10-19 | open exactly when the hour's start lies within the posted hours for that weekday |
| Footer.OpenAgreesWithPostedHours | frontend/src/components/Footer.tsx:69-76 | for every minute of the day the hour-based check agrees with the posted hours, so minutes play no part |
| Footer.SundayOpensLaterAndClosesEarlier | frontend/src/components/Footer.tsx:15-18 | hours 9 and 19 are open Monday to Saturday and closed on Sunday |
| Footer.Badge | frontend/src/components/Footer.tsx:81 | "Open Now" exactly when open, "Closed" exactly when not |
| Footer.InitialBadge | frontend/src/components/Footer.tsx:7 | before the first check the badge reads "Closed" |

## Left out

- Persistence: the `persist` middleware and its browser storage record are I/O. Only the in-memory transitions are modelled.
- Floating point:
  - `parseFloat(product.price)` and the `toFixed(2)` display are not modelled.
  - Prices are exact integers in cents.
  - The server's `DecimalField` is not modelled either.
- Network: `fetchAPI` and the POST to `/orders/` are left out. The POST's result is the `outcome` parameter of `Checkout.CheckoutPage.HandleSubmit`.
- Clock and date libraries: `new Date()`, `addDays`, `format`, `getDay`/`getHours` and `timezone.now()` become parameters ("today" as a day number, hour and weekday numbers, `now` in microseconds).
  - `PickupLeadTime` reads the page's "today" as the browser's local date at the server's `now`, with the browser's UTC offset as a parameter. Daylight-saving changes within the three days are not modelled.
  - No date-string parser is modelled: the page's date and time are taken as the day and hour the server reads.
- OrderValidation.Validate: the source reads `timezone.now()` twice, once for each check, a few microseconds apart. The model uses one `now` for both.
- Timers and listeners: the five-second interval, the one-minute footer refresh, the redirect after success and the resize listener are not modelled. Their effects are the members `Tick`, `IsOpen` and `Resize`, called when the timer or listener would fire.
- Carousel.Step: a click on an indicator that is not rendered is modelled as doing nothing.
- Carousel.FeaturedCarousel: the `itemWidthPercent` state and the slide animation are presentation and are not modelled.
- Checkout.CheckoutPage.HandleSubmit: the page awaits the POST. The model runs the whole handler as one step, so a second submission while loading is not modelled. (The button is disabled while loading.)
- Option keys: only flavor, filling and size are modelled, the option types of `CakeOption`. This way spreading the options cannot overwrite other line fields.
- Option price modifiers are not summed into the price anywhere in the shown code, so they are not modelled.
- Strings are sequences of Unicode scalar values.
  - JavaScript's UTF-16 lone surrogates cannot occur.
  - The decoder rejects `\u` escapes of surrogates.
- The full cart id of the store's test with two options is covered only by the general round-trip and injectivity lemmas, not as a literal example.
- Django plumbing is not modelled: models, `OrderSerializer.create`, views, URLs, admin, settings and seed data.
- Rendering-only pages and components are not modelled, nor the browser end-to-end test.
