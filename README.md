# Children's café site: a verified model of its business rules

This project models, in Dafny, the rules under the Django site of a children's café:

- **Cart and checkout.** The cart lives in the visitor's session as a map from product id to quantity. It has four operations (add, remove, update, clear) and a count beside the cart icon. The cart page prices the cart. Checkout validates a form in a fixed order, prices the orderable lines, adds delivery from a three-city table, saves the order through `Order.save` and its phone rule, and then clears the cart.
- **Event booking.** A booking is priced at 2500 rubles per hour plus a flat price per extra service. Its end time is stored as a clock time. A slot is free when no pending or confirmed booking on the same date overlaps it. The booking form checks a 90-day window, a 10:00–20:00 start and a 1–8 hour duration. The availability endpoint refuses an event ending after 22:00. Creating a booking gates on phone digits, then the required keys, then the slot. Only a pending booking can be cancelled.
- **Smaller rules.** Ingredient-list splitting, nutrition placeholders, the order-item price snapshot, rating means, account field rules (superuser flags, the username default taken from the email), the contact form (prefilled fields, the account's email locked, the client IP taken from `X-Forwarded-For`), and the two browser-script computations: the phone mask and the booking price estimate.

Conventions:

- Money for goods is integer kopecks; the delivery table and booking costs are whole rubles, as in the code.
- Times are minutes since midnight, dates are day numbers, and "today" is a parameter.
- Rating means are exact rationals (`real`).
- Collections the code mutates become fields of classes (`Cart.Session`, `Bookings.Booking`, `MenuModels.OrderItem`, `Ratings.CafeRating`, `ContactForms.ContactForm`) changed by methods. Loops become `while` loops with invariants (`Cart.CountOf`, `Checkout.PriceCart`, `Bookings.Booking.IsTimeSlotAvailable` and its corrected twin `Bookings.Booking.IsTimeSlotAvailableToRealEnd`, `ClientScript.CalculateBookingPrice`).
- The stored booking table is a sequence of rows passed in and handed back.
- Django's `normalize_email` and the site's phone helpers `validate_phone_number` and `format_phone_number` become function parameters. `menu/utils.py` is not part of this model.

Where the prose description of the site and the code disagree, the model follows the code:

- A start of exactly 20:00 is accepted.
- The slot test considers pending and confirmed bookings only, so completed bookings are ignored as well as cancelled ones.
- The booking form, the availability endpoint and booking creation use the slot test as the code writes it: an existing booking ends at its stored clock time, which wraps past midnight. The corrected test, with each booking running to its real end, is modelled beside it (see Findings).

Files: `wrappers.dfy` (Option, Result), `text.dfy` (Python and JavaScript string built-ins), `menu_models.dfy`, `cart.dfy`, `cart_context.dfy`, `checkout.dfy`, `bookings.dfy`, `booking_forms.dfy`, `booking_views.dfy`, `ratings.dfy`, `accounts.dfy`, `contact_forms.dfy`, `client_script.dfy`.

## Model

| member | source | states |
|---|---|---|
| Text.Strip | menu/views.py:261-263 | `strip()` is never longer than its input, and what it returns neither starts nor ends with whitespace |
| Text.StripIsSlice | menu/views.py:261-263 | `strip()` returns a contiguous slice of its input and removes only whitespace before and after it |
| Text.StripIdempotent | menu/views.py:261-263 | stripping twice is the same as stripping once |
| Text.Split | menu/models.py:115 | `split(sep)` gives at least one piece |
| Text.SplitProperties | menu/models.py:115 | `split(sep)` gives one piece more than there are separators; no piece contains the separator; joining the pieces gives back the text |
| Text.FirstPieceShape | contact_form/forms.py:73 | `split(sep)[0]` is a prefix without the separator; it is shorter than the text exactly when the separator occurs, and then it is followed by the separator |
| Text.FirstPieceOfJoin | contact_form/forms.py:73 | whatever follows the first separator does not change `split(sep)[0]` |
| Text.EmailPrefix | homepage/forms.py:55 | `email.split('@')[0]` has no `@`; it is the whole email when there is no `@`, and otherwise the part before the first `@` |
| Text.DigitsOf | homepage/views.py:288 | the digit filter yields only digits and is never longer than its input |
| Text.NatToStringRoundTrip | menu/models.py:121 | the decimal rendering of a number reads back as that number |
| MenuModels.StripSeparators | menu/models.py:30 | deleting `[\s\-()+]` leaves no such character and never lengthens the phone |
| MenuModels.StripSeparatorsIdempotent | menu/models.py:30 | deleting `[\s\-()+]` a second time deletes nothing more |
| MenuModels.CleanPhone | menu/models.py:26-35 | an empty phone is not checked; a phone passes iff 10 or 11 characters remain after separators are removed and all of them are digits; a wrong length is reported before non-digits |
| MenuModels.CleanPhoneIgnoresFormatting | menu/models.py:30-35 | a phone and the same phone with its separators removed get the same verdict |
| MenuModels.StripSeparatorsMasked | menu/models.py:30 | removing separators from `+7 (XXX) XXX-XX-XX` leaves `7` followed by the ten digits |
| MenuModels.CleanPhoneAcceptsMasked | menu/models.py:29-35 | every phone in the masked shape passes `clean` |
| MenuModels.CleanPhoneOfPlain | menu/models.py:30-35 | a phone without separators is judged on its own length first and its own characters second |
| MenuModels.CleanPhoneLengthFirst | menu/models.py:31-32 | `abcde` is a wrong length, not non-digits: the length test runs first |
| MenuModels.CleanPhoneDigitsSecond | menu/models.py:34-35 | `999abc4567` has the right length and is reported as non-digits |
| MenuModels.SaveOrder | menu/models.py:37-40 | `save` stores an order iff its phone is empty or passes `clean`, stores it unchanged, and otherwise fails with `clean`'s error |
| MenuModels.OrderItem.constructor | menu/models.py:49-60 | a new item holds the product link, title, price and quantity it was given |
| MenuModels.OrderItem.GetTotal | menu/models.py:73-75 | the line total is the snapshot price times the quantity; the product's current price is not read |
| MenuModels.OrderItem.Save | menu/models.py:65-71 | title and price are copied from a linked product only where empty (a price of 0 counts as empty); product and quantity are unchanged; the line total is then the copied or kept price times the quantity |
| MenuModels.IngredientsList | menu/models.py:112-116 | empty text gives no ingredients; any other text gives its comma-separated pieces, each stripped |
| MenuModels.IngredientsListShape | menu/models.py:112-116 | a non-empty text gives one ingredient more than it has commas; none contains a comma or starts or ends with whitespace |
| MenuModels.NutritionInfo | menu/models.py:118-124 | calories show the placeholder iff missing or 0, otherwise the number and ` ккал`; protein and carbs show the placeholder iff empty, otherwise the value and `г` |
| MenuModels.NutritionCaloriesReadBack | menu/models.py:121 | the shown calorie text, without its unit, reads back as the stored number |
| MenuModels.MaskedPhone | static_dev/js/script.js:89 | the full mask of ten digits is 18 characters long |
| Cart.SumValuesRemove | menu/views.py:163 | `sum(cart.values())` can be taken by removing any one entry first |
| Cart.SumValuesUpdate | menu/views.py:163 | setting one entry moves the sum by the change in that entry |
| Cart.CountOfValid | menu/views.py:163 | in a cart of positive quantities the count is at least the number of entries, and 0 iff the cart is empty |
| Cart.CountOf | menu/views.py:163 | the loop over the entries computes `sum(cart.values())` |
| Cart.Added | menu/views.py:151-154 | an absent id enters at 1 and a present one goes up by 1; no other entry changes |
| Cart.AddedCount | menu/views.py:151-163 | adding raises the count by exactly one and keeps quantities positive |
| Cart.Updated | menu/views.py:227-231 | a positive quantity is stored as given; any other deletes the entry; no other entry changes |
| Cart.UpdatedCount | menu/views.py:227-236 | updating keeps quantities positive; the new count is the rest of the cart plus the positive quantity |
| Cart.RemovedCount | menu/views.py:197-202 | removing an entry takes exactly its quantity off the count |
| Cart.UpdateCartAsWritten | menu/views.py:214-237 | as written: a non-POST request always fails (`cart` unbound), an unavailable product fails, otherwise the updated cart is stored |
| Cart.Session.constructor | menu/views.py:54 | a fresh session has no cart, no delivery choice and no last order |
| Cart.Session.CartOf | menu/views.py:148 | a session without a `cart` entry reads as the empty cart |
| Cart.Session.AddToCart | menu/views.py:136-163 | an unavailable product leaves the session unchanged and errs; an available one is added, and the returned count is the old count plus one |
| Cart.Session.RemoveFromCart | menu/views.py:185-202 | the entry is deleted if present (the session is written only then); the returned count drops by its quantity; nothing else changes |
| Cart.Session.UpdateCart | menu/views.py:214-236 | a POST for an available product stores the updated cart; an unavailable product or any other method leaves the session unchanged; it agrees with the code as written wherever that does not fail |
| Cart.Session.ClearCart | menu/views.py:239-241 | the `cart` entry is removed, so the cart then reads as empty; nothing else changes |
| CartContext.CartCount | menu/context_processors.py:1-12 | the count is 0 with no cart, an empty cart or a failed read, and otherwise the sum of the quantities |
| CartContext.CartCountZero | menu/context_processors.py:4-5 | for carts of positive quantities the count is 0 iff there is nothing in the cart, and otherwise at least the number of entries |
| Checkout.CalculateDeliveryPrice | menu/views.py:10-43 | Tula costs a flat 100; Moscow costs 300 + 15 per km; any other key is priced as `other`, 200 + 20 per km |
| Checkout.UnknownCityIsOther | menu/views.py:33-34 | a key the table lacks is priced exactly as `other` |
| Checkout.MainCityFlat | menu/views.py:38-40 | the main city's price does not depend on the distance |
| Checkout.DeliveryMonotone | menu/views.py:41-43 | a longer distance never costs less |
| Checkout.DeliveryExamples | menu/views.py:31-43 | tula/5 = 100, moscow/10 = 450, other/5 = 300, kazan/5 = 300 |
| Checkout.LineTotals | menu/views.py:311-328 | exactly the orderable entries get a line total, each price × quantity |
| Checkout.PricedLinesEmpty | menu/views.py:333-335 | no priced lines exactly when nothing in the cart can be ordered |
| Checkout.PriceCart | menu/views.py:311-331 | the loop prices each orderable entry exactly once, skips the rest, and its running total is the cart's goods total |
| Checkout.Kept | menu/views.py:74-78 | the cart keeps exactly the orderable entries, with their quantities |
| Checkout.CartViewAsWritten | menu/views.py:59-78 | as written: the page fails iff some entry's product is missing or unavailable; otherwise it shows the goods total |
| Checkout.CartViewAsWrittenFails | menu/views.py:59-78 | a cart holding a product the catalogue lacks makes the page fail |
| Checkout.CartView | menu/views.py:53-95 | the page prices the orderable lines and drops the others from the session; it shows the count of what is kept and the delivery for the session's city and distance (defaults `tula`, 0); final total = goods + delivery; it agrees with the code as written whenever that succeeds |
| Checkout.ValidateCheckout | menu/views.py:248-293 | the checks fail in this order: empty cart, not POST, name missing, name under 2 characters, phone invalid, address missing, address under 10 characters (the last two only for delivery); each error iff the earlier checks pass and its own fails |
| Checkout.CheckoutDeliveryPrice | menu/views.py:301-304 | pickup (or any method but `delivery`) is free; delivery costs the table price |
| Checkout.OrderFor | menu/views.py:337-353 | the stored order carries the stripped name, the formatted phone and the delivery price, and its total is goods + delivery |
| Checkout.PlaceOrder | menu/views.py:248-353 | a failed check errs with that check; no orderable entry errs; with every check passed and something orderable, the order is placed iff `save` accepts it, and otherwise errs with `clean`'s reason; a placed order prices every orderable line and has final total = goods + delivery |
| Checkout.StoreOrderItems | menu/views.py:355-363 | one new order item per priced line, linked to its product, with the product's title and price copied and the line's quantity; each item's total is the priced line's total |
| Checkout.CreateOrder | menu/views.py:247-414 | the outcome is PlaceOrder's on the session cart, so a form passing every check with something orderable and a phone `save` accepts always succeeds; any error leaves cart and last order as they were and stores no items; success stores the last order, removes the cart, and stores one new item per line with that line's total |
| Checkout.PlacedOrderTotals | menu/views.py:337-401 | a placed order's final total is the order's total price; its goods total is the sum of its lines; every line names an orderable product of the cart |
| Bookings.ServicePrice | homepage/models.py:285-290 | each service costs 0 to 2500; names outside the table cost 0 |
| Bookings.ServicesCost | homepage/models.py:292 | the services cost is between 0 and 2500 per listed service |
| Bookings.ServicesCostAppend | homepage/models.py:292 | the cost of a list is the sum of the costs of its parts |
| Bookings.ServicesCostAddOne | homepage/models.py:292 | one more service adds its table price, and an unknown one adds nothing |
| Bookings.ServicesCostDuplicate | homepage/models.py:292 | a service listed twice is charged twice |
| Bookings.EndTimeOfDay | homepage/models.py:269-271 | the stored end is a clock time of the day, equal to start + 60 × duration modulo 24 hours, and exactly that when it falls within the day |
| Bookings.EndTimeWraps | homepage/models.py:269-271 | 20:00 plus 8 hours is stored as 04:00 |
| Bookings.OverlapsSymmetric | homepage/models.py:315 | the overlap test does not depend on which booking is named first |
| Bookings.SlotAvailableAsWritten | homepage/models.py:295-318 | as written: an empty table leaves every slot free, and a free slot of positive length never starts together with a considered booking whose stored end lies after its start |
| Bookings.SlotAvailable | homepage/models.py:295-318 | corrected: an empty table leaves every slot free, and a free slot of positive length never starts together with a considered booking of positive length |
| Bookings.SlotAvailableAgrees | homepage/models.py:305-318 | the test as written and the corrected test agree whenever no considered booking's stored end has wrapped |
| Bookings.SlotAvailableAsWrittenMissesOvernight | homepage/models.py:311-315 | as written, 20:00 + 2 h is reported free beside a confirmed 19:00 + 6 h booking, which the corrected test refuses |
| Bookings.SlotTakenWitness | homepage/models.py:305-318 | in both the test as written and the corrected one, a slot is taken iff some same-date pending or confirmed booking other than itself overlaps it, up to the stored end and the real end respectively |
| Bookings.SlotIgnoresInactive | homepage/models.py:305-308 | in both tests, a cancelled or completed booking, one on another date, or the booking itself never changes the answer |
| Bookings.SlotAvailableShrinks | homepage/models.py:305-318 | in both tests, adding a booking can only take slots away |
| Bookings.TouchingSlotsFree | homepage/models.py:315 | in both tests, 14:00–16:00 and 16:00–18:00 do not clash, in either order |
| Bookings.OverlappingSlotTaken | homepage/tests.py:94-120 | 14:00 + 2 h blocks 15:00 + 2 h on the same date, in both tests |
| Bookings.Booking.constructor | homepage/models.py:236-261 | a new booking is pending with costs 5000, 0 and 5000, no end time and no id |
| Bookings.Booking.Load | homepage/views.py:434 | a booking loaded from a row stores back as that row |
| Bookings.Booking.CalculateCost | homepage/models.py:278-293 | base = 2500 × hours, services = the table sum, total = base + services; nothing else changes |
| Bookings.Booking.Save | homepage/models.py:266-276 | save sets the wrapped end time and the costs, gives a new booking its id, keeps every other field, and a stored booking is saved as its row re-saved |
| Bookings.Booking.IsTimeSlotAvailable | homepage/models.py:295-318 | the loop answers exactly the slot test as written, each existing booking ending at its stored clock time |
| Bookings.Booking.IsTimeSlotAvailableToRealEnd | homepage/models.py:295-318 | the corrected loop answers exactly the corrected slot test, each existing booking running to its real end |
| Bookings.Resaved | homepage/models.py:266-276 | re-saving a row recomputes its end time and costs and keeps every other field |
| Bookings.CostExample | homepage/models.py:281-293 | two hours with an animator and a cake cost 7500 |
| BookingForms.CleanEventDate | homepage/forms.py:222-234 | a date is accepted iff today ≤ date ≤ today + 90; the past is reported first |
| BookingForms.CleanEventTime | homepage/forms.py:236-247 | a start is accepted iff 10:00 ≤ start ≤ 20:00; 20:00 itself is accepted |
| BookingForms.CleanDuration | homepage/forms.py:160-163 | the duration is required and accepted iff it lies in 1..8 |
| BookingForms.ValidateBookingForm | homepage/forms.py:222-267 | each field error iff that field fails its cleaner; the slot error iff all three fields are clean and the slot test as written finds the slot taken |
| BookingForms.ValidFormIsBookable | homepage/forms.py:249-267 | a form that validates describes a date within the 90-day window, a start within the hours, a duration within bounds and a slot no pending or confirmed booking overlaps up to its stored end; bookings whose stored end has not wrapped are not overlapped at all |
| BookingForms.DateWindowInclusive | homepage/forms.py:226-232 | today and today + 90 are bookable; yesterday and today + 91 are not |
| BookingViews.CheckTimeAvailability | homepage/views.py:339-402 | not POST, then missing date or time, then a start before 10:00, then a slot taken by the test as written, then an end after 22:00 (without wrap) are refused, each iff the earlier checks pass; duration defaults to 2; otherwise available with its end time |
| BookingViews.CheckTimeAvailabilityMissesOvernight | homepage/views.py:374-389 | beside a confirmed 19:00 + 6 h booking, 20:00 + 2 h on the same date is answered as available until 22:00 |
| BookingViews.AvailableFitsTheDay | homepage/views.py:374-389 | an available event lies within 10:00–22:00 of one day, so the end time shown is its real end |
| BookingViews.MissingKey | homepage/views.py:300-304 | the first absent key among eventDate, eventTime, guestsCount, eventType, and none iff all four are present |
| BookingViews.PhoneAccepted | homepage/views.py:287-290 | an accepted phone is at least 10 characters long; a plain string of digits is accepted iff it has at least 10 |
| BookingViews.CreateBooking | homepage/views.py:280-337 | not POST, then a phone with under 10 digits, then a missing key, then a slot taken by the test as written are refused without saving; a booking is saved iff it passes all four, and then a pending booking is appended holding the request's date, time, duration (default 2), guests, type, phone, comments and services, with the wrapped end time and base, services and total costs; ids stay unique |
| BookingViews.StoredBookingBlocksSlot | homepage/views.py:311-318 | once a pending booking of positive length that ends before midnight is stored, its own start is no longer free for another booking of positive length |
| BookingViews.StoredOvernightBookingDoesNotBlock | homepage/views.py:311-318 | a stored pending 20:00 + 5 h booking (stored end 01:00) leaves 20:00 + 2 h on its date free |
| BookingViews.StoredBookingBlocksRealSlot | homepage/views.py:311-318 | under the corrected test every stored pending booking of positive length blocks its own start |
| BookingViews.CancelBooking | homepage/views.py:431-475 | no booking with that id owned by the caller gives not-found; a pending one becomes cancelled and is re-saved; any other status is refused; the table changes only on success |
| Ratings.OverallRating | homepage/models.py:167-174 | the overall rating is a quarter of the four scores' sum, and lies within 1..5 when they do |
| Ratings.OverallRatingExample | homepage/tests.py:70 | scores 5, 4, 5, 4 give 4.5 |
| Ratings.CafeRating.constructor | homepage/models.py:163 | a new rating holds its scores and no overall figure yet |
| Ratings.CafeRating.Save | homepage/models.py:167-175 | saving recomputes the overall rating from the scores and keeps the scores |
| Ratings.ReviewAverages | homepage/views.py:115-129 | no averages iff there are no ratings; otherwise each criterion's total over n, and the overall figure as the four totals over 4n |
| Ratings.TotalOverallIsTotals | homepage/views.py:116-126 | four times the summed overall ratings is the sum of the four criterion totals |
| Ratings.OverallIsMeanOfRatings | homepage/views.py:126 | the page's overall figure is the mean of the stored overall ratings |
| Ratings.OverallIsMeanOfAverages | homepage/views.py:121-126 | the overall figure is the mean of the four criterion averages |
| Ratings.TotalBounds | homepage/views.py:116-119 | with 1..5 stars per score, a criterion total lies between n and 5n |
| Ratings.AveragesInRange | homepage/views.py:121-126 | with 1..5 stars per score, every average lies within 1..5 |
| Accounts.CreateUser | homepage/models.py:7-14 | an empty email is refused; otherwise the normalized email, the given fields, and the defaults (not staff, not superuser, active, blank username) |
| Accounts.CreateSuperuser | homepage/models.py:16-29 | an explicit non-staff or non-superuser is refused (staff first), then an empty email; a superuser is staff and superuser, active unless told otherwise, and a blank username becomes the email prefix |
| Accounts.SuperuserDefaultName | homepage/models.py:26-27 | a superuser made without a username is named by the part of the email before `@` |
| Accounts.CleanRegistrationEmail | homepage/forms.py:45-49 | an email is accepted iff no account has it |
| Accounts.SaveRegistration | homepage/forms.py:51-58 | a blank username becomes the email prefix; nothing else changes |
| Accounts.SaveRegistrationShape | homepage/forms.py:54-55 | the default name is not blank unless the email starts with `@`, and saving again changes nothing |
| Accounts.SaveRegistrationExample | homepage/forms.py:54-55 | `test@example.com` without a username is named `test` |
| ContactForms.ClientIp | contact_form/forms.py:70-76 | a non-empty `X-Forwarded-For` gives its first comma-separated item, unstripped (the whole header without a comma); otherwise `REMOTE_ADDR` |
| ContactForms.ClientIpFirstOfList | contact_form/forms.py:72-73 | a proxy list yields exactly its first entry |
| ContactForms.ClientIpExample | contact_form/tests.py:78 | `192.168.1.1, 10.0.0.1` yields `192.168.1.1` |
| ContactForms.InitialName | contact_form/forms.py:39-42 | the username when it is not blank, else the email prefix before `@` |
| ContactForms.ContactForm.constructor | contact_form/forms.py:32-47 | for a logged-in visitor the name and email are prefilled and the email is read-only; for anyone else nothing is |
| ContactForms.ContactForm.CleanEmail | contact_form/forms.py:49-60 | accepted iff the visitor is anonymous or submits the account email; the error names that email |
| ContactForms.ContactForm.Save | contact_form/forms.py:62-81 | the message is linked to the account iff the visitor is logged in, and records the client IP whenever the form has a request |
| ContactForms.PrefilledEmailPasses | contact_form/forms.py:44-60 | the prefilled email always passes the form's own email check |
| ClientScript.Substring | static_dev/js/script.js:83-89 | JavaScript `substring` clamps both ends to the string |
| ClientScript.Entered | static_dev/js/script.js:71-75 | the mask keeps the field's digits and cuts them to the first eleven |
| ClientScript.Format | static_dev/js/script.js:78-90 | the formatted value always starts with `+7 ` |
| ClientScript.PhoneMask | static_dev/js/script.js:70-93 | the field is rewritten iff it holds a digit; the value starts with `+7 `; a single digit gives `+7 ` and that digit |
| ClientScript.FormatDigits | static_dev/js/script.js:82-90 | with 2 or more digits the formatted value's digits are `7` followed by the entered digits after the first, so the first digit is dropped |
| ClientScript.FormatIgnoresFirst | static_dev/js/script.js:82-90 | the 3/3/2/2 grouping reads only the digits after the first |
| ClientScript.PhoneMaskStable | static_dev/js/script.js:70-93 | masking an already masked value (2+ digits) changes nothing |
| ClientScript.PhoneMaskSingleDigit | static_dev/js/script.js:80-83 | one digit shows as `+7 d`; the next input event turns it into `+7 (d` |
| ClientScript.PhoneMaskComplete | static_dev/js/script.js:89 | eleven digits give `+7 (ABC) DEF-GH-IJ`, 18 characters, which the order phone rule accepts |
| ClientScript.ClientServicePrice | static_dev/js/script.js:203-211 | a known service costs its table price; an unknown value adds 0 |
| ClientScript.ClientPricesMatchServer | static_dev/js/script.js:205-210 | the script's service prices equal the server's, service by service |
| ClientScript.Hours | static_dev/js/script.js:296 | an unreadable or zero duration counts as 2 hours |
| ClientScript.ClientBaseCost | static_dev/js/script.js:295-299 | an unreadable guest count gives base 0; otherwise guests × 500 × hours |
| ClientScript.CalculateBookingPrice | static_dev/js/script.js:294-311 | base = guests × 500 × hours; the loop's services sum equals the server's services cost; total = base + services |
| ClientScript.EstimateMatchesServerBase | static_dev/js/script.js:299 | the client base equals the server's 2500 × hours iff five guests are entered |

## Left out

- Django plumbing: ORM queries, session persistence (`session.save`, `create`, `modified`), rendering, redirects, flash messages, JSON responses, `@login_required`. Sessions are objects and the booking table is a sequence passed in.
- The authentication and email views (`homepage/views.py:139-277`, the email in `cancel_booking`): framework calls and I/O. Password handling is left out of the account rules, and `normalize_email` is a parameter.
- `menu/utils.py` is not part of this model. `validate_phone_number` and `format_phone_number` are the parameters `validPhone` and `formatPhone` of the checkout.
- Float arithmetic: goods are integer kopecks, and the rating means are exact rationals.
- Parsing of the JSON body and posted values (`int(...)`, `strptime`, `parseInt`): inputs arrive already parsed, an absent key as `None`. Parse failures answered by the generic `except` are not modelled.
- BookingViews.CreateBooking: an event whose end falls past year 9999 (a huge `eventDuration`, or a late start on 9999-12-31) makes the `timedelta` addition raise `OverflowError`, which the generic `except` answers with a failure and nothing saved; dates here are unbounded day numbers, so the model saves such a booking.
- BookingViews.CheckTimeAvailability: the same `OverflowError` gives the error message, where the model answers that the event ends after closing.
- Bookings.Booking.Save: the end time is computed for any date and duration; Python's `datetime` range is not modelled.
- The check-then-insert race between `is_time_slot_available` and `save`: a concurrency matter.
- Unicode: whitespace is the ASCII set Python counts as whitespace (space, tab, line feed, vertical tab, form feed, carriage return and `\x1c`–`\x1f`); non-ASCII whitespace such as `\x85` or `\xa0` is not, and digits are `0`–`9`.
- `update_delivery_info`, `get_delivery_cities`, `order_success`, `get_order_from_session`, `menu_list` search, `product_detail`, the duplicated `profile` views, and the DOM, star-rating and `fetch` parts of the script: presentation, ORM or browser work, not rules.
- Bookings.SlotAvailable: filters same-date bookings only, as the code does; an overnight booking from the previous date is not considered.
- Checkout.PlaceOrder: the authenticated-name fallback (`menu/views.py:296-298`) is left out because it cannot fire after the name checks; the order's `user` link and the `created_at` stamps are not modelled.
- Checkout.PriceCart: the order of the lines follows the model's own choice of keys, not the dictionary's insertion order.
- ClientScript.ClientServicePrice: inherited object keys (`constructor` and the like) that a JavaScript lookup would find are not modelled.
- BookingViews.CreateBooking: the form's date window, hours and duration rules are not applied, as in the code; guests, type and comments are stored as given.

## Findings

| source | as written | input that shows it | evidently intended | confidence | as-written member | corrected member |
|---|---|---|---|---|---|---|
| homepage/models.py:311-315 | an existing booking ends at its stored clock time, which wraps past midnight | confirmed booking 19:00 + 6 h (stored end 01:00); a new 20:00 + 2 h on the same date is reported free | existing bookings run to start + 60 × duration | not executed | Bookings.SlotAvailableAsWrittenMissesOvernight | Bookings.Booking.IsTimeSlotAvailableToRealEnd |
| menu/views.py:59-78 | `cart.pop` inside `for ... in cart.items()` changes the dict while it is iterated, raising `RuntimeError` | cart `{"1": 2}` when product 1 is missing | drop the line and show the page | not executed | Checkout.CartViewAsWrittenFails | Checkout.CartView |
| menu/views.py:214-237 | `cart` is bound only inside the POST branch, so `sum(cart.values())` raises `UnboundLocalError` for any other method | a GET request to `update_cart` | leave the cart alone and redirect | not executed | Cart.UpdateCartAsWritten | Cart.Session.UpdateCart |
