# Invoice pricing pipeline, modelled in Dafny

This project models `InvoiceService` (src/invoice_service.py), which turns
an invoice into a payable total. It works in these steps:

- **Validation** (`_validate`) gathers every structural problem of the invoice into one ordered list.
- **Subtotal and fragile fee**: one loop sums `unit_price * qty`, and 5 per unit of every fragile item.
- **Shipping**: a fee per country that depends on the subtotal.
- **Discount**: the first matching membership tier, plus a coupon looked up after whitespace is stripped. An unknown coupon adds a warning.
- **Tax**: a rate per country, applied to `subtotal - discount`.
- **Total** (`compute_total`): fails with every problem joined by `"; "`, or adds everything up, clamps the result at 0 and may add the upgrade advice.

Files:

- `invoices.dfy` (module `Invoices`): the `LineItem` and `Invoice` records, the category set, and validity stated as predicates.
- `text.dfy` (module `Text`): the two Python string operations the service uses. These are `str.strip()`, over the characters `str.isspace()` accepts, and `str.join`.
- `invoice_service.dfy` (module `InvoiceService`): the fixed tables and one member per step.
  - Steps that loop or append in the source (`_validate`, `_calc_subtotal_and_fragile`, `_calc_discount`, `compute_total`) are methods. Each is proved against the function that specifies it.
  - Branch-only steps (`_calc_shipping`, `_calc_tax`) are functions.
- `invoice_properties.dfy` (module `InvoiceProperties`): lemmas that relate several steps or calls, and the worked examples from the tests.

Money is exact (`real`). The service's only state is the coupon table. `__init__` sets it and nothing changes it afterwards, so it is the constant `CouponRates`. The `ValueError` becomes `Outcome.Failure(message)`.

The model brings out two facts about the source:

- Every discount takes at most 5% (membership) plus 20% (coupon) of a non-negative subtotal. So for a valid invoice the discount never exceeds the subtotal. The taxable base and the tax are then non-negative, and the `max(total, 0)` clamp never changes a valid invoice's total (`ValidTotalNeedsNoClamp`). A negative taxable base can only come from a negative subtotal, which validation rejects.
- A coupon made only of whitespace is not treated as "no coupon". It is truthy, strips to `""`, and so gets the "Unknown coupon" warning (`BlankCouponIsUnknown`).

## Model

| member | source | states |
|---|---|---|
| Invoices.ItemIsValid | src/invoice_service.py:47-54 | an item passes validation when its sku is non-empty, its qty is positive, its unit price is not negative and its category is book, food, electronics or other |
| Invoices.IsValid | src/invoice_service.py:39-54 | an invoice passes validation when both ids are non-empty, it has items, and every item is valid |
| Text.IsWhitespace | src/invoice_service.py:95 | the characters `str.strip()` removes, the set `str.isspace()` accepts: U+0009–U+000D, U+001C–U+001F, space, U+0085, U+00A0, U+1680, U+2000–U+200A, U+2028, U+2029, U+202F, U+205F, U+3000 |
| Text.TrimStart | src/invoice_service.py:95 | the result is a suffix of the input; only whitespace precedes it; it does not start with whitespace |
| Text.TrimEnd | src/invoice_service.py:95 | the result is a prefix of the input; only whitespace follows it; it does not end with whitespace |
| Text.Strip | src/invoice_service.py:95 | the stripped code has no whitespace at either end; a string without outer whitespace is unchanged |
| Text.StripIsSlice | src/invoice_service.py:95 | strip returns a slice `s[lo..hi]`; everything outside the slice is whitespace |
| Text.StripEmptyIff | src/invoice_service.py:95 | stripping yields the empty string exactly when the input is all whitespace |
| Text.StripPadded | src/invoice_service.py:95 | a code with any whitespace around it strips back to the code |
| Text.Join | src/invoice_service.py:119 | joining nothing gives the empty string; the joined message starts with the first part |
| Text.JoinContains | src/invoice_service.py:119 | every problem appears in the joined message, at its offset |
| Text.OffsetsOrdered | src/invoice_service.py:119 | problems appear in the message in list order, separated and not overlapping |
| InvoiceService.CouponRates | src/invoice_service.py:26-30 | the coupon table: WELCOME10 10%, VIP20 20%, STUDENT5 5%; set at construction and never changed |
| InvoiceService.HeaderProblems | src/invoice_service.py:39-44 | there are no header problems exactly when both ids are non-empty and there are items |
| InvoiceService.ItemProblems | src/invoice_service.py:47-54 | an item has at most four problems, and none exactly when it is valid (sku, qty > 0, price >= 0, known category) |
| InvoiceService.ItemChecksAppend | src/invoice_service.py:47-54 | making the four checks one by one, each appending to the problems found so far, appends exactly the item's problems, in sku, qty, price, category order |
| InvoiceService.ItemsProblems | src/invoice_service.py:46-54 | the item list has no problems exactly when every item is valid |
| InvoiceService.ValidationProblems | src/invoice_service.py:34-56 | a missing invoice yields exactly `["Invoice is missing"]`; the list is empty exactly when the invoice is present and valid |
| InvoiceService.Validate | src/invoice_service.py:34-56 | the one-pass appending loop returns exactly the specified problem list |
| InvoiceService.Subtotal | src/invoice_service.py:64-65 | the subtotal is the sum of `unit_price * qty` over all items |
| InvoiceService.FragileFee | src/invoice_service.py:66-67 | the fragile fee is 5 times `qty`, summed over the fragile items |
| InvoiceService.CalcSubtotalAndFragile | src/invoice_service.py:60-69 | the loop returns the sum of `unit_price * qty` and the sum of `5 * qty` over fragile items |
| InvoiceService.FreeShippingFrom | src/invoice_service.py:71-82 | the subtotal from which shipping is free: TH 500, JP 4000, US 300, any other country 200 |
| InvoiceService.CalcShipping | src/invoice_service.py:71-82 | the fee is between 0 and 600; it is 0 exactly from the country's free-shipping threshold (TH 500, JP 4000, US 300, others 200) |
| InvoiceService.MembershipDiscount | src/invoice_service.py:87-92 | the tier discount is at most 5% of a non-negative subtotal; without gold or platinum and at most 3000 it is 0 |
| InvoiceService.LookupCoupon | src/invoice_service.py:94-99 | an absent or empty coupon counts as none; a coupon is known exactly when its stripped code is in the table; a known rate is 5%, 10% or 20% |
| InvoiceService.CouponDiscount | src/invoice_service.py:94-97 | the coupon part is at most 20% of a non-negative subtotal; it is 0 unless the code is known |
| InvoiceService.CouponWarnings | src/invoice_service.py:98-99 | there is exactly one "Unknown coupon" warning exactly when the code is unknown, otherwise none |
| InvoiceService.CalcDiscount | src/invoice_service.py:84-101 | the stepwise discount is the tier part plus the coupon part; the caller's warnings are only extended by the coupon warning; for a non-negative subtotal `0 <= discount <= subtotal` |
| InvoiceService.DiscountWithinSubtotal | src/invoice_service.py:84-101 | the two parts together take at most 25% of a non-negative subtotal |
| InvoiceService.TaxRate | src/invoice_service.py:104-108 | the rate lies between 5% and 10%; any country other than TH, JP, US gets the 5% default |
| InvoiceService.CalcTax | src/invoice_service.py:103-110 | with `discount <= subtotal` the tax is 5% to 10% of the base; a discount above the subtotal gives a negative tax (the base is not clamped) |
| InvoiceService.UnclampedTotal | src/invoice_service.py:126 | the total before clamping: subtotal + shipping + fragile fee + tax - discount |
| InvoiceService.UpgradeAdvised | src/invoice_service.py:129 | the upgrade advice is due when the subtotal exceeds 10000 and the membership is neither gold nor platinum |
| InvoiceService.ExpectedTotal | src/invoice_service.py:126-127 | the total is `max(subtotal + shipping + fragile_fee + tax - discount, 0)`, so it is never negative |
| InvoiceService.ExpectedWarnings | src/invoice_service.py:129-132 | there are at most two warnings, and no others than "Unknown coupon" and the upgrade advice; "Unknown coupon" appears exactly for an unknown code; the upgrade advice appears exactly when subtotal > 10000 without gold or platinum; with both, the coupon warning comes first |
| InvoiceService.ComputeTotal | src/invoice_service.py:114-132 | it fails exactly when validation finds problems, which is exactly when the invoice is missing or invalid; the failure message is the problems joined by "; "; on success it returns the specified total (>= 0) and warnings |
| InvoiceProperties.ItemsProblemsAppend | src/invoice_service.py:46-54 | item problems of concatenated lists are the concatenated problems (one pass, in source order) |
| InvoiceProperties.ItemProblemsInPlace | src/invoice_service.py:46-54 | item `i`'s problems sit between those of the earlier and the later items |
| InvoiceProperties.EmptyHeaderProblems | src/invoice_service.py:39-44 | empty ids and no items give exactly the three header problems, in order; the message is "Missing invoice_id; Missing customer_id; Invoice must contain items" |
| InvoiceProperties.SubtotalNonNegative | src/invoice_service.py:60-69 | with valid items, the subtotal and the fragile fee are both non-negative |
| InvoiceProperties.NoFragileNoFee | src/invoice_service.py:64-67 | without fragile items the fragile fee is 0 |
| InvoiceProperties.ShippingMonotone | src/invoice_service.py:71-82 | for a fixed country, shipping does not increase as the subtotal grows |
| InvoiceProperties.NoTierNoCouponNoDiscount | src/invoice_service.py:87-94 | no tier, no coupon and a subtotal of at most 3000 give discount 0 and no warning |
| InvoiceProperties.BlankCouponIsUnknown | src/invoice_service.py:94-99 | a non-empty all-whitespace coupon is unknown: no discount on any subtotal, one "Unknown coupon" warning |
| InvoiceProperties.PaddedCouponIsKnown | src/invoice_service.py:94-97 | a known code surrounded by whitespace is still known at its rate, with no warning |
| InvoiceProperties.CleanCodeLookup | src/invoice_service.py:94-99 | a code without outer whitespace is looked up as written |
| InvoiceProperties.BasicInvoice | tests/test_invoice_service.py:5-26 | the tests' invoice: INV001 / CUST01, country TH, membership none, one book ITEM01 at 100 x 2, fragile or not |
| InvoiceProperties.KnownCouponExample | tests/test_invoice_service.py:48-55 | WELCOME10 on a subtotal of 200 takes off 20; the basic test invoice with WELCOME10 totals 252.6 (so more than 0) with no warnings |
| InvoiceProperties.UnknownCouponExample | tests/test_invoice_service.py:58-64 | the basic test invoice with coupon INVALID gets nothing off and exactly the "Unknown coupon" warning |
| InvoiceProperties.ValidTotalNeedsNoClamp | src/invoice_service.py:126-127 | for a valid invoice the unclamped total is already >= 0, so the clamp never changes it |
| InvoiceProperties.BasicInvoiceTotals | tests/test_invoice_service.py:29-36 | the test invoice (TH, no tier, no coupon, one book at 100 x 2) is valid and totals 274 with no warnings, or 284 when fragile |

## Left out

- IEEE floating point: money is exact `real`, so rounding of `float` sums and products is not modelled.
- `max(total, 0)` returning the integer `0` rather than a float: modelled as a plain maximum over reals.
- The exception itself: the `ValueError` is `Outcome.Failure(message)`. Exception propagation and the exception type are not modelled.
- Dynamic typing: the records' fields have fixed types. A field of a non-string type, or `None` where the dataclass declares `str`, is not modelled. The invoice itself may be absent (`Option<Invoice>`).
- `InvoiceService.__init__` and the object identity of the service: the coupon table never changes after construction, so it is a module constant rather than a field of a class.
- CalcDiscount: the caller's `warnings` list is taken in and handed back extended, not mutated in place. Only `compute_total` holds that list, so no other alias can observe the difference.
- Idempotence of `compute_total` is not stated as a lemma. The model is deterministic by construction: `ComputeTotal`'s result is fully fixed by its postconditions.
