/**
  The pricing pipeline of `InvoiceService`: validation, then subtotal and
  fragile fee, shipping, discount and tax, combined into a total with
  advisory warnings. Each step that the service performs with a loop or by
  appending to a list is a method proved against the function that
  specifies it; the branch-only steps (shipping, tax) are functions.
 */
module InvoiceService {
  import opened Invoices
  import Text

  // ---------- fixed tables ----------

  /** The coupon table set up when the service is constructed; never changed. */
  const CouponRates: map<string, real> := map["WELCOME10" := 0.10, "VIP20" := 0.20, "STUDENT5" := 0.05]

  /** Tax rate per country; any other country pays `DefaultTaxRate`. */
  const TaxRates: map<string, real> := map["TH" := 0.07, "JP" := 0.10, "US" := 0.08]
  const DefaultTaxRate: real := 0.05

  /** Surcharge per unit of a fragile item. */
  const FragileFeePerUnit: real := 5.0

  /** Subtotal above which a customer without a tier is told to upgrade. */
  const UpgradeThreshold: real := 10000.0

  const MissingInvoice := "Invoice is missing"
  const MissingInvoiceId := "Missing invoice_id"
  const MissingCustomerId := "Missing customer_id"
  const NoItems := "Invoice must contain items"
  const MissingSku := "Item sku is missing"
  /** The per-item messages, which name the item's sku. */
  function InvalidQty(sku: string): string { "Invalid qty for " + sku }
  function InvalidPrice(sku: string): string { "Invalid price for " + sku }
  function UnknownCategory(sku: string): string { "Unknown category for " + sku }
  const UnknownCoupon := "Unknown coupon"
  const ConsiderUpgrade := "Consider membership upgrade"

  /** What `compute_total` yields: the `ValueError` raised on an invalid
      invoice, with its message, or the total and the warnings. */
  datatype Outcome = Failure(message: string) | Success(total: real, warnings: seq<string>)

  // ---------- validation ----------

  /** Problems with the invoice's own fields, in the order they are checked. */
  function HeaderProblems(inv: Invoice): (ps: seq<string>)
    ensures ps == [] <==> inv.invoiceId != "" && inv.customerId != "" && inv.items != []
  {
    (if inv.invoiceId == "" then [MissingInvoiceId] else [])
    + (if inv.customerId == "" then [MissingCustomerId] else [])
    + (if inv.items == [] then [NoItems] else [])
  }

  /** Problems with one item: sku, then qty, then price, then category; every
      check is made whatever the others found. */
  function ItemProblems(it: LineItem): (ps: seq<string>)
    ensures |ps| <= 4
    ensures ps == [] <==> ItemIsValid(it)
  {
    (if it.sku == "" then [MissingSku] else [])
    + (if it.qty <= 0 then [InvalidQty(it.sku)] else [])
    + (if it.unitPrice < 0.0 then [InvalidPrice(it.sku)] else [])
    + (if it.category !in Categories then [UnknownCategory(it.sku)] else [])
  }

  /** Making the item's four checks one after the other, each appending its
      problem to what was found so far, appends exactly the item's problems. */
  lemma ItemChecksAppend(found: seq<string>, it: LineItem)
    ensures (var afterSku := if it.sku == "" then found + [MissingSku] else found;
             var afterQty := if it.qty <= 0 then afterSku + [InvalidQty(it.sku)] else afterSku;
             var afterPrice := if it.unitPrice < 0.0 then afterQty + [InvalidPrice(it.sku)] else afterQty;
             if it.category !in Categories then afterPrice + [UnknownCategory(it.sku)] else afterPrice)
      == found + ItemProblems(it)
  {
  }

  /** Problems with all items, item after item. */
  function ItemsProblems(items: seq<LineItem>): (ps: seq<string>)
    ensures ps == [] <==> forall i :: 0 <= i < |items| ==> ItemIsValid(items[i])
  {
    if items == [] then []
    else
      var last := |items| - 1;
      assert forall i :: 0 <= i < last ==> items[..last][i] == items[i];
      ItemsProblems(items[..last]) + ItemProblems(items[last])
  }

  /** The list `_validate` returns: a missing invoice is the one problem;
      otherwise every check runs and the list is empty exactly when the
      invoice is valid. */
  function ValidationProblems(inv: Option<Invoice>): (ps: seq<string>)
    ensures inv.None? ==> ps == [MissingInvoice]
    ensures ps == [] <==> inv.Some? && IsValid(inv.value)
  {
    match inv
    case None => [MissingInvoice]
    case Some(v) => HeaderProblems(v) + ItemsProblems(v.items)
  }

  /** `_validate`: gathers the problems by appending, in one pass. */
  method Validate(inv: Option<Invoice>) returns (problems: seq<string>)
    ensures problems == ValidationProblems(inv)
  {
    problems := [];
    if inv.None? {
      return [MissingInvoice];
    }
    var v := inv.value;
    if v.invoiceId == "" {
      problems := problems + [MissingInvoiceId];
    }
    if v.customerId == "" {
      problems := problems + [MissingCustomerId];
    }
    if v.items == [] {
      problems := problems + [NoItems];
    }
    for i := 0 to |v.items|
      invariant problems == HeaderProblems(v) + ItemsProblems(v.items[..i])
    {
      var it := v.items[i];
      ghost var before := problems;
      if it.sku == "" {
        problems := problems + [MissingSku];
      }
      if it.qty <= 0 {
        problems := problems + [InvalidQty(it.sku)];
      }
      if it.unitPrice < 0.0 {
        problems := problems + [InvalidPrice(it.sku)];
      }
      if it.category !in Categories {
        problems := problems + [UnknownCategory(it.sku)];
      }
      ItemChecksAppend(before, it);
      assert v.items[..i + 1][..i] == v.items[..i];
      assert ItemsProblems(v.items[..i + 1]) == ItemsProblems(v.items[..i]) + ItemProblems(it);
      AppendAssoc(HeaderProblems(v), ItemsProblems(v.items[..i]), ItemProblems(it));
    }
    assert v.items[..|v.items|] == v.items;
  }

  /** Appending is associative (a step the loop proof needs spelled out). */
  lemma AppendAssoc<T>(a: seq<T>, b: seq<T>, c: seq<T>)
    ensures (a + b) + c == a + (b + c)
  {
  }

  // ---------- subtotal and fragile fee ----------

  /** Sum of `unit_price * qty` over the items. */
  function Subtotal(items: seq<LineItem>): real {
    if items == [] then 0.0
    else
      var it := items[|items| - 1];
      Subtotal(items[..|items| - 1]) + it.unitPrice * it.qty as real
  }

  /** Sum of the per-unit surcharge times `qty` over the fragile items. */
  function FragileFee(items: seq<LineItem>): real {
    if items == [] then 0.0
    else
      var it := items[|items| - 1];
      FragileFee(items[..|items| - 1]) + (if it.fragile then FragileFeePerUnit * it.qty as real else 0.0)
  }

  /** `_calc_subtotal_and_fragile`: one loop accumulating both sums. */
  method CalcSubtotalAndFragile(items: seq<LineItem>) returns (subtotal: real, fragileFee: real)
    ensures subtotal == Subtotal(items)
    ensures fragileFee == FragileFee(items)
  {
    subtotal := 0.0;
    fragileFee := 0.0;
    for i := 0 to |items|
      invariant subtotal == Subtotal(items[..i])
      invariant fragileFee == FragileFee(items[..i])
    {
      var it := items[i];
      subtotal := subtotal + it.unitPrice * it.qty as real;
      if it.fragile {
        fragileFee := fragileFee + FragileFeePerUnit * it.qty as real;
      }
      assert items[..i + 1][..i] == items[..i];
    }
    assert items[..|items|] == items;
  }

  // ---------- shipping ----------

  /** The subtotal from which shipping is free, per country. */
  function FreeShippingFrom(country: string): real {
    if country == "TH" then 500.0
    else if country == "JP" then 4000.0
    else if country == "US" then 300.0
    else 200.0
  }

  /** `_calc_shipping`: a per-country piecewise fee that is never negative
      and is zero exactly from the country's free-shipping threshold on. */
  function CalcShipping(subtotal: real, country: string): (fee: real)
    ensures 0.0 <= fee <= 600.0
    ensures fee == 0.0 <==> subtotal >= FreeShippingFrom(country)
  {
    if country == "TH" then (if subtotal < 500.0 then 60.0 else 0.0)
    else if country == "JP" then (if subtotal < 4000.0 then 600.0 else 0.0)
    else if country == "US" then
      (if subtotal < 100.0 then 15.0 else if subtotal < 300.0 then 8.0 else 0.0)
    else if subtotal < 200.0 then 25.0 else 0.0
  }

  // ---------- discount ----------

  /** The membership part of the discount: the first matching tier of gold
      (3%), platinum (5%) and "large order" (a flat 20 above 3000). It never
      exceeds 5% of a non-negative subtotal. */
  function MembershipDiscount(membership: string, subtotal: real): (d: real)
    ensures subtotal >= 0.0 ==> 0.0 <= d <= subtotal * 0.05
    ensures membership != "gold" && membership != "platinum" && subtotal <= 3000.0 ==> d == 0.0
  {
    if membership == "gold" then subtotal * 0.03
    else if membership == "platinum" then subtotal * 0.05
    else if subtotal > 3000.0 then 20.0
    else 0.0
  }

  /** How the coupon field is read: absent or empty means no coupon;
      otherwise the stripped code is looked up in the coupon table. */
  datatype CouponLookup = NoCoupon | Known(rate: real) | Unknown

  function LookupCoupon(coupon: Option<string>): (c: CouponLookup)
    ensures c.NoCoupon? <==> coupon == None || coupon == Some("")
    ensures c.Known? <==> coupon.Some? && Text.Strip(coupon.value) in CouponRates
    ensures c.Known? ==> c.rate == 0.10 || c.rate == 0.20 || c.rate == 0.05
  {
    match coupon
    case None => NoCoupon
    case Some(text) =>
      if text == "" then NoCoupon
      else
        var code := Text.Strip(text);
        if code in CouponRates then Known(CouponRates[code]) else Unknown
  }

  /** The coupon part of the discount: at most 20% of a non-negative subtotal. */
  function CouponDiscount(coupon: Option<string>, subtotal: real): (d: real)
    ensures subtotal >= 0.0 ==> 0.0 <= d <= subtotal * 0.20
    ensures !LookupCoupon(coupon).Known? ==> d == 0.0
  {
    match LookupCoupon(coupon)
    case Known(rate) =>
      ScaledWithin(subtotal, rate, 0.20);
      subtotal * rate
    case _ => 0.0
  }

  /** Scaling a non-negative amount by a rate up to `hi` gives at most the
      amount scaled by `hi`. */
  lemma ScaledWithin(x: real, rate: real, hi: real)
    requires 0.0 <= rate <= hi
    ensures x >= 0.0 ==> 0.0 <= x * rate <= x * hi
  {
    if x >= 0.0 {
      assert x * (hi - rate) >= 0.0;
    }
  }

  /** The warnings the discount step appends: one for an unknown code. */
  function CouponWarnings(coupon: Option<string>): (w: seq<string>)
    ensures w == [] || w == [UnknownCoupon]
    ensures w != [] <==> LookupCoupon(coupon).Unknown?
  {
    if LookupCoupon(coupon).Unknown? then [UnknownCoupon] else []
  }

  /** `_calc_discount`: builds the discount step by step and appends to the
      caller's warning list (here: returns the extended list). For a
      non-negative subtotal the discount lies between 0 and the subtotal. */
  method CalcDiscount(inv: Invoice, subtotal: real, warnings: seq<string>)
    returns (discount: real, warningsOut: seq<string>)
    ensures discount == MembershipDiscount(inv.membership, subtotal) + CouponDiscount(inv.coupon, subtotal)
    ensures warningsOut == warnings + CouponWarnings(inv.coupon)
    ensures subtotal >= 0.0 ==> 0.0 <= discount <= subtotal
  {
    discount := 0.0;
    warningsOut := warnings;
    if inv.membership == "gold" {
      discount := discount + subtotal * 0.03;
    } else if inv.membership == "platinum" {
      discount := discount + subtotal * 0.05;
    } else if subtotal > 3000.0 {
      discount := discount + 20.0;
    }
    assert discount == MembershipDiscount(inv.membership, subtotal);
    if inv.coupon.Some? && inv.coupon.value != "" {
      var code := Text.Strip(inv.coupon.value);
      if code in CouponRates {
        assert LookupCoupon(inv.coupon) == Known(CouponRates[code]);
        assert CouponDiscount(inv.coupon, subtotal) == subtotal * CouponRates[code];
        assert CouponWarnings(inv.coupon) == [];
        discount := discount + subtotal * CouponRates[code];
      } else {
        assert LookupCoupon(inv.coupon) == Unknown;
        assert CouponDiscount(inv.coupon, subtotal) == 0.0;
        warningsOut := warningsOut + [UnknownCoupon];
      }
    } else {
      assert LookupCoupon(inv.coupon) == NoCoupon;
      assert CouponDiscount(inv.coupon, subtotal) == 0.0 && CouponWarnings(inv.coupon) == [];
    }
    DiscountWithinSubtotal(inv.membership, inv.coupon, subtotal);
  }

  /** Together the two parts of the discount take at most a quarter of a
      non-negative subtotal, so the discount never exceeds the subtotal. */
  lemma DiscountWithinSubtotal(membership: string, coupon: Option<string>, subtotal: real)
    ensures subtotal >= 0.0 ==>
      0.0 <= MembershipDiscount(membership, subtotal) + CouponDiscount(coupon, subtotal) <= subtotal * 0.25
  {
  }

  // ---------- tax ----------

  /** The country's tax rate, with the default for any other country. */
  function TaxRate(country: string): (rate: real)
    ensures 0.05 <= rate <= 0.10
    ensures country != "TH" && country != "JP" && country != "US" ==> rate == DefaultTaxRate
  {
    if country in TaxRates then TaxRates[country] else DefaultTaxRate
  }

  /** `_calc_tax`: the rate applied to `subtotal - discount`. The base is not
      clamped, so a discount above the subtotal gives a negative tax. */
  function CalcTax(subtotal: real, discount: real, country: string): (tax: real)
    ensures discount <= subtotal ==> (subtotal - discount) * 0.05 <= tax <= (subtotal - discount) * 0.10
    ensures discount > subtotal ==> tax < 0.0
  {
    (subtotal - discount) * TaxRate(country)
  }

  // ---------- total ----------

  /** `subtotal + shipping + fragile_fee + tax - discount`, before clamping. */
  function UnclampedTotal(inv: Invoice): real {
    var subtotal := Subtotal(inv.items);
    var discount := MembershipDiscount(inv.membership, subtotal) + CouponDiscount(inv.coupon, subtotal);
    subtotal + CalcShipping(subtotal, inv.country) + FragileFee(inv.items)
      + CalcTax(subtotal, discount, inv.country) - discount
  }

  /** The total `compute_total` returns: the unclamped total, raised to 0. */
  function ExpectedTotal(inv: Invoice): (t: real)
    ensures t >= 0.0
    ensures t >= UnclampedTotal(inv)
    ensures t == 0.0 || t == UnclampedTotal(inv)
  {
    var total := UnclampedTotal(inv);
    if total > 0.0 then total else 0.0
  }

  /** Whether the upgrade warning is due: a large subtotal and no tier. */
  predicate UpgradeAdvised(inv: Invoice) {
    Subtotal(inv.items) > UpgradeThreshold && inv.membership !in {"gold", "platinum"}
  }

  /** The warnings `compute_total` returns: the discount step's, then the
      upgrade advice. At most two, each at most once, in that order. */
  function ExpectedWarnings(inv: Invoice): (w: seq<string>)
    ensures |w| <= 2
    ensures UnknownCoupon in w <==> LookupCoupon(inv.coupon).Unknown?
    ensures ConsiderUpgrade in w <==> UpgradeAdvised(inv)
    ensures |w| == 2 ==> w == [UnknownCoupon, ConsiderUpgrade]
    ensures forall x :: x in w ==> x == UnknownCoupon || x == ConsiderUpgrade
  {
    CouponWarnings(inv.coupon) + (if UpgradeAdvised(inv) then [ConsiderUpgrade] else [])
  }

  /** `compute_total`: fails with all problems joined by "; " exactly when
      validation finds any, which is exactly when the invoice is missing or
      invalid; otherwise returns the non-negative total and the warnings. */
  method ComputeTotal(inv: Option<Invoice>) returns (r: Outcome)
    ensures r.Failure? <==> ValidationProblems(inv) != []
    ensures r.Failure? ==> r.message == Text.Join(ValidationProblems(inv), "; ")
    ensures r.Success? <==> inv.Some? && IsValid(inv.value)
    ensures r.Success? ==> inv.Some? && r.total == ExpectedTotal(inv.value) && r.warnings == ExpectedWarnings(inv.value)
    ensures r.Success? ==> r.total >= 0.0
  {
    var warnings: seq<string> := [];
    var problems := Validate(inv);
    if problems != [] {
      return Failure(Text.Join(problems, "; "));
    }
    var v := inv.value;
    var subtotal, fragileFee := CalcSubtotalAndFragile(v.items);
    var shipping := CalcShipping(subtotal, v.country);
    var discount;
    discount, warnings := CalcDiscount(v, subtotal, warnings);
    var tax := CalcTax(subtotal, discount, v.country);

    var total := subtotal + shipping + fragileFee + tax - discount;
    total := if total > 0.0 then total else 0.0;

    if subtotal > UpgradeThreshold && v.membership !in {"gold", "platinum"} {
      warnings := warnings + [ConsiderUpgrade];
    }
    return Success(total, warnings);
  }
}
