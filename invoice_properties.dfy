/**
  Properties of the pricing pipeline that relate several of its steps or
  several calls: how validation orders its problems, why the totals of valid
  invoices are never negative, how coupons are read, and the worked examples
  of the service's tests.
 */
module InvoiceProperties {
  import opened Invoices
  import opened InvoiceService
  import Text

  // ---------- validation ----------

  /** Item problems are gathered item by item: the problems of a longer item
      list are those of its first part followed by those of the rest. */
  lemma {:induction false} ItemsProblemsAppend(a: seq<LineItem>, b: seq<LineItem>)
    ensures ItemsProblems(a + b) == ItemsProblems(a) + ItemsProblems(b)
  {
    if b == [] {
      assert a + b == a;
    } else {
      var last := |b| - 1;
      assert (a + b)[..|a + b| - 1] == a + b[..last];
      ItemsProblemsAppend(a, b[..last]);
    }
  }

  /** The problems of item `i` sit between those of the items before it and
      those of the items after it. */
  lemma ItemProblemsInPlace(items: seq<LineItem>, i: nat)
    requires i < |items|
    ensures ItemsProblems(items) ==
      ItemsProblems(items[..i]) + ItemProblems(items[i]) + ItemsProblems(items[i + 1..])
  {
    var upTo, after := items[..i + 1], items[i + 1..];
    SplitAt(items, i + 1);
    ItemsProblemsAppend(upTo, after);
    ItemsProblemsExtend(items, i);
  }

  /** A sequence is its prefix followed by the rest. */
  lemma SplitAt<T>(s: seq<T>, k: nat)
    requires k <= |s|
    ensures s == s[..k] + s[k..]
  {
  }

  /** Extending a prefix by one item appends that item's problems. */
  lemma ItemsProblemsExtend(items: seq<LineItem>, i: nat)
    requires i < |items|
    ensures ItemsProblems(items[..i + 1]) == ItemsProblems(items[..i]) + ItemProblems(items[i])
  {
    assert items[..i + 1][..i] == items[..i];
  }

  /** An invoice with no ids and no items has exactly the three header
      problems, in the order they are checked, and they make up the failure
      message. */
  lemma EmptyHeaderProblems(inv: Invoice)
    requires inv.invoiceId == "" && inv.customerId == "" && inv.items == []
    ensures ValidationProblems(Some(inv)) == [MissingInvoiceId, MissingCustomerId, NoItems]
    ensures Text.Join(ValidationProblems(Some(inv)), "; ")
      == MissingInvoiceId + "; " + MissingCustomerId + "; " + NoItems
  {
    var ps := ValidationProblems(Some(inv));
    assert ps == [MissingInvoiceId, MissingCustomerId, NoItems];
    assert ps[1..] == [MissingCustomerId, NoItems];
    assert ps[1..][1..] == [NoItems];
    var tail := MissingCustomerId + "; " + NoItems;
    assert Text.Join(ps[1..], "; ") == tail;
    AppendAssoc(MissingInvoiceId + "; ", MissingCustomerId + "; ", NoItems);
    AppendAssoc(MissingInvoiceId, "; ", MissingCustomerId);
    AppendAssoc(MissingInvoiceId + "; " + MissingCustomerId, "; ", NoItems);
  }

  // ---------- subtotal and fragile fee ----------

  /** With non-negative prices and positive quantities both sums are
      non-negative. */
  lemma {:induction false} SubtotalNonNegative(items: seq<LineItem>)
    requires forall i :: 0 <= i < |items| ==> ItemIsValid(items[i])
    ensures Subtotal(items) >= 0.0
    ensures FragileFee(items) >= 0.0
  {
    if items != [] {
      var last := |items| - 1;
      var it := items[last];
      assert ItemIsValid(it);
      assert forall i :: 0 <= i < last ==> items[..last][i] == items[i];
      SubtotalNonNegative(items[..last]);
      assert it.unitPrice * it.qty as real >= 0.0;
    }
  }

  /** Without fragile items there is no fragile fee. */
  lemma {:induction false} NoFragileNoFee(items: seq<LineItem>)
    requires forall i :: 0 <= i < |items| ==> !items[i].fragile
    ensures FragileFee(items) == 0.0
  {
    if items != [] {
      var last := |items| - 1;
      assert forall i :: 0 <= i < last ==> items[..last][i] == items[i];
      NoFragileNoFee(items[..last]);
    }
  }

  // ---------- shipping ----------

  /** For a fixed country, shipping never grows as the subtotal grows. */
  lemma ShippingMonotone(country: string, smaller: real, larger: real)
    requires smaller <= larger
    ensures CalcShipping(larger, country) <= CalcShipping(smaller, country)
  {
  }

  // ---------- discount ----------

  /** A customer without a tier, without a coupon and with a subtotal of at
      most 3000 gets no discount and no coupon warning. */
  lemma NoTierNoCouponNoDiscount(membership: string, coupon: Option<string>, subtotal: real)
    requires membership != "gold" && membership != "platinum"
    requires coupon == None || coupon == Some("")
    requires subtotal <= 3000.0
    ensures MembershipDiscount(membership, subtotal) + CouponDiscount(coupon, subtotal) == 0.0
    ensures CouponWarnings(coupon) == []
  {
  }

  /** A coupon made only of whitespace is not "no coupon": it strips to the
      empty code, which is unknown. */
  lemma BlankCouponIsUnknown(text: string, subtotal: real)
    requires text != "" && Text.AllWhitespace(text)
    ensures LookupCoupon(Some(text)) == Unknown
    ensures CouponDiscount(Some(text), subtotal) == 0.0
    ensures CouponWarnings(Some(text)) == [UnknownCoupon]
  {
    Text.StripEmptyIff(text);
    assert "" !in CouponRates;
  }

  /** A known code with whitespace around it is still known. */
  lemma PaddedCouponIsKnown(pre: string, code: string, post: string)
    requires Text.AllWhitespace(pre) && Text.AllWhitespace(post)
    requires code in CouponRates
    ensures LookupCoupon(Some(pre + code + post)) == Known(CouponRates[code])
    ensures CouponWarnings(Some(pre + code + post)) == []
  {
    assert code == "WELCOME10" || code == "VIP20" || code == "STUDENT5";
    assert code != [] && !Text.IsWhitespace(code[0]) && !Text.IsWhitespace(code[|code| - 1]);
    Text.StripPadded(pre, code, post);
  }

  /** A code that neither starts nor ends with whitespace is looked up as
      it is. */
  lemma CleanCodeLookup(code: string)
    requires code != "" && !Text.IsWhitespace(code[0]) && !Text.IsWhitespace(code[|code| - 1])
    ensures LookupCoupon(Some(code)) == if code in CouponRates then Known(CouponRates[code]) else Unknown
  {
    assert Text.Strip(code) == code;
  }

  /** The coupon case of the tests: the basic invoice with WELCOME10 gets 20
      off its subtotal of 200, pays 200 + 60 shipping + 12.6 tax - 20, and is
      not warned. */
  lemma KnownCouponExample()
    ensures CouponDiscount(Some("WELCOME10"), 200.0) == 20.0
    ensures ExpectedTotal(Invoice("INV001", "CUST01", "TH", "none", Some("WELCOME10"), BasicInvoice(false).items))
      == 252.6
    ensures ExpectedWarnings(Invoice("INV001", "CUST01", "TH", "none", Some("WELCOME10"), BasicInvoice(false).items))
      == []
  {
    CleanCodeLookup("WELCOME10");
    var items := BasicInvoice(false).items;
    assert items[..0] == [];
    assert Subtotal(items) == 200.0;
  }

  /** The unknown-coupon case of the tests: the basic invoice with coupon
      INVALID gets nothing off and exactly the "Unknown coupon" warning. */
  lemma UnknownCouponExample()
    ensures CouponDiscount(Some("INVALID"), 200.0) == 0.0
    ensures ExpectedWarnings(Invoice("INV001", "CUST01", "TH", "none", Some("INVALID"), BasicInvoice(false).items))
      == [UnknownCoupon]
  {
    CleanCodeLookup("INVALID");
    var items := BasicInvoice(false).items;
    assert items[..0] == [];
    assert Subtotal(items) == 200.0;
  }

  // ---------- total ----------

  /** For a valid invoice the discount never exceeds the subtotal, so the
      taxable base and the tax are non-negative and the total is already
      non-negative before clamping: the clamp never changes it. */
  lemma ValidTotalNeedsNoClamp(inv: Invoice)
    requires IsValid(inv)
    ensures UnclampedTotal(inv) >= 0.0
    ensures ExpectedTotal(inv) == UnclampedTotal(inv)
  {
    var subtotal := Subtotal(inv.items);
    SubtotalNonNegative(inv.items);
    DiscountWithinSubtotal(inv.membership, inv.coupon, subtotal);
  }

  /** The invoice the tests build: one book at 100 x 2, shipped to TH, no
      tier, no coupon. */
  function BasicInvoice(fragile: bool): Invoice {
    Invoice("INV001", "CUST01", "TH", "none", None, [LineItem("ITEM01", "book", 100.0, 2, fragile)])
  }

  /** It is valid and costs 200 + 60 shipping + 14 tax = 274, or 284 with the
      fragile fee of 5 x 2, without warnings. */
  lemma BasicInvoiceTotals()
    ensures ValidationProblems(Some(BasicInvoice(false))) == []
    ensures ExpectedTotal(BasicInvoice(false)) == 274.0
    ensures ExpectedTotal(BasicInvoice(true)) == 284.0
    ensures ExpectedWarnings(BasicInvoice(false)) == []
    ensures ExpectedWarnings(BasicInvoice(true)) == []
  {
    var items := BasicInvoice(false).items;
    assert items[..0] == [];
    assert Subtotal(items) == 200.0;
    var fragileItems := BasicInvoice(true).items;
    assert fragileItems[..0] == [];
    assert Subtotal(fragileItems) == 200.0;
    assert FragileFee(fragileItems) == 10.0;
  }
}
