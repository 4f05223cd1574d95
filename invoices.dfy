/**
  The values the invoice service works on: line items and invoices. They are
  plain records; nothing in the service changes them.
 */
module Invoices {

  datatype Option<+T> = None | Some(value: T)

  /** One purchasable entry. Money is exact (`real`); the quantity is an
      unbounded integer that validation requires to be positive. */
  datatype LineItem = LineItem(
    sku: string,
    category: string,
    unitPrice: real,
    qty: int,
    fragile: bool)

  /** The unit of computation. An absent coupon is `None`. */
  datatype Invoice = Invoice(
    invoiceId: string,
    customerId: string,
    country: string,
    membership: string,
    coupon: Option<string>,
    items: seq<LineItem>)

  /** The categories an item may carry. */
  const Categories: set<string> := {"book", "food", "electronics", "other"}

  /** What validation demands of one item, stated as a property. */
  predicate ItemIsValid(it: LineItem) {
    it.sku != "" && it.qty > 0 && it.unitPrice >= 0.0 && it.category in Categories
  }

  /** What validation demands of an invoice, stated as a property. */
  predicate IsValid(inv: Invoice) {
    && inv.invoiceId != ""
    && inv.customerId != ""
    && inv.items != []
    && forall i :: 0 <= i < |inv.items| ==> ItemIsValid(inv.items[i])
  }
}
