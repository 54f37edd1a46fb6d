/**
 * The procurement screen (components/Procurement.tsx): the purchase-order
 * form with its running totals and line checks, and the goods-receipt
 * form, prefilled from the chosen order and checked before ADD_GRN.
 */
module Procurement {
  import opened Wrappers
  import opened Model
  import opened Seqs
  import Billing
  import Receipt

  /** The vendor fields the forms read. */
  datatype Vendor = Vendor(id: string, name: string)

  // ---------------------------------------------------------- order totals

  function OrderGross(i: POItem): Money { i.costPrice * i.quantity as real }
  function OrderDiscount(i: POItem): Money { i.costPrice * i.quantity as real * i.discountPercentage / 100.0 }
  /** GST on the line amount left after its discount. */
  function OrderGst(i: POItem): Money
  {
    i.costPrice * i.quantity as real * (1.0 - i.discountPercentage / 100.0) * i.gstRate / 100.0
  }
  /** What a line costs in the end: its discounted amount grossed up by its GST rate. */
  function OrderPayable(i: POItem): Money
  {
    (OrderGross(i) - OrderDiscount(i)) * (1.0 + i.gstRate / 100.0)
  }

  /**
   * `orderTotals`: three reductions over the lines and their combination, so
   * that the grand total is what the lines cost after discount and GST.
   */
  function OrderTotals(items: seq<POItem>): (t: Billing.Totals)
    ensures t.grandTotal == t.subTotal - t.totalDiscount + t.totalGst
    ensures t.grandTotal == SumR(items, OrderPayable)
  {
    OrderGrandTotalIsSumOfLines(items);
    var sub := SumR(items, OrderGross);
    var disc := SumR(items, OrderDiscount);
    var gst := SumR(items, OrderGst);
    Billing.Totals(sub, disc, gst, sub - disc + gst)
  }

  lemma LinePayable(i: POItem)
    ensures OrderGross(i) - OrderDiscount(i) + OrderGst(i) == OrderPayable(i)
  {
    var g, d, r := i.costPrice * i.quantity as real, i.discountPercentage, i.gstRate;
    assert g * d / 100.0 == g * (d / 100.0);
    assert g * (1.0 - d / 100.0) * r / 100.0 == (g - g * (d / 100.0)) * (r / 100.0);
  }

  /** Gross less discount plus GST over the lines is what they cost after discount and GST, line by line. */
  lemma {:induction false} OrderGrandTotalIsSumOfLines(items: seq<POItem>)
    ensures SumR(items, OrderGross) - SumR(items, OrderDiscount) + SumR(items, OrderGst) == SumR(items, OrderPayable)
  {
    if items != [] {
      OrderGrandTotalIsSumOfLines(items[1..]);
      LinePayable(items[0]);
    }
  }

  // ------------------------------------------------------------- order lines

  /** A line `handleAddItem` accepts: named, coded, with positive quantity and cost. */
  predicate ValidOrderLine(i: POItem)
  {
    i.itemName != "" && i.productCode != "" && i.quantity > 0 && i.costPrice > 0.0
  }

  /** `handleAddItem`: the line is appended when valid; otherwise the list is left as it was. */
  function AddOrderLine(items: seq<POItem>, current: POItem): (r: seq<POItem>)
    ensures ValidOrderLine(current) ==> r == items + [current]
    ensures !ValidOrderLine(current) ==> r == items
  {
    if ValidOrderLine(current) then items + [current] else items
  }

  /** A list built only through `handleAddItem` holds only valid lines. */
  lemma AddOrderLineKeepsValid(items: seq<POItem>, current: POItem)
    requires forall k :: 0 <= k < |items| ==> ValidOrderLine(items[k])
    ensures forall k :: 0 <= k < |AddOrderLine(items, current)| ==> ValidOrderLine(AddOrderLine(items, current)[k])
  {
  }

  /** `items.filter((_, i) => i !== index)`. */
  function RemoveOrderLine(items: seq<POItem>, index: nat): (r: seq<POItem>)
    ensures index < |items| ==> |r| == |items| - 1 && r == items[..index] + items[index + 1..]
    ensures index >= |items| ==> r == items
  {
    if index < |items| then items[..index] + items[index + 1..] else items
  }

  function FindVendor(vendors: seq<Vendor>, id: string): (r: Option<nat>)
    ensures r.Some? ==> r.value < |vendors| && vendors[r.value].id == id
    ensures r.None? ==> forall k :: 0 <= k < |vendors| ==> vendors[k].id != id
  {
    IndexOf(vendors, (v: Vendor) => v.id == id)
  }

  /**
   * The PO form's `handleSubmit`: a Pending order carrying the lines and
   * their totals, or nothing without a known vendor or without lines.
   */
  function SubmitOrder(vendors: seq<Vendor>, vendorId: string, items: seq<POItem>, poId: string, now: string)
    : (r: Option<PurchaseOrder>)
    ensures r.Some? <==> FindVendor(vendors, vendorId).Some? && items != []
    ensures r.Some? ==>
      var t := OrderTotals(items);
      r.value.status == POPending && r.value.items == items && r.value.id == poId &&
      r.value.vendorId == vendorId && r.value.vendorName == vendors[FindVendor(vendors, vendorId).value].name &&
      r.value.subTotal == t.subTotal && r.value.totalDiscount == t.totalDiscount &&
      r.value.totalGst == t.totalGst && r.value.grandTotal == t.grandTotal
  {
    match FindVendor(vendors, vendorId)
    case None => None
    case Some(k) =>
      if items == [] then None
      else
        var t := OrderTotals(items);
        Some(PurchaseOrder(poId, vendorId, vendors[k].name, now, items, POPending,
                           t.subTotal, t.totalDiscount, t.totalGst, t.grandTotal))
  }

  // ------------------------------------------------------------ goods receipt

  /** The orders the receipt form offers: those still Pending. */
  function PendingOrders(pos: seq<PurchaseOrder>): (r: seq<PurchaseOrder>)
    ensures forall po :: po in r <==> po in pos && po.status == POPending
  {
    Filter(pos, (po: PurchaseOrder) => po.status == POPending)
  }

  function FindOrder(pos: seq<PurchaseOrder>, id: string): (r: Option<nat>)
    ensures r.Some? ==> r.value < |pos| && pos[r.value].id == id
    ensures r.None? ==> forall k :: 0 <= k < |pos| ==> pos[k].id != id
  {
    IndexOf(pos, (po: PurchaseOrder) => po.id == id)
  }

  /** The receipt line prefilled from an order line: everything ordered is taken as received. */
  function PrefillLine(i: POItem): GrnItem
  {
    GrnItem(i.productCode, i.itemName, i.quantity, i.quantity, i.costPrice, i.gstRate, i.category, "", "", 0.0)
  }

  function PrefillLines(items: seq<POItem>): (r: seq<GrnItem>)
    ensures |r| == |items|
    ensures forall k :: 0 <= k < |items| ==> r[k] == PrefillLine(items[k])
  {
    seq(|items|, k requires 0 <= k < |items| => PrefillLine(items[k]))
  }

  /**
   * The prefill effect: one line per order line, received quantity equal to
   * ordered quantity, blank batch and expiry, MRP 0; nothing for an
   * unknown order.
   */
  function Prefill(pos: seq<PurchaseOrder>, poId: string): (r: seq<GrnItem>)
    ensures FindOrder(pos, poId).None? ==> r == []
    ensures FindOrder(pos, poId).Some? ==>
      var po := pos[FindOrder(pos, poId).value];
      |r| == |po.items| &&
      forall k :: 0 <= k < |r| ==>
        r[k].productCode == po.items[k].productCode && r[k].itemName == po.items[k].itemName &&
        r[k].orderedQuantity == po.items[k].quantity && r[k].receivedQuantity == po.items[k].quantity &&
        r[k].costPrice == po.items[k].costPrice && r[k].gstRate == po.items[k].gstRate &&
        r[k].category == po.items[k].category &&
        r[k].batchNumber == "" && r[k].expiryDate == "" && r[k].mrp == 0.0
  {
    match FindOrder(pos, poId)
    case None => []
    case Some(k) => PrefillLines(pos[k].items)
  }

  /** Total quantity ordered of a product code, over the lines with a positive quantity. */
  function Ordered(items: seq<POItem>, code: string): int
  {
    if items == [] then 0
    else (if items[0].quantity > 0 && items[0].productCode == code then items[0].quantity else 0)
         + Ordered(items[1..], code)
  }

  /** Left as prefilled, a receipt adds to each product exactly what was ordered of it. */
  lemma {:induction false} PrefillReceivesOrdered(items: seq<POItem>, code: string)
    ensures Receipt.ReceivedAll(PrefillLines(items), code) == Ordered(items, code)
  {
    if items != [] {
      assert PrefillLines(items)[1..] == PrefillLines(items[1..]);
      PrefillReceivesOrdered(items[1..], code);
    }
  }

  /** Every line has a batch number and an expiry date. */
  predicate Complete(items: seq<GrnItem>)
  {
    forall k :: 0 <= k < |items| ==> items[k].batchNumber != "" && items[k].expiryDate != ""
  }

  /** One field of a receipt line, as the form edits it. */
  datatype GrnEdit =
    | SetReceived(quantity: int)
    | SetBatchNumber(batchNumber: string)
    | SetExpiry(expiryDate: string)
    | SetMrp(mrp: Money)

  function ApplyEdit(g: GrnItem, e: GrnEdit): GrnItem
  {
    match e
    case SetReceived(q) => g.(receivedQuantity := q)
    case SetBatchNumber(b) => g.(batchNumber := b)
    case SetExpiry(d) => g.(expiryDate := d)
    case SetMrp(m) => g.(mrp := m)
  }

  /** The goods-receipt form: the chosen order and the lines being received. */
  class GrnForm {
    var poId: string
    var items: seq<GrnItem>

    constructor ()
      ensures poId == "" && items == []
    {
      poId := "";
      items := [];
    }

    /** Choosing an order runs the prefill. */
    method SelectOrder(pos: seq<PurchaseOrder>, id: string)
      modifies this
      ensures poId == id && items == Prefill(pos, id)
    {
      poId := id;
      items := Prefill(pos, id);
    }

    /** `handleItemChange`: one field of one line is overwritten. */
    method ItemChange(index: nat, e: GrnEdit)
      requires index < |items|
      modifies this
      ensures poId == old(poId)
      ensures |items| == |old(items)|
      ensures items[index] == ApplyEdit(old(items)[index], e)
      ensures forall k :: 0 <= k < |items| && k != index ==> items[k] == old(items)[k]
    {
      var updated := items;
      updated := updated[index := ApplyEdit(updated[index], e)];
      items := updated;
    }

    /**
     * `handleSubmit`: the receipt dispatched with ADD_GRN, or nothing when
     * the order is unknown or a line lacks its batch number or expiry.
     */
    method Submit(pos: seq<PurchaseOrder>, grnId: string, now: string, invoice: Option<string>)
      returns (r: Option<Grn>)
      ensures r.Some? <==> FindOrder(pos, poId).Some? && Complete(items)
      ensures r.Some? ==>
        var po := pos[FindOrder(pos, poId).value];
        r.value == Grn(grnId, poId, po.vendorId, po.vendorName, now, items, invoice)
    {
      var found := FindOrder(pos, poId);
      if found.None? {
        return None;
      }
      if !Complete(items) {
        return None;
      }
      var po := pos[found.value];
      r := Some(Grn(grnId, poId, po.vendorId, po.vendorName, now, items, invoice));
    }
  }

  /** A prefilled form is never complete: its batch numbers start blank. */
  lemma PrefillNeedsBatches(pos: seq<PurchaseOrder>, poId: string)
    requires Prefill(pos, poId) != []
    ensures !Complete(Prefill(pos, poId))
  {
    assert Prefill(pos, poId)[0].batchNumber == "";
  }
}
