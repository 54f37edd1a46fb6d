/**
 * The billing screen (components/Billing.tsx): pricing a line, the running
 * totals, the checks before a bill is dispatched, the sales-return form
 * and which actions the bill history offers on a bill.
 */
module Billing {
  import opened Wrappers
  import opened Model
  import opened Seqs
  import opened Text
  import Stock

  // ------------------------------------------------------------------ totals

  function LineGross(i: BillItem): Money { i.pricePerUnit * i.quantity as real }
  function LineDiscount(i: BillItem): Money { i.discountAmount }
  function LineGst(i: BillItem): Money { i.gstAmount }
  /** What the patient pays for a line: its post-discount total plus its GST. */
  function LinePayable(i: BillItem): Money { i.total + i.gstAmount }

  datatype Totals = Totals(subTotal: Money, totalDiscount: Money, totalGst: Money, grandTotal: Money)

  /**
   * The totals the summary panel shows for the lines on the bill. When every
   * line is priced as `handleAddItem` prices it, the grand total is what the
   * lines cost, each its post-discount total plus its GST.
   */
  function TotalsOf(items: seq<BillItem>): (t: Totals)
    ensures t.grandTotal == t.subTotal - t.totalDiscount + t.totalGst
    ensures (forall k :: 0 <= k < |items| ==> WellPriced(items[k])) ==> t.grandTotal == SumR(items, LinePayable)
  {
    GrandTotalIsSumOfLines(items);
    var sub := SumR(items, LineGross);
    var disc := SumR(items, LineDiscount);
    var gst := SumR(items, LineGst);
    Totals(sub, disc, gst, sub - disc + gst)
  }

  /** The totals `useMemo`: one pass over the lines, accumulating three sums. */
  method ComputeTotals(items: seq<BillItem>) returns (t: Totals)
    ensures t == TotalsOf(items)
  {
    var sub, disc, gst := 0.0, 0.0, 0.0;
    for k := 0 to |items|
      invariant sub == SumR(items[..k], LineGross)
      invariant disc == SumR(items[..k], LineDiscount)
      invariant gst == SumR(items[..k], LineGst)
    {
      assert items[..k + 1] == items[..k] + [items[k]];
      SumRAppend(items[..k], [items[k]], LineGross);
      SumRAppend(items[..k], [items[k]], LineDiscount);
      SumRAppend(items[..k], [items[k]], LineGst);
      sub := sub + items[k].pricePerUnit * items[k].quantity as real;
      disc := disc + items[k].discountAmount;
      gst := gst + items[k].gstAmount;
    }
    assert items[..|items|] == items;
    t := Totals(sub, disc, gst, sub - disc + gst);
  }

  // ---------------------------------------------------------------- pricing

  /** Discounts are offered only on laboratory and imaging services. */
  predicate Discountable(c: Category) { c == Pathology || c == Radiology }

  /** A line whose total is its gross less its discount. */
  predicate WellPriced(i: BillItem)
  {
    i.total == i.pricePerUnit * i.quantity as real - i.discountAmount
  }

  /**
   * The line `handleAddItem` builds: price times quantity, less the chosen
   * percentage only for a discountable category, with GST charged on what
   * is left. A line with no batch number is recorded against batch "NA".
   */
  function PriceLine(item: Item, batch: Batch, batchNumber: string, qty: int, discount: real): (r: BillItem)
    ensures WellPriced(r)
    ensures !Discountable(item.category) ==> r.discountAmount == 0.0 && r.total == item.price * qty as real
    ensures Discountable(item.category) ==> r.discountAmount == item.price * qty as real * (discount / 100.0)
    ensures r.gstAmount == r.total * (item.gstRate / 100.0)
    ensures r.itemId == item.id && r.quantity == qty && r.pricePerUnit == item.price && r.category == item.category
    ensures r.batchNumber == (if batchNumber == "" then "NA" else batchNumber) && r.expiryDate == batch.expiryDate
    ensures r.discountPercentage == discount
  {
    var gross := item.price * qty as real;
    var discountAmount := if Discountable(item.category) then gross * (discount / 100.0) else 0.0;
    var total := gross - discountAmount;
    BillItem(item.id, item.name, qty, item.price, item.gstRate, total, total * (item.gstRate / 100.0),
             if batchNumber == "" then "NA" else batchNumber, batch.expiryDate, discount, discountAmount, item.category)
  }

  /** On well-priced lines, gross less discount plus GST is the sum of what each line costs. */
  lemma {:induction false} GrandTotalIsSumOfLines(items: seq<BillItem>)
    ensures (forall k :: 0 <= k < |items| ==> WellPriced(items[k])) ==>
      SumR(items, LineGross) - SumR(items, LineDiscount) + SumR(items, LineGst) == SumR(items, LinePayable)
  {
    if items != [] {
      GrandTotalIsSumOfLines(items[1..]);
    }
  }

  /** `batches.find(b => b.batchNumber === number) || batches[0]`. */
  function ChosenBatch(bs: seq<Batch>, number: string): Batch
    requires bs != []
  {
    match Stock.FindBatch(bs, number)
    case Some(j) => bs[j]
    case None => bs[0]
  }

  /**
   * `handleAddItem`: the line for the chosen item and batch, or nothing.
   * Nothing is added without an item, for a pharmacist without a batch,
   * for an item without batches, or when the quantity exceeds the batch's
   * stock for anything but a General item. The stock checked is the
   * chosen batch's or, when no batch matches, the item's first batch.
   */
  function AddItem(selected: Option<Item>, isPharmacist: bool, batchNumber: string, qty: int, discount: real)
    : (r: Option<BillItem>)
    ensures selected.None? || (isPharmacist && batchNumber == "") || (selected.Some? && selected.value.batches == []) ==> r.None?
    ensures r.Some? ==> r.value.itemId == selected.value.id && r.value.quantity == qty && WellPriced(r.value)
    ensures r.Some? ==>
      qty <= ChosenBatch(selected.value.batches, batchNumber).stock || selected.value.category == General
    ensures (selected.Some? && !(isPharmacist && batchNumber == "") && selected.value.batches != [] &&
             (qty <= ChosenBatch(selected.value.batches, batchNumber).stock || selected.value.category == General))
      ==> r == Some(PriceLine(selected.value, ChosenBatch(selected.value.batches, batchNumber), batchNumber, qty, discount))
  {
    match selected
    case None => None
    case Some(item) =>
      if isPharmacist && batchNumber == "" then None
      else if item.batches == [] then None
      else
        var b := ChosenBatch(item.batches, batchNumber);
        if qty > b.stock && item.category != General then None
        else Some(PriceLine(item, b, batchNumber, qty, discount))
  }

  /** A pharmacist's line never asks for more than its own batch holds. */
  lemma PharmacyLineWithinBatch(item: Item, batchNumber: string, qty: int, discount: real)
    requires item.category != General
    requires Stock.FindBatch(item.batches, batchNumber).Some?
    ensures var r := AddItem(Some(item), true, batchNumber, qty, discount);
      r.Some? ==> (r.value.batchNumber == batchNumber &&
                   qty <= item.batches[Stock.FindBatch(item.batches, batchNumber).value].stock)
  {
  }

  // ----------------------------------------------------------- create bill

  /** Some line carries a discount above 5%, which needs an administrator's approval. */
  predicate NeedsApproval(items: seq<BillItem>)
  {
    exists k | 0 <= k < |items| :: items[k].discountPercentage > 5.0
  }

  /** Who the bill is for, as the form holds it. */
  datatype Customer =
    | RegisteredPatient(selectedPatient: string)
    | WalkInCustomer(name: string, contact: string)

  function FindPatient(patients: seq<Patient>, id: string): (r: Option<nat>)
    ensures r.Some? ==> r.value < |patients| && patients[r.value].id == id
    ensures r.None? ==> forall k :: 0 <= k < |patients| ==> patients[k].id != id
  {
    IndexOf(patients, (p: Patient) => p.id == id)
  }

  /**
   * `handleCreateBill`: the bill dispatched with ADD_BILL, or nothing when
   * there are no lines, nobody is signed in, the registered patient is not
   * found or the walk-in name is blank. The lines are kept as they are: the
   * handler's `batchNumber || 'NA'` changes nothing on lines built by
   * `PriceLine`, which already records a missing batch as "NA", and
   * `expiryDate || ''` changes nothing on an expiry that is always a string.
   */
  function CreateBill(items: seq<BillItem>, user: Option<User>, customer: Customer, patients: seq<Patient>,
                      payment: PaymentMethod, isPharmacist: bool, billId: string, now: string): (r: Option<Bill>)
    ensures r.Some? <==>
      items != [] && user.Some? &&
      (customer.RegisteredPatient? ==> FindPatient(patients, customer.selectedPatient).Some?) &&
      (customer.WalkInCustomer? ==> !IsBlank(customer.name))
    ensures r.Some? ==>
      var b := r.value;
      (b.status == PendingApproval <==> NeedsApproval(items)) &&
      (b.status == Finalized <==> !NeedsApproval(items)) &&
      b.items == items && b.id == billId && b.requestedById == user.value.id &&
      b.subTotal == TotalsOf(items).subTotal && b.totalDiscount == TotalsOf(items).totalDiscount &&
      b.totalGst == TotalsOf(items).totalGst && b.grandTotal == TotalsOf(items).grandTotal &&
      (b.billType == Pharmacy <==> isPharmacist) &&
      (customer.RegisteredPatient? ==>
        b.customerType == Registered && b.patientId == Some(customer.selectedPatient) &&
        b.patientName == Some(patients[FindPatient(patients, customer.selectedPatient).value].name)) &&
      (customer.WalkInCustomer? ==>
        b.customerType == WalkIn && b.customerName == Some(customer.name) && b.customerContact == Some(customer.contact))
  {
    if items == [] || user.None? then None
    else
      var t := TotalsOf(items);
      var status := if NeedsApproval(items) then PendingApproval else Finalized;
      var bill := Bill(billId, None, None, None, None, Registered, now, items, t.subTotal, t.totalDiscount,
                       t.totalGst, t.grandTotal, payment, if isPharmacist then Pharmacy else Services, status,
                       user.value.id, None);
      match customer
      case RegisteredPatient(pid) =>
        (match FindPatient(patients, pid)
         case None => None
         case Some(k) => Some(bill.(patientId := Some(pid), patientName := Some(patients[k].name))))
      case WalkInCustomer(name, contact) =>
        if IsBlank(name) then None
        else Some(bill.(customerType := WalkIn, customerName := Some(name), customerContact := Some(contact)))
  }

  // ----------------------------------------------------------- sales return

  /** The form's key for line `index` of a bill: `itemId-batchNumber-index`. */
  function ReturnKey(item: BillItem, index: nat): string
  {
    item.itemId + "-" + item.batchNumber + "-" + NatToString(index)
  }

  /** The number of digits a string ends with. */
  function TrailingDigits(s: string): (n: nat)
    ensures n <= |s|
  {
    if s == [] || !IsDigit(s[|s| - 1]) then 0 else 1 + TrailingDigits(s[..|s| - 1])
  }

  lemma {:induction false} TrailingDigitsAfterDash(x: string, d: string)
    requires AllDigits(d)
    ensures TrailingDigits(x + "-" + d) == |d|
    decreases |d|
  {
    var s := x + "-" + d;
    if d == [] {
      assert s[|s| - 1] == '-';
    } else {
      assert s[..|s| - 1] == x + "-" + d[..|d| - 1];
      TrailingDigitsAfterDash(x, d[..|d| - 1]);
    }
  }

  /**
   * Two lines of a bill never share a form key, whatever their item ids and
   * batch numbers contain: the index after the last dash tells them apart.
   */
  lemma ReturnKeysDistinct(a: BillItem, i: nat, b: BillItem, j: nat)
    ensures ReturnKey(a, i) == ReturnKey(b, j) ==> i == j
  {
    var s, t := ReturnKey(a, i), ReturnKey(b, j);
    if s == t {
      var di, dj := NatToString(i), NatToString(j);
      assert s == (a.itemId + "-" + a.batchNumber) + "-" + di;
      assert t == (b.itemId + "-" + b.batchNumber) + "-" + dj;
      TrailingDigitsAfterDash(a.itemId + "-" + a.batchNumber, di);
      TrailingDigitsAfterDash(b.itemId + "-" + b.batchNumber, dj);
      assert di == s[|s| - |di|..] == t[|t| - |dj|..] == dj;
      DigitsValueOfNatToString(i);
      DigitsValueOfNatToString(j);
    }
  }

  /**
   * The form state: a quantity per key, absent for a NaN entry (an input
   * `parseInt` could not read).
   */
  type ReturnForm = map<string, Option<int>>

  /** `returnItems[key]?.qty || 0`: a missing, NaN or zero entry reads as 0. */
  function ReturnQty(form: ReturnForm, key: string): int
  {
    if key in form && form[key].Some? then form[key].value else 0
  }

  /** Every line starts at zero. */
  function InitialForm(items: seq<BillItem>): (f: ReturnForm)
    ensures forall k :: 0 <= k < |items| ==> ReturnQty(f, ReturnKey(items[k], k)) == 0
  {
    map k | 0 <= k < |items| :: ReturnKey(items[k], k) := Some(0)
  }

  /** `Math.max(0, Math.min(newQty, maxQty))`, where NaN stays NaN. */
  function Clamp(newQty: Option<int>, maxQty: int): (r: Option<int>)
    ensures r.None? <==> newQty.None?
    ensures r.Some? ==> 0 <= r.value && (maxQty >= 0 ==> r.value <= maxQty)
    ensures r.Some? && 0 <= newQty.value <= maxQty ==> r.value == newQty.value
  {
    match newQty
    case None => None
    case Some(n) => Some(if n < maxQty then (if n < 0 then 0 else n) else (if maxQty < 0 then 0 else maxQty))
  }

  /** `handleQtyChange`: only the edited key changes. */
  function QtyChange(form: ReturnForm, key: string, newQty: Option<int>, maxQty: int): (r: ReturnForm)
    ensures key in r && r[key] == Clamp(newQty, maxQty)
    ensures forall k :: k != key ==> ReturnQty(r, k) == ReturnQty(form, k)
  {
    form[key := Clamp(newQty, maxQty)]
  }

  /** Every line of the form holds a quantity between 0 and what was billed on that line. */
  ghost predicate WithinBilled(items: seq<BillItem>, form: ReturnForm)
  {
    forall k :: 0 <= k < |items| ==> 0 <= ReturnQty(form, ReturnKey(items[k], k)) <= items[k].quantity
  }

  /** The form starts within bounds and every edit made through the clamp keeps it there. */
  lemma QtyChangeKeepsWithinBilled(items: seq<BillItem>, form: ReturnForm, k: nat, newQty: Option<int>)
    requires k < |items| && items[k].quantity >= 0
    requires WithinBilled(items, form)
    ensures WithinBilled(items, QtyChange(form, ReturnKey(items[k], k), newQty, items[k].quantity))
  {
    var key := ReturnKey(items[k], k);
    var r := QtyChange(form, key, newQty, items[k].quantity);
    forall j | 0 <= j < |items| ensures 0 <= ReturnQty(r, ReturnKey(items[j], j)) <= items[j].quantity {
      ReturnKeysDistinct(items[j], j, items[k], k);
    }
  }

  lemma InitialFormWithinBilled(items: seq<BillItem>)
    requires forall k :: 0 <= k < |items| ==> items[k].quantity >= 0
    ensures WithinBilled(items, InitialForm(items))
  {
  }

  /** The refund for qty units of a line: its payable amount shared per unit. */
  function ReturnLine(item: BillItem, qty: int): SalesReturnItem
    requires item.quantity != 0
  {
    SalesReturnItem(item.itemId, item.itemName, item.batchNumber, qty,
                    qty as real * (LinePayable(item) / item.quantity as real))
  }

  predicate PositiveQuantities(items: seq<BillItem>)
  {
    forall k :: 0 <= k < |items| ==> items[k].quantity > 0
  }

  /** The return lines built from the first n bill lines: those with a positive quantity, in order. */
  function ReturnLines(items: seq<BillItem>, form: ReturnForm, n: nat): (r: seq<SalesReturnItem>)
    requires n <= |items| && PositiveQuantities(items)
    ensures |r| <= n
    ensures forall m :: 0 <= m < |r| ==> r[m].quantity > 0
  {
    if n == 0 then []
    else
      var q := ReturnQty(form, ReturnKey(items[n - 1], n - 1));
      ReturnLines(items, form, n - 1) + (if q > 0 then [ReturnLine(items[n - 1], q)] else [])
  }

  function ReturnedQty(r: SalesReturnItem): int { r.quantity }
  function BilledQty(i: BillItem): int { i.quantity }
  function ReturnAmount(r: SalesReturnItem): Money { r.returnAmount }

  /** Refunding q of Q units at an equal share each never exceeds the whole. */
  lemma ShareBound(payable: real, total: int, q: int)
    requires total > 0 && 0 <= q <= total && payable >= 0.0
    ensures q as real * (payable / total as real) <= payable
  {
    var unit := payable / total as real;
    assert unit >= 0.0;
    assert total as real * unit == payable;
    assert (total - q) as real * unit >= 0.0;
  }

  /** What one line contributes to a refund is at most what was paid for it. */
  lemma LineRefundBound(it: BillItem, q: int)
    requires 0 <= q <= it.quantity && LinePayable(it) >= 0.0
    ensures SumR(if q > 0 then [ReturnLine(it, q)] else [], ReturnAmount) <= SumR([it], LinePayable)
  {
    if q > 0 {
      ShareBound(LinePayable(it), it.quantity, q);
      assert SumR([ReturnLine(it, q)], ReturnAmount) == ReturnLine(it, q).returnAmount;
    }
    assert SumR([it], LinePayable) == LinePayable(it);
  }

  /** A return made through the clamped form never takes back more units than were billed. */
  lemma {:induction false} ReturnQtyWithinBill(items: seq<BillItem>, form: ReturnForm, n: nat)
    requires n <= |items| && PositiveQuantities(items) && WithinBilled(items, form)
    ensures Sum(ReturnLines(items, form, n), ReturnedQty) <= Sum(items[..n], BilledQty)
  {
    if n > 0 {
      ReturnQtyWithinBill(items, form, n - 1);
      var q := ReturnQty(form, ReturnKey(items[n - 1], n - 1));
      var tail := if q > 0 then [ReturnLine(items[n - 1], q)] else [];
      assert items[..n] == items[..n - 1] + [items[n - 1]];
      SumAppend(ReturnLines(items, form, n - 1), tail, ReturnedQty);
      SumAppend(items[..n - 1], [items[n - 1]], BilledQty);
    }
  }

  /** ... and never refunds more than was paid for the lines it covers. */
  lemma {:induction false} RefundWithinBill(items: seq<BillItem>, form: ReturnForm, n: nat)
    requires n <= |items| && PositiveQuantities(items) && WithinBilled(items, form)
    requires forall k :: 0 <= k < |items| ==> LinePayable(items[k]) >= 0.0
    ensures SumR(ReturnLines(items, form, n), ReturnAmount) <= SumR(items[..n], LinePayable)
  {
    if n > 0 {
      RefundWithinBill(items, form, n - 1);
      var it := items[n - 1];
      var q := ReturnQty(form, ReturnKey(it, n - 1));
      var tail := if q > 0 then [ReturnLine(it, q)] else [];
      assert items[..n] == items[..n - 1] + [it];
      SumRAppend(ReturnLines(items, form, n - 1), tail, ReturnAmount);
      SumRAppend(items[..n - 1], [it], LinePayable);
      LineRefundBound(it, q);
    }
  }

  /**
   * `handleProcessReturn`: walks the bill's lines collecting those with a
   * positive quantity; nothing is dispatched when every quantity is 0.
   */
  method ProcessReturn(items: seq<BillItem>, form: ReturnForm) returns (r: Option<seq<SalesReturnItem>>)
    requires PositiveQuantities(items)
    ensures r.None? <==> forall k :: 0 <= k < |items| ==> ReturnQty(form, ReturnKey(items[k], k)) <= 0
    ensures r.Some? ==> r.value == ReturnLines(items, form, |items|) && r.value != []
  {
    var lines: seq<SalesReturnItem> := [];
    for k := 0 to |items|
      invariant lines == ReturnLines(items, form, k)
    {
      var q := ReturnQty(form, ReturnKey(items[k], k));
      if q > 0 {
        lines := lines + [ReturnLine(items[k], q)];
      }
    }
    ReturnLinesEmpty(items, form, |items|);
    r := if lines == [] then None else Some(lines);
  }

  /** No return line is built exactly when no entered quantity is positive. */
  lemma {:induction false} ReturnLinesEmpty(items: seq<BillItem>, form: ReturnForm, n: nat)
    requires n <= |items| && PositiveQuantities(items)
    ensures ReturnLines(items, form, n) == [] <==> forall j :: 0 <= j < n ==> ReturnQty(form, ReturnKey(items[j], j)) <= 0
  {
    if n > 0 {
      ReturnLinesEmpty(items, form, n - 1);
    }
  }

  // ---------------------------------------------------------- bill history

  datatype BillAction = Print | Approve | Reject | FinalizeAndPay | CancelBill | ReturnBill

  /** The buttons the bill history shows on a bill for a signed-in user of the given role. */
  function Actions(role: Option<Role>, b: Bill): (r: set<BillAction>)
    ensures Print in r <==> b.status == Finalized
    ensures Approve in r <==> role == Some(Admin) && b.status == PendingApproval
    ensures Reject in r <==> role == Some(Admin) && b.status == PendingApproval
    ensures FinalizeAndPay in r <==> role == Some(Receptionist) && b.status == Approved
    ensures CancelBill in r <==> (role == Some(Admin) || role == Some(Receptionist)) &&
                                 (b.status == Finalized || b.status == Approved)
    ensures ReturnBill in r <==> (role == Some(Admin) || role == Some(Pharmacist)) &&
                                 b.status == Finalized && b.billType == Pharmacy
  {
    var isAdmin := role == Some(Admin);
    (if b.status == Finalized then {Print} else {}) +
    (if isAdmin && b.status == PendingApproval then {Approve, Reject} else {}) +
    (if role == Some(Receptionist) && b.status == Approved then {FinalizeAndPay} else {}) +
    (if (isAdmin || role == Some(Receptionist)) && (b.status == Finalized || b.status == Approved) then {CancelBill} else {}) +
    (if (isAdmin || role == Some(Pharmacist)) && b.status == Finalized && b.billType == Pharmacy then {ReturnBill} else {})
  }

  /**
   * Through the screen a bill is finalized only once (only Approved bills
   * offer it), and a return is offered only on a finalized pharmacy bill,
   * so the reducer's missing status checks are covered by the buttons;
   * no role is offered both Finalize and Return on the same bill.
   */
  lemma ActionsMatchLedger(role: Option<Role>, b: Bill)
    ensures FinalizeAndPay in Actions(role, b) ==> b.status != Finalized
    ensures ReturnBill in Actions(role, b) ==> b.status == Finalized && b.billType == Pharmacy
    ensures !(FinalizeAndPay in Actions(role, b) && ReturnBill in Actions(role, b))
    ensures role.None? ==> Actions(role, b) <= {Print}
  {
  }
}
