/**
 * The inventory and billing branches of the application reducer
 * (context/AppContext.tsx). Each command is a pure function of the state
 * (the state the reducer returns), and the branches that copy the
 * inventory and then update it in loops are also methods that run those
 * loops and are proved to return exactly that state. The acting user
 * (`state.currentUser`) and the clock are parameters.
 */
module Ledger {
  import opened Wrappers
  import opened Model
  import opened Seqs
  import opened Stock
  import Fefo
  import Receipt

  // ------------------------------------------------------------------ lookup

  /** `state.bills.find(b => b.id === id)`. */
  function FindBill(bills: seq<Bill>, id: string): (r: Option<nat>)
    ensures r.Some? ==> r.value < |bills| && bills[r.value].id == id
    ensures r.Some? ==> forall k :: 0 <= k < r.value ==> bills[k].id != id
    ensures r.None? ==> forall k :: 0 <= k < |bills| ==> bills[k].id != id
  {
    IndexOf(bills, (b: Bill) => b.id == id)
  }

  /** `state.requisitionRequests.find(r => r.id === id)`. */
  function FindRequisition(reqs: seq<Requisition>, id: string): (r: Option<nat>)
    ensures r.Some? ==> r.value < |reqs| && reqs[r.value].id == id
    ensures r.Some? ==> forall k :: 0 <= k < r.value ==> reqs[k].id != id
    ensures r.None? ==> forall k :: 0 <= k < |reqs| ==> reqs[k].id != id
  {
    IndexOf(reqs, (q: Requisition) => q.id == id)
  }

  /** `[...newLogs.reverse(), ...state.auditLogs]`. */
  function PrependReversed(log: seq<LogEntry>, entries: seq<LogEntry>): (r: seq<LogEntry>)
    ensures |r| == |log| + |entries|
    ensures r[|entries|..] == log
    ensures forall k :: 0 <= k < |entries| ==> r[k] == entries[|entries| - 1 - k]
  {
    Reverse(entries) + log
  }

  /** The stock movement a bill line causes. */
  function SaleMove(b: BillItem): Movement
  {
    Movement(b.itemId, b.itemName, b.batchNumber, b.quantity)
  }

  function SaleMoves(items: seq<BillItem>): (ms: seq<Movement>)
    ensures |ms| == |items|
    ensures forall k :: 0 <= k < |items| ==> ms[k] == SaleMove(items[k])
  {
    seq(|items|, k requires 0 <= k < |items| => SaleMove(items[k]))
  }

  function ReturnMoves(items: seq<SalesReturnItem>): (ms: seq<Movement>)
    ensures |ms| == |items|
    ensures forall k :: 0 <= k < |items| ==>
      ms[k] == Movement(items[k].itemId, items[k].itemName, items[k].batchNumber, items[k].quantity)
  {
    seq(|items|, k requires 0 <= k < |items| =>
      Movement(items[k].itemId, items[k].itemName, items[k].batchNumber, items[k].quantity))
  }

  /** The refund of a return: the sum of its lines' return amounts. */
  function RefundTotal(items: seq<SalesReturnItem>): Money
  {
    SumR(items, (i: SalesReturnItem) => i.returnAmount)
  }

  /** Each batch moves by exactly the quantity of the lines landing on it; nothing else changes. */
  ghost predicate MovedBy(inv: seq<Item>, inv': seq<Item>, ms: seq<Movement>, dir: Direction)
  {
    Skeleton(inv') == Skeleton(inv) &&
    forall l :: ValidLoc(inv, l) ==>
      ValidLoc(inv', l) && StockAt(inv', l) == StockAt(inv, l) + Signed(dir, Hits(inv, ms, l))
  }

  lemma MoveAllMovedBy(inv: seq<Item>, ms: seq<Movement>, dir: Direction)
    ensures MovedBy(inv, MoveAll(inv, ms, dir), ms, dir)
  {
    MoveAllStock(inv, ms, dir);
  }

  // ---------------------------------------------------------------- ADD_BILL

  /**
   * ADD_BILL: the bill is always prepended. A Finalized bill deducts its
   * lines from stock, logs BILL_GENERATED and is queued for printing; a
   * bill pending approval only logs a DISCOUNT_REQUEST; any other status
   * logs nothing.
   */
  function AfterAddBill(s: AppState, bill: Bill, actor: User, now: string): (r: AppState)
    ensures r == s.(bills := r.bills, inventory := r.inventory, auditLogs := r.auditLogs,
                    documentToPrint := r.documentToPrint)
    ensures r.bills == [bill] + s.bills
    ensures bill.status != Finalized ==> r.inventory == s.inventory && r.documentToPrint == s.documentToPrint
    ensures bill.status == Finalized ==>
      MovedBy(s.inventory, r.inventory, SaleMoves(bill.items), Down) &&
      r.documentToPrint == Some(BillDocument(bill))
    ensures bill.status == PendingApproval ==>
      r.auditLogs == [CreateLog(actor, now, "DISCOUNT_REQUEST",
                                DiscountRequested(bill.id, CustomerOf(bill), bill.grandTotal))] + s.auditLogs
    ensures bill.status != Finalized && bill.status != PendingApproval ==> r.auditLogs == s.auditLogs
    ensures |r.auditLogs| >= |s.auditLogs| && r.auditLogs[|r.auditLogs| - |s.auditLogs|..] == s.auditLogs
    ensures bill.status == Finalized ==>
      |r.auditLogs| > |s.auditLogs| && r.auditLogs[|r.auditLogs| - |s.auditLogs| - 1].action == "BILL_GENERATED"
  {
    var customer := CustomerOf(bill);
    if bill.status == Finalized then
      var ms := SaleMoves(bill.items);
      var logs := [CreateLog(actor, now, "BILL_GENERATED", BillGenerated(bill.id, customer, bill.grandTotal))]
        + MoveLogs(s.inventory, ms, Down, Sale, actor, now);
      MoveAllMovedBy(s.inventory, ms, Down);
      s.(bills := [bill] + s.bills,
         inventory := MoveAll(s.inventory, ms, Down),
         auditLogs := PrependReversed(s.auditLogs, logs),
         documentToPrint := Some(BillDocument(bill)))
    else if bill.status == PendingApproval then
      s.(bills := [bill] + s.bills,
         auditLogs := PrependReversed(s.auditLogs,
           [CreateLog(actor, now, "DISCOUNT_REQUEST", DiscountRequested(bill.id, customer, bill.grandTotal))]))
    else
      s.(bills := [bill] + s.bills)
  }

  method AddBill(s: AppState, bill: Bill, actor: User, now: string) returns (r: AppState)
    ensures r == AfterAddBill(s, bill, actor, now)
  {
    var newLogs: seq<LogEntry> := [];
    var inventory := s.inventory;
    var customer := CustomerOf(bill);
    if bill.status == Finalized {
      newLogs := [CreateLog(actor, now, "BILL_GENERATED", BillGenerated(bill.id, customer, bill.grandTotal))];
      var entries;
      inventory, entries := ApplyMoves(s.inventory, SaleMoves(bill.items), Down, Sale, actor, now);
      newLogs := newLogs + entries;
    } else if bill.status == PendingApproval {
      newLogs := [CreateLog(actor, now, "DISCOUNT_REQUEST", DiscountRequested(bill.id, customer, bill.grandTotal))];
    }
    r := s.(bills := [bill] + s.bills,
            inventory := inventory,
            auditLogs := PrependReversed(s.auditLogs, newLogs),
            documentToPrint := if bill.status == Finalized then Some(BillDocument(bill)) else s.documentToPrint);
  }

  // ------------------------------------------------------ UPDATE_BILL_STATUS

  /**
   * UPDATE_BILL_STATUS: an unknown bill changes nothing; otherwise every
   * bill with that id takes the new status (and nothing else changes on
   * it) and one DISCOUNT_APPROVAL entry is prepended.
   */
  function UpdateBillStatus(s: AppState, billId: string, status: BillStatus, actor: User, now: string): (r: AppState)
    ensures FindBill(s.bills, billId).None? ==> r == s
    ensures FindBill(s.bills, billId).Some? ==>
      r == s.(bills := r.bills, auditLogs := r.auditLogs) &&
      |r.bills| == |s.bills| &&
      (forall k :: 0 <= k < |s.bills| ==> r.bills[k].(status := s.bills[k].status) == s.bills[k]) &&
      (forall k :: 0 <= k < |s.bills| ==> r.bills[k].status == (if s.bills[k].id == billId then status else s.bills[k].status)) &&
      r.auditLogs == [CreateLog(actor, now, "DISCOUNT_APPROVAL",
        DiscountDecided(billId, CustomerOf(s.bills[FindBill(s.bills, billId).value]), status))] + s.auditLogs
  {
    match FindBill(s.bills, billId)
    case None => s
    case Some(k) =>
      var log := CreateLog(actor, now, "DISCOUNT_APPROVAL", DiscountDecided(billId, CustomerOf(s.bills[k]), status));
      s.(bills := seq(|s.bills|, j requires 0 <= j < |s.bills| =>
                        if s.bills[j].id == billId then s.bills[j].(status := status) else s.bills[j]),
         auditLogs := [log] + s.auditLogs)
  }

  // ----------------------------------------------------------- FINALIZE_BILL

  /** The bill FINALIZE_BILL stores: Finalized, with the payment method and the settling user. */
  function Finalize(b: Bill, payment: PaymentMethod, actor: User): (f: Bill)
    ensures f.status == Finalized && f.paymentMethod == payment && f.settledById == Some(actor.id)
    ensures f.(status := b.status, paymentMethod := b.paymentMethod, settledById := b.settledById) == b
  {
    b.(status := Finalized, paymentMethod := payment, settledById := Some(actor.id))
  }

  /**
   * FINALIZE_BILL: only requires the bill to exist, whatever its status.
   * Its lines are deducted from stock with no sufficiency check, every
   * bill with that id is replaced by the finalized copy of the first one,
   * and that copy is queued for printing.
   */
  function AfterFinalizeBill(s: AppState, billId: string, payment: PaymentMethod, actor: User, now: string): (r: AppState)
    ensures FindBill(s.bills, billId).None? ==> r == s
    ensures FindBill(s.bills, billId).Some? ==>
      var b := s.bills[FindBill(s.bills, billId).value];
      r == s.(bills := r.bills, inventory := r.inventory, auditLogs := r.auditLogs,
              documentToPrint := r.documentToPrint) &&
      |r.bills| == |s.bills| &&
      (forall k :: 0 <= k < |s.bills| ==>
        r.bills[k] == if s.bills[k].id == billId then Finalize(b, payment, actor) else s.bills[k]) &&
      MovedBy(s.inventory, r.inventory, SaleMoves(b.items), Down) &&
      r.documentToPrint == Some(BillDocument(Finalize(b, payment, actor))) &&
      |r.auditLogs| > |s.auditLogs| &&
      r.auditLogs[|r.auditLogs| - |s.auditLogs|..] == s.auditLogs &&
      r.auditLogs[|r.auditLogs| - |s.auditLogs| - 1] ==
        CreateLog(actor, now, "BILL_FINALIZED", BillFinalized(billId, CustomerOf(b), b.grandTotal, payment))
  {
    match FindBill(s.bills, billId)
    case None => s
    case Some(k) =>
      var b := s.bills[k];
      var fin := Finalize(b, payment, actor);
      var ms := SaleMoves(b.items);
      var logs := [CreateLog(actor, now, "BILL_FINALIZED", BillFinalized(billId, CustomerOf(b), b.grandTotal, payment))]
        + MoveLogs(s.inventory, ms, Down, Sale, actor, now);
      MoveAllMovedBy(s.inventory, ms, Down);
      s.(bills := seq(|s.bills|, j requires 0 <= j < |s.bills| => if s.bills[j].id == billId then fin else s.bills[j]),
         inventory := MoveAll(s.inventory, ms, Down),
         auditLogs := PrependReversed(s.auditLogs, logs),
         documentToPrint := Some(BillDocument(fin)))
  }

  method FinalizeBill(s: AppState, billId: string, payment: PaymentMethod, actor: User, now: string) returns (r: AppState)
    ensures r == AfterFinalizeBill(s, billId, payment, actor, now)
  {
    var found := FindBill(s.bills, billId);
    if found.None? {
      return s;
    }
    var b := s.bills[found.value];
    var newLogs := [CreateLog(actor, now, "BILL_FINALIZED", BillFinalized(billId, CustomerOf(b), b.grandTotal, payment))];
    var inventory, entries := ApplyMoves(s.inventory, SaleMoves(b.items), Down, Sale, actor, now);
    newLogs := newLogs + entries;
    var fin := Finalize(b, payment, actor);
    r := s.(bills := seq(|s.bills|, j requires 0 <= j < |s.bills| => if s.bills[j].id == billId then fin else s.bills[j]),
            inventory := inventory,
            auditLogs := PrependReversed(s.auditLogs, newLogs),
            documentToPrint := Some(BillDocument(fin)));
  }

  // ------------------------------------------------------------- CANCEL_BILL

  /** The statuses CANCEL_BILL acts on. */
  predicate Cancellable(status: BillStatus)
  {
    status == Finalized || status == Approved
  }

  /**
   * CANCEL_BILL: nothing changes unless the bill exists with status
   * Finalized or Approved. Then every bill with that id becomes Cancelled
   * and each line's quantity is added back to its batch, for an Approved
   * bill as well, which never deducted anything.
   */
  function AfterCancelBill(s: AppState, billId: string, actor: User, now: string): (r: AppState)
    ensures FindBill(s.bills, billId).None? ==> r == s
    ensures FindBill(s.bills, billId).Some? && !Cancellable(s.bills[FindBill(s.bills, billId).value].status) ==> r == s
    ensures FindBill(s.bills, billId).Some? && Cancellable(s.bills[FindBill(s.bills, billId).value].status) ==>
      var b := s.bills[FindBill(s.bills, billId).value];
      r == s.(bills := r.bills, inventory := r.inventory, auditLogs := r.auditLogs) &&
      |r.bills| == |s.bills| &&
      (forall k :: 0 <= k < |s.bills| ==>
        r.bills[k] == if s.bills[k].id == billId then s.bills[k].(status := Cancelled) else s.bills[k]) &&
      MovedBy(s.inventory, r.inventory, SaleMoves(b.items), Up) &&
      |r.auditLogs| > |s.auditLogs| &&
      r.auditLogs[|r.auditLogs| - |s.auditLogs|..] == s.auditLogs &&
      r.auditLogs[|r.auditLogs| - |s.auditLogs| - 1] ==
        CreateLog(actor, now, "BILL_CANCELLED", BillCancelled(billId, CustomerOf(b), b.grandTotal))
  {
    match FindBill(s.bills, billId)
    case None => s
    case Some(k) =>
      var b := s.bills[k];
      if !Cancellable(b.status) then s
      else
        var ms := SaleMoves(b.items);
        var logs := [CreateLog(actor, now, "BILL_CANCELLED", BillCancelled(billId, CustomerOf(b), b.grandTotal))]
          + MoveLogs(s.inventory, ms, Up, Cancel, actor, now);
        MoveAllMovedBy(s.inventory, ms, Up);
        s.(bills := seq(|s.bills|, j requires 0 <= j < |s.bills| =>
                          if s.bills[j].id == billId then s.bills[j].(status := Cancelled) else s.bills[j]),
           inventory := MoveAll(s.inventory, ms, Up),
           auditLogs := PrependReversed(s.auditLogs, logs))
  }

  method CancelBill(s: AppState, billId: string, actor: User, now: string) returns (r: AppState)
    ensures r == AfterCancelBill(s, billId, actor, now)
  {
    var found := FindBill(s.bills, billId);
    if found.None? || !Cancellable(s.bills[found.value].status) {
      return s;
    }
    var b := s.bills[found.value];
    var newLogs := [CreateLog(actor, now, "BILL_CANCELLED", BillCancelled(billId, CustomerOf(b), b.grandTotal))];
    var inventory, entries := ApplyMoves(s.inventory, SaleMoves(b.items), Up, Cancel, actor, now);
    newLogs := newLogs + entries;
    r := s.(bills := seq(|s.bills|, j requires 0 <= j < |s.bills| =>
                           if s.bills[j].id == billId then s.bills[j].(status := Cancelled) else s.bills[j]),
            inventory := inventory,
            auditLogs := PrependReversed(s.auditLogs, newLogs));
  }

  // ------------------------------------------------------------ SALES_RETURN

  /**
   * SALES_RETURN: an unknown bill changes nothing. Otherwise a return
   * record whose refund is the sum of the lines' amounts is prepended, each
   * returned quantity goes back to its batch (no bound against what was
   * billed), and every bill with that id becomes Returned whatever share
   * came back and whatever its status was.
   */
  function AfterSalesReturn(s: AppState, billId: string, items: seq<SalesReturnItem>, returnId: string,
                            actor: User, now: string): (r: AppState)
    ensures FindBill(s.bills, billId).None? ==> r == s
    ensures FindBill(s.bills, billId).Some? ==>
      var b := s.bills[FindBill(s.bills, billId).value];
      r == s.(bills := r.bills, inventory := r.inventory, salesReturns := r.salesReturns, auditLogs := r.auditLogs) &&
      r.salesReturns == [SalesReturn(returnId, billId, now, actor.id, items, RefundTotal(items))] + s.salesReturns &&
      |r.bills| == |s.bills| &&
      (forall k :: 0 <= k < |s.bills| ==>
        r.bills[k] == if s.bills[k].id == billId then s.bills[k].(status := Returned) else s.bills[k]) &&
      MovedBy(s.inventory, r.inventory, ReturnMoves(items), Up) &&
      |r.auditLogs| > |s.auditLogs| &&
      r.auditLogs[|r.auditLogs| - |s.auditLogs|..] == s.auditLogs &&
      r.auditLogs[|r.auditLogs| - |s.auditLogs| - 1] ==
        CreateLog(actor, now, "SALES_RETURN", ReturnProcessed(billId, CustomerOf(b), RefundTotal(items)))
  {
    match FindBill(s.bills, billId)
    case None => s
    case Some(k) =>
      var b := s.bills[k];
      var total := RefundTotal(items);
      var ms := ReturnMoves(items);
      var logs := [CreateLog(actor, now, "SALES_RETURN", ReturnProcessed(billId, CustomerOf(b), total))]
        + MoveLogs(s.inventory, ms, Up, Return, actor, now);
      MoveAllMovedBy(s.inventory, ms, Up);
      s.(bills := seq(|s.bills|, j requires 0 <= j < |s.bills| =>
                        if s.bills[j].id == billId then s.bills[j].(status := Returned) else s.bills[j]),
         salesReturns := [SalesReturn(returnId, billId, now, actor.id, items, total)] + s.salesReturns,
         inventory := MoveAll(s.inventory, ms, Up),
         auditLogs := PrependReversed(s.auditLogs, logs))
  }

  method ProcessSalesReturn(s: AppState, billId: string, items: seq<SalesReturnItem>, returnId: string,
                            actor: User, now: string) returns (r: AppState)
    ensures r == AfterSalesReturn(s, billId, items, returnId, actor, now)
  {
    var found := FindBill(s.bills, billId);
    if found.None? {
      return s;
    }
    var b := s.bills[found.value];
    var total := RefundTotal(items);
    var newReturn := SalesReturn(returnId, billId, now, actor.id, items, total);
    var newLogs := [CreateLog(actor, now, "SALES_RETURN", ReturnProcessed(billId, CustomerOf(b), total))];
    var inventory, entries := ApplyMoves(s.inventory, ReturnMoves(items), Up, Return, actor, now);
    newLogs := newLogs + entries;
    r := s.(bills := seq(|s.bills|, j requires 0 <= j < |s.bills| =>
                           if s.bills[j].id == billId then s.bills[j].(status := Returned) else s.bills[j]),
            salesReturns := [newReturn] + s.salesReturns,
            inventory := inventory,
            auditLogs := PrependReversed(s.auditLogs, newLogs));
  }

  // ----------------------------------------------------------------- ADD_GRN

  /**
   * ADD_GRN: the receipt is merged line by line, every purchase order with
   * the receipt's PO id becomes Completed, and the receipt is prepended.
   * Each product's stock rises by exactly the sum of its positive lines.
   */
  function AfterAddGrn(s: AppState, grn: Grn, actor: User, now: string): (r: AppState)
    ensures r == s.(goodsReceiptNotes := r.goodsReceiptNotes, inventory := r.inventory,
                    purchaseOrders := r.purchaseOrders, auditLogs := r.auditLogs)
    ensures r.goodsReceiptNotes == [grn] + s.goodsReceiptNotes
    ensures r.inventory == Receipt.MergeAll(s.inventory, grn.items)
    ensures |r.purchaseOrders| == |s.purchaseOrders|
    ensures forall k :: 0 <= k < |s.purchaseOrders| ==>
      r.purchaseOrders[k] == if s.purchaseOrders[k].id == grn.poId
                             then s.purchaseOrders[k].(status := POCompleted) else s.purchaseOrders[k]
    ensures |r.auditLogs| > |s.auditLogs| && r.auditLogs[|r.auditLogs| - |s.auditLogs|..] == s.auditLogs
    ensures r.auditLogs[|r.auditLogs| - |s.auditLogs| - 1] ==
      CreateLog(actor, now, "GRN_CREATED", GrnProcessed(grn.id, grn.poId, grn.vendorName))
  {
    var logs := [CreateLog(actor, now, "GRN_CREATED", GrnProcessed(grn.id, grn.poId, grn.vendorName))]
      + Receipt.MergeLogs(s.inventory, grn.items, actor, now);
    s.(goodsReceiptNotes := [grn] + s.goodsReceiptNotes,
       inventory := Receipt.MergeAll(s.inventory, grn.items),
       purchaseOrders := seq(|s.purchaseOrders|, j requires 0 <= j < |s.purchaseOrders| =>
         if s.purchaseOrders[j].id == grn.poId then s.purchaseOrders[j].(status := POCompleted) else s.purchaseOrders[j]),
       auditLogs := PrependReversed(s.auditLogs, logs))
  }

  method AddGrn(s: AppState, grn: Grn, actor: User, now: string) returns (r: AppState)
    ensures r == AfterAddGrn(s, grn, actor, now)
  {
    var newLogs := [CreateLog(actor, now, "GRN_CREATED", GrnProcessed(grn.id, grn.poId, grn.vendorName))];
    var inventory, entries := Receipt.ReceiveAll(s.inventory, grn.items, actor, now);
    newLogs := newLogs + entries;
    var updatedPOs := seq(|s.purchaseOrders|, j requires 0 <= j < |s.purchaseOrders| =>
      if s.purchaseOrders[j].id == grn.poId then s.purchaseOrders[j].(status := POCompleted) else s.purchaseOrders[j]);
    r := s.(goodsReceiptNotes := [grn] + s.goodsReceiptNotes,
            inventory := inventory,
            purchaseOrders := updatedPOs,
            auditLogs := PrependReversed(s.auditLogs, newLogs));
  }

  // ------------------------------------------- UPDATE / DELETE_INVENTORY_ITEM

  /**
   * UPDATE_INVENTORY_ITEM: every item with the given id is replaced by the
   * new record (none, if the id is unknown) and one entry is logged either way.
   */
  function UpdateInventoryItem(s: AppState, item: Item, actor: User, now: string): (r: AppState)
    ensures r == s.(inventory := r.inventory, auditLogs := r.auditLogs)
    ensures |r.inventory| == |s.inventory|
    ensures forall k :: 0 <= k < |s.inventory| ==>
      r.inventory[k] == if s.inventory[k].id == item.id then item else s.inventory[k]
    ensures r.auditLogs == [CreateLog(actor, now, "INVENTORY_MASTER_UPDATE", MasterUpdated(item.name, item.id))] + s.auditLogs
  {
    s.(inventory := seq(|s.inventory|, j requires 0 <= j < |s.inventory| =>
                          if s.inventory[j].id == item.id then item else s.inventory[j]),
       auditLogs := [CreateLog(actor, now, "INVENTORY_MASTER_UPDATE", MasterUpdated(item.name, item.id))] + s.auditLogs)
  }

  /**
   * DELETE_INVENTORY_ITEM: an unknown id changes nothing; otherwise every
   * item with that id is removed, the others keep their order, and one
   * entry naming the first match is logged.
   */
  function DeleteInventoryItem(s: AppState, itemId: string, actor: User, now: string): (r: AppState)
    ensures FindItem(s.inventory, itemId).None? ==> r == s
    ensures FindItem(s.inventory, itemId).Some? ==>
      var gone := s.inventory[FindItem(s.inventory, itemId).value];
      r == s.(inventory := r.inventory, auditLogs := r.auditLogs) &&
      r.inventory == Filter(s.inventory, (it: Item) => it.id != itemId) &&
      (forall it :: it in r.inventory <==> it in s.inventory && it.id != itemId) &&
      |r.inventory| < |s.inventory| &&
      r.auditLogs == [CreateLog(actor, now, "INVENTORY_MASTER_DELETE", MasterDeleted(gone.name, gone.id))] + s.auditLogs
  {
    match FindItem(s.inventory, itemId)
    case None => s
    case Some(k) =>
      var gone := s.inventory[k];
      var kept := Filter(s.inventory, (it: Item) => it.id != itemId);
      assert gone !in kept;
      assert |kept| < |s.inventory| by {
        FilterShorter(s.inventory, (it: Item) => it.id != itemId, k);
      }
      s.(inventory := kept,
         auditLogs := [CreateLog(actor, now, "INVENTORY_MASTER_DELETE", MasterDeleted(gone.name, gone.id))] + s.auditLogs)
  }

  // --------------------------------------------- UPDATE_REQUISITION_STATUS

  /**
   * UPDATE_REQUISITION_STATUS: an unknown requisition changes nothing.
   * Otherwise every requisition with that id takes the new status; a
   * Fulfilled one deducts its lines earliest-expiry-first. Unlike the other
   * branches the new entries are prepended in the order they were made, so
   * the REQUISITION_UPDATE entry ends up on top.
   */
  function AfterUpdateRequisitionStatus(s: AppState, id: string, status: RequisitionStatus,
                                        actor: User, now: string): (r: AppState)
    ensures FindRequisition(s.requisitions, id).None? ==> r == s
    ensures FindRequisition(s.requisitions, id).Some? ==>
      var req := s.requisitions[FindRequisition(s.requisitions, id).value];
      r == s.(inventory := r.inventory, requisitions := r.requisitions, auditLogs := r.auditLogs) &&
      |r.requisitions| == |s.requisitions| &&
      (forall k :: 0 <= k < |s.requisitions| ==>
        r.requisitions[k] == if s.requisitions[k].id == id then s.requisitions[k].(status := status) else s.requisitions[k]) &&
      r.inventory == (if status == ReqFulfilled then Fefo.FulfilAll(s.inventory, req.items) else s.inventory) &&
      |r.auditLogs| > |s.auditLogs| &&
      r.auditLogs[|r.auditLogs| - |s.auditLogs|..] == s.auditLogs &&
      r.auditLogs[0] == CreateLog(actor, now, "REQUISITION_UPDATE", RequisitionUpdated(id, req.department, status)) &&
      (status != ReqFulfilled ==> |r.auditLogs| == |s.auditLogs| + 1)
  {
    match FindRequisition(s.requisitions, id)
    case None => s
    case Some(k) =>
      var req := s.requisitions[k];
      var head := CreateLog(actor, now, "REQUISITION_UPDATE", RequisitionUpdated(id, req.department, status));
      var logs := [head] + (if status == ReqFulfilled then Fefo.FulfilLogs(s.inventory, req.items, actor, now) else []);
      s.(inventory := if status == ReqFulfilled then Fefo.FulfilAll(s.inventory, req.items) else s.inventory,
         requisitions := seq(|s.requisitions|, j requires 0 <= j < |s.requisitions| =>
           if s.requisitions[j].id == id then s.requisitions[j].(status := status) else s.requisitions[j]),
         auditLogs := logs + s.auditLogs)
  }

  method UpdateRequisitionStatus(s: AppState, id: string, status: RequisitionStatus,
                                 actor: User, now: string) returns (r: AppState)
    ensures r == AfterUpdateRequisitionStatus(s, id, status, actor, now)
  {
    var found := FindRequisition(s.requisitions, id);
    if found.None? {
      return s;
    }
    var request := s.requisitions[found.value];
    var newInventory := s.inventory;
    var head := CreateLog(actor, now, "REQUISITION_UPDATE", RequisitionUpdated(id, request.department, status));
    var newLogs := [head];
    if status == ReqFulfilled {
      var entries;
      newInventory, entries := Fefo.FulfilRequest(s.inventory, request.items, actor, now);
      newLogs := newLogs + entries;
    }
    r := s.(inventory := newInventory,
            requisitions := seq(|s.requisitions|, j requires 0 <= j < |s.requisitions| =>
              if s.requisitions[j].id == id then s.requisitions[j].(status := status) else s.requisitions[j]),
            auditLogs := newLogs + s.auditLogs);
  }

  // ------------------------------------------------------------ properties

  /** Replacing bills without changing ids keeps the position `find` reports. */
  lemma FindBillSameIds(a: seq<Bill>, b: seq<Bill>, id: string)
    requires |a| == |b| && forall k :: 0 <= k < |a| ==> a[k].id == b[k].id
    ensures FindBill(a, id) == FindBill(b, id)
  {
    var fa, fb := FindBill(a, id), FindBill(b, id);
    if fa.Some? {
      assert b[fa.value].id == id;
      assert fb.Some? && fb.value == fa.value;
    } else {
      assert forall k :: 0 <= k < |b| ==> b[k].id != id;
    }
  }

  /** Finalizing a bill and then cancelling it puts every batch back as it was, and the bill ends Cancelled. */
  lemma FinalizeThenCancelRestoresStock(s: AppState, billId: string, payment: PaymentMethod,
                                        actor: User, now: string, later: string)
    requires FindBill(s.bills, billId).Some?
    ensures var r := AfterCancelBill(AfterFinalizeBill(s, billId, payment, actor, now), billId, actor, later);
      r.inventory == s.inventory &&
      r.bills[FindBill(s.bills, billId).value].status == Cancelled
  {
    var k := FindBill(s.bills, billId).value;
    var f := AfterFinalizeBill(s, billId, payment, actor, now);
    FindBillSameIds(s.bills, f.bills, billId);
    assert f.bills[k].status == Finalized;
    MoveAllRoundTrip(s.inventory, SaleMoves(s.bills[k].items), Down);
  }

  /** A bill added as Finalized and then cancelled leaves the inventory as it was. */
  lemma SaleThenCancelRestoresStock(s: AppState, bill: Bill, actor: User, now: string, later: string)
    requires bill.status == Finalized
    ensures AfterCancelBill(AfterAddBill(s, bill, actor, now), bill.id, actor, later).inventory == s.inventory
  {
    var a := AfterAddBill(s, bill, actor, now);
    assert FindBill(a.bills, bill.id) == Some(0);
    MoveAllRoundTrip(s.inventory, SaleMoves(bill.items), Down);
  }

  /** Returning exactly the lines that finalizing deducted restores the inventory. */
  lemma FinalizeThenFullReturnRestoresStock(s: AppState, billId: string, payment: PaymentMethod,
                                            items: seq<SalesReturnItem>, returnId: string,
                                            actor: User, now: string, later: string)
    requires FindBill(s.bills, billId).Some?
    requires ReturnMoves(items) == SaleMoves(s.bills[FindBill(s.bills, billId).value].items)
    ensures var r := AfterSalesReturn(AfterFinalizeBill(s, billId, payment, actor, now), billId, items, returnId, actor, later);
      r.inventory == s.inventory &&
      r.salesReturns[0].totalRefundAmount == RefundTotal(items)
  {
    var k := FindBill(s.bills, billId).value;
    var f := AfterFinalizeBill(s, billId, payment, actor, now);
    FindBillSameIds(s.bills, f.bills, billId);
    MoveAllRoundTrip(s.inventory, SaleMoves(s.bills[k].items), Down);
  }

  /**
   * Fulfilling a requisition never drives a batch below zero, in contrast
   * to finalizing a bill (FinalizeOversells).
   */
  lemma RequisitionKeepsStockNonNegative(s: AppState, id: string, status: RequisitionStatus, actor: User, now: string)
    requires Fefo.NoNegativeStock(s.inventory)
    ensures Fefo.NoNegativeStock(AfterUpdateRequisitionStatus(s, id, status, actor, now).inventory)
  {
    var found := FindRequisition(s.requisitions, id);
    if found.Some? {
      Fefo.FulfilAllKeepsNonNegative(s.inventory, s.requisitions[found.value].items);
    }
  }

  // ------------------------------------------------------------ sample data

  /** One medicine with one batch "B1" of the given stock. */
  function SampleItem(stock: int): Item
  {
    Item("MED001", "Paracetamol 500mg", Medicine, 10, 2.0, 12.0,
         [Batch("B1", stock, "2026-12-31", 1.5, Some(2.0))])
  }

  /** A walk-in pharmacy bill for qty units of that batch, in the given status. */
  function SampleBill(qty: int, status: BillStatus): Bill
  {
    Bill("BILL001", None, None, Some("Walk-in"), None, WalkIn, "2024-05-01",
         [BillItem("MED001", "Paracetamol 500mg", qty, 2.0, 12.0, 2.0 * qty as real, 0.0, "B1", "2026-12-31",
                   0.0, 0.0, Medicine)],
         2.0 * qty as real, 0.0, 0.0, 2.0 * qty as real, Cash, Pharmacy, status, "U2", None)
  }

  function SampleState(stock: int, bills: seq<Bill>): AppState
  {
    AppState([], [], [], [], [SampleItem(stock)], bills, [], [], [], [], [], [], [], [], None)
  }

  function SampleActor(): User
  {
    User("U1", "admin", "Admin", Admin)
  }

  /** The one sample line lands on batch (0, 0). */
  lemma SampleHits(stock: int, qty: int, status: BillStatus)
    ensures Locate(SampleState(stock, []).inventory, "MED001", "B1") == Some(Loc(0, 0))
    ensures Hits([SampleItem(stock)], SaleMoves(SampleBill(qty, status).items), Loc(0, 0)) == qty
  {
    var inv := [SampleItem(stock)];
    assert FindItem(inv, "MED001") == Some(0);
    assert FindBatch(inv[0].batches, "B1") == Some(0);
    var ms := SaleMoves(SampleBill(qty, status).items);
    assert ms == [Movement("MED001", "Paracetamol 500mg", "B1", qty)];
    assert ms[1..] == [];
  }

  /**
   * FINALIZE_BILL checks no stock: finalizing a bill for 8 units against a
   * batch holding 5 leaves the batch at -3.
   */
  lemma FinalizeOversells()
    ensures var r := AfterFinalizeBill(SampleState(5, [SampleBill(8, Approved)]), "BILL001", Cash, SampleActor(), "t1");
      r.inventory[0].batches[0].stock == -3
  {
    SampleHits(5, 8, Approved);
    var s := SampleState(5, [SampleBill(8, Approved)]);
    assert FindBill(s.bills, "BILL001") == Some(0);
  }

  // ------------------------------------------- cancelling an Approved bill

  /**
   * As written, a bill requested with a discount, approved and then
   * cancelled has never been deducted, yet each of its lines is added to
   * its batch on cancellation.
   */
  lemma ApproveThenCancelAddsStock(s: AppState, bill: Bill, actor: User, t1: string, t2: string, t3: string)
    requires bill.status == PendingApproval
    ensures var a := AfterAddBill(s, bill, actor, t1);
      var b := UpdateBillStatus(a, bill.id, Approved, actor, t2);
      b.inventory == s.inventory &&
      MovedBy(s.inventory, AfterCancelBill(b, bill.id, actor, t3).inventory, SaleMoves(bill.items), Up)
  {
    AddThenApprove(s, bill, actor, t1, t2);
    var b := UpdateBillStatus(AfterAddBill(s, bill, actor, t1), bill.id, Approved, actor, t2);
    assert b.bills[0] == bill.(status := Approved);
  }

  /**
   * The same with numbers: a sample bill for qty units against a batch of
   * `stock`, approved and cancelled, leaves the batch at stock + qty
   * (20 units against 150 leave 170).
   */
  lemma CancelApprovedInflatesStock(stock: int, qty: int)
    ensures var s := SampleState(stock, []);
      var a := AfterAddBill(s, SampleBill(qty, PendingApproval), SampleActor(), "t1");
      var b := UpdateBillStatus(a, "BILL001", Approved, SampleActor(), "t2");
      |AfterCancelBill(b, "BILL001", SampleActor(), "t3").inventory| == 1 &&
      |AfterCancelBill(b, "BILL001", SampleActor(), "t3").inventory[0].batches| == 1 &&
      AfterCancelBill(b, "BILL001", SampleActor(), "t3").inventory[0].batches[0].stock == stock + qty
  {
    var s := SampleState(stock, []);
    var bill := SampleBill(qty, PendingApproval);
    var b := UpdateBillStatus(AfterAddBill(s, bill, SampleActor(), "t1"), "BILL001", Approved, SampleActor(), "t2");
    var c := AfterCancelBill(b, "BILL001", SampleActor(), "t3");
    SampleHits(stock, qty, PendingApproval);
    ApproveThenCancelAddsStock(s, bill, SampleActor(), "t1", "t2", "t3");
    var l := Loc(0, 0);
    assert ValidLoc(s.inventory, l) && StockAt(s.inventory, l) == stock;
    assert ValidLoc(c.inventory, l);
    assert StockAt(c.inventory, l) == stock + Hits(s.inventory, SaleMoves(bill.items), l);
    SkeletonShape(s.inventory, c.inventory);
  }

  /**
   * CANCEL_BILL as evidently intended: both Finalized and Approved bills
   * can be cancelled, but only a Finalized one, whose lines were deducted,
   * gives its stock back.
   */
  function CancelBillIntended(s: AppState, billId: string, actor: User, now: string): (r: AppState)
    ensures FindBill(s.bills, billId).Some? &&
            s.bills[FindBill(s.bills, billId).value].status == Finalized ==>
      r == AfterCancelBill(s, billId, actor, now)
    ensures FindBill(s.bills, billId).Some? &&
            s.bills[FindBill(s.bills, billId).value].status == Approved ==>
      r.inventory == s.inventory &&
      r == AfterCancelBill(s, billId, actor, now).(inventory := s.inventory, auditLogs := r.auditLogs) &&
      r.auditLogs == [CreateLog(actor, now, "BILL_CANCELLED",
        BillCancelled(billId, CustomerOf(s.bills[FindBill(s.bills, billId).value]),
                      s.bills[FindBill(s.bills, billId).value].grandTotal))] + s.auditLogs
    ensures (FindBill(s.bills, billId).None? ||
             !Cancellable(s.bills[FindBill(s.bills, billId).value].status)) ==> r == s
  {
    match FindBill(s.bills, billId)
    case None => s
    case Some(k) =>
      var b := s.bills[k];
      if b.status != Approved then AfterCancelBill(s, billId, actor, now)
      else
        s.(bills := seq(|s.bills|, j requires 0 <= j < |s.bills| =>
                          if s.bills[j].id == billId then s.bills[j].(status := Cancelled) else s.bills[j]),
           auditLogs := [CreateLog(actor, now, "BILL_CANCELLED", BillCancelled(billId, CustomerOf(b), b.grandTotal))]
             + s.auditLogs)
  }

  /** Adding a bill that awaits approval and approving it leaves the stock alone and puts the bill first. */
  lemma AddThenApprove(s: AppState, bill: Bill, actor: User, t1: string, t2: string)
    requires bill.status == PendingApproval
    ensures var b := UpdateBillStatus(AfterAddBill(s, bill, actor, t1), bill.id, Approved, actor, t2);
      b.inventory == s.inventory && FindBill(b.bills, bill.id) == Some(0) && b.bills[0].status == Approved &&
      b.bills[0].items == bill.items
  {
    var a := AfterAddBill(s, bill, actor, t1);
    assert FindBill(a.bills, bill.id) == Some(0);
    var b := UpdateBillStatus(a, bill.id, Approved, actor, t2);
    assert FindBill(b.bills, bill.id) == Some(0);
  }

  /** Finalizing an approved bill and then cancelling it (as intended) gives the stock back. */
  lemma FinalizeThenCancelRestores(b: AppState, id: string, payment: PaymentMethod, actor: User,
                                   t3: string, t4: string)
    requires FindBill(b.bills, id) == Some(0) && b.bills[0].status == Approved
    ensures CancelBillIntended(AfterFinalizeBill(b, id, payment, actor, t3), id, actor, t4).inventory == b.inventory
  {
    var f := AfterFinalizeBill(b, id, payment, actor, t3);
    FindBillSameIds(b.bills, f.bills, id);
    assert f.bills[0].status == Finalized;
    MoveAllRoundTrip(b.inventory, SaleMoves(b.bills[0].items), Down);
  }

  /**
   * With the intended cancellation, a bill's whole life leaves the stock as
   * it was whichever route it takes: requested with a discount, approved
   * and cancelled; or requested, approved, finalized and cancelled.
   */
  lemma DiscountedBillLifecycleKeepsStock(s: AppState, bill: Bill, payment: PaymentMethod, actor: User,
                                          t1: string, t2: string, t3: string, t4: string)
    requires bill.status == PendingApproval
    ensures var a := AfterAddBill(s, bill, actor, t1);
      var b := UpdateBillStatus(a, bill.id, Approved, actor, t2);
      CancelBillIntended(b, bill.id, actor, t3).inventory == s.inventory &&
      CancelBillIntended(AfterFinalizeBill(b, bill.id, payment, actor, t3), bill.id, actor, t4).inventory == s.inventory
  {
    AddThenApprove(s, bill, actor, t1, t2);
    var b := UpdateBillStatus(AfterAddBill(s, bill, actor, t1), bill.id, Approved, actor, t2);
    FinalizeThenCancelRestores(b, bill.id, payment, actor, t3, t4);
  }

}
