/**
 * Merging a goods receipt note into the inventory (context/AppContext.tsx,
 * ADD_GRN): each received line either tops up an existing batch, appends a
 * new batch to an existing item, or registers a new product.
 */
module Receipt {
  import opened Wrappers
  import opened Model
  import opened Stock

  /** The batch a received line creates. */
  function NewBatch(g: GrnItem): (b: Batch)
    ensures b.batchNumber == g.batchNumber && b.stock == g.receivedQuantity
    ensures b.mrp == Some(g.mrp)
  {
    Batch(g.batchNumber, g.receivedQuantity, g.expiryDate, g.costPrice, Some(g.mrp))
  }

  /** The product a line with an unknown product code registers: reorder level 10, priced at MRP. */
  function NewItem(g: GrnItem): (it: Item)
    ensures it.id == g.productCode && it.reorderLevel == 10 && it.price == g.mrp
    ensures it.batches == [NewBatch(g)]
  {
    Item(g.productCode, g.itemName, g.category, 10, g.mrp, g.gstRate, [NewBatch(g)])
  }

  /** `if (mrp > price) price = mrp`. */
  function RaisePrice(it: Item, mrp: Money): (r: Item)
    ensures r.price == (if mrp > it.price then mrp else it.price)
    ensures r.price >= it.price && r.price >= mrp
    ensures r.(price := it.price) == it
  {
    if mrp > it.price then it.(price := mrp) else it
  }

  /** One received line merged into an existing item. */
  function MergeIntoItem(it: Item, g: GrnItem): Item
  {
    var topped := match FindBatch(it.batches, g.batchNumber)
      case Some(j) => it.(batches := it.batches[j := it.batches[j].(stock := it.batches[j].stock + g.receivedQuantity)])
      case None => it.(batches := it.batches + [NewBatch(g)]);
    RaisePrice(topped, g.mrp)
  }

  /** One line of the `grn.items.forEach`. */
  function MergeLine(inv: seq<Item>, g: GrnItem): seq<Item>
  {
    if g.receivedQuantity <= 0 then inv
    else match FindItem(inv, g.productCode)
      case Some(i) => inv[i := MergeIntoItem(inv[i], g)]
      case None => inv + [NewItem(g)]
  }

  /** The entry one line records. */
  function LineLog(inv: seq<Item>, g: GrnItem, actor: User, now: string): seq<LogEntry>
  {
    if g.receivedQuantity <= 0 then []
    else match FindItem(inv, g.productCode)
      case Some(i) =>
        (match FindBatch(inv[i].batches, g.batchNumber)
         case Some(j) =>
           var before := inv[i].batches[j].stock;
           [CreateLog(actor, now, "INVENTORY_UPDATE",
              StockMoved(Receipt, g.itemName, g.batchNumber, g.receivedQuantity, before, before + g.receivedQuantity))]
         case None =>
           [CreateLog(actor, now, "INVENTORY_UPDATE", BatchAdded(g.itemName, g.batchNumber, g.receivedQuantity))])
      case None =>
        [CreateLog(actor, now, "INVENTORY_ADD",
           ProductRegistered(g.itemName, g.productCode, g.batchNumber, g.receivedQuantity))]
  }

  function MergeAll(inv: seq<Item>, lines: seq<GrnItem>): seq<Item>
    decreases lines
  {
    if lines == [] then inv else MergeAll(MergeLine(inv, lines[0]), lines[1..])
  }

  function MergeLogs(inv: seq<Item>, lines: seq<GrnItem>, actor: User, now: string): (logs: seq<LogEntry>)
    decreases lines
    ensures |logs| <= |lines|
  {
    if lines == [] then []
    else LineLog(inv, lines[0], actor, now) + MergeLogs(MergeLine(inv, lines[0]), lines[1..], actor, now)
  }

  // ------------------------------------------------------------ the three cases

  /**
   * A positive line for an existing item and batch tops up exactly that
   * batch by the received quantity: no batch or item is created, and apart
   * from that batch only the item's price (raised to the MRP) can change.
   */
  lemma MergeExistingBatch(inv: seq<Item>, g: GrnItem)
    requires g.receivedQuantity > 0
    requires Locate(inv, g.productCode, g.batchNumber).Some?
    ensures var l := Locate(inv, g.productCode, g.batchNumber).value;
      var r := MergeLine(inv, g);
      |r| == |inv| && |r[l.item].batches| == |inv[l.item].batches| &&
      r == AddStock(inv, l, g.receivedQuantity)[l.item := RaisePrice(AddStock(inv, l, g.receivedQuantity)[l.item], g.mrp)] &&
      StockAt(r, l) == StockAt(inv, l) + g.receivedQuantity
  {
  }

  /** A positive line for an existing item with a new batch number appends that batch. */
  lemma MergeNewBatch(inv: seq<Item>, g: GrnItem)
    requires g.receivedQuantity > 0
    requires FindItem(inv, g.productCode).Some?
    requires Locate(inv, g.productCode, g.batchNumber).None?
    ensures var i := FindItem(inv, g.productCode).value;
      MergeLine(inv, g) == inv[i := RaisePrice(inv[i].(batches := inv[i].batches + [NewBatch(g)]), g.mrp)]
  {
  }

  /** A positive line for an unknown product registers a new item at the end. */
  lemma MergeNewProduct(inv: seq<Item>, g: GrnItem)
    requires g.receivedQuantity > 0
    requires FindItem(inv, g.productCode).None?
    ensures MergeLine(inv, g) == inv + [NewItem(g)]
  {
  }

  // --------------------------------------------------------- stock per product

  /** Stock held under a product code, over every item carrying it. */
  function ProductStock(inv: seq<Item>, code: string): int
  {
    if inv == [] then 0
    else (if inv[0].id == code then TotalStock(inv[0].batches) else 0) + ProductStock(inv[1..], code)
  }

  function Own(it: Item, code: string): int
  {
    if it.id == code then TotalStock(it.batches) else 0
  }

  lemma {:induction false} ProductStockUpdate(inv: seq<Item>, i: nat, it: Item, code: string)
    requires i < |inv|
    ensures ProductStock(inv[i := it], code) == ProductStock(inv, code) - Own(inv[i], code) + Own(it, code)
  {
    if i > 0 {
      assert inv[i := it][1..] == inv[1..][i - 1 := it];
      ProductStockUpdate(inv[1..], i - 1, it, code);
    }
  }

  lemma {:induction false} ProductStockAppend(inv: seq<Item>, it: Item, code: string)
    ensures ProductStock(inv + [it], code) == ProductStock(inv, code) + Own(it, code)
  {
    if inv != [] {
      assert (inv + [it])[1..] == inv[1..] + [it];
      ProductStockAppend(inv[1..], it, code);
    }
  }

  /** What a line adds to a product code: its quantity when positive and its own. */
  function Received(g: GrnItem, code: string): int
  {
    if g.receivedQuantity > 0 && g.productCode == code then g.receivedQuantity else 0
  }

  /** Merging one line raises the stock of its product by the received quantity and no other. */
  lemma MergeLineStock(inv: seq<Item>, g: GrnItem, code: string)
    ensures ProductStock(MergeLine(inv, g), code) == ProductStock(inv, code) + Received(g, code)
  {
    if g.receivedQuantity > 0 {
      var found := FindItem(inv, g.productCode);
      if found.Some? {
        var i := found.value;
        var it := inv[i];
        var batch := FindBatch(it.batches, g.batchNumber);
        if batch.Some? {
          var j := batch.value;
          TotalStockUpdate(it.batches, j, it.batches[j].(stock := it.batches[j].stock + g.receivedQuantity));
        } else {
          TotalStockAppend(it.batches, NewBatch(g));
        }
        ProductStockUpdate(inv, i, MergeIntoItem(it, g), code);
      } else {
        ProductStockAppend(inv, NewItem(g), code);
        TotalStockAppend([], NewBatch(g));
        assert [] + [NewBatch(g)] == NewItem(g).batches;
        assert MergeLine(inv, g) == inv + [NewItem(g)];
      }
    }
  }

  /** Total a receipt adds to a product code. */
  function ReceivedAll(lines: seq<GrnItem>, code: string): int
  {
    if lines == [] then 0 else Received(lines[0], code) + ReceivedAll(lines[1..], code)
  }

  /** A whole receipt raises each product's stock by the sum of its positive lines. */
  lemma {:induction false} MergeAllStock(inv: seq<Item>, lines: seq<GrnItem>, code: string)
    ensures ProductStock(MergeAll(inv, lines), code) == ProductStock(inv, code) + ReceivedAll(lines, code)
    decreases lines
  {
    if lines != [] {
      MergeLineStock(inv, lines[0], code);
      MergeAllStock(MergeLine(inv, lines[0]), lines[1..], code);
    }
  }

  /**
   * Nothing stops the same receipt from being merged twice; doing so counts
   * its quantities twice.
   */
  lemma MergeTwiceDoubleCounts(inv: seq<Item>, lines: seq<GrnItem>, code: string)
    ensures ProductStock(MergeAll(MergeAll(inv, lines), lines), code)
      == ProductStock(inv, code) + 2 * ReceivedAll(lines, code)
  {
    MergeAllStock(inv, lines, code);
    MergeAllStock(MergeAll(inv, lines), lines, code);
  }

  // ------------------------------------------------------------------ loop

  /** The body of the `forEach` for one received line. */
  method ReceiveLine(inv: seq<Item>, g: GrnItem, actor: User, now: string)
    returns (inv': seq<Item>, entries: seq<LogEntry>)
    ensures inv' == MergeLine(inv, g)
    ensures entries == LineLog(inv, g, actor, now)
  {
    inv', entries := inv, [];
    if g.receivedQuantity <= 0 {
      return;
    }
    var found := FindItem(inv, g.productCode);
    if found.Some? {
      var i := found.value;
      var item := inv[i];
      var batch := FindBatch(item.batches, g.batchNumber);
      if batch.Some? {
        var j := batch.value;
        var oldStock := item.batches[j].stock;
        item := item.(batches := item.batches[j := item.batches[j].(stock := oldStock + g.receivedQuantity)]);
        entries := [CreateLog(actor, now, "INVENTORY_UPDATE",
          StockMoved(Receipt, g.itemName, g.batchNumber, g.receivedQuantity, oldStock, item.batches[j].stock))];
      } else {
        item := item.(batches := item.batches + [NewBatch(g)]);
        entries := [CreateLog(actor, now, "INVENTORY_UPDATE", BatchAdded(g.itemName, g.batchNumber, g.receivedQuantity))];
      }
      if g.mrp > item.price {
        item := item.(price := g.mrp);
      }
      inv' := inv[i := item];
    } else {
      inv' := inv + [NewItem(g)];
      entries := [CreateLog(actor, now, "INVENTORY_ADD",
        ProductRegistered(g.itemName, g.productCode, g.batchNumber, g.receivedQuantity))];
    }
  }

  /** The `grn.items.forEach` over a copy of the inventory. */
  method ReceiveAll(inv0: seq<Item>, lines: seq<GrnItem>, actor: User, now: string)
    returns (inv: seq<Item>, logs: seq<LogEntry>)
    ensures inv == MergeAll(inv0, lines)
    ensures logs == MergeLogs(inv0, lines, actor, now)
  {
    inv, logs := inv0, [];
    var k := 0;
    while k < |lines|
      invariant 0 <= k <= |lines|
      invariant MergeAll(inv, lines[k..]) == MergeAll(inv0, lines)
      invariant logs + MergeLogs(inv, lines[k..], actor, now) == MergeLogs(inv0, lines, actor, now)
    {
      assert lines[k..][0] == lines[k] && lines[k..][1..] == lines[k + 1..];
      ghost var logs0 := logs;
      var entries;
      inv, entries := ReceiveLine(inv, lines[k], actor, now);
      logs := logs + entries;
      ConcatAssoc(logs0, entries, MergeLogs(inv, lines[k + 1..], actor, now));
      k := k + 1;
    }
    assert lines[|lines|..] == [];
  }
}
