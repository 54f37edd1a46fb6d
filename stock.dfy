/**
 * Batch-level stock movements shared by the billing branches of the reducer
 * (context/AppContext.tsx): finding the batch a line refers to and moving
 * its stock up or down while recording an INVENTORY_UPDATE entry.
 */
module Stock {
  import opened Wrappers
  import opened Model

  /** `inventory.find(item => item.id === id)`, as the index of the first match. */
  function FindItem(inv: seq<Item>, id: string): (r: Option<nat>)
    ensures r.Some? ==> r.value < |inv| && inv[r.value].id == id
    ensures r.Some? ==> forall j :: 0 <= j < r.value ==> inv[j].id != id
    ensures r.None? ==> forall j :: 0 <= j < |inv| ==> inv[j].id != id
  {
    if inv == [] then None
    else if inv[0].id == id then Some(0)
    else match FindItem(inv[1..], id)
      case None => None
      case Some(k) => Some(k + 1)
  }

  /** `batches.find(b => b.batchNumber === number)`, as the index of the first match. */
  function FindBatch(bs: seq<Batch>, number: string): (r: Option<nat>)
    ensures r.Some? ==> r.value < |bs| && bs[r.value].batchNumber == number
    ensures r.Some? ==> forall j :: 0 <= j < r.value ==> bs[j].batchNumber != number
    ensures r.None? ==> forall j :: 0 <= j < |bs| ==> bs[j].batchNumber != number
  {
    if bs == [] then None
    else if bs[0].batchNumber == number then Some(0)
    else match FindBatch(bs[1..], number)
      case None => None
      case Some(k) => Some(k + 1)
  }

  /** A position in the inventory: an item index and a batch index within it. */
  datatype Loc = Loc(item: nat, batch: nat)

  predicate ValidLoc(inv: seq<Item>, l: Loc)
  {
    l.item < |inv| && l.batch < |inv[l.item].batches|
  }

  /**
   * The batch a line (itemId, batchNumber) refers to: the first batch with
   * that number inside the FIRST item with that id. A later item with the
   * same id is never consulted.
   */
  function Locate(inv: seq<Item>, itemId: string, number: string): (r: Option<Loc>)
    ensures r.Some? ==> ValidLoc(inv, r.value)
    ensures r.Some? <==> (FindItem(inv, itemId).Some? &&
                          FindBatch(inv[FindItem(inv, itemId).value].batches, number).Some?)
    ensures r.Some? ==> (r.value.item == FindItem(inv, itemId).value &&
                         r.value.batch == FindBatch(inv[r.value.item].batches, number).value)
  {
    match FindItem(inv, itemId)
    case None => None
    case Some(i) =>
      match FindBatch(inv[i].batches, number)
      case None => None
      case Some(j) => Some(Loc(i, j))
  }

  function StockAt(inv: seq<Item>, l: Loc): int
    requires ValidLoc(inv, l)
  {
    inv[l.item].batches[l.batch].stock
  }

  /** Sum of the stock of every batch (the `totalStock` roll-up). */
  function TotalStock(bs: seq<Batch>): int
  {
    if bs == [] then 0 else bs[0].stock + TotalStock(bs[1..])
  }

  lemma {:induction false} TotalStockUpdate(bs: seq<Batch>, i: nat, b: Batch)
    requires i < |bs|
    ensures TotalStock(bs[i := b]) == TotalStock(bs) - bs[i].stock + b.stock
  {
    if i > 0 {
      assert bs[i := b][1..] == bs[1..][i - 1 := b];
      TotalStockUpdate(bs[1..], i - 1, b);
    }
  }

  lemma {:induction false} TotalStockAppend(bs: seq<Batch>, b: Batch)
    ensures TotalStock(bs + [b]) == TotalStock(bs) + b.stock
  {
    if bs != [] {
      assert (bs + [b])[1..] == bs[1..] + [b];
      TotalStockAppend(bs[1..], b);
    }
  }

  // ------------------------------------------------------------------ skeleton

  /** A batch with its stock forgotten. */
  function Bare(b: Batch): Batch { b.(stock := 0) }

  function BareItem(it: Item): Item
  {
    it.(batches := seq(|it.batches|, j requires 0 <= j < |it.batches| => Bare(it.batches[j])))
  }

  /** Everything about the inventory except batch stock levels. */
  function Skeleton(inv: seq<Item>): seq<Item>
  {
    seq(|inv|, i requires 0 <= i < |inv| => BareItem(inv[i]))
  }

  lemma SkeletonShape(a: seq<Item>, b: seq<Item>)
    requires Skeleton(a) == Skeleton(b)
    ensures |a| == |b|
    ensures forall i :: 0 <= i < |a| ==> a[i].id == b[i].id && |a[i].batches| == |b[i].batches|
    ensures forall l :: ValidLoc(a, l) ==> ValidLoc(b, l)
    ensures forall l :: ValidLoc(a, l) ==>
      a[l.item].batches[l.batch].batchNumber == b[l.item].batches[l.batch].batchNumber
  {
    assert |a| == |Skeleton(a)|;
    forall i | 0 <= i < |a|
      ensures a[i].id == b[i].id && |a[i].batches| == |b[i].batches|
    {
      assert Skeleton(a)[i] == Skeleton(b)[i];
      assert |BareItem(a[i]).batches| == |a[i].batches|;
      assert |BareItem(b[i]).batches| == |b[i].batches|;
    }
    forall l | ValidLoc(a, l)
      ensures a[l.item].batches[l.batch].batchNumber == b[l.item].batches[l.batch].batchNumber
    {
      assert Skeleton(a)[l.item] == Skeleton(b)[l.item];
      assert BareItem(a[l.item]).batches[l.batch] == BareItem(b[l.item]).batches[l.batch];
    }
  }

  lemma {:induction false} FindItemSameIds(a: seq<Item>, b: seq<Item>, id: string)
    requires |a| == |b| && forall i :: 0 <= i < |a| ==> a[i].id == b[i].id
    ensures FindItem(a, id) == FindItem(b, id)
  {
    if a != [] {
      FindItemSameIds(a[1..], b[1..], id);
    }
  }

  lemma {:induction false} FindBatchSameNumbers(a: seq<Batch>, b: seq<Batch>, number: string)
    requires |a| == |b| && forall j :: 0 <= j < |a| ==> a[j].batchNumber == b[j].batchNumber
    ensures FindBatch(a, number) == FindBatch(b, number)
  {
    if a != [] {
      FindBatchSameNumbers(a[1..], b[1..], number);
    }
  }

  /** Locating a batch only looks at ids and batch numbers. */
  lemma LocateSkeleton(a: seq<Item>, b: seq<Item>, itemId: string, number: string)
    requires Skeleton(a) == Skeleton(b)
    ensures Locate(a, itemId, number) == Locate(b, itemId, number)
  {
    SkeletonShape(a, b);
    FindItemSameIds(a, b, itemId);
    var f := FindItem(a, itemId);
    if f.Some? {
      var i := f.value;
      forall j | 0 <= j < |a[i].batches| ensures a[i].batches[j].batchNumber == b[i].batches[j].batchNumber {
        assert ValidLoc(a, Loc(i, j));
      }
      FindBatchSameNumbers(a[i].batches, b[i].batches, number);
    }
  }

  /** Two inventories with the same skeleton and the same stock levels are equal. */
  lemma SkeletonStockEqual(a: seq<Item>, b: seq<Item>)
    requires Skeleton(a) == Skeleton(b)
    requires forall l :: ValidLoc(a, l) ==> ValidLoc(b, l) && StockAt(a, l) == StockAt(b, l)
    ensures a == b
  {
    SkeletonShape(a, b);
    forall i | 0 <= i < |a| ensures a[i] == b[i] {
      assert Skeleton(a)[i] == Skeleton(b)[i];
      var x, y := a[i], b[i];
      forall j | 0 <= j < |x.batches| ensures x.batches[j] == y.batches[j] {
        assert ValidLoc(a, Loc(i, j));
        assert BareItem(x).batches[j] == BareItem(y).batches[j];
      }
      assert x.batches == y.batches;
      assert x == BareItem(x).(batches := x.batches);
    }
  }

  // ------------------------------------------------------------------ movement

  /** Adds delta (negative for a deduction) to the stock of one batch. */
  function AddStock(inv: seq<Item>, l: Loc, delta: int): (r: seq<Item>)
    requires ValidLoc(inv, l)
    ensures Skeleton(r) == Skeleton(inv)
    ensures ValidLoc(r, l) && StockAt(r, l) == StockAt(inv, l) + delta
    ensures forall l' :: ValidLoc(inv, l') && l' != l ==> ValidLoc(r, l') && StockAt(r, l') == StockAt(inv, l')
  {
    var it := inv[l.item];
    var b := it.batches[l.batch];
    var r := inv[l.item := it.(batches := it.batches[l.batch := b.(stock := b.stock + delta)])];
    assert BareItem(r[l.item]).batches == BareItem(it).batches;
    assert Skeleton(r) == Skeleton(inv);
    r
  }

  /** `batch.stock -= quantity` (a sale) or `batch.stock += quantity` (a cancellation or return). */
  datatype Direction = Down | Up {
    function Opposite(): Direction { if this == Down then Up else Down }
  }

  function Signed(dir: Direction, q: int): int
  {
    if dir == Down then -q else q
  }

  /** A billed, cancelled or returned line, as far as stock is concerned. */
  datatype Movement = Movement(itemId: string, itemName: string, batchNumber: string, quantity: int)

  /** One line of the `forEach`: move the located batch by the quantity, or skip. */
  function Move(inv: seq<Item>, m: Movement, dir: Direction): seq<Item>
  {
    match Locate(inv, m.itemId, m.batchNumber)
    case None => inv
    case Some(l) => AddStock(inv, l, Signed(dir, m.quantity))
  }

  /** The whole `forEach`, lines taken in order. */
  function MoveAll(inv: seq<Item>, ms: seq<Movement>, dir: Direction): seq<Item>
    decreases ms
  {
    if ms == [] then inv else MoveAll(Move(inv, ms[0], dir), ms[1..], dir)
  }

  /** Total quantity of the lines that land on the batch at l. */
  function Hits(inv: seq<Item>, ms: seq<Movement>, l: Loc): int
  {
    if ms == [] then 0
    else
      var here := if Locate(inv, ms[0].itemId, ms[0].batchNumber) == Some(l) then ms[0].quantity else 0;
      here + Hits(inv, ms[1..], l)
  }

  lemma {:induction false} HitsSkeleton(a: seq<Item>, b: seq<Item>, ms: seq<Movement>, l: Loc)
    requires Skeleton(a) == Skeleton(b)
    ensures Hits(a, ms, l) == Hits(b, ms, l)
  {
    if ms != [] {
      LocateSkeleton(a, b, ms[0].itemId, ms[0].batchNumber);
      HitsSkeleton(a, b, ms[1..], l);
    }
  }

  /**
   * Closed form of a sequence of movements: nothing but stock changes, and
   * each batch moves, in the given direction, by exactly the quantity of the lines that
   * land on it; a batch no line lands on keeps its stock.
   */
  lemma {:induction false} MoveAllStock(inv: seq<Item>, ms: seq<Movement>, dir: Direction)
    decreases ms
    ensures Skeleton(MoveAll(inv, ms, dir)) == Skeleton(inv)
    ensures forall l :: ValidLoc(inv, l) ==>
      ValidLoc(MoveAll(inv, ms, dir), l) &&
      StockAt(MoveAll(inv, ms, dir), l) == StockAt(inv, l) + Signed(dir, Hits(inv, ms, l))
  {
    if ms != [] {
      var next := Move(inv, ms[0], dir);
      MoveAllStock(next, ms[1..], dir);
      var r := MoveAll(inv, ms, dir);
      assert Skeleton(next) == Skeleton(inv);
      SkeletonShape(inv, next);
      forall l | ValidLoc(inv, l)
        ensures ValidLoc(r, l) && StockAt(r, l) == StockAt(inv, l) + Signed(dir, Hits(inv, ms, l))
      {
        HitsSkeleton(next, inv, ms[1..], l);
      }
    }
  }

  /** Undoing a sequence of movements in the opposite direction restores the inventory exactly. */
  lemma MoveAllRoundTrip(inv: seq<Item>, ms: seq<Movement>, dir: Direction)
    ensures MoveAll(MoveAll(inv, ms, dir), ms, dir.Opposite()) == inv
  {
    var a := MoveAll(inv, ms, dir);
    var b := MoveAll(a, ms, dir.Opposite());
    MoveAllStock(inv, ms, dir);
    MoveAllStock(a, ms, dir.Opposite());
    SkeletonShape(inv, a);
    SkeletonShape(b, inv);
    forall l | ValidLoc(b, l) ensures ValidLoc(inv, l) && StockAt(b, l) == StockAt(inv, l) {
      HitsSkeleton(a, inv, ms, l);
    }
    SkeletonStockEqual(b, inv);
  }

  /** The entry one line records: none when its item or batch is missing. */
  function StepLog(inv: seq<Item>, m: Movement, dir: Direction, reason: StockReason,
                   actor: User, now: string): seq<LogEntry>
  {
    match Locate(inv, m.itemId, m.batchNumber)
    case None => []
    case Some(l) => [CreateLog(actor, now, "INVENTORY_UPDATE",
      StockMoved(reason, m.itemName, m.batchNumber, m.quantity,
                 StockAt(inv, l), StockAt(inv, l) + Signed(dir, m.quantity)))]
  }

  /** The INVENTORY_UPDATE entries the `forEach` records, one per located line, in order. */
  function MoveLogs(inv: seq<Item>, ms: seq<Movement>, dir: Direction, reason: StockReason,
                    actor: User, now: string): (logs: seq<LogEntry>)
    decreases ms
    ensures |logs| <= |ms|
    ensures forall k :: 0 <= k < |logs| ==>
      logs[k].action == "INVENTORY_UPDATE" && logs[k].userId == actor.id &&
      logs[k].details.StockMoved? && logs[k].details.reason == reason &&
      logs[k].details.to == logs[k].details.from + Signed(dir, logs[k].details.quantity)
  {
    if ms == [] then []
    else StepLog(inv, ms[0], dir, reason, actor, now) + MoveLogs(Move(inv, ms[0], dir), ms[1..], dir, reason, actor, now)
  }

  /** Moving the lines from k on is moving line k, then the lines after it. */
  lemma MoveUnroll(inv: seq<Item>, ms: seq<Movement>, k: nat, dir: Direction, reason: StockReason,
                   actor: User, now: string)
    requires k < |ms|
    ensures MoveAll(inv, ms[k..], dir) == MoveAll(Move(inv, ms[k], dir), ms[k + 1..], dir)
    ensures MoveLogs(inv, ms[k..], dir, reason, actor, now) ==
      StepLog(inv, ms[k], dir, reason, actor, now) + MoveLogs(Move(inv, ms[k], dir), ms[k + 1..], dir, reason, actor, now)
  {
    assert ms[k..][0] == ms[k] && ms[k..][1..] == ms[k + 1..];
  }

  lemma ConcatAssoc<T>(a: seq<T>, b: seq<T>, c: seq<T>)
    ensures a + b + c == a + (b + c)
  {
  }

  /**
   * The body of the `forEach` callback for one line: find the item, then
   * the batch, and when both exist move its stock and record the old and
   * new level.
   */
  method ApplyMove(inv: seq<Item>, m: Movement, dir: Direction, reason: StockReason,
                   actor: User, now: string) returns (inv': seq<Item>, entries: seq<LogEntry>)
    ensures inv' == Move(inv, m, dir)
    ensures entries == StepLog(inv, m, dir, reason, actor, now)
  {
    inv', entries := inv, [];
    var loc := Locate(inv, m.itemId, m.batchNumber);
    if loc.Some? {
      var l := loc.value;
      var oldStock := StockAt(inv, l);
      inv' := AddStock(inv, l, Signed(dir, m.quantity));
      entries := [CreateLog(actor, now, "INVENTORY_UPDATE",
        StockMoved(reason, m.itemName, m.batchNumber, m.quantity, oldStock, StockAt(inv', l)))];
    }
  }

  /**
   * The copy-then-`forEach` loop of ADD_BILL, FINALIZE_BILL, CANCEL_BILL and
   * SALES_RETURN over the lines of a bill or a return.
   */
  method ApplyMoves(inv0: seq<Item>, ms: seq<Movement>, dir: Direction, reason: StockReason,
                    actor: User, now: string) returns (inv: seq<Item>, logs: seq<LogEntry>)
    ensures inv == MoveAll(inv0, ms, dir)
    ensures logs == MoveLogs(inv0, ms, dir, reason, actor, now)
  {
    inv, logs := inv0, [];
    var k := 0;
    while k < |ms|
      invariant 0 <= k <= |ms|
      invariant MoveAll(inv, ms[k..], dir) == MoveAll(inv0, ms, dir)
      invariant logs + MoveLogs(inv, ms[k..], dir, reason, actor, now) == MoveLogs(inv0, ms, dir, reason, actor, now)
    {
      MoveUnroll(inv, ms, k, dir, reason, actor, now);
      ghost var logs0 := logs;
      var entries;
      inv, entries := ApplyMove(inv, ms[k], dir, reason, actor, now);
      logs := logs + entries;
      ConcatAssoc(logs0, entries, MoveLogs(inv, ms[k + 1..], dir, reason, actor, now));
      k := k + 1;
    }
    assert ms[|ms|..] == [];
  }
}
