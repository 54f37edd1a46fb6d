/**
 * The inventory screen: the per-item roll-up (total stock, next expiry,
 * expired / nearing-expiry flags), the stock filter and status badge, the
 * sort by name, and the item edit form with its inline batch editor.
 */
module InventoryView {
  import opened Wrappers
  import opened Model
  import opened Seqs
  import opened Text
  import opened Dates
  import Stock
  import Fuzzy

  // ------------------------------------------------------------ next expiry

  predicate HasStock(b: Batch) { b.stock > 0 }

  /** One step of the `reduce`: `earliest` only when it is a strictly earlier valid date, else `current`. */
  function Earlier(earliest: Batch, current: Batch): Batch
  {
    if DateBefore(earliest.expiryDate, current.expiryDate) then earliest else current
  }

  /** The batch the `reduce` ends with, starting from `acc`. */
  function Earliest(acc: Batch, rest: seq<Batch>): (r: Batch)
    ensures r == acc || r in rest
    decreases |rest|
  {
    if rest == [] then acc else Earliest(Earlier(acc, rest[0]), rest[1..])
  }

  lemma EarlierIsLower(x: Batch, y: Batch)
    requires IsDate(x.expiryDate) && IsDate(y.expiryDate)
    ensures StrLe(Instant(Earlier(x, y).expiryDate), Instant(x.expiryDate))
    ensures StrLe(Instant(Earlier(x, y).expiryDate), Instant(y.expiryDate))
  {
    StrLtIrreflexive(Instant(x.expiryDate));
    StrLtIrreflexive(Instant(y.expiryDate));
    if StrLt(Instant(x.expiryDate), Instant(y.expiryDate)) {
      StrLtAsymmetric(Instant(x.expiryDate), Instant(y.expiryDate));
    }
  }

  /** Every expiry the reduce sees is a valid date. */
  predicate AllDated(acc: Batch, rest: seq<Batch>)
  {
    IsDate(acc.expiryDate) && forall b :: b in rest ==> IsDate(b.expiryDate)
  }

  /**
   * Over valid dates, in either form, the reduce finds an expiry whose instant
   * is no later than that of every batch it sees.
   */
  lemma {:induction false} EarliestIsMinimal(acc: Batch, rest: seq<Batch>)
    ensures AllDated(acc, rest) ==> StrLe(Instant(Earliest(acc, rest).expiryDate), Instant(acc.expiryDate))
    ensures AllDated(acc, rest) ==>
      forall b :: b in rest ==> StrLe(Instant(Earliest(acc, rest).expiryDate), Instant(b.expiryDate))
    decreases |rest|
  {
    if rest != [] && AllDated(acc, rest) {
      var next := Earlier(acc, rest[0]);
      assert rest[0] in rest;
      assert AllDated(next, rest[1..]);
      EarliestIsMinimal(next, rest[1..]);
      EarlierIsLower(acc, rest[0]);
      assert Earliest(acc, rest) == Earliest(next, rest[1..]);
      var e := Instant(Earliest(acc, rest).expiryDate);
      StrLeTransitive(e, Instant(next.expiryDate), Instant(acc.expiryDate));
      StrLeTransitive(e, Instant(next.expiryDate), Instant(rest[0].expiryDate));
      forall b | b in rest
        ensures StrLe(e, Instant(b.expiryDate))
      {
        if b != rest[0] {
          assert b in rest[1..];
        }
      }
    } else {
      StrLtIrreflexive(Instant(acc.expiryDate));
    }
  }

  lemma {:induction false} EarliestAppend(acc: Batch, a: seq<Batch>, b: seq<Batch>)
    ensures Earliest(acc, a + b) == Earliest(Earliest(acc, a), b)
    decreases |a|
  {
    if a != [] {
      assert (a + b)[0] == a[0] && (a + b)[1..] == a[1..] + b;
      EarliestAppend(Earlier(acc, a[0]), a[1..], b);
    } else {
      assert a + b == b;
    }
  }

  /**
   * An undated batch resets the reduce: whatever came before it, the result
   * is the reduce of the batches after it, started from that batch.
   */
  lemma EarliestRestarts(acc: Batch, pre: seq<Batch>, c: Batch, post: seq<Batch>)
    requires !IsDate(c.expiryDate)
    ensures Earliest(acc, pre + [c] + post) == Earliest(c, post)
  {
    EarliestAppend(acc, pre + [c], post);
    EarliestAppend(acc, pre, [c]);
  }

  /** `nextExpiry`: the expiry the reduce lands on among the batches still holding stock, or null. */
  function NextExpiry(bs: seq<Batch>): Option<string>
  {
    var live := Filter(bs, HasStock);
    if live == [] then None else Some(Earliest(live[0], live[1..]).expiryDate)
  }

  /** Every batch holding stock has a valid expiry date. */
  predicate StockedDated(bs: seq<Batch>)
  {
    forall b :: b in bs && b.stock > 0 ==> IsDate(b.expiryDate)
  }

  /**
   * The next expiry is absent exactly when no batch holds stock; otherwise it is the
   * expiry of a batch with stock, and when every such batch is dated, none expires at an
   * earlier instant.
   */
  lemma NextExpiryIsEarliest(bs: seq<Batch>)
    ensures NextExpiry(bs).None? <==> forall b :: b in bs ==> b.stock <= 0
    ensures NextExpiry(bs).Some? ==>
      exists b :: b in bs && b.stock > 0 && b.expiryDate == NextExpiry(bs).value
    ensures NextExpiry(bs).Some? && StockedDated(bs) ==>
      forall b :: b in bs && b.stock > 0 ==> StrLe(Instant(NextExpiry(bs).value), Instant(b.expiryDate))
  {
    var live := Filter(bs, HasStock);
    if live != [] {
      assert live[0] in live;
      var w := Earliest(live[0], live[1..]);
      assert w in live;
      if StockedDated(bs) {
        assert AllDated(live[0], live[1..]) by {
          forall b | b in live[1..] ensures IsDate(b.expiryDate) {
            assert b in live;
          }
        }
        EarliestIsMinimal(live[0], live[1..]);
        forall b | b in bs && b.stock > 0
          ensures StrLe(Instant(w.expiryDate), Instant(b.expiryDate))
        {
          assert b in live;
          if b != live[0] {
            assert b in live[1..];
          }
        }
      }
    }
  }

  /**
   * When the last batch holding stock has an undated expiry, the reduce lands
   * on it, whatever the earlier batches hold.
   */
  lemma UndatedLastStockedIsNext(pre: seq<Batch>, c: Batch, post: seq<Batch>)
    requires c.stock > 0 && !IsDate(c.expiryDate)
    requires forall b :: b in post ==> b.stock <= 0
    ensures NextExpiry(pre + [c] + post) == Some(c.expiryDate)
  {
    var fp := Filter(pre, HasStock);
    var live := Filter(pre + [c] + post, HasStock);
    assert live == fp + [c] by {
      FilterNone(post, HasStock);
      assert Filter([c], HasStock) == [c];
      FilterAppend(pre, [c], HasStock);
      FilterAppend(pre + [c], post, HasStock);
    }
    if fp != [] {
      assert live[0] == fp[0] && live[1..] == fp[1..] + [c] + [];
      EarliestRestarts(fp[0], fp[1..], c, []);
    }
  }

  // ----------------------------------------------------------------- roll-up

  /** An inventory row as the screen shows it. */
  datatype Row = Row(item: Item, totalStock: int, nextExpiry: Option<string>, isExpired: bool, isNearingExpiry: bool)

  /**
   * The roll-up of one item. `now` is the current instant and `threshold` the
   * instant thirty days later, both as `toISOString` writes them; an expiry is
   * compared with them as the instant it denotes. A next expiry that is empty
   * or not a date sets neither flag.
   */
  function Process(item: Item, now: string, threshold: string): (r: Row)
    ensures r.item == item && r.totalStock == Stock.TotalStock(item.batches)
    ensures r.nextExpiry == NextExpiry(item.batches)
    ensures r.isExpired <==> r.nextExpiry.Some? && DateBefore(r.nextExpiry.value, now)
    ensures r.isNearingExpiry <==>
      r.nextExpiry.Some? && !DateBefore(r.nextExpiry.value, now) && DateBefore(r.nextExpiry.value, threshold)
    ensures r.nextExpiry.Some? && !IsDate(r.nextExpiry.value) ==> !r.isExpired && !r.isNearingExpiry
  {
    var next := NextExpiry(item.batches);
    var expired := next.Some? && next.value != "" && DateBefore(next.value, now);
    var nearing := next.Some? && next.value != "" && !expired && DateBefore(next.value, threshold);
    Row(item, Stock.TotalStock(item.batches), next, expired, nearing)
  }

  /** An item is never flagged both expired and nearing expiry, and an item without stock is neither. */
  lemma FlagsExclusive(item: Item, now: string, threshold: string)
    ensures !(Process(item, now, threshold).isExpired && Process(item, now, threshold).isNearingExpiry)
    ensures (forall b :: b in item.batches ==> b.stock <= 0) ==>
      !Process(item, now, threshold).isExpired && !Process(item, now, threshold).isNearingExpiry
  {
    NextExpiryIsEarliest(item.batches);
  }

  /** A freshly added batch given stock but no expiry, last among the stocked ones, clears both flags. */
  lemma UndatedBatchClearsFlags(item: Item, now: string, threshold: string, pre: seq<Batch>, c: Batch, post: seq<Batch>)
    requires item.batches == pre + [c] + post
    requires c.stock > 0 && c.expiryDate == ""
    requires forall b :: b in post ==> b.stock <= 0
    ensures Process(item, now, threshold).nextExpiry == Some("")
    ensures !Process(item, now, threshold).isExpired && !Process(item, now, threshold).isNearingExpiry
  {
    UndatedLastStockedIsNext(pre, c, post);
  }

  /** Of two batches with stock and valid expiries, the one on the earlier calendar day is next, in either order. */
  lemma EarlierDayIsNext(a: Batch, b: Batch)
    requires a.stock > 0 && b.stock > 0 && IsDate(a.expiryDate) && IsDate(b.expiryDate)
    requires StrLt(a.expiryDate[..10], b.expiryDate[..10])
    ensures NextExpiry([a, b]) == Some(a.expiryDate)
    ensures NextExpiry([b, a]) == Some(a.expiryDate)
  {
    EarlierDayIsBefore(a.expiryDate, b.expiryDate);
    DateTrichotomy(a.expiryDate, b.expiryDate);
    assert Filter([a, b], HasStock) == [a, b];
    assert Filter([b, a], HasStock) == [b, a];
  }

  /**
   * The seeded Paracetamol batches PCTM-101 and PCTM-102, each stamped by
   * `toISOString` at the last second of its day: the next expiry is the 2026 one.
   */
  lemma SeededParacetamolNextExpiry(item: Item)
    requires item.batches == [Batch("PCTM-101", 150, "2026-12-31" + EndOfDay, 1.8, None),
                              Batch("PCTM-102", 100, "2027-06-30" + EndOfDay, 1.9, None)]
    ensures NextExpiry(item.batches) == Some("2026-12-31" + EndOfDay)
  {
    SeededDays();
    EndOfDayIsStamp("2026-12-31");
    EndOfDayIsStamp("2027-06-30");
    EarlierDayIsNext(item.batches[0], item.batches[1]);
  }

  /** The seeded Amoxicillin batch AMX-201 is flagged expired on any later day. */
  lemma SeededAmoxicillinExpired(item: Item, now: string, threshold: string)
    requires item.batches == [Batch("AMX-201", 150, "2025-10-31" + EndOfDay, 12.5, None)]
    requires IsStamp(now) && StrLt("2025-10-31", now[..10])
    ensures Process(item, now, threshold).isExpired
  {
    var b := item.batches[0];
    SeededDays();
    EndOfDayIsStamp("2025-10-31");
    assert Filter(item.batches, HasStock) == [b];
    EarlierDayIsBefore(b.expiryDate, now);
  }

  /** The seeded days are days, and 2026-12-31 comes before 2027-06-30. */
  lemma SeededDays()
    ensures IsDay("2025-10-31") && IsDay("2026-12-31") && IsDay("2027-06-30")
    ensures StrLt("2026-12-31", "2027-06-30")
  {
    assert "2026-12-31"[..3] == "2027-06-30"[..3];
    StrLtAtFirstDiff("2026-12-31", "2027-06-30", 3);
  }

  /**
   * Only the expiry with stock that the reduce lands on counts: the item is flagged
   * only for a stocked, dated batch already past, and when every stocked batch is
   * dated, any such batch flags it.
   */
  lemma ExpiredMeansStockedBatchExpired(item: Item, now: string, threshold: string)
    ensures Process(item, now, threshold).isExpired ==>
      exists b :: b in item.batches && b.stock > 0 && DateBefore(b.expiryDate, now)
    ensures StockedDated(item.batches) ==>
      (Process(item, now, threshold).isExpired <==>
       exists b :: b in item.batches && b.stock > 0 && DateBefore(b.expiryDate, now))
  {
    NextExpiryIsEarliest(item.batches);
    var next := NextExpiry(item.batches);
    if StockedDated(item.batches) && exists b :: b in item.batches && b.stock > 0 && DateBefore(b.expiryDate, now) {
      var b :| b in item.batches && b.stock > 0 && DateBefore(b.expiryDate, now);
      var w :| w in item.batches && w.stock > 0 && w.expiryDate == next.value;
      StrLeLtTransitive(Instant(next.value), Instant(b.expiryDate), Instant(now));
    }
  }

  lemma StrLeLtTransitive(a: string, b: string, c: string)
    requires StrLe(a, b) && StrLt(b, c)
    ensures StrLt(a, c)
  {
    StrLtTotal(a, b);
    if a != b {
      StrLtTransitive(a, b, c);
    }
  }

  /** `isLowStock`: some stock, but no more than the reorder level. */
  predicate LowStock(r: Row)
  {
    r.totalStock > 0 && r.totalStock <= r.item.reorderLevel
  }

  // ------------------------------------------------------------------ status

  datatype Status = Expired | NearingExpiry | LowStockBadge | InStock | OutOfStock

  /** The status badge and row colour: Expired over Nearing Expiry over Low Stock over In Stock. */
  function StatusOf(r: Row): (s: Status)
    ensures s != OutOfStock
    ensures s == Expired <==> r.isExpired
    ensures s == NearingExpiry <==> !r.isExpired && r.isNearingExpiry
    ensures s == LowStockBadge <==> !r.isExpired && !r.isNearingExpiry && LowStock(r)
  {
    if r.isExpired then Expired
    else if r.isNearingExpiry then NearingExpiry
    else if LowStock(r) then LowStockBadge
    else InStock
  }

  /** An item whose batches hold no stock at all is badged "In Stock". */
  lemma EmptyItemShowsInStock(item: Item, now: string, threshold: string)
    requires forall b :: b in item.batches ==> b.stock == 0
    ensures StatusOf(Process(item, now, threshold)) == InStock
  {
    FlagsExclusive(item, now, threshold);
    ZeroStockTotal(item.batches);
  }

  lemma {:induction false} ZeroStockTotal(bs: seq<Batch>)
    requires forall b :: b in bs ==> b.stock == 0
    ensures Stock.TotalStock(bs) == 0
  {
    if bs != [] {
      assert bs[0] in bs;
      ZeroStockTotal(bs[1..]);
    }
  }

  /** The badge with an out-of-stock case: nothing in hand is never "In Stock". */
  function StatusIntended(r: Row): (s: Status)
    ensures s == InStock ==> r.totalStock > 0
    ensures r.totalStock > 0 ==> s == StatusOf(r)
  {
    if r.isExpired then Expired
    else if r.isNearingExpiry then NearingExpiry
    else if r.totalStock <= 0 then OutOfStock
    else if LowStock(r) then LowStockBadge
    else InStock
  }

  /** With the out-of-stock case, an empty item is badged as such. */
  lemma EmptyItemShowsOutOfStock(item: Item, now: string, threshold: string)
    requires forall b :: b in item.batches ==> b.stock == 0
    ensures StatusIntended(Process(item, now, threshold)) == OutOfStock
  {
    FlagsExclusive(item, now, threshold);
    ZeroStockTotal(item.batches);
  }

  // ------------------------------------------------------------ filter, sort

  datatype StockFilter = AllItems | LowOnly | ExpiredOnly

  predicate Matches(r: Row, f: StockFilter)
  {
    match f
    case AllItems => true
    case LowOnly => LowStock(r)
    case ExpiredOnly => r.isExpired
  }

  predicate Shown(r: Row, term: string, f: StockFilter)
  {
    Fuzzy.FuzzySearch(term, r.item.name) && Matches(r, f)
  }

  /** `filteredInventory`: the rows whose name matches the search and that pass the stock filter. */
  function Visible(rows: seq<Row>, term: string, f: StockFilter): (r: seq<Row>)
    ensures forall x :: x in r <==> x in rows && Fuzzy.FuzzySearch(term, x.item.name) && Matches(x, f)
  {
    Filter(rows, (x: Row) => Shown(x, term, f))
  }

  /** With no search term and the "All Items" filter every row is shown, in order. */
  lemma ShowAll(rows: seq<Row>)
    ensures Visible(rows, "", AllItems) == rows
  {
    FilterAll(rows, (x: Row) => Shown(x, "", AllItems));
  }

  /**
   * The collation order of `localeCompare` on names: letters compare without
   * regard to case, and names that differ only in case put the lower-case
   * letter first.
   */
  predicate NameLe(a: string, b: string)
  {
    StrLt(ToLower(a), ToLower(b)) || (ToLower(a) == ToLower(b) && StrLe(b, a))
  }

  /** Any two names are ordered one way or the other. */
  lemma NameLeTotal(a: string, b: string)
    ensures NameLe(a, b) || NameLe(b, a)
  {
    StrLtTotal(ToLower(a), ToLower(b));
    if StrLt(a, b) {
      StrLtAsymmetric(a, b);
    }
  }

  /** The order ignores case on distinct letters: `aspirin` comes before `Zinc`. */
  lemma NameLeIgnoresCase(a: string, b: string)
    requires StrLt(ToLower(a), ToLower(b))
    ensures NameLe(a, b) && !NameLe(b, a)
  {
    StrLtAsymmetric(ToLower(a), ToLower(b));
    StrLtIrreflexive(ToLower(a));
  }

  predicate SortedByName(rs: seq<Row>)
  {
    forall i :: 0 <= i < |rs| - 1 ==> NameLe(rs[i].item.name, rs[i + 1].item.name)
  }

  /** Places x before the first row whose name does not come before it. */
  function Insert(x: Row, rs: seq<Row>): (r: seq<Row>)
    ensures |r| == |rs| + 1 && multiset(r) == multiset(rs) + multiset{x}
    ensures r[0] == x || (rs != [] && r[0] == rs[0])
  {
    if rs == [] then [x]
    else if NameLe(x.item.name, rs[0].item.name) then [x] + rs
    else
      assert rs == [rs[0]] + rs[1..];
      [rs[0]] + Insert(x, rs[1..])
  }

  lemma {:induction false} InsertSorted(x: Row, rs: seq<Row>)
    requires SortedByName(rs)
    ensures SortedByName(Insert(x, rs))
  {
    if rs != [] && !NameLe(x.item.name, rs[0].item.name) {
      InsertSorted(x, rs[1..]);
      NameLeTotal(x.item.name, rs[0].item.name);
      var r := Insert(x, rs);
      assert r == [rs[0]] + Insert(x, rs[1..]);
    }
  }

  /** `.sort((a, b) => a.name.localeCompare(b.name))`, an insertion sort under NameLe. */
  function SortByName(rs: seq<Row>): (r: seq<Row>)
    ensures multiset(r) == multiset(rs)
  {
    if rs == [] then []
    else
      assert rs == [rs[0]] + rs[1..];
      Insert(rs[0], SortByName(rs[1..]))
  }

  /** The sorted rows are in name order. */
  lemma {:induction false} SortByNameSorted(rs: seq<Row>)
    ensures SortedByName(SortByName(rs))
  {
    if rs != [] {
      SortByNameSorted(rs[1..]);
      InsertSorted(rs[0], SortByName(rs[1..]));
    }
  }

  /** `processedInventory`: every item rolled up, then sorted by name. */
  function Processed(inventory: seq<Item>, now: string, threshold: string): (r: seq<Row>)
    ensures multiset(r) == multiset(seq(|inventory|, k requires 0 <= k < |inventory| => Process(inventory[k], now, threshold)))
    ensures SortedByName(r)
  {
    var rows := seq(|inventory|, k requires 0 <= k < |inventory| => Process(inventory[k], now, threshold));
    SortByNameSorted(rows);
    SortByName(rows)
  }

  // ------------------------------------------------------------- edit form

  /** A change to one field of the item (`handleItemChange`). */
  datatype ItemEdit =
    | SetName(name: string)
    | SetCategory(category: Category)
    | SetReorderLevel(level: int)
    | SetPrice(price: Money)
    | SetGstRate(rate: real)

  function ApplyItemEdit(it: Item, e: ItemEdit): Item
  {
    match e
    case SetName(n) => it.(name := n)
    case SetCategory(c) => it.(category := c)
    case SetReorderLevel(l) => it.(reorderLevel := l)
    case SetPrice(p) => it.(price := p)
    case SetGstRate(g) => it.(gstRate := g)
  }

  /** A change to one field of the batch being edited (`handleEditingBatchChange`). */
  datatype BatchEdit =
    | SetBatchNumber(batchNumber: string)
    | SetStock(stock: int)
    | SetExpiry(expiryDate: string)
    | SetCostPrice(costPrice: Money)
    | SetMrp(mrp: Money)

  function ApplyBatchEdit(b: Batch, e: BatchEdit): Batch
  {
    match e
    case SetBatchNumber(n) => b.(batchNumber := n)
    case SetStock(s) => b.(stock := s)
    case SetExpiry(d) => b.(expiryDate := d)
    case SetCostPrice(c) => b.(costPrice := c)
    case SetMrp(m) => b.(mrp := Some(m))
  }

  /** The batch `addBatch` appends. */
  function BlankBatch(): Batch
  {
    Batch("", 0, "", 0.0, Some(0.0))
  }

  /** The edit form: a copy of the item, and the batch being edited inline, if any. */
  class InventoryEditForm {
    var formData: Item
    var editingIndex: Option<nat>
    var editingData: Option<Batch>

    /** The index and the copy are set and cleared together, and the index names a batch. */
    ghost predicate Valid()
      reads this
    {
      editingIndex.Some? == editingData.Some? &&
      (editingIndex.Some? ==> editingIndex.value < |formData.batches|)
    }

    constructor (item: Item)
      ensures Valid()
      ensures formData == item && editingIndex == None && editingData == None
    {
      formData := item;
      editingIndex := None;
      editingData := None;
    }

    method ItemChange(e: ItemEdit)
      requires Valid()
      modifies this
      ensures Valid()
      ensures formData == ApplyItemEdit(old(formData), e)
      ensures editingIndex == old(editingIndex) && editingData == old(editingData)
    {
      formData := ApplyItemEdit(formData, e);
    }

    /** `addBatch`: a blank batch at the end, unless a batch is being edited. */
    method AddBatch()
      requires Valid()
      modifies this
      ensures Valid()
      ensures editingIndex == old(editingIndex) && editingData == old(editingData)
      ensures old(editingIndex).Some? ==> formData == old(formData)
      ensures old(editingIndex).None? ==> formData == old(formData).(batches := old(formData).batches + [BlankBatch()])
    {
      if editingIndex.Some? {
        return;
      }
      formData := formData.(batches := formData.batches + [BlankBatch()]);
    }

    /** `removeBatch`: drops the batch at `index`, unless a batch is being edited. */
    method RemoveBatch(index: nat)
      requires Valid()
      modifies this
      ensures Valid()
      ensures editingIndex == old(editingIndex) && editingData == old(editingData)
      ensures old(editingIndex).Some? || index >= |old(formData).batches| ==> formData == old(formData)
      ensures old(editingIndex).None? && index < |old(formData).batches| ==>
        formData == old(formData).(batches := old(formData).batches[..index] + old(formData).batches[index + 1..])
    {
      if editingIndex.Some? {
        return;
      }
      if index < |formData.batches| {
        formData := formData.(batches := formData.batches[..index] + formData.batches[index + 1..]);
      }
    }

    /** `handleEditBatch`: starts editing a copy of the batch at `index`. */
    method EditBatch(index: nat)
      requires Valid() && index < |formData.batches|
      modifies this
      ensures Valid()
      ensures formData == old(formData)
      ensures editingIndex == Some(index) && editingData == Some(formData.batches[index])
    {
      editingIndex := Some(index);
      editingData := Some(formData.batches[index]);
    }

    /** `handleCancelBatchEdit`: drops the copy; the item is untouched. */
    method CancelBatchEdit()
      modifies this
      ensures Valid()
      ensures formData == old(formData) && editingIndex == None && editingData == None
    {
      editingIndex := None;
      editingData := None;
    }

    /** `handleEditingBatchChange`: edits the copy, if there is one. */
    method EditingBatchChange(e: BatchEdit)
      requires Valid()
      modifies this
      ensures Valid()
      ensures formData == old(formData) && editingIndex == old(editingIndex)
      ensures editingData == if old(editingData).None? then None else Some(ApplyBatchEdit(old(editingData).value, e))
    {
      if editingData.None? {
        return;
      }
      editingData := Some(ApplyBatchEdit(editingData.value, e));
    }

    /**
     * `handleSaveBatch`: the copy replaces the batch it was taken from, every other
     * batch and field is kept, and editing ends.
     */
    method SaveBatch()
      requires Valid()
      modifies this
      ensures Valid()
      ensures old(editingIndex).None? ==> formData == old(formData) && editingIndex == None && editingData == None
      ensures old(editingIndex).Some? ==>
        var k := old(editingIndex).value;
        formData == old(formData).(batches := old(formData).batches[k := old(editingData).value]) &&
        editingIndex == None && editingData == None
    {
      if editingIndex.None? || editingData.None? {
        return;
      }
      var batches := formData.batches;
      batches := batches[editingIndex.value := editingData.value];
      formData := formData.(batches := batches);
      CancelBatchEdit();
    }

    /** `handleSubmit`: refused while a batch is being edited, otherwise the item to dispatch. */
    method Submit() returns (r: Option<Item>)
      requires Valid()
      ensures r.Some? <==> editingIndex.None?
      ensures r.Some? ==> r.value == formData
    {
      if editingIndex.Some? {
        return None;
      }
      r := Some(formData);
    }
  }
}
