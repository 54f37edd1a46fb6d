/**
 * Earliest-expiry-first deduction used when a requisition is fulfilled
 * (context/AppContext.tsx, UPDATE_REQUISITION_STATUS): the batches of an
 * item that hold stock are ordered by expiry date, with a stable sort, and
 * the requested quantity is taken from them in that order until satisfied.
 */
module Fefo {
  import opened Model
  import opened Text
  import opened Seqs
  import opened Dates
  import Stock

  function Min(a: int, b: int): int { if a <= b then a else b }

  /** `batches.filter(b => b.stock > 0)`, as the ascending indices of the kept batches from lo on. */
  function InStock(bs: seq<Batch>, lo: nat): (r: seq<nat>)
    decreases |bs| - lo
    ensures forall p :: 0 <= p < |r| ==> lo <= r[p] < |bs| && bs[r[p]].stock > 0
    ensures forall p, p' :: 0 <= p < p' < |r| ==> r[p] < r[p']
    ensures forall i :: lo <= i < |bs| && bs[i].stock > 0 ==> i in r
  {
    if lo >= |bs| then []
    else if bs[lo].stock > 0 then [lo] + InStock(bs, lo + 1)
    else InStock(bs, lo + 1)
  }

  /**
   * The stable sort's comparator, the difference of the two expiries'
   * `getTime()`: batch i goes before batch j when its expiry is a strictly
   * earlier instant, or when neither is strictly earlier and i comes first.
   * An expiry that is not a date makes the difference NaN, which the sort
   * takes as equal, so an undated batch is "equal" to every other batch.
   */
  predicate Before(bs: seq<Batch>, i: nat, j: nat)
    requires i < |bs| && j < |bs|
  {
    DateBefore(bs[i].expiryDate, bs[j].expiryDate) ||
    (!DateBefore(bs[j].expiryDate, bs[i].expiryDate) && i < j)
  }

  lemma BeforeTotal(bs: seq<Batch>, i: nat, j: nat)
    requires i < |bs| && j < |bs| && i != j
    ensures Before(bs, i, j) || Before(bs, j, i)
  {
  }

  /** Among dated batches the comparator is a consistent order. */
  lemma BeforeTransitive(bs: seq<Batch>, i: nat, j: nat, k: nat)
    requires i < |bs| && j < |bs| && k < |bs|
    requires IsDate(bs[i].expiryDate) && IsDate(bs[j].expiryDate) && IsDate(bs[k].expiryDate)
    requires Before(bs, i, j) && Before(bs, j, k)
    ensures Before(bs, i, k)
  {
    var a, b, c := bs[i].expiryDate, bs[j].expiryDate, bs[k].expiryDate;
    DateTrichotomy(a, b);
    DateTrichotomy(b, c);
    DateTrichotomy(a, c);
    if DateBefore(a, b) && DateBefore(b, c) {
      DateBeforeTransitive(a, b, c);
    }
  }

  /** The positions in s all hold a valid expiry date. */
  predicate AllDated(bs: seq<Batch>, s: seq<nat>)
  {
    forall i :: i in s ==> i < |bs| && IsDate(bs[i].expiryDate)
  }

  /** Every batch with stock has a valid expiry date. */
  predicate StockedDated(bs: seq<Batch>)
  {
    forall i :: 0 <= i < |bs| && bs[i].stock > 0 ==> IsDate(bs[i].expiryDate)
  }

  predicate Indices(bs: seq<Batch>, s: seq<nat>)
  {
    forall p :: 0 <= p < |s| ==> s[p] < |bs|
  }

  predicate Sorted(bs: seq<Batch>, s: seq<nat>)
    requires Indices(bs, s)
  {
    forall p, p' :: 0 <= p < p' < |s| ==> Before(bs, s[p], s[p'])
  }

  /** No neighbouring pair is out of order under the comparator. */
  predicate InOrder(bs: seq<Batch>, s: seq<nat>)
    requires Indices(bs, s)
  {
    forall p :: 0 <= p < |s| - 1 ==> Before(bs, s[p], s[p + 1])
  }

  /** Puts x in front of the first element it precedes. */
  function Insert(bs: seq<Batch>, x: nat, s: seq<nat>): (r: seq<nat>)
    requires x < |bs| && Indices(bs, s)
    ensures |r| == |s| + 1 && Indices(bs, r)
    ensures multiset(r) == multiset(s) + multiset{x}
    ensures r[0] == x || (s != [] && r[0] == s[0])
  {
    if s == [] then [x]
    else if Before(bs, x, s[0]) then [x] + s
    else
      assert s == [s[0]] + s[1..];
      [s[0]] + Insert(bs, x, s[1..])
  }

  /** A position before every element of a sorted list can go in front of it. */
  lemma ConsSorted(bs: seq<Batch>, y: nat, t: seq<nat>)
    requires y < |bs| && Indices(bs, t) && Sorted(bs, t)
    requires forall p :: 0 <= p < |t| ==> Before(bs, y, t[p])
    ensures Indices(bs, [y] + t) && Sorted(bs, [y] + t)
  {
    var r := [y] + t;
    forall p, p' | 0 <= p < p' < |r|
      ensures Before(bs, r[p], r[p'])
    {
      if p > 0 {
        assert r[p] == t[p - 1] && r[p'] == t[p' - 1];
      }
    }
  }

  /** The head of a sorted list precedes everything in its tail. */
  lemma HeadFirst(bs: seq<Batch>, s: seq<nat>, y: nat)
    requires Indices(bs, s) && Sorted(bs, s) && s != [] && y in s[1..]
    ensures Before(bs, s[0], y)
  {
    var q :| 0 <= q < |s[1..]| && s[1..][q] == y;
    assert s[1 + q] == y;
  }

  lemma {:induction false} InsertSorted(bs: seq<Batch>, x: nat, s: seq<nat>)
    requires x < |bs| && Indices(bs, s) && Sorted(bs, s) && x !in s
    requires IsDate(bs[x].expiryDate) && AllDated(bs, s)
    ensures Sorted(bs, Insert(bs, x, s))
  {
    if s == [] {
    } else if Before(bs, x, s[0]) {
      forall p | 0 <= p < |s|
        ensures Before(bs, x, s[p])
      {
        if p > 0 {
          BeforeTransitive(bs, x, s[0], s[p]);
        }
      }
      ConsSorted(bs, x, s);
    } else {
      var t := Insert(bs, x, s[1..]);
      assert s[0] in s;
      BeforeTotal(bs, x, s[0]);
      assert AllDated(bs, s[1..]) by {
        forall i | i in s[1..] ensures i < |bs| && IsDate(bs[i].expiryDate) {
          assert i in s;
        }
      }
      InsertSorted(bs, x, s[1..]);
      forall p | 0 <= p < |t|
        ensures Before(bs, s[0], t[p])
      {
        assert t[p] in multiset(t);
        if t[p] != x {
          assert t[p] in multiset(s[1..]);
          HeadFirst(bs, s, t[p]);
        }
      }
      ConsSorted(bs, s[0], t);
    }
  }

  /** The stable sort by expiry date, as an insertion sort over positions. */
  function SortByExpiry(bs: seq<Batch>, s: seq<nat>): (r: seq<nat>)
    requires Indices(bs, s)
    ensures Indices(bs, r) && multiset(r) == multiset(s)
  {
    if s == [] then []
    else
      assert s == [s[0]] + s[1..];
      Insert(bs, s[0], SortByExpiry(bs, s[1..]))
  }

  predicate Distinct(s: seq<nat>)
  {
    forall p, p' :: 0 <= p < p' < |s| ==> s[p] != s[p']
  }

  /** The head of a list with distinct entries is not in the sorted tail. */
  lemma HeadNotInSortedTail(bs: seq<Batch>, s: seq<nat>)
    requires Indices(bs, s) && Distinct(s) && s != []
    ensures Distinct(s[1..]) && s[0] !in SortByExpiry(bs, s[1..])
  {
    var t := SortByExpiry(bs, s[1..]);
    forall k | 0 <= k < |s[1..]| ensures s[1..][k] != s[0] {
      assert s[1..][k] == s[k + 1];
    }
    assert s[0] !in multiset(s[1..]);
    assert s[0] !in multiset(t);
  }

  /** Over dated batches the comparator is consistent and the sort puts every pair in order. */
  lemma {:induction false} SortSorted(bs: seq<Batch>, s: seq<nat>)
    requires Indices(bs, s) && Distinct(s) && AllDated(bs, s)
    ensures Sorted(bs, SortByExpiry(bs, s))
  {
    if s != [] {
      var t := SortByExpiry(bs, s[1..]);
      HeadNotInSortedTail(bs, s);
      assert AllDated(bs, s[1..]) by {
        forall i | i in s[1..] ensures i < |bs| && IsDate(bs[i].expiryDate) {
          assert i in s;
        }
      }
      SortSorted(bs, s[1..]);
      assert AllDated(bs, t) by {
        forall i | i in t ensures i < |bs| && IsDate(bs[i].expiryDate) {
          assert i in multiset(t);
          assert i in multiset(s[1..]);
          assert i in s;
        }
      }
      assert s[0] in s;
      InsertSorted(bs, s[0], t);
    }
  }

  lemma ConsInOrder(bs: seq<Batch>, y: nat, t: seq<nat>)
    requires y < |bs| && Indices(bs, t) && InOrder(bs, t)
    requires t != [] ==> Before(bs, y, t[0])
    ensures Indices(bs, [y] + t) && InOrder(bs, [y] + t)
  {
    var r := [y] + t;
    forall p | 0 <= p < |r| - 1 ensures Before(bs, r[p], r[p + 1]) {
      if p > 0 {
        assert r[p] == t[p - 1] && r[p + 1] == t[p];
      }
    }
  }

  lemma ConsDistinct(y: nat, t: seq<nat>)
    requires Distinct(t) && y !in t
    ensures Distinct([y] + t)
  {
    var r := [y] + t;
    forall p, p' | 0 <= p < p' < |r| ensures r[p] != r[p'] {
      if p > 0 {
        assert r[p] == t[p - 1] && r[p'] == t[p' - 1];
      } else {
        assert r[p'] == t[p' - 1];
      }
    }
  }

  lemma TailDistinctInOrder(bs: seq<Batch>, s: seq<nat>)
    requires Indices(bs, s) && Distinct(s) && InOrder(bs, s) && s != []
    ensures Indices(bs, s[1..]) && Distinct(s[1..]) && InOrder(bs, s[1..]) && s[0] !in s[1..]
  {
    forall p | 0 <= p < |s[1..]| ensures s[1..][p] == s[p + 1] { }
  }

  /** Inserting a new position keeps the entries distinct and every neighbouring pair in order. */
  lemma {:induction false} InsertInOrder(bs: seq<Batch>, x: nat, s: seq<nat>)
    requires x < |bs| && Indices(bs, s) && Distinct(s) && InOrder(bs, s) && x !in s
    ensures Distinct(Insert(bs, x, s)) && InOrder(bs, Insert(bs, x, s))
  {
    if s == [] {
    } else if Before(bs, x, s[0]) {
      ConsInOrder(bs, x, s);
      ConsDistinct(x, s);
    } else {
      var t := Insert(bs, x, s[1..]);
      assert s[0] in s;
      BeforeTotal(bs, x, s[0]);
      TailDistinctInOrder(bs, s);
      InsertInOrder(bs, x, s[1..]);
      assert s[0] !in t by {
        assert s[0] !in multiset(s[1..]);
        assert s[0] !in multiset(t);
      }
      assert Before(bs, s[0], t[0]) by {
        if t[0] != x {
          assert s[1] == s[1..][0];
        }
      }
      ConsInOrder(bs, s[0], t);
      ConsDistinct(s[0], t);
    }
  }

  /** Whatever the expiries, the sort keeps positions distinct and leaves no neighbouring pair out of order. */
  lemma {:induction false} SortInOrder(bs: seq<Batch>, s: seq<nat>)
    requires Indices(bs, s) && Distinct(s)
    ensures Distinct(SortByExpiry(bs, s)) && InOrder(bs, SortByExpiry(bs, s))
  {
    if s != [] {
      HeadNotInSortedTail(bs, s);
      SortInOrder(bs, s[1..]);
      InsertInOrder(bs, s[0], SortByExpiry(bs, s[1..]));
    }
  }

  /**
   * The visiting order of the deduction loop: each batch with stock once, no
   * neighbour out of order under the comparator and, when every batch with
   * stock is dated, earliest expiry first with ties in position order.
   */
  function FefoOrder(bs: seq<Batch>): (r: seq<nat>)
    ensures Indices(bs, r) && multiset(r) == multiset(InStock(bs, 0))
    ensures Distinct(r) && InOrder(bs, r)
    ensures StockedDated(bs) ==> Sorted(bs, r)
  {
    var s := InStock(bs, 0);
    assert Distinct(s);
    SortInOrder(bs, s);
    DatedInStockSorted(bs);
    SortByExpiry(bs, s)
  }

  lemma DatedInStockSorted(bs: seq<Batch>)
    ensures StockedDated(bs) ==> Sorted(bs, SortByExpiry(bs, InStock(bs, 0)))
  {
    var s := InStock(bs, 0);
    if StockedDated(bs) {
      assert Distinct(s);
      assert AllDated(bs, s) by {
        forall i | i in s ensures i < |bs| && IsDate(bs[i].expiryDate) {
          var p :| 0 <= p < |s| && s[p] == i;
        }
      }
      SortSorted(bs, s);
    }
  }

  /**
   * Two batches with stock, one of them undated: the comparator calls them
   * equal, and the stable sort keeps them where they are.
   */
  lemma UndatedKeepsPlace(bs: seq<Batch>)
    requires |bs| == 2 && bs[0].stock > 0 && bs[1].stock > 0
    requires !IsDate(bs[0].expiryDate) || !IsDate(bs[1].expiryDate)
    ensures FefoOrder(bs) == [0, 1]
  {
    assert !DateBefore(bs[1].expiryDate, bs[0].expiryDate);
    BothInStock(bs);
    SortPair(bs);
  }

  /**
   * With one of two stocked batches undated, a request the first batch can
   * meet is taken from the first batch alone.
   */
  lemma UndatedPairTakesFirst(bs: seq<Batch>, q: int)
    requires |bs| == 2 && bs[0].stock > 0 && bs[1].stock > 0
    requires !IsDate(bs[0].expiryDate) || !IsDate(bs[1].expiryDate)
    requires 0 < q <= bs[0].stock
    ensures Deduct(bs, FefoOrder(bs), q) == bs[0 := bs[0].(stock := bs[0].stock - q)]
  {
    UndatedKeepsPlace(bs);
    DeductFirstOfPair(bs, q);
  }

  lemma DeductFirstOfPair(bs: seq<Batch>, q: int)
    requires |bs| == 2 && 0 < q <= bs[0].stock
    ensures Deduct(bs, [0, 1], q) == bs[0 := bs[0].(stock := bs[0].stock - q)]
  {
    var bs' := bs[0 := bs[0].(stock := bs[0].stock - q)];
    assert [0, 1][1..] == [1];
    assert Min(q, bs[0].stock) == q;
    assert Deduct(bs', [1], 0) == bs';
  }

  lemma BothInStock(bs: seq<Batch>)
    requires |bs| == 2 && bs[0].stock > 0 && bs[1].stock > 0
    ensures InStock(bs, 0) == [0, 1]
  {
    assert InStock(bs, 2) == [];
    assert InStock(bs, 1) == [1];
  }

  lemma SortPair(bs: seq<Batch>)
    requires |bs| == 2 && Before(bs, 0, 1)
    ensures SortByExpiry(bs, [0, 1]) == [0, 1]
  {
    assert [0, 1][1..] == [1] && [1][1..] == [];
    assert SortByExpiry(bs, [1]) == Insert(bs, 1, []) == [1];
  }

  // ---------------------------------------------------------------- deduction

  /**
   * The inner `for ... of sortedBatches` loop: stop once nothing is left to
   * deduct, otherwise take min(remaining, stock) from the next batch.
   */
  function Deduct(bs: seq<Batch>, order: seq<nat>, q: int): (r: seq<Batch>)
    requires Indices(bs, order)
    ensures |r| == |bs|
    decreases |order|
  {
    if order == [] || q <= 0 then bs
    else
      var i := order[0];
      var d := Min(q, bs[i].stock);
      Deduct(bs[i := bs[i].(stock := bs[i].stock - d)], order[1..], q - d)
  }

  /** The entry recording that d units were taken from batch b. */
  function DeductEntry(b: Batch, d: int, itemName: string, actor: User, now: string): (e: LogEntry)
    ensures e.action == "INVENTORY_UPDATE" && e.details.StockMoved? && e.details.reason == Requisitioned
    ensures e.details.quantity == d && e.details.from == b.stock && e.details.to == b.stock - d
  {
    CreateLog(actor, now, "INVENTORY_UPDATE", StockMoved(Requisitioned, itemName, b.batchNumber, d, b.stock, b.stock - d))
  }

  /** The [REQUISITION] entries the inner loop records, one per visited batch. */
  function DeductLogs(bs: seq<Batch>, order: seq<nat>, q: int, itemName: string,
                      actor: User, now: string): (logs: seq<LogEntry>)
    requires Indices(bs, order)
    ensures |logs| <= |order|
    ensures q <= 0 ==> logs == []
    decreases |order|
  {
    if order == [] || q <= 0 then []
    else
      var i := order[0];
      var d := Min(q, bs[i].stock);
      [DeductEntry(bs[i], d, itemName, actor, now)]
      + DeductLogs(bs[i := bs[i].(stock := bs[i].stock - d)], order[1..], q - d, itemName, actor, now)
  }

  /** Positions visited at most once and all holding stock: what `FefoOrder` yields. */
  predicate GoodOrder(bs: seq<Batch>, order: seq<nat>)
  {
    Indices(bs, order) &&
    (forall p, p' :: 0 <= p < p' < |order| ==> order[p] != order[p']) &&
    (forall p :: 0 <= p < |order| ==> bs[order[p]].stock > 0)
  }

  lemma FefoOrderGood(bs: seq<Batch>)
    ensures GoodOrder(bs, FefoOrder(bs))
  {
    PermutedInStock(bs, InStock(bs, 0), FefoOrder(bs));
  }

  /** A rearrangement of in-stock positions visits only in-stock batches. */
  lemma PermutedInStock(bs: seq<Batch>, s: seq<nat>, r: seq<nat>)
    requires forall p :: 0 <= p < |s| ==> s[p] < |bs| && bs[s[p]].stock > 0
    requires Indices(bs, r) && multiset(r) == multiset(s)
    ensures forall p :: 0 <= p < |r| ==> bs[r[p]].stock > 0
  {
    forall p | 0 <= p < |r| ensures bs[r[p]].stock > 0 {
      assert r[p] in multiset(r);
      assert r[p] in multiset(s);
      var k :| 0 <= k < |s| && s[k] == r[p];
    }
  }

  /** `Σ stock` over the visited positions. */
  function Available(bs: seq<Batch>, order: seq<nat>): int
    requires Indices(bs, order)
  {
    if order == [] then 0 else bs[order[0]].stock + Available(bs, order[1..])
  }

  lemma {:induction false} AvailableUnaffected(bs: seq<Batch>, order: seq<nat>, i: nat, b: Batch)
    requires Indices(bs, order) && i < |bs| && i !in order
    ensures Available(bs[i := b], order) == Available(bs, order)
  {
    if order != [] {
      AvailableUnaffected(bs, order[1..], i, b);
    }
  }

  lemma HeadNotInTail(order: seq<nat>)
    requires order != [] && Distinct(order)
    ensures order[0] !in order[1..]
  {
    forall k | 0 <= k < |order[1..]| ensures order[1..][k] != order[0] {
      assert order[1..][k] == order[k + 1];
    }
  }

  /**
   * What the loop takes in total: the requested quantity when enough is in
   * stock, otherwise everything available; nothing for a non-positive request.
   */
  lemma {:induction false} DeductTotal(bs: seq<Batch>, order: seq<nat>, q: int)
    requires GoodOrder(bs, order)
    ensures Stock.TotalStock(Deduct(bs, order, q))
      == Stock.TotalStock(bs) - (if q <= 0 then 0 else Min(q, Available(bs, order)))
    decreases |order|
  {
    if order != [] && q > 0 {
      var i := order[0];
      var d := Min(q, bs[i].stock);
      var b := bs[i].(stock := bs[i].stock - d);
      var bs' := bs[i := b];
      Stock.TotalStockUpdate(bs, i, b);
      HeadNotInTail(order);
      AvailableUnaffected(bs, order[1..], i, b);
      AvailableNonNegative(bs, order[1..]);
      assert GoodOrder(bs', order[1..]);
      DeductTotal(bs', order[1..], q - d);
    }
  }

  lemma {:induction false} AvailableNonNegative(bs: seq<Batch>, order: seq<nat>)
    requires Indices(bs, order) && forall p :: 0 <= p < |order| ==> bs[order[p]].stock > 0
    ensures Available(bs, order) >= 0
  {
    if order != [] {
      AvailableNonNegative(bs, order[1..]);
    }
  }

  /** Only visited batches change, and of those only the stock. */
  lemma {:induction false} DeductFrame(bs: seq<Batch>, order: seq<nat>, q: int)
    requires Indices(bs, order)
    ensures forall j :: 0 <= j < |bs| && j !in order ==> Deduct(bs, order, q)[j] == bs[j]
    ensures forall j :: 0 <= j < |bs| ==>
      Deduct(bs, order, q)[j] == bs[j].(stock := Deduct(bs, order, q)[j].stock)
    decreases |order|
  {
    if order != [] && q > 0 {
      var i := order[0];
      var d := Min(q, bs[i].stock);
      var bs' := bs[i := bs[i].(stock := bs[i].stock - d)];
      DeductFrame(bs', order[1..], q - d);
    }
  }

  /** A visited batch ends between zero and its old level. */
  lemma {:induction false} DeductBounds(bs: seq<Batch>, order: seq<nat>, q: int)
    requires GoodOrder(bs, order)
    ensures forall p :: 0 <= p < |order| ==>
      0 <= Deduct(bs, order, q)[order[p]].stock <= bs[order[p]].stock
    decreases |order|
  {
    if order != [] && q > 0 {
      var i := order[0];
      var d := Min(q, bs[i].stock);
      var bs' := bs[i := bs[i].(stock := bs[i].stock - d)];
      var rest := order[1..];
      HeadNotInTail(order);
      assert GoodOrder(bs', rest);
      DeductBounds(bs', rest, q - d);
      DeductFrame(bs', rest, q - d);
      forall p | 0 < p < |order| ensures order[p] == rest[p - 1] && order[p] != i {
        assert order[p] in rest;
      }
    }
  }

  /** A later batch is touched only once every earlier batch in the order is empty. */
  lemma {:induction false} DeductEarliestFirst(bs: seq<Batch>, order: seq<nat>, q: int)
    requires GoodOrder(bs, order)
    ensures forall p, p' ::
      (0 <= p < p' < |order| && Deduct(bs, order, q)[order[p']].stock < bs[order[p']].stock) ==>
      Deduct(bs, order, q)[order[p]].stock == 0
    decreases |order|
  {
    if order != [] && q > 0 {
      var i := order[0];
      var d := Min(q, bs[i].stock);
      var bs' := bs[i := bs[i].(stock := bs[i].stock - d)];
      var rest := order[1..];
      var r := Deduct(bs, order, q);
      HeadNotInTail(order);
      assert GoodOrder(bs', rest);
      DeductFrame(bs', rest, q - d);
      forall p | 0 < p < |order| ensures order[p] == rest[p - 1] && order[p] != i {
        assert order[p] in rest;
      }
      if q - d > 0 {
        DeductEarliestFirst(bs', rest, q - d);
        assert r[i].stock == 0;
      } else {
        assert r == bs';
      }
    }
  }

  // ------------------------------------------------------- what is available

  /** The stock of the batch at a position, as a function for `Seqs.Sum`. */
  function StockFn(bs: seq<Batch>): nat -> int
  {
    (i: nat) => if i < |bs| then bs[i].stock else 0
  }

  lemma {:induction false} AvailableIsSum(bs: seq<Batch>, order: seq<nat>)
    requires Indices(bs, order)
    ensures Available(bs, order) == Sum(order, StockFn(bs))
  {
    if order != [] {
      AvailableIsSum(bs, order[1..]);
    }
  }

  /** Stock held by the batches from lo on that have any (`stock > 0`). */
  function InStockFrom(bs: seq<Batch>, lo: nat): int
    decreases |bs| - lo
  {
    if lo >= |bs| then 0
    else (if bs[lo].stock > 0 then bs[lo].stock else 0) + InStockFrom(bs, lo + 1)
  }

  lemma {:induction false} InStockSum(bs: seq<Batch>, lo: nat)
    ensures Sum(InStock(bs, lo), StockFn(bs)) == InStockFrom(bs, lo)
    decreases |bs| - lo
  {
    if lo < |bs| {
      InStockSum(bs, lo + 1);
      if bs[lo].stock > 0 {
        assert ([lo] + InStock(bs, lo + 1))[1..] == InStock(bs, lo + 1);
      }
    }
  }

  /** The visiting order covers exactly the stock on hand. */
  lemma FefoAvailable(bs: seq<Batch>)
    ensures Available(bs, FefoOrder(bs)) == InStockFrom(bs, 0)
  {
    var order := FefoOrder(bs);
    AvailableIsSum(bs, order);
    SumPermutation(order, InStock(bs, 0), StockFn(bs));
    InStockSum(bs, 0);
  }

  /**
   * Fulfilling one requested line from an item's batches removes
   * min(requested, stock on hand) in total, for a positive request.
   */
  lemma FefoTotal(bs: seq<Batch>, q: int)
    ensures Stock.TotalStock(Deduct(bs, FefoOrder(bs), q))
      == Stock.TotalStock(bs) - (if q <= 0 then 0 else Min(q, InStockFrom(bs, 0)))
  {
    FefoOrderGood(bs);
    DeductTotal(bs, FefoOrder(bs), q);
    FefoAvailable(bs);
  }

  // ------------------------------------------------------------------- loop

  /** One pass of the deduction loop: take what batch `order[p]` can give, and log it. */
  method DeductOne(bs: seq<Batch>, order: seq<nat>, p: nat, q: int, itemName: string,
                   actor: User, now: string) returns (bs': seq<Batch>, q': int, entry: LogEntry)
    requires Indices(bs, order) && p < |order| && q > 0
    ensures |bs'| == |bs| && Indices(bs', order) && Indices(bs', order[p + 1..])
    ensures Deduct(bs', order[p + 1..], q') == Deduct(bs, order[p..], q)
    ensures [entry] + DeductLogs(bs', order[p + 1..], q', itemName, actor, now)
      == DeductLogs(bs, order[p..], q, itemName, actor, now)
  {
    var i := order[p];
    var d := Min(q, bs[i].stock);
    var oldStock := bs[i].stock;
    entry := CreateLog(actor, now, "INVENTORY_UPDATE",
      StockMoved(Requisitioned, itemName, bs[i].batchNumber, d, oldStock, oldStock - d));
    bs' := bs[i := bs[i].(stock := oldStock - d)];
    q' := q - d;
    assert Indices(bs', order[p + 1..]) && Deduct(bs', order[p + 1..], q') == Deduct(bs, order[p..], q) by {
      DeductCons(bs, order[p..], q, i, d, bs', order[p + 1..]);
    }
    assert [entry] + DeductLogs(bs', order[p + 1..], q', itemName, actor, now)
        == DeductLogs(bs, order[p..], q, itemName, actor, now) by {
      DeductLogsCons(bs, order[p..], q, i, d, bs', order[p + 1..], itemName, actor, now, entry);
    }
  }

  /** One step of the deduction on the head i of a non-empty order takes d and leaves bs'. */
  lemma DeductCons(bs: seq<Batch>, order: seq<nat>, q: int, i: nat, d: int, bs': seq<Batch>, tail: seq<nat>)
    requires Indices(bs, order) && order != [] && q > 0
    requires i == order[0] && tail == order[1..]
    requires d == Min(q, bs[i].stock) && bs' == bs[i := bs[i].(stock := bs[i].stock - d)]
    ensures Indices(bs', tail)
    ensures Deduct(bs, order, q) == Deduct(bs', tail, q - d)
  {
  }

  /** The same step records its entry in front of the entries of the rest. */
  lemma DeductLogsCons(bs: seq<Batch>, order: seq<nat>, q: int, i: nat, d: int, bs': seq<Batch>, tail: seq<nat>,
                       itemName: string, actor: User, now: string, entry: LogEntry)
    requires Indices(bs, order) && order != [] && q > 0
    requires i == order[0] && tail == order[1..]
    requires d == Min(q, bs[i].stock) && bs' == bs[i := bs[i].(stock := bs[i].stock - d)]
    requires entry == DeductEntry(bs[i], d, itemName, actor, now)
    ensures Indices(bs', tail)
    ensures DeductLogs(bs, order, q, itemName, actor, now) == [entry] + DeductLogs(bs', tail, q - d, itemName, actor, now)
  {
  }

  /**
   * `for (const batch of sortedBatches) { if (quantityToDeduct <= 0) break; ... }`
   * over an item's batches in the given order.
   */
  method DeductInOrder(bs0: seq<Batch>, order: seq<nat>, q0: int, itemName: string,
                       actor: User, now: string) returns (bs: seq<Batch>, logs: seq<LogEntry>)
    requires Indices(bs0, order)
    ensures bs == Deduct(bs0, order, q0)
    ensures logs == DeductLogs(bs0, order, q0, itemName, actor, now)
  {
    bs, logs := bs0, [];
    var q := q0;
    var p := 0;
    while p < |order|
      invariant 0 <= p <= |order| && |bs| == |bs0| && Indices(bs, order)
      invariant Indices(bs, order[p..])
      invariant Deduct(bs, order[p..], q) == Deduct(bs0, order, q0)
      invariant logs + DeductLogs(bs, order[p..], q, itemName, actor, now)
        == DeductLogs(bs0, order, q0, itemName, actor, now)
    {
      if q <= 0 {
        break;
      }
      ghost var logs0 := logs;
      var entry;
      bs, q, entry := DeductOne(bs, order, p, q, itemName, actor, now);
      logs := logs + [entry];
      Stock.ConcatAssoc(logs0, [entry], DeductLogs(bs, order[p + 1..], q, itemName, actor, now));
      p := p + 1;
    }
    assert order[|order|..] == [];
  }

  // ------------------------------------------------------ per requested line

  /**
   * One requested line of a fulfilled requisition: find the item (skip the
   * line when it is missing) and deduct earliest-expiry-first from it.
   */
  function FulfilLine(inv: seq<Item>, ri: RequisitionItem): seq<Item>
  {
    match Stock.FindItem(inv, ri.itemId)
    case None => inv
    case Some(i) =>
      var bs := inv[i].batches;
      inv[i := inv[i].(batches := Deduct(bs, FefoOrder(bs), ri.quantity))]
  }

  function FulfilLineLogs(inv: seq<Item>, ri: RequisitionItem, actor: User, now: string): seq<LogEntry>
  {
    match Stock.FindItem(inv, ri.itemId)
    case None => []
    case Some(i) =>
      var bs := inv[i].batches;
      DeductLogs(bs, FefoOrder(bs), ri.quantity, ri.itemName, actor, now)
  }

  function FulfilAll(inv: seq<Item>, items: seq<RequisitionItem>): seq<Item>
    decreases items
  {
    if items == [] then inv else FulfilAll(FulfilLine(inv, items[0]), items[1..])
  }

  function FulfilLogs(inv: seq<Item>, items: seq<RequisitionItem>, actor: User, now: string): seq<LogEntry>
    decreases items
  {
    if items == [] then []
    else FulfilLineLogs(inv, items[0], actor, now) + FulfilLogs(FulfilLine(inv, items[0]), items[1..], actor, now)
  }

  /**
   * A requested line changes only the batches of the first item with its id:
   * that item's stock drops by min(requested, stock on hand) for a positive
   * request, no batch it had in stock goes negative, and an unknown item
   * leaves the inventory as it was.
   */
  lemma FulfilLineEffect(inv: seq<Item>, ri: RequisitionItem)
    ensures Stock.FindItem(inv, ri.itemId).None? ==> FulfilLine(inv, ri) == inv
    ensures Stock.FindItem(inv, ri.itemId).Some? ==>
      var i := Stock.FindItem(inv, ri.itemId).value;
      var r := FulfilLine(inv, ri);
      |r| == |inv| &&
      (forall j :: 0 <= j < |inv| && j != i ==> r[j] == inv[j]) &&
      r[i] == inv[i].(batches := r[i].batches) &&
      |r[i].batches| == |inv[i].batches| &&
      Stock.TotalStock(r[i].batches) == Stock.TotalStock(inv[i].batches)
        - (if ri.quantity <= 0 then 0 else Min(ri.quantity, InStockFrom(inv[i].batches, 0))) &&
      (forall j :: 0 <= j < |inv[i].batches| && inv[i].batches[j].stock > 0 ==> r[i].batches[j].stock >= 0)
  {
    var found := Stock.FindItem(inv, ri.itemId);
    if found.Some? {
      var i := found.value;
      var bs := inv[i].batches;
      var d := Deduct(bs, FefoOrder(bs), ri.quantity);
      assert FulfilLine(inv, ri) == inv[i := inv[i].(batches := d)];
      FefoTotal(bs, ri.quantity);
      FefoKeepsNonNegative(bs, ri.quantity);
    }
  }

  /** Deducting in expiry order leaves every batch that had stock non-negative. */
  lemma FefoKeepsNonNegative(bs: seq<Batch>, q: int)
    ensures forall j :: 0 <= j < |bs| && bs[j].stock > 0 ==> Deduct(bs, FefoOrder(bs), q)[j].stock >= 0
  {
    var order := FefoOrder(bs);
    FefoOrderGood(bs);
    DeductBounds(bs, order, q);
    forall j | 0 <= j < |bs| && bs[j].stock > 0
      ensures Deduct(bs, order, q)[j].stock >= 0
    {
      assert j in InStock(bs, 0);
      assert j in multiset(InStock(bs, 0));
      assert j in multiset(order);
      var p :| 0 <= p < |order| && order[p] == j;
    }
  }

  /** A batch with no stock on hand is never touched by a requested line. */
  lemma FulfilLineSkipsEmpty(inv: seq<Item>, ri: RequisitionItem)
    ensures Stock.FindItem(inv, ri.itemId).Some? ==>
      var i := Stock.FindItem(inv, ri.itemId).value;
      forall j :: 0 <= j < |inv[i].batches| && inv[i].batches[j].stock <= 0 ==>
        FulfilLine(inv, ri)[i].batches[j] == inv[i].batches[j]
  {
    var found := Stock.FindItem(inv, ri.itemId);
    if found.Some? {
      var bs := inv[found.value].batches;
      var order := FefoOrder(bs);
      FefoOrderGood(bs);
      DeductFrame(bs, order, ri.quantity);
    }
  }

  /** No batch anywhere holds negative stock. */
  ghost predicate NoNegativeStock(inv: seq<Item>)
  {
    forall i, j :: 0 <= i < |inv| && 0 <= j < |inv[i].batches| ==> inv[i].batches[j].stock >= 0
  }

  /**
   * Fulfilling requisition lines never drives a batch below zero: FEFO
   * deduction takes at most what each in-stock batch holds.
   */
  lemma {:induction false} FulfilAllKeepsNonNegative(inv: seq<Item>, items: seq<RequisitionItem>)
    requires NoNegativeStock(inv)
    ensures NoNegativeStock(FulfilAll(inv, items))
    decreases items
  {
    if items != [] {
      var next := FulfilLine(inv, items[0]);
      FulfilLineEffect(inv, items[0]);
      FulfilLineSkipsEmpty(inv, items[0]);
      assert NoNegativeStock(next);
      FulfilAllKeepsNonNegative(next, items[1..]);
    }
  }

  /** One requested line: find the item, order its batches, deduct. */
  method FulfilOne(inv0: seq<Item>, ri: RequisitionItem, actor: User, now: string)
    returns (inv: seq<Item>, entries: seq<LogEntry>)
    ensures inv == FulfilLine(inv0, ri)
    ensures entries == FulfilLineLogs(inv0, ri, actor, now)
  {
    inv, entries := inv0, [];
    var found := Stock.FindItem(inv0, ri.itemId);
    if found.Some? {
      var i := found.value;
      var order := FefoOrder(inv0[i].batches);
      var batches;
      batches, entries := DeductInOrder(inv0[i].batches, order, ri.quantity, ri.itemName, actor, now);
      inv := inv0[i := inv0[i].(batches := batches)];
    }
  }

  /** The loop over a fulfilled requisition's lines, in order. */
  method FulfilRequest(inv0: seq<Item>, items: seq<RequisitionItem>, actor: User, now: string)
    returns (inv: seq<Item>, logs: seq<LogEntry>)
    ensures inv == FulfilAll(inv0, items)
    ensures logs == FulfilLogs(inv0, items, actor, now)
  {
    inv, logs := inv0, [];
    var k := 0;
    assert items[k..] == items;
    while k < |items|
      invariant 0 <= k <= |items|
      invariant FulfilAll(inv, items[k..]) == FulfilAll(inv0, items)
      invariant logs + FulfilLogs(inv, items[k..], actor, now) == FulfilLogs(inv0, items, actor, now)
    {
      ghost var logs0 := logs;
      var inv', entries := FulfilOne(inv, items[k], actor, now);
      ghost var rest := FulfilLogs(inv', items[k + 1..], actor, now);
      assert FulfilAll(inv, items[k..]) == FulfilAll(inv', items[k + 1..])
        && FulfilLogs(inv, items[k..], actor, now) == entries + rest by {
        FulfilUnroll(inv, items, k, inv', entries, actor, now);
      }
      assert (logs0 + entries) + rest == FulfilLogs(inv0, items, actor, now) by {
        Stock.ConcatAssoc(logs0, entries, rest);
      }
      inv, logs := inv', logs + entries;
      k := k + 1;
    }
    assert items[k..] == [];
  }

  /** One pass of the requisition loop unrolled: the line at k, then the rest from the new inventory. */
  lemma FulfilUnroll(inv: seq<Item>, items: seq<RequisitionItem>, k: nat, next: seq<Item>,
                     entries: seq<LogEntry>, actor: User, now: string)
    requires k < |items|
    requires next == FulfilLine(inv, items[k]) && entries == FulfilLineLogs(inv, items[k], actor, now)
    ensures FulfilAll(inv, items[k..]) == FulfilAll(next, items[k + 1..])
    ensures FulfilLogs(inv, items[k..], actor, now) == entries + FulfilLogs(next, items[k + 1..], actor, now)
  {
    assert items[k..][0] == items[k] && items[k..][1..] == items[k + 1..];
  }
}
