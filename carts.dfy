/** Cart arithmetic.  The ledger totals a cart in three different ways:
    `OrderTotal` skips DELETED and VOIDED items, `UpdateCart`, `Fetch` and
    `FetchAll` count only pending items, and the receipt merge skips only
    DELETED items.  Carts gathered from several orders are built with Go's
    `append`, which keeps a nil slice nil when nothing is appended. */
module Carts {
  import opened Db

  function Amount(i: Item): real {
    i.quantity * i.price
  }

  /** The items `OrderTotal` counts. */
  predicate Live(i: Item) {
    i.state != DELETED && i.state != VOIDED
  }

  /** The items `UpdateCart`, `Fetch` and `FetchAll` count. */
  predicate Pending(i: Item) {
    i.state == PENDING
  }

  /** The items the merged receipt total counts. */
  predicate Undeleted(i: Item) {
    i.state != DELETED
  }

  predicate Voided(i: Item) {
    i.state == VOIDED
  }

  /** The sum of quantity × price over the items satisfying `p`. */
  function SumWhere(items: seq<Item>, p: Item -> bool): real
    decreases |items|
  {
    if |items| == 0 then 0.0
    else SumWhere(items[..|items| - 1], p) + (if p(items[|items| - 1]) then Amount(items[|items| - 1]) else 0.0)
  }

  function LiveTotal(items: seq<Item>): real {
    SumWhere(items, Live)
  }

  function PendingTotal(items: seq<Item>): real {
    SumWhere(items, Pending)
  }

  function UndeletedTotal(items: seq<Item>): real {
    SumWhere(items, Undeleted)
  }

  /** The items satisfying `p`, in cart order. */
  function Filter(items: seq<Item>, p: Item -> bool): (r: seq<Item>)
    ensures |r| <= |items|
    ensures forall k :: 0 <= k < |r| ==> p(r[k]) && r[k] in items
    decreases |items|
  {
    if |items| == 0 then []
    else
      var init := Filter(items[..|items| - 1], p);
      if p(items[|items| - 1]) then init + [items[|items| - 1]] else init
  }

  lemma {:induction false} SumWhereAppend(a: seq<Item>, b: seq<Item>, p: Item -> bool)
    ensures SumWhere(a + b, p) == SumWhere(a, p) + SumWhere(b, p)
    decreases |b|
  {
    if |b| == 0 {
      assert a + b == a;
    } else {
      var b' := b[..|b| - 1];
      SumWhereAppend(a, b', p);
      assert (a + b)[..|a + b| - 1] == a + b';
    }
  }

  /** Filtering keeps exactly the items satisfying `p`, so the total over the kept items is the filtered total. */
  lemma {:induction false} FilterKeeps(items: seq<Item>, p: Item -> bool)
    ensures forall x :: x in items && p(x) ==> x in Filter(items, p)
    ensures SumWhere(Filter(items, p), p) == SumWhere(items, p)
    ensures SumWhere(Filter(items, p), (x: Item) => true) == SumWhere(items, p)
    decreases |items|
  {
    if |items| > 0 {
      var init := items[..|items| - 1];
      var last := items[|items| - 1];
      FilterKeeps(init, p);
      assert items == init + [last];
      if p(last) {
        var f := Filter(init, p) + [last];
        assert f[..|f| - 1] == Filter(init, p);
      }
    }
  }

  /** When every state is pending or DELETED the three totals agree. */
  lemma {:induction false} TotalsAgree(items: seq<Item>)
    requires forall k :: 0 <= k < |items| ==> items[k].state == PENDING || items[k].state == DELETED
    ensures LiveTotal(items) == PendingTotal(items) == UndeletedTotal(items)
    decreases |items|
  {
    if |items| > 0 {
      TotalsAgree(items[..|items| - 1]);
    }
  }

  /** The merge total exceeds the order total by exactly the VOIDED items. */
  lemma {:induction false} UndeletedCountsVoided(items: seq<Item>)
    ensures UndeletedTotal(items) == LiveTotal(items) + SumWhere(items, Voided)
    decreases |items|
  {
    if |items| > 0 {
      UndeletedCountsVoided(items[..|items| - 1]);
    }
  }

  /** `OrderTotal`: the sum over the items that are neither DELETED nor VOIDED; an empty or nil cart totals 0. */
  method OrderTotal(order: seq<Item>) returns (total: real)
    ensures total == LiveTotal(order)
  {
    total := 0.0;
    var i := 0;
    while i < |order|
      invariant 0 <= i <= |order|
      invariant total == SumWhere(order[..i], Live)
    {
      assert order[..i + 1][..i] == order[..i];
      var itm := order[i];
      if itm.state != DELETED && itm.state != VOIDED {
        total := total + itm.quantity * itm.price;
      }
      i := i + 1;
    }
    assert order[..|order|] == order;
  }

  /** The total loop of `UpdateCart` and `FetchAll`. */
  method PendingTotalOf(cart: seq<Item>) returns (total: real)
    ensures total == PendingTotal(cart)
  {
    total := 0.0;
    var i := 0;
    while i < |cart|
      invariant 0 <= i <= |cart|
      invariant total == SumWhere(cart[..i], Pending)
    {
      assert cart[..i + 1][..i] == cart[..i];
      if cart[i].state == PENDING {
        total := total + cart[i].quantity * cart[i].price;
      }
      i := i + 1;
    }
    assert cart[..|cart|] == cart;
  }

  /** The loop of `Fetch`: keeps the pending items and totals them. */
  method PendingCart(cart: seq<Item>) returns (kept: seq<Item>, total: real)
    ensures kept == Filter(cart, Pending)
    ensures total == PendingTotal(cart)
  {
    kept, total := [], 0.0;
    var i := 0;
    while i < |cart|
      invariant 0 <= i <= |cart|
      invariant kept == Filter(cart[..i], Pending)
      invariant total == SumWhere(cart[..i], Pending)
    {
      assert cart[..i + 1][..i] == cart[..i];
      var item := cart[i];
      if item.state == PENDING {
        total := total + item.price * item.quantity;
        kept := kept + [item];
      }
      i := i + 1;
    }
    assert cart[..|cart|] == cart;
  }

  /** The total loop of `CombineReceiptsContext`. */
  method UndeletedTotalOf(cart: seq<Item>) returns (total: real)
    ensures total == UndeletedTotal(cart)
  {
    total := 0.0;
    var i := 0;
    while i < |cart|
      invariant 0 <= i <= |cart|
      invariant total == SumWhere(cart[..i], Undeleted)
    {
      assert cart[..i + 1][..i] == cart[..i];
      if cart[i].state != DELETED {
        total := total + cart[i].quantity * cart[i].price;
      }
      i := i + 1;
    }
    assert cart[..|cart|] == cart;
  }

  /** Go's `append(c, xs...)` on a possibly nil slice. */
  function GoAppend(c: Option<seq<Item>>, xs: seq<Item>): (r: Option<seq<Item>>)
    ensures r.GetOr([]) == c.GetOr([]) + xs
    ensures r.None? <==> c.None? && |xs| == 0
  {
    if |xs| == 0 then c else Some(c.GetOr([]) + xs)
  }

  /** The items of an order row; a NULL column reads as `[]` (`coalesce(order_items, '[]')`). */
  function ItemsOf(row: OrderRow): seq<Item> {
    row.items.GetOr([])
  }

  /** The cart built by appending, row by row, the items of the order rows
      satisfying `p`, starting from a nil slice. */
  function Gather(rows: seq<OrderRow>, p: OrderRow -> bool): Option<seq<Item>>
    decreases |rows|
  {
    if |rows| == 0 then None
    else
      var last := rows[|rows| - 1];
      GoAppend(Gather(rows[..|rows| - 1], p), if p(last) then ItemsOf(last) else [])
  }

  /** The concatenated items of the order rows satisfying `p`. */
  function Flatten(rows: seq<OrderRow>, p: OrderRow -> bool): seq<Item>
    decreases |rows|
  {
    if |rows| == 0 then []
    else if p(rows[0]) then ItemsOf(rows[0]) + Flatten(rows[1..], p)
    else Flatten(rows[1..], p)
  }

  lemma {:induction false} FlattenSnoc(rows: seq<OrderRow>, r: OrderRow, p: OrderRow -> bool)
    ensures Flatten(rows + [r], p) == Flatten(rows, p) + (if p(r) then ItemsOf(r) else [])
    decreases |rows|
  {
    if |rows| == 0 {
      assert [r][1..] == [];
    } else {
      FlattenSnoc(rows[1..], r, p);
      assert (rows + [r])[1..] == rows[1..] + [r];
    }
  }

  /** The gathered cart holds the concatenated items, and stays nil exactly when
      no selected row contributes an item. */
  lemma {:induction false} GatherFlattens(rows: seq<OrderRow>, p: OrderRow -> bool)
    ensures Gather(rows, p).GetOr([]) == Flatten(rows, p)
    ensures Gather(rows, p).None? <==> |Flatten(rows, p)| == 0
    decreases |rows|
  {
    if |rows| > 0 {
      var init := rows[..|rows| - 1];
      GatherFlattens(init, p);
      FlattenSnoc(init, rows[|rows| - 1], p);
      assert rows == init + [rows[|rows| - 1]];
    }
  }

  /** The row loop shared by `FetchPayingOrderItems`, `CombineOrdersInBill` and
      `GetNewOrderItems`: `cart = append(cart, items...)` over the selected rows. */
  method CollectItems(rows: seq<OrderRow>, p: OrderRow -> bool) returns (cart: Option<seq<Item>>)
    ensures cart == Gather(rows, p)
  {
    cart := None;
    var i := 0;
    while i < |rows|
      invariant 0 <= i <= |rows|
      invariant cart == Gather(rows[..i], p)
    {
      assert rows[..i + 1][..i] == rows[..i];
      var val := if p(rows[i]) then ItemsOf(rows[i]) else [];
      if |val| > 0 {
        cart := Some(cart.GetOr([]) + val);
      }
      i := i + 1;
    }
    assert rows[..|rows|] == rows;
  }
}
