/** Sales orders (`salesorders`): opening an order for a poster's till and
    receipt, adding and deleting items, completing it into a kitchen voucher,
    and handing it to payment through the `sales_live` ledger. */
module Orders {
  import opened Text
  import opened Db
  import opened Numbering
  import opened Carts

  /** The `users` table, by username. */
  type Directory = map<string, User>

  /** The `branches` table: branch name to (company_id, branch_id). */
  type Branches = map<string, (nat, nat)>

  /** A cart returned together with its total. */
  datatype CartTotal = CartTotal(cart: seq<Item>, total: real)

  /** The state CompleteOrder gives an order: 'ordered' when the kitchen
      dispatches its own orders, 'dispatched' otherwise. */
  function CompletedState(productionDisp: bool): string {
    if productionDisp then ORDERED else DISPATCHED
  }

  // ---------------------------------------------------------------------
  // Opening an order

  /** The orders NextOrder looks at: pending, on the poster's till, on the receipt. */
  predicate OpenOrderOf(row: OrderRow, till: int, receipt: int) {
    row.state == PENDING && row.tillNum == till && row.receiptNum == receipt
  }

  /** `coalesce(max(order_num), 0)` over the poster's open orders on the receipt. */
  function NextOrderNum(rows: seq<OrderRow>, users: Directory, poster: string, receipt: int): (n: int)
    ensures poster !in users ==> n == 0
    ensures poster in users ==>
      var till := users[poster].tillNum;
      (n == 0 && forall k :: 0 <= k < |rows| ==> !OpenOrderOf(rows[k], till, receipt)) ||
      ((exists k :: 0 <= k < |rows| && OpenOrderOf(rows[k], till, receipt) && rows[k].orderNum == n) &&
       (forall k :: 0 <= k < |rows| && OpenOrderOf(rows[k], till, receipt) ==> rows[k].orderNum <= n))
  {
    if poster in users then
      var till := users[poster].tillNum;
      MaxOf(rows, (r: OrderRow) => OpenOrderOf(r, till, receipt), (r: OrderRow) => r.orderNum).GetOr(0)
    else 0
  }

  /** `CONCAT(company_id, branch_id)` of the user's branch; empty when the branch is not listed. */
  function BranchCodeOf(branches: Branches, branch: string): (code: string)
    ensures AllDigits(code)
  {
    if branch in branches then BranchCode(branches[branch].0, branches[branch].1) else ""
  }

  /** The orders counted for the daily count: today's, of the user's company and branch. */
  predicate SameDayBranch(row: OrderRow, today: Date, user: User) {
    row.transDate == today && row.companyId == user.companyId && row.branch == user.branch
  }

  /** `coalesce(max(daily_count), 0) + 1` over today's orders of the user's company and branch. */
  function NextDailyCount(rows: seq<OrderRow>, today: Date, user: User): (c: nat)
    ensures c >= 1
    ensures forall k :: 0 <= k < |rows| && SameDayBranch(rows[k], today, user) ==> rows[k].dailyCount < c
  {
    var m := MaxOf(rows, (r: OrderRow) => SameDayBranch(r, today, user), (r: OrderRow) => r.dailyCount);
    if m.Some? then m.value + 1 else 1
  }

  /** The row NewOrder's INSERT writes, or `None` when the database rejects it:
      an unknown poster leaves `till_num` NULL, and an existing `order_num`
      violates the primary key.  Either rejection surfaces only through
      `rows.Err()`, which NewOrder never reads. */
  function NewOrderRow(rows: seq<OrderRow>, users: Directory, branches: Branches, today: Date,
                       poster: string, acNum: string, receipt: int): (r: Option<OrderRow>)
    requires ValidDate(today)
    ensures r.Some? ==> !HasOrder(rows, r.value.orderNum) && poster in users
    ensures r.Some? ==> r.value.state == PENDING && r.value.items.None? && r.value.receipt == 0
  {
    if poster !in users then None
    else
      var u := users[poster];
      var count := NextDailyCount(rows, today, u);
      var num := OrderNumber(today, BranchCodeOf(branches, u.branch), count);
      if HasOrder(rows, num) then None
      else Some(OrderRow(num, count, today, u.tillNum, poster, u.branch, u.companyId, acNum, receipt, 0, PENDING, None))
  }

  /** Within one branch the new number never repeats an earlier order of the
      day numbered by the same scheme: a key violation can only come from
      another branch (see `OrderNumberCollision`). */
  lemma NewOrderNumberFresh(rows: seq<OrderRow>, users: Directory, branches: Branches, today: Date,
                            poster: string, k: int)
    requires ValidDate(today) && poster in users && 0 <= k < |rows|
    requires SameDayBranch(rows[k], today, users[poster])
    requires rows[k].orderNum == OrderNumber(today, BranchCodeOf(branches, users[poster].branch), rows[k].dailyCount)
    ensures rows[k].orderNum != OrderNumber(today, BranchCodeOf(branches, users[poster].branch), NextDailyCount(rows, today, users[poster]))
  {
    var code := BranchCodeOf(branches, users[poster].branch);
    var c := NextDailyCount(rows, today, users[poster]);
    if rows[k].orderNum == OrderNumber(today, code, c) {
      OrderNumberInjective(today, today, code, rows[k].dailyCount, c);
    }
  }

  // ---------------------------------------------------------------------
  // Items

  /** `UPDATE salesorders SET order_items = cart WHERE order_num = num` */
  function SetItems(rows: seq<OrderRow>, num: int, cart: seq<Item>): seq<OrderRow> {
    UpdateWhere(rows, (r: OrderRow) => r.orderNum == num, (r: OrderRow) => r.(items := Some(cart)))
  }

  /** The item AddToOrder appends after `count` items: keyed by its position, state defaulted to pending. */
  function NewItem(args: Item, orderNum: int, count: nat): Item {
    args.(receiptItem := ItemKey(orderNum, count + 1), state := if args.state == "" then PENDING else args.state)
  }

  /** Every item of the order carries the key of its 1-based position. */
  predicate KeysFollowPositions(orderNum: int, items: seq<Item>) {
    forall k :: 0 <= k < |items| ==> items[k].receiptItem == ItemKey(orderNum, k + 1)
  }

  /** Appending keeps the prior items and the key scheme. */
  lemma AppendKeepsKeyScheme(orderNum: int, items: seq<Item>, args: Item)
    requires KeysFollowPositions(orderNum, items)
    ensures KeysFollowPositions(orderNum, items + [NewItem(args, orderNum, |items|)])
    ensures (items + [NewItem(args, orderNum, |items|)])[..|items|] == items
  {
  }

  /** Keys built by the scheme are pairwise distinct. */
  lemma KeySchemeDistinct(orderNum: int, items: seq<Item>)
    requires KeysFollowPositions(orderNum, items)
    ensures forall i, j :: 0 <= i < j < |items| ==> items[i].receiptItem != items[j].receiptItem
  {
    forall i, j | 0 <= i < j < |items|
      ensures items[i].receiptItem != items[j].receiptItem
    {
      ItemKeyInjective(orderNum, i + 1, j + 1);
    }
  }

  /** The cart after DelOrderItem's loop: pending items keyed `key` become DELETED. */
  function DeleteItem(items: seq<Item>, key: string): seq<Item> {
    UpdateWhere(items, (i: Item) => i.receiptItem == key && i.state == PENDING, (i: Item) => i.(state := DELETED))
  }

  /** Deleting changes only the pending items with the key, only their state,
      keeps the key scheme, and a second deletion changes nothing. */
  lemma DeleteItemFrame(orderNum: int, items: seq<Item>, key: string)
    ensures |DeleteItem(items, key)| == |items|
    ensures forall k :: 0 <= k < |items| && (items[k].receiptItem != key || items[k].state != PENDING) ==>
      DeleteItem(items, key)[k] == items[k]
    ensures forall k :: 0 <= k < |items| && items[k].receiptItem == key && items[k].state == PENDING ==>
      DeleteItem(items, key)[k] == items[k].(state := DELETED)
    ensures KeysFollowPositions(orderNum, items) ==> KeysFollowPositions(orderNum, DeleteItem(items, key))
    ensures DeleteItem(DeleteItem(items, key), key) == DeleteItem(items, key)
  {
  }

  /** The items a deletion of `key` removes from the order total. */
  function Deletable(key: string): Item -> bool {
    (i: Item) => i.receiptItem == key && i.state == PENDING
  }

  /** Deleting lowers the order total by exactly the deleted items. */
  lemma {:induction false} DeleteItemTotal(items: seq<Item>, key: string)
    ensures LiveTotal(DeleteItem(items, key)) == LiveTotal(items) - SumWhere(items, Deletable(key))
    decreases |items|
  {
    if |items| > 0 {
      var init := items[..|items| - 1];
      DeleteItemTotal(init, key);
      assert DeleteItem(items, key)[..|items| - 1] == DeleteItem(init, key);
    }
  }

  /** `OrdIsDeletable`: true exactly when the order exists and is pending. */
  function OrdIsDeletable(rows: seq<OrderRow>, num: int): (r: bool)
    requires OrderKeysUnique(rows)
    ensures r <==> exists k :: 0 <= k < |rows| && rows[k].orderNum == num && rows[k].state == PENDING
  {
    match FindOrder(rows, num)
    case None => false
    case Some(row) =>
      assert forall k :: 0 <= k < |rows| && rows[k].orderNum == num ==> rows[k] == row by {
        forall k | 0 <= k < |rows| && rows[k].orderNum == num ensures rows[k] == row {
          FindOrderUnique(rows, num, k);
        }
      }
      row.state == PENDING
  }

  // ---------------------------------------------------------------------
  // The kitchen voucher

  /** A line of the voucher: one group of pending items. */
  datatype VoucherLine = VoucherLine(itemName: string, quantity: real, price: real, total: real, orderNum: int, poster: string)

  /** The `GROUP BY items.item_name, items.price, items.order_num` key. */
  function ItemGroup(i: Item): (string, real, int) {
    (i.itemName, i.price, i.orderNum)
  }

  function LineGroup(l: VoucherLine): (string, real, int) {
    (l.itemName, l.price, l.orderNum)
  }

  /** Adds one pending item to its group, opening a group when there is none. */
  function AddToGroup(lines: seq<VoucherLine>, i: Item, poster: string): seq<VoucherLine>
    decreases |lines|
  {
    if |lines| == 0 then [VoucherLine(i.itemName, i.quantity, i.price, Amount(i), i.orderNum, poster)]
    else if LineGroup(lines[0]) == ItemGroup(i) then
      [lines[0].(quantity := lines[0].quantity + i.quantity, total := lines[0].total + Amount(i))] + lines[1..]
    else [lines[0]] + AddToGroup(lines[1..], i, poster)
  }

  /** VoucherCtx: the pending items grouped, with `SUM(quantity)` and
      `SUM(quantity * price)`; groups appear in the order of their first item. */
  function Voucher(items: seq<Item>, poster: string): seq<VoucherLine>
    decreases |items|
  {
    if |items| == 0 then []
    else
      var v := Voucher(items[..|items| - 1], poster);
      var last := items[|items| - 1];
      if Pending(last) then AddToGroup(v, last, poster) else v
  }

  /** Reference: the quantity of the pending items of group `g`. */
  function GroupQuantity(items: seq<Item>, g: (string, real, int)): real
    decreases |items|
  {
    if |items| == 0 then 0.0
    else
      var last := items[|items| - 1];
      GroupQuantity(items[..|items| - 1], g) + (if Pending(last) && ItemGroup(last) == g then last.quantity else 0.0)
  }

  /** Reference: the amount of the pending items of group `g`. */
  function GroupAmount(items: seq<Item>, g: (string, real, int)): real
    decreases |items|
  {
    if |items| == 0 then 0.0
    else
      var last := items[|items| - 1];
      GroupAmount(items[..|items| - 1], g) + (if Pending(last) && ItemGroup(last) == g then Amount(last) else 0.0)
  }

  function LineQuantity(lines: seq<VoucherLine>, g: (string, real, int)): real
    decreases |lines|
  {
    if |lines| == 0 then 0.0
    else (if LineGroup(lines[0]) == g then lines[0].quantity else 0.0) + LineQuantity(lines[1..], g)
  }

  function LineAmount(lines: seq<VoucherLine>, g: (string, real, int)): real
    decreases |lines|
  {
    if |lines| == 0 then 0.0
    else (if LineGroup(lines[0]) == g then lines[0].total else 0.0) + LineAmount(lines[1..], g)
  }

  predicate HasGroup(lines: seq<VoucherLine>, g: (string, real, int)) {
    exists j :: 0 <= j < |lines| && LineGroup(lines[j]) == g
  }

  predicate GroupsDistinct(lines: seq<VoucherLine>) {
    forall i, j :: 0 <= i < j < |lines| ==> LineGroup(lines[i]) != LineGroup(lines[j])
  }

  lemma {:induction false} AddToGroupSums(lines: seq<VoucherLine>, it: Item, poster: string, g: (string, real, int))
    ensures LineQuantity(AddToGroup(lines, it, poster), g) == LineQuantity(lines, g) + (if ItemGroup(it) == g then it.quantity else 0.0)
    ensures LineAmount(AddToGroup(lines, it, poster), g) == LineAmount(lines, g) + (if ItemGroup(it) == g then Amount(it) else 0.0)
    decreases |lines|
  {
    var r := AddToGroup(lines, it, poster);
    if |lines| == 0 {
      assert r[1..] == [];
    } else if LineGroup(lines[0]) == ItemGroup(it) {
      assert r[1..] == lines[1..];
    } else {
      AddToGroupSums(lines[1..], it, poster, g);
      assert r[1..] == AddToGroup(lines[1..], it, poster);
    }
  }

  lemma HasGroupConcat(a: seq<VoucherLine>, b: seq<VoucherLine>, g: (string, real, int))
    ensures HasGroup(a + b, g) <==> HasGroup(a, g) || HasGroup(b, g)
  {
    if HasGroup(a + b, g) {
      var j :| 0 <= j < |a + b| && LineGroup((a + b)[j]) == g;
      if j >= |a| {
        assert (a + b)[j] == b[j - |a|];
      }
    }
    if HasGroup(b, g) {
      var j :| 0 <= j < |b| && LineGroup(b[j]) == g;
      assert (a + b)[|a| + j] == b[j];
    }
    if HasGroup(a, g) {
      var j :| 0 <= j < |a| && LineGroup(a[j]) == g;
      assert (a + b)[j] == a[j];
    }
  }

  lemma {:induction false} AddToGroupKeys(lines: seq<VoucherLine>, it: Item, poster: string)
    ensures forall g :: HasGroup(AddToGroup(lines, it, poster), g) <==> HasGroup(lines, g) || ItemGroup(it) == g
    ensures GroupsDistinct(lines) ==> GroupsDistinct(AddToGroup(lines, it, poster))
    decreases |lines|
  {
    var r := AddToGroup(lines, it, poster);
    if |lines| == 0 {
      assert |r| == 1 && LineGroup(r[0]) == ItemGroup(it);
    } else if LineGroup(lines[0]) == ItemGroup(it) {
      assert forall j :: 0 <= j < |r| ==> LineGroup(r[j]) == LineGroup(lines[j]);
    } else {
      var rest := AddToGroup(lines[1..], it, poster);
      AddToGroupKeys(lines[1..], it, poster);
      assert r == [lines[0]] + rest;
      assert lines == [lines[0]] + lines[1..];
      forall g ensures HasGroup(r, g) <==> HasGroup(lines, g) || ItemGroup(it) == g {
        HasGroupConcat([lines[0]], rest, g);
        HasGroupConcat([lines[0]], lines[1..], g);
      }
      if GroupsDistinct(lines) {
        assert GroupsDistinct(lines[1..]);
        assert !HasGroup(lines[1..], LineGroup(lines[0])) by {
          forall m | 0 <= m < |lines[1..]| ensures LineGroup(lines[1..][m]) != LineGroup(lines[0]) {
            assert lines[1..][m] == lines[m + 1];
          }
        }
        assert !HasGroup(rest, LineGroup(lines[0]));
        forall i, j | 0 <= i < j < |r| ensures LineGroup(r[i]) != LineGroup(r[j]) {
          if i == 0 {
            assert r[j] == rest[j - 1];
          } else {
            assert r[i] == rest[i - 1] && r[j] == rest[j - 1];
          }
        }
      }
    }
  }

  lemma {:induction false} VoucherByGroup(items: seq<Item>, poster: string, g: (string, real, int))
    ensures LineQuantity(Voucher(items, poster), g) == GroupQuantity(items, g)
    ensures LineAmount(Voucher(items, poster), g) == GroupAmount(items, g)
    ensures HasGroup(Voucher(items, poster), g) <==> exists k :: 0 <= k < |items| && Pending(items[k]) && ItemGroup(items[k]) == g
    ensures GroupsDistinct(Voucher(items, poster))
    decreases |items|
  {
    if |items| > 0 {
      var init := items[..|items| - 1];
      var last := items[|items| - 1];
      VoucherByGroup(init, poster, g);
      assert forall k :: 0 <= k < |init| ==> init[k] == items[k];
      if Pending(last) {
        AddToGroupSums(Voucher(init, poster), last, poster, g);
        AddToGroupKeys(Voucher(init, poster), last, poster);
      }
    }
  }

  /** In a list of distinct groups, the per-group sums are the line's own figures. */
  lemma {:induction false} DistinctLineSums(lines: seq<VoucherLine>, j: int)
    requires GroupsDistinct(lines) && 0 <= j < |lines|
    ensures LineQuantity(lines, LineGroup(lines[j])) == lines[j].quantity
    ensures LineAmount(lines, LineGroup(lines[j])) == lines[j].total
    decreases |lines|
  {
    var g := LineGroup(lines[j]);
    if j == 0 {
      assert !HasGroup(lines[1..], g) by {
        forall m | 0 <= m < |lines[1..]| ensures LineGroup(lines[1..][m]) != g {
          assert lines[1..][m] == lines[m + 1];
        }
      }
      NoGroupSumsZero(lines[1..], g);
    } else {
      assert GroupsDistinct(lines[1..]);
      assert lines[1..][j - 1] == lines[j];
      DistinctLineSums(lines[1..], j - 1);
    }
  }

  lemma {:induction false} NoGroupSumsZero(lines: seq<VoucherLine>, g: (string, real, int))
    requires !HasGroup(lines, g)
    ensures LineQuantity(lines, g) == 0.0 && LineAmount(lines, g) == 0.0
    decreases |lines|
  {
    if |lines| > 0 {
      assert !HasGroup(lines[1..], g) by {
        forall m | 0 <= m < |lines[1..]| ensures LineGroup(lines[1..][m]) != g {
          assert lines[1..][m] == lines[m + 1];
        }
      }
      NoGroupSumsZero(lines[1..], g);
    }
  }

  /** The voucher has one line per group of pending items, and each line
      carries exactly the quantity and amount of its group. */
  lemma VoucherLinesAreGroupSums(items: seq<Item>, poster: string)
    ensures GroupsDistinct(Voucher(items, poster))
    ensures forall j :: 0 <= j < |Voucher(items, poster)| ==>
      Voucher(items, poster)[j].quantity == GroupQuantity(items, LineGroup(Voucher(items, poster)[j])) &&
      Voucher(items, poster)[j].total == GroupAmount(items, LineGroup(Voucher(items, poster)[j]))
    ensures forall k :: 0 <= k < |items| && Pending(items[k]) ==> HasGroup(Voucher(items, poster), ItemGroup(items[k]))
  {
    var v := Voucher(items, poster);
    VoucherByGroup(items, poster, ("", 0.0, 0));
    forall j | 0 <= j < |v|
      ensures v[j].quantity == GroupQuantity(items, LineGroup(v[j])) && v[j].total == GroupAmount(items, LineGroup(v[j]))
    {
      VoucherByGroup(items, poster, LineGroup(v[j]));
      DistinctLineSums(v, j);
    }
    forall k | 0 <= k < |items| && Pending(items[k])
      ensures HasGroup(v, ItemGroup(items[k]))
    {
      VoucherByGroup(items, poster, ItemGroup(items[k]));
    }
  }

  // ---------------------------------------------------------------------
  // Payment hand-over

  /** The `sales_live` rows SetOrderPay's INSERT ... ON CONFLICT (receipt_item)
      DO NOTHING leaves: each item is added under `receipt` unless its key is
      already present. */
  function CopyToLive(live: seq<LiveRow>, items: seq<Item>, receipt: int): seq<LiveRow>
    decreases |items|
  {
    if |items| == 0 then live
    else
      var l := CopyToLive(live, items[..|items| - 1], receipt);
      var last := items[|items| - 1];
      if HasLiveKey(l, last.receiptItem) then l else l + [LiveRow(receipt, last.saleType, last)]
  }

  /** Copying keeps every existing ledger row, keeps the unique key, and leaves
      every copied item's key present. */
  lemma {:induction false} CopyToLiveGrows(live: seq<LiveRow>, items: seq<Item>, receipt: int)
    ensures |CopyToLive(live, items, receipt)| >= |live|
    ensures CopyToLive(live, items, receipt)[..|live|] == live
    ensures LiveKeysUnique(live) ==> LiveKeysUnique(CopyToLive(live, items, receipt))
    ensures forall k :: 0 <= k < |items| ==> HasLiveKey(CopyToLive(live, items, receipt), items[k].receiptItem)
    decreases |items|
  {
    if |items| > 0 {
      var init := items[..|items| - 1];
      var l := CopyToLive(live, init, receipt);
      var last := items[|items| - 1];
      CopyToLiveGrows(live, init, receipt);
      if !HasLiveKey(l, last.receiptItem) {
        var l' := l + [LiveRow(receipt, last.saleType, last)];
        assert l'[..|live|] == l[..|live|];
        if LiveKeysUnique(live) {
          AppendFreshLive(l, LiveRow(receipt, last.saleType, last));
        }
        assert HasLiveKey(l', last.receiptItem) by {
          assert l'[|l|].item.receiptItem == last.receiptItem;
        }
        forall k | 0 <= k < |init|
          ensures HasLiveKey(l', init[k].receiptItem)
        {
          var m :| 0 <= m < |l| && l[m].item.receiptItem == init[k].receiptItem;
          assert l'[m] == l[m];
        }
      }
      assert forall k :: 0 <= k < |init| ==> init[k] == items[k];
    }
  }

  /** When every key is already in the ledger, copying adds nothing. */
  lemma {:induction false} CopyToLivePresent(live: seq<LiveRow>, items: seq<Item>, receipt: int)
    requires forall k :: 0 <= k < |items| ==> HasLiveKey(live, items[k].receiptItem)
    ensures CopyToLive(live, items, receipt) == live
    decreases |items|
  {
    if |items| > 0 {
      CopyToLivePresent(live, items[..|items| - 1], receipt);
    }
  }

  /** Running SetOrderPay's copy twice adds nothing the first run did not. */
  lemma CopyToLiveIdempotent(live: seq<LiveRow>, items: seq<Item>, receipt: int, receipt2: int)
    ensures CopyToLive(CopyToLive(live, items, receipt), items, receipt2) == CopyToLive(live, items, receipt)
  {
    CopyToLiveGrows(live, items, receipt);
    CopyToLivePresent(CopyToLive(live, items, receipt), items, receipt2);
  }

  /** `UPDATE salesorders SET state = 'paying', receipt = $1 WHERE order_num = $2` */
  function MarkPaying(rows: seq<OrderRow>, num: int, receipt: int): seq<OrderRow> {
    UpdateWhere(rows, (r: OrderRow) => r.orderNum == num, (r: OrderRow) => r.(state := PAYING, receipt := receipt))
  }

  /** The items of the order `num`; none when the order is missing. */
  function OrderItemsOf(rows: seq<OrderRow>, num: int): seq<Item> {
    match FindOrder(rows, num)
    case None => []
    case Some(row) => ItemsOf(row)
  }

  /** The order numbers whose `sales_live` rows OrderToSales relabels: the
      'paying' orders of the user's till (none for an unknown user). */
  function PayingOrderNums(rows: seq<OrderRow>, users: Directory, username: string): set<int> {
    if username in users then
      set k | 0 <= k < |rows| && rows[k].state == PAYING && rows[k].tillNum == users[username].tillNum :: rows[k].orderNum
    else {}
  }

  /** `UPDATE sales_live SET receipt_num = $1, sale_type = 'cash sale' WHERE order_num IN (...)` */
  function Relabel(live: seq<LiveRow>, nums: set<int>, receipt: int): seq<LiveRow> {
    UpdateWhere(live, (l: LiveRow) => l.item.orderNum in nums, (l: LiveRow) => l.(receiptNum := receipt, saleType := "cash sale"))
  }

  /** Item states OrderToSales leaves as they are. */
  predicate Closed(i: Item) {
    i.state == "deleted" || i.state == DELETED || i.state == VOIDED || i.state == "voided"
  }

  /** The lower-case spellings OrderToSales skips but OrderTotal counts. */
  predicate LowerCaseClosed(i: Item) {
    i.state == "deleted" || i.state == "voided"
  }

  /** OrderToSales' cart: every item not deleted or voided (in either spelling) becomes pending. */
  function Reopened(items: seq<Item>): seq<Item> {
    seq(|items|, k requires 0 <= k < |items| => if Closed(items[k]) then items[k] else items[k].(state := PENDING))
  }

  /** The total OrderToSales stores (OrderTotal of the cart) equals the pending
      total of the cart it stores plus the items in a lower-case closed state. */
  lemma {:induction false} ReopenedTotal(items: seq<Item>)
    ensures LiveTotal(items) == PendingTotal(Reopened(items)) + SumWhere(items, LowerCaseClosed)
    decreases |items|
  {
    if |items| > 0 {
      var init := items[..|items| - 1];
      ReopenedTotal(init);
      assert Reopened(items)[..|items| - 1] == Reopened(init);
    }
  }

  /** `UPDATE salestrace SET cart, state = 'closed_bill', total WHERE receipt_num = $1` */
  function CloseReceiptBill(rows: seq<ReceiptRow>, receipt: int, cart: seq<Item>, total: real): seq<ReceiptRow> {
    UpdateWhere(rows, (r: ReceiptRow) => r.receiptNum == receipt,
                (r: ReceiptRow) => r.(cart := Some(cart), state := CLOSED_BILL, total := total))
  }

  /** FetchPayingOrderItems' guard rejects "" and "00", which no printed integer is. */
  lemma PayingGuardNeverFires(tillNum: int)
    ensures IntToString(tillNum) != "" && IntToString(tillNum) != "00"
  {
    var n := if tillNum < 0 then -tillNum else tillNum;
    NatToStringCanonical(n);
    var s := NatToString(n);
    assert s[0] == '0' ==> |s| == 1;
    if tillNum < 0 {
      assert IntToString(tillNum)[0] == '-';
    }
  }

  /** The 'paying' orders whose till prints as `tillNum`. */
  function PayingOf(tillNum: string): OrderRow -> bool {
    (r: OrderRow) => r.state == PAYING && IntToString(r.tillNum) == tillNum
  }

  /** FetchPayingOrderItems: the items of the till's 'paying' orders,
      concatenated in row order; nil when there are none.  `refused` is the
      query's error: a failed send, or a row that does not scan or decode. */
  method FetchPayingOrderItems(db: Store, tillNum: string, refused: bool) returns (r: Result<Option<seq<Item>>>)
    ensures tillNum == "" || tillNum == "00" || refused ==> r.Err?
    ensures tillNum != "" && tillNum != "00" && !refused ==>
      r.Ok? && r.value.GetOr([]) == Flatten(db.orders, PayingOf(tillNum)) &&
      (r.value.None? <==> |Flatten(db.orders, PayingOf(tillNum))| == 0)
  {
    if tillNum == "" || tillNum == "00" {
      return Err("failed to fetch paying order till num");
    }
    if refused {
      return Err("failed to read paying orders");
    }
    var values := CollectItems(db.orders, PayingOf(tillNum));
    GatherFlattens(db.orders, PayingOf(tillNum));
    return Ok(values);
  }

  /** SetOrderPay: in one transaction, copy the order's items into `sales_live`
      under the receipt and mark the order 'paying' with that receipt.
      Statement 1 opens the transaction, 2 is the copy, 3 the update and 4
      the commit, whose error is not checked: success is reported while
      nothing is kept. */
  method SetOrderPay(db: Store, ordNum: int, receipt: int, fault: Fault) returns (err: Status)
    requires db.Valid()
    modifies db`live, db`orders
    ensures db.Valid()
    ensures Refuses(fault, 1) || Refuses(fault, 2) || Refuses(fault, 3) ==>
      err.Failure? && db.live == old(db.live) && db.orders == old(db.orders)
    ensures Refuses(fault, 4) ==>
      err == Success && db.live == old(db.live) && db.orders == old(db.orders)
    ensures fault == NoFault || (fault.FailAt? && fault.step > 4) ==>
      err == Success &&
      db.live == CopyToLive(old(db.live), OrderItemsOf(old(db.orders), ordNum), receipt) &&
      db.orders == MarkPaying(old(db.orders), ordNum, receipt)
  {
    if Refuses(fault, 1) {
      return Failure("failed to begin transaction");
    }
    if Refuses(fault, 2) {
      return Failure("error inserting into live_sales");
    }
    var live := CopyToLive(db.live, OrderItemsOf(db.orders, ordNum), receipt);
    CopyToLiveGrows(db.live, OrderItemsOf(db.orders, ordNum), receipt);
    if Refuses(fault, 3) {
      return Failure("failed setting order to paying");
    }
    var orders := MarkPaying(db.orders, ordNum, receipt);
    UpdateKeepsOrderKeys(db.orders, (r: OrderRow) => r.orderNum == ordNum, (r: OrderRow) => r.(state := PAYING, receipt := receipt));
    if Refuses(fault, 4) {
      return Success;
    }
    db.live := live;
    db.orders := orders;
    return Success;
  }

  /** OrderToSales: in one transaction, relabel the ledger rows of the till's
      paying orders with the receipt, then store the cart (items reopened as
      pending), state 'closed_bill' and OrderTotal on the receipt.
      Statement 1 opens the transaction, 2 is the relabel, 3 the receipt
      update and 4 the commit, whose error is not checked. */
  method OrderToSales(db: Store, orders: seq<Item>, receipt: int, username: string, users: Directory, fault: Fault)
    returns (r: Result<real>)
    requires db.Valid()
    modifies db`live, db`receipts
    ensures db.Valid()
    ensures Refuses(fault, 1) || Refuses(fault, 2) || Refuses(fault, 3) ==>
      r.Err? && db.live == old(db.live) && db.receipts == old(db.receipts)
    ensures Refuses(fault, 4) ==>
      r == Ok(LiveTotal(orders)) && db.live == old(db.live) && db.receipts == old(db.receipts)
    ensures fault == NoFault || (fault.FailAt? && fault.step > 4) ==>
      r == Ok(LiveTotal(orders)) &&
      db.live == Relabel(old(db.live), PayingOrderNums(db.orders, users, username), receipt) &&
      db.receipts == CloseReceiptBill(old(db.receipts), receipt, Reopened(orders), LiveTotal(orders))
  {
    if Refuses(fault, 1) {
      return Err("failed to begin transaction");
    }
    if Refuses(fault, 2) {
      return Err("error updating receipt_num to sales_records");
    }
    var nums := PayingOrderNums(db.orders, users, username);
    var live := Relabel(db.live, nums, receipt);
    UpdateKeepsLiveKeys(db.live, (l: LiveRow) => l.item.orderNum in nums, (l: LiveRow) => l.(receiptNum := receipt, saleType := "cash sale"));
    var total := OrderTotal(orders);
    var cart := orders;
    var i := 0;
    while i < |cart|
      invariant 0 <= i <= |cart| && |cart| == |orders|
      invariant forall k :: 0 <= k < |orders| ==> cart[k] == (if k < i then Reopened(orders)[k] else orders[k])
    {
      var order := cart[i];
      if order.state != "deleted" && order.state != DELETED && order.state != VOIDED && order.state != "voided" {
        order := order.(state := PENDING);
        cart := cart[i := order];
      }
      i := i + 1;
    }
    assert cart == Reopened(orders);
    if Refuses(fault, 3) {
      return Err("error updating salestrace");
    }
    var receipts := CloseReceiptBill(db.receipts, receipt, cart, total);
    UpdateKeepsReceiptKeys(db.receipts, (row: ReceiptRow) => row.receiptNum == receipt,
                           (row: ReceiptRow) => row.(cart := Some(cart), state := CLOSED_BILL, total := total));
    if Refuses(fault, 4) {
      return Ok(total);
    }
    db.live := live;
    db.receipts := receipts;
    return Ok(total);
  }

  // ---------------------------------------------------------------------
  // The order object

  class Order {
    var orderNum: int
    var poster: string
    var acNum: string
    var receiptNum: int
    var items: seq<Item>

    constructor (orderNum: int, poster: string, acNum: string, receiptNum: int)
      ensures this.orderNum == orderNum && this.poster == poster && this.acNum == acNum
      ensures this.receiptNum == receiptNum && items == []
    {
      this.orderNum := orderNum;
      this.poster := poster;
      this.acNum := acNum;
      this.receiptNum := receiptNum;
      items := [];
    }

    /** NextOrder: the largest open order of the poster's till on the receipt, or 0. */
    method NextOrder(db: Store, users: Directory)
      modifies this`orderNum
      ensures orderNum == NextOrderNum(db.orders, users, poster, receiptNum)
    {
      orderNum := NextOrderNum(db.orders, users, poster, receiptNum);
    }

    /** NewOrder: reuse an open order, otherwise insert a new numbered one. */
    method NewOrder(db: Store, users: Directory, branches: Branches, today: Date) returns (err: Status)
      requires ValidDate(today) && db.Valid()
      modifies this`orderNum, this`acNum, db`orders
      ensures db.Valid()
      ensures var n := NextOrderNum(old(db.orders), users, poster, receiptNum);
        if n > 0 then
          err == Success && orderNum == n && acNum == old(acNum) && db.orders == old(db.orders)
        else if poster == "" then
          err.Failure? && orderNum == n && acNum == old(acNum) && db.orders == old(db.orders)
        else
          err == Success &&
          acNum == (if old(acNum) == "" then IntToString(receiptNum) else old(acNum)) &&
          match NewOrderRow(old(db.orders), users, branches, today, poster, acNum, receiptNum)
          case Some(row) => db.orders == old(db.orders) + [row] && orderNum == row.orderNum
          case None => db.orders == old(db.orders) && orderNum == n
    {
      NextOrder(db, users);
      if orderNum > 0 {
        return Success;
      }
      if poster == "" {
        return Failure("order error poster is null");
      }
      if acNum == "" {
        acNum := IntToString(receiptNum);
      }
      var row := NewOrderRow(db.orders, users, branches, today, poster, acNum, receiptNum);
      if row.Some? {
        AppendFreshOrder(db.orders, row.value);
        db.orders := db.orders + [row.value];
        orderNum := row.value.orderNum;
      }
      return Success;
    }

    /** Fetchtems: load the order's items (`[]` for a NULL column); a missing
        order fails to decode the empty result. */
    method FetchItems(db: Store) returns (err: Status)
      modifies this`items
      ensures match FindOrder(db.orders, orderNum)
        case None => err.Failure? && items == old(items)
        case Some(row) => err == Success && items == ItemsOf(row)
    {
      var row := FindOrder(db.orders, orderNum);
      if row.None? {
        return Failure("unexpected end of JSON input");
      }
      items := ItemsOf(row.value);
      return Success;
    }

    /** AddToOrder: append one item keyed `"{order}-{n+1}"` and rewrite the row. */
    method AddToOrder(db: Store, args: Item) returns (r: Result<CartTotal>)
      requires db.Valid()
      modifies this`items, db`orders
      ensures db.Valid()
      ensures receiptNum == 0 ==> r.Err? && items == old(items) && db.orders == old(db.orders)
      ensures receiptNum != 0 ==>
        match FindOrder(old(db.orders), orderNum)
        case None => r.Err? && items == old(items) && db.orders == old(db.orders)
        case Some(row) =>
          var cart := ItemsOf(row) + [NewItem(args, orderNum, |ItemsOf(row)|)];
          items == ItemsOf(row) && r == Ok(CartTotal(cart, LiveTotal(cart))) &&
          db.orders == SetItems(old(db.orders), orderNum, cart)
    {
      if receiptNum == 0 {
        return Err("error. Order->AddToOrder()    null order num");
      }
      var e := FetchItems(db);
      if e.Failure? {
        return Err(e.msg);
      }
      var orderItems := items;
      var item := args.(receiptItem := ItemKey(orderNum, |orderItems| + 1));
      if item.state == "" {
        item := item.(state := PENDING);
      }
      orderItems := orderItems + [item];
      var num := orderNum;
      UpdateKeepsOrderKeys(db.orders, (o: OrderRow) => o.orderNum == num, (o: OrderRow) => o.(items := Some(orderItems)));
      db.orders := SetItems(db.orders, orderNum, orderItems);
      var total := OrderTotal(orderItems);
      return Ok(CartTotal(orderItems, total));
    }

    /** CompleteOrder: statement 1 opens the transaction, 2 reads the items,
        3 sets the state (through the pool, outside the transaction), 4 reads
        the voucher; the commit is not checked. */
    method CompleteOrder(db: Store, productionDisp: bool, fault: Fault) returns (r: Result<seq<VoucherLine>>)
      requires db.Valid()
      modifies this`items, db`orders
      ensures db.Valid()
      ensures Refuses(fault, 1) || Refuses(fault, 2) ==>
        r.Err? && items == old(items) && db.orders == old(db.orders)
      ensures !Refuses(fault, 1) && !Refuses(fault, 2) ==>
        match FindOrder(old(db.orders), orderNum)
        case None => r.Err? && items == old(items) && db.orders == old(db.orders)
        case Some(row) =>
          items == ItemsOf(row) &&
          if |ItemsOf(row)| == 0 || Refuses(fault, 3) then
            r.Err? && db.orders == old(db.orders)
          else
            var num := orderNum;
            db.orders == UpdateWhere(old(db.orders), (o: OrderRow) => o.orderNum == num,
                                     (o: OrderRow) => o.(state := CompletedState(productionDisp))) &&
            r == (if Refuses(fault, 4) then Err("error fetching order voucher") else Ok(Voucher(ItemsOf(row), row.poster)))
    {
      if Refuses(fault, 1) {
        return Err("failed to begin transaction");
      }
      var state := ORDERED;
      if !productionDisp {
        state := DISPATCHED;
      }
      if Refuses(fault, 2) {
        return Err("failed to fetch order items");
      }
      var e := FetchItems(db);
      if e.Failure? {
        return Err(e.msg);
      }
      if |items| == 0 {
        return Err("error order is empty");
      }
      if Refuses(fault, 3) {
        return Err("failed to complete order");
      }
      var row := FindOrder(db.orders, orderNum).value;
      var num := orderNum;
      UpdateKeepsOrderKeys(db.orders, (o: OrderRow) => o.orderNum == num, (o: OrderRow) => o.(state := state));
      db.orders := UpdateWhere(db.orders, (o: OrderRow) => o.orderNum == num, (o: OrderRow) => o.(state := state));
      if Refuses(fault, 4) {
        return Err("error fetching order voucher");
      }
      return Ok(Voucher(ItemsOf(row), row.poster));
    }
  }

  /** DelOrderItem: flip the pending item keyed `orderItem` to DELETED and
      write the cart back, but only while the order is pending; otherwise
      nothing is written and an empty cart with total 0 is returned. */
  method DelOrderItem(db: Store, orderItem: string, orderNum: int) returns (r: Result<CartTotal>)
    requires db.Valid()
    modifies db`orders
    ensures db.Valid()
    ensures match FindOrder(old(db.orders), orderNum)
      case None => r.Err? && db.orders == old(db.orders)
      case Some(row) =>
        var cart := DeleteItem(ItemsOf(row), orderItem);
        if row.state == PENDING then
          db.orders == SetItems(old(db.orders), orderNum, cart) && r == Ok(CartTotal(cart, LiveTotal(cart)))
        else
          db.orders == old(db.orders) && r == Ok(CartTotal([], 0.0))
  {
    var ord := new Order(orderNum, "", "", 0);
    var e := ord.FetchItems(db);
    if e.Failure? {
      return Err(e.msg);
    }
    ghost var fetched := ord.items;
    var i := 0;
    while i < |ord.items|
      modifies ord
      invariant 0 <= i <= |ord.items| && |ord.items| == |fetched|
      invariant forall k :: 0 <= k < |fetched| ==> ord.items[k] == (if k < i then DeleteItem(fetched, orderItem)[k] else fetched[k])
    {
      if ord.items[i].receiptItem == orderItem && ord.items[i].state == PENDING {
        ord.items := ord.items[i := ord.items[i].(state := DELETED)];
      }
      i := i + 1;
    }
    assert ord.items == DeleteItem(fetched, orderItem);
    var jStr := ord.items;
    var row := FindOrder(db.orders, orderNum).value;
    var guard := (o: OrderRow) => o.orderNum == orderNum && o.state == PENDING;
    var write := (o: OrderRow) => o.(items := Some(jStr));
    UpdateKeepsOrderKeys(db.orders, guard, write);
    var updated := UpdateWhere(db.orders, guard, write);
    if row.state == PENDING {
      assert updated == SetItems(db.orders, orderNum, jStr) by {
        forall k | 0 <= k < |db.orders| && db.orders[k].orderNum == orderNum ensures db.orders[k].state == PENDING {
          FindOrderUnique(db.orders, orderNum, k);
        }
      }
      db.orders := updated;
      var total := OrderTotal(jStr);
      return Ok(CartTotal(jStr, total));
    } else {
      forall k | 0 <= k < |db.orders| ensures !guard(db.orders[k]) {
        if db.orders[k].orderNum == orderNum {
          FindOrderUnique(db.orders, orderNum, k);
        }
      }
      UpdateWhereNoMatch(db.orders, guard, write);
      db.orders := updated;
      var total := OrderTotal([]);
      return Ok(CartTotal([], total));
    }
  }
}
