/** Receipts (`salestrace`): numbering and logging a receipt, reading it
    back, voiding and suspending it, merging receipts and closing a bill
    of dispatched orders into a receipt. */
module Receipts {
  import opened Text
  import opened Db
  import opened Numbering
  import opened Carts
  import Orders

  // ---------------------------------------------------------------------
  // Numbering

  /** The receipts GenReceipt reuses: pending or paying, of the till and sale type. */
  predicate Active(r: ReceiptRow, till: int, saleType: string) {
    (r.state == PENDING || r.state == PAYING) && r.tillNum == till && r.saleType == saleType
  }

  /** `coalesce(max(receipt_num), 0)` over the active receipts. */
  function OpenReceiptNum(rows: seq<ReceiptRow>, till: int, saleType: string): (n: int)
    ensures (n == 0 && forall k :: 0 <= k < |rows| ==> !Active(rows[k], till, saleType)) ||
            ((exists k :: 0 <= k < |rows| && Active(rows[k], till, saleType) && rows[k].receiptNum == n) &&
             (forall k :: 0 <= k < |rows| && Active(rows[k], till, saleType) ==> rows[k].receiptNum <= n))
  {
    MaxOf(rows, (r: ReceiptRow) => Active(r, till, saleType), (r: ReceiptRow) => r.receiptNum).GetOr(0)
  }

  /** `coalesce(max(daily_count), 0) + 1` over all of today's receipts. */
  function NextReceiptCount(rows: seq<ReceiptRow>, today: Date): (c: nat)
    ensures c >= 1
    ensures forall k :: 0 <= k < |rows| && rows[k].transDate == today ==> rows[k].dailyCount < c
  {
    var m := MaxOf(rows, (r: ReceiptRow) => r.transDate == today, (r: ReceiptRow) => r.dailyCount);
    if m.Some? then m.value + 1 else 1
  }

  /** A receipt whose number was made by the receipt numbering scheme. */
  predicate NumberedByScheme(r: ReceiptRow) {
    ValidDate(r.transDate) && r.receiptNum == ReceiptNumber(r.transDate, r.dailyCount)
  }

  /** The number CreateReceipt computes differs from every receipt numbered by
      the scheme, on any day. */
  lemma ReceiptNumberFresh(rows: seq<ReceiptRow>, today: Date)
    requires ValidDate(today)
    ensures forall k :: 0 <= k < |rows| && NumberedByScheme(rows[k]) ==>
      rows[k].receiptNum != ReceiptNumber(today, NextReceiptCount(rows, today))
  {
    var c := NextReceiptCount(rows, today);
    forall k | 0 <= k < |rows| && NumberedByScheme(rows[k])
      ensures rows[k].receiptNum != ReceiptNumber(today, c)
    {
      if rows[k].receiptNum == ReceiptNumber(today, c) {
        ReceiptNumberInjective(rows[k].transDate, today, rows[k].dailyCount, c);
      }
    }
  }

  /** LogReceipt's INSERT, sent with `Query`: the row is kept only when the
      receipt number is new and the till exists in `sales_till` (the
      `fk_salestrace_till_num` key); a rejection is never read back. */
  function LogInto(rows: seq<ReceiptRow>, tills: seq<TillRow>, row: ReceiptRow): (r: seq<ReceiptRow>)
    ensures ReceiptKeysUnique(rows) ==> ReceiptKeysUnique(r)
    ensures r == rows || r == rows + [row]
    ensures r == rows + [row] <==> !HasReceipt(rows, row.receiptNum) && HasTill(tills, row.tillNum)
  {
    if !HasReceipt(rows, row.receiptNum) && HasTill(tills, row.tillNum) then
      AppendFreshReceipt2(rows, row);
      rows + [row]
    else rows
  }

  /** A row LogInto has just added is the one found under its number. */
  lemma FindLogged(rows: seq<ReceiptRow>, tills: seq<TillRow>, row: ReceiptRow)
    requires !HasReceipt(rows, row.receiptNum) && HasTill(tills, row.tillNum)
    ensures LogInto(rows, tills, row) == rows + [row]
    ensures FindReceipt(rows + [row], row.receiptNum) == Some(row)
  {
    assert (rows + [row])[|rows|] == row;
  }

  lemma AppendFreshReceipt2(rows: seq<ReceiptRow>, row: ReceiptRow)
    requires !HasReceipt(rows, row.receiptNum)
    ensures ReceiptKeysUnique(rows) ==> ReceiptKeysUnique(rows + [row])
  {
    if ReceiptKeysUnique(rows) {
      AppendFreshReceipt(rows, row);
    }
  }

  // ---------------------------------------------------------------------
  // Voiding and suspending

  /** Delete / DeleteCtx: the receipt becomes VOIDED unless its payment is final. */
  function VoidReceipt(rows: seq<ReceiptRow>, num: int): seq<ReceiptRow> {
    UpdateWhere(rows, (r: ReceiptRow) => r.receiptNum == num && r.state !in PAYMENT_FINAL,
                (r: ReceiptRow) => r.(state := VOIDED))
  }

  /** Voiding never touches a receipt whose payment is final, voids the
      others with the number, and a second void changes nothing. */
  lemma VoidReceiptKeepsFinal(rows: seq<ReceiptRow>, num: int)
    ensures forall k :: 0 <= k < |rows| && rows[k].state in PAYMENT_FINAL ==> VoidReceipt(rows, num)[k] == rows[k]
    ensures forall k :: 0 <= k < |rows| && rows[k].receiptNum == num && rows[k].state !in PAYMENT_FINAL ==>
      VoidReceipt(rows, num)[k].state == VOIDED
    ensures VoidReceipt(VoidReceipt(rows, num), num) == VoidReceipt(rows, num)
  {
  }

  /** DelOrderCtx: every order on the receipt becomes DELETED. */
  function DeleteOrdersOf(rows: seq<OrderRow>, num: int): seq<OrderRow> {
    UpdateWhere(rows, (o: OrderRow) => o.receiptNum == num, (o: OrderRow) => o.(state := DELETED))
  }

  /** DelCascade on a receipt whose payment is final leaves the receipt as it
      is but still deletes every one of its orders. */
  lemma CascadeOnFinalReceipt(receipts: seq<ReceiptRow>, orders: seq<OrderRow>, j: int)
    requires 0 <= j < |receipts| && receipts[j].state in PAYMENT_FINAL
    ensures VoidReceipt(receipts, receipts[j].receiptNum)[j] == receipts[j]
    ensures forall k :: 0 <= k < |orders| && orders[k].receiptNum == receipts[j].receiptNum ==>
      DeleteOrdersOf(orders, receipts[j].receiptNum)[k].state == DELETED
  {
  }

  /** The receipts Suspend parks: pending, on the till, with a cart. */
  predicate Suspendable(r: ReceiptRow, till: int) {
    r.tillNum == till && r.state == PENDING && r.cart.Some?
  }

  function SuspendTill(rows: seq<ReceiptRow>, till: int): seq<ReceiptRow> {
    UpdateWhere(rows, (r: ReceiptRow) => Suspendable(r, till), (r: ReceiptRow) => r.(state := SUSPEND))
  }

  /** Some order on the receipt has items (`so.order_items IS NOT NULL`). */
  predicate HasOrderItems(orders: seq<OrderRow>, num: int) {
    exists k :: 0 <= k < |orders| && orders[k].receiptNum == num && orders[k].items.Some?
  }

  /** The receipts NewBill parks: pending, on the till, with a cart or with
      an order that has items. */
  predicate InOpenBill(r: ReceiptRow, orders: seq<OrderRow>, till: int) {
    r.state == PENDING && r.tillNum == till && (r.cart.Some? || HasOrderItems(orders, r.receiptNum))
  }

  function SuspendBills(rows: seq<ReceiptRow>, orders: seq<OrderRow>, till: int): seq<ReceiptRow> {
    UpdateWhere(rows, (r: ReceiptRow) => InOpenBill(r, orders, till), (r: ReceiptRow) => r.(state := SUSPEND))
  }

  /** NewBill parks every receipt Suspend parks, and parks exactly those when
      no order of the till's receipts has items. */
  lemma NewBillExtendsSuspend(rows: seq<ReceiptRow>, orders: seq<OrderRow>, till: int)
    ensures |SuspendBills(rows, orders, till)| == |SuspendTill(rows, till)| == |rows|
    ensures forall k :: 0 <= k < |rows| && SuspendTill(rows, till)[k].state == SUSPEND ==>
      SuspendBills(rows, orders, till)[k].state == SUSPEND
    ensures (forall k :: 0 <= k < |rows| ==> !HasOrderItems(orders, rows[k].receiptNum)) ==>
      SuspendBills(rows, orders, till) == SuspendTill(rows, till)
  {
  }

  /** ResumeOrderContext: the receipt's paying orders go back to 'dispatched'. */
  function ResumeOrders(rows: seq<OrderRow>, num: int): seq<OrderRow> {
    UpdateWhere(rows, (o: OrderRow) => o.state == PAYING && o.receiptNum == num, (o: OrderRow) => o.(state := DISPATCHED))
  }

  /** ResumeBillContext: a receipt awaiting payment goes back to 'pending'. */
  function ResumeBill(rows: seq<ReceiptRow>, num: int): seq<ReceiptRow> {
    UpdateWhere(rows, (r: ReceiptRow) => (r.state == PENDING_PAYMENT || r.state == PAYING) && r.receiptNum == num,
                (r: ReceiptRow) => r.(state := PENDING))
  }

  /** Resume never reopens a suspended receipt, nor one whose payment is
      final; only a receipt awaiting payment or paying goes back to pending. */
  lemma ResumeLeavesSuspended(rows: seq<ReceiptRow>, num: int)
    ensures |ResumeBill(rows, num)| == |rows|
    ensures forall k :: 0 <= k < |rows| && (rows[k].state == SUSPEND || rows[k].state in PAYMENT_FINAL) ==>
      ResumeBill(rows, num)[k] == rows[k]
    ensures forall k :: 0 <= k < |rows| ==>
      (ResumeBill(rows, num)[k].state == PENDING && rows[k].state != PENDING <==>
       rows[k].receiptNum == num && (rows[k].state == PENDING_PAYMENT || rows[k].state == PAYING))
  {
  }

  /** CloseOrders: the receipt's dispatched orders become 'paying'. */
  function CloseOrdersOf(rows: seq<OrderRow>, num: int): seq<OrderRow> {
    UpdateWhere(rows, (o: OrderRow) => o.receiptNum == num && o.state == DISPATCHED, (o: OrderRow) => o.(state := PAYING))
  }

  /** Resume undoes CloseOrders when none of the receipt's orders was already
      paying, and CloseOrders undoes Resume when none was already dispatched. */
  lemma {:induction false} CloseThenResume(rows: seq<OrderRow>, num: int)
    ensures (forall k :: 0 <= k < |rows| && rows[k].receiptNum == num ==> rows[k].state != PAYING) ==>
      ResumeOrders(CloseOrdersOf(rows, num), num) == rows
    ensures (forall k :: 0 <= k < |rows| && rows[k].receiptNum == num ==> rows[k].state != DISPATCHED) ==>
      CloseOrdersOf(ResumeOrders(rows, num), num) == rows
  {
    var a := ResumeOrders(CloseOrdersOf(rows, num), num);
    var b := CloseOrdersOf(ResumeOrders(rows, num), num);
    if forall k :: 0 <= k < |rows| && rows[k].receiptNum == num ==> rows[k].state != PAYING {
      forall k | 0 <= k < |rows| ensures a[k] == rows[k] {
        if rows[k].receiptNum == num && rows[k].state == DISPATCHED {
          assert CloseOrdersOf(rows, num)[k] == rows[k].(state := PAYING);
        }
      }
    }
    if forall k :: 0 <= k < |rows| && rows[k].receiptNum == num ==> rows[k].state != DISPATCHED {
      forall k | 0 <= k < |rows| ensures b[k] == rows[k] {
        if rows[k].receiptNum == num && rows[k].state == PAYING {
          assert ResumeOrders(rows, num)[k] == rows[k].(state := DISPATCHED);
        }
      }
    }
  }

  // ---------------------------------------------------------------------
  // Merging receipts

  /** The `%v` texts of the receipt numbers. */
  function ListParts(receipts: seq<int>): seq<string> {
    seq(|receipts|, i requires 0 <= i < |receipts| => IntToString(receipts[i]))
  }

  /** The SQL list Merge builds: `(a, b, c)`. */
  function ReceiptListText(receipts: seq<int>): string {
    "(" + Join(ListParts(receipts), ", ") + ")"
  }

  lemma JoinKeepsLast(parts: seq<string>, sep: string)
    requires |parts| > 0
    ensures |Join(parts, sep)| >= |parts[|parts| - 1]|
  {
  }

  /** The list is the invalid `()` exactly when there are no receipts. */
  lemma ReceiptListEmpty(receipts: seq<int>)
    ensures ReceiptListText(receipts) == "()" <==> |receipts| == 0
  {
    if |receipts| > 0 {
      var parts := ListParts(receipts);
      var last := receipts[|receipts| - 1];
      NatToStringCanonical(if last < 0 then -last else last);
      assert |parts[|parts| - 1]| > 0;
      JoinKeepsLast(parts, ", ");
      assert |ReceiptListText(receipts)| > 2;
    } else {
      assert ListParts(receipts) == [];
    }
  }

  /** One more receipt extends the joined list by a separator and its text. */
  lemma ListTextStep(receipts: seq<int>, i: int)
    requires 0 <= i < |receipts|
    ensures Join(ListParts(receipts[..i + 1]), ", ") ==
      if i == 0 then IntToString(receipts[i])
      else Join(ListParts(receipts[..i]), ", ") + ", " + IntToString(receipts[i])
  {
    JoinStep(ListParts(receipts[..i]), ", ", IntToString(receipts[i]));
    assert ListParts(receipts[..i + 1]) == ListParts(receipts[..i]) + [IntToString(receipts[i])];
  }

  /** The loop of Merge that renders the list. */
  method RenderReceiptList(receipts: seq<int>) returns (s: string)
    ensures s == ReceiptListText(receipts)
  {
    s := "(";
    var i := 0;
    while i < |receipts|
      invariant 0 <= i <= |receipts|
      invariant s == "(" + Join(ListParts(receipts[..i]), ", ")
    {
      ListTextStep(receipts, i);
      if i > 0 {
        s := s + ", ";
      }
      s := s + IntToString(receipts[i]);
      i := i + 1;
    }
    assert receipts[..|receipts|] == receipts;
    s := s + ")";
  }

  /** The orders CombineOrdersContext moves: listed receipt, and not pending, voided or DELETED. */
  predicate Mergeable(o: OrderRow, receipts: seq<int>) {
    o.state != PENDING && o.state != "voided" && o.state != VOIDED && o.state != DELETED && o.receiptNum in receipts
  }

  /** CombineOrdersContext: the moved orders join the receipt as 'paying'. */
  function MergeOrders(rows: seq<OrderRow>, receipts: seq<int>, num: int): seq<OrderRow> {
    UpdateWhere(rows, (o: OrderRow) => Mergeable(o, receipts), (o: OrderRow) => o.(receiptNum := num, state := PAYING))
  }

  /** VoidReceiptsContext: every listed receipt becomes VOIDED, whatever its state. */
  function VoidListed(rows: seq<ReceiptRow>, receipts: seq<int>): seq<ReceiptRow> {
    UpdateWhere(rows, (r: ReceiptRow) => r.receiptNum in receipts, (r: ReceiptRow) => r.(state := VOIDED))
  }

  /** The orders GetNewOrderItems reads: paying or pending payment, on the receipt. */
  function AwaitingOf(num: int): OrderRow -> bool {
    (o: OrderRow) => (o.state == PAYING || o.state == PENDING_PAYMENT) && o.receiptNum == num
  }

  /** The orders CombineOrdersInBill reads: dispatched, on the receipt. */
  function DispatchedOf(num: int): OrderRow -> bool {
    (o: OrderRow) => o.state == DISPATCHED && o.receiptNum == num
  }

  /** `UPDATE salestrace SET cart, total, state WHERE receipt_num = num`
      (UpdateCart and CombineReceiptsContext). */
  function WriteCart(rows: seq<ReceiptRow>, num: int, cart: seq<Item>, total: real, state: string): seq<ReceiptRow> {
    UpdateWhere(rows, (r: ReceiptRow) => r.receiptNum == num, (r: ReceiptRow) => r.(cart := Some(cart), total := total, state := state))
  }

  /** Unlike Delete, Merge voids a listed receipt even when its payment is
      final: a POSTED receipt merged into another ends VOIDED. */
  lemma MergeVoidsFinal(rows: seq<ReceiptRow>, receipts: seq<int>, num: int, cart: seq<Item>, total: real, j: int)
    requires 0 <= j < |rows| && rows[j].receiptNum in receipts && rows[j].receiptNum != num
    ensures WriteCart(VoidListed(rows, receipts), num, cart, total, PENDING_PAYMENT)[j].state == VOIDED
    ensures rows[j].state == POSTED ==> VoidReceipt(rows, rows[j].receiptNum)[j].state == POSTED
  {
  }

  /** Every order the merge moves contributes its items to the merged cart. */
  lemma {:induction false} MergeGathersMoved(rows: seq<OrderRow>, receipts: seq<int>, num: int)
    ensures forall k :: 0 <= k < |rows| && Mergeable(rows[k], receipts) ==>
      AwaitingOf(num)(MergeOrders(rows, receipts, num)[k])
    ensures |MergeOrders(rows, receipts, num)| == |rows|
  {
  }

  // ---------------------------------------------------------------------
  // Counting

  /** `SELECT count(*) FROM salestrace WHERE receipt_num = num AND cart IS NULL` */
  function CountEmpty(rows: seq<ReceiptRow>, num: int): nat
    decreases |rows|
  {
    if |rows| == 0 then 0
    else
      var last := rows[|rows| - 1];
      CountEmpty(rows[..|rows| - 1], num) + (if last.receiptNum == num && last.cart.None? then 1 else 0)
  }

  lemma {:induction false} CountEmptyNone(rows: seq<ReceiptRow>, num: int)
    requires forall k :: 0 <= k < |rows| ==> rows[k].receiptNum != num || rows[k].cart.Some?
    ensures CountEmpty(rows, num) == 0
    decreases |rows|
  {
    if |rows| > 0 {
      CountEmptyNone(rows[..|rows| - 1], num);
    }
  }

  /** Under the primary key the count is 1 exactly when the receipt exists
      with no cart, and 0 otherwise. */
  lemma {:induction false} CountEmptyIsFlag(rows: seq<ReceiptRow>, num: int)
    requires ReceiptKeysUnique(rows)
    ensures CountEmpty(rows, num) <= 1
    ensures CountEmpty(rows, num) == 1 <==> exists k :: 0 <= k < |rows| && rows[k].receiptNum == num && rows[k].cart.None?
    decreases |rows|
  {
    if |rows| > 0 {
      var init := rows[..|rows| - 1];
      var last := rows[|rows| - 1];
      assert ReceiptKeysUnique(init);
      CountEmptyIsFlag(init, num);
      if last.receiptNum == num {
        forall k | 0 <= k < |init| ensures init[k].receiptNum != num {
          assert rows[k] == init[k];
        }
        CountEmptyNone(init, num);
      }
      if exists k :: 0 <= k < |init| && init[k].receiptNum == num && init[k].cart.None? {
        var k :| 0 <= k < |init| && init[k].receiptNum == num && init[k].cart.None?;
        assert rows[k] == init[k];
      }
      if exists k :: 0 <= k < |rows| && rows[k].receiptNum == num && rows[k].cart.None? {
        var k :| 0 <= k < |rows| && rows[k].receiptNum == num && rows[k].cart.None?;
        if k < |init| {
          assert init[k] == rows[k];
        }
      }
    }
  }

  // ---------------------------------------------------------------------
  // The receipt object

  class ReceiptLog {
    var receiptNum: int
    var transDate: Date
    var tillNum: int
    var payTill: int
    var companyId: int
    var dailyCount: nat
    var branch: string
    var poster: string
    var total: real
    var cash: real
    var cart: Option<seq<Item>>
    var state: string
    var saleType: string
    var laybyeId: int
    var approver: string
    /** The JSON text of `loyalty`, `analysis` as last read or set. */
    var loyalty: string
    var etrSeal: string
    var ordersInBill: int
    var analysis: string

    /** A receipt with the given identity and Go's zero values elsewhere
        (`analysis` holds the JSON of a nil map). */
    constructor (receiptNum: int, tillNum: int, poster: string, branch: string, companyId: int, saleType: string, laybyeId: int)
      ensures this.receiptNum == receiptNum && this.tillNum == tillNum && this.poster == poster
      ensures this.branch == branch && this.companyId == companyId && this.saleType == saleType && this.laybyeId == laybyeId
      ensures payTill == 0 && dailyCount == 0 && total == 0.0 && cash == 0.0 && cart == None
      ensures state == "" && approver == "" && loyalty == "" && etrSeal == "" && ordersInBill == 0 && analysis == "null"
    {
      this.receiptNum := receiptNum;
      this.transDate := Date(1, 1, 1);
      this.tillNum := tillNum;
      this.payTill := 0;
      this.companyId := companyId;
      this.dailyCount := 0;
      this.branch := branch;
      this.poster := poster;
      this.total := 0.0;
      this.cash := 0.0;
      this.cart := None;
      this.state := "";
      this.saleType := saleType;
      this.laybyeId := laybyeId;
      this.approver := "";
      this.loyalty := "";
      this.etrSeal := "";
      this.ordersInBill := 0;
      this.analysis := "null";
    }

    /** The row LogReceipt inserts: the receipt's identity, today's date and
        the column defaults (state 'pending', approver 'nan', no cart). */
    function Logged(today: Date): (row: ReceiptRow)
      reads this
      ensures row.receiptNum == receiptNum && row.tillNum == tillNum && row.state == PENDING
      ensures row.cart.None? && row.loyalty.None? && row.etrSeal.None? && row.analysis.None?
    {
      ReceiptRow(receiptNum, today, tillNum, payTill, companyId, dailyCount, branch, poster, 0.0, 0.0,
                 None, PENDING, saleType, laybyeId, "nan", map[], 0, None, None, None)
    }

    /** The row LogReceipt has just inserted leaves `loyalty`, `etr_seal` and
        `analysis` NULL, so FetchAll cannot read that receipt back. */
    lemma LoggedUnreadable(rows: seq<ReceiptRow>, tills: seq<TillRow>, today: Date,
                           loyaltyDecodes: string -> bool, analysisDecodes: string -> bool)
      requires !HasReceipt(rows, receiptNum) && HasTill(tills, tillNum)
      ensures var logged := LogInto(rows, tills, Logged(today));
        HasReceipt(logged, receiptNum) &&
        Unreadable(FindReceipt(logged, receiptNum).value, loyaltyDecodes, analysisDecodes)
    {
      var row := Logged(today);
      var logged := LogInto(rows, tills, row);
      assert logged == rows + [row];
      assert logged[|rows|] == row;
    }

    /** LogReceipt: the INSERT is sent with `Query`; only a send failure is reported. */
    method LogReceipt(db: Store, today: Date, refused: bool) returns (err: Status)
      requires db.Valid()
      modifies db`receipts
      ensures db.Valid()
      ensures refused ==> err.Failure? && db.receipts == old(db.receipts)
      ensures !refused ==> err == Success && db.receipts == LogInto(old(db.receipts), db.tills, Logged(today))
    {
      if refused {
        return Failure("failed to save receipt to log");
      }
      db.receipts := LogInto(db.receipts, db.tills, Logged(today));
      return Success;
    }

    /** CreateReceipt: `lookup` is the user directory's answer for the poster;
        statement 2 is the number query and statement 3 sends the INSERT. */
    method CreateReceipt(db: Store, lookup: Option<User>, today: Date, fault: Fault) returns (n: int, err: Status)
      requires ValidDate(today) && db.Valid()
      modifies this`payTill, this`receiptNum, this`dailyCount, db`receipts
      ensures db.Valid()
      ensures lookup.None? ==>
        n == 0 && err.Failure? && payTill == old(payTill) && receiptNum == old(receiptNum) &&
        dailyCount == old(dailyCount) && db.receipts == old(db.receipts)
      ensures lookup.Some? ==> payTill == (if lookup.value.acceptPayment then lookup.value.tillNum else old(payTill))
      ensures lookup.Some? && Refuses(fault, 2) ==>
        n == 0 && err.Failure? && receiptNum == old(receiptNum) && dailyCount == old(dailyCount) &&
        db.receipts == old(db.receipts)
      ensures lookup.Some? && !Refuses(fault, 2) ==>
        dailyCount == NextReceiptCount(old(db.receipts), today) &&
        receiptNum == ReceiptNumber(today, dailyCount) &&
        if Refuses(fault, 3) then
          n == -1 && err.Failure? && db.receipts == old(db.receipts)
        else
          n == receiptNum && err == Success && db.receipts == LogInto(old(db.receipts), db.tills, Logged(today))
    {
      if lookup.None? {
        return 0, Failure("failed to fetch user");
      }
      if lookup.value.acceptPayment {
        payTill := lookup.value.tillNum;
      }
      if Refuses(fault, 2) {
        return 0, Failure("failed to get receipt");
      }
      dailyCount := NextReceiptCount(db.receipts, today);
      receiptNum := ReceiptNumber(today, dailyCount);
      err := LogReceipt(db, today, Refuses(fault, 3));
      if err.Failure? {
        return -1, err;
      }
      return receiptNum, Success;
    }

    /** GenReceipt: reuse the till's active receipt of this sale type, or
        create one.  Statement 1 is the active-receipt query; 2 and 3 are
        CreateReceipt's. */
    method GenReceipt(db: Store, lookup: Option<User>, today: Date, fault: Fault) returns (n: int, err: Status)
      requires ValidDate(today) && db.Valid()
      modifies this`payTill, this`receiptNum, this`dailyCount, db`receipts
      ensures db.Valid()
      ensures tillNum == 0 || Refuses(fault, 1) ==>
        n == 0 && err.Failure? && payTill == old(payTill) && receiptNum == old(receiptNum) &&
        dailyCount == old(dailyCount) && db.receipts == old(db.receipts)
      ensures tillNum != 0 && !Refuses(fault, 1) && OpenReceiptNum(old(db.receipts), tillNum, saleType) > 0 ==>
        n == receiptNum == OpenReceiptNum(old(db.receipts), tillNum, saleType) && err == Success &&
        payTill == old(payTill) && dailyCount == old(dailyCount) && db.receipts == old(db.receipts)
      ensures tillNum != 0 && !Refuses(fault, 1) && OpenReceiptNum(old(db.receipts), tillNum, saleType) <= 0 ==>
        (err == Success <==> lookup.Some? && !Refuses(fault, 2) && !Refuses(fault, 3)) &&
        (err.Failure? ==> n == 0 && db.receipts == old(db.receipts)) &&
        (lookup.None? || Refuses(fault, 2) ==> receiptNum == 0 && dailyCount == old(dailyCount)) &&
        (lookup.Some? ==> payTill == (if lookup.value.acceptPayment then lookup.value.tillNum else old(payTill))) &&
        (lookup.Some? && !Refuses(fault, 2) ==>
          dailyCount == NextReceiptCount(old(db.receipts), today) &&
          (Refuses(fault, 3) ==> receiptNum == -1) &&
          (!Refuses(fault, 3) ==>
            n == receiptNum == ReceiptNumber(today, dailyCount) &&
            db.receipts == LogInto(old(db.receipts), db.tills, Logged(today))))
    {
      if tillNum == 0 {
        return 0, Failure("op error, till num is null");
      }
      if Refuses(fault, 1) {
        return 0, Failure("failed to query active receipts");
      }
      receiptNum := OpenReceiptNum(db.receipts, tillNum, saleType);
      if receiptNum > 0 {
        return receiptNum, Success;
      }
      var created;
      created, err := CreateReceipt(db, lookup, today, fault);
      receiptNum := created;
      if err.Failure? {
        return 0, err;
      }
      return receiptNum, Success;
    }

    /** The receipt as Fetch leaves it after reading `row`: the scanned
        columns, and the cart cut down to its pending items with their total. */
    predicate ShowsPending(row: ReceiptRow)
      reads this
    {
      transDate == row.transDate && receiptNum == row.receiptNum && tillNum == row.tillNum &&
      payTill == row.payTill && branch == row.branch && poster == row.poster &&
      state == row.state && approver == row.approver &&
      cart == Some(Filter(row.cart.GetOr([]), Pending)) && total == PendingTotal(row.cart.GetOr([]))
    }

    /** Fetch: read the receipt and keep only its pending items. */
    method Fetch(db: Store, refused: bool) returns (err: Status)
      modifies this`transDate, this`receiptNum, this`tillNum, this`payTill, this`branch, this`poster
      modifies this`state, this`approver, this`cart, this`total
      ensures old(receiptNum) == 0 || refused ==> err.Failure? && unchanged(this)
      ensures old(receiptNum) != 0 && !refused ==> err == Success
      ensures old(receiptNum) != 0 && !refused && !HasReceipt(db.receipts, old(receiptNum)) ==>
        receiptNum == 0 && cart == Some([]) && total == 0.0 &&
        transDate == old(transDate) && tillNum == old(tillNum) && payTill == old(payTill) &&
        branch == old(branch) && poster == old(poster) && state == old(state) && approver == old(approver)
      ensures old(receiptNum) != 0 && !refused && HasReceipt(db.receipts, old(receiptNum)) ==>
        ShowsPending(FindReceipt(db.receipts, old(receiptNum)).value)
    {
      if receiptNum == 0 {
        return Failure("op error, receipt num is null");
      }
      if refused {
        return Failure("operation error");
      }
      var found := FindReceipt(db.receipts, receiptNum);
      if found.None? {
        receiptNum := 0;
        var kept, t := PendingCart([]);
        cart, total := Some(kept), t;
        return Success;
      }
      ShowPending(found.value);
      return Success;
    }

    /** The row scan of Fetch, followed by its pending filter. */
    method ShowPending(row: ReceiptRow)
      modifies this`transDate, this`receiptNum, this`tillNum, this`payTill, this`branch, this`poster
      modifies this`state, this`approver, this`cart, this`total
      ensures ShowsPending(row)
    {
      transDate, receiptNum, tillNum, payTill := row.transDate, row.receiptNum, row.tillNum, row.payTill;
      branch, poster, state, approver := row.branch, row.poster, row.state, row.approver;
      var kept, t := PendingCart(row.cart.GetOr([]));
      cart, total := Some(kept), t;
    }

    /** The receipt after FetchAll read `row` in full: every scanned column,
        the cart as stored and the total of its pending items. */
    predicate ShowsAll(row: ReceiptRow)
      reads this
      requires row.loyalty.Some? && row.etrSeal.Some? && row.analysis.Some?
    {
      transDate == row.transDate && receiptNum == row.receiptNum && tillNum == row.tillNum &&
      payTill == row.payTill && branch == row.branch && poster == row.poster && cash == row.cash &&
      loyalty == row.loyalty.value && state == row.state && approver == row.approver &&
      cart == row.cart && etrSeal == row.etrSeal.value && ordersInBill == row.ordersInBill &&
      analysis == row.analysis.value && total == PendingTotal(row.cart.GetOr([]))
    }

    /** The row scan of FetchAll, before the JSON columns are decoded. */
    method ScanAll(row: ReceiptRow)
      requires row.loyalty.Some? && row.etrSeal.Some? && row.analysis.Some?
      modifies this`transDate, this`receiptNum, this`tillNum, this`payTill, this`branch, this`poster
      modifies this`cash, this`loyalty, this`state, this`approver, this`etrSeal, this`ordersInBill, this`analysis
      ensures transDate == row.transDate && receiptNum == row.receiptNum && tillNum == row.tillNum
      ensures payTill == row.payTill && branch == row.branch && poster == row.poster && cash == row.cash
      ensures loyalty == row.loyalty.value && state == row.state && approver == row.approver
      ensures etrSeal == row.etrSeal.value && ordersInBill == row.ordersInBill && analysis == row.analysis.value
    {
      transDate, receiptNum, tillNum, payTill := row.transDate, row.receiptNum, row.tillNum, row.payTill;
      branch, poster, cash, loyalty := row.branch, row.poster, row.cash, row.loyalty.value;
      state, approver, etrSeal, ordersInBill := row.state, row.approver, row.etrSeal.value, row.ordersInBill;
      analysis := row.analysis.value;
    }

    /** A row FetchAll cannot read: a NULL `loyalty`, `etr_seal` or
        `analysis`, or a text that does not decode. */
    static predicate Unreadable(row: ReceiptRow, loyaltyDecodes: string -> bool, analysisDecodes: string -> bool) {
      row.loyalty.None? || row.etrSeal.None? || row.analysis.None? ||
      !loyaltyDecodes(row.loyalty.value) || !analysisDecodes(row.analysis.value)
    }

    /** FetchAll: read the whole receipt, cart unfiltered.  `loyalty`,
        `etr_seal` and `analysis` are scanned into strings, so a NULL in any
        of them fails the scan; `loyaltyDecodes` and `analysisDecodes` say
        which texts decode into a loyalty map and an analysis map.  On a
        failure the columns already scanned are left unspecified. */
    method FetchAll(db: Store, loyaltyDecodes: string -> bool, analysisDecodes: string -> bool, refused: bool)
      returns (err: Status)
      modifies this`transDate, this`receiptNum, this`tillNum, this`payTill, this`branch, this`poster
      modifies this`cash, this`loyalty, this`state, this`approver, this`cart, this`etrSeal
      modifies this`ordersInBill, this`analysis, this`total
      ensures old(receiptNum) == 0 || refused ==> err.Failure? && unchanged(this)
      ensures old(receiptNum) != 0 && !refused && !HasReceipt(db.receipts, old(receiptNum)) ==>
        err == Success && receiptNum == 0 && cart == None && total == 0.0 &&
        transDate == old(transDate) && tillNum == old(tillNum) && payTill == old(payTill) &&
        branch == old(branch) && poster == old(poster) && state == old(state) && approver == old(approver) &&
        cash == old(cash) && loyalty == old(loyalty) &&
        etrSeal == old(etrSeal) && ordersInBill == old(ordersInBill) && analysis == old(analysis)
      ensures old(receiptNum) != 0 && !refused && HasReceipt(db.receipts, old(receiptNum)) &&
              Unreadable(FindReceipt(db.receipts, old(receiptNum)).value, loyaltyDecodes, analysisDecodes) ==>
        err.Failure?
      ensures old(receiptNum) != 0 && !refused && HasReceipt(db.receipts, old(receiptNum)) &&
              !Unreadable(FindReceipt(db.receipts, old(receiptNum)).value, loyaltyDecodes, analysisDecodes) ==>
        err == Success && ShowsAll(FindReceipt(db.receipts, old(receiptNum)).value)
    {
      if receiptNum == 0 {
        return Failure("op error, receipt num is null");
      }
      if refused {
        return Failure("operation error");
      }
      var found := FindReceipt(db.receipts, receiptNum);
      if found.None? {
        receiptNum := 0;
        cart := None;
        total := PendingTotalOf([]);
        return Success;
      }
      var row := found.value;
      receiptNum := 0;
      if row.loyalty.None? || row.etrSeal.None? || row.analysis.None? {
        return Failure("error. failed to scan receipt log items");
      }
      ScanAll(row);
      if !loyaltyDecodes(loyalty) {
        return Failure("error unmarshalling loyalty data");
      }
      if !analysisDecodes(analysis) {
        return Failure("error. failed to unmarshall analysis data");
      }
      cart := row.cart;
      total := PendingTotalOf(row.cart.GetOr([]));
      return Success;
    }

    /** GetEmpty: how many rows of the receipt have no cart. */
    method GetEmpty(db: Store, refused: bool) returns (n: int, err: Status)
      ensures refused ==> n == 0 && err.Failure?
      ensures !refused ==> n == CountEmpty(db.receipts, receiptNum) && err == Success
    {
      if refused {
        return 0, Failure("failed to count empty receipts");
      }
      return CountEmpty(db.receipts, receiptNum), Success;
    }

    /** Delete: void the receipt unless its payment is final. */
    method Delete(db: Store, refused: bool) returns (err: Status)
      requires db.Valid()
      modifies db`receipts
      ensures db.Valid()
      ensures refused ==> err.Failure? && db.receipts == old(db.receipts)
      ensures !refused ==> err == Success && db.receipts == VoidReceipt(old(db.receipts), receiptNum)
    {
      if refused {
        return Failure("failed to void receipt");
      }
      var num := receiptNum;
      UpdateKeepsReceiptKeys(db.receipts, (r: ReceiptRow) => r.receiptNum == num && r.state !in PAYMENT_FINAL,
                             (r: ReceiptRow) => r.(state := VOIDED));
      db.receipts := VoidReceipt(db.receipts, receiptNum);
      return Success;
    }

    /** DelCascade: in one transaction, void the receipt (DeleteCtx) and delete
        its orders (DelOrderCtx).  Statement 1 opens the transaction, 2 and 3
        are the updates, 4 the commit, whose error is returned. */
    method DelCascade(db: Store, fault: Fault) returns (err: Status)
      requires db.Valid()
      modifies db`receipts, db`orders
      ensures db.Valid()
      ensures Refuses(fault, 1) || Refuses(fault, 2) || Refuses(fault, 3) || Refuses(fault, 4) ==>
        err.Failure? && db.receipts == old(db.receipts) && db.orders == old(db.orders)
      ensures fault == NoFault || (fault.FailAt? && fault.step > 4) ==>
        err == Success && db.receipts == VoidReceipt(old(db.receipts), receiptNum) &&
        db.orders == DeleteOrdersOf(old(db.orders), receiptNum)
    {
      if Refuses(fault, 1) {
        return Failure("failed to begin transaction");
      }
      if Refuses(fault, 2) {
        return Failure("failed to void receipt");
      }
      var num := receiptNum;
      var receipts := VoidReceipt(db.receipts, num);
      UpdateKeepsReceiptKeys(db.receipts, (r: ReceiptRow) => r.receiptNum == num && r.state !in PAYMENT_FINAL,
                             (r: ReceiptRow) => r.(state := VOIDED));
      if Refuses(fault, 3) {
        return Failure("failed to delete orders");
      }
      var orders := DeleteOrdersOf(db.orders, num);
      UpdateKeepsOrderKeys(db.orders, (o: OrderRow) => o.receiptNum == num, (o: OrderRow) => o.(state := DELETED));
      if Refuses(fault, 4) {
        return Failure("failed to commit");
      }
      db.receipts, db.orders := receipts, orders;
      return Success;
    }

    /** Suspend: park the till's pending receipts that have a cart. */
    method Suspend(db: Store, refused: bool) returns (err: Status)
      requires db.Valid()
      modifies db`receipts
      ensures db.Valid()
      ensures refused ==> err.Failure? && db.receipts == old(db.receipts)
      ensures !refused ==> err == Success && db.receipts == SuspendTill(old(db.receipts), tillNum)
    {
      if refused {
        return Failure("suspend error");
      }
      var till := tillNum;
      UpdateKeepsReceiptKeys(db.receipts, (r: ReceiptRow) => Suspendable(r, till), (r: ReceiptRow) => r.(state := SUSPEND));
      db.receipts := SuspendTill(db.receipts, tillNum);
      return Success;
    }

    /** NewBill: park the till's pending receipts that have a cart or an order with items. */
    method NewBill(db: Store, refused: bool) returns (err: Status)
      requires db.Valid()
      modifies db`receipts
      ensures db.Valid()
      ensures refused ==> err.Failure? && db.receipts == old(db.receipts)
      ensures !refused ==> err == Success && db.receipts == SuspendBills(old(db.receipts), db.orders, tillNum)
    {
      if refused {
        return Failure("suspend error");
      }
      var till := tillNum;
      var orders := db.orders;
      UpdateKeepsReceiptKeys(db.receipts, (r: ReceiptRow) => InOpenBill(r, orders, till), (r: ReceiptRow) => r.(state := SUSPEND));
      db.receipts := SuspendBills(db.receipts, db.orders, tillNum);
      return Success;
    }

    /** Resume: in one transaction, send the receipt's paying orders back to
        'dispatched' and the receipt back to 'pending'.  Statement 1 opens
        the transaction, 2 and 3 are the updates, 4 the commit, whose error
        is not checked. */
    method Resume(db: Store, fault: Fault) returns (err: Status)
      requires db.Valid()
      modifies db`receipts, db`orders
      ensures db.Valid()
      ensures Refuses(fault, 1) || Refuses(fault, 2) || Refuses(fault, 3) ==>
        err.Failure? && db.receipts == old(db.receipts) && db.orders == old(db.orders)
      ensures Refuses(fault, 4) ==>
        err == Success && db.receipts == old(db.receipts) && db.orders == old(db.orders)
      ensures fault == NoFault || (fault.FailAt? && fault.step > 4) ==>
        err == Success && db.orders == ResumeOrders(old(db.orders), receiptNum) &&
        db.receipts == ResumeBill(old(db.receipts), receiptNum)
    {
      if Refuses(fault, 1) {
        return Failure("failed to begin transaction");
      }
      if Refuses(fault, 2) {
        return Failure("failed to resume orders");
      }
      var num := receiptNum;
      var orders := ResumeOrders(db.orders, num);
      UpdateKeepsOrderKeys(db.orders, (o: OrderRow) => o.state == PAYING && o.receiptNum == num, (o: OrderRow) => o.(state := DISPATCHED));
      if Refuses(fault, 3) {
        return Failure("failed to resume bill");
      }
      var receipts := ResumeBill(db.receipts, num);
      UpdateKeepsReceiptKeys(db.receipts, (r: ReceiptRow) => (r.state == PENDING_PAYMENT || r.state == PAYING) && r.receiptNum == num,
                             (r: ReceiptRow) => r.(state := PENDING));
      if Refuses(fault, 4) {
        return Success;
      }
      db.receipts, db.orders := receipts, orders;
      return Success;
    }

    /** Merge: in one transaction, move the listed receipts' open orders onto
        this receipt, void the listed receipts, gather the items of this
        receipt's paying orders and store them as its cart with the total of
        the items not DELETED, awaiting payment.  Statement 1 opens the
        transaction, 2 moves the orders (and fails as SQL when the list is
        empty), 3 voids, 4 reads the items, 5 writes the receipt, 6 commits
        without its error being checked. */
    method Merge(db: Store, receipts: seq<int>, fault: Fault) returns (err: Status)
      requires db.Valid()
      modifies this`cart, this`total, db`orders, db`receipts
      ensures db.Valid()
      ensures var reached := !Refuses(fault, 1) && !Refuses(fault, 2) && |receipts| > 0 && !Refuses(fault, 3) &&
                             receiptNum != 0 && !Refuses(fault, 4);
        var moved := MergeOrders(old(db.orders), receipts, receiptNum);
        var gathered := Gather(moved, AwaitingOf(receiptNum));
        if !reached then
          err.Failure? && cart == old(cart) && total == old(total) &&
          db.orders == old(db.orders) && db.receipts == old(db.receipts)
        else
          cart == gathered && total == UndeletedTotal(gathered.GetOr([])) &&
          (Refuses(fault, 5) ==> err.Failure? && db.orders == old(db.orders) && db.receipts == old(db.receipts)) &&
          (Refuses(fault, 6) ==> err == Success && db.orders == old(db.orders) && db.receipts == old(db.receipts)) &&
          (!Refuses(fault, 5) && !Refuses(fault, 6) ==>
            err == Success && db.orders == moved &&
            db.receipts == WriteCart(VoidListed(old(db.receipts), receipts), receiptNum, gathered.GetOr([]), total, PENDING_PAYMENT))
    {
      if Refuses(fault, 1) {
        return Failure("failed to begin transaction");
      }
      var list := RenderReceiptList(receipts);
      ReceiptListEmpty(receipts);
      if Refuses(fault, 2) || list == "()" {
        return Failure("sql error CombineOrdersContext()");
      }
      var num := receiptNum;
      var orders := MergeOrders(db.orders, receipts, num);
      UpdateKeepsOrderKeys(db.orders, (o: OrderRow) => Mergeable(o, receipts), (o: OrderRow) => o.(receiptNum := num, state := PAYING));
      if Refuses(fault, 3) {
        return Failure("sql error VoidReceiptsContext()");
      }
      var rows := VoidListed(db.receipts, receipts);
      UpdateKeepsReceiptKeys(db.receipts, (r: ReceiptRow) => r.receiptNum in receipts, (r: ReceiptRow) => r.(state := VOIDED));
      if receiptNum == 0 {
        return Failure("error ReceiptLog->CombineOrdersInBill()    receipt_num is null");
      }
      if Refuses(fault, 4) {
        return Failure("sql error GetNewOrderItems()");
      }
      cart := CollectItems(orders, AwaitingOf(num));
      total := UndeletedTotalOf(cart.GetOr([]));
      if Refuses(fault, 5) {
        return Failure("sql error CombineReceiptsContext()");
      }
      var items := cart.GetOr([]);
      var t := total;
      UpdateKeepsReceiptKeys(rows, (r: ReceiptRow) => r.receiptNum == num,
                             (r: ReceiptRow) => r.(cart := Some(items), total := t, state := PENDING_PAYMENT));
      rows := WriteCart(rows, num, items, t, PENDING_PAYMENT);
      if Refuses(fault, 6) {
        return Success;
      }
      db.orders, db.receipts := orders, rows;
      return Success;
    }

    /** CombineOrdersInBill: the receipt's cart becomes the items of its
        dispatched orders (nil when they have none). */
    method CombineOrdersInBill(db: Store, refused: bool) returns (err: Status)
      modifies this`cart
      ensures receiptNum == 0 || refused ==> err.Failure? && cart == old(cart)
      ensures receiptNum != 0 && !refused ==> err == Success && cart == Gather(db.orders, DispatchedOf(receiptNum))
    {
      if receiptNum == 0 {
        return Failure("error ReceiptLog->CombineOrdersInBill()    receipt_num is null");
      }
      if refused {
        return Failure("failed to fetch dispatched orders");
      }
      cart := CollectItems(db.orders, DispatchedOf(receiptNum));
      return Success;
    }

    /** UpdateCart: store the cart with its pending total and the state
        (default 'pending payment'), reading back the poster. */
    method UpdateCart(db: Store, newState: string, refused: bool) returns (err: Status)
      requires db.Valid()
      modifies this`total, this`poster, db`receipts
      ensures db.Valid()
      ensures cart.None? || receiptNum == 0 ==>
        err.Failure? && total == old(total) && poster == old(poster) && db.receipts == old(db.receipts)
      ensures cart.Some? && receiptNum != 0 ==> total == PendingTotal(cart.value)
      ensures cart.Some? && receiptNum != 0 && refused ==>
        err.Failure? && poster == old(poster) && db.receipts == old(db.receipts)
      ensures cart.Some? && receiptNum != 0 && !refused ==>
        err == Success &&
        db.receipts == WriteCart(old(db.receipts), receiptNum, cart.value, total, if newState == "" then PENDING_PAYMENT else newState) &&
        poster == match FindReceipt(old(db.receipts), receiptNum) case None => old(poster) case Some(row) => row.poster
    {
      if cart.None? {
        return Failure("error. ReceiptLog->UpdateCart()    null cart");
      }
      if receiptNum == 0 {
        return Failure("error. ReceiptLog->UpdateCart()    null receipt");
      }
      var st := newState;
      if st == "" {
        st := PENDING_PAYMENT;
      }
      total := PendingTotalOf(cart.value);
      if refused {
        return Failure("error. ReceiptLog->UpdateCart()    sql error");
      }
      var found := FindReceipt(db.receipts, receiptNum);
      var num, items, t := receiptNum, cart.value, total;
      UpdateKeepsReceiptKeys(db.receipts, (r: ReceiptRow) => r.receiptNum == num,
                             (r: ReceiptRow) => r.(cart := Some(items), total := t, state := st));
      db.receipts := WriteCart(db.receipts, num, items, t, st);
      if found.Some? {
        poster := found.value.poster;
      }
      return Success;
    }

    /** CloseOrders: the receipt's dispatched orders become 'paying'. */
    method CloseOrders(db: Store, refused: bool) returns (err: Status)
      requires db.Valid()
      modifies db`orders
      ensures db.Valid()
      ensures refused ==> err.Failure? && db.orders == old(db.orders)
      ensures !refused ==> err == Success && db.orders == CloseOrdersOf(old(db.orders), receiptNum)
    {
      if refused {
        return Failure("error. ReceiptLog->CloseOrders()    sql error");
      }
      var num := receiptNum;
      UpdateKeepsOrderKeys(db.orders, (o: OrderRow) => o.receiptNum == num && o.state == DISPATCHED, (o: OrderRow) => o.(state := PAYING));
      db.orders := CloseOrdersOf(db.orders, num);
      return Success;
    }

    /** CloseBill: gather the dispatched orders into the cart, store it
        awaiting payment, then mark the orders paying.  The three statements
        (1 the read, 2 the receipt update, 3 the orders update) run outside
        any transaction, so a failure leaves the earlier steps in place; with
        no dispatched items the cart stays nil and nothing is written. */
    method CloseBill(db: Store, fault: Fault) returns (err: Status)
      requires db.Valid()
      modifies this`cart, this`total, this`poster, db`receipts, db`orders
      ensures db.Valid()
      ensures receiptNum == 0 || Refuses(fault, 1) ==>
        err.Failure? && cart == old(cart) && total == old(total) && poster == old(poster) &&
        db.receipts == old(db.receipts) && db.orders == old(db.orders)
      ensures receiptNum != 0 && !Refuses(fault, 1) ==>
        var gathered := Gather(old(db.orders), DispatchedOf(receiptNum));
        cart == gathered && db.orders == (if gathered.Some? && !Refuses(fault, 2) && !Refuses(fault, 3)
                                          then CloseOrdersOf(old(db.orders), receiptNum) else old(db.orders)) &&
        match gathered
        case None =>
          err.Failure? && total == old(total) && poster == old(poster) && db.receipts == old(db.receipts)
        case Some(items) =>
          total == PendingTotal(items) &&
          (Refuses(fault, 2) ==> err.Failure? && poster == old(poster) && db.receipts == old(db.receipts)) &&
          (!Refuses(fault, 2) ==>
            db.receipts == WriteCart(old(db.receipts), receiptNum, items, total, PENDING_PAYMENT) &&
            poster == (match FindReceipt(old(db.receipts), receiptNum) case None => old(poster) case Some(row) => row.poster) &&
            (err == Success <==> !Refuses(fault, 3)))
    {
      if receiptNum == 0 {
        return Failure("error. ReceiptLog->CloseBill()    receipt is null");
      }
      err := CombineOrdersInBill(db, Refuses(fault, 1));
      if err.Failure? {
        return Failure("error. ReceiptLog->CloseBill()    failed to combine orders in bill");
      }
      err := UpdateCart(db, "", Refuses(fault, 2));
      if err.Failure? {
        return err;
      }
      err := CloseOrders(db, Refuses(fault, 3));
    }

    /** OrdersToPay: load the items of the till's paying orders and pass them
        to OrderToSales with this receipt's poster; a failed load
        (`loadRefused`) is logged and reported as success, with nothing
        written.  `fault` numbers OrderToSales' statements. */
    method OrdersToPay(db: Store, receipt: int, users: Orders.Directory, loadRefused: bool, fault: Fault)
      returns (err: Status)
      requires db.Valid()
      modifies db`live, db`receipts
      ensures db.Valid()
      ensures loadRefused ==> err == Success && db.live == old(db.live) && db.receipts == old(db.receipts)
      ensures !loadRefused && (Refuses(fault, 1) || Refuses(fault, 2) || Refuses(fault, 3)) ==>
        err.Failure? && db.live == old(db.live) && db.receipts == old(db.receipts)
      ensures !loadRefused && Refuses(fault, 4) ==>
        err == Success && db.live == old(db.live) && db.receipts == old(db.receipts)
      ensures !loadRefused && (fault == NoFault || (fault.FailAt? && fault.step > 4)) ==>
        var items := Flatten(db.orders, Orders.PayingOf(IntToString(tillNum)));
        err == Success &&
        db.live == Orders.Relabel(old(db.live), Orders.PayingOrderNums(db.orders, users, poster), receipt) &&
        db.receipts == Orders.CloseReceiptBill(old(db.receipts), receipt, Orders.Reopened(items), LiveTotal(items))
    {
      var carts := Orders.FetchPayingOrderItems(db, IntToString(tillNum), loadRefused);
      Orders.PayingGuardNeverFires(tillNum);
      if carts.Err? {
        return Success;
      }
      var r := Orders.OrderToSales(db, carts.value.GetOr([]), receipt, poster, users, fault);
      if r.Err? {
        return Failure(r.msg);
      }
      return Success;
    }

    /** The receipt row CommitSaleCtx writes: awaiting payment, with the
        fetched pending total and the analysis JSON. */
    function Committed(rows: seq<ReceiptRow>): seq<ReceiptRow>
      reads this
    {
      var num, t, a := receiptNum, total, analysis;
      UpdateWhere(rows, (r: ReceiptRow) => r.receiptNum == num,
                  (r: ReceiptRow) => r.(state := PENDING_PAYMENT, total := t, analysis := Some(a)))
    }

    /** CommitSaleCtx: Fetch (statement 1), then write state, total and analysis (statement 2). */
    method CommitSaleCtx(db: Store, fault: Fault) returns (err: Status)
      requires db.Valid()
      modifies this`transDate, this`receiptNum, this`tillNum, this`payTill, this`branch, this`poster
      modifies this`state, this`approver, this`cart, this`total, db`receipts
      ensures db.Valid()
      ensures old(receiptNum) == 0 || Refuses(fault, 1) ==>
        err.Failure? && unchanged(this) && db.receipts == old(db.receipts)
      ensures old(receiptNum) != 0 && !Refuses(fault, 1) ==>
        (!HasReceipt(old(db.receipts), old(receiptNum)) ==>
          receiptNum == 0 && cart == Some([]) && total == 0.0 &&
          transDate == old(transDate) && tillNum == old(tillNum) && payTill == old(payTill) &&
          branch == old(branch) && poster == old(poster) && state == old(state) && approver == old(approver)) &&
        (HasReceipt(old(db.receipts), old(receiptNum)) ==> ShowsPending(FindReceipt(old(db.receipts), old(receiptNum)).value)) &&
        (Refuses(fault, 2) ==> err.Failure? && db.receipts == old(db.receipts)) &&
        (!Refuses(fault, 2) ==> err == Success && db.receipts == Committed(old(db.receipts)))
    {
      err := Fetch(db, Refuses(fault, 1));
      if err.Failure? {
        return;
      }
      if Refuses(fault, 2) {
        return Failure("failed to commit sale");
      }
      var num, t, a := receiptNum, total, analysis;
      UpdateKeepsReceiptKeys(db.receipts, (r: ReceiptRow) => r.receiptNum == num,
                             (r: ReceiptRow) => r.(state := PENDING_PAYMENT, total := t, analysis := Some(a)));
      db.receipts := Committed(db.receipts);
    }
  }
}
