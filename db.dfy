/** The persisted tables of the sales ledger and the records kept in them.
    A table is the sequence of its rows; a SELECT without ORDER BY is read in
    that order.  `Store.Valid()` holds the tables' key constraints. */
module Db {

  datatype Option<T> = None | Some(value: T) {
    function GetOr(default: T): T {
      if Some? then value else default
    }
  }

  /** A Go `(value, error)` pair: either a value or an error message. */
  datatype Result<T> = Ok(value: T) | Err(msg: string)

  /** A Go `error` on its own: nil, or a message. */
  datatype Status = Success | Failure(msg: string)

  /** Which statement of a multi-statement operation the database refuses
      (network failure, timeout, ...), numbered from 1 in the order the
      operation issues them; `NoFault` when every statement succeeds. */
  datatype Fault = NoFault | FailAt(step: Step)

  /** Statement numbers start at 1. */
  type Step = n: nat | n >= 1 witness 1

  predicate Refuses(f: Fault, step: nat) {
    f.FailAt? && f.step == step
  }

  /** The calendar day of `now()`. */
  datatype Date = Date(year: nat, month: nat, day: nat)

  predicate ValidDate(d: Date) {
    1000 <= d.year <= 9999 && 1 <= d.month <= 12 && 1 <= d.day <= 31
  }

  // Row states used by the ledger.
  const PENDING := "pending"
  const DELETED := "DELETED"
  const VOIDED := "VOIDED"
  const ORDERED := "ordered"
  const DISPATCHED := "dispatched"
  const PAYING := "paying"
  const PENDING_PAYMENT := "pending payment"
  const SUSPEND := "suspend"
  const POSTED := "POSTED"
  const CLOSED_BILL := "closed_bill"

  /** Receipt states that record a confirmed payment; a receipt in one of them is never voided. */
  const PAYMENT_FINAL: set<string> := {"POSTED", "DEBITED", "CREDITED", "PAID", "AWAITING RECEIPT"}

  /** One line of a cart (the `Sales` record stored in order and receipt JSON). */
  datatype Item = Item(
    itemCode: string,
    itemName: string,
    quantity: real,
    price: real,
    cost: real,
    orderNum: int,
    saleType: string,
    receiptItem: string,
    state: string)

  /** A row of `salesorders`.  `items` is `None` while the JSONB column is NULL. */
  datatype OrderRow = OrderRow(
    orderNum: int,
    dailyCount: nat,
    transDate: Date,
    tillNum: int,
    poster: string,
    branch: string,
    companyId: int,
    acNum: string,
    receiptNum: int,
    receipt: int,
    state: string,
    items: Option<seq<Item>>)

  /** A row of `salestrace`.  `cart` is `None` while the JSONB column is NULL;
      so are `loyalty`, `etrSeal` and `analysis` while their columns are NULL. */
  datatype ReceiptRow = ReceiptRow(
    receiptNum: int,
    transDate: Date,
    tillNum: int,
    payTill: int,
    companyId: int,
    dailyCount: nat,
    branch: string,
    poster: string,
    total: real,
    cash: real,
    cart: Option<seq<Item>>,
    state: string,
    saleType: string,
    laybyeId: int,
    approver: string,
    payDetails: map<string, real>,
    ordersInBill: int,
    loyalty: Option<string>,
    etrSeal: Option<string>,
    analysis: Option<string>)

  /** A row of `sales_till`; `closed` is `close_time IS NOT NULL`. */
  datatype TillRow = TillRow(
    tillNo: int,
    dailyId: nat,
    companyId: int,
    openDate: Date,
    openFloat: real,
    teller: string,
    supervisor: string,
    branch: string,
    closed: bool)

  /** A row of `sales_live`, keyed by the item's `receipt_item`. */
  datatype LiveRow = LiveRow(receiptNum: int, saleType: string, item: Item)

  /** A row of `gift_voucher`. */
  datatype VoucherRow = VoucherRow(
    serial: string,
    registeredBy: string,
    amount: real,
    txnReceipt: int,
    teller: string,
    claimerName: string)

  /** Rows of the tables the cash reconciliation reads. */
  datatype CashMovement = CashMovement(tillNum: int, kind: string, amount: real)
  datatype AccountTxn = AccountTxn(tillNum: int, cashPaid: real)
  datatype LaybyeTxn = LaybyeTxn(tillNum: int, transType: string, payType: string, amountPaid: real)

  /** What the user directory says about a username. */
  datatype User = User(
    username: string,
    tillNum: int,
    branch: string,
    companyId: int,
    makeSales: bool,
    acceptPayment: bool,
    cashRollups: bool,
    token: string,
    tokenDate: int)

  /** A single `UPDATE ... SET f WHERE p`: the rows satisfying `p` become `f` of themselves. */
  function UpdateWhere<T>(rows: seq<T>, p: T -> bool, f: T -> T): seq<T> {
    seq(|rows|, i requires 0 <= i < |rows| => if p(rows[i]) then f(rows[i]) else rows[i])
  }

  /** `coalesce`-free `max(f(row))` over the rows satisfying `p`; `None` when no row does. */
  function MaxOf<T>(rows: seq<T>, p: T -> bool, f: T -> int): (m: Option<int>)
    ensures m.None? <==> forall k :: 0 <= k < |rows| ==> !p(rows[k])
    ensures m.Some? ==> exists k :: 0 <= k < |rows| && p(rows[k]) && f(rows[k]) == m.value
    ensures m.Some? ==> forall k :: 0 <= k < |rows| && p(rows[k]) ==> f(rows[k]) <= m.value
    decreases |rows|
  {
    if |rows| == 0 then None
    else
      var init := rows[..|rows| - 1];
      var last := rows[|rows| - 1];
      var m := MaxOf(init, p, f);
      assert forall k :: 0 <= k < |init| ==> init[k] == rows[k];
      if !p(last) then m
      else if m.Some? && m.value >= f(last) then m
      else Some(f(last))
  }

  predicate OrderKeysUnique(rs: seq<OrderRow>) {
    forall i, j :: 0 <= i < j < |rs| ==> rs[i].orderNum != rs[j].orderNum
  }

  predicate ReceiptKeysUnique(rs: seq<ReceiptRow>) {
    forall i, j :: 0 <= i < j < |rs| ==> rs[i].receiptNum != rs[j].receiptNum
  }

  predicate TillKeysUnique(rs: seq<TillRow>) {
    forall i, j :: 0 <= i < j < |rs| ==> rs[i].tillNo != rs[j].tillNo
  }

  predicate LiveKeysUnique(rs: seq<LiveRow>) {
    forall i, j :: 0 <= i < j < |rs| ==> rs[i].item.receiptItem != rs[j].item.receiptItem
  }

  predicate HasOrder(rs: seq<OrderRow>, num: int) {
    exists i :: 0 <= i < |rs| && rs[i].orderNum == num
  }

  predicate HasReceipt(rs: seq<ReceiptRow>, num: int) {
    exists i :: 0 <= i < |rs| && rs[i].receiptNum == num
  }

  predicate HasTill(rs: seq<TillRow>, tillNo: int) {
    exists i :: 0 <= i < |rs| && rs[i].tillNo == tillNo
  }

  predicate HasLiveKey(rs: seq<LiveRow>, key: string) {
    exists i :: 0 <= i < |rs| && rs[i].item.receiptItem == key
  }

  /** An UPDATE whose WHERE matches no row changes nothing. */
  lemma UpdateWhereNoMatch<T>(rows: seq<T>, p: T -> bool, f: T -> T)
    requires forall k :: 0 <= k < |rows| ==> !p(rows[k])
    ensures UpdateWhere(rows, p, f) == rows
  {
  }

  /** An UPDATE that does not touch `order_num` keeps the primary key. */
  lemma UpdateKeepsOrderKeys(rows: seq<OrderRow>, p: OrderRow -> bool, f: OrderRow -> OrderRow)
    requires OrderKeysUnique(rows)
    requires forall k :: 0 <= k < |rows| ==> f(rows[k]).orderNum == rows[k].orderNum
    ensures OrderKeysUnique(UpdateWhere(rows, p, f))
  {
  }

  /** An UPDATE that does not touch `receipt_num` keeps the primary key. */
  lemma UpdateKeepsReceiptKeys(rows: seq<ReceiptRow>, p: ReceiptRow -> bool, f: ReceiptRow -> ReceiptRow)
    requires ReceiptKeysUnique(rows)
    requires forall k :: 0 <= k < |rows| ==> f(rows[k]).receiptNum == rows[k].receiptNum
    ensures ReceiptKeysUnique(UpdateWhere(rows, p, f))
  {
  }

  /** An UPDATE that does not touch `receipt_item` keeps the unique key. */
  lemma UpdateKeepsLiveKeys(rows: seq<LiveRow>, p: LiveRow -> bool, f: LiveRow -> LiveRow)
    requires LiveKeysUnique(rows)
    requires forall k :: 0 <= k < |rows| ==> f(rows[k]).item.receiptItem == rows[k].item.receiptItem
    ensures LiveKeysUnique(UpdateWhere(rows, p, f))
  {
  }

  lemma AppendFreshOrder(rows: seq<OrderRow>, row: OrderRow)
    requires OrderKeysUnique(rows) && !HasOrder(rows, row.orderNum)
    ensures OrderKeysUnique(rows + [row])
  {
  }

  lemma AppendFreshReceipt(rows: seq<ReceiptRow>, row: ReceiptRow)
    requires ReceiptKeysUnique(rows) && !HasReceipt(rows, row.receiptNum)
    ensures ReceiptKeysUnique(rows + [row])
  {
  }

  lemma AppendFreshTill(rows: seq<TillRow>, row: TillRow)
    requires TillKeysUnique(rows) && !HasTill(rows, row.tillNo)
    ensures TillKeysUnique(rows + [row])
  {
  }

  lemma AppendFreshLive(rows: seq<LiveRow>, row: LiveRow)
    requires LiveKeysUnique(rows) && !HasLiveKey(rows, row.item.receiptItem)
    ensures LiveKeysUnique(rows + [row])
  {
  }

  /** Under the primary key, the row FindOrder returns is the only row with that key. */
  lemma FindOrderUnique(rows: seq<OrderRow>, num: int, k: int)
    requires OrderKeysUnique(rows) && 0 <= k < |rows| && rows[k].orderNum == num
    ensures FindOrder(rows, num) == Some(rows[k])
  {
    var r := FindOrder(rows, num);
    var j :| 0 <= j < |rows| && rows[j] == r.value;
  }

  /** Under the primary key, the row FindReceipt returns is the only row with that key. */
  lemma FindReceiptUnique(rows: seq<ReceiptRow>, num: int, k: int)
    requires ReceiptKeysUnique(rows) && 0 <= k < |rows| && rows[k].receiptNum == num
    ensures FindReceipt(rows, num) == Some(rows[k])
  {
    var r := FindReceipt(rows, num);
    var j :| 0 <= j < |rows| && rows[j] == r.value;
  }

  /** The row of `salesorders` with key `num`, if any. */
  function FindOrder(rs: seq<OrderRow>, num: int): (r: Option<OrderRow>)
    ensures r.Some? <==> HasOrder(rs, num)
    ensures r.Some? ==> r.value in rs && r.value.orderNum == num
  {
    if |rs| == 0 then None
    else if rs[0].orderNum == num then Some(rs[0])
    else
      var r := FindOrder(rs[1..], num);
      assert HasOrder(rs[1..], num) ==> HasOrder(rs, num) by {
        if HasOrder(rs[1..], num) {
          var i :| 0 <= i < |rs[1..]| && rs[1..][i].orderNum == num;
          assert rs[i + 1].orderNum == num;
        }
      }
      r
  }

  /** The row of `salestrace` with key `num`, if any. */
  function FindReceipt(rs: seq<ReceiptRow>, num: int): (r: Option<ReceiptRow>)
    ensures r.Some? <==> HasReceipt(rs, num)
    ensures r.Some? ==> r.value in rs && r.value.receiptNum == num
  {
    if |rs| == 0 then None
    else if rs[0].receiptNum == num then Some(rs[0])
    else
      var r := FindReceipt(rs[1..], num);
      assert HasReceipt(rs[1..], num) ==> HasReceipt(rs, num) by {
        if HasReceipt(rs[1..], num) {
          var i :| 0 <= i < |rs[1..]| && rs[1..][i].receiptNum == num;
          assert rs[i + 1].receiptNum == num;
        }
      }
      r
  }

  /** The database the ledger runs against. */
  class Store {
    var orders: seq<OrderRow>        // salesorders
    var receipts: seq<ReceiptRow>    // salestrace
    var tills: seq<TillRow>          // sales_till
    var live: seq<LiveRow>           // sales_live
    var vouchers: seq<VoucherRow>    // gift_voucher
    var movements: seq<CashMovement> // cash_movement
    var credits: seq<AccountTxn>     // accounts_txn
    var laybyes: seq<LaybyeTxn>      // laybye_trans

    /** The key constraints of the schema. */
    ghost predicate Valid()
      reads this
    {
      OrderKeysUnique(orders) && ReceiptKeysUnique(receipts) && TillKeysUnique(tills) && LiveKeysUnique(live)
    }

    constructor ()
      ensures Valid()
      ensures orders == [] && receipts == [] && tills == [] && live == [] && vouchers == []
      ensures movements == [] && credits == [] && laybyes == []
    {
      orders, receipts, tills, live, vouchers := [], [], [], [], [];
      movements, credits, laybyes := [], [], [];
    }
  }
}
