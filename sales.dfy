/** The cash reconciliation of a till and the catalogue check of AddCart. */
module Sales {
  import opened Db

  // ---------------------------------------------------------------------
  // Cash in till

  /** The sum of `f` over a table, row by row. */
  function SumOver<T>(xs: seq<T>, f: T -> real): real
    decreases |xs|
  {
    if |xs| == 0 then 0.0 else SumOver(xs[..|xs| - 1], f) + f(xs[|xs| - 1])
  }

  lemma {:induction false} SumOverAppend<T>(xs: seq<T>, ys: seq<T>, f: T -> real)
    ensures SumOver(xs + ys, f) == SumOver(xs, f) + SumOver(ys, f)
    decreases |ys|
  {
    if |ys| == 0 {
      assert xs + ys == xs;
    } else {
      SumOverAppend(xs, ys[..|ys| - 1], f);
      assert (xs + ys)[..|xs + ys| - 1] == xs + ys[..|ys| - 1];
    }
  }

  /** `pay_details->'cash'` of a receipt; a missing key is NULL, which SUM skips. */
  function CashOf(r: ReceiptRow): real {
    if "cash" in r.payDetails then r.payDetails["cash"] else 0.0
  }

  /** The receipts the anchor subquery reads: POSTED and paid at the till. */
  predicate PostedAt(r: ReceiptRow, till: int) {
    r.payTill == till && r.state == POSTED
  }

  predicate HasPosted(receipts: seq<ReceiptRow>, till: int) {
    exists k :: 0 <= k < |receipts| && PostedAt(receipts[k], till)
  }

  /** Cash taken on the till's POSTED receipts. */
  function PostedCash(receipts: seq<ReceiptRow>, till: int): real {
    SumOver(receipts, (r: ReceiptRow) => if PostedAt(r, till) then CashOf(r) else 0.0)
  }

  /** Laybye payments in cash at the till; the laybye subquery is anchored on
      `sales_till`, so a till missing there contributes nothing. */
  function LaybyeCash(laybyes: seq<LaybyeTxn>, tills: seq<TillRow>, till: int): real {
    if HasTill(tills, till) then
      SumOver(laybyes, (l: LaybyeTxn) =>
        if l.tillNum == till && l.transType == "payment" && l.payType == "cash" then l.amountPaid else 0.0)
    else 0.0
  }

  /** Cash paid on account at the till. */
  function CreditCash(credits: seq<AccountTxn>, till: int): real {
    SumOver(credits, (c: AccountTxn) => if c.tillNum == till then c.cashPaid else 0.0)
  }

  /** Cash rolled up out of the till. */
  function Rollups(movements: seq<CashMovement>, till: int): real {
    SumOver(movements, (m: CashMovement) => if m.tillNum == till && m.kind == "cash rollup" then m.amount else 0.0)
  }

  /** The `cash_in_till` column: every missing part counts as 0. */
  function Balance(receipts: seq<ReceiptRow>, tills: seq<TillRow>, laybyes: seq<LaybyeTxn>,
                   credits: seq<AccountTxn>, movements: seq<CashMovement>, till: int): real {
    PostedCash(receipts, till) + LaybyeCash(laybyes, tills, till) + CreditCash(credits, till) - Rollups(movements, till)
  }

  /** The number of distinct tills with laybye payments of a kind (the rows of one grouped subquery). */
  function PaymentGroups(laybyes: seq<LaybyeTxn>, payType: string): nat {
    |set l | l in laybyes && l.transType == "payment" && l.payType == payType :: l.tillNum|
  }

  /** How many times the till's row repeats in the result.  The ecard and
      cheque subqueries are joined on `t.till_no = mpesa.till_num`, so once
      the till has an mpesa laybye payment each of their groups matches. */
  function Repeats(laybyes: seq<LaybyeTxn>, tills: seq<TillRow>, till: int): (n: nat)
    ensures n >= 1
  {
    var mpesa := exists k :: 0 <= k < |laybyes| && laybyes[k].tillNum == till &&
                             laybyes[k].transType == "payment" && laybyes[k].payType == "mpesa";
    if HasTill(tills, till) && mpesa then
      var e, c := PaymentGroups(laybyes, "ecard"), PaymentGroups(laybyes, "cheque");
      (if e == 0 then 1 else e) * (if c == 0 then 1 else c)
    else 1
  }

  /** The rows the query returns: none without a POSTED receipt at the till,
      otherwise the balance, repeated by the faulty joins. */
  function QueryRows(receipts: seq<ReceiptRow>, tills: seq<TillRow>, laybyes: seq<LaybyeTxn>,
                     credits: seq<AccountTxn>, movements: seq<CashMovement>, till: int): seq<real> {
    if HasPosted(receipts, till) then
      seq(Repeats(laybyes, tills, till), _ => Balance(receipts, tills, laybyes, credits, movements, till))
    else []
  }

  /** What CashInTill reports: the balance when the till has a POSTED receipt, else 0. */
  function CashInTill(receipts: seq<ReceiptRow>, tills: seq<TillRow>, laybyes: seq<LaybyeTxn>,
                     credits: seq<AccountTxn>, movements: seq<CashMovement>, till: int): real {
    if HasPosted(receipts, till) then Balance(receipts, tills, laybyes, credits, movements, till) else 0.0
  }

  /** CashInTill: run the reconciliation query and keep the last row scanned. */
  method CashInTillQuery(db: Store, till: int, refused: bool) returns (balance: real, err: Status)
    ensures refused ==> balance == 0.0 && err.Failure?
    ensures !refused ==> err == Success
    ensures !refused ==> balance == CashInTill(db.receipts, db.tills, db.laybyes, db.credits, db.movements, till)
  {
    if refused {
      return 0.0, Failure("error cash in till");
    }
    var rows := QueryRows(db.receipts, db.tills, db.laybyes, db.credits, db.movements, till);
    ghost var v := Balance(db.receipts, db.tills, db.laybyes, db.credits, db.movements, till);
    balance := 0.0;
    var i := 0;
    while i < |rows|
      invariant 0 <= i <= |rows|
      invariant balance == if i == 0 then 0.0 else rows[i - 1]
    {
      balance := rows[i];
      i := i + 1;
    }
    if HasPosted(db.receipts, till) {
      assert rows[|rows| - 1] == v;
    }
    return balance, Success;
  }

  /** A sale paid at another till, or not POSTED, does not move the balance. */
  lemma CashInTillOtherReceipt(receipts: seq<ReceiptRow>, tills: seq<TillRow>, laybyes: seq<LaybyeTxn>,
                               credits: seq<AccountTxn>, movements: seq<CashMovement>, till: int, r: ReceiptRow)
    requires !PostedAt(r, till)
    ensures CashInTill(receipts + [r], tills, laybyes, credits, movements, till) ==
            CashInTill(receipts, tills, laybyes, credits, movements, till)
  {
    SumOverAppend(receipts, [r], (x: ReceiptRow) => if PostedAt(x, till) then CashOf(x) else 0.0);
    assert SumOver([r], (x: ReceiptRow) => if PostedAt(x, till) then CashOf(x) else 0.0) == 0.0;
    if HasPosted(receipts + [r], till) {
      var k :| 0 <= k < |receipts + [r]| && PostedAt((receipts + [r])[k], till);
      assert k < |receipts| && (receipts + [r])[k] == receipts[k];
    }
    if HasPosted(receipts, till) {
      var k :| 0 <= k < |receipts| && PostedAt(receipts[k], till);
      assert (receipts + [r])[k] == receipts[k];
    }
  }

  /** A POSTED sale at the till adds its cash; the first one also brings in
      the laybye, account and rollup parts. */
  lemma CashInTillPostedSale(receipts: seq<ReceiptRow>, tills: seq<TillRow>, laybyes: seq<LaybyeTxn>,
                             credits: seq<AccountTxn>, movements: seq<CashMovement>, till: int, r: ReceiptRow)
    requires PostedAt(r, till)
    ensures CashInTill(receipts + [r], tills, laybyes, credits, movements, till) ==
            (if HasPosted(receipts, till) then CashInTill(receipts, tills, laybyes, credits, movements, till)
             else Balance([], tills, laybyes, credits, movements, till)) + CashOf(r)
  {
    var f := (x: ReceiptRow) => if PostedAt(x, till) then CashOf(x) else 0.0;
    SumOverAppend(receipts, [r], f);
    assert SumOver([r], f) == CashOf(r);
    assert HasPosted(receipts + [r], till) by {
      assert PostedAt((receipts + [r])[|receipts|], till);
    }
    if !HasPosted(receipts, till) {
      forall k | 0 <= k < |receipts| ensures f(receipts[k]) == 0.0 {
      }
      SumOverZero(receipts, f);
    }
  }

  lemma {:induction false} SumOverZero<T>(xs: seq<T>, f: T -> real)
    requires forall k :: 0 <= k < |xs| ==> f(xs[k]) == 0.0
    ensures SumOver(xs, f) == 0.0
    decreases |xs|
  {
    if |xs| > 0 {
      SumOverZero(xs[..|xs| - 1], f);
    }
  }

  /** A cash rollup at a till with POSTED sales lowers its balance by the amount rolled up. */
  lemma CashInTillRollup(receipts: seq<ReceiptRow>, tills: seq<TillRow>, laybyes: seq<LaybyeTxn>,
                         credits: seq<AccountTxn>, movements: seq<CashMovement>, till: int, amount: real)
    requires HasPosted(receipts, till)
    ensures CashInTill(receipts, tills, laybyes, credits, movements + [CashMovement(till, "cash rollup", amount)], till) ==
            CashInTill(receipts, tills, laybyes, credits, movements, till) - amount
  {
    SumOverAppend(movements, [CashMovement(till, "cash rollup", amount)],
                  (m: CashMovement) => if m.tillNum == till && m.kind == "cash rollup" then m.amount else 0.0);
  }

  /** A cash laybye payment counts only at a till present in `sales_till`. */
  lemma CashInTillLaybye(receipts: seq<ReceiptRow>, tills: seq<TillRow>, laybyes: seq<LaybyeTxn>,
                         credits: seq<AccountTxn>, movements: seq<CashMovement>, till: int, amount: real)
    requires HasPosted(receipts, till)
    ensures CashInTill(receipts, tills, laybyes + [LaybyeTxn(till, "payment", "cash", amount)], credits, movements, till) ==
            CashInTill(receipts, tills, laybyes, credits, movements, till) + (if HasTill(tills, till) then amount else 0.0)
  {
    SumOverAppend(laybyes, [LaybyeTxn(till, "payment", "cash", amount)],
                  (l: LaybyeTxn) => if l.tillNum == till && l.transType == "payment" && l.payType == "cash" then l.amountPaid else 0.0);
  }

  // ---------------------------------------------------------------------
  // AddCart

  /** What the inventory service returns for an item code. */
  datatype Product = Product(itemCode: string, tillPrice: real)

  /** AddCart: the catalogue lookup's error is passed on; then an empty item
      code and then a zero till price are refused. */
  function AddCart(lookup: Result<Product>): (r: Status)
    ensures r == Success <==> lookup.Ok? && lookup.value.itemCode != "" && lookup.value.tillPrice != 0.0
    ensures lookup.Err? ==> r == Failure(lookup.msg)
    ensures lookup.Ok? && lookup.value.itemCode == "" ==> r == Failure("item code is required")
    ensures lookup.Ok? && lookup.value.itemCode != "" && lookup.value.tillPrice == 0.0 ==> r == Failure("item price is required")
  {
    match lookup
    case Err(msg) => Failure(msg)
    case Ok(p) =>
      if p.itemCode == "" then Failure("item code is required")
      else if p.tillPrice == 0.0 then Failure("item price is required")
      else Success
  }
}
