/** The decisions of the cash handlers: who may get a receipt, see a cart,
    open a till or add to a cart, and what each request answers.  Reading
    the request (headers, path, body) is left to the caller: the handlers
    receive what was read. */
module Cash {
  import opened Text
  import opened Db
  import opened Carts
  import opened Sales
  import opened Tills
  import Receipts
  import Numbering

  /** The response map a handler fills. */
  datatype Reply =
    | Refusal(response: string, message: string)
    | ReceiptIssued(receipt: int)
    | CartShown(receiptText: string, values: Option<seq<Item>>, total: real, rollup: bool, stage: string)
    | TillOpened(tillNum: int)
    | CartAccepted
    | NoReply

  const FORBIDDEN := Refusal("forbidden", "forbidden")

  /** The sale type of every receipt a cashier asks for. */
  const CASH_SALE := "Cash Sale"

  /** The token check of Get: an empty token, then an invalid one, are
      refused; `claims` is what validating the token yields. */
  function Authenticate(token: string, claims: Option<User>): (r: Result<User>)
    ensures r.Ok? <==> token != "" && claims.Some?
    ensures r.Ok? ==> r.value == claims.value
    ensures token == "" ==> r == Err("broken authentication")
    ensures token != "" && claims.None? ==> r == Err("authentication error")
  {
    if token == "" then Err("broken authentication")
    else if claims.None? then Err("authentication error")
    else Ok(claims.value)
  }

  /** The reply to a refused token. */
  function AuthReply(msg: string): Reply {
    if msg == "broken authentication" then Refusal("error", msg) else Refusal(msg, msg)
  }

  /** The row get-receipt logs for a new receipt: a pending cash sale at the
      caller's till, posted by the caller for their branch and company, dated
      today with today's next count, paid at the clerk's till when the clerk
      accepts payment, and with no cart yet. */
  predicate IssuedRow(row: ReceiptRow, details: User, clerk: User, today: Date, count: nat) {
    row.tillNum == details.tillNum && row.saleType == CASH_SALE && row.poster == details.username &&
    row.branch == details.branch && row.companyId == details.companyId && row.state == PENDING &&
    row.transDate == today && row.dailyCount == count && row.cart.None? &&
    row.payTill == (if clerk.acceptPayment then clerk.tillNum else 0)
  }

  /** get-receipt: a cashier's cash-sale receipt for their till, reused when
      one is active.  Statements 1 to 3 are GenReceipt's. */
  method GetReceipt(db: Store, details: User, lookup: Option<User>, today: Date, fault: Fault) returns (reply: Reply)
    requires ValidDate(today) && db.Valid()
    modifies db`receipts
    ensures db.Valid()
    ensures !details.makeSales ==> reply == FORBIDDEN && db.receipts == old(db.receipts)
    ensures details.makeSales ==> reply == Refusal("error", "failed to get receipt") || reply.ReceiptIssued?
    ensures reply.ReceiptIssued? ==> reply.receipt > 0
    ensures reply.ReceiptIssued? && HasTill(db.tills, details.tillNum) ==> HasReceipt(db.receipts, reply.receipt)
    ensures reply.ReceiptIssued? && Receipts.OpenReceiptNum(old(db.receipts), details.tillNum, CASH_SALE) > 0 ==>
      reply.receipt == Receipts.OpenReceiptNum(old(db.receipts), details.tillNum, CASH_SALE) &&
      db.receipts == old(db.receipts)
    ensures reply.ReceiptIssued? && Receipts.OpenReceiptNum(old(db.receipts), details.tillNum, CASH_SALE) <= 0 ==>
      lookup.Some? &&
      reply.receipt == Numbering.ReceiptNumber(today, Receipts.NextReceiptCount(old(db.receipts), today))
    ensures reply.ReceiptIssued? && Receipts.OpenReceiptNum(old(db.receipts), details.tillNum, CASH_SALE) <= 0 ==>
      (db.receipts == old(db.receipts) <==>
         HasReceipt(old(db.receipts), reply.receipt) || !HasTill(db.tills, details.tillNum))
    ensures reply.ReceiptIssued? && Receipts.OpenReceiptNum(old(db.receipts), details.tillNum, CASH_SALE) <= 0 &&
            !HasReceipt(old(db.receipts), reply.receipt) && HasTill(db.tills, details.tillNum) ==>
      var row := FindReceipt(db.receipts, reply.receipt).value;
      db.receipts == old(db.receipts) + [row] &&
      IssuedRow(row, details, lookup.value, today, Receipts.NextReceiptCount(old(db.receipts), today))
    ensures details.makeSales && reply.Refusal? ==> db.receipts == old(db.receipts)
  {
    if !details.makeSales {
      return FORBIDDEN;
    }
    var a := new Receipts.ReceiptLog(0, details.tillNum, details.username, details.branch, details.companyId, CASH_SALE, 0);
    var n, err := a.GenReceipt(db, lookup, today, fault);
    if err.Failure? {
      return Refusal("error", "failed to get receipt");
    }
    if Receipts.OpenReceiptNum(old(db.receipts), details.tillNum, CASH_SALE) <= 0 {
      var row := a.Logged(today);
      if !HasReceipt(old(db.receipts), n) && HasTill(db.tills, details.tillNum) {
        Receipts.FindLogged(old(db.receipts), db.tills, row);
        assert db.receipts[|old(db.receipts)|] == row;
      } else if HasReceipt(old(db.receipts), n) {
        var k :| 0 <= k < |old(db.receipts)| && old(db.receipts)[k].receiptNum == n;
        assert db.receipts[k] == old(db.receipts)[k];
      }
    } else {
      var k :| 0 <= k < |db.receipts| && Receipts.Active(db.receipts[k], details.tillNum, CASH_SALE) &&
               db.receipts[k].receiptNum == n;
    }
    return ReceiptIssued(n);
  }

  /** The rollup check of cart: with nothing to pay, a rollup is due when
      the rollup level is not above the cash in the till; a failed cash
      query (`refused`) counts as no cash. */
  method RollupDue(db: Store, till: int, total: real, rollup: real, refused: bool) returns (due: bool)
    ensures due <==>
      total <= 0.0 &&
      rollup <= (if refused then 0.0 else CashInTill(db.receipts, db.tills, db.laybyes, db.credits, db.movements, till))
  {
    due := false;
    if total <= 0.0 {
      var cash, ignored := CashInTillQuery(db, till, refused);
      if rollup <= cash {
        due := true;
      }
    }
  }

  /** The cart stored on receipt `num`; a missing receipt or a NULL cart
      reads as no items. */
  function StoredCart(rows: seq<ReceiptRow>, num: int): seq<Item> {
    if HasReceipt(rows, num) then FindReceipt(rows, num).value.cart.GetOr([]) else []
  }

  /** cart: show a receipt's pending items.  Without a `receipt` parameter the
      cashier's receipt is generated first (statements 1 to 3) and its
      errors are ignored; statement 4 is Fetch, 5 the cash-in-till query,
      whose failure counts as no cash. */
  method GetCart(db: Store, details: User, receiptParam: Option<int>, lookup: Option<User>, today: Date,
                 rollup: real, fault: Fault) returns (reply: Reply, ghost shown: int)
    requires ValidDate(today) && db.Valid()
    modifies db`receipts
    ensures db.Valid()
    ensures !details.makeSales ==> reply == FORBIDDEN && db.receipts == old(db.receipts)
    ensures details.makeSales ==> reply == Refusal("error", "failed fetching sales cart") || reply.CartShown?
    ensures reply.CartShown? ==>
      reply.values == Some(Filter(StoredCart(db.receipts, shown), Pending)) &&
      reply.total == PendingTotal(StoredCart(db.receipts, shown))
    ensures reply.CartShown? ==>
      reply.values.Some? && (forall k :: 0 <= k < |reply.values.value| ==> Pending(reply.values.value[k])) &&
      reply.total == PendingTotal(reply.values.value)
    ensures reply.CartShown? ==>
      reply.stage == (if HasReceipt(db.receipts, shown) then FindReceipt(db.receipts, shown).value.state else "")
    ensures receiptParam.Some? ==> shown == receiptParam.value
    ensures receiptParam.None? && reply.CartShown? ==>
      (shown != 0 && reply.receiptText == IntToString(shown)) || (shown == -1 && reply.receiptText == "0")
    ensures reply.CartShown? ==>
      (reply.rollup <==>
         (reply.total <= 0.0 &&
          rollup <= (if Refuses(fault, 5) then 0.0
                     else CashInTill(db.receipts, db.tills, db.laybyes, db.credits, db.movements, details.tillNum))))
    ensures receiptParam.Some? ==> db.receipts == old(db.receipts) && (reply.CartShown? ==> reply.receiptText == "0")
    ensures details.makeSales && receiptParam.Some? ==>
      (reply.CartShown? <==> receiptParam.value != 0 && !Refuses(fault, 4))
  {
    shown := receiptParam.GetOr(0);
    if !details.makeSales {
      return FORBIDDEN, shown;
    }
    var a := new Receipts.ReceiptLog(0, details.tillNum, details.username, details.branch, details.companyId, CASH_SALE, 0);
    var receiptNum := 0;
    if receiptParam.None? {
      var ignored;
      receiptNum, ignored := a.GenReceipt(db, lookup, today, fault);
    } else {
      a.receiptNum := receiptParam.value;
    }
    shown := a.receiptNum;
    ghost var stored := StoredCart(db.receipts, shown);
    var err := a.Fetch(db, Refuses(fault, 4));
    if err.Failure? {
      return Refusal("error", "failed fetching sales cart"), shown;
    }
    FilterKeeps(stored, Pending);
    var reqRollup := RollupDue(db, details.tillNum, a.total, rollup, Refuses(fault, 5));
    return CartShown(IntToString(receiptNum), a.cart, a.total, reqRollup, a.state), shown;
  }

  /** The messages of the approval chain. */
  const ForbiddenApprover := "approval error \n approver is forbidden from opening till \n ensure you have 'Cash Rollups' rights to continue"
  const WrongToken := "incorrect user or password \n ensure you have the correct approval token \n or you have selected the right user"
  const TokenExpired := "approval error \n Token Expired \n Please renew your token to continue"

  /** The approval chain of open-till when approval is required: the approver
      needs Cash Rollups rights, then the matching token, then a token date
      not yet past; `now` and `tokenDate` are instants on one scale. */
  function Approval(approver: User, apToken: string, approveSales: bool, now: int): (r: Status)
    ensures r == Success <==> !approveSales || (approver.cashRollups && approver.token == apToken && now <= approver.tokenDate)
    ensures approveSales && !approver.cashRollups ==>
      r == Failure(ForbiddenApprover)
    ensures approveSales && approver.cashRollups && approver.token != apToken ==>
      r == Failure(WrongToken)
    ensures approveSales && approver.cashRollups && approver.token == apToken && now > approver.tokenDate ==>
      r == Failure(TokenExpired)
  {
    if !approver.cashRollups && approveSales then
      Failure(ForbiddenApprover)
    else if approver.token != apToken && approveSales then
      Failure(WrongToken)
    else if now > approver.tokenDate && approveSales then
      Failure(TokenExpired)
    else Success
  }

  /** A key of the decoded body; a missing key (or an undecodable body) reads as "". */
  function Entry(body: map<string, string>, key: string): string {
    if key in body then body[key] else ""
  }

  /** open-till: a cashier or payment clerk opens a till approved by a
      supervisor.  `body` is None when the body cannot be read, `approver`
      None when the approver lookup fails; `updated` is the login service's
      answer.  The till carries the caller as teller, the caller's branch and
      the approver as supervisor, with an opening float of 0. */
  method OpenTill(db: Store, details: User, body: Option<map<string, string>>, approver: Option<User>,
                  approveSales: bool, now: int, today: Date, fault: Fault, updated: bool)
    returns (reply: Reply, till: Till?)
    requires ValidDate(today) && db.Valid()
    modifies db`tills
    ensures db.Valid()
    ensures !details.makeSales && !details.acceptPayment ==> reply == Refusal("error", "forbidden")
    ensures (details.makeSales || details.acceptPayment) && body.None? ==> reply == Refusal("error", "bad request")
    ensures (details.makeSales || details.acceptPayment) && body.Some? && approver.None? ==>
      reply == Refusal("error", "failed to get approver")
    ensures (details.makeSales || details.acceptPayment) && body.Some? && approver.Some? &&
            Approval(approver.value, Entry(body.value, "ap_token"), approveSales, now).Failure? ==>
      reply == Refusal("error", Approval(approver.value, Entry(body.value, "ap_token"), approveSales, now).msg)
    ensures till != null <==>
      (details.makeSales || details.acceptPayment) && body.Some? && approver.Some? &&
      Approval(approver.value, Entry(body.value, "ap_token"), approveSales, now) == Success
    ensures till == null ==> reply.Refusal? && db.tills == old(db.tills)
    ensures till != null ==>
      till.teller == details.username && till.branch == details.branch &&
      body.Some? && till.supervisor == Entry(body.value, "approver") && till.openFloat == 0.0
    ensures reply.TillOpened? ==>
      reply.tillNum != 0 && LastOpen(db.tills, details.username).Some? &&
      LastOpen(db.tills, details.username).value.tillNo == reply.tillNum
  {
    till := null;
    if !details.makeSales && !details.acceptPayment {
      return Refusal("error", "forbidden"), null;
    }
    if body.None? {
      return Refusal("error", "bad request"), null;
    }
    if approver.None? {
      return Refusal("error", "failed to get approver"), null;
    }
    var approval := Approval(approver.value, Entry(body.value, "ap_token"), approveSales, now);
    if approval.Failure? {
      return Refusal("error", approval.msg), null;
    }
    reply, till := OpenApprovedTill(db, details, Entry(body.value, "approver"), today, fault, updated);
  }

  /** The till-opening step of open-till, once the request is approved. */
  method OpenApprovedTill(db: Store, details: User, supervisor: string, today: Date, fault: Fault, updated: bool)
    returns (reply: Reply, till: Till)
    requires ValidDate(today) && db.Valid()
    modifies db`tills
    ensures db.Valid() && fresh(till)
    ensures till.teller == details.username && till.branch == details.branch
    ensures till.supervisor == supervisor && till.openFloat == 0.0
    ensures reply == Refusal("error", "error\n failed while creating till") || reply.TillOpened?
    ensures reply.TillOpened? ==>
      reply.tillNum != 0 && LastOpen(db.tills, details.username).Some? &&
      LastOpen(db.tills, details.username).value.tillNo == reply.tillNum
  {
    till := new Till(details.username, supervisor, details.branch, 0.0);
    var err := till.OpenTill(db, today, fault, updated);
    if err.Failure? {
      return Refusal("error", "error\n failed while creating till"), till;
    }
    return TillOpened(till.tillNo), till;
  }

  /** add-cart: a cashier's item is checked against the catalogue.
      `decoded` is None when the body cannot be read or decoded, otherwise
      the catalogue's answer for its item code. */
  function AddCartReply(details: User, decoded: Option<Result<Product>>): (reply: Reply)
    ensures reply == CartAccepted <==> details.makeSales && decoded.Some? && AddCart(decoded.value) == Success
    ensures !details.makeSales ==> reply == FORBIDDEN
    ensures details.makeSales && decoded.None? ==> reply == Refusal("error", "bad request")
    ensures details.makeSales && decoded.Some? && AddCart(decoded.value).Failure? ==>
      reply == Refusal("error", "error\n failed while adding cart")
  {
    if !details.makeSales then FORBIDDEN
    else if decoded.None? then Refusal("error", "bad request")
    else if AddCart(decoded.value).Failure? then Refusal("error", "error\n failed while adding cart")
    else CartAccepted
  }

  /** The receipt module of Post only refuses callers without sales rights;
      it answers nothing else. */
  function ReceiptPostReply(details: User): (reply: Reply)
    ensures reply.Refusal? <==> !details.makeSales
  {
    if !details.makeSales then Refusal("error", "forbidden") else NoReply
  }
}
