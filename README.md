# SpeedSales POS sales ledger — a Dafny model

This project models the sales ledger of the SpeedSales point-of-sale server.
It covers the following parts:

- **Orders** (`salesorders`): numbering, item keys, adding and deleting items, completing an order into a kitchen voucher, and copying an order into the live sales ledger (`sales_live`).
- **Receipts** (`salestrace`): numbering and logging a receipt, reading it back, voiding, suspending, resuming, merging receipts, closing a bill and committing a sale.
- **Tills** (`sales_till`): numbering a till, finding the teller's open till and opening a new one.
- **Cash reconciliation**: the cash in a till.
- **Catalogue check**: the one AddCart makes on an item.
- **Cash handlers**: who may get a receipt, see a cart, open a till, add an item, or post a receipt.
- **Gift vouchers**: validating and registering one.
- **System defaults**: the JSON object assembled from `sys_conf`, and the choice between cache and database.
- **Table creation**: the CREATE TABLE and ALTER TABLE statements built from a record's field tags.

How the database is modelled:

- **Tables.** The database is the class `Db.Store`. Each table is a sequence field, and rows are read in that order. `Store.Valid()` holds the schema's key constraints:
  - `order_num` is the primary key of orders.
  - `receipt_num` is the primary key of receipts.
  - `till_no` is unique.
  - `receipt_item` is unique in `sales_live`.
- **Updates.** An SQL UPDATE is `UpdateWhere`, a row-wise map guarded by the WHERE predicate.
- **Failures.**
  - A statement the database refuses is a `refused` flag.
  - In a multi-statement transaction it is a `Fault` naming the failing statement.
- **Error reporting follows the driver.**
  - A statement sent with `Query` reports only a send failure. A row the server rejects on a key is simply not written.
  - `Exec` and `QueryRow` report every failure.
  - Where the code ignores the error of `tx.Commit`, success is reported while nothing is kept.

## Model

| member | source | states |
|---|---|---|
| Numbering.DateText | pkg/sales/orders.go:123-126 | the date as `YYYYMMDD` is 8 digits, canonical, not starting with 0 |
| Numbering.DateTextInjective | pkg/sales/orders.go:123-126 | two dates with the same text are the same date |
| Numbering.BranchCode | pkg/sales/orders.go:127 | `CONCAT(company_id, branch_id)` is all digits, at least two |
| Numbering.OrderNumberText | pkg/sales/orders.go:123-129 | an order number's text starts with the date and is a canonical numeral |
| Numbering.OrderNumber | pkg/sales/orders.go:123-129 | order numbers are positive |
| Numbering.OrderNumberInjective | pkg/sales/orders.go:123-129 | for one branch code, equal order numbers mean the same day and daily count |
| Numbering.OrderNumberCollision | pkg/sales/orders.go:123-129 | company 1/branch 2 on count 34 and company 1/branch 23 on count 4 get the same number; so do company 1/branch 12 and company 11/branch 2 on any count |
| Numbering.ReceiptNumberText | pkg/sales/sales.go:93-100 | a receipt number's text is "1", the date, then digits |
| Numbering.ReceiptNumber | pkg/sales/sales.go:93-100 | receipt numbers are positive |
| Numbering.ReceiptNumberInjective | pkg/sales/sales.go:93-100 | equal receipt numbers mean the same day and daily count |
| Numbering.TillNumberText | pkg/sales/tills.go:123 | a till number's text starts with the date |
| Numbering.TillNumber | pkg/sales/tills.go:123 | till numbers are positive |
| Numbering.TillNumberInjective | pkg/sales/tills.go:123 | till numbers are equal exactly when day and daily id are, whatever the branch |
| Numbering.ItemKey | pkg/sales/orders.go:391 | an item key is the order number followed by "-" and more |
| Numbering.ItemKeyInjective | pkg/sales/orders.go:391 | within one order, keys are equal exactly when positions are |
| Db.MaxOf | pkg/sales/orders.go:74 | `max` over the matching rows: None iff no row matches, otherwise a matching row's value bounding all others |
| Db.FindOrder | pkg/sales/orders.go:161-188 | an order is found iff the table holds its number, and the found row has it |
| Db.FindReceipt | pkg/sales/receipts.go:112-181 | a receipt is found iff the table holds its number, and the found row has it |
| Carts.OrderTotal | pkg/sales/orders.go:440-454 | the loop's total is the quantity × price sum over the items neither DELETED nor VOIDED |
| Carts.TotalsAgree | pkg/sales/orders.go:440-454 | when every item is pending or DELETED, the order, pending and undeleted totals agree |
| Carts.UndeletedCountsVoided | pkg/sales/receipts.go:532-559 | the merged-receipt total exceeds the order total by exactly the VOIDED items |
| Carts.Filter | pkg/sales/receipts.go:112-181 | the kept items are exactly the items satisfying the filter, in cart order |
| Carts.FilterKeeps | pkg/sales/receipts.go:112-181 | the total over the kept items equals the filtered total over the cart |
| Carts.PendingTotalOf | pkg/sales/orders.go:869-913 | UpdateCart's loop totals exactly the pending items |
| Carts.PendingCart | pkg/sales/receipts.go:112-181 | Fetch's loop keeps exactly the pending items and totals them |
| Carts.UndeletedTotalOf | pkg/sales/receipts.go:532-559 | the merge loop totals every item not DELETED |
| Carts.GoAppend | pkg/sales/receipts.go:493-530 | Go's `append` on a nil slice: contents are concatenated, and the result stays nil iff nothing is appended to nil |
| Carts.GatherFlattens | pkg/sales/receipts.go:493-530 | the gathered cart holds the selected rows' items in row order, and is nil iff they have none |
| Carts.CollectItems | pkg/sales/orders.go:221-254 | the row loop builds exactly the gathered cart |
| Orders.NextOrderNum | pkg/sales/orders.go:67-98 | 0 for an unknown poster; otherwise the largest open order of the poster's till on the receipt, or 0 |
| Orders.BranchCodeOf | pkg/sales/orders.go:127 | the branch code is all digits |
| Orders.NextDailyCount | pkg/sales/orders.go:128-130 | at least 1 and above every daily count of today's orders of the company and branch |
| Orders.NewOrderRow | pkg/sales/orders.go:101-158 | a row is inserted only when its number is new and the poster is known; it is pending, with no items and no receipt |
| Orders.NewOrderNumberFresh | pkg/sales/orders.go:122-140 | the new number differs from every order of the day numbered by the same branch's scheme |
| Orders.AppendKeepsKeyScheme | pkg/sales/orders.go:391-400 | appending an item keeps the earlier items and keys every item by its position |
| Orders.KeySchemeDistinct | pkg/sales/orders.go:391 | keys following the position scheme are pairwise distinct |
| Orders.DeleteItemFrame | pkg/sales/orders.go:620-627 | deleting flips only pending items with the key, only their state, keeps the key scheme, and is idempotent |
| Orders.DeleteItemTotal | pkg/sales/orders.go:620-661 | deleting lowers the order total by exactly the deleted items |
| Orders.OrdIsDeletable | pkg/sales/orders.go:587-607 | true iff the order exists and is pending |
| Orders.AddToGroupSums | pkg/sales/orders.go:509-522 | adding an item to the voucher adds its quantity and amount to its group's sums only |
| Orders.AddToGroupKeys | pkg/sales/orders.go:509-522 | adding an item keeps the groups distinct and opens the item's group if missing |
| Orders.VoucherByGroup | pkg/sales/orders.go:509-522 | the voucher's per-group sums equal the pending items' quantity and amount of that group |
| Orders.DistinctLineSums | pkg/sales/orders.go:509-522 | with distinct groups, a group's sums are its own line's figures |
| Orders.NoGroupSumsZero | pkg/sales/orders.go:509-522 | a group with no line sums to zero |
| Orders.VoucherLinesAreGroupSums | pkg/sales/orders.go:509-545 | the voucher has one line per group of pending items, carrying exactly that group's quantity and amount |
| Orders.HasGroupConcat | pkg/sales/orders.go:509-522 | a group is in a concatenation iff it is in one of its parts |
| Orders.CopyToLiveGrows | pkg/sales/orders.go:674-710 | copying keeps every ledger row, keeps `receipt_item` unique, and every copied key is present |
| Orders.CopyToLivePresent | pkg/sales/orders.go:706-710 | when every key is already in the ledger, copying adds nothing |
| Orders.CopyToLiveIdempotent | pkg/sales/orders.go:665-739 | running the copy twice adds nothing the first run did not |
| Orders.ReopenedTotal | pkg/sales/orders.go:786-825 | the stored total is the reopened cart's pending total plus the lower-case deleted/voided items |
| Orders.PayingGuardNeverFires | pkg/sales/orders.go:222 | no printed integer is "" or "00" |
| Orders.FetchPayingOrderItems | pkg/sales/orders.go:221-254 | "" and "00" fail, and so does a failed query; otherwise the items of the till's paying orders in row order, nil when none |
| Orders.SetOrderPay | pkg/sales/orders.go:665-739 | statements 1–3 failing change nothing; a failed commit reports success and changes nothing; otherwise the items are copied and the order is marked paying |
| Orders.OrderToSales | pkg/sales/orders.go:786-825 | the same three outcomes; on success the paying orders' ledger rows are relabelled and the receipt is closed with the reopened cart and OrderTotal |
| Orders.Order.constructor | pkg/sales/orders.go:16-60 | a new order holds the given identity and no items |
| Orders.Order.NextOrder | pkg/sales/orders.go:67-98 | the order number becomes NextOrderNum |
| Orders.Order.NewOrder | pkg/sales/orders.go:101-158 | an open order is reused; otherwise the numbered row is inserted when the database accepts it, and success is reported either way |
| Orders.Order.FetchItems | pkg/sales/orders.go:161-188 | the items become the order's items (`[]` for NULL); a missing order fails |
| Orders.Order.AddToOrder | pkg/sales/orders.go:375-437 | the item is appended keyed by its position and pending by default, the row rewritten, and the cart and its total returned |
| Orders.Order.CompleteOrder | pkg/sales/orders.go:457-506 | the order takes its completed state and the voucher groups its pending items; the commit is not checked |
| Orders.DelOrderItem | pkg/sales/orders.go:610-662 | for a pending order the item is deleted and the cart and total are returned; otherwise nothing is written and an empty cart totals 0 |
| Receipts.OpenReceiptNum | pkg/sales/receipts.go:72-90 | 0 when no receipt is active; otherwise the largest active receipt number |
| Receipts.NextReceiptCount | pkg/sales/sales.go:99-103 | at least 1 and above every daily count of today's receipts |
| Receipts.ReceiptNumberFresh | pkg/sales/sales.go:93-103 | the new receipt number differs from every receipt numbered by the scheme |
| Receipts.LogInto | pkg/sales/sales.go:127-149 | the row is added iff its number is new and its till exists; keys stay unique |
| Receipts.VoidReceiptKeepsFinal | pkg/sales/receipts.go:288-296 | a receipt whose payment is final is never voided; the others with the number are; voiding twice changes nothing |
| Receipts.CascadeOnFinalReceipt | pkg/sales/receipts.go:318-338 | a cascade on a final receipt keeps it but deletes every one of its orders |
| Receipts.NewBillExtendsSuspend | pkg/sales/receipts.go:340-374 | NewBill parks every receipt Suspend parks, and exactly those when no order has items |
| Receipts.ResumeLeavesSuspended | pkg/sales/receipts.go:389-403 | suspended and final receipts are untouched; a receipt turns pending iff it was awaiting payment or paying |
| Receipts.CloseThenResume | pkg/sales/receipts.go:376-387 | Resume undoes CloseOrders when no order was paying, and CloseOrders undoes Resume when none was dispatched |
| Receipts.ReceiptListEmpty | pkg/sales/receipts.go:435-442 | the SQL list is the invalid `()` iff no receipts are given |
| Receipts.RenderReceiptList | pkg/sales/receipts.go:435-442 | the loop renders `(a, b, c)` |
| Receipts.MergeVoidsFinal | pkg/sales/receipts.go:481-491 | a merged receipt ends VOIDED even when POSTED, which Delete would never void |
| Receipts.MergeGathersMoved | pkg/sales/receipts.go:469-479 | every moved order is one the merged cart gathers |
| Receipts.CountEmptyIsFlag | pkg/sales/receipts.go:268-286 | under the primary key the count of cartless rows is 1 iff the receipt exists without a cart, else 0 |
| Receipts.ReceiptLog.constructor | pkg/sales/receipts.go:16-52 | a receipt with the given identity and Go zero values elsewhere |
| Receipts.ReceiptLog.Logged | pkg/sales/sales.go:131-133 | the inserted row is pending with the receipt's identity and NULL cart and JSON columns |
| Receipts.ReceiptLog.LogReceipt | pkg/sales/sales.go:127-149 | only a send failure is reported; the table becomes LogInto of the row |
| Receipts.ReceiptLog.CreateReceipt | pkg/sales/sales.go:77-124 | the pay till is taken from a payment clerk; the number and count are the next ones; the receipt is logged |
| Receipts.ReceiptLog.GenReceipt | pkg/sales/receipts.go:60-109 | no till or a failed lookup fails; an active receipt is reused; otherwise a new one is created |
| Receipts.ReceiptLog.Fetch | pkg/sales/receipts.go:112-181 | no number or a failure changes nothing; a missing receipt reads as 0 with an empty cart; otherwise the pending items and their total |
| Receipts.ReceiptLog.ShowPending | pkg/sales/receipts.go:150-177 | the scanned columns are the row's, and the cart is the row's pending items with their total |
| Receipts.ReceiptLog.ScanAll | pkg/sales/receipts.go:226-236 | every scanned column is copied from the row |
| Receipts.ReceiptLog.FetchAll | pkg/sales/receipts.go:184-253 | as Fetch, with the full cart and every column; an unreadable row fails |
| Receipts.ReceiptLog.LoggedUnreadable | pkg/sales/receipts.go:212-225 | a receipt LogReceipt has just inserted has NULL `loyalty`, `etr_seal` and `analysis`, so FetchAll's scan of it fails |
| Receipts.ReceiptLog.GetEmpty | pkg/sales/receipts.go:268-286 | the count of the receipt's rows without a cart |
| Receipts.ReceiptLog.Delete | pkg/sales/receipts.go:288-296 | the receipts become VoidReceipt of the number |
| Receipts.ReceiptLog.DelCascade | pkg/sales/receipts.go:318-338 | any failing statement, the commit included, changes nothing; otherwise the receipt is voided and its orders deleted |
| Receipts.ReceiptLog.Suspend | pkg/sales/receipts.go:340-350 | the receipts become SuspendTill of the till |
| Receipts.ReceiptLog.NewBill | pkg/sales/receipts.go:352-374 | the receipts become SuspendBills of the till |
| Receipts.ReceiptLog.Resume | pkg/sales/receipts.go:405-425 | statements 1–3 failing fail; a failed commit reports success and changes nothing; otherwise orders and receipt are resumed |
| Receipts.ReceiptLog.Merge | pkg/sales/receipts.go:427-467 | the open orders are moved, the listed receipts voided, and the cart is gathered and written awaiting payment |
| Receipts.ReceiptLog.CombineOrdersInBill | pkg/sales/orders.go:257-293 | the cart becomes the dispatched orders' items |
| Receipts.ReceiptLog.UpdateCart | pkg/sales/orders.go:869-913 | a nil cart or no number fails; otherwise the pending total and the state are stored with the cart |
| Receipts.ReceiptLog.CloseOrders | pkg/sales/orders.go:915-924 | the orders become CloseOrdersOf the receipt |
| Receipts.ReceiptLog.CloseBill | pkg/sales/orders.go:846-867 | gathers the dispatched orders into the cart, stores it and marks the orders paying |
| Receipts.ReceiptLog.OrdersToPay | pkg/sales/orders.go:828-843 | a failed load of the paying items reports success and writes nothing; otherwise the items go through OrderToSales, with its three outcomes |
| Receipts.ReceiptLog.CommitSaleCtx | pkg/sales/receipts.go:561-584 | after a fetch, the receipt is written awaiting payment with its total and analysis |
| Sales.SumOverAppend | pkg/sales/sales.go:162-215 | a sum over a concatenation is the sum of the sums |
| Sales.Repeats | pkg/sales/sales.go:185-215 | the till's row appears at least once |
| Sales.CashInTillQuery | pkg/sales/sales.go:152-238 | a failed query gives 0 and an error; otherwise the balance when the till has a POSTED receipt, else 0 |
| Sales.CashInTillOtherReceipt | pkg/sales/sales.go:163-175 | a sale at another till, or not POSTED, leaves the balance unchanged |
| Sales.CashInTillPostedSale | pkg/sales/sales.go:163-175 | a POSTED sale adds its cash; the first one also brings in the laybye, account and rollup parts |
| Sales.CashInTillRollup | pkg/sales/sales.go:164-178 | a cash rollup lowers the balance by its amount |
| Sales.CashInTillLaybye | pkg/sales/sales.go:185-195 | a cash laybye payment counts only for a till present in `sales_till` |
| Sales.AddCart | pkg/sales/sales.go:50-74 | success iff the lookup succeeded with an item code and a non-zero price; each failure has its message, in order |
| Tills.LastOpen | pkg/sales/tills.go:78-96 | the last open till of the teller; None iff the teller has none |
| Tills.NextDailyId | pkg/sales/tills.go:101-118 | at least 1, above every daily id of the branch today, one more than the largest or 1 |
| Tills.StoredTill | pkg/sales/tills.go:69-73 | the stored till is open with the given number and teller, and daily id 1 |
| Tills.DailyIdStuck | pkg/sales/tills.go:101-126 | once the branch has a till today, every later till gets daily id 2 |
| Tills.ThirdTillCollides | pkg/sales/tills.go:101-126 | after that, the next till number is already taken |
| Tills.BranchesCollide | pkg/sales/tills.go:101-126 | a second branch's first till of the day gets the first branch's number |
| Tills.OpenedTillIsAdopted | pkg/sales/tills.go:78-96 | a freshly stored till is the teller's last open till, so a second open inserts nothing |
| Tills.Till.constructor | pkg/sales/tills.go:29-53 | a till with the given teller, supervisor, branch and float, not yet numbered |
| Tills.Till.Exists | pkg/sales/tills.go:78-96 | the scan keeps the last open till's id and number; found iff the number is non-zero |
| Tills.Till.GetTillNum | pkg/sales/tills.go:101-126 | the daily id is the next one and the number is built from it |
| Tills.Till.New | pkg/sales/tills.go:69-73 | a failure or a taken number leaves the table; otherwise the stored till is appended |
| Tills.Till.OpenTill | pkg/sales/tills.go:131-169 | a missing teller or supervisor fails; an open till is adopted; otherwise a numbered till is inserted; on success from no number, the till is the teller's last open one |
| Cash.Authenticate | internal/cash/cash.go:27-39 | success iff the token is given and valid; each failure has its message |
| Cash.GetReceipt | internal/cash/cash.go:44-70 | forbidden without sales rights, and a refusal changes nothing; an active cash-sale receipt of the caller's till is reused; otherwise the receipt issued is today's next receipt number, and the logged row is a pending cash sale at the caller's till, posted by the caller, with today's next count, unless the number is taken or the till is unknown |
| Cash.GetCart | internal/cash/cash.go:71-135 | forbidden without sales rights; a shown cart is the pending part of the stored cart of the fetched receipt (the requested one, or the one just generated), with that cart's pending total and the receipt's state as stage ("" when it is missing); rollup iff the total is not positive and the rollup level is not above the cash in till |
| Cash.RollupDue | internal/cash/cash.go:112-122 | a rollup is due iff the cart total is not positive and the rollup level is not above the cash in till, a failed cash query counting as 0 |
| Cash.Approval | internal/cash/cash.go:206-227 | approved iff approval is off or the approver may roll up with a matching, unexpired token; each refusal has its message |
| Cash.OpenTill | internal/cash/cash.go:162-250 | forbidden, bad request and missing approver in order; a till is made iff approved, and an opened till is the teller's open till |
| Cash.OpenApprovedTill | internal/cash/cash.go:229-249 | the till carries the teller, branch and approving supervisor; the reply is the failure or the opened till |
| Cash.AddCartReply | internal/cash/cash.go:260-301 | accepted iff the caller may sell, the body decodes and AddCart succeeds; a body that cannot be read is a bad request, and an AddCart failure gets the handler's fixed message |
| Cash.ReceiptPostReply | internal/cash/cash.go:252-258 | refused iff the caller may not sell |
| GiftVouchers.Validate | pkg/sales/giftVoucher.go:34-39 | valid iff the amount is positive and a registerer is given; the amount is checked first |
| GiftVouchers.StoredVoucher | pkg/sales/giftVoucher.go:41-44 | the stored row carries serial, registerer and amount, and the defaults `txn_receipt` 0 and teller and claimer 'nil' |
| GiftVouchers.StoredVoucherValid | pkg/sales/giftVoucher.go:33-50 | a validated voucher keeps the table well formed |
| GiftVouchers.GiftVoucher.constructor | pkg/sales/giftVoucher.go:12-26 | a voucher with the given serial, registerer and amount |
| GiftVouchers.GiftVoucher.Create | pkg/sales/giftVoucher.go:33-50 | a validation failure returns its message and inserts nothing; an insert error is returned; otherwise exactly one row is appended |
| Settings.Selected | pkg/variables/funcs.go:40 | exactly the rows with params, in table order |
| Settings.Entries | pkg/variables/funcs.go:48-57 | one entry per row, in row order |
| Settings.FetchDefaults | pkg/variables/funcs.go:38-75 | a failed query gives empty settings and its error; otherwise the braced, comma-joined entries, with a decoding error dropped |
| Settings.Braced | pkg/variables/funcs.go:59-67 | the loop gives "{" + entries joined by ", " + "}" |
| Settings.NoRowsEmptyObject | pkg/variables/funcs.go:59-67 | with no configured rows the text is "{}" |
| Settings.ObjectTextAppend | pkg/variables/funcs.go:54-67 | a new row's entry follows ", " after the earlier entries, or stands alone; no separator trails |
| Settings.NullParamsSkipped | pkg/variables/funcs.go:40 | a row with NULL params contributes nothing |
| Settings.SysDefaults | pkg/variables/funcs.go:13-35 | with the cache on, a miss gives empty settings and no error, a cache error is returned, and a hit is decoded; with it off, the database is read |
| Ddl.TableNameUpTo | database/tables.go:29-31 | the name of the last 'table' field, or "" when there is none |
| Ddl.CreateBody | database/tables.go:20-38 | the loop builds the body from the parts and finds the table name |
| Ddl.IssueAlters | database/tables.go:52-66 | the loop issues one ALTER per altered field, in field order |
| Ddl.CreateFromStruct | database/tables.go:11-83 | the CREATE is issued; its failure is returned with no ALTER; otherwise every ALTER follows and the result is Success, since ALTER errors are only logged |
| Ddl.CreateListsColumns | database/tables.go:21-28 | a column is in the CREATE body iff a 'field' other than the last declares it |
| Ddl.CreateListsConstraints | database/tables.go:32-36 | a constraint is in the body iff a 'constraint' field declares it |
| Ddl.AltersListed | database/tables.go:52-59 | an ALTER is issued iff a 'field' has a json name and no PRIMARY KEY |
| Ddl.LastFieldAddedByAlter | database/tables.go:52-59 | the last field, left out of the CREATE, is added by an ALTER |

## Left out

- HTTP, gRPC and JWT plumbing are not modelled. A handler's decisions are modelled on values: the caller's user record, the decoded body, and the directory and catalogue answers.
- UpdateTill, the call to the login service, is opaque. Its outcome is the `updated` flag of OpenTill.
- Floating-point rounding is not modelled: money and quantities are real numbers.
- JSON encoding and decoding are not modelled.
  - Carts are sequences of items. A cart column that is SQL NULL is `None`; a JSON `null` written into it is not told apart from `[]` (see Merge and OrdersToPay below).
  - The system settings are the JSON text they are decoded from.
- String-to-integer parsing is not modelled. Till numbers are integers, and the cart's receipt parameter is an optional integer.
- Concurrency and isolation between transactions are not modelled. Each operation runs alone.
- Go struct-tag parsing is not modelled. Table creation takes each field's tags already parsed, and a missing tag reads as "".
- Wall-clock time is a `today` date (and `now` for token expiry), passed as a parameter.
- Several operations are not modelled:
  - CombineBill and ExcFromRcpt: they are not among the ledger operations covered here.
  - Analyze: it is a reporting query.
  - FetchSettings: the rollup level is a parameter of GetCart.
- Receipts.ReceiptLog.FetchAll: when a JSON column cannot be decoded, the fields assigned before the failure are not described; the contract only states the error.
- Receipts.ReceiptLog: `pay_details` and the loyalty and ETR details are not modelled beyond the text columns FetchAll reads.
- Row order: a SELECT without ORDER BY is read in table order, although the database promises no order. This decides the item order of the carts that Carts.CollectItems gathers for Receipts.ReceiptLog.CombineOrdersInBill, Receipts.ReceiptLog.Merge, Receipts.ReceiptLog.CloseBill and Orders.FetchPayingOrderItems. It also decides which till Tills.LastOpen calls the last one.
- Sales.CashInTillQuery: the order of the grouped laybye rows is not modelled. Every repeated row carries the same balance, so the last one read is that balance.
- GiftVouchers.GiftVoucher.Create: a key or foreign-key rejection by the server is folded into `refused`, the insert's error. The primary key on `serial` is not part of `Store.Valid()`.
- Some statements have no failure flag, so the model always treats them as sent and answered. Each one is named below; the error each would return is not modelled.
  - Orders.Order.NextOrder: the SELECT's send or scan error (pkg/sales/orders.go:84-94). The order number is always NextOrderNum.
  - Orders.Order.NewOrder: the INSERT's send or scan error (pkg/sales/orders.go:143-154). A server rejection of the INSERT is modelled, as no new row.
  - Orders.Order.FetchItems: the SELECT's send or scan error (pkg/sales/orders.go:168-178). Only the decode failure of a missing order is modelled.
  - Orders.Order.AddToOrder: the JSON encoding error and the UPDATE's send error (pkg/sales/orders.go:400-417).
  - Orders.OrdIsDeletable: a failed SELECT answers false (pkg/sales/orders.go:596-599). The model answers from the table.
  - Orders.DelOrderItem: the errors of its Fetchtems, of the JSON encoding and of the UPDATE's send (pkg/sales/orders.go:615-642).
- Tills.Till.OpenTill: its last guarantee assumes the till had no number beforehand, because Exists reports a till whenever the number is already set.
- Cash.GetReceipt: when LogReceipt's insert is silently rejected, because the till is not in `sales_till`, the handler still issues the number. The contract states the receipt exists only when the till does.
- Cash.GetCart: with a `receipt` parameter, the reply's receipt field is "0" as the handler sends it.
- Cash: the `trace` field that a handler adds to an error reply, carrying the underlying error, is not modelled. A refusal carries only its response and message.
- Orders.Order.CompleteOrder: the voucher lines come in the order of each group's first item. The query has GROUP BY and no ORDER BY, so the database does not promise that order. Orders.VoucherLinesAreGroupSums states the content independently of order.
- Receipts.ReceiptLog.Merge: when no item is gathered, the model writes the cart as `Some([])`. The program marshals a nil cart to JSON `null`, which is neither SQL NULL nor an empty array. FetchAll reads that back as a nil cart, and a later UpdateCart with it is refused; in the model the cart reads back as `[]` and UpdateCart accepts it.
- Receipts.ReceiptLog.OrdersToPay: the same holds for the cart that OrderToSales writes when no paying order has items. It is JSON `null` in the program and `Some([])` in the model.
- Numbering: order, receipt and till numbers are unbounded integers. The program casts them to BIGINT or parses them with a 64-bit ParseInt, which fails on texts longer than the 64-bit range allows (very long company, branch or count values). That overflow is not modelled.
