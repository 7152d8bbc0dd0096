/** Gift vouchers (`gift_voucher`): registering a voucher of a given amount. */
module GiftVouchers {
  import opened Db

  /** Create's two guards, in the order it applies them: a non-positive
      amount first, then a missing registerer. */
  function Validate(amount: real, registeredBy: string): (r: Status)
    ensures r == Success <==> amount > 0.0 && registeredBy != ""
    ensures amount <= 0.0 ==> r == Failure("no 0 amount gift voucher")
    ensures amount > 0.0 && registeredBy == "" ==> r == Failure("provide the registerer's account")
  {
    if amount <= 0.0 then Failure("no 0 amount gift voucher")
    else if registeredBy == "" then Failure("provide the registerer's account")
    else Success
  }

  /** The row the insert stores: serial, registerer and amount are given,
      every other column takes its default (`txn_receipt` 0, teller and
      claimer 'nil'). */
  function StoredVoucher(serial: string, registeredBy: string, amount: real): (v: VoucherRow)
    ensures v.serial == serial && v.registeredBy == registeredBy && v.amount == amount
    ensures v.txnReceipt == 0 && v.teller == "nil" && v.claimerName == "nil"
  {
    VoucherRow(serial, registeredBy, amount, 0, "nil", "nil")
  }

  /** Every voucher on file has a positive amount and a registerer. */
  predicate VouchersWellFormed(rows: seq<VoucherRow>) {
    forall k :: 0 <= k < |rows| ==> rows[k].amount > 0.0 && rows[k].registeredBy != ""
  }

  /** A stored voucher passes validation, so the vouchers Create writes
      keep the table well formed. */
  lemma StoredVoucherValid(rows: seq<VoucherRow>, serial: string, registeredBy: string, amount: real)
    requires VouchersWellFormed(rows)
    requires Validate(amount, registeredBy) == Success
    ensures VouchersWellFormed(rows + [StoredVoucher(serial, registeredBy, amount)])
  {
    var rs := rows + [StoredVoucher(serial, registeredBy, amount)];
    forall k | 0 <= k < |rs|
      ensures rs[k].amount > 0.0 && rs[k].registeredBy != ""
    {
      if k < |rows| {
        assert rs[k] == rows[k];
      }
    }
  }

  class GiftVoucher {
    var serial: string
    var registeredBy: string
    var amount: real

    constructor (serial: string, registeredBy: string, amount: real)
      ensures this.serial == serial && this.registeredBy == registeredBy && this.amount == amount
    {
      this.serial := serial;
      this.registeredBy := registeredBy;
      this.amount := amount;
    }

    /** Create: validate, then insert the voucher; `refused` is the insert's
        `Exec` error (a failed send or a constraint the server rejects),
        which is returned. */
    method Create(db: Store, refused: bool) returns (err: Status)
      modifies db`vouchers
      ensures Validate(amount, registeredBy).Failure? ==>
        err == Validate(amount, registeredBy) && db.vouchers == old(db.vouchers)
      ensures Validate(amount, registeredBy) == Success && refused ==>
        err.Failure? && db.vouchers == old(db.vouchers)
      ensures Validate(amount, registeredBy) == Success && !refused ==>
        err == Success && db.vouchers == old(db.vouchers) + [StoredVoucher(serial, registeredBy, amount)]
      ensures VouchersWellFormed(old(db.vouchers)) ==> VouchersWellFormed(db.vouchers)
    {
      if amount <= 0.0 {
        return Failure("no 0 amount gift voucher");
      }
      if registeredBy == "" {
        return Failure("provide the registerer's account");
      }
      if refused {
        return Failure("failed to create a new gift voucher");
      }
      if VouchersWellFormed(db.vouchers) {
        StoredVoucherValid(db.vouchers, serial, registeredBy, amount);
      }
      db.vouchers := db.vouchers + [StoredVoucher(serial, registeredBy, amount)];
      return Success;
    }
  }
}
