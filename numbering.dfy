/** The decimal numbering schemes of the ledger: order numbers, receipt
    numbers, till numbers and the per-order item keys.  Each is a decimal
    concatenation read back as an integer. */
module Numbering {
  import opened Text
  import opened Db

  /** YYYY ++ MM ++ DD, as `extract(YEAR ...)` followed by two `LPAD(..., 2, '0')`
      or as `%d%02d%02d`. */
  function DateText(d: Date): (s: string)
    requires ValidDate(d)
    ensures |s| == 8 && Canonical(s) && s[0] != '0'
  {
    FourDigitLength(d.year);
    NatToStringCanonical(d.year);
    Pad2Length(d.month);
    Pad2Length(d.day);
    AllDigitsConcat(NatToString(d.year), Pad2(d.month));
    AllDigitsConcat(NatToString(d.year) + Pad2(d.month), Pad2(d.day));
    var s := NatToString(d.year) + Pad2(d.month) + Pad2(d.day);
    assert s[0] == NatToString(d.year)[0];
    s
  }

  lemma DateTextInjective(a: Date, b: Date)
    requires ValidDate(a) && ValidDate(b) && DateText(a) == DateText(b)
    ensures a == b
  {
    var sa, sb := DateText(a), DateText(b);
    FourDigitLength(a.year);
    FourDigitLength(b.year);
    Pad2Length(a.month);
    Pad2Length(b.month);
    Pad2Length(a.day);
    Pad2Length(b.day);
    assert sa[..4] == NatToString(a.year) && sb[..4] == NatToString(b.year);
    assert sa[4..6] == Pad2(a.month) && sb[4..6] == Pad2(b.month);
    assert sa[6..] == Pad2(a.day) && sb[6..] == Pad2(b.day);
    NatToStringInjective(a.year, b.year);
    Pad2Injective(a.month, b.month);
    Pad2Injective(a.day, b.day);
  }

  /** A text made of a date and digits, starting with the date, is a canonical numeral. */
  lemma DatePrefixedCanonical(d: Date, rest: string)
    requires ValidDate(d) && AllDigits(rest)
    ensures Canonical(DateText(d) + rest) && (DateText(d) + rest)[0] != '0'
  {
    AllDigitsConcat(DateText(d), rest);
    assert (DateText(d) + rest)[0] == DateText(d)[0];
  }

  /** `CONCAT(company_id, branch_id)` from the branches table. */
  function BranchCode(companyId: nat, branchId: nat): (code: string)
    ensures AllDigits(code) && |code| >= 2
  {
    NatToStringCanonical(companyId);
    NatToStringCanonical(branchId);
    AllDigitsConcat(NatToString(companyId), NatToString(branchId));
    NatToString(companyId) + NatToString(branchId)
  }

  /** The text of an order number: date, branch code, daily count, a trailing "0". */
  function OrderNumberText(d: Date, code: string, count: nat): (s: string)
    requires ValidDate(d) && AllDigits(code)
    ensures Canonical(s) && s[0] != '0' && |s| >= 8 && s[..8] == DateText(d)
  {
    NatToStringCanonical(count);
    AllDigitsConcat(code, NatToString(count));
    AllDigitsConcat(code + NatToString(count), "0");
    DatePrefixedCanonical(d, code + NatToString(count) + "0");
    assert DateText(d) + code + NatToString(count) + "0" == DateText(d) + (code + NatToString(count) + "0");
    DateText(d) + code + NatToString(count) + "0"
  }

  /** The `order_num` a new order receives (`CAST(CONCAT(...) AS BIGINT)`). */
  function OrderNumber(d: Date, code: string, count: nat): (n: nat)
    requires ValidDate(d) && AllDigits(code)
    ensures n > 0
  {
    var s := OrderNumberText(d, code, count);
    ParseNatPositive(s);
    ParseNat(s)
  }

  /** For one branch code, distinct (day, count) pairs give distinct order numbers. */
  lemma OrderNumberInjective(d1: Date, d2: Date, code: string, c1: nat, c2: nat)
    requires ValidDate(d1) && ValidDate(d2) && AllDigits(code)
    requires OrderNumber(d1, code, c1) == OrderNumber(d2, code, c2)
    ensures d1 == d2 && c1 == c2
  {
    var s1, s2 := OrderNumberText(d1, code, c1), OrderNumberText(d2, code, c2);
    ParseNatInjective(s1, s2);
    DateTextInjective(d1, d2);
    CancelAffixes(DateText(d1) + code, NatToString(c1), NatToString(c2), "0");
    NatToStringInjective(c1, c2);
  }

  /** Branch codes are not separated from the count: company 1 / branch 2 on its
      34th order and company 1 / branch 23 on its 4th order get the same number,
      and so do company 1 / branch 12 and company 11 / branch 2 on any count. */
  lemma OrderNumberCollision(d: Date, count: nat)
    requires ValidDate(d)
    ensures OrderNumber(d, BranchCode(1, 2), 34) == OrderNumber(d, BranchCode(1, 23), 4)
    ensures OrderNumber(d, BranchCode(1, 12), count) == OrderNumber(d, BranchCode(11, 2), count)
  {
    assert NatToString(12) == "12" && NatToString(23) == "23" && NatToString(34) == "34";
    assert NatToString(11) == "11";
    assert BranchCode(1, 2) + NatToString(34) == BranchCode(1, 23) + NatToString(4);
    var t := DateText(d);
    assert OrderNumberText(d, BranchCode(1, 2), 34) == t + (BranchCode(1, 2) + NatToString(34)) + "0";
    assert OrderNumberText(d, BranchCode(1, 23), 4) == t + (BranchCode(1, 23) + NatToString(4)) + "0";
    assert BranchCode(1, 12) == BranchCode(11, 2);
  }

  /** The text of a receipt number: "1", date, "0", daily count. */
  function ReceiptNumberText(d: Date, count: nat): (s: string)
    requires ValidDate(d)
    ensures Canonical(s) && s[0] == '1' && |s| >= 9 && s[1..9] == DateText(d)
  {
    NatToStringCanonical(count);
    AllDigitsConcat("1", DateText(d));
    AllDigitsConcat("1" + DateText(d), "0");
    AllDigitsConcat("1" + DateText(d) + "0", NatToString(count));
    var s := "1" + DateText(d) + "0" + NatToString(count);
    assert s[1..9] == DateText(d);
    s
  }

  /** The `receipt_num` a new receipt receives. */
  function ReceiptNumber(d: Date, count: nat): (n: nat)
    requires ValidDate(d)
    ensures n > 0
  {
    var s := ReceiptNumberText(d, count);
    ParseNatPositive(s);
    ParseNat(s)
  }

  /** Distinct (day, count) pairs give distinct receipt numbers. */
  lemma ReceiptNumberInjective(d1: Date, d2: Date, c1: nat, c2: nat)
    requires ValidDate(d1) && ValidDate(d2)
    requires ReceiptNumber(d1, c1) == ReceiptNumber(d2, c2)
    ensures d1 == d2 && c1 == c2
  {
    var s1, s2 := ReceiptNumberText(d1, c1), ReceiptNumberText(d2, c2);
    ParseNatInjective(s1, s2);
    DateTextInjective(d1, d2);
    CancelAffixes("1" + DateText(d1) + "0", NatToString(c1), NatToString(c2), "");
    assert s1 == "1" + DateText(d1) + "0" + NatToString(c1) + "";
    NatToStringInjective(c1, c2);
  }

  /** The text of a till number: date then daily id (`%d%02d%02d%v`). */
  function TillNumberText(d: Date, dailyId: nat): (s: string)
    requires ValidDate(d)
    ensures Canonical(s) && s[0] != '0' && |s| >= 8 && s[..8] == DateText(d)
  {
    NatToStringCanonical(dailyId);
    DatePrefixedCanonical(d, NatToString(dailyId));
    DateText(d) + NatToString(dailyId)
  }

  /** The `till_no` GetTillNum computes (`strconv.ParseInt` of the text). */
  function TillNumber(d: Date, dailyId: nat): (n: nat)
    requires ValidDate(d)
    ensures n > 0
  {
    var s := TillNumberText(d, dailyId);
    ParseNatPositive(s);
    ParseNat(s)
  }

  /** Till numbers carry no branch: they are equal exactly when day and daily id are. */
  lemma TillNumberInjective(d1: Date, d2: Date, i1: nat, i2: nat)
    requires ValidDate(d1) && ValidDate(d2)
    ensures TillNumber(d1, i1) == TillNumber(d2, i2) <==> d1 == d2 && i1 == i2
  {
    if TillNumber(d1, i1) == TillNumber(d2, i2) {
      var s1, s2 := TillNumberText(d1, i1), TillNumberText(d2, i2);
      ParseNatInjective(s1, s2);
      DateTextInjective(d1, d2);
      CancelAffixes(DateText(d1), NatToString(i1), NatToString(i2), "");
      assert s1 == DateText(d1) + NatToString(i1) + "";
      assert s2 == DateText(d1) + NatToString(i2) + "";
      NatToStringInjective(i1, i2);
    }
  }

  /** The `receipt_item` key of the n-th item of an order: `"%v-%v"`. */
  function ItemKey(orderNum: int, n: nat): (key: string)
    ensures |key| > |IntToString(orderNum)| + 1
    ensures key[..|IntToString(orderNum)| + 1] == IntToString(orderNum) + "-"
  {
    NatToStringCanonical(n);
    IntToString(orderNum) + "-" + NatToString(n)
  }

  /** Within one order, distinct positions give distinct keys. */
  lemma ItemKeyInjective(orderNum: int, n1: nat, n2: nat)
    ensures ItemKey(orderNum, n1) == ItemKey(orderNum, n2) <==> n1 == n2
  {
    if ItemKey(orderNum, n1) == ItemKey(orderNum, n2) {
      CancelAffixes(IntToString(orderNum) + "-", NatToString(n1), NatToString(n2), "");
      assert ItemKey(orderNum, n1) == IntToString(orderNum) + "-" + NatToString(n1) + "";
      assert ItemKey(orderNum, n2) == IntToString(orderNum) + "-" + NatToString(n2) + "";
      NatToStringInjective(n1, n2);
    }
  }
}
