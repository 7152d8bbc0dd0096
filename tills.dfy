/** Tills (`sales_till`): numbering a till, finding a teller's open till and
    opening a new one. */
module Tills {
  import opened Db
  import opened Numbering

  /** The tills Exists reads: the teller's tills with no close time. */
  predicate OpenFor(t: TillRow, teller: string) {
    t.teller == teller && !t.closed
  }

  /** The last of the teller's open tills in table order: Exists scans them
      all and keeps the last one. */
  function LastOpen(rows: seq<TillRow>, teller: string): (r: Option<TillRow>)
    ensures r.Some? ==> r.value in rows && OpenFor(r.value, teller)
    ensures r.None? <==> forall k :: 0 <= k < |rows| ==> !OpenFor(rows[k], teller)
    decreases |rows|
  {
    if |rows| == 0 then None
    else if OpenFor(rows[|rows| - 1], teller) then Some(rows[|rows| - 1])
    else
      var r := LastOpen(rows[..|rows| - 1], teller);
      assert forall k :: 0 <= k < |rows| - 1 ==> rows[..|rows| - 1][k] == rows[k];
      r
  }

  /** `coalesce(max(daily_id), 0) + 1` over the branch's tills opened today. */
  function NextDailyId(rows: seq<TillRow>, today: Date, branch: string): (d: nat)
    ensures d >= 1
    ensures forall k :: 0 <= k < |rows| && rows[k].openDate == today && rows[k].branch == branch ==> rows[k].dailyId < d
    ensures (exists k :: 0 <= k < |rows| && rows[k].openDate == today && rows[k].branch == branch && rows[k].dailyId == d - 1) ||
            (d == 1 && forall k :: 0 <= k < |rows| ==> !(rows[k].openDate == today && rows[k].branch == branch))
  {
    var m := MaxOf(rows, (t: TillRow) => t.openDate == today && t.branch == branch, (t: TillRow) => t.dailyId);
    if m.Some? then m.value + 1 else 1
  }

  /** The row New inserts: only till number, float, teller, supervisor and
      branch are given, so `daily_id` takes its default 1 and `company_id` 0. */
  function StoredTill(tillNo: int, openFloat: real, teller: string, supervisor: string, branch: string, today: Date): (t: TillRow)
    ensures t.dailyId == 1 && !t.closed && t.tillNo == tillNo && t.teller == teller
  {
    TillRow(tillNo, 1, 0, today, openFloat, teller, supervisor, branch, false)
  }

  /** Every till of the branch opened today was stored by New. */
  predicate StoredByNew(rows: seq<TillRow>, today: Date, branch: string) {
    forall k :: 0 <= k < |rows| && rows[k].openDate == today && rows[k].branch == branch ==> rows[k].dailyId == 1
  }

  /** Because New never stores the daily id, once the branch has a till today
      every later till of the day is given daily id 2. */
  lemma DailyIdStuck(rows: seq<TillRow>, today: Date, branch: string, j: int)
    requires StoredByNew(rows, today, branch)
    requires 0 <= j < |rows| && rows[j].openDate == today && rows[j].branch == branch
    ensures NextDailyId(rows, today, branch) == 2
  {
  }

  /** Opening a till after that till-number clash: when the branch already
      holds the day's till with daily id 2, the number computed next is taken. */
  lemma ThirdTillCollides(rows: seq<TillRow>, today: Date, branch: string, j: int)
    requires ValidDate(today) && StoredByNew(rows, today, branch)
    requires 0 <= j < |rows| && rows[j].openDate == today && rows[j].branch == branch
    requires HasTill(rows, TillNumber(today, 2))
    ensures HasTill(rows, TillNumber(today, NextDailyId(rows, today, branch)))
  {
    DailyIdStuck(rows, today, branch, j);
  }

  /** Till numbers carry no branch: the first till of the day in a second
      branch is given the number the first branch's first till already holds. */
  lemma BranchesCollide(rows: seq<TillRow>, today: Date, other: string, j: int)
    requires ValidDate(today)
    requires 0 <= j < |rows| && rows[j].tillNo == TillNumber(today, 1)
    requires forall k :: 0 <= k < |rows| ==> !(rows[k].openDate == today && rows[k].branch == other)
    ensures HasTill(rows, TillNumber(today, NextDailyId(rows, today, other)))
  {
  }

  class Till {
    var tillNo: int
    var dailyId: nat
    var openFloat: real
    var teller: string
    var supervisor: string
    var branch: string

    constructor (teller: string, supervisor: string, branch: string, openFloat: real)
      ensures this.teller == teller && this.supervisor == supervisor && this.branch == branch
      ensures this.openFloat == openFloat && tillNo == 0 && dailyId == 0
    {
      this.tillNo := 0;
      this.dailyId := 0;
      this.openFloat := openFloat;
      this.teller := teller;
      this.supervisor := supervisor;
      this.branch := branch;
    }

    /** Exists: scan the teller's open tills, keeping the last one's daily id
        and number; report whether the till number is then non-zero.  A
        failed query reports false. */
    method Exists(db: Store, refused: bool) returns (found: bool)
      modifies this`dailyId, this`tillNo
      ensures refused ==> !found && dailyId == old(dailyId) && tillNo == old(tillNo)
      ensures !refused && LastOpen(db.tills, teller).None? ==>
        dailyId == old(dailyId) && tillNo == old(tillNo) && found == (tillNo != 0)
      ensures !refused && LastOpen(db.tills, teller).Some? ==>
        dailyId == LastOpen(db.tills, teller).value.dailyId &&
        tillNo == LastOpen(db.tills, teller).value.tillNo && found == (tillNo != 0)
    {
      if refused {
        return false;
      }
      var i := 0;
      while i < |db.tills|
        invariant 0 <= i <= |db.tills|
        invariant LastOpen(db.tills[..i], teller).None? ==> dailyId == old(dailyId) && tillNo == old(tillNo)
        invariant LastOpen(db.tills[..i], teller).Some? ==>
          dailyId == LastOpen(db.tills[..i], teller).value.dailyId && tillNo == LastOpen(db.tills[..i], teller).value.tillNo
      {
        assert db.tills[..i + 1][..i] == db.tills[..i];
        var row := db.tills[i];
        if row.teller == teller && !row.closed {
          dailyId, tillNo := row.dailyId, row.tillNo;
        }
        i := i + 1;
      }
      assert db.tills[..|db.tills|] == db.tills;
      return tillNo != 0;
    }

    /** GetTillNum: the next daily id of the branch today, and the till
        number made of the date and that id. */
    method GetTillNum(db: Store, today: Date, refused: bool) returns (err: Status)
      requires ValidDate(today)
      modifies this`dailyId, this`tillNo
      ensures refused ==> err.Failure? && dailyId == old(dailyId) && tillNo == old(tillNo)
      ensures !refused ==> err == Success && dailyId == NextDailyId(db.tills, today, branch) &&
                           tillNo == TillNumber(today, dailyId)
    {
      if refused {
        return Failure("failed to fetch till_num");
      }
      dailyId := NextDailyId(db.tills, today, branch);
      tillNo := TillNumber(today, dailyId);
      return Success;
    }

    /** New: insert the till; `QueryRow` reports a failed send and a clash
        with an existing till number (`till_no` is UNIQUE). */
    method New(db: Store, today: Date, refused: bool) returns (err: Status)
      requires db.Valid()
      modifies db`tills
      ensures db.Valid()
      ensures refused || HasTill(old(db.tills), tillNo) ==> err.Failure? && db.tills == old(db.tills)
      ensures !refused && !HasTill(old(db.tills), tillNo) ==>
        err == Success && db.tills == old(db.tills) + [StoredTill(tillNo, openFloat, teller, supervisor, branch, today)]
    {
      if refused {
        return Failure("failed to create till");
      }
      if HasTill(db.tills, tillNo) {
        return Failure("duplicate key value violates unique constraint on till_no");
      }
      var row := StoredTill(tillNo, openFloat, teller, supervisor, branch, today);
      AppendFreshTill(db.tills, row);
      db.tills := db.tills + [row];
      return Success;
    }

    /** OpenTill: check teller and supervisor, adopt the teller's open till if
        there is one, otherwise number a new till, insert it and hand it to
        the login service (`updated` is that remote call's outcome).
        Statement 1 is Exists's query, 2 GetTillNum's, 3 New's insert. */
    method OpenTill(db: Store, today: Date, fault: Fault, updated: bool) returns (err: Status)
      requires ValidDate(today) && db.Valid()
      modifies this`dailyId, this`tillNo, db`tills
      ensures db.Valid()
      ensures teller == "" || teller == "nan" ==>
        err == Failure("teller is required") && unchanged(this) && db.tills == old(db.tills)
      ensures teller != "" && teller != "nan" && (supervisor == "" || supervisor == "nan") ==>
        err == Failure("supervisor is required") && unchanged(this) && db.tills == old(db.tills)
      ensures teller != "" && teller != "nan" && supervisor != "" && supervisor != "nan" ==>
        var open := if Refuses(fault, 1) then None else LastOpen(old(db.tills), teller);
        var adopted := if open.Some? then open.value.tillNo else old(tillNo);
        if !Refuses(fault, 1) && adopted != 0 then
          err == Success && db.tills == old(db.tills) && tillNo == adopted &&
          dailyId == (if open.Some? then open.value.dailyId else old(dailyId))
        else if Refuses(fault, 2) then
          err.Failure? && db.tills == old(db.tills)
        else
          dailyId == NextDailyId(old(db.tills), today, branch) && tillNo == TillNumber(today, dailyId) &&
          if Refuses(fault, 3) || HasTill(old(db.tills), tillNo) then
            err.Failure? && db.tills == old(db.tills)
          else
            db.tills == old(db.tills) + [StoredTill(tillNo, openFloat, teller, supervisor, branch, today)] &&
            (err == Success <==> updated)
      ensures err == Success && old(tillNo) == 0 ==>
        tillNo != 0 && LastOpen(db.tills, teller).Some? && LastOpen(db.tills, teller).value.tillNo == tillNo
    {
      if teller == "" || teller == "nan" {
        return Failure("teller is required");
      }
      if supervisor == "" || supervisor == "nan" {
        return Failure("supervisor is required");
      }
      var found := Exists(db, Refuses(fault, 1));
      if found {
        return Success;
      }
      err := GetTillNum(db, today, Refuses(fault, 2));
      if err.Failure? {
        return err;
      }
      err := New(db, today, Refuses(fault, 3));
      if err.Failure? {
        return err;
      }
      if !updated {
        return Failure("failed to update till");
      }
      OpenedTillIsAdopted(old(db.tills), today, tillNo, openFloat, teller, supervisor, branch);
      return Success;
    }
  }

  /** A till New has just stored is the one the teller's next OpenTill adopts,
      so opening twice inserts once. */
  lemma OpenedTillIsAdopted(rows: seq<TillRow>, today: Date, tillNo: int, openFloat: real,
                            teller: string, supervisor: string, branch: string)
    requires ValidDate(today) && tillNo != 0
    ensures var row := StoredTill(tillNo, openFloat, teller, supervisor, branch, today);
      LastOpen(rows + [row], teller) == Some(row) && LastOpen(rows + [row], teller).value.tillNo != 0
  {
  }
}
