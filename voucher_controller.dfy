/** `UserAddVoucher`: a user claims a voucher by its code. The claim is
    refused outside the voucher's validity window, while the user still holds
    an unused copy, once the user's claims reach the per-user limit, and once
    all claims reach the global limit; otherwise one unused `user_vouchers`
    row is inserted. */
module VoucherController {
  import opened Common
  import opened Models
  import opened Query
  import opened Store

  /** `now` is neither before the start date nor after the end date: both
      ends of the window are included. */
  predicate VoucherActive(now: int, v: Voucher) {
    v.startDate <= now <= v.endDate
  }

  /** The store with one more claim row. */
  function Claimed(s: State, uv: UserVoucher): State {
    s.(userVouchers := Inserted(s.userVouchers, uv))
  }

  /** What `UserAddVoucher` answers and leaves, its checks in the order the
      handler makes them. */
  function ClaimOutcome(s: State, user: int, code: string, now: int, failing: set<Write>): Outcome<UserVoucher> {
    if code == "" then Outcome(Err(ValidationFailed), s)
    else if user == 0 then Outcome(Err(Unauthorized), s)
    else match FindVoucher(s.vouchers, code)
      case None => Outcome(Err(VoucherNotFound), s)
      case Some(v) =>
        var rows := s.userVouchers.rows;
        var held := HeldCount(rows, user, v.id);
        if !VoucherActive(now, v) then Outcome(Err(VoucherNotActive), s)
        else if held > 0 && UnusedCount(rows, user, v.id) > 0 then Outcome(Err(VoucherAlreadyHeld), s)
        else if held >= v.usageLimitPerUser then Outcome(Err(PerUserLimitReached), s)
        else if IssuedCount(rows, v.id) >= v.usageLimitGlobal then Outcome(Err(GlobalLimitReached), s)
        else if BeginTx in failing || InsertUserVoucher in failing || CommitTx in failing then Outcome(Err(StorageFailure), s)
        else
          var uv := UserVoucher(s.userVouchers.nextId, user, v.id, false);
          Outcome(Ok(uv), Claimed(s, uv))
  }

  /** An unused row is one of the user's rows for the voucher. */
  lemma UnusedAmongHeld(rows: seq<UserVoucher>, user: int, voucherId: int)
    ensures UnusedCount(rows, user, voucherId) <= HeldCount(rows, user, voucherId)
  {
    WhereStricter(rows, UnusedBy(user, voucherId), HeldBy(user, voucherId));
  }

  /** Two vouchers of the catalogue with the same id are the same voucher. */
  lemma SameIdSameVoucher(vouchers: seq<Voucher>, v: Voucher, w: Voucher)
    requires VoucherIdsDistinct(vouchers) && v in vouchers && w in vouchers && v.id == w.id
    ensures v == w
  {
    var i :| 0 <= i < |vouchers| && vouchers[i] == v;
    var j :| 0 <= j < |vouchers| && vouchers[j] == w;
    if i != j {
      assert false;
    }
  }

  /** A claim succeeds exactly when the code is given, the user is known, the
      voucher exists and is in its window, the user holds no unused copy,
      both limits leave room, and no write fails. */
  lemma ClaimSucceedsExactlyWhen(s: State, user: int, code: string, now: int, failing: set<Write>)
    ensures var o := ClaimOutcome(s, user, code, now, failing);
      o.result.Ok? <==>
        && code != "" && user != 0
        && FindVoucher(s.vouchers, code).Some?
        && var v := FindVoucher(s.vouchers, code).value;
           var rows := s.userVouchers.rows;
           && VoucherActive(now, v)
           && UnusedCount(rows, user, v.id) == 0
           && HeldCount(rows, user, v.id) < v.usageLimitPerUser
           && IssuedCount(rows, v.id) < v.usageLimitGlobal
           && BeginTx !in failing && InsertUserVoucher !in failing && CommitTx !in failing
  {
    if code != "" && user != 0 && FindVoucher(s.vouchers, code).Some? {
      UnusedAmongHeld(s.userVouchers.rows, user, FindVoucher(s.vouchers, code).value.id);
    }
  }

  /** The refusals, each named by the first check that fails; every refusal
      leaves the store as it was. */
  lemma ClaimRefusals(s: State, user: int, code: string, now: int, failing: set<Write>)
    ensures var o := ClaimOutcome(s, user, code, now, failing);
      && (o.result.Err? ==> o.after == s)
      && (o.result == Err(ValidationFailed) <==> code == "")
      && (o.result == Err(Unauthorized) <==> code != "" && user == 0)
      && (o.result == Err(VoucherNotFound) <==> code != "" && user != 0 && FindVoucher(s.vouchers, code).None?)
      && (o.result == Err(VoucherNotActive) <==>
            code != "" && user != 0 && FindVoucher(s.vouchers, code).Some?
            && !VoucherActive(now, FindVoucher(s.vouchers, code).value))
      && (o.result == Err(VoucherAlreadyHeld) <==>
            code != "" && user != 0 && FindVoucher(s.vouchers, code).Some?
            && VoucherActive(now, FindVoucher(s.vouchers, code).value)
            && UnusedCount(s.userVouchers.rows, user, FindVoucher(s.vouchers, code).value.id) > 0)
      && (o.result == Err(PerUserLimitReached) <==>
            code != "" && user != 0 && FindVoucher(s.vouchers, code).Some?
            && VoucherActive(now, FindVoucher(s.vouchers, code).value)
            && UnusedCount(s.userVouchers.rows, user, FindVoucher(s.vouchers, code).value.id) == 0
            && HeldCount(s.userVouchers.rows, user, FindVoucher(s.vouchers, code).value.id)
                 >= FindVoucher(s.vouchers, code).value.usageLimitPerUser)
      && (o.result == Err(GlobalLimitReached) <==>
            code != "" && user != 0 && FindVoucher(s.vouchers, code).Some?
            && VoucherActive(now, FindVoucher(s.vouchers, code).value)
            && UnusedCount(s.userVouchers.rows, user, FindVoucher(s.vouchers, code).value.id) == 0
            && HeldCount(s.userVouchers.rows, user, FindVoucher(s.vouchers, code).value.id)
                 < FindVoucher(s.vouchers, code).value.usageLimitPerUser
            && IssuedCount(s.userVouchers.rows, FindVoucher(s.vouchers, code).value.id)
                 >= FindVoucher(s.vouchers, code).value.usageLimitGlobal)
  {
    if code != "" && user != 0 && FindVoucher(s.vouchers, code).Some? {
      UnusedAmongHeld(s.userVouchers.rows, user, FindVoucher(s.vouchers, code).value.id);
    }
  }

  /** A successful claim adds one unused row for the user and the voucher
      found by the code, with the next id, and changes nothing else; the
      user's claims of it and all its claims each grow by one. */
  lemma ClaimAddsOneRow(s: State, user: int, code: string, now: int, failing: set<Write>)
    requires ClaimOutcome(s, user, code, now, failing).result.Ok?
    ensures var o := ClaimOutcome(s, user, code, now, failing);
      var uv := o.result.value;
      var v := FindVoucher(s.vouchers, code).value;
      var rows := s.userVouchers.rows;
      var rows' := o.after.userVouchers.rows;
      && FindVoucher(s.vouchers, code).Some?
      && uv == UserVoucher(s.userVouchers.nextId, user, v.id, false)
      && o.after == s.(userVouchers := Table(rows + [uv], s.userVouchers.nextId + 1))
      && HeldCount(rows', user, v.id) == HeldCount(rows, user, v.id) + 1
      && UnusedCount(rows', user, v.id) == 1
      && IssuedCount(rows', v.id) == IssuedCount(rows, v.id) + 1
  {
    var v := FindVoucher(s.vouchers, code).value;
    var rows := s.userVouchers.rows;
    var uv := UserVoucher(s.userVouchers.nextId, user, v.id, false);
    ClaimSucceedsExactlyWhen(s, user, code, now, failing);
    assert ClaimOutcome(s, user, code, now, failing) == Outcome(Ok(uv), Claimed(s, uv));
    NewClaimCounts(rows, uv);
  }

  /** One more unused row for a user and voucher adds one to the user's
      claims and to all claims of it, and makes its unused count one more. */
  lemma NewClaimCounts(rows: seq<UserVoucher>, uv: UserVoucher)
    requires !uv.used
    ensures HeldCount(rows + [uv], uv.userId, uv.voucherId) == HeldCount(rows, uv.userId, uv.voucherId) + 1
    ensures UnusedCount(rows + [uv], uv.userId, uv.voucherId) == UnusedCount(rows, uv.userId, uv.voucherId) + 1
    ensures IssuedCount(rows + [uv], uv.voucherId) == IssuedCount(rows, uv.voucherId) + 1
  {
    WhereAppend(rows, uv, HeldBy(uv.userId, uv.voucherId));
    WhereAppend(rows, uv, UnusedBy(uv.userId, uv.voucherId));
    WhereAppend(rows, uv, IssuedOf(uv.voucherId));
  }

  /** A claim keeps the store consistent: at most one unused row per user and
      voucher, and neither limit of any voucher exceeded. */
  lemma ClaimKeepsConsistent(s: State, user: int, code: string, now: int, failing: set<Write>)
    requires Consistent(s)
    ensures Consistent(ClaimOutcome(s, user, code, now, failing).after)
  {
    var o := ClaimOutcome(s, user, code, now, failing);
    if o.result.Ok? {
      ClaimAddsOneRow(s, user, code, now, failing);
      ClaimSucceedsExactlyWhen(s, user, code, now, failing);
      var v := FindVoucher(s.vouchers, code).value;
      assert v in Where(s.vouchers, VoucherWithCode(code));
      InsertedClaimKeepsConsistent(s, v, o.result.value);
    }
  }

  lemma InsertedClaimKeepsConsistent(s: State, v: Voucher, uv: UserVoucher)
    requires Consistent(s) && v in s.vouchers
    requires uv.id == s.userVouchers.nextId && uv.voucherId == v.id && !uv.used
    requires UnusedCount(s.userVouchers.rows, uv.userId, v.id) == 0
    requires HeldCount(s.userVouchers.rows, uv.userId, v.id) < v.usageLimitPerUser
    requires IssuedCount(s.userVouchers.rows, v.id) < v.usageLimitGlobal
    ensures Consistent(Claimed(s, uv))
  {
    ClaimKeepsIds(s, uv);
    ClaimKeepsLimits(s, v, uv);
  }

  /** The new row's id is fresh, and the user held no unused copy before. */
  lemma ClaimKeepsIds(s: State, uv: UserVoucher)
    requires VouchersConsistent(s) && uv.id == s.userVouchers.nextId
    requires UnusedCount(s.userVouchers.rows, uv.userId, uv.voucherId) == 0
    ensures var rows' := s.userVouchers.rows + [uv];
      && (forall x :: x in rows' ==> 0 < x.id < s.userVouchers.nextId + 1)
      && (forall id :: |Where(rows', UserVoucherWithId(id))| <= 1)
      && (forall u, w :: UnusedCount(rows', u, w) <= 1)
  {
    var rows := s.userVouchers.rows;
    var rows' := rows + [uv];
    forall id ensures |Where(rows', UserVoucherWithId(id))| <= 1 {
      WhereAppend(rows, uv, UserVoucherWithId(id));
      if id == uv.id {
        WhereNone(rows, UserVoucherWithId(id));
      }
    }
    forall u, w ensures UnusedCount(rows', u, w) <= 1 {
      assert UnusedCount(rows, u, w) <= 1;
      WhereAppend(rows, uv, UnusedBy(u, w));
    }
  }

  /** The new row stays within both limits of its voucher, and other
      vouchers' counts do not move. */
  lemma ClaimKeepsLimits(s: State, v: Voucher, uv: UserVoucher)
    requires VouchersConsistent(s) && v in s.vouchers && uv.voucherId == v.id
    requires HeldCount(s.userVouchers.rows, uv.userId, v.id) < v.usageLimitPerUser
    requires IssuedCount(s.userVouchers.rows, v.id) < v.usageLimitGlobal
    ensures var rows' := s.userVouchers.rows + [uv];
      && (forall w, u :: w in s.vouchers ==> WithinLimit(HeldCount(rows', u, w.id), w.usageLimitPerUser))
      && (forall w :: w in s.vouchers ==> WithinLimit(IssuedCount(rows', w.id), w.usageLimitGlobal))
  {
    var rows := s.userVouchers.rows;
    var rows' := rows + [uv];
    forall w, u | w in s.vouchers ensures WithinLimit(HeldCount(rows', u, w.id), w.usageLimitPerUser) {
      assert WithinLimit(HeldCount(rows, u, w.id), w.usageLimitPerUser);
      WhereAppend(rows, uv, HeldBy(u, w.id));
      if u == uv.userId && w.id == v.id {
        SameIdSameVoucher(s.vouchers, v, w);
      }
    }
    forall w | w in s.vouchers ensures WithinLimit(IssuedCount(rows', w.id), w.usageLimitGlobal) {
      assert WithinLimit(IssuedCount(rows, w.id), w.usageLimitGlobal);
      WhereAppend(rows, uv, IssuedOf(w.id));
      if w.id == v.id {
        SameIdSameVoucher(s.vouchers, v, w);
      }
    }
  }

  /** Claiming again before the first copy is used is refused, at any time
      inside the window. */
  lemma SecondClaimRejected(s: State, user: int, code: string, now: int, now': int, failing: set<Write>, failing': set<Write>)
    requires ClaimOutcome(s, user, code, now, failing).result.Ok?
    requires VoucherActive(now', FindVoucher(s.vouchers, code).value)
    ensures var after := ClaimOutcome(s, user, code, now, failing).after;
      ClaimOutcome(after, user, code, now', failing').result == Err(VoucherAlreadyHeld)
  {
    ClaimAddsOneRow(s, user, code, now, failing);
    var after := ClaimOutcome(s, user, code, now, failing).after;
    ClaimRefusals(after, user, code, now', failing');
  }

  /** A voucher whose per-user or global limit is zero or less (the default
      is 0) can never be claimed. */
  lemma ZeroLimitAdmitsNoClaim(s: State, user: int, code: string, now: int, failing: set<Write>)
    requires FindVoucher(s.vouchers, code).Some?
    requires var v := FindVoucher(s.vouchers, code).value; v.usageLimitPerUser <= 0 || v.usageLimitGlobal <= 0
    ensures ClaimOutcome(s, user, code, now, failing).result.Err?
  {
    ClaimSucceedsExactlyWhen(s, user, code, now, failing);
  }

  /** `UserAddVoucher`. */
  method UserAddVoucher(db: Database, user: int, code: string, now: int, failing: set<Write>) returns (r: Result<UserVoucher>)
    requires db.Valid()
    modifies db
    ensures db.Valid()
    ensures Outcome(r, db.Snapshot()) == ClaimOutcome(old(db.Snapshot()), user, code, now, failing)
  {
    ClaimKeepsConsistent(db.Snapshot(), user, code, now, failing);
    if code == "" {
      return Err(ValidationFailed);
    }
    if user == 0 {
      return Err(Unauthorized);
    }
    var found := FindVoucher(db.vouchers, code);
    if found.None? {
      return Err(VoucherNotFound);
    }
    var v := found.value;
    if !VoucherActive(now, v) {
      return Err(VoucherNotActive);
    }
    var held := HeldCount(db.userVouchers.rows, user, v.id);
    if held > 0 {
      var unused := UnusedCount(db.userVouchers.rows, user, v.id);
      if unused > 0 {
        return Err(VoucherAlreadyHeld);
      }
    }
    if held >= v.usageLimitPerUser {
      return Err(PerUserLimitReached);
    }
    var issued := IssuedCount(db.userVouchers.rows, v.id);
    if issued >= v.usageLimitGlobal {
      return Err(GlobalLimitReached);
    }
    var uv := UserVoucher(db.userVouchers.nextId, user, v.id, false);
    if BeginTx in failing || InsertUserVoucher in failing || CommitTx in failing {
      return Err(StorageFailure);
    }
    db.userVouchers := Inserted(db.userVouchers, uv);
    r := Ok(uv);
  }
}
