/**
 * The admin routes: the admin gate, the payout queue, the conditional
 * disbursement and the wallet summary totals.
 */
module AdminRoutes {
  import opened Common
  import opened TransactionModel
  import opened RoleCheck
  import opened Sorting
  import opened TransactionRoutes

  /**
   * `requireAdmin`: 403 unless a request user is present and flagged admin.
   * `user` is `None` when no authentication middleware ran before it.
   */
  function RequireAdmin(user: Option<AuthUser>): (h: Option<Halt>)
    ensures h.None? <==> (user.Some? && user.value.isAdmin)
    ensures h.Some? ==> h.value == Halt(403, "Admin access required")
  {
    if user.None? || !user.value.isAdmin then Some(Halt(403, "Admin access required")) else None
  }

  /**
   * The admin router is mounted without the authentication middleware, so no
   * request reaches `requireAdmin` with a user: every admin route answers 403.
   */
  function MountedUser(): Option<AuthUser> { None }

  lemma AdminRoutesAlwaysRefuse()
    ensures RequireAdmin(MountedUser()) == Some(Halt(403, "Admin access required"))
  {
  }

  // ------------------------------------------------------------------ payout queue

  function AwaitingPayout(docs: seq<Transaction>): (r: seq<Transaction>)
    ensures forall k :: 0 <= k < |r| ==> r[k].status == AwaitingAdminPayout
    ensures forall t :: t in r <==> t in docs && t.status == AwaitingAdminPayout
    decreases |docs|
  {
    if docs == [] then []
    else
      var rest := AwaitingPayout(docs[1..]);
      assert docs == [docs[0]] + docs[1..];
      if docs[0].status == AwaitingAdminPayout then [docs[0]] + rest else rest
  }

  function UpdatedAtKey(t: Transaction): int { t.updatedAt }

  /** GET `/payouts`: the transactions awaiting payout, most recently updated first. */
  function PayoutList(docs: seq<Transaction>): (r: seq<Transaction>)
    ensures forall t :: t in r <==> t in docs && t.status == AwaitingAdminPayout
    ensures forall i, j :: 0 <= i < j < |r| ==> r[i].updatedAt >= r[j].updatedAt
    ensures multiset(r) == multiset(AwaitingPayout(docs))
  {
    SortDescProperties(AwaitingPayout(docs), UpdatedAtKey);
    var r := SortDesc(AwaitingPayout(docs), UpdatedAtKey);
    assert forall t :: t in r <==> t in multiset(r);
    r
  }

  datatype Listing = Listed(items: seq<Transaction>) | Refused(halt: Halt)

  /** The gated payout listing: the queue for an admin, 403 for anyone else. */
  function Payouts(user: Option<AuthUser>, docs: seq<Transaction>): (r: Listing)
    ensures r.Refused? <==> RequireAdmin(user).Some?
    ensures r.Listed? ==> r.items == PayoutList(docs)
  {
    if RequireAdmin(user).Some? then Refused(RequireAdmin(user).value) else Listed(PayoutList(docs))
  }

  // ------------------------------------------------------------------ disbursement

  /**
   * The fields a disbursement stores: the status and the completion time.
   * Its `paymentDetails.disbursedAt` and `paymentDetails.disbursedBy` are
   * not schema paths and are dropped, so the admin's id is not recorded.
   */
  function DisburseUpdate(t: Transaction, now: int): Transaction
  {
    t.(status := Completed, completedAt := Some(now))
  }

  /**
   * POST `/payouts/:transactionId/disburse`: the admin gate, then an update
   * conditioned on `awaiting_admin_payout`, and 404 when no document matches both.
   */
  function Disburse(docs: seq<Transaction>, user: Option<AuthUser>, id: string, now: int): (res: (Reply, seq<Transaction>))
    ensures |res.1| == |docs|
    ensures res.0.Fail? ==> res.1 == docs
    ensures res.0.Ok? ==> Find(docs, id).Some? && OthersKept(docs, res.1, Find(docs, id).value)
  {
    if RequireAdmin(user).Some? then (Fail(403, "Admin access required"), docs)
    else match Find(docs, id)
      case Some(i) =>
        if docs[i].status == AwaitingAdminPayout
        then (Ok(200), docs[i := DisburseUpdate(docs[i], now)])
        else (Fail(404, "Transaction not found or not awaiting payout"), docs)
      case None => (Fail(404, "Transaction not found or not awaiting payout"), docs)
  }

  /** The disbursement route run against the store. */
  method DisburseFunds(store: EscrowStore, user: Option<AuthUser>, id: string, now: int) returns (r: Reply)
    requires store.Valid()
    modifies store
    ensures store.Valid()
    ensures (r, store.docs) == Disburse(old(store.docs), user, id, now)
  {
    var halt := RequireAdmin(user);
    if halt.Some? {
      return Fail(halt.value.code, halt.value.error);
    }
    var i := Find(store.docs, id);
    if i.None? || store.docs[i.value].status != AwaitingAdminPayout {
      return Fail(404, "Transaction not found or not awaiting payout");
    }
    var t := DisburseUpdate(store.docs[i.value], now);
    KeysKept(store.docs, i.value, t);
    store.docs := store.docs[i.value := t];
    r := Ok(200);
  }

  /**
   * A disbursement succeeds exactly for an admin naming a transaction that
   * awaits payout, and then completes it, its payment record unchanged.
   */
  lemma DisburseCondition(docs: seq<Transaction>, user: Option<AuthUser>, id: string, now: int)
    ensures Disburse(docs, user, id, now).0.Ok? <==>
      (user.Some? && user.value.isAdmin && Find(docs, id).Some? && docs[Find(docs, id).value].status == AwaitingAdminPayout)
    ensures Disburse(docs, user, id, now).0.Ok? ==>
      var i := Find(docs, id).value;
      var t := Disburse(docs, user, id, now).1[i];
      t.status == Completed && t.completedAt == Some(now) && t.paymentDetails == docs[i].paymentDetails
  {
  }

  /** Disbursing twice pays once: the second call is a 404 that changes nothing. */
  lemma DisburseOnce(docs: seq<Transaction>, user: Option<AuthUser>, id: string, now1: int, now2: int)
    requires Disburse(docs, user, id, now1).0.Ok?
    ensures var after := Disburse(docs, user, id, now1).1;
      Disburse(after, user, id, now2) == (Fail(404, "Transaction not found or not awaiting payout"), after)
  {
    var i := Find(docs, id).value;
    FindStable(docs, i, DisburseUpdate(docs[i], now1), id);
  }

  // ------------------------------------------------------------------ wallet summary

  /** Amounts add as JavaScript numbers do: a single NaN amount makes the sum NaN. */
  function AddAmount(sum: Option<int>, amount: Option<int>): Option<int>
  {
    if sum.Some? && amount.Some? then Some(sum.value + amount.value) else None
  }

  /** `reduce((sum, t) => sum + t.amount, 0)` over the documents satisfying `p`. */
  function SumWhere(docs: seq<Transaction>, p: Transaction -> bool): (r: Option<int>)
    ensures AllPriced(docs) ==> r.Some?
    decreases |docs|
  {
    if docs == [] then Some(0)
    else AddAmount(SumWhere(docs[..|docs| - 1], p), if p(docs[|docs| - 1]) then docs[|docs| - 1].amount else Some(0))
  }

  predicate Funded(t: Transaction) { t.paymentStatus == PayCompleted }
  predicate Awaiting(t: Transaction) { t.status == AwaitingAdminPayout }
  /**
   * The released query: completed, with a stored `paymentDetails.disbursedAt`.
   * No document stores that path, so the query matches nothing.
   */
  predicate Released(t: Transaction) { t.status == Completed && "disbursedAt" in StoredPaymentPaths(t.paymentDetails) }

  lemma NeverReleased(t: Transaction)
    ensures !Released(t)
  {
  }

  /** The released total of any collection is 0: no document matches its query. */
  lemma {:induction false} ReleasedTotalZero(docs: seq<Transaction>)
    ensures WalletSummary(docs).totalReleased == Some(0)
    decreases |docs|
  {
    if docs != [] {
      ReleasedTotalZero(docs[..|docs| - 1]);
      NeverReleased(docs[|docs| - 1]);
    }
  }

  datatype Totals = Totals(totalInEscrow: Option<int>, awaitingPayout: Option<int>, totalReleased: Option<int>)

  /** GET `/wallet-summary`: the three totals. */
  function WalletSummary(docs: seq<Transaction>): (r: Totals)
    ensures docs == [] ==> r == Totals(Some(0), Some(0), Some(0))
  {
    Totals(SumWhere(docs, Funded), SumWhere(docs, Awaiting), SumWhere(docs, Released))
  }

  predicate AllPriced(docs: seq<Transaction>)
  {
    forall k :: 0 <= k < |docs| ==> docs[k].amount.Some?
  }

  /** The plain sum of the amounts, over documents that all have one. */
  function AmountTotal(docs: seq<Transaction>): int
    requires AllPriced(docs)
    decreases |docs|
  {
    if docs == [] then 0 else AmountTotal(docs[..|docs| - 1]) + docs[|docs| - 1].amount.value
  }

  /** When every document has an amount, each total is a number: the sum over the matching documents. */
  lemma {:induction false} SumWhereIsFilteredTotal(docs: seq<Transaction>, p: Transaction -> bool)
    requires AllPriced(docs)
    ensures SumWhere(docs, p) == Some(AmountTotal(Filter(docs, p)))
    decreases |docs|
  {
    if docs != [] {
      var init, last := docs[..|docs| - 1], docs[|docs| - 1];
      SumWhereIsFilteredTotal(init, p);
      FilterLast(docs, p);
      if p(last) {
        AmountTotalSnoc(Filter(init, p), last);
      } else {
        assert Filter(init, p) + [] == Filter(init, p);
      }
    }
  }

  lemma FilterLast(docs: seq<Transaction>, p: Transaction -> bool)
    requires docs != []
    ensures Filter(docs, p) == Filter(docs[..|docs| - 1], p) + (if p(docs[|docs| - 1]) then [docs[|docs| - 1]] else [])
  {
    var init, last := docs[..|docs| - 1], docs[|docs| - 1];
    assert docs == init + [last];
    FilterSnoc(init, last, p);
  }

  lemma AmountTotalSnoc(a: seq<Transaction>, x: Transaction)
    requires AllPriced(a) && x.amount.Some?
    ensures AllPriced(a + [x]) && AmountTotal(a + [x]) == AmountTotal(a) + x.amount.value
  {
    assert (a + [x])[..|a|] == a;
  }

  function Filter(docs: seq<Transaction>, p: Transaction -> bool): (r: seq<Transaction>)
    ensures AllPriced(docs) ==> AllPriced(r)
    ensures forall t :: t in r <==> t in docs && p(t)
    decreases |docs|
  {
    if docs == [] then []
    else
      assert docs == [docs[0]] + docs[1..];
      if p(docs[0]) then [docs[0]] + Filter(docs[1..], p) else Filter(docs[1..], p)
  }

  lemma {:induction false} FilterSnoc(docs: seq<Transaction>, t: Transaction, p: Transaction -> bool)
    ensures Filter(docs + [t], p) == Filter(docs, p) + (if p(t) then [t] else [])
    decreases |docs|
  {
    if docs == [] {
      assert docs + [t] == [t];
    } else {
      assert (docs + [t])[0] == docs[0] && (docs + [t])[1..] == docs[1..] + [t];
      FilterSnoc(docs[1..], t, p);
    }
  }

  /**
   * A NaN amount on any counted document turns that total into NaN. The
   * modelled routes never store such a document (creation refuses a missing
   * amount and no update writes one), so this describes a collection that
   * other code has written to: the aggregation itself does not guard
   * against it.
   */
  lemma {:induction false} NaNPoisonsTotal(docs: seq<Transaction>, p: Transaction -> bool, k: nat)
    requires k < |docs| && p(docs[k]) && docs[k].amount.None?
    ensures SumWhere(docs, p).None?
    decreases |docs|
  {
    if k < |docs| - 1 {
      NaNPoisonsTotal(docs[..|docs| - 1], p, k);
    }
  }

  /** Replacing one document changes a total by what leaves the filter and what enters it. */
  lemma {:induction false} SumWhereUpdate(docs: seq<Transaction>, p: Transaction -> bool, i: nat, t: Transaction)
    requires i < |docs| && AllPriced(docs) && t.amount.Some?
    ensures AllPriced(docs[i := t])
    ensures SumWhere(docs[i := t], p).value ==
      SumWhere(docs, p).value - (if p(docs[i]) then docs[i].amount.value else 0) + (if p(t) then t.amount.value else 0)
    decreases |docs|
  {
    var init, last := docs[..|docs| - 1], |docs| - 1;
    if i == last {
      assert docs[i := t][..last] == init;
    } else {
      assert docs[i := t][..last] == init[i := t];
      SumWhereUpdate(init, p, i, t);
    }
  }

  /**
   * A disbursement takes the transaction's amount off the awaiting-payout
   * total, leaves the escrow total alone, and the released total stays 0:
   * the disbursed amount is counted nowhere.
   */
  lemma DisburseMovesAmount(docs: seq<Transaction>, user: Option<AuthUser>, id: string, now: int)
    requires AllPriced(docs) && Disburse(docs, user, id, now).0.Ok?
    ensures var i := Find(docs, id).value;
      var before, after := WalletSummary(docs), WalletSummary(Disburse(docs, user, id, now).1);
      && after.awaitingPayout.value == before.awaitingPayout.value - docs[i].amount.value
      && after.totalReleased == before.totalReleased == Some(0)
      && after.totalInEscrow == before.totalInEscrow
  {
    var i := Find(docs, id).value;
    var t := DisburseUpdate(docs[i], now);
    assert Disburse(docs, user, id, now).1 == docs[i := t];
    PayoutMovesAmount(docs, i, t);
    ReleasedTotalZero(docs);
    ReleasedTotalZero(docs[i := t]);
  }

  /** Taking one document out of the payout queue, with the same amount and payment status. */
  lemma PayoutMovesAmount(docs: seq<Transaction>, i: nat, t: Transaction)
    requires i < |docs| && AllPriced(docs) && Awaiting(docs[i]) && !Awaiting(t)
    requires Funded(t) == Funded(docs[i]) && t.amount == docs[i].amount
    ensures var before, after := WalletSummary(docs), WalletSummary(docs[i := t]);
      && after.awaitingPayout.value == before.awaitingPayout.value - docs[i].amount.value
      && after.totalInEscrow == before.totalInEscrow
  {
    SumWhereUpdate(docs, Awaiting, i, t);
    SumWhereUpdate(docs, Funded, i, t);
  }
}
