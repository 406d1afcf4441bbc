/** Wallets, their transactions and the payouts that take them: debit, schedule, hold and release. */
module WalletLedger {
  import opened Wrappers
  import opened Sums
  import opened PayoutFactory

  datatype WalletRow = WalletRow(availableBalance: int, holdBalance: int)

  datatype PayoutStatus = Scheduled | InTransit | Paid

  datatype Payout = Payout(ownerId: string, tenant: Tenant, amount: int, processedAmount: int, status: PayoutStatus)

  /** A stored payout is identified by its position, a stored transaction by its `id`, which is its position. */
  datatype Ledger = Ledger(wallets: map<string, WalletRow>, transactions: seq<Transaction>, payouts: seq<Payout>)

  /** A wallet object between its load and its save. */
  class Wallet {
    var availableBalance: int
    var holdBalance: int

    function Row(): WalletRow
      reads this
    {
      WalletRow(availableBalance, holdBalance)
    }

    constructor (row: WalletRow)
      ensures Row() == row
    {
      availableBalance := row.availableBalance;
      holdBalance := row.holdBalance;
    }

    method Debit(amount: int)
      modifies this
      ensures Row() == old(Row()).(availableBalance := old(availableBalance) + amount)
    {
      availableBalance := availableBalance + amount;
    }

    method HoldBalanceForPayout(amount: int)
      modifies this
      ensures Row() == WalletRow(old(availableBalance) - amount, old(holdBalance) + amount)
    {
      availableBalance := availableBalance - amount;
      holdBalance := holdBalance + amount;
    }

    method ReleaseBalanceForPayout(amount: int)
      modifies this
      ensures Row() == old(Row()).(holdBalance := old(holdBalance) - amount)
    {
      holdBalance := holdBalance - amount;
    }
  }

  function WalletOf(l: Ledger, ownerId: string): WalletRow {
    if ownerId in l.wallets then l.wallets[ownerId] else WalletRow(0, 0)
  }

  /** Credits an earning of `requestId` to its owner; the wallet is created on first use. */
  function AddEarning(l: Ledger, kind: TransactionType, requestId: string, ownerId: string, tenant: Tenant, amount: int): Ledger {
    var w := WalletOf(l, ownerId);
    l.(wallets := l.wallets[ownerId := w.(availableBalance := w.availableBalance + amount)],
       transactions := l.transactions
         + [Transaction(|l.transactions|, ownerId, tenant, kind, Success, amount, Some(requestId), None)])
  }

  predicate HasCompensation(l: Ledger, requestId: string, ownerId: string) {
    exists t :: t in l.transactions && t.kind.RescheduleSurchargeCompensation? && t.ownerId == ownerId && t.requestId == Some(requestId)
  }

  /** The position, counted from `base`, of the payout that takes `t`. */
  function PayoutTaking(drafts: seq<Draft>, t: Transaction): (r: Option<nat>)
    ensures r.Some? ==> r.value < |drafts| && t in drafts[r.value].transactions
    ensures r.None? ==> forall d :: d in drafts ==> t !in d.transactions
  {
    if drafts == [] then None
    else if t in drafts[|drafts| - 1].transactions then Some(|drafts| - 1)
    else
      assert drafts == drafts[..|drafts| - 1] + [drafts[|drafts| - 1]];
      PayoutTaking(drafts[..|drafts| - 1], t)
  }

  function Link(t: Transaction, drafts: seq<Draft>, base: nat): Transaction {
    match PayoutTaking(drafts, t)
    case None => t
    case Some(k) => t.(payoutId := Some(base + k))
  }

  /** Saving the drafted payouts stores them and points their transactions at them. */
  function SavePayouts(l: Ledger, drafts: seq<Draft>): Ledger {
    l.(transactions := Map(l.transactions, t => Link(t, drafts, |l.payouts|)),
       payouts := l.payouts + Map(drafts, (d: Draft) => Payout(d.ownerId, d.tenant, d.amount, 0, Scheduled)))
  }

  function SchedulePayouts(l: Ledger, payable: map<string, Provider>): Ledger {
    SavePayouts(l, Payouts(Debitable(l.transactions), payable))
  }

  predicate IsHoldOf(t: Transaction, p: nat) {
    t.kind.PayoutDebit? && t.payoutId == Some(p)
  }

  predicate IsHeld(ts: seq<Transaction>, p: nat) {
    exists t :: t in ts && IsHoldOf(t, p)
  }

  function HoldBalance(l: Ledger, p: nat): Ledger {
    if p >= |l.payouts| || IsHeld(l.transactions, p) || l.payouts[p].ownerId !in l.wallets then l
    else
      var payout := l.payouts[p];
      var w := l.wallets[payout.ownerId];
      l.(wallets := l.wallets[payout.ownerId := WalletRow(w.availableBalance - payout.amount, w.holdBalance + payout.amount)],
         transactions := l.transactions
           + [Transaction(|l.transactions|, payout.ownerId, payout.tenant, PayoutDebit, Pending, -payout.amount, None, Some(p))])
  }

  /** The first pending payout transaction of `p`. */
  function PendingHold(ts: seq<Transaction>, p: nat): (r: Option<nat>)
    ensures r.Some? ==> r.value < |ts| && IsHoldOf(ts[r.value], p) && ts[r.value].status.Pending?
    ensures r.None? ==> forall t :: t in ts && IsHoldOf(t, p) ==> !t.status.Pending?
  {
    if ts == [] then None
    else
      assert ts == ts[..|ts| - 1] + [ts[|ts| - 1]];
      var earlier := PendingHold(ts[..|ts| - 1], p);
      if earlier.None? && IsHoldOf(ts[|ts| - 1], p) && ts[|ts| - 1].status.Pending? then Some(|ts| - 1) else earlier
  }

  function ReleaseBalance(l: Ledger, p: nat): Ledger {
    if p >= |l.payouts| || l.payouts[p].ownerId !in l.wallets || PendingHold(l.transactions, p).None? then l
    else
      var payout := l.payouts[p];
      var w := l.wallets[payout.ownerId];
      var i := PendingHold(l.transactions, p).value;
      l.(wallets := l.wallets[payout.ownerId := w.(holdBalance := w.holdBalance - payout.amount)],
         transactions := l.transactions[i := l.transactions[i].(status := Success)])
  }

  // ---------- What the balances should be ----------

  function BalanceTerm(o: string, t: Transaction): int {
    if t.ownerId == o then t.amount else 0
  }

  function HoldTerm(o: string, t: Transaction): int {
    if t.ownerId == o && t.kind.PayoutDebit? && t.status.Pending? then -t.amount else 0
  }

  function EarningTerm(p: nat, t: Transaction): int {
    if IsEarning(t) && t.payoutId == Some(p) then t.amount else 0
  }

  ghost predicate IsOpen(held: iset<nat>, t: Transaction) {
    IsEarning(t) && (t.payoutId.Some? ==> t.payoutId.value !in held)
  }

  ghost function OpenTerm(held: iset<nat>, o: string, t: Transaction): int {
    if t.ownerId == o && IsOpen(held, t) then t.amount else 0
  }

  /** The sum of an owner's transaction amounts. */
  function Balance(ts: seq<Transaction>, o: string): int {
    Sum(ts, t => BalanceTerm(o, t))
  }

  /** The sum of an owner's pending payouts. */
  function PendingPayouts(ts: seq<Transaction>, o: string): int {
    Sum(ts, t => HoldTerm(o, t))
  }

  /** The sum of the earnings that payout `p` takes. */
  function EarningsIn(ts: seq<Transaction>, p: nat): int {
    Sum(ts, t => EarningTerm(p, t))
  }

  /** The sum of an owner's earnings that no held payout has taken. */
  ghost function OpenEarnings(ts: seq<Transaction>, held: iset<nat>, o: string): int {
    Sum(ts, t => OpenTerm(held, o, t))
  }

  ghost function Held(ts: seq<Transaction>): iset<nat> {
    iset p: nat | IsHeld(ts, p)
  }

  ghost predicate BalancesExact(l: Ledger) {
    forall o :: WalletOf(l, o).availableBalance == Balance(l.transactions, o)
             && WalletOf(l, o).holdBalance == PendingPayouts(l.transactions, o)
  }

  ghost predicate RowsLinked(l: Ledger) {
    && (forall i :: 0 <= i < |l.transactions| ==> l.transactions[i].id == i)
    && (forall t :: t in l.transactions && IsEarning(t) ==> t.amount >= 0)
    && (forall t :: t in l.transactions && IsEarning(t) && t.payoutId.Some? ==>
          t.payoutId.value < |l.payouts| && l.payouts[t.payoutId.value].ownerId == t.ownerId
          && l.payouts[t.payoutId.value].tenant == t.tenant)
    && (forall t :: t in l.transactions && t.kind.PayoutDebit? ==>
          t.payoutId.Some? && t.payoutId.value < |l.payouts| && l.payouts[t.payoutId.value].ownerId == t.ownerId
          && t.amount == -l.payouts[t.payoutId.value].amount)
    && (forall t :: t in l.transactions ==> IsEarning(t) || t.kind.PayoutDebit?)
  }

  ghost predicate PayoutsExact(l: Ledger) {
    forall p: nat :: p < |l.payouts| ==> l.payouts[p].amount == EarningsIn(l.transactions, p)
  }

  ghost predicate HeldOnce(l: Ledger) {
    forall i, j, p: nat :: (0 <= i < |l.transactions| && 0 <= j < |l.transactions|
                            && IsHoldOf(l.transactions[i], p) && IsHoldOf(l.transactions[j], p)) ==> i == j
  }

  ghost predicate OpenExact(l: Ledger) {
    forall o :: Balance(l.transactions, o) == OpenEarnings(l.transactions, Held(l.transactions), o)
  }

  ghost predicate Sound(l: Ledger) {
    RowsLinked(l) && PayoutsExact(l) && HeldOnce(l) && OpenExact(l) && BalancesExact(l)
  }

  /** In a sound ledger neither balance of any wallet is negative. */
  lemma SoundIsSolvent(l: Ledger, o: string)
    requires Sound(l)
    ensures WalletOf(l, o).availableBalance >= 0 && WalletOf(l, o).holdBalance >= 0
  {
    SumNonNegative(l.transactions, t => OpenTerm(Held(l.transactions), o, t));
    forall t | t in l.transactions
      ensures 0 <= HoldTerm(o, t)
    {
      if t.kind.PayoutDebit? {
        SumNonNegative(l.transactions, x => EarningTerm(t.payoutId.value, x));
      }
    }
    SumNonNegative(l.transactions, t => HoldTerm(o, t));
  }

  // ---------- Every step keeps the ledger sound ----------

  /** A row that is no hold leaves the held payouts as they are. */
  lemma EarningHoldsNothing(ts: seq<Transaction>, row: Transaction)
    requires IsEarning(row)
    ensures Held(ts + [row]) == Held(ts)
  {
    forall p: nat
      ensures IsHeld(ts + [row], p) <==> IsHeld(ts, p)
    {
      if t :| t in ts && IsHoldOf(t, p) {
        assert t in ts + [row];
      }
    }
  }

  lemma EarningMovesBalances(ts: seq<Transaction>, row: Transaction, o: string)
    requires IsEarning(row) && row.payoutId.None?
    ensures Balance(ts + [row], o) == Balance(ts, o) + BalanceTerm(o, row)
    ensures PendingPayouts(ts + [row], o) == PendingPayouts(ts, o)
    ensures OpenEarnings(ts + [row], Held(ts + [row]), o) == OpenEarnings(ts, Held(ts), o) + BalanceTerm(o, row)
  {
    EarningHoldsNothing(ts, row);
    SumSnoc(ts, row, t => BalanceTerm(o, t));
    SumSnoc(ts, row, t => HoldTerm(o, t));
    SumSnoc(ts, row, t => OpenTerm(Held(ts), o, t));
  }

  lemma AddEarningKeepsBalances(l: Ledger, kind: TransactionType, requestId: string, ownerId: string, tenant: Tenant, amount: int)
    requires OpenExact(l) && BalancesExact(l) && (kind.Income? || kind.RescheduleSurchargeCompensation?)
    ensures OpenExact(AddEarning(l, kind, requestId, ownerId, tenant, amount))
    ensures BalancesExact(AddEarning(l, kind, requestId, ownerId, tenant, amount))
  {
    var l' := AddEarning(l, kind, requestId, ownerId, tenant, amount);
    var row := l'.transactions[|l.transactions|];
    forall o
      ensures Balance(l'.transactions, o) == OpenEarnings(l'.transactions, Held(l'.transactions), o)
      ensures WalletOf(l', o).availableBalance == Balance(l'.transactions, o)
      ensures WalletOf(l', o).holdBalance == PendingPayouts(l'.transactions, o)
    {
      EarningMovesBalances(l.transactions, row, o);
    }
  }

  lemma AddEarningKeepsPayouts(l: Ledger, kind: TransactionType, requestId: string, ownerId: string, tenant: Tenant, amount: int)
    requires PayoutsExact(l)
    ensures PayoutsExact(AddEarning(l, kind, requestId, ownerId, tenant, amount))
  {
    var l' := AddEarning(l, kind, requestId, ownerId, tenant, amount);
    forall p: nat
      ensures EarningsIn(l'.transactions, p) == EarningsIn(l.transactions, p)
    {
      SumSnoc(l.transactions, l'.transactions[|l.transactions|], t => EarningTerm(p, t));
    }
  }

  lemma AddEarningKeepsRows(l: Ledger, kind: TransactionType, requestId: string, ownerId: string, tenant: Tenant, amount: int)
    requires RowsLinked(l) && HeldOnce(l) && amount >= 0 && (kind.Income? || kind.RescheduleSurchargeCompensation?)
    ensures RowsLinked(AddEarning(l, kind, requestId, ownerId, tenant, amount))
    ensures HeldOnce(AddEarning(l, kind, requestId, ownerId, tenant, amount))
  {}

  lemma AddEarningKeepsSound(l: Ledger, kind: TransactionType, requestId: string, ownerId: string, tenant: Tenant, amount: int)
    requires Sound(l) && amount >= 0
    requires kind.Income? || kind.RescheduleSurchargeCompensation?
    ensures Sound(AddEarning(l, kind, requestId, ownerId, tenant, amount))
  {
    AddEarningKeepsRows(l, kind, requestId, ownerId, tenant, amount);
    AddEarningKeepsPayouts(l, kind, requestId, ownerId, tenant, amount);
    AddEarningKeepsBalances(l, kind, requestId, ownerId, tenant, amount);
  }

  /** No transaction is drafted into two payouts. */
  lemma DraftedOnce(ts: seq<Transaction>, payable: map<string, Provider>, t: Transaction, j: nat, k: nat)
    requires j < |Payouts(ts, payable)| && t in Payouts(ts, payable)[j].transactions
    requires k < |Payouts(ts, payable)| && t in Payouts(ts, payable)[k].transactions
    ensures j == k
    ensures t in ts && Payouts(ts, payable)[k].ownerId == t.ownerId && Payouts(ts, payable)[k].tenant == t.tenant
  {
    PayoutsPartition(ts, payable);
    var dj, dk := Payouts(ts, payable)[j], Payouts(ts, payable)[k];
    assert dj in Payouts(ts, payable) && dk in Payouts(ts, payable);
    assert IsDraftOf(dj, ts, payable) && IsDraftOf(dk, ts, payable);
  }

  /** Which stored rows a scheduling run links, and to what. */
  lemma LinkedRow(l: Ledger, payable: map<string, Provider>, t: Transaction)
    requires t in l.transactions
    ensures PayoutTaking(Payouts(Debitable(l.transactions), payable), t).Some? <==> IsDebitable(t) && t.ownerId in payable
    ensures var ds := Payouts(Debitable(l.transactions), payable);
            PayoutTaking(ds, t).Some? ==>
              ds[PayoutTaking(ds, t).value].ownerId == t.ownerId && ds[PayoutTaking(ds, t).value].tenant == t.tenant
  {
    var ts := Debitable(l.transactions);
    var ds := Payouts(ts, payable);
    FilterMembers(l.transactions, (x: Transaction) => IsDebitable(x));
    match PayoutTaking(ds, t)
    case None => PayoutsPartition(ts, payable);
    case Some(k) =>
      DraftedOnce(ts, payable, t, k, k);
      assert ds[k] in ds;
      PayoutsPartition(ts, payable);
  }

  /** The run links exactly the rows of draft `k` to payout `k`. */
  lemma LinkedTo(l: Ledger, payable: map<string, Provider>, t: Transaction, k: nat)
    requires t in l.transactions && k < |Payouts(Debitable(l.transactions), payable)|
    ensures var ds := Payouts(Debitable(l.transactions), payable);
            PayoutTaking(ds, t) == Some(k) <==> t in ds[k].transactions
  {
    var ds := Payouts(Debitable(l.transactions), payable);
    if t in ds[k].transactions {
      DraftedOnce(Debitable(l.transactions), payable, t, PayoutTaking(ds, t).value, k);
    }
  }

  function DraftTerm(d: Draft, t: Transaction): int {
    if t in d.transactions then t.amount else 0
  }

  lemma DraftAmount(l: Ledger, payable: map<string, Provider>, d: Draft)
    requires d in Payouts(Debitable(l.transactions), payable)
    ensures d.amount == Sum(l.transactions, t => DraftTerm(d, t))
  {
    var ts := Debitable(l.transactions);
    PayoutsPartition(ts, payable);
    assert IsDraftOf(d, ts, payable);
    FilterMembers(l.transactions, (x: Transaction) => IsDebitable(x));
    FilterMembers(ts, (x: Transaction) => GroupId(x) == d.groupId);
    SumFilter(ts, (x: Transaction) => GroupId(x) == d.groupId, (t: Transaction) => t.amount, t => DraftTerm(d, t));
    SumFilter(l.transactions, (x: Transaction) => IsDebitable(x), t => DraftTerm(d, t), t => DraftTerm(d, t));
  }

  lemma DraftTermIsEarning(l: Ledger, payable: map<string, Provider>, t: Transaction, k: nat)
    requires t in l.transactions && (t.payoutId.Some? ==> t.payoutId.value < |l.payouts|)
    requires k < |Payouts(Debitable(l.transactions), payable)|
    ensures var ds := Payouts(Debitable(l.transactions), payable);
            DraftTerm(ds[k], t) == EarningTerm(|l.payouts| + k, Link(t, ds, |l.payouts|))
  {
    LinkedRow(l, payable, t);
    LinkedTo(l, payable, t, k);
  }

  lemma PayoutTakesItsGroup(l: Ledger, payable: map<string, Provider>, k: nat)
    requires k < |Payouts(Debitable(l.transactions), payable)|
    requires forall t :: t in l.transactions && t.payoutId.Some? ==> t.payoutId.value < |l.payouts|
    ensures Payouts(Debitable(l.transactions), payable)[k].amount
         == EarningsIn(SchedulePayouts(l, payable).transactions, |l.payouts| + k)
  {
    var ds := Payouts(Debitable(l.transactions), payable);
    var base := |l.payouts|;
    assert ds[k] in ds;
    DraftAmount(l, payable, ds[k]);
    forall t | t in l.transactions
      ensures DraftTerm(ds[k], t) == EarningTerm(base + k, Link(t, ds, base))
    {
      DraftTermIsEarning(l, payable, t, k);
    }
    SumMap(l.transactions, t => Link(t, ds, base), t => EarningTerm(base + k, t), t => DraftTerm(ds[k], t));
  }

  lemma ScheduleKeepsBalances(l: Ledger, payable: map<string, Provider>, o: string)
    requires Sound(l)
    ensures var l' := SchedulePayouts(l, payable);
            && Held(l'.transactions) == Held(l.transactions)
            && Balance(l'.transactions, o) == Balance(l.transactions, o)
            && PendingPayouts(l'.transactions, o) == PendingPayouts(l.transactions, o)
            && OpenEarnings(l'.transactions, Held(l.transactions), o) == OpenEarnings(l.transactions, Held(l.transactions), o)
  {
    var l' := SchedulePayouts(l, payable);
    var ds := Payouts(Debitable(l.transactions), payable);
    var link := t => Link(t, ds, |l.payouts|);
    var held := Held(l.transactions);
    forall t | t in l.transactions
      ensures BalanceTerm(o, link(t)) == BalanceTerm(o, t)
      ensures HoldTerm(o, link(t)) == HoldTerm(o, t)
      ensures OpenTerm(held, o, link(t)) == OpenTerm(held, o, t)
      ensures t.kind.PayoutDebit? ==> link(t) == t
    {
      LinkedRow(l, payable, t);
    }
    SumMap(l.transactions, link, t => BalanceTerm(o, t), t => BalanceTerm(o, t));
    SumMap(l.transactions, link, t => HoldTerm(o, t), t => HoldTerm(o, t));
    SumMap(l.transactions, link, t => OpenTerm(held, o, t), t => OpenTerm(held, o, t));
    forall p: nat
      ensures IsHeld(l'.transactions, p) <==> IsHeld(l.transactions, p)
    {
      ScheduleKeepsHolds(l, payable, p);
    }
  }

  lemma ScheduleKeepsHolds(l: Ledger, payable: map<string, Provider>, p: nat)
    ensures IsHeld(SchedulePayouts(l, payable).transactions, p) <==> IsHeld(l.transactions, p)
    ensures forall i :: 0 <= i < |l.transactions| ==>
              (IsHoldOf(SchedulePayouts(l, payable).transactions[i], p) <==> IsHoldOf(l.transactions[i], p))
  {
    var ts := SchedulePayouts(l, payable).transactions;
    forall i | 0 <= i < |ts|
      ensures IsHoldOf(ts[i], p) <==> IsHoldOf(l.transactions[i], p)
    {
      LinkedRow(l, payable, l.transactions[i]);
    }
    if t :| t in l.transactions && IsHoldOf(t, p) {
      var i :| 0 <= i < |ts| && l.transactions[i] == t;
      assert ts[i] in ts;
    }
    if t :| t in ts && IsHoldOf(t, p) {
      var i :| 0 <= i < |ts| && ts[i] == t;
      assert l.transactions[i] in l.transactions;
    }
  }

  lemma ScheduleKeepsAllBalances(l: Ledger, payable: map<string, Provider>)
    requires Sound(l)
    ensures OpenExact(SchedulePayouts(l, payable)) && BalancesExact(SchedulePayouts(l, payable))
  {
    var l' := SchedulePayouts(l, payable);
    forall o
      ensures Balance(l'.transactions, o) == OpenEarnings(l'.transactions, Held(l'.transactions), o)
      ensures WalletOf(l', o).availableBalance == Balance(l'.transactions, o)
      ensures WalletOf(l', o).holdBalance == PendingPayouts(l'.transactions, o)
    {
      ScheduleKeepsBalances(l, payable, o);
    }
  }

  lemma ScheduleKeepsHeldOnce(l: Ledger, payable: map<string, Provider>)
    requires HeldOnce(l)
    ensures HeldOnce(SchedulePayouts(l, payable))
  {
    var l' := SchedulePayouts(l, payable);
    forall i, j, p: nat | 0 <= i < |l'.transactions| && 0 <= j < |l'.transactions|
                          && IsHoldOf(l'.transactions[i], p) && IsHoldOf(l'.transactions[j], p)
      ensures i == j
    {
      ScheduleKeepsHolds(l, payable, p);
    }
  }

  /** Earnings of payouts stored before are not touched. */
  lemma ScheduleKeepsOldPayouts(l: Ledger, payable: map<string, Provider>, p: nat)
    requires p < |l.payouts|
    ensures EarningsIn(SchedulePayouts(l, payable).transactions, p) == EarningsIn(l.transactions, p)
  {
    var ds := Payouts(Debitable(l.transactions), payable);
    forall t | t in l.transactions
      ensures EarningTerm(p, t) == EarningTerm(p, Link(t, ds, |l.payouts|))
    {
      LinkedRow(l, payable, t);
    }
    SumMap(l.transactions, t => Link(t, ds, |l.payouts|), t => EarningTerm(p, t), t => EarningTerm(p, t));
  }

  lemma ScheduleKeepsPayoutsExact(l: Ledger, payable: map<string, Provider>)
    requires RowsLinked(l) && PayoutsExact(l)
    ensures PayoutsExact(SchedulePayouts(l, payable))
  {
    var l' := SchedulePayouts(l, payable);
    forall p: nat | p < |l'.payouts|
      ensures l'.payouts[p].amount == EarningsIn(l'.transactions, p)
    {
      if p < |l.payouts| {
        ScheduleKeepsOldPayouts(l, payable, p);
      } else {
        PayoutTakesItsGroup(l, payable, p - |l.payouts|);
      }
    }
  }

  lemma SchedulePayoutsKeepsSound(l: Ledger, payable: map<string, Provider>)
    requires Sound(l)
    ensures Sound(SchedulePayouts(l, payable))
  {
    ScheduleLinksRows(l, payable);
    ScheduleKeepsPayoutsExact(l, payable);
    ScheduleKeepsHeldOnce(l, payable);
    ScheduleKeepsAllBalances(l, payable);
  }

  /** A stored row of an earning points to a payout of its owner and tenant. */
  predicate PointsToOwn(payouts: seq<Payout>, t: Transaction) {
    IsEarning(t) && t.payoutId.Some? ==>
      t.payoutId.value < |payouts| && payouts[t.payoutId.value].ownerId == t.ownerId && payouts[t.payoutId.value].tenant == t.tenant
  }

  lemma DraftedRow(l: Ledger, payable: map<string, Provider>, k: nat)
    requires k < |Payouts(Debitable(l.transactions), payable)|
    ensures var draft := Payouts(Debitable(l.transactions), payable)[k]; var payouts := SchedulePayouts(l, payable).payouts;
            |l.payouts| + k < |payouts| && payouts[|l.payouts| + k] == Payout(draft.ownerId, draft.tenant, draft.amount, 0, Scheduled)
  {}

  lemma LinkPointsToOwn(l: Ledger, payable: map<string, Provider>, t: Transaction)
    requires RowsLinked(l) && t in l.transactions
    ensures var t' := Link(t, Payouts(Debitable(l.transactions), payable), |l.payouts|);
            PointsToOwn(SchedulePayouts(l, payable).payouts, t') && (t'.kind.PayoutDebit? ==> t' == t)
  {
    LinkedRow(l, payable, t);
    match PayoutTaking(Payouts(Debitable(l.transactions), payable), t)
    case None => assert PointsToOwn(l.payouts, t);
    case Some(k) => DraftedRow(l, payable, k);
  }

  lemma ScheduleLinksRows(l: Ledger, payable: map<string, Provider>)
    requires RowsLinked(l)
    ensures RowsLinked(SchedulePayouts(l, payable))
  {
    var l' := SchedulePayouts(l, payable);
    var h := (t: Transaction) => Link(t, Payouts(Debitable(l.transactions), payable), |l.payouts|);
    forall t' | t' in l'.transactions
      ensures PointsToOwn(l'.payouts, t') && exists t :: t in l.transactions && t' == h(t) && (t'.kind.PayoutDebit? ==> t' == t)
    {
      var i :| 0 <= i < |l'.transactions| && l'.transactions[i] == t';
      assert t' == h(l.transactions[i]) && l.transactions[i] in l.transactions;
      LinkPointsToOwn(l, payable, l.transactions[i]);
    }
  }

  function OwnedEarningTerm(o: string, p: nat, t: Transaction): int {
    if t.ownerId == o then EarningTerm(p, t) else 0
  }

  /** The earnings in a payout all belong to its owner. */
  lemma PayoutHasOneOwner(l: Ledger, o: string, p: nat)
    requires RowsLinked(l) && PayoutsExact(l) && p < |l.payouts|
    ensures Sum(l.transactions, t => OwnedEarningTerm(o, p, t)) == if o == l.payouts[p].ownerId then l.payouts[p].amount else 0
  {
    if o == l.payouts[p].ownerId {
      SumCongruent(l.transactions, t => OwnedEarningTerm(o, p, t), t => EarningTerm(p, t));
    } else {
      SumZero(l.transactions, t => OwnedEarningTerm(o, p, t));
    }
  }

  /** Holding a payout closes exactly the earnings it takes. */
  lemma HoldMovesOpenEarnings(l: Ledger, o: string, p: nat, held': iset<nat>)
    requires RowsLinked(l) && PayoutsExact(l) && p < |l.payouts|
    requires p !in Held(l.transactions) && held' == Held(l.transactions) + iset{p}
    ensures OpenEarnings(l.transactions, held', o)
         == OpenEarnings(l.transactions, Held(l.transactions), o) - (if o == l.payouts[p].ownerId then l.payouts[p].amount else 0)
  {
    SumPlus(l.transactions, t => OpenTerm(held', o, t), t => OwnedEarningTerm(o, p, t), t => OpenTerm(Held(l.transactions), o, t));
    PayoutHasOneOwner(l, o, p);
  }

  lemma HoldAddsToHeld(ts: seq<Transaction>, row: Transaction, p: nat)
    requires IsHoldOf(row, p)
    ensures Held(ts + [row]) == Held(ts) + iset{p}
  {
    forall q: nat
      ensures IsHeld(ts + [row], q) <==> IsHeld(ts, q) || q == p
    {
      if t :| t in ts && IsHoldOf(t, q) {
        assert t in ts + [row];
      }
      assert row in ts + [row];
    }
  }

  lemma HoldMovesBalances(l: Ledger, o: string, p: nat, row: Transaction)
    requires RowsLinked(l) && PayoutsExact(l) && p < |l.payouts| && p !in Held(l.transactions)
    requires IsHoldOf(row, p) && row.status.Pending? && row.ownerId == l.payouts[p].ownerId && row.amount == -l.payouts[p].amount
    ensures var ts' := l.transactions + [row];
            && Balance(ts', o) == Balance(l.transactions, o) + BalanceTerm(o, row)
            && PendingPayouts(ts', o) == PendingPayouts(l.transactions, o) - BalanceTerm(o, row)
            && OpenEarnings(ts', Held(ts'), o) == OpenEarnings(l.transactions, Held(l.transactions), o) + BalanceTerm(o, row)
  {
    var held' := Held(l.transactions + [row]);
    HoldAddsToHeld(l.transactions, row, p);
    SumSnoc(l.transactions, row, t => BalanceTerm(o, t));
    SumSnoc(l.transactions, row, t => HoldTerm(o, t));
    SumSnoc(l.transactions, row, t => OpenTerm(held', o, t));
    HoldMovesOpenEarnings(l, o, p, held');
  }

  lemma HoldKeepsAllBalances(l: Ledger, p: nat)
    requires Sound(l) && HoldBalance(l, p) != l
    ensures OpenExact(HoldBalance(l, p)) && BalancesExact(HoldBalance(l, p))
  {
    var l' := HoldBalance(l, p);
    var row := l'.transactions[|l.transactions|];
    assert l'.transactions == l.transactions + [row];
    forall o
      ensures Balance(l'.transactions, o) == OpenEarnings(l'.transactions, Held(l'.transactions), o)
      ensures WalletOf(l', o).availableBalance == Balance(l'.transactions, o)
      ensures WalletOf(l', o).holdBalance == PendingPayouts(l'.transactions, o)
    {
      HoldMovesBalances(l, o, p, row);
    }
  }

  lemma HoldKeepsPayoutsExact(l: Ledger, p: nat)
    requires PayoutsExact(l)
    ensures PayoutsExact(HoldBalance(l, p))
  {
    var l' := HoldBalance(l, p);
    if l' != l {
      forall q: nat
        ensures EarningsIn(l'.transactions, q) == EarningsIn(l.transactions, q)
      {
        SumSnoc(l.transactions, l'.transactions[|l.transactions|], t => EarningTerm(q, t));
      }
    }
  }

  lemma HoldKeepsRows(l: Ledger, p: nat)
    requires RowsLinked(l)
    ensures RowsLinked(HoldBalance(l, p))
  {}

  lemma HoldKeepsHeldOnce(l: Ledger, p: nat)
    requires HeldOnce(l)
    ensures HeldOnce(HoldBalance(l, p))
  {
    assert forall i :: 0 <= i < |l.transactions| ==> l.transactions[i] in l.transactions;
  }

  lemma HoldBalanceKeepsSound(l: Ledger, p: nat)
    requires Sound(l)
    ensures Sound(HoldBalance(l, p))
  {
    HoldKeepsRows(l, p);
    HoldKeepsPayoutsExact(l, p);
    HoldKeepsHeldOnce(l, p);
    if HoldBalance(l, p) != l {
      HoldKeepsAllBalances(l, p);
    }
  }

  /** Closing the pending hold at `i` moves nothing but the pending payouts of its owner. */
  lemma ReleaseMovesBalances(ts: seq<Transaction>, i: nat, o: string)
    requires i < |ts| && ts[i].kind.PayoutDebit? && ts[i].status.Pending?
    ensures var ts' := ts[i := ts[i].(status := Success)];
            && Held(ts') == Held(ts)
            && Balance(ts', o) == Balance(ts, o)
            && PendingPayouts(ts', o) == PendingPayouts(ts, o) + BalanceTerm(o, ts[i])
            && OpenEarnings(ts', Held(ts'), o) == OpenEarnings(ts, Held(ts), o)
  {
    var row' := ts[i].(status := Success);
    forall q: nat
      ensures IsHeld(ts[i := row'], q) <==> IsHeld(ts, q)
    {
      ReleaseKeepsHolds(ts, i, q);
    }
    assert Held(ts[i := row']) == Held(ts);
    SumUpdate(ts, i, row', t => BalanceTerm(o, t));
    SumUpdate(ts, i, row', t => HoldTerm(o, t));
    SumUpdate(ts, i, row', t => OpenTerm(Held(ts), o, t));
  }

  lemma ReleaseKeepsAllBalances(l: Ledger, p: nat)
    requires Sound(l)
    ensures OpenExact(ReleaseBalance(l, p)) && BalancesExact(ReleaseBalance(l, p))
  {
    var l' := ReleaseBalance(l, p);
    if l' != l {
      var i := PendingHold(l.transactions, p).value;
      assert l.transactions[i] in l.transactions;
      forall o
        ensures Balance(l'.transactions, o) == OpenEarnings(l'.transactions, Held(l'.transactions), o)
        ensures WalletOf(l', o).availableBalance == Balance(l'.transactions, o)
        ensures WalletOf(l', o).holdBalance == PendingPayouts(l'.transactions, o)
      {
        ReleaseMovesBalances(l.transactions, i, o);
      }
    }
  }

  lemma ReleaseKeepsPayoutsExact(l: Ledger, p: nat)
    requires PayoutsExact(l)
    ensures PayoutsExact(ReleaseBalance(l, p))
  {
    var l' := ReleaseBalance(l, p);
    if l' != l {
      var i := PendingHold(l.transactions, p).value;
      forall q: nat
        ensures EarningsIn(l'.transactions, q) == EarningsIn(l.transactions, q)
      {
        SumUpdate(l.transactions, i, l'.transactions[i], t => EarningTerm(q, t));
      }
    }
  }

  lemma ReleaseKeepsRows(l: Ledger, p: nat)
    requires RowsLinked(l) && HeldOnce(l)
    ensures RowsLinked(ReleaseBalance(l, p)) && HeldOnce(ReleaseBalance(l, p))
  {
    var l' := ReleaseBalance(l, p);
    if l' != l {
      var i := PendingHold(l.transactions, p).value;
      assert l.transactions[i] in l.transactions;
    }
  }

  lemma ReleaseBalanceKeepsSound(l: Ledger, p: nat)
    requires Sound(l)
    ensures Sound(ReleaseBalance(l, p))
  {
    ReleaseKeepsRows(l, p);
    ReleaseKeepsPayoutsExact(l, p);
    ReleaseKeepsAllBalances(l, p);
  }

  lemma ReleaseKeepsHolds(ts: seq<Transaction>, i: nat, q: nat)
    requires i < |ts|
    ensures IsHeld(ts[i := ts[i].(status := Success)], q) <==> IsHeld(ts, q)
  {
    var ts' := ts[i := ts[i].(status := Success)];
    if t :| t in ts && IsHoldOf(t, q) {
      var j :| 0 <= j < |ts| && ts[j] == t;
      assert ts'[j] in ts' && IsHoldOf(ts'[j], q);
    }
    if t :| t in ts' && IsHoldOf(t, q) {
      var j :| 0 <= j < |ts| && ts'[j] == t;
      assert ts[j] in ts && IsHoldOf(ts[j], q);
    }
  }
}
