/** What each settlement step does to the stored rows, and when, read off their fields. */
module SettlementEffects {
  import opened Wrappers
  import opened Sums
  import opened PayoutFactory
  import opened WalletLedger
  import opened PayoutLines
  import opened Settlement
  import opened Payments
  import opened PayoutServices

  // ---------- An earning ----------

  /** One debitable row of these fields was added, and the amount to the available balance of its owner alone. */
  ghost predicate IsCredited(l: Ledger, l': Ledger, kind: TransactionType, requestId: string, ownerId: string, tenant: Tenant, amount: int) {
    var n := |l.transactions|;
    && |l'.transactions| == n + 1 && l'.transactions[..n] == l.transactions && l'.payouts == l.payouts && ownerId in l'.wallets
    && l'.transactions[n].kind == kind && l'.transactions[n].requestId == Some(requestId)
    && l'.transactions[n].ownerId == ownerId && l'.transactions[n].tenant == tenant && l'.transactions[n].amount == amount
    && l'.transactions[n].status.Success? && l'.transactions[n].payoutId.None?
    && (forall o :: WalletOf(l', o).availableBalance == WalletOf(l, o).availableBalance + (if o == ownerId then amount else 0)
                 && WalletOf(l', o).holdBalance == WalletOf(l, o).holdBalance)
  }

  /** An income is always credited. */
  lemma IncomeIsCredited(t: Tables, requestId: string, ownerId: string, tenant: Tenant, amount: int)
    ensures var t' := CreateIncome(t, requestId, ownerId, tenant, amount);
            t' == t.(ledger := t'.ledger) && IsCredited(t.ledger, t'.ledger, Income, requestId, ownerId, tenant, amount)
  {}

  predicate IsCompensation(x: Transaction, requestId: Option<string>, ownerId: string) {
    x.kind.RescheduleSurchargeCompensation? && x.ownerId == ownerId && x.requestId == requestId
  }

  /** A compensation is credited exactly if it is due and none of that owner and request is stored; otherwise nothing changes. */
  lemma CompensationCreditedIff(t: Tables, requestId: string, ownerId: string, tenant: Tenant, amount: int, due: bool)
    ensures var t' := CreateCompensation(t, requestId, ownerId, tenant, amount, due);
            if due && forall x :: x in t.ledger.transactions ==> !IsCompensation(x, Some(requestId), ownerId)
            then t' == t.(ledger := t'.ledger) && IsCredited(t.ledger, t'.ledger, RescheduleSurchargeCompensation, requestId, ownerId, tenant, amount)
            else t' == t
  {}

  ghost predicate CompensatedOnce(ts: seq<Transaction>) {
    forall i, j :: 0 <= i < j < |ts| && ts[i].kind.RescheduleSurchargeCompensation? ==>
      !IsCompensation(ts[j], ts[i].requestId, ts[i].ownerId)
  }

  /** Rows appended by a step hold no second compensation, and stored rows keep what makes them one. */
  lemma RowsKeepCompensatedOnce(ts: seq<Transaction>, ts': seq<Transaction>)
    requires CompensatedOnce(ts) && |ts| <= |ts'| <= |ts| + 1
    requires forall i :: 0 <= i < |ts| ==>
               ts'[i].kind == ts[i].kind && ts'[i].ownerId == ts[i].ownerId && ts'[i].requestId == ts[i].requestId
    requires |ts'| > |ts| && ts'[|ts|].kind.RescheduleSurchargeCompensation? ==>
               forall x :: x in ts ==> !IsCompensation(x, ts'[|ts|].requestId, ts'[|ts|].ownerId)
    ensures CompensatedOnce(ts')
  {
    forall i, j | 0 <= i < j < |ts'| && ts'[i].kind.RescheduleSurchargeCompensation?
      ensures !IsCompensation(ts'[j], ts'[i].requestId, ts'[i].ownerId)
    {
      assert ts[i] in ts;
      if j < |ts| {
        assert !IsCompensation(ts[j], ts[i].requestId, ts[i].ownerId);
      }
    }
  }

  lemma ApplyCompensatesOnce(t: Tables, c: Command)
    requires CompensatedOnce(t.ledger.transactions)
    ensures CompensatedOnce(Apply(t, c).ledger.transactions)
  {
    var ts' := match c
      case IncomeEarned(r, o, tenant, amount) => CreateIncome(t, r, o, tenant, amount).ledger.transactions
      case CompensationEarned(r, o, tenant, amount, due) => CreateCompensation(t, r, o, tenant, amount, due).ledger.transactions
      case SchedulePayoutRun(payable, _) => SchedulePayouts(t.ledger, payable).transactions
      case HoldForPayout(p) => HoldBalance(t.ledger, p).transactions
      case ReleaseForPayout(p) => ReleaseBalance(t.ledger, p).transactions
      case UploadFiles(_, _, _) => t.ledger.transactions
      case StatusReceived(_) => t.ledger.transactions;
    RowsKeepCompensatedOnce(t.ledger.transactions, ts');
  }

  /** Over every run, however often the compensation of a request is reported, its owner is credited once. */
  lemma {:induction false} CompensatedOnceOverEveryRun(cs: seq<Command>)
    ensures CompensatedOnce(Run(cs).ledger.transactions)
  {
    if cs != [] {
      CompensatedOnceOverEveryRun(cs[..|cs| - 1]);
      ApplyCompensatesOnce(Run(cs[..|cs| - 1]), cs[|cs| - 1]);
    }
  }

  // ---------- A scheduling run ----------

  /** Debitable are the incomes and compensations that no payout has taken. */
  lemma DebitableMeans(ts: seq<Transaction>, x: Transaction)
    ensures x in Debitable(ts) <==> x in ts && (x.kind.Income? || x.kind.RescheduleSurchargeCompensation?) && x.payoutId.None?
  {
    FilterMembers(ts, (y: Transaction) => IsDebitable(y));
  }

  /** What a scheduling run makes of a stored row: it is linked to a new payout of its owner and tenant exactly if it is an
      earning without a payout whose owner is payable, and else left as it is. */
  lemma ScheduleLinksRow(l: Ledger, payable: map<string, Provider>, i: nat)
    requires i < |l.transactions|
    ensures var l' := SchedulePayouts(l, payable); var x, x' := l.transactions[i], l'.transactions[i];
            && |l'.transactions| == |l.transactions| && x'.(payoutId := x.payoutId) == x
            && (x' != x <==> (x.kind.Income? || x.kind.RescheduleSurchargeCompensation?) && x.payoutId.None? && x.ownerId in payable)
            && (x' != x ==> x'.payoutId.Some? && |l.payouts| <= x'.payoutId.value < |l'.payouts|
                            && l'.payouts[x'.payoutId.value].ownerId == x.ownerId && l'.payouts[x'.payoutId.value].tenant == x.tenant)
  {
    LinkedRow(l, payable, l.transactions[i]);
  }

  lemma DraftHasRow(ts: seq<Transaction>, payable: map<string, Provider>, k: nat) returns (x: Transaction)
    requires k < |Payouts(ts, payable)|
    ensures x in ts && x in Payouts(ts, payable)[k].transactions
  {
    PayoutsPartition(ts, payable);
    var d := Payouts(ts, payable)[k];
    assert d in Payouts(ts, payable) && IsDraftOf(d, ts, payable);
    x := d.transactions[0];
  }

  lemma DraftedIsLinked(l: Ledger, payable: map<string, Provider>, i: nat, k: nat)
    requires i < |l.transactions| && k < |Payouts(Debitable(l.transactions), payable)|
    requires l.transactions[i] in Payouts(Debitable(l.transactions), payable)[k].transactions
    ensures SchedulePayouts(l, payable).transactions[i].payoutId == Some(|l.payouts| + k)
  {
    LinkedTo(l, payable, l.transactions[i], k);
  }

  lemma LinkedPosition(l: Ledger, payable: map<string, Provider>, x: Transaction, k: nat) returns (i: nat)
    requires x in Debitable(l.transactions) && k < |Payouts(Debitable(l.transactions), payable)|
    requires x in Payouts(Debitable(l.transactions), payable)[k].transactions
    ensures i < |l.transactions| && SchedulePayouts(l, payable).transactions[i].payoutId == Some(|l.payouts| + k)
  {
    DebitableMeans(l.transactions, x);
    i :| 0 <= i < |l.transactions| && l.transactions[i] == x;
    DraftedIsLinked(l, payable, i, k);
  }

  /** Some stored row is linked to each new payout. */
  lemma NewPayoutHasRow(l: Ledger, payable: map<string, Provider>, k: nat) returns (i: nat)
    requires k < |Payouts(Debitable(l.transactions), payable)|
    ensures i < |l.transactions| && SchedulePayouts(l, payable).transactions[i].payoutId == Some(|l.payouts| + k)
  {
    var x := DraftHasRow(Debitable(l.transactions), payable, k);
    i := LinkedPosition(l, payable, x, k);
  }

  /** A scheduling run opens at most one payout per owner and tenant, for payable owners only. */
  lemma NewPayoutsDiffer(l: Ledger, payable: map<string, Provider>, j: nat, k: nat)
    requires j < |Payouts(Debitable(l.transactions), payable)| && k < |Payouts(Debitable(l.transactions), payable)|
    ensures var ps := SchedulePayouts(l, payable).payouts; var p, q := ps[|l.payouts| + j], ps[|l.payouts| + k];
            p.ownerId in payable && (p.ownerId == q.ownerId && p.tenant == q.tenant ==> j == k)
  {
    var ds := Payouts(Debitable(l.transactions), payable);
    PayoutsPartition(Debitable(l.transactions), payable);
    assert ds[j] in ds && IsDraftOf(ds[j], Debitable(l.transactions), payable);
    DraftedRow(l, payable, j);
    DraftedRow(l, payable, k);
  }

  /** The payouts of a scheduling run are scheduled and unpaid, each of a payable owner and worth the rows linked to it; it opens one
      per owner and tenant, and leaves the stored payouts and the wallets alone. */
  lemma ScheduleOpensPayouts(l: Ledger, payable: map<string, Provider>, p: nat)
    requires forall x :: x in l.transactions && x.payoutId.Some? ==> x.payoutId.value < |l.payouts|
    requires |l.payouts| <= p < |SchedulePayouts(l, payable).payouts|
    ensures var l' := SchedulePayouts(l, payable); var payout := l'.payouts[p];
            && l'.wallets == l.wallets && l'.payouts[..|l.payouts|] == l.payouts
            && payout.ownerId in payable && payout.status.Scheduled? && payout.processedAmount == 0
            && payout.amount == EarningsIn(l'.transactions, p)
            && (exists i :: 0 <= i < |l'.transactions| && l'.transactions[i].payoutId == Some(p))
            && (forall q :: |l.payouts| <= q < |l'.payouts| && q != p ==>
                  !(l'.payouts[q].ownerId == payout.ownerId && l'.payouts[q].tenant == payout.tenant))
  {
    var k := p - |l.payouts|;
    PayoutTakesItsGroup(l, payable, k);
    DraftedRow(l, payable, k);
    NewPayoutsDiffer(l, payable, k, k);
    var i := NewPayoutHasRow(l, payable, k);
    var ps := SchedulePayouts(l, payable).payouts;
    forall q | |l.payouts| <= q < |ps| && q != p
      ensures !(ps[q].ownerId == ps[p].ownerId && ps[q].tenant == ps[p].tenant)
    {
      NewPayoutsDiffer(l, payable, k, q - |l.payouts|);
    }
  }

  // ---------- Holding and releasing a balance ----------

  predicate IsPayoutRow(x: Transaction, p: nat) {
    x.kind.PayoutDebit? && x.payoutId == Some(p)
  }

  predicate HasWallet(l: Ledger, p: nat) {
    p < |l.payouts| && l.payouts[p].ownerId in l.wallets
  }

  /** A hold takes effect exactly if the payout and its owner's wallet are stored and the payout has no row yet. It then adds one
      pending row of the payout's negative amount, and moves that amount from the owner's available to the hold balance. */
  lemma HoldMoves(l: Ledger, p: nat, o: string)
    ensures HoldBalance(l, p) != l <==> HasWallet(l, p) && forall x :: x in l.transactions ==> !IsPayoutRow(x, p)
    ensures var l' := HoldBalance(l, p); var n := |l.transactions|;
            l' != l ==>
              && |l'.transactions| == n + 1 && l'.transactions[..n] == l.transactions && l'.payouts == l.payouts
              && IsPayoutRow(l'.transactions[n], p) && l'.transactions[n].status.Pending?
              && l'.transactions[n].ownerId == l.payouts[p].ownerId && l'.transactions[n].amount == -l.payouts[p].amount
              && var moved := if o == l.payouts[p].ownerId then l.payouts[p].amount else 0;
                 && WalletOf(l', o).availableBalance == WalletOf(l, o).availableBalance - moved
                 && WalletOf(l', o).holdBalance == WalletOf(l, o).holdBalance + moved
  {
    if HoldBalance(l, p) != l {
      assert |HoldBalance(l, p).transactions| == |l.transactions| + 1;
    }
  }

  /** A release takes effect exactly if the owner's wallet is stored and the payout has a pending row. */
  lemma ReleaseMovesIff(l: Ledger, p: nat)
    ensures ReleaseBalance(l, p) != l <==>
              HasWallet(l, p) && exists x :: x in l.transactions && IsPayoutRow(x, p) && x.status.Pending?
  {
    if HasWallet(l, p) && exists x :: x in l.transactions && IsPayoutRow(x, p) && x.status.Pending? {
      var x :| x in l.transactions && IsPayoutRow(x, p) && x.status.Pending?;
      assert IsHoldOf(x, p);
      var i := PendingHold(l.transactions, p).value;
      assert ReleaseBalance(l, p).transactions[i].status.Success?;
    }
  }

  /** It then closes the payout's row, leaves all others as they are, and takes the payout's amount out of the owner's
      hold balance; a second release changes nothing. */
  lemma ReleaseCloses(l: Ledger, p: nat, o: string)
    requires Sound(l) && ReleaseBalance(l, p) != l
    ensures var l' := ReleaseBalance(l, p);
            && l'.payouts == l.payouts && |l'.transactions| == |l.transactions|
            && (forall i :: 0 <= i < |l.transactions| ==>
                  l'.transactions[i] == if IsPayoutRow(l.transactions[i], p) then l.transactions[i].(status := Success) else l.transactions[i])
            && WalletOf(l', o).availableBalance == WalletOf(l, o).availableBalance
            && WalletOf(l', o).holdBalance == WalletOf(l, o).holdBalance - (if o == l.payouts[p].ownerId then l.payouts[p].amount else 0)
            && ReleaseBalance(l', p) == l'
  {
    var l' := ReleaseBalance(l, p);
    var k := PendingHold(l.transactions, p).value;
    forall i | 0 <= i < |l.transactions|
      ensures l'.transactions[i] == if IsPayoutRow(l.transactions[i], p) then l.transactions[i].(status := Success) else l.transactions[i]
    {
      assert IsHoldOf(l.transactions[k], p) && (IsPayoutRow(l.transactions[i], p) <==> IsHoldOf(l.transactions[i], p));
    }
    ReleaseMovesIff(l', p);
  }

  /** A payout that is held and then released leaves its owner with that much less available and the same on hold, and
      can never be held again. */
  lemma HoldThenRelease(l: Ledger, p: nat)
    requires Sound(l) && HoldBalance(l, p) != l
    ensures var o := l.payouts[p].ownerId; var l' := ReleaseBalance(HoldBalance(l, p), p);
            && WalletOf(l', o).availableBalance == WalletOf(l, o).availableBalance - l.payouts[p].amount
            && WalletOf(l', o).holdBalance == WalletOf(l, o).holdBalance
            && HoldBalance(l', p) == l'
  {
    var o, held := l.payouts[p].ownerId, HoldBalance(l, p);
    var n := |l.transactions|;
    HoldMoves(l, p, o);
    HoldBalanceKeepsSound(l, p);
    assert held.transactions[n] in held.transactions;
    ReleaseMovesIff(held, p);
    ReleaseCloses(held, p, o);
    var l' := ReleaseBalance(held, p);
    assert l'.transactions[n] in l'.transactions && IsPayoutRow(l'.transactions[n], p);
    HoldMoves(l', p, o);
  }

  // ---------- A batch ----------

  /** The payout is scheduled, its bank details are complete and it is the tenant's. */
  predicate IsDue(payouts: seq<Payout>, complete: set<nat>, tenant: Tenant, p: nat) {
    p < |payouts| && payouts[p].status.Scheduled? && p in complete && payouts[p].tenant == tenant
  }

  predicate HasDueLine(t: Tables, complete: set<nat>, tenant: Tenant) {
    exists l :: l in t.lines && l.payoutId.Some? && IsDue(t.ledger.payouts, complete, tenant, l.payoutId.value)
  }

  function DueTerm(payouts: seq<Payout>, complete: set<nat>, tenant: Tenant): nat -> int {
    (p: nat) => if IsDue(payouts, complete, tenant, p) then payouts[p].amount else 0
  }

  /** The positions of the first `n` payouts. */
  function Positions(n: nat): seq<nat> {
    seq(n, (i: nat) => i)
  }

  lemma {:induction false} FilterIncreases(n: nat, p: nat -> bool)
    ensures forall i :: 0 <= i < |Filter<nat>(Positions(n), p)| ==> Filter<nat>(Positions(n), p)[i] < n
    ensures forall i, j :: 0 <= i < j < |Filter<nat>(Positions(n), p)| ==> Filter<nat>(Positions(n), p)[i] < Filter<nat>(Positions(n), p)[j]
  {
    if n > 0 {
      FilterIncreases(n - 1, p);
      assert Positions(n)[..n - 1] == Positions(n - 1);
    }
  }

  lemma DuePayouts(t: Tables, complete: set<nat>, tenant: Tenant)
    requires Tracked(t)
    ensures var ps := BatchPayouts(t.ledger.payouts, complete, tenant);
            && (forall p: nat :: p in ps <==> IsDue(t.ledger.payouts, complete, tenant, p))
            && (forall i, j :: 0 <= i < j < |ps| ==> ps[i] < ps[j])
    ensures BatchLines(t, complete, tenant) != [] <==> HasDueLine(t, complete, tenant)
    ensures HasDueLine(t, complete, tenant) ==> BatchPayouts(t.ledger.payouts, complete, tenant) != []
  {
    BatchMembers(t, complete, tenant);
    var payouts := t.ledger.payouts;
    FilterIncreases(|payouts|, (p: nat) => InBatch(payouts, complete, tenant, p));
    assert Positions(|payouts|) == seq<nat>(|payouts|, (i: nat) => i);
    var ls := BatchLines(t, complete, tenant);
    if ls != [] {
      assert ls[0] in ls && LineLinked(payouts, ls[0]);
    }
    if HasDueLine(t, complete, tenant) {
      var l :| l in t.lines && l.payoutId.Some? && IsDue(payouts, complete, tenant, l.payoutId.value);
      assert LineLinked(payouts, l) && l in ls;
      assert l.payoutId.value in BatchPayouts(payouts, complete, tenant);
    }
  }

  /** A batch is recorded exactly if some stored line belongs to a due payout of the tenant; otherwise nothing changes, and the
      step fails exactly if more than one payout is due. */
  lemma BatchRecordedIff(t: Tables, complete: set<nat>, tenant: Tenant, uploaded: bool)
    requires Tracked(t)
    ensures var step := CreateBatch(t, complete, tenant, uploaded);
            && (|step.tables.batches| == |t.batches| + 1 <==> HasDueLine(t, complete, tenant))
            && (!HasDueLine(t, complete, tenant) ==> step.tables == t)
            && (step.failure.Some? <==>
                  && !HasDueLine(t, complete, tenant)
                  && exists p: nat, q: nat :: p < q && IsDue(t.ledger.payouts, complete, tenant, p) && IsDue(t.ledger.payouts, complete, tenant, q))
  {
    DuePayouts(t, complete, tenant);
    var ps := BatchPayouts(t.ledger.payouts, complete, tenant);
    if |ps| > 1 {
      assert ps[0] in ps && ps[1] in ps && ps[0] < ps[1];
    } else {
      forall p, q | p in ps && q in ps
        ensures p == q
      {}
    }
  }

  lemma DueTotal(payouts: seq<Payout>, complete: set<nat>, tenant: Tenant)
    ensures Sum(BatchPayouts(payouts, complete, tenant), p => AmountOf(payouts, p))
         == Sum(Positions(|payouts|), DueTerm(payouts, complete, tenant))
  {
    SumFilter(Positions(|payouts|), (p: nat) => InBatch(payouts, complete, tenant, p), p => AmountOf(payouts, p),
              DueTerm(payouts, complete, tenant));
  }

  /** The record names exactly the due payouts of the tenant, each once, their sum and their number, and says whether the
      files were uploaded. */
  lemma BatchRecordsDue(t: Tables, complete: set<nat>, tenant: Tenant, uploaded: bool)
    requires Tracked(t) && HasDueLine(t, complete, tenant)
    ensures var t' := CreateBatch(t, complete, tenant, uploaded).tables; var n := |t.batches|;
            && |t'.batches| == n + 1 && t'.batches[..n] == t.batches
            && var b := t'.batches[n];
               && b.tenant == tenant && b.totalRecords == |b.payoutIds|
               && (forall p: nat :: p in b.payoutIds <==> IsDue(t.ledger.payouts, complete, tenant, p))
               && (forall i, j :: 0 <= i < j < |b.payoutIds| ==> b.payoutIds[i] != b.payoutIds[j])
               && b.totalAmount == Sum(Positions(|t.ledger.payouts|), DueTerm(t.ledger.payouts, complete, tenant))
               && (b.status.BatchInTransit? <==> uploaded)
  {
    DuePayouts(t, complete, tenant);
    BatchNeverStops(t, complete, tenant);
    DueTotal(t.ledger.payouts, complete, tenant);
  }

  /** An uploaded batch puts in transit exactly the due payouts of the tenant and their lines; no other row changes. */
  lemma BatchSendsDue(t: Tables, complete: set<nat>, tenant: Tenant, uploaded: bool)
    requires Tracked(t)
    ensures var t' := CreateBatch(t, complete, tenant, uploaded).tables; var sends := uploaded && HasDueLine(t, complete, tenant);
            && t'.ledger.transactions == t.ledger.transactions && t'.ledger.wallets == t.ledger.wallets && t'.paidEvents == t.paidEvents
            && |t'.ledger.payouts| == |t.ledger.payouts| && |t'.lines| == |t.lines|
            && (forall p: nat :: p < |t.ledger.payouts| ==>
                  t'.ledger.payouts[p] == if sends && IsDue(t.ledger.payouts, complete, tenant, p)
                                          then t.ledger.payouts[p].(status := InTransit) else t.ledger.payouts[p])
            && (forall i :: 0 <= i < |t.lines| ==>
                  t'.lines[i] == if sends && t.lines[i].payoutId.Some? && IsDue(t.ledger.payouts, complete, tenant, t.lines[i].payoutId.value)
                                 then t.lines[i].(status := InTransit) else t.lines[i])
  {
    DuePayouts(t, complete, tenant);
    BatchNeverStops(t, complete, tenant);
    forall i | 0 <= i < |t.lines|
      ensures LineLinked(t.ledger.payouts, t.lines[i])
    {
      assert t.lines[i] in t.lines;
    }
  }

  // ---------- A paid-status input ----------

  predicate IsPairLine(l: Line, requestId: string, vendorId: string) {
    l.requestId == requestId && l.vendorId == Some(vendorId)
  }

  /** All lines of the (request, vendor) pair are in transit, and there is one. */
  predicate IsPayable(lines: seq<Line>, requestId: string, vendorId: string) {
    && (exists l :: l in lines && IsPairLine(l, requestId, vendorId))
    && (forall l :: l in lines && IsPairLine(l, requestId, vendorId) ==> l.status.InTransit?)
  }

  /** An input is accepted exactly if its pair has a line and all lines of the pair are in transit. */
  lemma PaymentAcceptedIff(t: Tables, input: PaidInput)
    requires Tracked(t)
    ensures MarkPaid(t, input).failure.None? <==> IsPayable(t.lines, input.requestId, input.vendorId)
    ensures MarkPaid(t, input).failure == Some(LinesNotFound) <==> forall l :: l in t.lines ==> !IsPairLine(l, input.requestId, input.vendorId)
  {
    NamedLines(t, input);
    forall l
      ensures IsPairLine(l, input.requestId, input.vendorId) <==> IsNamed(l, input)
    {}
    var named := Named(t.lines, input);
    if named != [] {
      assert LineLinked(t.ledger.payouts, named[0]);
    }
  }

  /** What an accepted input makes of a line: each line of its pair is paid, under the document and date of the input, and
      no other changes. */
  lemma PaymentPaysPair(t: Tables, input: PaidInput, i: nat)
    requires Tracked(t) && MarkPaid(t, input).failure.None? && i < |t.lines|
    ensures var lines' := MarkPaid(t, input).tables.lines;
            && |lines'| == |t.lines|
            && lines'[i] == if IsPairLine(t.lines[i], input.requestId, input.vendorId)
                            then t.lines[i].(status := Paid, sapDocumentPaymentNo := Some(input.sapDocumentPaymentNo), paymentDate := Some(input.paymentDate))
                            else t.lines[i]
  {}

  function PairTerm(requestId: string, vendorId: string): Line -> int {
    (l: Line) => if IsPairLine(l, requestId, vendorId) then l.amount else 0
  }

  lemma NamedTotal(lines: seq<Line>, input: PaidInput)
    ensures LinesTotal(Named(lines, input)) == Sum(lines, PairTerm(input.requestId, input.vendorId))
  {
    SumFilter(lines, (l: Line) => IsNamed(l, input), (l: Line) => l.amount, PairTerm(input.requestId, input.vendorId));
  }

  /** What an accepted input makes of the payouts: the one its pair belongs to has processed that much more, and is paid if that is its
      amount; nothing else changes. */
  lemma PaymentProcessesPair(t: Tables, input: PaidInput, p: nat)
    requires Tracked(t) && MarkPaid(t, input).failure.None?
    requires exists l :: l in t.lines && IsPairLine(l, input.requestId, input.vendorId) && l.payoutId == Some(p)
    ensures p < |t.ledger.payouts| && forall l :: l in t.lines && IsPairLine(l, input.requestId, input.vendorId) ==> l.payoutId == Some(p)
    ensures var t' := MarkPaid(t, input).tables; var payout := t.ledger.payouts[p];
            var processed := payout.processedAmount + Sum(t.lines, PairTerm(input.requestId, input.vendorId));
            && t'.ledger.transactions == t.ledger.transactions && t'.ledger.wallets == t.ledger.wallets && t'.batches == t.batches
            && |t'.ledger.payouts| == |t.ledger.payouts|
            && (forall q :: 0 <= q < |t.ledger.payouts| && q != p ==> t'.ledger.payouts[q] == t.ledger.payouts[q])
            && t'.ledger.payouts[p] == payout.(processedAmount := processed, status := if processed == payout.amount then Paid else payout.status)
            && t'.paidEvents == if processed == payout.amount then t.paidEvents + [p] else t.paidEvents
  {
    var q := PaidTables(t, input);
    assert p == q;
    NamedTotal(t.lines, input);
  }

  // ---------- A status file ----------

  /** Whether the pair of input `k` is that of an earlier one. */
  predicate IsRepeated(inputs: seq<PaidInput>, k: nat)
    requires k < |inputs|
  {
    exists j :: 0 <= j < k && inputs[j].requestId == inputs[k].requestId && inputs[j].vendorId == inputs[k].vendorId
  }

  predicate IsInputOf(inputs: seq<PaidInput>, l: Line) {
    exists j :: 0 <= j < |inputs| && IsPairLine(l, inputs[j].requestId, inputs[j].vendorId)
  }

  lemma {:induction false} BulkLines(t: Tables, inputs: seq<PaidInput>)
    requires Tracked(t) && MarkPaidInBulk(t, inputs).failure.None?
    ensures var t' := MarkPaidInBulk(t, inputs).tables;
            && Tracked(t') && |t'.lines| == |t.lines|
            && (forall i :: 0 <= i < |t.lines| ==>
                  && t'.lines[i].requestId == t.lines[i].requestId && t'.lines[i].vendorId == t.lines[i].vendorId
                  && if IsInputOf(inputs, t.lines[i]) then t'.lines[i].status.Paid? else t'.lines[i] == t.lines[i])
  {
    if inputs != [] {
      var front, last := inputs[..|inputs| - 1], inputs[|inputs| - 1];
      BulkLines(t, front);
      var t1 := MarkPaidInBulk(t, front).tables;
      MarkPaidKeepsTracked(t1, last);
      forall i | 0 <= i < |t.lines|
        ensures IsInputOf(inputs, t.lines[i]) <==> IsInputOf(front, t.lines[i]) || IsPairLine(t.lines[i], last.requestId, last.vendorId)
      {
        InputsSnoc(front, last, t.lines[i]);
        assert inputs == front + [last];
      }
      forall i | 0 <= i < |t.lines|
        ensures var x := MarkPaid(t1, last).tables.lines[i];
                && x.requestId == t.lines[i].requestId && x.vendorId == t.lines[i].vendorId
                && if IsInputOf(inputs, t.lines[i]) then x.status.Paid? else x == t.lines[i]
      {
        PaymentPaysPair(t1, last, i);
      }
    }
  }

  lemma InputsSnoc(inputs: seq<PaidInput>, input: PaidInput, l: Line)
    ensures IsInputOf(inputs + [input], l) <==> IsInputOf(inputs, l) || IsPairLine(l, input.requestId, input.vendorId)
  {
    var all := inputs + [input];
    assert all[|inputs|] == input;
    if IsInputOf(inputs, l) {
      var j :| 0 <= j < |inputs| && IsPairLine(l, inputs[j].requestId, inputs[j].vendorId);
      assert all[j] == inputs[j];
    }
  }

  /** Once the inputs before it are accepted, the next one is accepted exactly if its pair was payable at the start and is named by none of
      them. */
  lemma NextInputAcceptedIff(t: Tables, inputs: seq<PaidInput>, k: nat)
    requires Tracked(t) && k < |inputs| && MarkPaidInBulk(t, inputs[..k]).failure.None?
    ensures MarkPaid(MarkPaidInBulk(t, inputs[..k]).tables, inputs[k]).failure.None?
       <==> IsPayable(t.lines, inputs[k].requestId, inputs[k].vendorId) && !IsRepeated(inputs, k)
  {
    var t1, r, v := MarkPaidInBulk(t, inputs[..k]).tables, inputs[k].requestId, inputs[k].vendorId;
    BulkLines(t, inputs[..k]);
    PaymentAcceptedIff(t1, inputs[k]);
    assert IsPayable(t1.lines, r, v) <==> IsPayable(t.lines, r, v) && !IsRepeated(inputs, k) by {
      forall i | 0 <= i < |t.lines| && IsPairLine(t.lines[i], r, v)
        ensures IsInputOf(inputs[..k], t.lines[i]) <==> IsRepeated(inputs, k)
      {
        RepeatedInput(inputs, k, t.lines[i]);
      }
      SamePairs(t.lines, t1.lines, r, v, IsRepeated(inputs, k));
    }
  }

  lemma RepeatedInput(inputs: seq<PaidInput>, k: nat, l: Line)
    requires k < |inputs| && IsPairLine(l, inputs[k].requestId, inputs[k].vendorId)
    ensures IsInputOf(inputs[..k], l) <==> IsRepeated(inputs, k)
  {
    if IsInputOf(inputs[..k], l) {
      var j :| 0 <= j < k && IsPairLine(l, inputs[..k][j].requestId, inputs[..k][j].vendorId);
      assert inputs[..k][j] == inputs[j];
    }
    if IsRepeated(inputs, k) {
      var j :| 0 <= j < k && inputs[j].requestId == inputs[k].requestId && inputs[j].vendorId == inputs[k].vendorId;
      assert inputs[..k][j] == inputs[j];
    }
  }

  /** The lines of a pair after inputs that have paid all of them or left all as they were. */
  lemma SamePairs(lines: seq<Line>, lines': seq<Line>, requestId: string, vendorId: string, paid: bool)
    requires |lines'| == |lines|
    requires forall i :: 0 <= i < |lines| ==> lines'[i].requestId == lines[i].requestId && lines'[i].vendorId == lines[i].vendorId
    requires forall i :: 0 <= i < |lines| && IsPairLine(lines[i], requestId, vendorId) ==>
               if paid then lines'[i].status.Paid? else lines'[i] == lines[i]
    ensures IsPayable(lines', requestId, vendorId) <==> IsPayable(lines, requestId, vendorId) && !paid
  {
    if l :| l in lines && IsPairLine(l, requestId, vendorId) {
      var i :| 0 <= i < |lines| && lines[i] == l;
      assert lines'[i] in lines' && IsPairLine(lines'[i], requestId, vendorId);
    }
    if l' :| l' in lines' && IsPairLine(l', requestId, vendorId) {
      var i :| 0 <= i < |lines| && lines'[i] == l';
      assert lines[i] in lines && IsPairLine(lines[i], requestId, vendorId);
    }
    if !paid {
      forall l | IsPairLine(l, requestId, vendorId)
        ensures l in lines <==> l in lines'
      {
        if l in lines {
          var i :| 0 <= i < |lines| && lines[i] == l;
          assert lines'[i] == l;
        }
        if l in lines' {
          var i :| 0 <= i < |lines| && lines'[i] == l;
          assert lines[i] == l;
        }
      }
    }
  }

  predicate IsBulkPayable(lines: seq<Line>, inputs: seq<PaidInput>, k: nat)
    requires k < |inputs|
  {
    IsPayable(lines, inputs[k].requestId, inputs[k].vendorId) && !IsRepeated(inputs, k)
  }

  lemma AllButLastPayable(lines: seq<Line>, inputs: seq<PaidInput>)
    requires inputs != []
    ensures var n := |inputs| - 1;
            (forall k :: 0 <= k <= n ==> IsBulkPayable(lines, inputs, k))
            <==> (forall k :: 0 <= k < n ==> IsBulkPayable(lines, inputs[..n], k)) && IsBulkPayable(lines, inputs, n)
  {
    var n := |inputs| - 1;
    var front := inputs[..n];
    forall k | 0 <= k < n
      ensures IsBulkPayable(lines, front, k) <==> IsBulkPayable(lines, inputs, k)
    {
      assert front[k] == inputs[k] && forall j :: 0 <= j < k ==> front[j] == inputs[j];
    }
  }

  /** A status file is accepted as a whole exactly if every pair it names was payable before it and is named once. */
  lemma {:induction false} BulkAcceptedIff(t: Tables, inputs: seq<PaidInput>)
    requires Tracked(t)
    ensures MarkPaidInBulk(t, inputs).failure.None? <==> forall k :: 0 <= k < |inputs| ==> IsBulkPayable(t.lines, inputs, k)
  {
    if inputs != [] {
      var n := |inputs| - 1;
      BulkAcceptedIff(t, inputs[..n]);
      AllButLastPayable(t.lines, inputs);
      if MarkPaidInBulk(t, inputs[..n]).failure.None? {
        NextInputAcceptedIff(t, inputs, n);
      }
    }
  }

  /** An accepted status file has paid exactly the lines of the pairs it names. */
  lemma BulkPaysPairs(t: Tables, inputs: seq<PaidInput>, i: nat)
    requires Tracked(t) && MarkPaidInBulk(t, inputs).failure.None? && i < |t.lines|
    ensures var lines' := MarkPaidInBulk(t, inputs).tables.lines;
            && |lines'| == |t.lines|
            && (IsInputOf(inputs, t.lines[i]) ==> t.lines[i].status.InTransit? && lines'[i].status.Paid?)
            && (!IsInputOf(inputs, t.lines[i]) ==> lines'[i] == t.lines[i])
  {
    BulkLines(t, inputs);
    BulkAcceptedIff(t, inputs);
    if IsInputOf(inputs, t.lines[i]) {
      var j :| 0 <= j < |inputs| && IsPairLine(t.lines[i], inputs[j].requestId, inputs[j].vendorId);
      assert IsBulkPayable(t.lines, inputs, j) && t.lines[i] in t.lines;
    }
  }
}
