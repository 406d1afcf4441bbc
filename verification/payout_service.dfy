/** The command handlers and the payout service, working on the stored tables in place. */
module PayoutServices {
  import opened Wrappers
  import opened Sums
  import opened PayoutFactory
  import opened WalletLedger
  import opened PayoutLines
  import opened Settlement
  import opened Payments
  import opened SettlementRuns

  /** A line object between its load and its save. */
  class PayoutLine {
    var row: Line

    constructor (row: Line)
      ensures this.row == row
    {
      this.row := row;
    }

    /** Returns whether the line was scheduled; otherwise nothing changes. */
    method PayoutBatchInTransit() returns (ok: bool)
      modifies this
      ensures ok <==> old(row).status.Scheduled?
      ensures row == if ok then old(row).(status := InTransit) else old(row)
    {
      if !row.status.Scheduled? {
        return false;
      }
      row := row.(status := InTransit);
      return true;
    }

    /** Returns whether the line was in transit; otherwise nothing changes. */
    method MarkAsPaid(sapDocumentPaymentNo: string, paymentDate: string) returns (ok: bool)
      modifies this
      ensures ok <==> old(row).status.InTransit?
      ensures row == if ok
                     then old(row).(status := Paid, sapDocumentPaymentNo := Some(sapDocumentPaymentNo), paymentDate := Some(paymentDate))
                     else old(row)
    {
      if !row.status.InTransit? {
        return false;
      }
      row := row.(sapDocumentPaymentNo := Some(sapDocumentPaymentNo), paymentDate := Some(paymentDate));
      row := row.(status := Paid);
      return true;
    }
  }

  /** The inputs of a status file, up to the first one that fails. */
  function MarkPaidInBulk(t: Tables, inputs: seq<PaidInput>): Step {
    if inputs == [] then Step(t, None)
    else
      var earlier := MarkPaidInBulk(t, inputs[..|inputs| - 1]);
      if earlier.failure.Some? then earlier else MarkPaid(earlier.tables, inputs[|inputs| - 1])
  }

  lemma {:induction false} BulkStops(t: Tables, inputs: seq<PaidInput>, k: nat)
    requires k <= |inputs| && MarkPaidInBulk(t, inputs[..k]).failure.Some?
    ensures MarkPaidInBulk(t, inputs) == MarkPaidInBulk(t, inputs[..k])
  {
    if k == |inputs| {
      assert inputs[..k] == inputs;
    } else {
      assert inputs[..|inputs| - 1][..k] == inputs[..k];
      BulkStops(t, inputs[..|inputs| - 1], k);
    }
  }

  /** Balances and payouts agree with the transactions, and payouts with the lines. */
  ghost predicate InOrder(t: Tables) {
    Sound(t.ledger) && Tracked(t)
  }

  lemma ApplyKeepsOrder(t: Tables, c: Command)
    requires InOrder(t) && (c.SchedulePayoutRun? ==> ScheduleGuard(t, c.payable, c.requests))
    ensures InOrder(Apply(t, c))
  {
    ApplyKeepsSound(t, c);
    ApplyKeepsTracked(t, c);
  }

  lemma BatchKeepsOrder(t: Tables, complete: set<nat>, tenant: Tenant, uploaded: bool)
    ensures InOrder(t) ==> InOrder(CreateBatch(t, complete, tenant, uploaded).tables)
  {
    if InOrder(t) {
      ApplyKeepsOrder(t, UploadFiles(complete, tenant, uploaded));
    }
  }

  lemma PaymentKeepsOrder(t: Tables, input: PaidInput)
    ensures InOrder(t) ==> InOrder(MarkPaid(t, input).tables)
    ensures InOrder(t) && MarkPaid(t, input).failure.Some? ==> MarkPaid(t, input).tables == t
  {
    if InOrder(t) {
      ApplyKeepsOrder(t, StatusReceived(input));
      FailedInputChangesNothing(t, input);
    }
  }

  lemma RunKeepsSound(l: Ledger, payable: map<string, Provider>)
    ensures Sound(l) ==> Sound(SchedulePayouts(l, payable))
  {
    if Sound(l) {
      SchedulePayoutsKeepsSound(l, payable);
    }
  }

  lemma GuardedRunKeepsOrder(t: Tables, payable: map<string, Provider>, requests: map<string, RequestInfo>)
    ensures InOrder(t) && ScheduleGuard(t, payable, requests) ==>
              InOrder(Schedule(t, payable, requests).tables) && Schedule(t, payable, requests).failure.None?
  {
    if InOrder(t) && ScheduleGuard(t, payable, requests) {
      ApplyKeepsOrder(t, SchedulePayoutRun(payable, requests));
      GuardedRunStores(t, payable, requests);
    }
  }

  lemma IncomeKeepsOrder(t: Tables, requestId: string, ownerId: string, tenant: Tenant, amount: int)
    ensures amount >= 0 && InOrder(t) ==> InOrder(CreateIncome(t, requestId, ownerId, tenant, amount))
  {
    if amount >= 0 && InOrder(t) {
      ApplyKeepsOrder(t, IncomeEarned(requestId, ownerId, tenant, amount));
    }
  }

  lemma CompensationKeepsOrder(t: Tables, requestId: string, ownerId: string, tenant: Tenant, amount: int, due: bool)
    ensures amount >= 0 && InOrder(t) ==> InOrder(CreateCompensation(t, requestId, ownerId, tenant, amount, due))
  {
    if amount >= 0 && InOrder(t) {
      ApplyKeepsOrder(t, CompensationEarned(requestId, ownerId, tenant, amount, due));
    }
  }

  lemma HoldKeepsOrder(t: Tables, p: nat)
    ensures InOrder(t) ==> InOrder(t.(ledger := HoldBalance(t.ledger, p)))
  {
    if InOrder(t) {
      ApplyKeepsOrder(t, HoldForPayout(p));
    }
  }

  lemma ReleaseKeepsOrder(t: Tables, p: nat)
    ensures InOrder(t) ==> InOrder(t.(ledger := ReleaseBalance(t.ledger, p)))
  {
    if InOrder(t) {
      ApplyKeepsOrder(t, ReleaseForPayout(p));
    }
  }

  /** Puts the batch's lines in transit, one line object at a time, unless one of them is in a wrong state. */
  method SendLines(lines: seq<Line>, payouts: seq<Payout>, complete: set<nat>, tenant: Tenant) returns (sent: seq<Line>, ok: bool)
    ensures ok <==> forall l :: l in lines && LineInBatch(payouts, complete, tenant, l) ==> l.status.Scheduled?
    ensures ok ==> sent == Map(lines, l => LineInTransit(payouts, complete, tenant, l))
  {
    sent := [];
    for i := 0 to |lines|
      invariant sent == Map(lines[..i], l => LineInTransit(payouts, complete, tenant, l))
      invariant forall l :: l in lines[..i] && LineInBatch(payouts, complete, tenant, l) ==> l.status.Scheduled?
    {
      var line := new PayoutLine(lines[i]);
      if LineInBatch(payouts, complete, tenant, lines[i]) {
        ok := line.PayoutBatchInTransit();
        if !ok {
          assert lines[i] in lines;
          return;
        }
      }
      sent := sent + [line.row];
      assert lines[..i + 1] == lines[..i] + [lines[i]];
    }
    assert lines[..|lines|] == lines;
    ok := true;
  }

  /** Marks the named lines as paid, one line object at a time, unless one of them is in a wrong state. */
  method PayLines(lines: seq<Line>, input: PaidInput) returns (paid: seq<Line>, ok: bool)
    ensures ok <==> forall l :: l in lines && IsNamed(l, input) ==> l.status.InTransit?
    ensures ok ==> paid == Map(lines, l => PayLine(l, input))
  {
    paid := [];
    for i := 0 to |lines|
      invariant paid == Map(lines[..i], l => PayLine(l, input))
      invariant forall l :: l in lines[..i] && IsNamed(l, input) ==> l.status.InTransit?
    {
      var line := new PayoutLine(lines[i]);
      if IsNamed(lines[i], input) {
        ok := line.MarkAsPaid(input.sapDocumentPaymentNo, input.paymentDate);
        if !ok {
          assert lines[i] in lines;
          return;
        }
      }
      paid := paid + [line.row];
      assert lines[..i + 1] == lines[..i] + [lines[i]];
    }
    assert lines[..|lines|] == lines;
    ok := true;
  }

  method BatchTotal(ids: seq<nat>, payouts: seq<Payout>) returns (total: int)
    ensures total == Sum(ids, p => AmountOf(payouts, p))
  {
    total := 0;
    for k := 0 to |ids|
      invariant total == Sum(ids[..k], p => AmountOf(payouts, p))
    {
      assert ids[..k + 1][..k] == ids[..k];
      total := total + AmountOf(payouts, ids[k]);
    }
    assert ids[..|ids|] == ids;
  }

  class PayoutService {
    var wallets: map<string, WalletRow>
    var transactions: seq<Transaction>
    var payouts: seq<Payout>
    var lines: seq<Line>
    var batches: seq<Batch>
    var paidEvents: seq<nat>

    function Rows(): Ledger
      reads this
    {
      Ledger(wallets, transactions, payouts)
    }

    function Db(): Tables
      reads this
    {
      Tables(Rows(), lines, batches, paidEvents)
    }

    constructor ()
      ensures Db() == EMPTY
    {
      wallets, transactions, payouts := map[], [], [];
      lines, batches, paidEvents := [], [], [];
    }

    /** Loads the owner's wallet, or starts an empty one. */
    method LoadWallet(ownerId: string) returns (wallet: Wallet)
      ensures fresh(wallet) && wallet.Row() == WalletOf(Rows(), ownerId)
    {
      if ownerId in wallets {
        wallet := new Wallet(wallets[ownerId]);
      } else {
        wallet := new Wallet(WalletRow(0, 0));
      }
    }

    method CreateIncomeTransaction(requestId: string, ownerId: string, tenant: Tenant, earning: int)
      modifies this
      ensures Db() == CreateIncome(old(Db()), requestId, ownerId, tenant, earning)
      ensures earning >= 0 && InOrder(old(Db())) ==> InOrder(Db())
    {
      IncomeKeepsOrder(Db(), requestId, ownerId, tenant, earning);
      var wallet := LoadWallet(ownerId);
      wallet.Debit(earning);
      transactions := transactions + [Transaction(|transactions|, ownerId, tenant, Income, Success, earning, Some(requestId), None)];
      wallets := wallets[ownerId := wallet.Row()];
    }

    method CreateCompensationTransaction(requestId: string, ownerId: string, tenant: Tenant, amount: int, due: bool)
      modifies this
      ensures Db() == CreateCompensation(old(Db()), requestId, ownerId, tenant, amount, due)
      ensures amount >= 0 && InOrder(old(Db())) ==> InOrder(Db())
    {
      CompensationKeepsOrder(Db(), requestId, ownerId, tenant, amount, due);
      if !due || HasCompensation(Rows(), requestId, ownerId) {
        return;
      }
      var wallet := LoadWallet(ownerId);
      wallet.Debit(amount);
      transactions := transactions
        + [Transaction(|transactions|, ownerId, tenant, RescheduleSurchargeCompensation, Success, amount, Some(requestId), None)];
      wallets := wallets[ownerId := wallet.Row()];
    }

    /** Stores the payouts of the debitable transactions, and returns these as they were then linked. */
    method StorePayouts(payable: map<string, Provider>) returns (linked: seq<Transaction>)
      modifies this`payouts, this`transactions
      ensures Rows() == SchedulePayouts(old(Rows()), payable)
      ensures linked == LinkedBy(old(Rows()), payable)
    {
      var debitable := Debitable(transactions);
      var drafts := PayoutFactory.Create(debitable, payable);
      var base := |payouts|;
      payouts := payouts + Map(drafts, (d: Draft) => Payout(d.ownerId, d.tenant, d.amount, 0, Scheduled));
      transactions := Map(transactions, t => Link(t, drafts, base));
      linked := Map(debitable, t => Link(t, drafts, base));
    }

    method SchedulePayoutsFromWalletTransactions(payable: map<string, Provider>, requests: map<string, RequestInfo>)
      returns (failure: Option<Failure>)
      modifies this
      ensures Step(Db(), failure) == Schedule(old(Db()), payable, requests)
      ensures Sound(old(Rows())) ==> Sound(Rows())
      ensures InOrder(old(Db())) && old(ScheduleGuard(Db(), payable, requests)) ==> InOrder(Db()) && failure.None?
    {
      RunKeepsSound(Rows(), payable);
      GuardedRunKeepsOrder(Db(), payable, requests);
      var linked := StorePayouts(payable);
      var made := PayoutLines.Create(linked, requests, payable);
      if made.Err? || exists l :: l in made.value && l.payoutId.None? {
        return Some(LineGeneration);
      }
      lines := lines + made.value;
      return None;
    }

    method HoldBalanceForPayout(payoutId: nat)
      modifies this
      ensures Db() == old(Db()).(ledger := HoldBalance(old(Rows()), payoutId))
      ensures InOrder(old(Db())) ==> InOrder(Db())
    {
      HoldKeepsOrder(Db(), payoutId);
      if payoutId >= |payouts| || IsHeld(transactions, payoutId) || payouts[payoutId].ownerId !in wallets {
        return;
      }
      var payout := payouts[payoutId];
      var wallet := LoadWallet(payout.ownerId);
      wallet.HoldBalanceForPayout(payout.amount);
      transactions := transactions
        + [Transaction(|transactions|, payout.ownerId, payout.tenant, PayoutDebit, Pending, -payout.amount, None, Some(payoutId))];
      wallets := wallets[payout.ownerId := wallet.Row()];
    }

    method ReleaseBalanceForPayout(payoutId: nat)
      modifies this
      ensures Db() == old(Db()).(ledger := ReleaseBalance(old(Rows()), payoutId))
      ensures InOrder(old(Db())) ==> InOrder(Db())
    {
      ReleaseKeepsOrder(Db(), payoutId);
      if payoutId >= |payouts| || payouts[payoutId].ownerId !in wallets {
        return;
      }
      var pending := PendingHold(transactions, payoutId);
      if pending.None? {
        return;
      }
      var wallet := LoadWallet(payouts[payoutId].ownerId);
      wallet.ReleaseBalanceForPayout(payouts[payoutId].amount);
      transactions := transactions[pending.value := transactions[pending.value].(status := Success)];
      wallets := wallets[payouts[payoutId].ownerId := wallet.Row()];
    }

    method CreatePayoutBatch(complete: set<nat>, tenant: Tenant, uploaded: bool) returns (failure: Option<Failure>)
      modifies this
      ensures Step(Db(), failure) == CreateBatch(old(Db()), complete, tenant, uploaded)
      ensures InOrder(old(Db())) ==> InOrder(Db())
    {
      BatchKeepsOrder(Db(), complete, tenant, uploaded);
      var batchPayouts := BatchPayouts(payouts, complete, tenant);
      var batchLines := BatchLines(Db(), complete, tenant);
      if |batchPayouts| > 1 && batchLines == [] {
        return Some(EmptyPayoutLines);
      }
      if batchPayouts == [] || batchLines == [] {
        return None;
      }
      var stored := payouts;
      var total := BatchTotal(batchPayouts, stored);
      if !uploaded {
        batches := batches + [Batch(tenant, batchPayouts, total, |batchPayouts|, BatchFailed)];
        return None;
      }
      payouts := PayoutsInTransit(payouts, complete, tenant);
      var sent, ok := SendLines(lines, stored, complete, tenant);
      FilterMembers(lines, (l: Line) => LineInBatch(stored, complete, tenant, l));
      if !ok {
        batches := batches + [Batch(tenant, batchPayouts, total, |batchPayouts|, BatchFailed)];
        return None;
      }
      lines := sent;
      batches := batches + [Batch(tenant, batchPayouts, total, |batchPayouts|, BatchInTransit)];
      return None;
    }

    method MarkPayoutLinesAsPaid(input: PaidInput) returns (failure: Option<Failure>)
      modifies this
      ensures Step(Db(), failure) == MarkPaid(old(Db()), input)
      ensures InOrder(old(Db())) ==> InOrder(Db())
      ensures InOrder(old(Db())) && failure.Some? ==> Db() == old(Db())
    {
      PaymentKeepsOrder(Db(), input);
      var named := Named(lines, input);
      if named == [] {
        return Some(LinesNotFound);
      }
      FilterMembers(lines, (l: Line) => IsNamed(l, input));
      var paid, ok := PayLines(lines, input);
      if !ok {
        return Some(LineNotInTransit);
      }
      lines := paid;
      if named[0].payoutId.None? || named[0].payoutId.value >= |payouts| {
        return Some(PayoutNotFound);
      }
      var p := named[0].payoutId.value;
      var sum := TotalAmount(named);
      payouts := payouts[p := payouts[p].(processedAmount := payouts[p].processedAmount + sum)];
      if payouts[p].processedAmount != payouts[p].amount {
        return None;
      }
      payouts := payouts[p := payouts[p].(status := Paid)];
      paidEvents := paidEvents + [p];
      return None;
    }

    method MarkPayoutLinesAsPaidInBulk(inputs: seq<PaidInput>) returns (failure: Option<Failure>)
      modifies this
      ensures Step(Db(), failure) == MarkPaidInBulk(old(Db()), inputs)
      ensures InOrder(old(Db())) ==> InOrder(Db())
    {
      ghost var before := Db();
      for k := 0 to |inputs|
        invariant MarkPaidInBulk(before, inputs[..k]) == Step(Db(), None)
        invariant InOrder(before) ==> InOrder(Db())
      {
        assert inputs[..k + 1][..k] == inputs[..k];
        failure := MarkPayoutLinesAsPaid(inputs[k]);
        if failure.Some? {
          BulkStops(before, inputs, k + 1);
          return;
        }
      }
      assert inputs[..|inputs|] == inputs;
      return None;
    }
  }

  method TotalAmount(named: seq<Line>) returns (sum: int)
    ensures sum == LinesTotal(named)
  {
    sum := 0;
    for k := 0 to |named|
      invariant sum == LinesTotal(named[..k])
    {
      assert named[..k + 1][..k] == named[..k];
      sum := sum + named[k].amount;
    }
    assert named[..|named|] == named;
  }
}
