/** The settlement tables and the steps that change them, with the invariant every run keeps. */
module Settlement {
  import opened Wrappers
  import opened Sums
  import opened PayoutFactory
  import opened WalletLedger
  import opened PayoutLines

  datatype BatchStatus = BatchFailed | BatchInTransit

  datatype Batch = Batch(tenant: Tenant, payoutIds: seq<nat>, totalAmount: int, totalRecords: nat, status: BatchStatus)

  /** `paidEvents` lists the payouts for which the paid event was published, in order. */
  datatype Tables = Tables(ledger: Ledger, lines: seq<Line>, batches: seq<Batch>, paidEvents: seq<nat>)

  datatype PaidInput = PaidInput(requestId: string, vendorId: string, sapDocumentPaymentNo: string, paymentDate: string)

  datatype Failure = LinesNotFound | LineNotInTransit | PayoutNotFound | EmptyPayoutLines | LineGeneration

  datatype Step = Step(tables: Tables, failure: Option<Failure>)

  // ---------- Income and compensation ----------

  function CreateIncome(t: Tables, requestId: string, ownerId: string, tenant: Tenant, amount: int): Tables {
    t.(ledger := AddEarning(t.ledger, Income, requestId, ownerId, tenant, amount))
  }

  /** `due`: the order was executed, required a surcharge and the surcharge was paid. */
  function CreateCompensation(t: Tables, requestId: string, ownerId: string, tenant: Tenant, amount: int, due: bool): Tables {
    if !due || HasCompensation(t.ledger, requestId, ownerId) then t
    else t.(ledger := AddEarning(t.ledger, RescheduleSurchargeCompensation, requestId, ownerId, tenant, amount))
  }

  // ---------- Scheduling ----------

  /** The transactions a run was given, after their payouts were saved. */
  function LinkedBy(l: Ledger, payable: map<string, Provider>): seq<Transaction> {
    Map(Debitable(l.transactions), t => Link(t, Payouts(Debitable(l.transactions), payable), |l.payouts|))
  }

  /** A line without a payout cannot be stored, and then none of the run is: the column is not nullable. */
  function Schedule(t: Tables, payable: map<string, Provider>, requests: map<string, RequestInfo>): Step {
    var t' := t.(ledger := SchedulePayouts(t.ledger, payable));
    match AllLines(LinkedBy(t.ledger, payable), requests, payable)
    case Err(_) => Step(t', Some(LineGeneration))
    case Ok(lines) =>
      if exists l :: l in lines && l.payoutId.None? then Step(t', Some(LineGeneration))
      else Step(t'.(lines := t.lines + lines), None)
  }

  // ---------- Payment files ----------

  predicate IsUploadable(payouts: seq<Payout>, complete: set<nat>, p: nat) {
    p < |payouts| && payouts[p].status.Scheduled? && p in complete
  }

  predicate InBatch(payouts: seq<Payout>, complete: set<nat>, tenant: Tenant, p: nat) {
    IsUploadable(payouts, complete, p) && payouts[p].tenant == tenant
  }

  predicate LineInBatch(payouts: seq<Payout>, complete: set<nat>, tenant: Tenant, l: Line) {
    l.payoutId.Some? && IsUploadable(payouts, complete, l.payoutId.value) && l.tenant == tenant
  }

  function BatchPayouts(payouts: seq<Payout>, complete: set<nat>, tenant: Tenant): seq<nat> {
    Filter(seq<nat>(|payouts|, (i: nat) => i), (p: nat) => InBatch(payouts, complete, tenant, p))
  }

  function BatchLines(t: Tables, complete: set<nat>, tenant: Tenant): seq<Line> {
    Filter(t.lines, l => LineInBatch(t.ledger.payouts, complete, tenant, l))
  }

  function AmountOf(payouts: seq<Payout>, p: nat): int {
    if p < |payouts| then payouts[p].amount else 0
  }

  function PayoutsInTransit(payouts: seq<Payout>, complete: set<nat>, tenant: Tenant): seq<Payout> {
    seq(|payouts|, p requires 0 <= p < |payouts| =>
      if InBatch(payouts, complete, tenant, p) then payouts[p].(status := InTransit) else payouts[p])
  }

  function LineInTransit(payouts: seq<Payout>, complete: set<nat>, tenant: Tenant, l: Line): Line {
    if LineInBatch(payouts, complete, tenant, l) then l.(status := InTransit) else l
  }

  /** `complete` holds the payouts whose bank details are complete; `uploaded` says whether the files reached their stores.
      A line that is not scheduled stops the step after the payouts were marked. */
  function CreateBatch(t: Tables, complete: set<nat>, tenant: Tenant, uploaded: bool): Step {
    var ps := BatchPayouts(t.ledger.payouts, complete, tenant);
    var ls := BatchLines(t, complete, tenant);
    if |ps| > 1 && ls == [] then Step(t, Some(EmptyPayoutLines))
    else if ps == [] || ls == [] then Step(t, None)
    else
      var batch := Batch(tenant, ps, Sum(ps, p => AmountOf(t.ledger.payouts, p)), |ps|, BatchInTransit);
      if !uploaded then Step(t.(batches := t.batches + [batch.(status := BatchFailed)]), None)
      else
        var t' := t.(ledger := t.ledger.(payouts := PayoutsInTransit(t.ledger.payouts, complete, tenant)));
        if exists l :: l in ls && !l.status.Scheduled? then Step(t'.(batches := t.batches + [batch.(status := BatchFailed)]), None)
        else Step(t'.(batches := t.batches + [batch],
                      lines := Map(t.lines, l => LineInTransit(t.ledger.payouts, complete, tenant, l))), None)
  }

  // ---------- Paid status ----------

  predicate IsNamed(l: Line, input: PaidInput) {
    l.requestId == input.requestId && l.vendorId == Some(input.vendorId)
  }

  function Named(lines: seq<Line>, input: PaidInput): seq<Line> {
    Filter(lines, l => IsNamed(l, input))
  }

  function PayLine(l: Line, input: PaidInput): Line {
    if IsNamed(l, input)
    then l.(status := Paid, sapDocumentPaymentNo := Some(input.sapDocumentPaymentNo), paymentDate := Some(input.paymentDate))
    else l
  }

  function LinesTotal(lines: seq<Line>): int {
    Sum(lines, (l: Line) => l.amount)
  }

  function Process(p: Payout, amount: int): Payout {
    var p' := p.(processedAmount := p.processedAmount + amount);
    if p'.processedAmount == p'.amount then p'.(status := Paid) else p'
  }

  /** Pays the lines of one (request, vendor) pair; every line must be in transit. */
  function MarkPaid(t: Tables, input: PaidInput): Step {
    var named := Named(t.lines, input);
    if named == [] then Step(t, Some(LinesNotFound))
    else if exists l :: l in named && !l.status.InTransit? then Step(t, Some(LineNotInTransit))
    else
      var t' := t.(lines := Map(t.lines, l => PayLine(l, input)));
      var payouts := t.ledger.payouts;
      if named[0].payoutId.None? || named[0].payoutId.value >= |payouts| then Step(t', Some(PayoutNotFound))
      else
        var p := named[0].payoutId.value;
        var paid := Process(payouts[p], LinesTotal(named));
        Step(t'.(ledger := t.ledger.(payouts := payouts[p := paid]),
                 paidEvents := if paid.processedAmount == paid.amount then t.paidEvents + [p] else t.paidEvents), None)
  }

  // ---------- Runs ----------

  datatype Command =
    | IncomeEarned(requestId: string, ownerId: string, tenant: Tenant, amount: nat)
    | CompensationEarned(requestId: string, ownerId: string, tenant: Tenant, amount: nat, due: bool)
    | SchedulePayoutRun(payable: map<string, Provider>, requests: map<string, RequestInfo>)
    | HoldForPayout(payoutId: nat)
    | ReleaseForPayout(payoutId: nat)
    | UploadFiles(complete: set<nat>, batchTenant: Tenant, uploaded: bool)
    | StatusReceived(input: PaidInput)

  function Apply(t: Tables, c: Command): Tables {
    match c
    case IncomeEarned(r, o, tenant, amount) => CreateIncome(t, r, o, tenant, amount)
    case CompensationEarned(r, o, tenant, amount, due) => CreateCompensation(t, r, o, tenant, amount, due)
    case SchedulePayoutRun(payable, requests) => Schedule(t, payable, requests).tables
    case HoldForPayout(p) => t.(ledger := HoldBalance(t.ledger, p))
    case ReleaseForPayout(p) => t.(ledger := ReleaseBalance(t.ledger, p))
    case UploadFiles(complete, tenant, uploaded) => CreateBatch(t, complete, tenant, uploaded).tables
    case StatusReceived(input) => MarkPaid(t, input).tables
  }

  const EMPTY := Tables(Ledger(map[], [], []), [], [], [])

  /** The state after a run, last command first. */
  function Run(cs: seq<Command>): Tables {
    if cs == [] then EMPTY else Apply(Run(cs[..|cs| - 1]), cs[|cs| - 1])
  }

  // ---------- Every run keeps the wallets sound ----------

  /** Paying and uploading change neither what a payout is worth nor to whom. */
  lemma SameWorthKeepsSound(l: Ledger, payouts: seq<Payout>)
    requires Sound(l) && |payouts| == |l.payouts|
    requires forall p :: 0 <= p < |payouts| ==>
               payouts[p].amount == l.payouts[p].amount && payouts[p].ownerId == l.payouts[p].ownerId && payouts[p].tenant == l.payouts[p].tenant
    ensures Sound(l.(payouts := payouts))
  {
    assert forall o :: WalletOf(l.(payouts := payouts), o) == WalletOf(l, o);
  }

  lemma BatchKeepsSound(t: Tables, complete: set<nat>, tenant: Tenant, uploaded: bool)
    requires Sound(t.ledger)
    ensures Sound(CreateBatch(t, complete, tenant, uploaded).tables.ledger)
  {
    SameWorthKeepsSound(t.ledger, CreateBatch(t, complete, tenant, uploaded).tables.ledger.payouts);
  }

  lemma PaymentKeepsSound(t: Tables, input: PaidInput)
    requires Sound(t.ledger)
    ensures Sound(MarkPaid(t, input).tables.ledger)
  {
    SameWorthKeepsSound(t.ledger, MarkPaid(t, input).tables.ledger.payouts);
  }

  lemma ScheduleKeepsSound(t: Tables, payable: map<string, Provider>, requests: map<string, RequestInfo>)
    requires Sound(t.ledger)
    ensures Sound(Schedule(t, payable, requests).tables.ledger)
  {
    SchedulePayoutsKeepsSound(t.ledger, payable);
  }

  lemma ApplyKeepsSound(t: Tables, c: Command)
    requires Sound(t.ledger)
    ensures Sound(Apply(t, c).ledger)
  {
    match c
    case IncomeEarned(r, o, tenant, amount) => AddEarningKeepsSound(t.ledger, Income, r, o, tenant, amount);
    case CompensationEarned(r, o, tenant, amount, due) =>
      AddEarningKeepsSound(t.ledger, RescheduleSurchargeCompensation, r, o, tenant, amount);
    case SchedulePayoutRun(payable, requests) => ScheduleKeepsSound(t, payable, requests);
    case HoldForPayout(p) => HoldBalanceKeepsSound(t.ledger, p);
    case ReleaseForPayout(p) => ReleaseBalanceKeepsSound(t.ledger, p);
    case UploadFiles(complete, tenant, uploaded) => BatchKeepsSound(t, complete, tenant, uploaded);
    case StatusReceived(input) => PaymentKeepsSound(t, input);
  }

  lemma EmptyIsSound()
    ensures Sound(EMPTY.ledger)
  {
    var ts: seq<Transaction> := [];
    forall o
      ensures Balance(ts, o) == 0 && PendingPayouts(ts, o) == 0 && OpenEarnings(ts, Held(ts), o) == 0
    {}
  }

  lemma {:induction false} RunIsSound(cs: seq<Command>)
    ensures Sound(Run(cs).ledger)
  {
    if cs == [] {
      EmptyIsSound();
    } else {
      RunIsSound(cs[..|cs| - 1]);
      ApplyKeepsSound(Run(cs[..|cs| - 1]), cs[|cs| - 1]);
    }
  }

  /** Over every run, whatever the interleaving: the available balance of an owner is the sum of the owner's
      transaction amounts, the hold balance is the sum of the owner's pending payouts, and neither is negative.
      So the check that a hold finds enough balance is never needed. */
  lemma BalancesOverEveryRun(cs: seq<Command>, o: string)
    ensures var l := Run(cs).ledger;
            && WalletOf(l, o).availableBalance == Balance(l.transactions, o) >= 0
            && WalletOf(l, o).holdBalance == PendingPayouts(l.transactions, o) >= 0
  {
    RunIsSound(cs);
    SoundIsSolvent(Run(cs).ledger, o);
  }

  /** A held payout leaves its amount uncovered nowhere: each hold finds at least the payout's amount available. */
  lemma HoldNeverOverdraws(cs: seq<Command>, p: nat)
    requires p < |Run(cs).ledger.payouts| && !IsHeld(Run(cs).ledger.transactions, p)
    ensures var l := Run(cs).ledger; WalletOf(l, l.payouts[p].ownerId).availableBalance >= l.payouts[p].amount
  {
    RunIsSound(cs);
    var l := Run(cs).ledger;
    if l.payouts[p].ownerId in l.wallets {
      HoldBalanceKeepsSound(l, p);
      SoundIsSolvent(HoldBalance(l, p), l.payouts[p].ownerId);
    } else {
      var o := l.payouts[p].ownerId;
      assert Balance(l.transactions, o) == 0;
      SumMonotone(l.transactions, t => OwnedEarningTerm(o, p, t), t => OpenTerm(Held(l.transactions), o, t));
      PayoutHasOneOwner(l, o, p);
    }
  }

  // ---------- No transaction is paid out twice ----------

  /** Rows are never lost, and a transaction that a payout has taken stays with it. */
  ghost predicate LinksKept(l: Ledger, l': Ledger) {
    && |l.transactions| <= |l'.transactions|
    && |l.payouts| <= |l'.payouts|
    && (forall i :: 0 <= i < |l.transactions| ==>
          var t, t' := l.transactions[i], l'.transactions[i];
          && t'.id == t.id && t'.ownerId == t.ownerId && t'.tenant == t.tenant && t'.kind == t.kind && t'.amount == t.amount
          && (t.payoutId.Some? ==> t'.payoutId == t.payoutId))
  }

  lemma SchedulePayoutsKeepsLinks(l: Ledger, payable: map<string, Provider>)
    ensures LinksKept(l, SchedulePayouts(l, payable))
  {
    forall i | 0 <= i < |l.transactions| && l.transactions[i].payoutId.Some?
      ensures PayoutTaking(Payouts(Debitable(l.transactions), payable), l.transactions[i]).None?
    {
      LinkedRow(l, payable, l.transactions[i]);
    }
  }

  lemma BatchKeepsLinks(t: Tables, complete: set<nat>, tenant: Tenant, uploaded: bool)
    ensures LinksKept(t.ledger, CreateBatch(t, complete, tenant, uploaded).tables.ledger)
  {}

  lemma PaymentKeepsLinks(t: Tables, input: PaidInput)
    ensures LinksKept(t.ledger, MarkPaid(t, input).tables.ledger)
  {}

  lemma HoldAndReleaseKeepLinks(l: Ledger, p: nat)
    ensures LinksKept(l, HoldBalance(l, p)) && LinksKept(l, ReleaseBalance(l, p))
  {}

  lemma ApplyKeepsLinks(t: Tables, c: Command)
    ensures LinksKept(t.ledger, Apply(t, c).ledger)
  {
    match c
    case SchedulePayoutRun(payable, requests) => SchedulePayoutsKeepsLinks(t.ledger, payable);
    case HoldForPayout(p) => HoldAndReleaseKeepLinks(t.ledger, p);
    case ReleaseForPayout(p) => HoldAndReleaseKeepLinks(t.ledger, p);
    case UploadFiles(complete, tenant, uploaded) => BatchKeepsLinks(t, complete, tenant, uploaded);
    case StatusReceived(input) => PaymentKeepsLinks(t, input);
    case _ =>
  }

  lemma LastCommandKeepsLinks(cs: seq<Command>)
    requires cs != []
    ensures LinksKept(Run(cs[..|cs| - 1]).ledger, Run(cs).ledger)
  {
    ApplyKeepsLinks(Run(cs[..|cs| - 1]), cs[|cs| - 1]);
  }

  lemma LinksTransitive(a: Ledger, b: Ledger, c: Ledger)
    requires LinksKept(a, b) && LinksKept(b, c)
    ensures LinksKept(a, c)
  {
    forall i | 0 <= i < |a.transactions|
      ensures var t, t' := a.transactions[i], c.transactions[i];
              && t'.id == t.id && t'.ownerId == t.ownerId && t'.tenant == t.tenant && t'.kind == t.kind && t'.amount == t.amount
              && (t.payoutId.Some? ==> t'.payoutId == t.payoutId)
    {
      assert b.transactions[i].id == a.transactions[i].id;
    }
  }

  lemma LinksReflexive(l: Ledger)
    ensures LinksKept(l, l)
  {}

  /** Over every run no transaction is ever moved from one payout to another. */
  lemma {:induction false} TransactionsPaidOutOnce(cs: seq<Command>, ds: seq<Command>)
    ensures LinksKept(Run(cs).ledger, Run(cs + ds).ledger)
  {
    var all := cs + ds;
    if ds == [] {
      assert all == cs;
      LinksReflexive(Run(cs).ledger);
    } else {
      var front := ds[..|ds| - 1];
      assert all[..|all| - 1] == cs + front;
      TransactionsPaidOutOnce(cs, front);
      LastCommandKeepsLinks(all);
      LinksTransitive(Run(cs).ledger, Run(cs + front).ledger, Run(all).ledger);
    }
  }

  /** A scheduling run takes every debitable transaction of a payable owner, and leaves exactly the others debitable. */
  lemma ScheduleTakesPayable(t: Tables, payable: map<string, Provider>, requests: map<string, RequestInfo>, i: nat)
    requires i < |t.ledger.transactions| && IsDebitable(t.ledger.transactions[i])
    ensures IsDebitable(Schedule(t, payable, requests).tables.ledger.transactions[i])
       <==> t.ledger.transactions[i].ownerId !in payable
  {
    LinkedRow(t.ledger, payable, t.ledger.transactions[i]);
  }
}
