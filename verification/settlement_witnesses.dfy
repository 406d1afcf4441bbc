/** Concrete runs of settlement that go wrong, and what becomes of them. */
module SettlementWitnesses {
  import opened Wrappers
  import opened Sums
  import opened PayoutFactory
  import opened WalletLedger
  import opened PayoutLines
  import opened Settlement
  import opened Payments
  import opened SettlementRuns
  import opened Runs

  lemma RunPasses(cs: seq<Command>)
    ensures Passes(Apply, EMPTY, cs, StatesOf(Run, cs)) && StatesOf(Run, cs)[|cs|] == Run(cs)
  {
    forall k | 0 <= k < |cs|
      ensures Run(cs[..k + 1]) == Apply(Run(cs[..k]), cs[k])
    {
      var front := cs[..k + 1];
      assert front[..|front| - 1] == cs[..k] && front[|front| - 1] == cs[k];
    }
    StatesPass(Apply, Run, cs);
  }

  function IncomeRow(id: nat, ownerId: string, requestId: string, amount: nat): Transaction {
    Transaction(id, ownerId, Daikin, Income, Success, amount, Some(requestId), None)
  }

  // ---------- Payouts left without lines ----------

  const ORDER := RequestInfo("a", Daikin, [Item(1, 12, 10)], 0, 0)

  const OTHERS_ORDER := RequestInfo("b", Daikin, [Item(1, 12, 10)], 0, 0)

  const PAYABLE := map["a" := Provider(Some("v"))]

  const UNPAYABLE_OWNER := [
    IncomeEarned("r", "a", Daikin, 10), IncomeEarned("s", "b", Daikin, 10),
    SchedulePayoutRun(PAYABLE, map["r" := ORDER, "s" := OTHERS_ORDER])]

  lemma UnpayableOwnerStates(ts: seq<Tables>)
    requires Passes(Apply, EMPTY, UNPAYABLE_OWNER, ts)
    ensures ts[2].ledger.transactions == [IncomeRow(0, "a", "r", 10), IncomeRow(1, "b", "s", 10)]
    ensures ts[2].lines == [] && ts[2].ledger.payouts == []
    ensures ts[3] == Schedule(ts[2], PAYABLE, map["r" := ORDER, "s" := OTHERS_ORDER]).tables
  {
    assert IsStep(Apply, UNPAYABLE_OWNER, ts, 0) && IsStep(Apply, UNPAYABLE_OWNER, ts, 1) && IsStep(Apply, UNPAYABLE_OWNER, ts, 2);
  }

  lemma UnpayableOwnerFails(t: Tables)
    requires t.ledger.transactions == [IncomeRow(0, "a", "r", 10), IncomeRow(1, "b", "s", 10)] && t.lines == [] && t.ledger.payouts == []
    ensures var t' := Schedule(t, PAYABLE, map["r" := ORDER, "s" := OTHERS_ORDER]).tables;
            && t'.lines == [] && |t'.ledger.transactions| == 2
            && t'.ledger.transactions[0].payoutId.Some? && t'.ledger.transactions[0].payoutId.value < |t'.ledger.payouts|
  {
    var requests := map["r" := ORDER, "s" := OTHERS_ORDER];
    var x, y := t.ledger.transactions[0], t.ledger.transactions[1];
    DebitableMembers(t.ledger);
    assert x in t.ledger.transactions && y in t.ledger.transactions;
    assert "a"[0] != "b"[0] && "r"[0] != "s"[0];
    assert !IsItemisable(y, requests, PAYABLE);
    ScheduleMakesLinesIff(t, PAYABLE, requests);
    LinkOf(t.ledger, PAYABLE, x);
  }

  /** An income of a provider whose bank details are incomplete stops the lines of everyone else in the run: the payout of
      the payable provider has taken its income and has no line, now and in every later run. */
  lemma UnpayableOwnerStrandsOthers(cs: seq<Command>, ds: seq<Command>)
    requires cs == UNPAYABLE_OWNER
    ensures var transactions := Run(cs).ledger.transactions;
            exists p: nat :: |transactions| == 2 && transactions[0].payoutId == Some(p)
                       && p < |Run(cs + ds).ledger.payouts| && !HasLines(Run(cs + ds).lines, p)
  {
    RunPasses(cs);
    var ts := StatesOf(Run, cs);
    UnpayableOwnerStates(ts);
    UnpayableOwnerFails(ts[2]);
    LinelessForever(cs, ds, ts[3].ledger.transactions[0].payoutId.value);
  }

  const RETAKEN_ORDER := RequestInfo("b", Daikin, [Item(1, 12, 10)], 0, 0)

  const ONLY_OTHER := map["b" := Provider(Some("w"))]

  const RETAKEN := map["r" := RETAKEN_ORDER, "s" := RETAKEN_ORDER]

  const RETAKEN_REQUEST := [
    IncomeEarned("r", "a", Daikin, 10), IncomeEarned("s", "b", Daikin, 10), SchedulePayoutRun(ONLY_OTHER, RETAKEN)]

  lemma RetakenRequestStates(ts: seq<Tables>)
    requires Passes(Apply, EMPTY, RETAKEN_REQUEST, ts)
    ensures ts[2].ledger.transactions == [IncomeRow(0, "a", "r", 10), IncomeRow(1, "b", "s", 10)]
    ensures ts[2].lines == [] && ts[2].ledger.payouts == []
    ensures ts[3] == Schedule(ts[2], ONLY_OTHER, RETAKEN).tables
  {
    assert IsStep(Apply, RETAKEN_REQUEST, ts, 0) && IsStep(Apply, RETAKEN_REQUEST, ts, 1) && IsStep(Apply, RETAKEN_REQUEST, ts, 2);
  }

  lemma RetakenRequestFindsNoPayout(l: Ledger)
    requires l.transactions == [IncomeRow(0, "a", "r", 10), IncomeRow(1, "b", "s", 10)]
    ensures l.transactions[0] in Debitable(l.transactions) && l.transactions[1] in Debitable(l.transactions)
    ensures !IsStorable(l.transactions[0], Debitable(l.transactions), RETAKEN, ONLY_OTHER)
  {
    var x, y := l.transactions[0], l.transactions[1];
    DebitableMembers(l);
    assert x in l.transactions && y in l.transactions;
    assert "a"[0] != "b"[0] && "r"[0] != "s"[0];
    assert Item(1, 12, 10) in RETAKEN_ORDER.items;
    assert Lookup(Debitable(l.transactions), Some("r")).value == x;
  }

  lemma RetakenRequestFails(t: Tables)
    requires t.ledger.transactions == [IncomeRow(0, "a", "r", 10), IncomeRow(1, "b", "s", 10)] && t.lines == [] && t.ledger.payouts == []
    ensures var t' := Schedule(t, ONLY_OTHER, RETAKEN).tables;
            && t'.lines == [] && |t'.ledger.transactions| == 2
            && t'.ledger.transactions[1].payoutId.Some? && t'.ledger.transactions[1].payoutId.value < |t'.ledger.payouts|
  {
    RetakenRequestFindsNoPayout(t.ledger);
    ScheduleMakesLinesIff(t, ONLY_OTHER, RETAKEN);
    LinkOf(t.ledger, ONLY_OTHER, t.ledger.transactions[1]);
  }

  /** All its lines could be made. */
  lemma RetakenRequestIsItemised(t: Tables)
    requires t.ledger.transactions == [IncomeRow(0, "a", "r", 10), IncomeRow(1, "b", "s", 10)]
    ensures AllLines(LinkedBy(t.ledger, ONLY_OTHER), RETAKEN, ONLY_OTHER).Ok?
  {
    DebitableMembers(t.ledger);
    LinesMadeForRun(t, ONLY_OTHER, RETAKEN);
  }

  /** A request earned by a provider whose bank details are incomplete and done again by one who is payable: its line is
      made for the payable one and finds no payout, so none of the run's lines can be stored, now and in every later run. */
  lemma RetakenRequestStrandsOthers(cs: seq<Command>, ds: seq<Command>)
    requires cs == RETAKEN_REQUEST
    ensures var transactions := Run(cs).ledger.transactions;
            exists p: nat :: |transactions| == 2 && transactions[1].payoutId == Some(p)
                       && p < |Run(cs + ds).ledger.payouts| && !HasLines(Run(cs + ds).lines, p)
  {
    RunPasses(cs);
    var ts := StatesOf(Run, cs);
    RetakenRequestStates(ts);
    RetakenRequestFails(ts[2]);
    LinelessForever(cs, ds, ts[3].ledger.transactions[1].payoutId.value);
  }

  // ---------- One owner, one payout ----------

  function Linked(xs: seq<Transaction>, p: nat): seq<Transaction> {
    Map(xs, (x: Transaction) => x.(payoutId := Some(p)))
  }

  lemma OneDraft(ts: seq<Transaction>, payable: map<string, Provider>, ownerId: string, tenant: Tenant)
    requires ts != [] && ownerId in payable && forall x :: x in ts ==> x.ownerId == ownerId && x.tenant == tenant
    ensures var ds := Payouts(ts, payable);
            && |ds| == 1 && ds[0].ownerId == ownerId && ds[0].tenant == tenant
            && ds[0].amount == Sum(ts, (x: Transaction) => x.amount)
            && forall x :: x in ts ==> x in ds[0].transactions
  {
    var ds := Payouts(ts, payable);
    PayoutsPartition(ts, payable);
    assert ts[0] in ts;
    forall k | 0 <= k < |ds|
      ensures ds[k].ownerId == ownerId && ds[k].tenant == tenant
    {
      assert ds[k] in ds && IsDraftOf(ds[k], ts, payable);
      assert ds[k].transactions[0] in ds[k].transactions;
    }
    assert |ds| == 1;
    SumOne(ds[0], (d: Draft) => d.amount);
    assert ds == [ds[0]];
    SumCongruent(ts, (t: Transaction) => if t.ownerId in payable then t.amount else 0, (x: Transaction) => x.amount);
  }

  lemma OneOwnerLinks(l: Ledger, payable: map<string, Provider>)
    requires |Payouts(Debitable(l.transactions), payable)| == 1
    requires forall x :: x in Debitable(l.transactions) ==> x.ownerId in payable
    ensures LinkedBy(l, payable) == Linked(Debitable(l.transactions), |l.payouts|)
  {
    var ts := Debitable(l.transactions);
    forall i | 0 <= i < |ts|
      ensures LinkedBy(l, payable)[i] == Linked(ts, |l.payouts|)[i]
    {
      assert ts[i] in ts;
      LinkOf(l, payable, ts[i]);
    }
  }

  /** If all debitable transactions are one payable owner's and one tenant's, the run drafts one payout, which takes them all. */
  lemma OneOwnerOnePayout(l: Ledger, payable: map<string, Provider>, ownerId: string, tenant: Tenant)
    requires Debitable(l.transactions) != [] && ownerId in payable
    requires forall x :: x in Debitable(l.transactions) ==> x.ownerId == ownerId && x.tenant == tenant
    ensures SchedulePayouts(l, payable).payouts ==
              l.payouts + [Payout(ownerId, tenant, Sum(Debitable(l.transactions), (x: Transaction) => x.amount), 0, Scheduled)]
    ensures LinkedBy(l, payable) == Linked(Debitable(l.transactions), |l.payouts|)
  {
    OneDraft(Debitable(l.transactions), payable, ownerId, tenant);
    OneOwnerLinks(l, payable);
  }

  // ---------- A line that is worth nothing ----------

  const FREE_ORDER := RequestInfo("a", Daikin, [Item(1, 12, 0)], 0, 0)

  const ORDERS := map["r" := ORDER, "s" := FREE_ORDER]

  function Input(requestId: string): PaidInput {
    PaidInput(requestId, "v", "document", "date")
  }

  const FREE_LINE := [
    IncomeEarned("r", "a", Daikin, 10), IncomeEarned("s", "a", Daikin, 0), SchedulePayoutRun(PAYABLE, ORDERS),
    UploadFiles({0}, Daikin, true), StatusReceived(Input("r")), StatusReceived(Input("s"))]

  function LineRow(id: nat, requestId: string, amount: nat, p: nat): Line {
    Line(requestId, Some("v"), Daikin, ServicePackage, amount, 12, 0, id, Some(p), Scheduled, None, None)
  }

  lemma FreeLinesMade()
    ensures AllLines(Linked([IncomeRow(0, "a", "r", 10), IncomeRow(1, "a", "s", 0)], 0), ORDERS, PAYABLE)
         == Ok([LineRow(0, "r", 10, 0), LineRow(1, "s", 0, 0)])
  {
    var x, y := IncomeRow(0, "a", "r", 10).(payoutId := Some(0)), IncomeRow(1, "a", "s", 0).(payoutId := Some(0));
    var ts := Linked([IncomeRow(0, "a", "r", 10), IncomeRow(1, "a", "s", 0)], 0);
    var l, m := LineRow(0, "r", 10, 0), LineRow(1, "s", 0, 0);
    assert "r"[0] != "s"[0];
    assert ts == [x, y] && ts[..1] == [x] && [x][..0] == [];
    assert Lookup([x], Some("r")) == Some(x) && Lookup(ts, Some("r")) == Some(x) && Lookup(ts, Some("s")) == Some(y);
    OneUnit("r", ORDER, PAYABLE["a"], Item(1, 12, 10), x, l);
    OneUnit("s", FREE_ORDER, PAYABLE["a"], Item(1, 12, 0), y, m);
    assert [] + [l] == [l] && [l] + [m] == [l, m] && [l, m] + [] == [l, m];
    assert KindLines(Income, [x], ts, ORDERS, PAYABLE) == Ok([l]);
    assert KindLines(RescheduleSurchargeCompensation, [x], ts, ORDERS, PAYABLE) == Ok([]);
  }

  lemma OneUnit(id: string, r: RequestInfo, owner: Provider, item: Item, link: Transaction, l: Line)
    requires item.quantity == 1 && r.items == [item] && l == PackageLine(id, r, owner, item, link)
    ensures PackageLines(id, r, owner, r.items, link) == [l]
  {
    assert r.items[..0] == [];
    assert PackageLines(id, r, owner, [], link) == [];
    assert Repeat(l, 1) == [l];
  }

  const FREE_INCOMES := [IncomeRow(0, "a", "r", 10), IncomeRow(1, "a", "s", 0)]

  lemma FreeLineEarned(ts: seq<Tables>)
    requires Passes(Apply, EMPTY, FREE_LINE, ts)
    ensures ts[2].ledger.transactions == FREE_INCOMES && ts[2].lines == [] && ts[2].ledger.payouts == [] && ts[2].paidEvents == []
    ensures ts[3] == Schedule(ts[2], PAYABLE, ORDERS).tables
  {
    assert IsStep(Apply, FREE_LINE, ts, 0) && IsStep(Apply, FREE_LINE, ts, 1) && IsStep(Apply, FREE_LINE, ts, 2);
  }

  lemma FreeLineScheduled(t: Tables)
    requires t.ledger.transactions == FREE_INCOMES && t.lines == [] && t.ledger.payouts == []
    ensures var t' := Schedule(t, PAYABLE, ORDERS).tables;
            && t'.lines == [LineRow(0, "r", 10, 0), LineRow(1, "s", 0, 0)]
            && t'.ledger.payouts == [Payout("a", Daikin, 10, 0, Scheduled)] && t'.paidEvents == t.paidEvents
  {
    var xs := FREE_INCOMES;
    FilterTwo(xs[0], xs[1], (x: Transaction) => IsDebitable(x));
    assert xs == [xs[0], xs[1]] && Debitable(xs) == xs;
    OneOwnerOnePayout(t.ledger, PAYABLE, "a", Daikin);
    SumTwo(xs[0], xs[1], (x: Transaction) => x.amount);
    FreeLinesMade();
  }

  /** Sending the batch of payout 0. */
  lemma FreeLineSent(t: Tables)
    requires t.lines == [LineRow(0, "r", 10, 0), LineRow(1, "s", 0, 0)]
    requires t.ledger.payouts == [Payout("a", Daikin, 10, 0, Scheduled)]
    ensures var t' := CreateBatch(t, {0}, Daikin, true).tables;
            && t'.lines == [LineRow(0, "r", 10, 0).(status := InTransit), LineRow(1, "s", 0, 0).(status := InTransit)]
            && t'.ledger.payouts == [Payout("a", Daikin, 10, 0, InTransit)] && t'.paidEvents == t.paidEvents
  {
    BatchMembers(t, {0}, Daikin);
    assert InBatch(t.ledger.payouts, {0}, Daikin, 0);
    assert t.lines[0] in t.lines;
    assert 0 in BatchPayouts(t.ledger.payouts, {0}, Daikin) && t.lines[0] in BatchLines(t, {0}, Daikin);
  }

  /** The first payment pays the payout and publishes its event though a line is open; the second publishes it again. */
  lemma FreeLinePaid(t: Tables)
    requires t.lines == [LineRow(0, "r", 10, 0).(status := InTransit), LineRow(1, "s", 0, 0).(status := InTransit)]
    requires t.ledger.payouts == [Payout("a", Daikin, 10, 0, InTransit)] && t.paidEvents == []
    ensures var t1 := MarkPaid(t, Input("r")).tables; var t2 := MarkPaid(t1, Input("s")).tables;
            && t1.ledger.payouts == [Payout("a", Daikin, 10, 10, PayoutStatus.Paid)] && t1.paidEvents == [0]
            && |t1.lines| == 2 && t1.lines[1].status.InTransit?
            && t2.paidEvents == [0, 0]
  {
    var l, m := t.lines[0], t.lines[1];
    var r, s := Input("r"), Input("s");
    assert "r"[0] != "s"[0];
    FilterTwo(l, m, (x: Line) => IsNamed(x, r));
    assert t.lines == [l, m];
    assert Named(t.lines, r) == [l];
    SumOne(l, (x: Line) => x.amount);
    var t1 := MarkPaid(t, r).tables;
    FilterTwo(PayLine(l, r), m, (x: Line) => IsNamed(x, s));
    assert t1.lines == [PayLine(l, r), m];
    assert Named(t1.lines, s) == [m];
    SumOne(m, (x: Line) => x.amount);
  }

  lemma FreeLineSteps(ts: seq<Tables>)
    requires Passes(Apply, EMPTY, FREE_LINE, ts)
    ensures ts[4] == CreateBatch(ts[3], {0}, Daikin, true).tables
    ensures ts[5] == MarkPaid(ts[4], Input("r")).tables && ts[6] == MarkPaid(ts[5], Input("s")).tables
  {
    assert IsStep(Apply, FREE_LINE, ts, 3) && IsStep(Apply, FREE_LINE, ts, 4) && IsStep(Apply, FREE_LINE, ts, 5);
  }

  /** With a line that is worth nothing the payout turns paid while that line is open, and its event is published twice. */
  lemma FreeLineFiresTwice(cs: seq<Command>)
    requires cs == FREE_LINE
    ensures var t := Run(cs[..5]);
            |t.ledger.payouts| == 1 && t.ledger.payouts[0].status.Paid? && |t.lines| == 2 && !t.lines[1].status.Paid?
    ensures Run(cs).paidEvents == [0, 0]
  {
    RunPasses(cs);
    var ts := StatesOf(Run, cs);
    FreeLineEarned(ts);
    FreeLineSteps(ts);
    FreeLineScheduled(ts[2]);
    FreeLineSent(ts[3]);
    FreeLinePaid(ts[4]);
  }

  // ---------- A request that is earned on twice ----------

  const EARNED_TWICE := [
    IncomeEarned("r", "a", Daikin, 10), SchedulePayoutRun(PAYABLE, map["r" := ORDER]), UploadFiles({0}, Daikin, true),
    StatusReceived(Input("r")), IncomeEarned("r", "a", Daikin, 10), SchedulePayoutRun(PAYABLE, map["r" := ORDER])]

  /** The run of a single debitable income adds its line and its payout. */
  lemma OneIncomeScheduled(t: Tables, id: nat)
    requires Debitable(t.ledger.transactions) == [IncomeRow(id, "a", "r", 10)]
    ensures var t' := Schedule(t, PAYABLE, map["r" := ORDER]).tables; var p := |t.ledger.payouts|;
            && t'.lines == t.lines + [LineRow(id, "r", 10, p)] && t'.ledger.payouts == t.ledger.payouts + [Payout("a", Daikin, 10, 0, Scheduled)]
            && t'.paidEvents == t.paidEvents && Debitable(t'.ledger.transactions) == []
  {
    var x := IncomeRow(id, "a", "r", 10);
    var p := |t.ledger.payouts|;
    var x', l := x.(payoutId := Some(p)), LineRow(id, "r", 10, p);
    var requests := map["r" := ORDER];
    OneOwnerOnePayout(t.ledger, PAYABLE, "a", Daikin);
    SumOne(x, (y: Transaction) => y.amount);
    var ts := LinkedBy(t.ledger, PAYABLE);
    assert ts == [x'] && [x'][..0] == [];
    OneUnit("r", ORDER, PAYABLE["a"], Item(1, 12, 10), x', l);
    assert [] + [l] == [l] && [l] + [] == [l];
    assert KindLines(Income, ts, ts, requests, PAYABLE) == Ok([l]);
    assert KindLines(RescheduleSurchargeCompensation, ts, ts, requests, PAYABLE) == Ok([]);
    NoneLeftDebitable(t.ledger, x);
  }

  lemma NoneLeftDebitable(l: Ledger, x: Transaction)
    requires Debitable(l.transactions) == [x] && x.ownerId in PAYABLE
    ensures Debitable(SchedulePayouts(l, PAYABLE).transactions) == []
  {
    var l' := SchedulePayouts(l, PAYABLE);
    DebitableMembers(l);
    DebitableMembers(l');
    forall i | 0 <= i < |l.transactions|
      ensures !IsDebitable(l'.transactions[i])
    {
      LinkedRow(l, PAYABLE, l.transactions[i]);
      assert IsDebitable(l.transactions[i]) ==> l.transactions[i] in Debitable(l.transactions);
    }
    if Debitable(l'.transactions) != [] {
      assert Debitable(l'.transactions)[0] in Debitable(l'.transactions);
    }
  }

  lemma FirstSent(t: Tables)
    requires t.lines == [LineRow(0, "r", 10, 0)] && t.ledger.payouts == [Payout("a", Daikin, 10, 0, Scheduled)]
    ensures var t' := CreateBatch(t, {0}, Daikin, true).tables;
            && t'.lines == [LineRow(0, "r", 10, 0).(status := InTransit)] && t'.ledger.payouts == [Payout("a", Daikin, 10, 0, InTransit)]
            && t'.ledger.transactions == t.ledger.transactions
  {
    BatchMembers(t, {0}, Daikin);
    assert InBatch(t.ledger.payouts, {0}, Daikin, 0);
    assert t.lines[0] in t.lines;
    assert 0 in BatchPayouts(t.ledger.payouts, {0}, Daikin) && t.lines[0] in BatchLines(t, {0}, Daikin);
  }

  lemma FirstPaid(t: Tables)
    requires t.lines == [LineRow(0, "r", 10, 0).(status := InTransit)] && |t.ledger.payouts| == 1
    ensures var t' := MarkPaid(t, Input("r")).tables;
            && |t'.lines| == 1 && t'.lines[0] == PayLine(t.lines[0], Input("r")) && |t'.ledger.payouts| == 1
            && t'.ledger.transactions == t.ledger.transactions
  {
    var l, r := t.lines[0], Input("r");
    FilterOne(l, (x: Line) => IsNamed(x, r));
    assert t.lines == [l];
    assert Named(t.lines, r) == [l];
  }

  lemma EarnedOnce(ts: seq<Tables>)
    requires Passes(Apply, EMPTY, EARNED_TWICE, ts)
    ensures ts[1].ledger.transactions == [IncomeRow(0, "a", "r", 10)] && ts[1].lines == [] && ts[1].ledger.payouts == []
  {
    assert IsStep(Apply, EARNED_TWICE, ts, 0);
  }

  lemma EarnedOnceScheduled(ts: seq<Tables>)
    requires Passes(Apply, EMPTY, EARNED_TWICE, ts)
    ensures ts[2] == Schedule(ts[1], PAYABLE, map["r" := ORDER]).tables
  {
    assert IsStep(Apply, EARNED_TWICE, ts, 1);
  }

  lemma EarnedOncePaid(ts: seq<Tables>)
    requires Passes(Apply, EMPTY, EARNED_TWICE, ts)
    ensures ts[3] == CreateBatch(ts[2], {0}, Daikin, true).tables && ts[4] == MarkPaid(ts[3], Input("r")).tables
  {
    assert IsStep(Apply, EARNED_TWICE, ts, 2) && IsStep(Apply, EARNED_TWICE, ts, 3);
  }

  lemma EarnedAgain(ts: seq<Tables>)
    requires Passes(Apply, EMPTY, EARNED_TWICE, ts) && Debitable(ts[4].ledger.transactions) == [] && |ts[4].ledger.transactions| == 1
    ensures Debitable(ts[5].ledger.transactions) == [IncomeRow(1, "a", "r", 10)]
    ensures ts[5].lines == ts[4].lines && ts[5].ledger.payouts == ts[4].ledger.payouts
    ensures ts[6] == Schedule(ts[5], PAYABLE, map["r" := ORDER]).tables
  {
    var cs := EARNED_TWICE;
    assert IsStep(Apply, cs, ts, 4) && IsStep(Apply, cs, ts, 5);
    var rows := ts[4].ledger.transactions;
    assert ts[5].ledger.transactions == rows + [IncomeRow(1, "a", "r", 10)];
    assert (rows + [IncomeRow(1, "a", "r", 10)])[..|rows|] == rows;
  }

  lemma FirstLineMade(ts: seq<Tables>)
    requires Passes(Apply, EMPTY, EARNED_TWICE, ts)
    ensures ts[2].lines == [LineRow(0, "r", 10, 0)] && ts[2].ledger.payouts == [Payout("a", Daikin, 10, 0, Scheduled)]
    ensures Debitable(ts[2].ledger.transactions) == [] && |ts[2].ledger.transactions| == 1
  {
    EarnedOnce(ts);
    FilterOne(IncomeRow(0, "a", "r", 10), (x: Transaction) => IsDebitable(x));
    EarnedOnceScheduled(ts);
    OneIncomeScheduled(ts[1], 0);
  }

  lemma SecondLineMade(ts: seq<Tables>)
    requires Passes(Apply, EMPTY, EARNED_TWICE, ts) && |ts[4].ledger.payouts| == 1
    requires Debitable(ts[4].ledger.transactions) == [] && |ts[4].ledger.transactions| == 1
    ensures ts[6].lines == ts[4].lines + [LineRow(1, "r", 10, 1)]
  {
    EarnedAgain(ts);
    OneIncomeScheduled(ts[5], 1);
  }

  lemma EarnedTwiceStates(ts: seq<Tables>)
    requires Passes(Apply, EMPTY, EARNED_TWICE, ts)
    ensures ts[6].lines == [PayLine(LineRow(0, "r", 10, 0).(status := InTransit), Input("r")), LineRow(1, "r", 10, 1)]
  {
    FirstLineMade(ts);
    EarnedOncePaid(ts);
    FirstSent(ts[2]);
    FirstPaid(ts[3]);
    assert ts[4].lines == [PayLine(LineRow(0, "r", 10, 0).(status := InTransit), Input("r"))] && |ts[4].ledger.payouts| == 1;
    SecondLineMade(ts);
  }

  /** A request earned on again by the same vendor after its first line was paid: the new payout's line is made, and no later
      run, whatever it does, ever pays it. */
  lemma EarnedTwiceIsStuck(cs: seq<Command>, ds: seq<Command>)
    requires cs == EARNED_TWICE
    ensures |Run(cs).lines| == 2 && Run(cs).lines[1].payoutId == Some(1) && Run(cs).lines[1].amount == 10
    ensures 1 < |Run(cs + ds).lines| && !Run(cs + ds).lines[1].status.Paid?
  {
    RunPasses(cs);
    EarnedTwiceStates(StatesOf(Run, cs));
    SplitPairIsStuck(cs, ds, 0, 1);
  }
}
