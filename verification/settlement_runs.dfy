/** Scheduling under its guard, and what holds over whole settlement runs. */
module SettlementRuns {
  import opened Wrappers
  import opened Sums
  import opened PayoutFactory
  import opened WalletLedger
  import opened PayoutLines
  import opened Settlement
  import opened Payments

  /** No transaction's request was earned on by two owners or for two tenants. */
  predicate OneOwnerPerRequest(ts: seq<Transaction>) {
    forall x, y :: x in ts && y in ts && x.requestId == y.requestId ==> x.ownerId == y.ownerId && x.tenant == y.tenant
  }

  /** What makes the lines of a scheduling run agree with its payouts: every line can be made and finds a payout, incomes
      are the provider totals of their orders, and no request has two owners. */
  predicate AmountsGuard(t: Tables, payable: map<string, Provider>, requests: map<string, RequestInfo>) {
    var ts := Debitable(t.ledger.transactions);
    && (forall x :: x in ts ==>
          && IsItemisable(x, requests, payable) && EarnedOnOrder(x, requests)
          && (YieldsLine(x, requests[x.requestId.value]) ==> x.ownerId in payable))
    && OneOwnerPerRequest(ts)
  }

  /** The lines of `x` go to a payout of its tenant, are worth something or nothing, and belong to a (request, vendor)
      pair of which no line exists yet. */
  predicate IsSchedulable(x: Transaction, lines: seq<Line>, payable: map<string, Provider>, requests: map<string, RequestInfo>)
    requires IsItemisable(x, requests, payable)
  {
    var r := requests[x.requestId.value];
    !YieldsLine(x, r) || (
      && r.tenant == x.tenant
      && (forall i :: i in r.items && i.quantity > 0 ==> i.serviceProviderUnitPrice >= 0)
      && (forall l :: l in lines && l.requestId == x.requestId.value && l.vendorId.Some? ==> l.vendorId != payable[Payee(x, r)].vendorId))
  }

  /** What a scheduling run can check before it starts so that every later payment stays in step. */
  predicate ScheduleGuard(t: Tables, payable: map<string, Provider>, requests: map<string, RequestInfo>) {
    AmountsGuard(t, payable, requests)
    && forall x :: x in Debitable(t.ledger.transactions) ==> IsSchedulable(x, t.lines, payable, requests)
  }

  lemma DebitableMembers(l: Ledger)
    ensures forall x :: x in Debitable(l.transactions) <==> x in l.transactions && IsDebitable(x)
  {
    FilterMembers(l.transactions, (x: Transaction) => IsDebitable(x));
  }

  /** A transaction of a payable owner is linked to a new payout of its owner and tenant, any other to none. */
  lemma LinkOf(l: Ledger, payable: map<string, Provider>, x: Transaction)
    requires x in Debitable(l.transactions)
    ensures var ds := Payouts(Debitable(l.transactions), payable);
            && x in l.transactions && IsDebitable(x)
            && (PayoutTaking(ds, x).Some? <==> x.ownerId in payable)
            && (PayoutTaking(ds, x).Some? ==> ds[PayoutTaking(ds, x).value].tenant == x.tenant)
            && Link(x, ds, |l.payouts|) ==
                 x.(payoutId := if x.ownerId in payable then Some(|l.payouts| + PayoutTaking(ds, x).value) else None)
  {
    DebitableMembers(l);
    LinkedRow(l, payable, x);
  }

  lemma SameOwnerSamePayout(l: Ledger, payable: map<string, Provider>, x: Transaction, y: Transaction)
    requires x in Debitable(l.transactions) && y in Debitable(l.transactions) && x.ownerId == y.ownerId && x.tenant == y.tenant
    ensures var ds := Payouts(Debitable(l.transactions), payable);
            Link(x, ds, |l.payouts|).payoutId == Link(y, ds, |l.payouts|).payoutId
  {
    var ts := Debitable(l.transactions);
    var ds := Payouts(ts, payable);
    LinkOf(l, payable, x);
    LinkOf(l, payable, y);
    if x.ownerId in payable {
      SamePayoutTaking(ts, payable, x, y, PayoutTaking(ds, x).value, PayoutTaking(ds, y).value);
    }
  }

  lemma SamePayoutTaking(ts: seq<Transaction>, payable: map<string, Provider>, x: Transaction, y: Transaction, j: nat, k: nat)
    requires x in ts && y in ts && x.ownerId == y.ownerId && x.tenant == y.tenant
    requires j < |Payouts(ts, payable)| && x in Payouts(ts, payable)[j].transactions
    requires k < |Payouts(ts, payable)| && y in Payouts(ts, payable)[k].transactions
    ensures j == k
  {
    PayoutsPartition(ts, payable);
    assert Payouts(ts, payable)[j] in Payouts(ts, payable) && IsDraftOf(Payouts(ts, payable)[j], ts, payable);
    assert y in Payouts(ts, payable)[j].transactions;
    DraftedOnce(ts, payable, y, j, k);
  }

  /** Where a row that the run was given came from. */
  lemma LinkedByMembers(l: Ledger, payable: map<string, Provider>, x': Transaction) returns (x: Transaction)
    requires x' in LinkedBy(l, payable)
    ensures x in Debitable(l.transactions) && x' == Link(x, Payouts(Debitable(l.transactions), payable), |l.payouts|)
    ensures x.payoutId.None? && x' == x.(payoutId := x'.payoutId) && IsEarning(x')
    ensures x'.payoutId.Some? <==> x.ownerId in payable
    ensures x'.payoutId.Some? ==>
              && |l.payouts| <= x'.payoutId.value < |SchedulePayouts(l, payable).payouts|
              && SchedulePayouts(l, payable).payouts[x'.payoutId.value].tenant == x'.tenant
  {
    x := MapMember(Debitable(l.transactions), t => Link(t, Payouts(Debitable(l.transactions), payable), |l.payouts|), x');
    LinkOf(l, payable, x);
  }

  lemma LinkedPairUnsplit(l: Ledger, payable: map<string, Provider>, x': Transaction, y': Transaction)
    requires OneOwnerPerRequest(Debitable(l.transactions))
    requires x' in LinkedBy(l, payable) && y' in LinkedBy(l, payable) && x'.requestId == y'.requestId
    ensures x'.payoutId == y'.payoutId
  {
    var link := t => Link(t, Payouts(Debitable(l.transactions), payable), |l.payouts|);
    var x := MapMember(Debitable(l.transactions), link, x');
    var y := MapMember(Debitable(l.transactions), link, y');
    assert x.requestId == y.requestId;
    SameOwnerSamePayout(l, payable, x, y);
  }

  lemma LinkedRequestsUnsplit(l: Ledger, payable: map<string, Provider>)
    requires OneOwnerPerRequest(Debitable(l.transactions))
    ensures OnePayoutPerRequest(LinkedBy(l, payable))
  {
    forall x', y' | x' in LinkedBy(l, payable) && y' in LinkedBy(l, payable) && x'.requestId == y'.requestId
      ensures x'.payoutId == y'.payoutId
    {
      LinkedPairUnsplit(l, payable, x', y');
    }
  }

  /** The rows that a run was given hold all the earnings of its new payouts. */
  lemma EarningsOfNewPayout(l: Ledger, payable: map<string, Provider>, p: nat)
    requires RowsLinked(l) && |l.payouts| <= p
    ensures EarningsIn(LinkedBy(l, payable), p) == EarningsIn(SchedulePayouts(l, payable).transactions, p)
  {
    var ds := Payouts(Debitable(l.transactions), payable);
    var link := x => Link(x, ds, |l.payouts|);
    var e := x => EarningTerm(p, Link(x, ds, |l.payouts|));
    SumMap(Debitable(l.transactions), link, x => EarningTerm(p, x), e);
    SumMap(l.transactions, link, x => EarningTerm(p, x), e);
    forall x | x in l.transactions
      ensures e(x) == if IsDebitable(x) then e(x) else 0
    {
      LinkedRow(l, payable, x);
    }
    SumFilter(l.transactions, (x: Transaction) => IsDebitable(x), e, e);
  }

  /** A line comes from a transaction of its request and carries the row and the payout that the lookup holds for that
      request; it is worth a unit of a package, or the compensation. */
  ghost predicate ComesFrom(l: Line, t: Transaction, all: seq<Transaction>, requests: map<string, RequestInfo>, payable: map<string, Provider>) {
    && IsItemisable(t, requests, payable) && YieldsLine(t, requests[t.requestId.value]) && Payee(t, requests[t.requestId.value]) in payable
    && t.requestId == Some(l.requestId)
    && Lookup(all, t.requestId).Some? && l.payoutId == Lookup(all, t.requestId).value.payoutId
    && l.transactionId == Lookup(all, t.requestId).value.id
    && l.tenant == (if t.kind.Income? then requests[l.requestId].tenant else t.tenant)
    && l.vendorId == payable[Payee(t, requests[l.requestId])].vendorId && l.status.Scheduled?
    && l.sapDocumentPaymentNo.None? && l.paymentDate.None? && l.consumerPromotionAmount == requests[l.requestId].consumerPromotionAmount
    && (if t.kind.Income? then
          l.itemType.ServicePackage? && exists i :: i in requests[l.requestId].items && i.quantity > 0
                                               && l.amount == i.serviceProviderUnitPrice && l.itemSalesAmount == i.consumerUnitPrice
        else
          l.itemType.RescheduleSurcharge? && l.amount == t.amount && l.itemSalesAmount == requests[l.requestId].consumerSurchargeAmount)
  }

  lemma {:induction false} PackageLineOrigin(id: string, r: RequestInfo, owner: Provider, items: seq<Item>, link: Transaction, l: Line)
    requires l in PackageLines(id, r, owner, items, link)
    ensures exists i :: i in items && i.quantity > 0 && l == PackageLine(id, r, owner, i, link)
  {
    var front, last := items[..|items| - 1], items[|items| - 1];
    assert items == front + [last];
    if l in PackageLines(id, r, owner, front, link) {
      PackageLineOrigin(id, r, owner, front, link, l);
    }
  }

  lemma LineOriginOf(t: Transaction, all: seq<Transaction>, requests: map<string, RequestInfo>, payable: map<string, Provider>, l: Line)
    requires IsEarning(t) && t in all && LinesOf(t, Lookup(all, t.requestId), requests, payable).Ok?
    requires l in LinesOf(t, Lookup(all, t.requestId), requests, payable).value
    ensures ComesFrom(l, t, all, requests, payable)
  {
    var r := requests[t.requestId.value];
    if t.kind.Income? && r.items != [] {
      PackageLineOrigin(t.requestId.value, r, payable[r.dispatcherId], r.items, Lookup(all, t.requestId).value, l);
    }
  }

  lemma {:induction false} KindLineOrigin(kind: TransactionType, ts: seq<Transaction>, all: seq<Transaction>,
                                          requests: map<string, RequestInfo>, payable: map<string, Provider>, l: Line)
    requires forall t :: t in ts ==> IsEarning(t) && t in all
    requires KindLines(kind, ts, all, requests, payable).Ok? && l in KindLines(kind, ts, all, requests, payable).value
    ensures exists t :: t in ts && ComesFrom(l, t, all, requests, payable)
  {
    if ts != [] {
      var front, t := ts[..|ts| - 1], ts[|ts| - 1];
      assert forall u :: u in front ==> u in ts;
      if l in KindLines(kind, front, all, requests, payable).value {
        KindLineOrigin(kind, front, all, requests, payable, l);
      } else {
        LineOriginOf(t, all, requests, payable, l);
      }
    }
  }

  /** Every line of a run comes from one of its transactions. */
  lemma NewLineOrigin(t: Tables, payable: map<string, Provider>, requests: map<string, RequestInfo>, l: Line) returns (x': Transaction)
    requires AllLines(LinkedBy(t.ledger, payable), requests, payable).Ok?
    requires l in AllLines(LinkedBy(t.ledger, payable), requests, payable).value
    ensures x' in LinkedBy(t.ledger, payable) && ComesFrom(l, x', LinkedBy(t.ledger, payable), requests, payable)
  {
    var ts := LinkedBy(t.ledger, payable);
    forall x | x in ts
      ensures IsEarning(x)
    {
      var _ := LinkedByMembers(t.ledger, payable, x);
    }
    if l in KindLines(Income, ts, ts, requests, payable).value {
      KindLineOrigin(Income, ts, ts, requests, payable, l);
    } else {
      KindLineOrigin(RescheduleSurchargeCompensation, ts, ts, requests, payable, l);
    }
    x' :| x' in ts && ComesFrom(l, x', ts, requests, payable);
  }

  lemma NewLinesComeFrom(t: Tables, payable: map<string, Provider>, requests: map<string, RequestInfo>, l: Line)
    requires AllLines(LinkedBy(t.ledger, payable), requests, payable).Ok?
    requires l in AllLines(LinkedBy(t.ledger, payable), requests, payable).value
    ensures exists x :: x in LinkedBy(t.ledger, payable) && ComesFrom(l, x, LinkedBy(t.ledger, payable), requests, payable)
  {
    var x := NewLineOrigin(t, payable, requests, l);
  }

  /** The transaction can be itemised, and if it has a line, the last transaction of its request is a payable owner's, so
      that the line finds a payout. */
  predicate IsStorable(x: Transaction, ts: seq<Transaction>, requests: map<string, RequestInfo>, payable: map<string, Provider>) {
    && IsItemisable(x, requests, payable)
    && (YieldsLine(x, requests[x.requestId.value]) ==>
          Lookup(ts, x.requestId).Some? && Lookup(ts, x.requestId).value.ownerId in payable)
  }

  /** What the lookup over the linked rows holds: a payout exactly if the last transaction of the request has a payable owner. */
  lemma LinkedLookup(l: Ledger, payable: map<string, Provider>, requestId: Option<string>)
    ensures var ts := Debitable(l.transactions);
            && (Lookup(LinkedBy(l, payable), requestId).Some? <==> Lookup(ts, requestId).Some?)
            && (Lookup(ts, requestId).Some? ==>
                  (Lookup(LinkedBy(l, payable), requestId).value.payoutId.Some? <==> Lookup(ts, requestId).value.ownerId in payable))
  {
    var ts := Debitable(l.transactions);
    LookupOfMap(ts, x => Link(x, Payouts(ts, payable), |l.payouts|), requestId);
    if Lookup(ts, requestId).Some? {
      LinkOf(l, payable, Lookup(ts, requestId).value);
    }
  }

  lemma ItemisedAlike(l: Ledger, payable: map<string, Provider>, requests: map<string, RequestInfo>, i: nat)
    requires i < |Debitable(l.transactions)|
    ensures var x, x' := Debitable(l.transactions)[i], LinkedBy(l, payable)[i];
            && x' in LinkedBy(l, payable) && IsEarning(x') && x' == x.(payoutId := x'.payoutId)
            && (IsItemisable(x', requests, payable) <==> IsItemisable(x, requests, payable))
  {
    assert Debitable(l.transactions)[i] in Debitable(l.transactions);
    LinkOf(l, payable, Debitable(l.transactions)[i]);
  }

  lemma LinesMadeForRun(t: Tables, payable: map<string, Provider>, requests: map<string, RequestInfo>)
    ensures AllLines(LinkedBy(t.ledger, payable), requests, payable).Ok?
       <==> forall x :: x in Debitable(t.ledger.transactions) ==> IsItemisable(x, requests, payable)
  {
    var ts, ts' := Debitable(t.ledger.transactions), LinkedBy(t.ledger, payable);
    forall i | 0 <= i < |ts|
      ensures ts'[i] in ts' && IsEarning(ts'[i]) && (IsItemisable(ts'[i], requests, payable) <==> IsItemisable(ts[i], requests, payable))
    {
      ItemisedAlike(t.ledger, payable, requests, i);
    }
    LinesMadeIff(ts', requests, payable);
  }

  /** If a transaction has a line, the run's lines hold one with the payout that the lookup holds for its request. */
  lemma LineOf(t: Tables, payable: map<string, Provider>, requests: map<string, RequestInfo>, x': Transaction) returns (l: Line)
    requires x' in LinkedBy(t.ledger, payable) && AllLines(LinkedBy(t.ledger, payable), requests, payable).Ok?
    requires x'.requestId.Some? && x'.requestId.value in requests && YieldsLine(x', requests[x'.requestId.value])
    ensures l in AllLines(LinkedBy(t.ledger, payable), requests, payable).value
    ensures Lookup(LinkedBy(t.ledger, payable), x'.requestId).Some?
    ensures l.payoutId == Lookup(LinkedBy(t.ledger, payable), x'.requestId).value.payoutId
  {
    var ts' := LinkedBy(t.ledger, payable);
    var x := LinkedByMembers(t.ledger, payable, x');
    var link := Lookup(ts', x'.requestId);
    KindLinesHold(x'.kind, ts', ts', requests, payable, x');
    YieldsLineIff(x', link, requests, payable);
    l := LinesOf(x', link, requests, payable).value[0];
    LineOriginOf(x', ts', requests, payable, l);
  }

  lemma StorableIfMade(t: Tables, payable: map<string, Provider>, requests: map<string, RequestInfo>, x: Transaction)
    requires x in Debitable(t.ledger.transactions) && Schedule(t, payable, requests).failure.None?
    ensures IsStorable(x, Debitable(t.ledger.transactions), requests, payable)
  {
    LinesMadeForRun(t, payable, requests);
    var ts := Debitable(t.ledger.transactions);
    var i :| 0 <= i < |ts| && ts[i] == x;
    ItemisedAlike(t.ledger, payable, requests, i);
    var x' := LinkedBy(t.ledger, payable)[i];
    if YieldsLine(x, requests[x.requestId.value]) {
      var l := LineOf(t, payable, requests, x');
      LinkedLookup(t.ledger, payable, x.requestId);
    }
  }

  lemma LineStored(t: Tables, payable: map<string, Provider>, requests: map<string, RequestInfo>, l: Line)
    requires forall x :: x in Debitable(t.ledger.transactions) ==> IsStorable(x, Debitable(t.ledger.transactions), requests, payable)
    requires AllLines(LinkedBy(t.ledger, payable), requests, payable).Ok?
    requires l in AllLines(LinkedBy(t.ledger, payable), requests, payable).value
    ensures l.payoutId.Some?
  {
    var x' := NewLineOrigin(t, payable, requests, l);
    var x := LinkedByMembers(t.ledger, payable, x');
    assert IsStorable(x, Debitable(t.ledger.transactions), requests, payable);
    LinkedLookup(t.ledger, payable, x.requestId);
  }

  /** A scheduling run stores its lines exactly if each of its debitable transactions can be itemised and finds a payout. */
  lemma ScheduleMakesLinesIff(t: Tables, payable: map<string, Provider>, requests: map<string, RequestInfo>)
    ensures Schedule(t, payable, requests).failure.None?
       <==> forall x :: x in Debitable(t.ledger.transactions) ==> IsStorable(x, Debitable(t.ledger.transactions), requests, payable)
  {
    var ts := Debitable(t.ledger.transactions);
    LinesMadeForRun(t, payable, requests);
    if Schedule(t, payable, requests).failure.None? {
      forall x | x in ts
        ensures IsStorable(x, ts, requests, payable)
      {
        StorableIfMade(t, payable, requests, x);
      }
    } else if forall x :: x in ts ==> IsStorable(x, ts, requests, payable) {
      forall l | l in AllLines(LinkedBy(t.ledger, payable), requests, payable).value
        ensures l.payoutId.Some?
      {
        LineStored(t, payable, requests, l);
      }
    }
  }

  lemma GuardedRunStores(t: Tables, payable: map<string, Provider>, requests: map<string, RequestInfo>)
    requires AmountsGuard(t, payable, requests)
    ensures Schedule(t, payable, requests).failure.None?
  {
    var ts := Debitable(t.ledger.transactions);
    forall x | x in ts
      ensures IsStorable(x, ts, requests, payable)
    {
      assert Lookup(ts, x.requestId).Some?;
    }
    ScheduleMakesLinesIff(t, payable, requests);
  }

  /** The lines that a run makes for a new payout add up to its amount: prices, income, payout and lines agree. */
  lemma NewLinesAddUp(t: Tables, payable: map<string, Provider>, requests: map<string, RequestInfo>, p: nat)
    requires Sound(t.ledger) && AmountsGuard(t, payable, requests)
    requires |t.ledger.payouts| <= p < |Schedule(t, payable, requests).tables.ledger.payouts|
    ensures AllLines(LinkedBy(t.ledger, payable), requests, payable).Ok?
    ensures LinesIn(AllLines(LinkedBy(t.ledger, payable), requests, payable).value, p)
         == Schedule(t, payable, requests).tables.ledger.payouts[p].amount
  {
    LinesMadeForRun(t, payable, requests);
    LinkedRequestsUnsplit(t.ledger, payable);
    forall x' | x' in LinkedBy(t.ledger, payable)
      ensures IsEarning(x') && EarnedOnOrder(x', requests)
    {
      var x := LinkedByMembers(t.ledger, payable, x');
    }
    LinesMatchEarnings(LinkedBy(t.ledger, payable), requests, payable, p);
    EarningsOfNewPayout(t.ledger, payable, p);
    SchedulePayoutsKeepsSound(t.ledger, payable);
  }

  /** A line of a guarded run belongs to a new payout of its tenant, is fresh, and opens its (request, vendor) pair. */
  lemma NewLineIsFresh(t: Tables, payable: map<string, Provider>, requests: map<string, RequestInfo>, l: Line)
    requires Sound(t.ledger) && ScheduleGuard(t, payable, requests)
    requires AllLines(LinkedBy(t.ledger, payable), requests, payable).Ok?
    requires l in AllLines(LinkedBy(t.ledger, payable), requests, payable).value
    ensures l.status.Scheduled? && LineLinked(SchedulePayouts(t.ledger, payable).payouts, l) && |t.ledger.payouts| <= l.payoutId.value
    ensures forall m :: m in t.lines && l.requestId == m.requestId && l.vendorId.Some? ==> l.vendorId != m.vendorId
  {
    var ts' := LinkedBy(t.ledger, payable);
    var x' := NewLineOrigin(t, payable, requests, l);
    var x := LinkedByMembers(t.ledger, payable, x');
    assert x in t.ledger.transactions by {
      DebitableMembers(t.ledger);
    }
    assert IsSchedulable(x, t.lines, payable, requests);
    LinkedRequestsUnsplit(t.ledger, payable);
    assert Lookup(ts', x'.requestId).value in ts';
  }

  /** The lines of a guarded run belong to its new payouts, are fresh, and do not split a (request, vendor) pair. */
  lemma NewLinesAreFresh(t: Tables, payable: map<string, Provider>, requests: map<string, RequestInfo>)
    requires Sound(t.ledger) && ScheduleGuard(t, payable, requests)
    ensures Schedule(t, payable, requests).failure.None? && AllLines(LinkedBy(t.ledger, payable), requests, payable).Ok?
    ensures var lines := AllLines(LinkedBy(t.ledger, payable), requests, payable).value;
            && (forall l :: l in lines ==>
                  l.status.Scheduled? && LineLinked(SchedulePayouts(t.ledger, payable).payouts, l) && |t.ledger.payouts| <= l.payoutId.value)
            && (forall l, m :: l in lines && m in lines && l.requestId == m.requestId ==> l.payoutId == m.payoutId)
            && (forall l, m :: l in lines && m in t.lines && l.requestId == m.requestId && l.vendorId.Some? ==> l.vendorId != m.vendorId)
  {
    GuardedRunStores(t, payable, requests);
    var ts := LinkedBy(t.ledger, payable);
    var lines := AllLines(ts, requests, payable).value;
    forall l | l in lines
      ensures l.status.Scheduled? && LineLinked(SchedulePayouts(t.ledger, payable).payouts, l) && |t.ledger.payouts| <= l.payoutId.value
      ensures forall m :: m in t.lines && l.requestId == m.requestId && l.vendorId.Some? ==> l.vendorId != m.vendorId
    {
      NewLineIsFresh(t, payable, requests, l);
    }
    forall l, m | l in lines && m in lines && l.requestId == m.requestId
      ensures l.payoutId == m.payoutId
    {
      var x := NewLineOrigin(t, payable, requests, l);
      var y := NewLineOrigin(t, payable, requests, m);
    }
  }

  lemma ScheduleKeepsAmounts(t: Tables, payable: map<string, Provider>, requests: map<string, RequestInfo>, p: nat)
    requires Tracked(t) && Sound(t.ledger) && ScheduleGuard(t, payable, requests)
    requires p < |Schedule(t, payable, requests).tables.ledger.payouts|
    ensures AmountsTrack(Schedule(t, payable, requests).tables.ledger.payouts[p], Schedule(t, payable, requests).tables.lines, p)
  {
    NewLinesAreFresh(t, payable, requests);
    var lines := AllLines(LinkedBy(t.ledger, payable), requests, payable).value;
    SumAppend(t.lines, lines, l => LineTerm(p, l));
    SumAppend(t.lines, lines, l => PaidTerm(p, l));
    SumZero(lines, l => PaidTerm(p, l));
    if p < |t.ledger.payouts| {
      assert PayoutTracksLines(t, p);
      SumZero(lines, l => LineTerm(p, l));
      assert HasLines(t.lines + lines, p) ==> HasLines(t.lines, p);
    } else {
      SumZero(t.lines, l => LineTerm(p, l));
      SumZero(t.lines, l => PaidTerm(p, l));
      NewLinesAddUp(t, payable, requests, p);
    }
  }

  lemma ScheduleKeepsStatus(t: Tables, payable: map<string, Provider>, requests: map<string, RequestInfo>, p: nat)
    requires Tracked(t) && Sound(t.ledger) && ScheduleGuard(t, payable, requests)
    requires p < |Schedule(t, payable, requests).tables.ledger.payouts|
    ensures var t' := Schedule(t, payable, requests).tables;
            StatusTracks(t'.ledger.payouts[p], t'.lines, Count(t'.paidEvents, p), p)
  {
    NewLinesAreFresh(t, payable, requests);
    var lines := AllLines(LinkedBy(t.ledger, payable), requests, payable).value;
    if p < |t.ledger.payouts| {
      assert PayoutTracksLines(t, p);
      SameLinesSameStatus(t.ledger.payouts[p], t.lines, t.lines + lines, Count(t.paidEvents, p), p);
    } else {
      SumZero(t.paidEvents, q => if q == p then 1 else 0);
    }
  }

  lemma ScheduleKeepsTracked(t: Tables, payable: map<string, Provider>, requests: map<string, RequestInfo>)
    requires Tracked(t) && Sound(t.ledger) && ScheduleGuard(t, payable, requests)
    ensures Tracked(Schedule(t, payable, requests).tables)
  {
    NewLinesAreFresh(t, payable, requests);
    forall p: nat | p < |Schedule(t, payable, requests).tables.ledger.payouts|
      ensures PayoutTracksLines(Schedule(t, payable, requests).tables, p)
    {
      ScheduleKeepsAmounts(t, payable, requests, p);
      ScheduleKeepsStatus(t, payable, requests, p);
    }
  }

  // ---------- Whole runs ----------

  /** Every scheduling run of `cs` met its guard. */
  predicate IsGuarded(cs: seq<Command>) {
    cs == [] || (var c := cs[|cs| - 1];
      IsGuarded(cs[..|cs| - 1]) && (c.SchedulePayoutRun? ==> ScheduleGuard(Run(cs[..|cs| - 1]), c.payable, c.requests)))
  }

  lemma WalletStepKeepsTracked(t: Tables, l: Ledger)
    requires Tracked(t) && l.payouts == t.ledger.payouts
    ensures Tracked(t.(ledger := l))
  {
    forall p: nat | p < |l.payouts|
      ensures PayoutTracksLines(t.(ledger := l), p)
    {
      assert PayoutTracksLines(t, p);
    }
  }

  lemma ApplyKeepsTracked(t: Tables, c: Command)
    requires Tracked(t) && Sound(t.ledger)
    requires c.SchedulePayoutRun? ==> ScheduleGuard(t, c.payable, c.requests)
    ensures Tracked(Apply(t, c))
  {
    match c
    case SchedulePayoutRun(payable, requests) => ScheduleKeepsTracked(t, payable, requests);
    case UploadFiles(complete, tenant, uploaded) => CreateBatchKeepsTracked(t, complete, tenant, uploaded);
    case StatusReceived(input) => MarkPaidKeepsTracked(t, input);
    case _ => WalletStepKeepsTracked(t, Apply(t, c).ledger);
  }

  lemma {:induction false} RunIsTracked(cs: seq<Command>)
    requires IsGuarded(cs)
    ensures Tracked(Run(cs))
  {
    if cs != [] {
      RunIsTracked(cs[..|cs| - 1]);
      RunIsSound(cs[..|cs| - 1]);
      ApplyKeepsTracked(Run(cs[..|cs| - 1]), cs[|cs| - 1]);
    }
  }

  /** Over every guarded run, with inputs repeated and in any order: the processed amount of a payout is the sum of its
      paid lines and at most its amount; the payout is paid, and its event published, exactly once some line of it is
      paid and nothing is left to pay. If every line is worth something, that is when all are paid, and the event was
      published once. */
  lemma PayoutsOverEveryRun(cs: seq<Command>, p: nat)
    requires IsGuarded(cs) && p < |Run(cs).ledger.payouts|
    ensures var t := Run(cs); var payout := t.ledger.payouts[p];
            && payout.processedAmount == PaidIn(t.lines, p) <= payout.amount
            && (payout.status.Paid? <==> HasPaid(t.lines, p) && Settled(t.lines, p))
            && (Count(t.paidEvents, p) > 0 <==> payout.status.Paid?)
    ensures var t := Run(cs); var payout := t.ledger.payouts[p];
            IsPositive(t.lines, p) ==>
              && (payout.status.Paid? <==> HasLines(t.lines, p) && AllPaid(t.lines, p))
              && Count(t.paidEvents, p) == (if payout.status.Paid? then 1 else 0)
  {
    RunIsTracked(cs);
    RunIsSound(cs);
    var t := Run(cs);
    assert PayoutTracksLines(t, p);
    PaidPart(t.lines, p);
    SumNonNegative(t.paidEvents, q => if q == p then 1 else 0);
    if !HasLines(t.lines, p) {
      SumZero(t.lines, l => LineTerm(p, l));
      SumNonNegative(t.ledger.transactions, x => EarningTerm(p, x));
    }
  }

  /** Every stored line carries a stored payout. */
  predicate LinesHavePayouts(t: Tables) {
    forall l :: l in t.lines ==> l.payoutId.Some? && l.payoutId.value < |t.ledger.payouts|
  }

  lemma ScheduleKeepsPayouts(t: Tables, payable: map<string, Provider>, requests: map<string, RequestInfo>)
    requires LinesHavePayouts(t)
    ensures LinesHavePayouts(Schedule(t, payable, requests).tables)
  {
    if Schedule(t, payable, requests).failure.None? {
      forall l | l in AllLines(LinkedBy(t.ledger, payable), requests, payable).value
        ensures l.payoutId.Some? && l.payoutId.value < |SchedulePayouts(t.ledger, payable).payouts|
      {
        NewLinePayout(t, payable, requests, l);
      }
    }
  }

  /** What a batch and a payment make of the lines: each is rewritten, keeping its payout. */
  lemma RewritesKeepPayouts(t: Tables, h: Line -> Line, p: nat)
    requires forall l :: h(l).payoutId == l.payoutId
    ensures LinesHavePayouts(t) ==> LinesHavePayouts(t.(lines := Map(t.lines, h)))
    ensures !HasLines(t.lines, p) ==> !HasLines(Map(t.lines, h), p)
  {
    RewrittenMembers(t.lines, h);
  }

  lemma BatchRewrites(t: Tables, complete: set<nat>, tenant: Tenant, uploaded: bool)
    ensures var t' := CreateBatch(t, complete, tenant, uploaded).tables;
            && |t'.ledger.payouts| == |t.ledger.payouts|
            && (t'.lines == t.lines || t'.lines == Sending(t, complete, tenant))
  {}

  lemma PaymentRewrites(t: Tables, input: PaidInput)
    ensures var t' := MarkPaid(t, input).tables;
            |t'.ledger.payouts| == |t.ledger.payouts| && (t'.lines == t.lines || t'.lines == Paying(t.lines, input))
  {}

  lemma ApplyKeepsPayouts(t: Tables, c: Command)
    requires LinesHavePayouts(t)
    ensures LinesHavePayouts(Apply(t, c))
  {
    match c
    case SchedulePayoutRun(payable, requests) => ScheduleKeepsPayouts(t, payable, requests);
    case UploadFiles(complete, tenant, uploaded) =>
      BatchRewrites(t, complete, tenant, uploaded);
      RewritesKeepPayouts(t, l => LineInTransit(t.ledger.payouts, complete, tenant, l), 0);
    case StatusReceived(input) =>
      PaymentRewrites(t, input);
      RewritesKeepPayouts(t, l => PayLine(l, input), 0);
    case _ =>
  }

  /** A line made by a run carries a new payout, or none. */
  lemma NewLinePayout(t: Tables, payable: map<string, Provider>, requests: map<string, RequestInfo>, l: Line)
    requires AllLines(LinkedBy(t.ledger, payable), requests, payable).Ok?
    requires l in AllLines(LinkedBy(t.ledger, payable), requests, payable).value
    ensures l.payoutId.Some? ==> |t.ledger.payouts| <= l.payoutId.value < |SchedulePayouts(t.ledger, payable).payouts|
  {
    var x' := NewLineOrigin(t, payable, requests, l);
    var x := LinkedByMembers(t.ledger, payable, Lookup(LinkedBy(t.ledger, payable), x'.requestId).value);
  }

  lemma {:induction false} RunKeepsPayouts(cs: seq<Command>)
    ensures LinesHavePayouts(Run(cs))
  {
    if cs != [] {
      RunKeepsPayouts(cs[..|cs| - 1]);
      ApplyKeepsPayouts(Run(cs[..|cs| - 1]), cs[|cs| - 1]);
    }
  }

  /** After any run whatsoever: a scheduling run that meets the plain guard stores its lines, and all the stored lines of
      each of its payouts add up to its amount. */
  lemma LinesAddUpToPayout(cs: seq<Command>, payable: map<string, Provider>, requests: map<string, RequestInfo>, p: nat)
    requires AmountsGuard(Run(cs), payable, requests)
    requires |Run(cs).ledger.payouts| <= p < |Schedule(Run(cs), payable, requests).tables.ledger.payouts|
    ensures Schedule(Run(cs), payable, requests).failure.None?
    ensures var t' := Schedule(Run(cs), payable, requests).tables;
            LinesIn(t'.lines, p) == t'.ledger.payouts[p].amount
  {
    var t := Run(cs);
    RunIsSound(cs);
    RunKeepsPayouts(cs);
    GuardedRunStores(t, payable, requests);
    NewLinesAddUp(t, payable, requests, p);
    SumAppend(t.lines, AllLines(LinkedBy(t.ledger, payable), requests, payable).value, l => LineTerm(p, l));
    SumZero(t.lines, l => LineTerm(p, l));
  }

  /** A batch never meets a line in the wrong state, so every uploaded batch is recorded as in transit. */
  lemma UploadedBatchIsInTransit(cs: seq<Command>, complete: set<nat>, tenant: Tenant)
    requires IsGuarded(cs)
    ensures var t := Run(cs); var t' := CreateBatch(t, complete, tenant, true).tables;
            t' == t || (t' == Sent(t, complete, tenant).(batches := t'.batches) && t'.batches[|t.batches|].status.BatchInTransit?)
  {
    RunIsTracked(cs);
    var t := Run(cs);
    BatchNeverStops(t, complete, tenant);
    BatchMembers(t, complete, tenant);
  }

  function Rank(s: PayoutStatus): nat {
    match s
    case Scheduled => 0
    case InTransit => 1
    case Paid => 2
  }

  /** Lines are kept, advance one way, and a paid line never changes again. */
  ghost predicate LinesAdvance(lines: seq<Line>, lines': seq<Line>) {
    && |lines| <= |lines'|
    && (forall i :: 0 <= i < |lines| ==>
          && lines'[i].(status := lines[i].status, sapDocumentPaymentNo := lines[i].sapDocumentPaymentNo, paymentDate := lines[i].paymentDate) == lines[i]
          && Rank(lines[i].status) <= Rank(lines'[i].status)
          && (lines[i].status.Paid? ==> lines'[i] == lines[i]))
  }

  lemma BatchAdvancesLines(t: Tables, complete: set<nat>, tenant: Tenant, uploaded: bool)
    ensures LinesAdvance(t.lines, CreateBatch(t, complete, tenant, uploaded).tables.lines)
  {
    BatchMembers(t, complete, tenant);
    assert forall i :: 0 <= i < |t.lines| ==> t.lines[i] in t.lines;
  }

  lemma PaymentAdvancesLines(t: Tables, input: PaidInput)
    ensures LinesAdvance(t.lines, MarkPaid(t, input).tables.lines)
  {
    FilterMembers(t.lines, (l: Line) => IsNamed(l, input));
    assert forall i :: 0 <= i < |t.lines| ==> t.lines[i] in t.lines;
  }

  lemma ApplyAdvancesLines(t: Tables, c: Command)
    ensures LinesAdvance(t.lines, Apply(t, c).lines)
  {
    match c
    case UploadFiles(complete, tenant, uploaded) => BatchAdvancesLines(t, complete, tenant, uploaded);
    case StatusReceived(input) => PaymentAdvancesLines(t, input);
    case _ =>
  }

  lemma AdvanceTransitive(a: seq<Line>, b: seq<Line>, c: seq<Line>)
    requires LinesAdvance(a, b) && LinesAdvance(b, c)
    ensures LinesAdvance(a, c)
  {
    forall i | 0 <= i < |a|
      ensures c[i].(status := a[i].status, sapDocumentPaymentNo := a[i].sapDocumentPaymentNo, paymentDate := a[i].paymentDate) == a[i]
      ensures Rank(a[i].status) <= Rank(c[i].status) && (a[i].status.Paid? ==> c[i] == a[i])
    {
      assert b[i].itemType == a[i].itemType;
    }
  }

  lemma LastCommandAdvancesLines(cs: seq<Command>)
    requires cs != []
    ensures LinesAdvance(Run(cs[..|cs| - 1]).lines, Run(cs).lines)
  {
    ApplyAdvancesLines(Run(cs[..|cs| - 1]), cs[|cs| - 1]);
  }

  /** Over every run whatsoever lines are kept and only advance, and once a line is paid no later input changes it. */
  lemma {:induction false} LinesPaidOnce(cs: seq<Command>, ds: seq<Command>)
    ensures LinesAdvance(Run(cs).lines, Run(cs + ds).lines)
  {
    var all := cs + ds;
    if ds == [] {
      assert all == cs;
    } else {
      var front := ds[..|ds| - 1];
      assert all[..|all| - 1] == cs + front;
      LinesPaidOnce(cs, front);
      LastCommandAdvancesLines(all);
      AdvanceTransitive(Run(cs).lines, Run(cs + front).lines, Run(all).lines);
    }
  }

  // ---------- What goes wrong outside the guard ----------

  lemma PaidSiblingBlocks(t: Tables, c: Command, i: nat, j: nat)
    requires i < |t.lines| && j < |t.lines| && t.lines[i].status.Paid? && !t.lines[j].status.Paid?
    requires t.lines[i].requestId == t.lines[j].requestId && t.lines[i].vendorId == t.lines[j].vendorId
    ensures j < |Apply(t, c).lines| && !Apply(t, c).lines[j].status.Paid?
  {
    ApplyAdvancesLines(t, c);
    if c.StatusReceived? {
      FilterMembers(t.lines, (l: Line) => IsNamed(l, c.input));
      assert t.lines[i] in t.lines;
      assert IsNamed(t.lines[i], c.input) ==> t.lines[i] in Named(t.lines, c.input);
    }
  }

  lemma LastCommandBlocks(cs: seq<Command>, i: nat, j: nat)
    requires cs != []
    requires var lines := Run(cs[..|cs| - 1]).lines;
             && i < |lines| && j < |lines| && lines[i].status.Paid? && !lines[j].status.Paid?
             && lines[i].requestId == lines[j].requestId && lines[i].vendorId == lines[j].vendorId
    ensures j < |Run(cs).lines| && !Run(cs).lines[j].status.Paid?
  {
    PaidSiblingBlocks(Run(cs[..|cs| - 1]), cs[|cs| - 1], i, j);
  }

  /** Once one line of a (request, vendor) pair is paid while another is not, the other is never paid in any later run. */
  lemma {:induction false} SplitPairIsStuck(cs: seq<Command>, ds: seq<Command>, i: nat, j: nat)
    requires i < |Run(cs).lines| && j < |Run(cs).lines| && Run(cs).lines[i].status.Paid? && !Run(cs).lines[j].status.Paid?
    requires Run(cs).lines[i].requestId == Run(cs).lines[j].requestId && Run(cs).lines[i].vendorId == Run(cs).lines[j].vendorId
    ensures j < |Run(cs + ds).lines| && !Run(cs + ds).lines[j].status.Paid?
  {
    var all := cs + ds;
    if ds == [] {
      assert all == cs;
    } else {
      var front := ds[..|ds| - 1];
      assert all[..|all| - 1] == cs + front;
      SplitPairIsStuck(cs, front, i, j);
      LinesPaidOnce(cs, front);
      LastCommandBlocks(all, i, j);
    }
  }

  /** No step makes a line for a payout that is stored already. */
  lemma OldPayoutsGetNoLines(t: Tables, c: Command, p: nat)
    requires p < |t.ledger.payouts| && !HasLines(t.lines, p)
    ensures !HasLines(Apply(t, c).lines, p) && p < |Apply(t, c).ledger.payouts|
  {
    match c
    case SchedulePayoutRun(payable, requests) => RunMakesNoOldLines(t, payable, requests, p);
    case UploadFiles(complete, tenant, uploaded) =>
      BatchRewrites(t, complete, tenant, uploaded);
      RewritesKeepPayouts(t, l => LineInTransit(t.ledger.payouts, complete, tenant, l), p);
    case StatusReceived(input) =>
      PaymentRewrites(t, input);
      RewritesKeepPayouts(t, l => PayLine(l, input), p);
    case _ =>
  }

  lemma RunMakesNoOldLines(t: Tables, payable: map<string, Provider>, requests: map<string, RequestInfo>, p: nat)
    requires p < |t.ledger.payouts| && !HasLines(t.lines, p)
    ensures !HasLines(Schedule(t, payable, requests).tables.lines, p) && p < |Schedule(t, payable, requests).tables.ledger.payouts|
  {
    if Schedule(t, payable, requests).failure.None? {
      forall l | l in AllLines(LinkedBy(t.ledger, payable), requests, payable).value
        ensures l.payoutId != Some(p)
      {
        NewLinePayout(t, payable, requests, l);
      }
    }
  }

  lemma LastCommandMakesNoLines(cs: seq<Command>, p: nat)
    requires cs != [] && p < |Run(cs[..|cs| - 1]).ledger.payouts| && !HasLines(Run(cs[..|cs| - 1]).lines, p)
    ensures p < |Run(cs).ledger.payouts| && !HasLines(Run(cs).lines, p)
  {
    OldPayoutsGetNoLines(Run(cs[..|cs| - 1]), cs[|cs| - 1], p);
  }

  /** A payout that has no lines, as those of a run that failed to make them, never gets any in any later run. */
  lemma {:induction false} LinelessForever(cs: seq<Command>, ds: seq<Command>, p: nat)
    requires p < |Run(cs).ledger.payouts| && !HasLines(Run(cs).lines, p)
    ensures p < |Run(cs + ds).ledger.payouts| && !HasLines(Run(cs + ds).lines, p)
  {
    var all := cs + ds;
    if ds == [] {
      assert all == cs;
    } else {
      var front := ds[..|ds| - 1];
      assert all[..|all| - 1] == cs + front;
      LinelessForever(cs, front, p);
      LastCommandMakesNoLines(all, p);
    }
  }
}
