/** The itemised lines of a scheduling run: one per unit of a service package, one per surcharge compensation. */
module PayoutLines {
  import opened Wrappers
  import opened Sums
  import opened PayoutFactory
  import opened WalletLedger

  datatype Item = Item(quantity: nat, consumerUnitPrice: int, serviceProviderUnitPrice: int)

  /** What the line factory reads of a service request. */
  datatype RequestInfo = RequestInfo(
    dispatcherId: string,
    tenant: Tenant,
    items: seq<Item>,
    consumerPromotionAmount: int,
    consumerSurchargeAmount: int)

  datatype ItemType = ServicePackage | RescheduleSurcharge

  datatype Line = Line(
    requestId: string,
    vendorId: Option<string>,
    tenant: Tenant,
    itemType: ItemType,
    amount: int,
    itemSalesAmount: int,
    consumerPromotionAmount: int,
    transactionId: nat,
    payoutId: Option<nat>,
    status: PayoutStatus,
    sapDocumentPaymentNo: Option<string>,
    paymentDate: Option<string>)

  /** A property of an undefined lookup result was read. */
  datatype LineError = RequestMissing | OwnerNotPayable

  type Lines = Result<seq<Line>, LineError>

  /** The transaction lookup is keyed by request alone, so the last transaction of a request wins. */
  function Lookup(ts: seq<Transaction>, requestId: Option<string>): (r: Option<Transaction>)
    ensures r.Some? ==> r.value in ts && r.value.requestId == requestId
    ensures r.None? ==> forall t :: t in ts ==> t.requestId != requestId
  {
    if ts == [] then None
    else
      assert ts == ts[..|ts| - 1] + [ts[|ts| - 1]];
      if ts[|ts| - 1].requestId == requestId then Some(ts[|ts| - 1])
      else Lookup(ts[..|ts| - 1], requestId)
  }

  function PackageLine(requestId: string, r: RequestInfo, owner: Provider, item: Item, link: Transaction): Line {
    Line(requestId, owner.vendorId, r.tenant, ServicePackage, item.serviceProviderUnitPrice, item.consumerUnitPrice,
         r.consumerPromotionAmount, link.id, link.payoutId, Scheduled, None, None)
  }

  function Repeat(line: Line, n: nat): seq<Line> {
    seq(n, _ => line)
  }

  function PackageLines(requestId: string, r: RequestInfo, owner: Provider, items: seq<Item>, link: Transaction): seq<Line> {
    if items == [] then []
    else
      var last := items[|items| - 1];
      PackageLines(requestId, r, owner, items[..|items| - 1], link) + Repeat(PackageLine(requestId, r, owner, last, link), last.quantity)
  }

  function SurchargeLine(requestId: string, r: RequestInfo, owner: Provider, t: Transaction, link: Transaction): Line {
    Line(requestId, owner.vendorId, t.tenant, RescheduleSurcharge, t.amount, r.consumerSurchargeAmount,
         r.consumerPromotionAmount, link.id, link.payoutId, Scheduled, None, None)
  }

  /** The lines of one transaction; `link` is what the lookup holds for its request. */
  function LinesOf(t: Transaction, link: Option<Transaction>, requests: map<string, RequestInfo>, payable: map<string, Provider>): Lines {
    if t.requestId.None? || t.requestId.value !in requests || link.None? then Err(RequestMissing)
    else
      var r := requests[t.requestId.value];
      if t.kind.Income? then
        if r.items == [] then Ok([])
        else if r.dispatcherId !in payable then Err(OwnerNotPayable)
        else Ok(PackageLines(t.requestId.value, r, payable[r.dispatcherId], r.items, link.value))
      else if t.ownerId !in payable then Err(OwnerNotPayable)
      else Ok([SurchargeLine(t.requestId.value, r, payable[t.ownerId], t, link.value)])
  }

  /** The lines of the transactions of one kind, in order. */
  function KindLines(kind: TransactionType, ts: seq<Transaction>, all: seq<Transaction>,
                     requests: map<string, RequestInfo>, payable: map<string, Provider>): Lines {
    if ts == [] then Ok([])
    else
      var t := ts[|ts| - 1];
      match KindLines(kind, ts[..|ts| - 1], all, requests, payable)
      case Err(e) => Err(e)
      case Ok(lines) =>
        if t.kind != kind then Ok(lines)
        else
          match LinesOf(t, Lookup(all, t.requestId), requests, payable)
          case Err(e) => Err(e)
          case Ok(more) => Ok(lines + more)
  }

  function AllLines(ts: seq<Transaction>, requests: map<string, RequestInfo>, payable: map<string, Provider>): Lines {
    match KindLines(Income, ts, ts, requests, payable)
    case Err(e) => Err(e)
    case Ok(lines) =>
      match KindLines(RescheduleSurchargeCompensation, ts, ts, requests, payable)
      case Err(e) => Err(e)
      case Ok(more) => Ok(lines + more)
  }

  method GenerateLookup(ts: seq<Transaction>) returns (lookup: map<Option<string>, Transaction>)
    ensures forall r :: r in lookup <==> Lookup(ts, r).Some?
    ensures forall r :: r in lookup ==> Lookup(ts, r) == Some(lookup[r])
  {
    lookup := map[];
    for i := 0 to |ts|
      invariant forall r :: r in lookup <==> Lookup(ts[..i], r).Some?
      invariant forall r :: r in lookup ==> Lookup(ts[..i], r) == Some(lookup[r])
    {
      assert ts[..i + 1][..i] == ts[..i];
      lookup := lookup[ts[i].requestId := ts[i]];
    }
    assert ts[..|ts|] == ts;
  }

  /** One unit of each package at a time; a package whose dispatcher is not payable stops the run. */
  method PackageLinesOf(t: Transaction, requests: map<string, RequestInfo>, payable: map<string, Provider>,
                        lookup: map<Option<string>, Transaction>) returns (result: Lines)
    requires t.kind.Income? && t.requestId in lookup
    ensures result == LinesOf(t, Some(lookup[t.requestId]), requests, payable)
  {
    if t.requestId.None? || t.requestId.value !in requests {
      return Err(RequestMissing);
    }
    var r := requests[t.requestId.value];
    var lines: seq<Line> := [];
    for j := 0 to |r.items|
      invariant j == 0 ==> lines == []
      invariant j > 0 ==> r.dispatcherId in payable
      invariant j > 0 ==> lines == PackageLines(t.requestId.value, r, payable[r.dispatcherId], r.items[..j], lookup[t.requestId])
    {
      assert r.items[..j + 1][..j] == r.items[..j];
      if r.dispatcherId !in payable {
        return Err(OwnerNotPayable);
      }
      var line := PackageLine(t.requestId.value, r, payable[r.dispatcherId], r.items[j], lookup[t.requestId]);
      ghost var before := lines;
      for k := 0 to r.items[j].quantity
        invariant lines == before + Repeat(line, k)
      {
        lines := lines + [line];
      }
    }
    assert r.items[..|r.items|] == r.items;
    return Ok(lines);
  }

  method GenerateIncomeLines(ts: seq<Transaction>, requests: map<string, RequestInfo>, payable: map<string, Provider>)
    returns (result: Lines)
    ensures result == KindLines(Income, ts, ts, requests, payable)
  {
    var lookup := GenerateLookup(ts);
    var lines: seq<Line> := [];
    for i := 0 to |ts|
      invariant KindLines(Income, ts[..i], ts, requests, payable) == Ok(lines)
    {
      assert ts[..i + 1][..i] == ts[..i];
      if ts[i].kind.Income? {
        assert ts[i] in ts;
        var more := PackageLinesOf(ts[i], requests, payable, lookup);
        if more.Err? {
          KindLinesFail(Income, ts, i, ts, requests, payable);
          return more;
        }
        lines := lines + more.value;
      }
    }
    assert ts[..|ts|] == ts;
    return Ok(lines);
  }

  method GenerateRescheduleSurchargeLines(ts: seq<Transaction>, requests: map<string, RequestInfo>, payable: map<string, Provider>)
    returns (result: Lines)
    ensures result == KindLines(RescheduleSurchargeCompensation, ts, ts, requests, payable)
  {
    var lookup := GenerateLookup(ts);
    var lines: seq<Line> := [];
    for i := 0 to |ts|
      invariant KindLines(RescheduleSurchargeCompensation, ts[..i], ts, requests, payable) == Ok(lines)
    {
      assert ts[..i + 1][..i] == ts[..i];
      var t := ts[i];
      if t.kind.RescheduleSurchargeCompensation? {
        if t.requestId.None? || t.requestId.value !in requests {
          KindLinesFail(RescheduleSurchargeCompensation, ts, i, ts, requests, payable);
          return Err(RequestMissing);
        }
        assert ts[i] in ts;
        if t.ownerId !in payable {
          KindLinesFail(RescheduleSurchargeCompensation, ts, i, ts, requests, payable);
          return Err(OwnerNotPayable);
        }
        lines := lines + [SurchargeLine(t.requestId.value, requests[t.requestId.value], payable[t.ownerId], t, lookup[t.requestId])];
      }
    }
    assert ts[..|ts|] == ts;
    return Ok(lines);
  }

  method Create(ts: seq<Transaction>, requests: map<string, RequestInfo>, payable: map<string, Provider>) returns (result: Lines)
    ensures result == AllLines(ts, requests, payable)
  {
    var income := GenerateIncomeLines(ts, requests, payable);
    if income.Err? {
      return income;
    }
    var surcharge := GenerateRescheduleSurchargeLines(ts, requests, payable);
    if surcharge.Err? {
      return surcharge;
    }
    return Ok(income.value + surcharge.value);
  }

  /** The first transaction whose lines cannot be made decides the error of the whole run. */
  lemma {:induction false} KindLinesFail(kind: TransactionType, ts: seq<Transaction>, i: nat, all: seq<Transaction>,
                                         requests: map<string, RequestInfo>, payable: map<string, Provider>)
    requires i < |ts| && ts[i].kind == kind
    requires KindLines(kind, ts[..i], all, requests, payable).Ok?
    requires LinesOf(ts[i], Lookup(all, ts[i].requestId), requests, payable).Err?
    ensures KindLines(kind, ts, all, requests, payable) == Err(LinesOf(ts[i], Lookup(all, ts[i].requestId), requests, payable).error)
  {
    var n := |ts| - 1;
    if i < n {
      assert ts[..n][..i] == ts[..i];
      KindLinesFail(kind, ts[..n], i, all, requests, payable);
    }
  }

  // ---------- When lines can be made ----------

  /** The provider a transaction's lines are made out to. */
  function Payee(t: Transaction, r: RequestInfo): string {
    if t.kind.Income? then r.dispatcherId else t.ownerId
  }

  predicate MakesNoLine(t: Transaction, r: RequestInfo) {
    t.kind.Income? && r.items == []
  }

  /** The transaction's request is known, and so is the provider of its lines, if it makes any. */
  predicate IsItemisable(t: Transaction, requests: map<string, RequestInfo>, payable: map<string, Provider>) {
    && t.requestId.Some? && t.requestId.value in requests
    && (MakesNoLine(t, requests[t.requestId.value]) || Payee(t, requests[t.requestId.value]) in payable)
  }

  predicate YieldsLine(t: Transaction, r: RequestInfo) {
    !t.kind.Income? || exists i :: i in r.items && i.quantity > 0
  }

  lemma {:induction false} KindLinesOkIff(kind: TransactionType, ts: seq<Transaction>, all: seq<Transaction>,
                                          requests: map<string, RequestInfo>, payable: map<string, Provider>)
    requires forall t :: t in ts ==> t in all && IsEarning(t)
    ensures KindLines(kind, ts, all, requests, payable).Ok?
       <==> forall t :: t in ts && t.kind == kind ==> IsItemisable(t, requests, payable)
  {
    if ts != [] {
      var front, t := ts[..|ts| - 1], ts[|ts| - 1];
      assert ts == front + [t];
      KindLinesOkIff(kind, front, all, requests, payable);
      assert Lookup(all, t.requestId).Some?;
    }
  }

  /** The lines of a run are made exactly if each of its transactions can be itemised. */
  lemma LinesMadeIff(ts: seq<Transaction>, requests: map<string, RequestInfo>, payable: map<string, Provider>)
    requires forall t :: t in ts ==> IsEarning(t)
    ensures AllLines(ts, requests, payable).Ok? <==> forall t :: t in ts ==> IsItemisable(t, requests, payable)
  {
    KindLinesOkIff(Income, ts, ts, requests, payable);
    KindLinesOkIff(RescheduleSurchargeCompensation, ts, ts, requests, payable);
  }

  lemma {:induction false} PackageLinesInhabited(id: string, r: RequestInfo, owner: Provider, items: seq<Item>, link: Transaction)
    ensures PackageLines(id, r, owner, items, link) != [] <==> exists i :: i in items && i.quantity > 0
  {
    if items != [] {
      var front, last := items[..|items| - 1], items[|items| - 1];
      assert items == front + [last];
      PackageLinesInhabited(id, r, owner, front, link);
    }
  }

  /** A transaction that can be itemised has lines exactly if it is no income or its order has a unit. */
  lemma YieldsLineIff(t: Transaction, link: Option<Transaction>, requests: map<string, RequestInfo>, payable: map<string, Provider>)
    requires IsEarning(t) && LinesOf(t, link, requests, payable).Ok?
    ensures LinesOf(t, link, requests, payable).value != [] <==> YieldsLine(t, requests[t.requestId.value])
  {
    var r := requests[t.requestId.value];
    if t.kind.Income? && r.items != [] {
      PackageLinesInhabited(t.requestId.value, r, payable[r.dispatcherId], r.items, link.value);
    }
  }

  lemma {:induction false} KindLinesHold(kind: TransactionType, ts: seq<Transaction>, all: seq<Transaction>, requests: map<string, RequestInfo>,
                                         payable: map<string, Provider>, t: Transaction)
    requires KindLines(kind, ts, all, requests, payable).Ok? && t in ts && t.kind == kind
    ensures LinesOf(t, Lookup(all, t.requestId), requests, payable).Ok?
    ensures forall l :: l in LinesOf(t, Lookup(all, t.requestId), requests, payable).value ==>
              l in KindLines(kind, ts, all, requests, payable).value
  {
    var front, last := ts[..|ts| - 1], ts[|ts| - 1];
    assert ts == front + [last];
    if t in front {
      KindLinesHold(kind, front, all, requests, payable, t);
    }
  }

  /** The lookup of rewritten transactions, if each keeps its request. */
  lemma {:induction false} LookupOfMap(ts: seq<Transaction>, h: Transaction -> Transaction, requestId: Option<string>)
    requires forall t :: t in ts ==> h(t).requestId == t.requestId
    ensures Lookup(Map(ts, h), requestId)
         == (match Lookup(ts, requestId) case None => None case Some(t) => Some(h(t)))
  {
    if ts != [] {
      var n := |ts| - 1;
      assert Map(ts, h)[..n] == Map(ts[..n], h);
      assert forall t :: t in ts[..n] ==> t in ts;
      LookupOfMap(ts[..n], h, requestId);
    }
  }

  // ---------- How many lines there are ----------

  function Units(r: RequestInfo): int {
    Sum(r.items, (i: Item) => i.quantity)
  }

  /** A line per unit of the order of an income, and one per compensation. */
  function LineCount(kind: TransactionType, requests: map<string, RequestInfo>, t: Transaction): int {
    if t.kind != kind || t.requestId.None? || t.requestId.value !in requests then 0
    else if t.kind.Income? then Units(requests[t.requestId.value]) else 1
  }

  lemma {:induction false} PackageLinesCounted(requestId: string, r: RequestInfo, owner: Provider, items: seq<Item>, link: Transaction)
    ensures |PackageLines(requestId, r, owner, items, link)| == Sum(items, (i: Item) => i.quantity)
  {
    if items != [] {
      PackageLinesCounted(requestId, r, owner, items[..|items| - 1], link);
    }
  }

  lemma {:induction false} KindLinesCounted(kind: TransactionType, ts: seq<Transaction>, all: seq<Transaction>,
                                            requests: map<string, RequestInfo>, payable: map<string, Provider>)
    requires KindLines(kind, ts, all, requests, payable).Ok? && (kind.Income? || kind.RescheduleSurchargeCompensation?)
    ensures |KindLines(kind, ts, all, requests, payable).value| == Sum(ts, t => LineCount(kind, requests, t))
  {
    if ts != [] {
      var t := ts[|ts| - 1];
      KindLinesCounted(kind, ts[..|ts| - 1], all, requests, payable);
      if t.kind == kind && t.kind.Income? {
        var r := requests[t.requestId.value];
        if r.items != [] {
          PackageLinesCounted(t.requestId.value, r, payable[r.dispatcherId], r.items, Lookup(all, t.requestId).value);
        }
      }
    }
  }

  /** A run makes as many lines as the orders of its incomes have units and it has compensations. */
  lemma LinesCounted(ts: seq<Transaction>, requests: map<string, RequestInfo>, payable: map<string, Provider>)
    requires AllLines(ts, requests, payable).Ok?
    ensures |AllLines(ts, requests, payable).value|
         == Sum(ts, t => LineCount(Income, requests, t)) + Sum(ts, t => LineCount(RescheduleSurchargeCompensation, requests, t))
  {
    KindLinesCounted(Income, ts, ts, requests, payable);
    KindLinesCounted(RescheduleSurchargeCompensation, ts, ts, requests, payable);
  }

  // ---------- What the lines of a payout add up to ----------

  function LineTerm(p: nat, l: Line): int {
    if l.payoutId == Some(p) then l.amount else 0
  }

  /** The sum of the lines that carry payout `p`. */
  function LinesIn(lines: seq<Line>, p: nat): int {
    Sum(lines, l => LineTerm(p, l))
  }

  function RequestTotal(r: RequestInfo): int {
    Sum(r.items, (i: Item) => i.quantity * i.serviceProviderUnitPrice)
  }

  /** An income is the provider total of the order it was earned on. */
  predicate EarnedOnOrder(t: Transaction, requests: map<string, RequestInfo>) {
    t.kind.Income? && t.requestId.Some? && t.requestId.value in requests ==> t.amount == RequestTotal(requests[t.requestId.value])
  }

  function LookupTerm(all: seq<Transaction>, p: nat, t: Transaction): int {
    match Lookup(all, t.requestId)
    case None => 0
    case Some(link) => if link.payoutId == Some(p) then t.amount else 0
  }

  function LookupKindTerm(kind: TransactionType, all: seq<Transaction>, p: nat, t: Transaction): int {
    if t.kind == kind then LookupTerm(all, p, t) else 0
  }

  lemma {:induction false} RepeatSum(line: Line, n: nat, p: nat)
    ensures LinesIn(Repeat(line, n), p) == n * LineTerm(p, line)
  {
    if n > 0 {
      RepeatSum(line, n - 1, p);
      assert Repeat(line, n)[..n - 1] == Repeat(line, n - 1);
    }
  }

  lemma {:induction false} PackageLinesSum(requestId: string, r: RequestInfo, owner: Provider, items: seq<Item>, link: Transaction, p: nat)
    ensures LinesIn(PackageLines(requestId, r, owner, items, link), p)
         == if link.payoutId == Some(p) then Sum(items, (i: Item) => i.quantity * i.serviceProviderUnitPrice) else 0
  {
    if items != [] {
      var front, last := items[..|items| - 1], items[|items| - 1];
      var line := PackageLine(requestId, r, owner, last, link);
      PackageLinesSum(requestId, r, owner, front, link, p);
      RepeatSum(line, last.quantity, p);
      SumAppend(PackageLines(requestId, r, owner, front, link), Repeat(line, last.quantity), l => LineTerm(p, l));
    }
  }

  lemma LinesOfSum(t: Transaction, all: seq<Transaction>, requests: map<string, RequestInfo>, payable: map<string, Provider>, p: nat)
    requires LinesOf(t, Lookup(all, t.requestId), requests, payable).Ok? && EarnedOnOrder(t, requests)
    ensures LinesIn(LinesOf(t, Lookup(all, t.requestId), requests, payable).value, p) == LookupTerm(all, p, t)
  {
    var r := requests[t.requestId.value];
    var link := Lookup(all, t.requestId).value;
    if t.kind.Income? && r.items != [] {
      PackageLinesSum(t.requestId.value, r, payable[r.dispatcherId], r.items, link, p);
    } else if !t.kind.Income? {
      SumOne(SurchargeLine(t.requestId.value, r, payable[t.ownerId], t, link), l => LineTerm(p, l));
    }
  }

  lemma {:induction false} KindLinesSum(kind: TransactionType, ts: seq<Transaction>, all: seq<Transaction>,
                                        requests: map<string, RequestInfo>, payable: map<string, Provider>, p: nat)
    requires KindLines(kind, ts, all, requests, payable).Ok?
    requires forall t :: t in ts ==> EarnedOnOrder(t, requests)
    ensures LinesIn(KindLines(kind, ts, all, requests, payable).value, p) == Sum(ts, t => LookupKindTerm(kind, all, p, t))
  {
    if ts != [] {
      var front, t := ts[..|ts| - 1], ts[|ts| - 1];
      KindLinesSum(kind, front, all, requests, payable, p);
      if t.kind == kind {
        LinesOfSum(t, all, requests, payable, p);
        SumAppend(KindLines(kind, front, all, requests, payable).value,
                  LinesOf(t, Lookup(all, t.requestId), requests, payable).value, l => LineTerm(p, l));
      }
    }
  }

  /** Whatever the transactions: the lines of payout `p` add up to the amounts of the transactions whose
      request was last earned on in `p`. */
  lemma LinesFollowTheLookup(ts: seq<Transaction>, requests: map<string, RequestInfo>, payable: map<string, Provider>, p: nat)
    requires AllLines(ts, requests, payable).Ok?
    requires forall t :: t in ts ==> IsEarning(t) && EarnedOnOrder(t, requests)
    ensures LinesIn(AllLines(ts, requests, payable).value, p) == Sum(ts, t => LookupTerm(ts, p, t))
  {
    KindLinesSum(Income, ts, ts, requests, payable, p);
    KindLinesSum(RescheduleSurchargeCompensation, ts, ts, requests, payable, p);
    SumAppend(KindLines(Income, ts, ts, requests, payable).value,
              KindLines(RescheduleSurchargeCompensation, ts, ts, requests, payable).value, l => LineTerm(p, l));
    SumPlus(ts, t => LookupKindTerm(Income, ts, p, t), t => LookupKindTerm(RescheduleSurchargeCompensation, ts, p, t),
            t => LookupTerm(ts, p, t));
  }

  /** All transactions of one request carry the same payout. */
  ghost predicate OnePayoutPerRequest(ts: seq<Transaction>) {
    forall t, u :: t in ts && u in ts && t.requestId == u.requestId ==> t.payoutId == u.payoutId
  }

  /** If no request is split over payouts, the lines of every payout add up to the earnings it takes. */
  lemma LinesMatchEarnings(ts: seq<Transaction>, requests: map<string, RequestInfo>, payable: map<string, Provider>, p: nat)
    requires AllLines(ts, requests, payable).Ok? && OnePayoutPerRequest(ts)
    requires forall t :: t in ts ==> IsEarning(t) && EarnedOnOrder(t, requests)
    ensures LinesIn(AllLines(ts, requests, payable).value, p) == EarningsIn(ts, p)
  {
    LinesFollowTheLookup(ts, requests, payable, p);
    SumCongruent(ts, t => LookupTerm(ts, p, t), t => EarningTerm(p, t));
  }

  const SPLIT_INCOME := Transaction(0, "a", Daikin, Income, Success, 500, Some("r"), Some(0))

  const SPLIT_COMPENSATION := Transaction(1, "b", Daikin, RescheduleSurchargeCompensation, Success, 200, Some("r"), Some(1))

  const SPLIT_REQUEST := RequestInfo("a", Daikin, [Item(1, 600, 500)], 0, 300)

  lemma SplitRequestLines(ts: seq<Transaction>, requests: map<string, RequestInfo>, payable: map<string, Provider>)
    requires ts == [SPLIT_INCOME, SPLIT_COMPENSATION] && requests == map["r" := SPLIT_REQUEST]
    requires "a" in payable && "b" in payable
    ensures AllLines(ts, requests, payable)
         == Ok([PackageLine("r", SPLIT_REQUEST, payable["a"], Item(1, 600, 500), SPLIT_COMPENSATION),
                SurchargeLine("r", SPLIT_REQUEST, payable["b"], SPLIT_COMPENSATION, SPLIT_COMPENSATION)])
  {
    var line := PackageLine("r", SPLIT_REQUEST, payable["a"], Item(1, 600, 500), SPLIT_COMPENSATION);
    var surcharge := SurchargeLine("r", SPLIT_REQUEST, payable["b"], SPLIT_COMPENSATION, SPLIT_COMPENSATION);
    assert ts[..1] == [SPLIT_INCOME] && [SPLIT_INCOME][..0] == [] && SPLIT_REQUEST.items[..0] == [];
    assert [] + [line] == [line] && [] + [surcharge] == [surcharge] && [line] + [surcharge] == [line, surcharge];
    assert PackageLines("r", SPLIT_REQUEST, payable["a"], SPLIT_REQUEST.items, SPLIT_COMPENSATION) == [line];
    assert KindLines(Income, [SPLIT_INCOME], ts, requests, payable) == Ok([line]);
    assert KindLines(RescheduleSurchargeCompensation, [SPLIT_INCOME], ts, requests, payable) == Ok([]);
  }

  /** The condition is needed: an income and a compensation of one request, owed to two providers and so taken by
      two payouts, both put their lines on the later one. */
  lemma SplitRequestMisplacesLines()
    ensures exists ts, requests, payable ::
              && AllLines(ts, requests, payable).Ok?
              && (forall t :: t in ts ==> IsEarning(t) && EarnedOnOrder(t, requests))
              && LinesIn(AllLines(ts, requests, payable).value, 0) < EarningsIn(ts, 0)
              && LinesIn(AllLines(ts, requests, payable).value, 1) > EarningsIn(ts, 1)
  {
    var ts := [SPLIT_INCOME, SPLIT_COMPENSATION];
    var requests := map["r" := SPLIT_REQUEST];
    var payable := map["a" := Provider(None), "b" := Provider(None)];
    SplitRequestLines(ts, requests, payable);
    var lines := AllLines(ts, requests, payable).value;
    SumTwo(lines[0], lines[1], l => LineTerm(0, l));
    SumTwo(lines[0], lines[1], l => LineTerm(1, l));
    SumTwo(SPLIT_INCOME, SPLIT_COMPENSATION, t => EarningTerm(0, t));
    SumTwo(SPLIT_INCOME, SPLIT_COMPENSATION, t => EarningTerm(1, t));
    SumOne(SPLIT_REQUEST.items[0], (i: Item) => i.quantity * i.serviceProviderUnitPrice);
    assert EarnedOnOrder(SPLIT_INCOME, requests) && EarnedOnOrder(SPLIT_COMPENSATION, requests);
    assert AllLines(ts, requests, payable).Ok?;
  }
}
