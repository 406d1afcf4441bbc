/** The files of a payout batch: the summary per service request and the bank's payment records. */
module PayoutFiles {
  import opened Wrappers
  import opened Sums
  import opened PayoutFactory
  import opened WalletLedger
  import opened PayoutLines
  import opened Pricing
  import opened CustomerOrders

  // ---------- Grouping the lines by request ----------

  datatype Summary = Summary(
    requestId: string,
    vendorId: Option<string>,
    amount: int,
    itemSalesAmount: int,
    consumerPromotionAmount: int,
    hasServiceFee: bool,
    hasRescheduleSurcharge: bool)

  /** A row of the summary file; a vendor column that does not apply is `None`. */
  datatype Detail = Detail(
    requestId: string,
    amount: int,
    customerPaidAmount: int,
    serviceVendorId: Option<string>,
    surchargeVendorId: Option<string>)

  function LinesOfRequest(lines: seq<Line>, id: string): (r: seq<Line>) {
    Filter(lines, (l: Line) => l.requestId == id)
  }

  /** The request ids of the lines in the order of their first line. */
  function RequestIds(lines: seq<Line>): (ids: seq<string>)
    ensures forall id :: id in ids <==> exists l :: l in lines && l.requestId == id
  {
    if lines == [] then []
    else
      var last := lines[|lines| - 1];
      assert lines == lines[..|lines| - 1] + [last];
      var ids := RequestIds(lines[..|lines| - 1]);
      if last.requestId in ids then ids else ids + [last.requestId]
  }

  function Amount(l: Line): int { l.amount }
  function SalesAmount(l: Line): int { l.itemSalesAmount }
  predicate IsServiceLine(l: Line) { l.itemType.ServicePackage? }
  predicate IsSurchargeLine(l: Line) { l.itemType.RescheduleSurcharge? }

  /** The summary of a non-empty group takes everything but the sums from the first line. */
  function Summarise(group: seq<Line>): Summary
    requires group != []
  {
    Summary(group[0].requestId, group[0].vendorId, Sum(group, Amount), Sum(group, SalesAmount), group[0].consumerPromotionAmount,
            Filter(group, IsServiceLine) != [], Filter(group, IsSurchargeLine) != [])
  }

  function ToDetail(s: Summary): Detail {
    Detail(s.requestId, s.amount, s.itemSalesAmount - s.consumerPromotionAmount,
           if s.hasServiceFee then s.vendorId else None, if s.hasRescheduleSurcharge then s.vendorId else None)
  }

  lemma GroupIsInhabited(lines: seq<Line>, id: string)
    ensures id in RequestIds(lines) <==> LinesOfRequest(lines, id) != []
    ensures forall l :: l in LinesOfRequest(lines, id) ==> l in lines && l.requestId == id
  {
    FilterMembers(lines, (l: Line) => l.requestId == id);
    if id in RequestIds(lines) {
      var l :| l in lines && l.requestId == id;
      assert l in LinesOfRequest(lines, id);
    } else {
      assert forall l :: l in LinesOfRequest(lines, id) ==> false;
    }
  }

  function GroupOf(lines: seq<Line>, id: string): seq<Line>
    requires id in RequestIds(lines)
    ensures GroupOf(lines, id) != []
  {
    GroupIsInhabited(lines, id);
    LinesOfRequest(lines, id)
  }

  function Summaries(lines: seq<Line>): (r: seq<Summary>)
    ensures |r| == |RequestIds(lines)|
  {
    seq(|RequestIds(lines)|, i requires 0 <= i < |RequestIds(lines)| => Summarise(GroupOf(lines, RequestIds(lines)[i])))
  }

  lemma SummaryAt(lines: seq<Line>, k: nat)
    requires k < |RequestIds(lines)|
    ensures RequestIds(lines)[k] in RequestIds(lines)
    ensures Summaries(lines)[k] == Summarise(GroupOf(lines, RequestIds(lines)[k]))
  {}

  lemma SummariesAre(lines: seq<Line>, summaries: seq<Summary>)
    requires |summaries| == |RequestIds(lines)|
    requires forall k :: 0 <= k < |summaries| ==> summaries[k] == Summarise(GroupOf(lines, RequestIds(lines)[k]))
    ensures summaries == Summaries(lines)
  {
    forall k | 0 <= k < |summaries|
      ensures summaries[k] == Summaries(lines)[k]
    {
      SummaryAt(lines, k);
    }
  }

  function FileDetails(lines: seq<Line>): seq<Detail> {
    Map(Summaries(lines), ToDetail)
  }

  method GroupByRequest(lines: seq<Line>) returns (groups: map<string, seq<Line>>, ids: seq<string>)
    ensures ids == RequestIds(lines)
    ensures forall id :: id in groups <==> id in ids
    ensures forall id :: id in groups ==> groups[id] == LinesOfRequest(lines, id) && groups[id] != []
  {
    groups, ids := map[], [];
    for i := 0 to |lines|
      invariant ids == RequestIds(lines[..i])
      invariant forall id :: id in groups <==> id in ids
      invariant forall id :: id in groups ==> groups[id] == LinesOfRequest(lines[..i], id)
    {
      var line := lines[i];
      assert lines[..i + 1][..i] == lines[..i];
      GroupIsInhabited(lines[..i], line.requestId);
      if line.requestId !in groups {
        groups := groups[line.requestId := []];
        ids := ids + [line.requestId];
      }
      groups := groups[line.requestId := groups[line.requestId] + [line]];
    }
    assert lines[..|lines|] == lines;
    forall id | id in groups
      ensures groups[id] != []
    {
      GroupIsInhabited(lines, id);
    }
  }

  method GroupPayoutLinesByServiceRequest(lines: seq<Line>) returns (summaries: seq<Summary>)
    ensures summaries == Summaries(lines)
  {
    var groups, ids := GroupByRequest(lines);
    summaries := SummariseGroups(groups, ids);
    SummariesAre(lines, summaries);
  }

  method SummariseGroups(groups: map<string, seq<Line>>, ids: seq<string>) returns (summaries: seq<Summary>)
    requires forall id :: id in ids ==> id in groups && groups[id] != []
    ensures |summaries| == |ids| && forall k :: 0 <= k < |ids| ==> summaries[k] == Summarise(groups[ids[k]])
  {
    summaries := [];
    for i := 0 to |ids|
      invariant |summaries| == i
      invariant forall k :: 0 <= k < i ==> summaries[k] == Summarise(groups[ids[k]])
    {
      var summary := SummariseGroup(groups[ids[i]]);
      summaries := summaries + [summary];
    }
  }

  method SummariseGroup(group: seq<Line>) returns (summary: Summary)
    requires group != []
    ensures summary == Summarise(group)
  {
    var amount, sales := 0, 0;
    for k := 0 to |group|
      invariant amount == Sum(group[..k], Amount) && sales == Sum(group[..k], SalesAmount)
    {
      assert group[..k + 1] == group[..k] + [group[k]];
      SumSnoc(group[..k], group[k], Amount);
      SumSnoc(group[..k], group[k], SalesAmount);
      amount, sales := amount + group[k].amount, sales + group[k].itemSalesAmount;
    }
    assert group[..|group|] == group;
    summary := Summary(group[0].requestId, group[0].vendorId, amount, sales, group[0].consumerPromotionAmount,
                       Filter(group, IsServiceLine) != [], Filter(group, IsSurchargeLine) != []);
  }

  // ---------- Grouping loses and duplicates no line ----------

  /** The groups of the ids, one after the other. */
  function Regrouped(lines: seq<Line>, ids: seq<string>): seq<Line> {
    if ids == [] then [] else Regrouped(lines, ids[..|ids| - 1]) + LinesOfRequest(lines, ids[|ids| - 1])
  }

  lemma {:induction false} RequestIdsDistinct(lines: seq<Line>)
    ensures forall i, j :: 0 <= i < j < |RequestIds(lines)| ==> RequestIds(lines)[i] != RequestIds(lines)[j]
  {
    if lines != [] {
      RequestIdsDistinct(lines[..|lines| - 1]);
    }
  }

  lemma {:induction false} CountInGroup(lines: seq<Line>, id: string, l: Line)
    ensures multiset(LinesOfRequest(lines, id))[l] == if l.requestId == id then multiset(lines)[l] else 0
  {
    if lines != [] {
      CountInGroup(lines[..|lines| - 1], id, l);
      assert lines == lines[..|lines| - 1] + [lines[|lines| - 1]];
    }
  }

  lemma {:induction false} CountRegrouped(lines: seq<Line>, ids: seq<string>, l: Line)
    requires forall i, j :: 0 <= i < j < |ids| ==> ids[i] != ids[j]
    ensures multiset(Regrouped(lines, ids))[l] == if l.requestId in ids then multiset(lines)[l] else 0
  {
    if ids != [] {
      var front, last := ids[..|ids| - 1], ids[|ids| - 1];
      CountRegrouped(lines, front, l);
      CountInGroup(lines, last, l);
      assert ids == front + [last];
    }
  }

  /** The groups of the summary file hold every line exactly as often as it was given. */
  lemma GroupingIsAPartition(lines: seq<Line>)
    ensures multiset(Regrouped(lines, RequestIds(lines))) == multiset(lines)
  {
    RequestIdsDistinct(lines);
    forall l: Line
      ensures multiset(Regrouped(lines, RequestIds(lines)))[l] == multiset(lines)[l]
    {
      CountRegrouped(lines, RequestIds(lines), l);
      if multiset(lines)[l] > 0 {
        assert l in lines;
      }
    }
  }

  function SummaryAmount(s: Summary): int { s.amount }

  lemma {:induction false} RegroupedSum(lines: seq<Line>, ids: seq<string>, summaries: seq<Summary>)
    requires |summaries| == |ids|
    requires forall k :: 0 <= k < |ids| ==> summaries[k].amount == Sum(LinesOfRequest(lines, ids[k]), Amount)
    ensures Sum(Regrouped(lines, ids), Amount) == Sum(summaries, SummaryAmount)
  {
    if ids != [] {
      var n := |ids| - 1;
      RegroupedSum(lines, ids[..n], summaries[..n]);
      SumAppend(Regrouped(lines, ids[..n]), LinesOfRequest(lines, ids[n]), Amount);
    }
  }

  /** The payout column of the summary file adds up to the lines. */
  lemma SummaryConservesAmounts(lines: seq<Line>)
    ensures Sum(FileDetails(lines), (d: Detail) => d.amount) == Sum(lines, Amount)
  {
    forall k | 0 <= k < |RequestIds(lines)|
      ensures Summaries(lines)[k].amount == Sum(LinesOfRequest(lines, RequestIds(lines)[k]), Amount)
    {
      SummaryAt(lines, k);
    }
    RegroupedSum(lines, RequestIds(lines), Summaries(lines));
    GroupingIsAPartition(lines);
    SumPermutation(Regrouped(lines, RequestIds(lines)), lines, Amount);
    SumMap(Summaries(lines), ToDetail, (d: Detail) => d.amount, SummaryAmount);
  }

  lemma {:induction false} FirstOfRequest(lines: seq<Line>, id: string) returns (k: nat)
    requires LinesOfRequest(lines, id) != []
    ensures k < |lines| && lines[k].requestId == id && LinesOfRequest(lines, id)[0] == lines[k]
    ensures forall j :: 0 <= j < k ==> lines[j].requestId != id
  {
    var n := |lines| - 1;
    GroupIsInhabited(lines[..n], id);
    if LinesOfRequest(lines[..n], id) != [] {
      k := FirstOfRequest(lines[..n], id);
    } else {
      k := n;
      forall j | 0 <= j < n
        ensures lines[j].requestId != id
      {
        assert lines[..n][j] in lines[..n];
      }
    }
  }

  lemma RequestSums(lines: seq<Line>, id: string)
    ensures Sum(LinesOfRequest(lines, id), Amount) == Sum(lines, (l: Line) => if l.requestId == id then l.amount else 0)
    ensures Sum(LinesOfRequest(lines, id), SalesAmount) == Sum(lines, (l: Line) => if l.requestId == id then l.itemSalesAmount else 0)
  {
    SumFilter(lines, (l: Line) => l.requestId == id, Amount, (l: Line) => if l.requestId == id then l.amount else 0);
    SumFilter(lines, (l: Line) => l.requestId == id, SalesAmount, (l: Line) => if l.requestId == id then l.itemSalesAmount else 0);
  }

  lemma RequestKinds(lines: seq<Line>, id: string, kind: Line -> bool)
    ensures Filter(LinesOfRequest(lines, id), kind) != [] <==> exists l :: l in lines && l.requestId == id && kind(l)
  {
    FilterMembers(lines, (l: Line) => l.requestId == id);
    var ls := Filter(LinesOfRequest(lines, id), kind);
    FilterMembers(LinesOfRequest(lines, id), kind);
    if ls != [] {
      assert ls[0] in ls;
    }
  }

  /** A row pays what the lines of its request are worth, shows their sales less the promotion of the first of them, line `k`, and
      names that line's vendor in the column of each kind of lines the request has. */
  lemma RowShowsRequest(lines: seq<Line>, d: Detail, k: nat)
    requires d in FileDetails(lines)
    requires k < |lines| && lines[k].requestId == d.requestId && forall j :: 0 <= j < k ==> lines[j].requestId != d.requestId
    ensures d.amount == Sum(lines, (l: Line) => if l.requestId == d.requestId then l.amount else 0)
    ensures d.customerPaidAmount
         == Sum(lines, (l: Line) => if l.requestId == d.requestId then l.itemSalesAmount else 0) - lines[k].consumerPromotionAmount
    ensures d.serviceVendorId ==
              if exists l :: l in lines && l.requestId == d.requestId && l.itemType.ServicePackage? then lines[k].vendorId else None
    ensures d.surchargeVendorId ==
              if exists l :: l in lines && l.requestId == d.requestId && l.itemType.RescheduleSurcharge? then lines[k].vendorId else None
  {
    DetailOf(lines, d);
    var first := FirstOfRequest(lines, d.requestId);
    assert k == first;
    RequestSums(lines, d.requestId);
    RequestKinds(lines, d.requestId, IsServiceLine);
    RequestKinds(lines, d.requestId, IsSurchargeLine);
  }

  // ---------- From the order to the summary file ----------

  function UnitOf(p: Package): Item {
    Item(if p.quantity < 0 then 0 else p.quantity, p.consumer.discountedUnitPrice, p.provider.discountedUnitPrice)
  }

  /** What the order shows of its promotion: nothing if that has no code. */
  function ShownPromotion(o: Order): int
    requires o.Order?
  {
    if IsMissing(o.promotion.code) then 0 else o.promotion.discountedAmount
  }

  /** What the line factory reads of a request with this order. */
  function RequestOf(o: Order, dispatcherId: string, tenant: Tenant, consumerSurchargeAmount: int): RequestInfo
    requires o.Order?
  {
    RequestInfo(dispatcherId, tenant, Map(o.packages, UnitOf), ShownPromotion(o), consumerSurchargeAmount)
  }

  /** The part of the promotion that was deducted and is not shown. */
  function HiddenPromotion(o: Order): int
    requires o.Order?
  {
    o.promotion.discountedAmount - ShownPromotion(o)
  }

  function ConsumerUnits(i: Item): int { i.quantity * i.consumerUnitPrice }
  function ProviderUnits(i: Item): int { i.quantity * i.serviceProviderUnitPrice }

  /** An order whose lines hold non-negative quantities, as the constructor made it. */
  predicate IsPlaced(o: Order) {
    && o.Order?
    && (forall p :: p in o.packages ==> IsWellPriced(p) && p.quantity >= 0)
    && o.providerTotal == TotalOf(o.packages, ProviderDue)
    && o.consumerTotal == TotalOf(o.packages, ConsumerDue) - o.promotion.discountedAmount
  }

  lemma NewOrderIsPlaced(remarks: Remarks, packages: seq<Package>, promotion: Option<Promotion>, norm: string -> string)
    requires !remarks.Undefined? && forall p :: p in packages ==> IsWellPriced(p) && p.quantity >= 0
    ensures IsPlaced(NewOrder(remarks, packages, promotion, norm))
  {
    var o := NewOrder(remarks, packages, promotion, norm);
    forall i | 0 <= i < |packages|
      ensures IsWellPriced(o.packages[i]) && o.packages[i].quantity >= 0
    {
      assert packages[i] in packages;
      BundledPriced(packages[i], GroupTotal(packages, GroupKey(packages[i].groupCode)), norm);
    }
  }

  /** The units the line factory counts add up to the totals of the order. */
  lemma UnitsAddUpToOrder(o: Order, dispatcherId: string, tenant: Tenant, surcharge: int)
    requires IsPlaced(o)
    ensures var r := RequestOf(o, dispatcherId, tenant, surcharge);
            && RequestTotal(r) == Sum(r.items, ProviderUnits) == o.providerTotal
            && Sum(r.items, ConsumerUnits) - r.consumerPromotionAmount == o.consumerTotal + HiddenPromotion(o)
  {
    var r := RequestOf(o, dispatcherId, tenant, surcharge);
    SumCongruent(r.items, (i: Item) => i.quantity * i.serviceProviderUnitPrice, ProviderUnits);
    SumMap(o.packages, UnitOf, ProviderUnits, ProviderDue);
    SumMap(o.packages, UnitOf, ConsumerUnits, ConsumerDue);
  }

  lemma IncomeIsEarnedOnPlaced(t: Transaction, requests: map<string, RequestInfo>, o: Order, dispatcherId: string, tenant: Tenant, surcharge: int)
    requires IsPlaced(o) && t.amount == o.providerTotal
    requires t.requestId.Some? && t.requestId.value in requests ==> requests[t.requestId.value] == RequestOf(o, dispatcherId, tenant, surcharge)
    ensures EarnedOnOrder(t, requests)
  {
    UnitsAddUpToOrder(o, dispatcherId, tenant, surcharge);
  }

  /** An income of the provider total of an order of new packages is earned on that order, as the settlement of its lines
      asks. */
  lemma IncomeIsEarnedOnOrder(t: Transaction, requests: map<string, RequestInfo>, remarks: Remarks, ws: seq<Wanted>,
                              promotion: Option<Promotion>, norm: string -> string, dispatcherId: string, tenant: Tenant, surcharge: int)
    requires !remarks.Undefined? && forall w :: w in ws ==> w.quantity >= 0
    requires var o := NewOrder(remarks, PackagesOf(ws, norm), promotion, norm);
             && t.amount == o.providerTotal
             && (t.requestId.Some? && t.requestId.value in requests ==>
                   requests[t.requestId.value] == RequestOf(o, dispatcherId, tenant, surcharge))
    ensures EarnedOnOrder(t, requests)
  {
    NewPackagesAreWellPriced(ws, norm);
    NewOrderIsPlaced(remarks, PackagesOf(ws, norm), promotion, norm);
    IncomeIsEarnedOnPlaced(t, requests, NewOrder(remarks, PackagesOf(ws, norm), promotion, norm), dispatcherId, tenant, surcharge);
  }

  lemma {:induction false} RepeatedSum(line: Line, n: nat, f: Line -> int)
    ensures Sum(Repeat(line, n), f) == n * f(line)
  {
    if n > 0 {
      RepeatedSum(line, n - 1, f);
      assert Repeat(line, n)[..n - 1] == Repeat(line, n - 1);
    }
  }

  /** The lines of an income: their sums, and that all are service lines of the request with its promotion. */
  lemma {:induction false} PackageLinesBill(id: string, r: RequestInfo, owner: Provider, items: seq<Item>, link: Transaction)
    ensures var lines := PackageLines(id, r, owner, items, link);
            && Sum(lines, Amount) == Sum(items, ProviderUnits)
            && Sum(lines, SalesAmount) == Sum(items, ConsumerUnits)
            && (forall l :: l in lines ==> l.requestId == id && l.itemType.ServicePackage?)
            && (forall l :: l in lines ==> l.consumerPromotionAmount == r.consumerPromotionAmount && l.vendorId == owner.vendorId)
            && (lines != [] <==> exists i :: i in items && i.quantity > 0)
  {
    if items != [] {
      var front, last := items[..|items| - 1], items[|items| - 1];
      var line := PackageLine(id, r, owner, last, link);
      PackageLinesBill(id, r, owner, front, link);
      RepeatedSum(line, last.quantity, Amount);
      RepeatedSum(line, last.quantity, SalesAmount);
      SumAppend(PackageLines(id, r, owner, front, link), Repeat(line, last.quantity), Amount);
      SumAppend(PackageLines(id, r, owner, front, link), Repeat(line, last.quantity), SalesAmount);
      assert items == front + [last];
    }
  }

  predicate OfRequest(t: Transaction, id: string) {
    t.requestId == Some(id)
  }

  function TransactionsOf(ts: seq<Transaction>, id: string): seq<Transaction> {
    Filter(ts, u => OfRequest(u, id))
  }

  lemma {:induction false} LinesOfRequestAppend(a: seq<Line>, b: seq<Line>, id: string)
    ensures LinesOfRequest(a + b, id) == LinesOfRequest(a, id) + LinesOfRequest(b, id)
  {
    if b == [] {
      assert a + b == a;
    } else {
      var front := b[..|b| - 1];
      LinesOfRequestAppend(a, front, id);
      assert (a + b)[..|a + b| - 1] == a + front;
    }
  }

  lemma {:induction false} LinesOfOneRequest(lines: seq<Line>, id: string, mine: bool)
    requires forall l :: l in lines ==> (l.requestId == id <==> mine)
    ensures LinesOfRequest(lines, id) == if mine then lines else []
  {
    if lines != [] {
      var front := lines[..|lines| - 1];
      assert lines == front + [lines[|lines| - 1]];
      LinesOfOneRequest(front, id, mine);
    }
  }

  lemma LinesOfTransaction(t: Transaction, link: Option<Transaction>, requests: map<string, RequestInfo>, payable: map<string, Provider>, id: string)
    requires LinesOf(t, link, requests, payable).Ok?
    ensures LinesOfRequest(LinesOf(t, link, requests, payable).value, id)
         == if OfRequest(t, id) then LinesOf(t, link, requests, payable).value else []
  {
    var lines := LinesOf(t, link, requests, payable).value;
    var r := requests[t.requestId.value];
    if t.kind.Income? && r.items != [] {
      PackageLinesBill(t.requestId.value, r, payable[r.dispatcherId], r.items, link.value);
    }
    LinesOfOneRequest(lines, id, OfRequest(t, id));
  }

  /** The last of some transactions of which at most `t` is of the request. */
  lemma OnlyTransaction(ts: seq<Transaction>, id: string, t: Transaction)
    requires ts != [] && (TransactionsOf(ts, id) == [] || TransactionsOf(ts, id) == [t])
    ensures var front, u := ts[..|ts| - 1], ts[|ts| - 1];
            if OfRequest(u, id) then u == t && TransactionsOf(front, id) == [] && TransactionsOf(ts, id) == [t]
            else TransactionsOf(front, id) == TransactionsOf(ts, id)
  {
    var front, u := ts[..|ts| - 1], ts[|ts| - 1];
    assert TransactionsOf(ts, id) == TransactionsOf(front, id) + if OfRequest(u, id) then [u] else [];
    if OfRequest(u, id) {
      assert |TransactionsOf(ts, id)| == 1 + |TransactionsOf(front, id)|;
      assert TransactionsOf(ts, id)[|TransactionsOf(front, id)|] == u;
    }
  }

  lemma {:induction false} KindLinesOfRequest(kind: TransactionType, ts: seq<Transaction>, all: seq<Transaction>, requests: map<string, RequestInfo>,
                                              payable: map<string, Provider>, id: string, t: Transaction)
    requires KindLines(kind, ts, all, requests, payable).Ok?
    requires var mine := TransactionsOf(ts, id); mine == [] || mine == [t]
    ensures TransactionsOf(ts, id) == [t] && t.kind == kind ==> LinesOf(t, Lookup(all, t.requestId), requests, payable).Ok?
    ensures LinesOfRequest(KindLines(kind, ts, all, requests, payable).value, id)
         == if TransactionsOf(ts, id) == [t] && t.kind == kind then LinesOf(t, Lookup(all, t.requestId), requests, payable).value else []
  {
    if ts != [] {
      var front, u := ts[..|ts| - 1], ts[|ts| - 1];
      OnlyTransaction(ts, id, t);
      KindLinesOfRequest(kind, front, all, requests, payable, id, t);
      if u.kind == kind {
        LinesOfTransaction(u, Lookup(all, u.requestId), requests, payable, id);
        LinesOfRequestAppend(KindLines(kind, front, all, requests, payable).value, LinesOf(u, Lookup(all, u.requestId), requests, payable).value, id);
      }
    }
  }

  /** A run's lines of a request with a single income are that income's. */
  lemma RunLinesOfRequest(ts: seq<Transaction>, requests: map<string, RequestInfo>, payable: map<string, Provider>, id: string, t: Transaction)
    requires AllLines(ts, requests, payable).Ok?
    requires TransactionsOf(ts, id) == [t] && t.kind.Income?
    ensures LinesOf(t, Some(t), requests, payable).Ok? && OfRequest(t, id)
    ensures LinesOfRequest(AllLines(ts, requests, payable).value, id) == LinesOf(t, Some(t), requests, payable).value
  {
    FilterMembers(ts, u => OfRequest(u, id));
    assert t in TransactionsOf(ts, id);
    assert Lookup(ts, t.requestId) == Some(t) by {
      var link := Lookup(ts, t.requestId);
      assert link.Some? && link.value in TransactionsOf(ts, id);
    }
    KindLinesOfRequest(Income, ts, ts, requests, payable, id, t);
    KindLinesOfRequest(RescheduleSurchargeCompensation, ts, ts, requests, payable, id, t);
    LinesOfRequestAppend(KindLines(Income, ts, ts, requests, payable).value,
                         KindLines(RescheduleSurchargeCompensation, ts, ts, requests, payable).value, id);
  }

  /** A line as it was made, whatever has happened to it since. */
  function AsScheduled(l: Line): Line {
    l.(status := Scheduled, sapDocumentPaymentNo := None, paymentDate := None)
  }

  /** The file's lines of the request are those of the run, in any order and state, among lines of other requests. */
  ghost predicate Carries(file: seq<Line>, run: seq<Line>, id: string) {
    multiset(Map(LinesOfRequest(file, id), AsScheduled)) == multiset(LinesOfRequest(run, id))
  }

  lemma GroupSums(group: seq<Line>, id: string, r: RequestInfo, owner: Provider, link: Transaction)
    requires multiset(Map(group, AsScheduled)) == multiset(PackageLines(id, r, owner, r.items, link))
    ensures Sum(group, Amount) == Sum(r.items, ProviderUnits) && Sum(group, SalesAmount) == Sum(r.items, ConsumerUnits)
  {
    var made, lines := Map(group, AsScheduled), PackageLines(id, r, owner, r.items, link);
    PackageLinesBill(id, r, owner, r.items, link);
    SumPermutation(made, lines, Amount);
    SumPermutation(made, lines, SalesAmount);
    SumMap(group, AsScheduled, Amount, Amount);
    SumMap(group, AsScheduled, SalesAmount, SalesAmount);
  }

  lemma GroupMembers(group: seq<Line>, id: string, r: RequestInfo, owner: Provider, link: Transaction)
    requires multiset(Map(group, AsScheduled)) == multiset(PackageLines(id, r, owner, r.items, link))
    ensures forall l :: l in group ==>
              IsServiceLine(l) && l.consumerPromotionAmount == r.consumerPromotionAmount && l.vendorId == owner.vendorId
  {
    var made, lines := Map(group, AsScheduled), PackageLines(id, r, owner, r.items, link);
    PackageLinesBill(id, r, owner, r.items, link);
    forall i | 0 <= i < |group|
      ensures made[i] in lines
    {
      assert made[i] in multiset(made);
    }
  }

  lemma GroupBills(group: seq<Line>, id: string, r: RequestInfo, owner: Provider, link: Transaction)
    requires multiset(Map(group, AsScheduled)) == multiset(PackageLines(id, r, owner, r.items, link)) && group != []
    ensures var s := Summarise(group);
            && s.amount == Sum(r.items, ProviderUnits) && s.itemSalesAmount == Sum(r.items, ConsumerUnits)
            && s.consumerPromotionAmount == r.consumerPromotionAmount && s.vendorId == owner.vendorId
            && s.hasServiceFee && !s.hasRescheduleSurcharge
  {
    GroupSums(group, id, r, owner, link);
    GroupMembers(group, id, r, owner, link);
    FilterMembers(group, IsServiceLine);
    assert group[0] in Filter(group, IsServiceLine);
    FilterNone(group, IsSurchargeLine);
  }

  /** The group of a request whose only transaction in a run is the income of its order. */
  lemma FileGroup(ts: seq<Transaction>, requests: map<string, RequestInfo>, payable: map<string, Provider>, id: string, t: Transaction,
                  r: RequestInfo, file: seq<Line>)
    requires AllLines(ts, requests, payable).Ok?
    requires TransactionsOf(ts, id) == [t] && t.kind.Income? && id in requests && requests[id] == r
    requires Carries(file, AllLines(ts, requests, payable).value, id)
    ensures LinesOfRequest(file, id) != [] <==> exists i :: i in r.items && i.quantity > 0
    ensures LinesOfRequest(file, id) != [] ==>
              r.dispatcherId in payable &&
              multiset(Map(LinesOfRequest(file, id), AsScheduled)) == multiset(PackageLines(id, r, payable[r.dispatcherId], r.items, t))
  {
    RunLinesOfRequest(ts, requests, payable, id, t);
    var group, lines := LinesOfRequest(file, id), LinesOf(t, Some(t), requests, payable).value;
    assert |group| == |multiset(Map(group, AsScheduled))| == |multiset(lines)| == |lines|;
    if r.items != [] {
      PackageLinesBill(id, r, payable[r.dispatcherId], r.items, t);
    }
  }

  lemma FileShowsPlaced(ts: seq<Transaction>, requests: map<string, RequestInfo>, payable: map<string, Provider>, id: string, t: Transaction,
                          o: Order, dispatcherId: string, tenant: Tenant, surcharge: int, file: seq<Line>, d: Detail)
    requires AllLines(ts, requests, payable).Ok? && IsPlaced(o)
    requires TransactionsOf(ts, id) == [t] && t.kind.Income?
    requires id in requests && requests[id] == RequestOf(o, dispatcherId, tenant, surcharge)
    requires Carries(file, AllLines(ts, requests, payable).value, id)
    ensures id in RequestIds(file) <==> exists p :: p in o.packages && p.quantity > 0
    ensures d in FileDetails(file) && d.requestId == id
            ==> d.amount == o.providerTotal && d.customerPaidAmount == o.consumerTotal + HiddenPromotion(o) && d.surchargeVendorId == None
                && dispatcherId in payable && d.serviceVendorId == payable[dispatcherId].vendorId
  {
    var r := requests[id];
    FileGroup(ts, requests, payable, id, t, r, file);
    HasUnit(o, r);
    GroupIsInhabited(file, id);
    if d in FileDetails(file) && d.requestId == id {
      DetailOf(file, d);
      GroupBills(GroupOf(file, id), id, r, payable[r.dispatcherId], t);
      UnitsAddUpToOrder(o, dispatcherId, tenant, surcharge);
    }
  }

  /** A request whose only transaction in a run is an income, and whose order was made of new packages: the summary file has
      a row for it exactly if a unit was ordered; the row pays the provider the order's provider total, and names the dispatcher's vendor, and shows as paid by
      the customer the order's consumer total, which is after promotion, exactly if the promotion has a code or is 0. */
  lemma FileShowsTheOrder(ts: seq<Transaction>, requests: map<string, RequestInfo>, payable: map<string, Provider>, id: string, t: Transaction,
                          remarks: Remarks, ws: seq<Wanted>, promotion: Option<Promotion>, norm: string -> string,
                          dispatcherId: string, tenant: Tenant, surcharge: int, file: seq<Line>, d: Detail)
    requires AllLines(ts, requests, payable).Ok? && !remarks.Undefined? && forall w :: w in ws ==> w.quantity >= 0
    requires TransactionsOf(ts, id) == [t] && t.kind.Income? && id in requests
    requires requests[id] == RequestOf(NewOrder(remarks, PackagesOf(ws, norm), promotion, norm), dispatcherId, tenant, surcharge)
    requires Carries(file, AllLines(ts, requests, payable).value, id)
    ensures id in RequestIds(file) <==> exists w :: w in ws && w.quantity > 0
    ensures var o := NewOrder(remarks, PackagesOf(ws, norm), promotion, norm);
            d in FileDetails(file) && d.requestId == id
            ==> (d.customerPaidAmount == o.consumerTotal <==> !IsMissing(o.promotion.code) || o.promotion.discountedAmount == 0)
    ensures var o := NewOrder(remarks, PackagesOf(ws, norm), promotion, norm);
            d in FileDetails(file) && d.requestId == id
            ==> d.amount == o.providerTotal && d.customerPaidAmount == o.consumerTotal + HiddenPromotion(o) && d.surchargeVendorId == None
                && dispatcherId in payable && d.serviceVendorId == payable[dispatcherId].vendorId
  {
    var o := NewOrder(remarks, PackagesOf(ws, norm), promotion, norm);
    NewPackagesAreWellPriced(ws, norm);
    NewOrderIsPlaced(remarks, PackagesOf(ws, norm), promotion, norm);
    FileShowsPlaced(ts, requests, payable, id, t, o, dispatcherId, tenant, surcharge, file, d);
    OrderedUnits(remarks, ws, promotion, norm);
  }

  lemma OrderedUnits(remarks: Remarks, ws: seq<Wanted>, promotion: Option<Promotion>, norm: string -> string)
    requires !remarks.Undefined?
    ensures var o := NewOrder(remarks, PackagesOf(ws, norm), promotion, norm);
            (exists p :: p in o.packages && p.quantity > 0) <==> exists w :: w in ws && w.quantity > 0
  {
    var o := NewOrder(remarks, PackagesOf(ws, norm), promotion, norm);
    assert forall i :: 0 <= i < |ws| ==> o.packages[i].quantity == ws[i].quantity;
    if p :| p in o.packages && p.quantity > 0 {
      var i :| 0 <= i < |o.packages| && o.packages[i] == p;
      assert ws[i] in ws;
    }
    if w :| w in ws && w.quantity > 0 {
      var i :| 0 <= i < |ws| && ws[i] == w;
      assert o.packages[i] in o.packages;
    }
  }

  lemma HasUnit(o: Order, r: RequestInfo)
    requires o.Order? && r.items == Map(o.packages, UnitOf)
    ensures (exists i :: i in r.items && i.quantity > 0) <==> exists p :: p in o.packages && p.quantity > 0
  {
    if i :| i in r.items && i.quantity > 0 {
      var k :| 0 <= k < |r.items| && r.items[k] == i;
      assert o.packages[k] in o.packages;
    }
    if p :| p in o.packages && p.quantity > 0 {
      var k :| 0 <= k < |o.packages| && o.packages[k] == p;
      assert r.items[k] in r.items;
    }
  }

  /** A row is the summary of the group of its request. */
  lemma DetailOf(file: seq<Line>, d: Detail)
    requires d in FileDetails(file)
    ensures d.requestId in RequestIds(file) && d == ToDetail(Summarise(GroupOf(file, d.requestId)))
  {
    var k :| 0 <= k < |FileDetails(file)| && FileDetails(file)[k] == d;
    var id := RequestIds(file)[k];
    GroupIsInhabited(file, id);
    assert GroupOf(file, id)[0] in LinesOfRequest(file, id);
  }
}
