/** The customer order: bundling by service package group, totals, promotion, revision. */
module CustomerOrders {
  import opened Wrappers
  import opened Sums
  import opened Sorting
  import opened Pricing
  import opened RequestedServicePackages

  datatype Remarks = Undefined | Null | Text(text: string)

  /** An applied promotion; an order without one hands on no code and the amount 0. */
  datatype Promotion = Promotion(code: Option<string>, discountedAmount: int)

  /** `Blank` is what the constructor leaves when it takes the call for a hydration. */
  datatype Order =
    | Blank
    | Order(
        remarks: Remarks,
        packages: seq<Package>,
        consumerDiscountAmount: int,
        consumerSubTotal: int,
        consumerTotal: int,
        providerDiscountAmount: int,
        providerSubTotal: int,
        providerTotal: int,
        promotion: Promotion)

  const NO_PROMOTION := Promotion(None, 0)

  /** The property name under which a package is counted: a missing code is counted as "null". */
  function GroupKey(code: Option<string>): string {
    if code.None? then "null" else code.value
  }

  /** The quantity of all packages counted under a key. */
  function GroupTotal(ps: seq<Package>, key: string): int {
    Sum(ps, (p: Package) => if GroupKey(p.groupCode) == key then p.quantity else 0)
  }

  function BundledIn(ps: seq<Package>, norm: string -> string, p: Package): Package {
    WithGroupQuantity(p, GroupTotal(ps, GroupKey(p.groupCode)), norm)
  }

  function Bundled(ps: seq<Package>, norm: string -> string): seq<Package> {
    Map(ps, p => BundledIn(ps, norm, p))
  }

  function TotalOf(ps: seq<Package>, f: Package -> int): int {
    Sum(ps, f)
  }

  function ConsumerDiscount(p: Package): int { p.consumer.discountAmount }
  function ConsumerSub(p: Package): int { p.consumer.subTotal }
  function ConsumerDue(p: Package): int { p.consumer.total }
  function ProviderDiscount(p: Package): int { p.provider.discountAmount }
  function ProviderSub(p: Package): int { p.provider.subTotal }
  function ProviderDue(p: Package): int { p.provider.total }

  function Effective(promotion: Option<Promotion>): Promotion {
    if promotion.Some? && promotion.value.discountedAmount > 0 then promotion.value else NO_PROMOTION
  }

  function NewOrder(remarks: Remarks, packages: seq<Package>, promotion: Option<Promotion>, norm: string -> string): Order {
    if remarks.Undefined? then Blank
    else
      var ps := Bundled(packages, norm);
      Order(remarks, ps, TotalOf(ps, ConsumerDiscount), TotalOf(ps, ConsumerSub),
            TotalOf(ps, ConsumerDue) - Effective(promotion).discountedAmount,
            TotalOf(ps, ProviderDiscount), TotalOf(ps, ProviderSub), TotalOf(ps, ProviderDue), Effective(promotion))
  }

  /** Prices the given packages again under the order's remarks and promotion. */
  function Revise(o: Order, packages: seq<Package>, norm: string -> string): Order {
    if o.Blank? then Blank else NewOrder(o.remarks, packages, Some(o.promotion), norm)
  }

  function AfterReset(o: Order, norm: string -> string): Order {
    if o.Blank? then Blank else Revise(o, o.packages, norm)
  }

  function ResetTimes(o: Order, n: nat, norm: string -> string): Order {
    if n == 0 then o else AfterReset(ResetTimes(o, n - 1, norm), norm)
  }

  function ApplyPromotion(o: Order, promotion: Promotion, norm: string -> string): Order {
    if o.Blank? then Blank else NewOrder(o.remarks, o.packages, Some(promotion), norm)
  }

  // ---------- Re-pricing is a fixed point ----------

  lemma WithGroupQuantityTwice(p: Package, g: int, norm: string -> string)
    ensures var once := WithGroupQuantity(p, g, norm);
            && once.groupCode == p.groupCode && once.quantity == p.quantity
            && WithGroupQuantity(once, g, norm) == once
  {
    if !IsMissing(p.groupCode) && g != 0 {
      var n := if g < 0 then 0 else g;
      PriceAtTwice(p.(groupQuantity := n), n, norm);
    }
  }

  /** Bundling keeps the quantity of every group. */
  lemma BundlingKeepsGroups(ps: seq<Package>, norm: string -> string, key: string)
    ensures GroupTotal(Bundled(ps, norm), key) == GroupTotal(ps, key)
  {
    SumMap(ps, p => BundledIn(ps, norm, p),
           (p: Package) => if GroupKey(p.groupCode) == key then p.quantity else 0,
           (p: Package) => if GroupKey(p.groupCode) == key then p.quantity else 0);
  }

  lemma BundledTwice(ps: seq<Package>, norm: string -> string)
    ensures Bundled(Bundled(ps, norm), norm) == Bundled(ps, norm)
  {
    var once := Bundled(ps, norm);
    forall i | 0 <= i < |ps|
      ensures Bundled(once, norm)[i] == once[i]
    {
      var key := GroupKey(ps[i].groupCode);
      WithGroupQuantityTwice(ps[i], GroupTotal(ps, key), norm);
      BundlingKeepsGroups(ps, norm, key);
    }
  }

  /** Any number of resets of an order gives the same order: the promotion is deducted once. */
  lemma {:induction false} ResetIsIdentity(remarks: Remarks, packages: seq<Package>, promotion: Option<Promotion>, n: nat, norm: string -> string)
    ensures var o := NewOrder(remarks, packages, promotion, norm);
            ResetTimes(o, n, norm) == o
  {
    var o := NewOrder(remarks, packages, promotion, norm);
    if n > 0 {
      ResetIsIdentity(remarks, packages, promotion, n - 1, norm);
      BundledTwice(packages, norm);
    }
  }

  /** A promotion replaces the one before; it is not deducted from what that one left. */
  lemma PromotionsReplace(remarks: Remarks, packages: seq<Package>, first: Option<Promotion>, second: Promotion, norm: string -> string)
    ensures ApplyPromotion(NewOrder(remarks, packages, first, norm), second, norm) == NewOrder(remarks, packages, Some(second), norm)
  {
    BundledTwice(packages, norm);
  }

  // ---------- What the totals say ----------

  lemma BundledPriced(p: Package, g: int, norm: string -> string)
    requires IsWellPriced(p)
    ensures IsWellPriced(WithGroupQuantity(p, g, norm))
  {}

  /** What the customer pays is the price of the original units less the discounts less the promotion. */
  lemma ConsumerTotalAddsUp(remarks: Remarks, packages: seq<Package>, promotion: Option<Promotion>, norm: string -> string)
    requires !remarks.Undefined? && forall p :: p in packages ==> IsWellPriced(p)
    ensures var o := NewOrder(remarks, packages, promotion, norm);
            && o.consumerTotal == o.consumerSubTotal - o.consumerDiscountAmount - o.promotion.discountedAmount
            && o.providerTotal == o.providerSubTotal - o.providerDiscountAmount
            && o.promotion.discountedAmount >= 0
  {
    var o := NewOrder(remarks, packages, promotion, norm);
    forall i | 0 <= i < |packages|
      ensures IsWellPriced(o.packages[i])
    {
      assert packages[i] in packages;
      BundledPriced(packages[i], GroupTotal(packages, GroupKey(packages[i].groupCode)), norm);
    }
    SumPlus(o.packages, ConsumerDiscount, ConsumerDue, ConsumerSub);
    SumPlus(o.packages, ProviderDiscount, ProviderDue, ProviderSub);
  }

  /** All totals are sums over the packages of quantity times unit price, original or discounted; a promotion that is worth something is
      deducted from what the customer pays. */
  lemma TotalsAreUnits(remarks: Remarks, packages: seq<Package>, promotion: Option<Promotion>, norm: string -> string)
    requires !remarks.Undefined? && forall p :: p in packages ==> IsWellPriced(p)
    ensures var o := NewOrder(remarks, packages, promotion, norm);
            && o.providerTotal == Sum(o.packages, (p: Package) => p.quantity * p.provider.discountedUnitPrice)
            && o.consumerTotal + o.promotion.discountedAmount == Sum(o.packages, (p: Package) => p.quantity * p.consumer.discountedUnitPrice)
            && o.providerSubTotal == Sum(o.packages, (p: Package) => p.quantity * p.provider.unitPrice)
            && o.consumerSubTotal == Sum(o.packages, (p: Package) => p.quantity * p.consumer.unitPrice)
            && o.promotion == (if promotion.Some? && promotion.value.discountedAmount > 0 then promotion.value else Promotion(None, 0))
  {
    var o := NewOrder(remarks, packages, promotion, norm);
    forall i | 0 <= i < |packages|
      ensures IsWellPriced(o.packages[i])
    {
      assert packages[i] in packages;
      BundledPriced(packages[i], GroupTotal(packages, GroupKey(packages[i].groupCode)), norm);
    }
    SumCongruent(o.packages, ProviderDue, (p: Package) => p.quantity * p.provider.discountedUnitPrice);
    SumCongruent(o.packages, ConsumerDue, (p: Package) => p.quantity * p.consumer.discountedUnitPrice);
    SumCongruent(o.packages, ProviderSub, (p: Package) => p.quantity * p.provider.unitPrice);
    SumCongruent(o.packages, ConsumerSub, (p: Package) => p.quantity * p.consumer.unitPrice);
  }

  // ---------- The order of the packages does not matter ----------

  lemma GroupsIgnoreOrder(ps: seq<Package>, qs: seq<Package>, key: string)
    requires multiset(ps) == multiset(qs)
    ensures GroupTotal(ps, key) == GroupTotal(qs, key)
  {
    SumPermutation(ps, qs, (p: Package) => if GroupKey(p.groupCode) == key then p.quantity else 0);
  }

  lemma BundledTotalsIgnoreOrder(ps: seq<Package>, qs: seq<Package>, f: Package -> int, norm: string -> string)
    requires multiset(ps) == multiset(qs)
    ensures TotalOf(Bundled(ps, norm), f) == TotalOf(Bundled(qs, norm), f)
  {
    SumMap(ps, p => BundledIn(ps, norm, p), f, p => f(BundledIn(ps, norm, p)));
    SumMap(qs, p => BundledIn(qs, norm, p), f, p => f(BundledIn(qs, norm, p)));
    forall p | p in ps
      ensures BundledIn(ps, norm, p) == BundledIn(qs, norm, p)
    {
      GroupsIgnoreOrder(ps, qs, GroupKey(p.groupCode));
    }
    SumCongruent(ps, p => f(BundledIn(ps, norm, p)), p => f(BundledIn(qs, norm, p)));
    SumPermutation(ps, qs, p => f(BundledIn(qs, norm, p)));
  }

  lemma TotalsIgnoreOrder(remarks: Remarks, ps: seq<Package>, qs: seq<Package>, promotion: Option<Promotion>, norm: string -> string)
    requires multiset(ps) == multiset(qs)
    ensures var a := NewOrder(remarks, ps, promotion, norm);
            var b := NewOrder(remarks, qs, promotion, norm);
            (a.Blank? && b.Blank?) || (a.Order? && b.Order? && a == b.(packages := a.packages))
  {
    BundledTotalsIgnoreOrder(ps, qs, ConsumerDiscount, norm);
    BundledTotalsIgnoreOrder(ps, qs, ConsumerSub, norm);
    BundledTotalsIgnoreOrder(ps, qs, ConsumerDue, norm);
    BundledTotalsIgnoreOrder(ps, qs, ProviderDiscount, norm);
    BundledTotalsIgnoreOrder(ps, qs, ProviderSub, norm);
    BundledTotalsIgnoreOrder(ps, qs, ProviderDue, norm);
  }

  // ---------- Bundling never makes an order dearer ----------

  predicate IsDegressiveList(qs: Option<seq<Quotation>>) {
    qs.Some? ==> IsDegressive(qs.value)
  }

  /** The package has the prices of its own quantity, with tiers that do not rise. */
  predicate IsPricedAlone(p: Package, norm: string -> string) {
    p.quantity >= 1 && IsDegressiveList(p.consumerQuotations) && IsDegressiveList(p.providerQuotations) && PriceAt(p, p.quantity, norm) == p
  }

  lemma NewPackageIsPricedAlone(quantity: int, addressState: string, groupCode: Option<string>, consumerQuotations: Option<seq<Quotation>>,
                                providerQuotations: Option<seq<Quotation>>, norm: string -> string)
    requires quantity >= 1 && IsDegressiveList(consumerQuotations) && IsDegressiveList(providerQuotations)
    ensures IsPricedAlone(NewPackage(quantity, addressState, groupCode, consumerQuotations, providerQuotations, norm), norm)
  {
    var blank := Package(groupCode, quantity, addressState, consumerQuotations, providerQuotations, 0, NO_PRICES, NO_PRICES);
    PriceAtTwice(WithOriginals(blank, norm), quantity, norm);
    if consumerQuotations.Some? {
      SortTwice(consumerQuotations.value);
      SortSorted(consumerQuotations.value, (q: Quotation) => q.minQuantity);
    }
    if providerQuotations.Some? {
      SortTwice(providerQuotations.value);
      SortSorted(providerQuotations.value, (q: Quotation) => q.minQuantity);
    }
  }

  lemma LineNeverDearer(p: Package, g: int, norm: string -> string)
    requires IsPricedAlone(p, norm) && p.quantity <= g
    ensures var b := WithGroupQuantity(p, g, norm);
            b.consumer.total <= p.consumer.total && b.provider.total <= p.provider.total && b.consumer.subTotal == p.consumer.subTotal
  {
    var b := WithGroupQuantity(p, g, norm);
    if p.consumerQuotations.Some? {
      ConsumerPriceMonotone(p.consumerQuotations.value, p.quantity, g);
    }
    if p.providerQuotations.Some? {
      ProviderPriceMonotone(p.providerQuotations.value, p.quantity, g, p.state, norm);
    }
    Scaled(b.consumer.discountedUnitPrice, p.consumer.discountedUnitPrice, p.quantity);
    Scaled(b.provider.discountedUnitPrice, p.provider.discountedUnitPrice, p.quantity);
  }

  /** With tiers that do not rise and quantities from 1 on, an order costs no more than its packages one by one. */
  lemma OrderNeverDearer(remarks: Remarks, packages: seq<Package>, promotion: Option<Promotion>, norm: string -> string)
    requires !remarks.Undefined? && forall p :: p in packages ==> IsPricedAlone(p, norm)
    ensures var o := NewOrder(remarks, packages, promotion, norm);
            && o.consumerTotal + o.promotion.discountedAmount <= TotalOf(packages, ConsumerDue)
            && o.providerTotal <= TotalOf(packages, ProviderDue)
            && o.consumerSubTotal == TotalOf(packages, ConsumerSub)
  {
    var h := (p: Package) => BundledIn(packages, norm, p);
    forall p | p in packages
      ensures h(p).consumer.total <= p.consumer.total && h(p).provider.total <= p.provider.total
      ensures h(p).consumer.subTotal == p.consumer.subTotal
    {
      var key := GroupKey(p.groupCode);
      var f := (q: Package) => if GroupKey(q.groupCode) == key then q.quantity else 0;
      SumNonNegative(packages, f);
      assert f(p) <= GroupTotal(packages, key);
      LineNeverDearer(p, GroupTotal(packages, key), norm);
    }
    SumMap(packages, h, ConsumerDue, p => h(p).consumer.total);
    SumMap(packages, h, ProviderDue, p => h(p).provider.total);
    SumMap(packages, h, ConsumerSub, p => h(p).consumer.subTotal);
    SumMonotone(packages, p => h(p).consumer.total, ConsumerDue);
    SumMonotone(packages, p => h(p).provider.total, ProviderDue);
    SumCongruent(packages, p => h(p).consumer.subTotal, ConsumerSub);
  }

  // ---------- Orders of new packages ----------

  /** What a customer orders of one service package: the quantity, and the quotations the package carries. */
  datatype Wanted = Wanted(
    quantity: int,
    addressState: string,
    groupCode: Option<string>,
    consumerQuotations: Option<seq<Quotation>>,
    providerQuotations: Option<seq<Quotation>>)

  function PackageOf(w: Wanted, norm: string -> string): Package {
    NewPackage(w.quantity, w.addressState, w.groupCode, w.consumerQuotations, w.providerQuotations, norm)
  }

  function PackagesOf(ws: seq<Wanted>, norm: string -> string): seq<Package> {
    Map(ws, w => PackageOf(w, norm))
  }

  /** An order of new packages with tiers that do not rise costs no more than its packages ordered one by one. */
  lemma NewOrderNeverDearer(remarks: Remarks, ws: seq<Wanted>, promotion: Option<Promotion>, norm: string -> string)
    requires !remarks.Undefined?
    requires forall w :: w in ws ==> w.quantity >= 1 && IsDegressiveList(w.consumerQuotations) && IsDegressiveList(w.providerQuotations)
    ensures var o := NewOrder(remarks, PackagesOf(ws, norm), promotion, norm);
            && o.consumerTotal + o.promotion.discountedAmount <= TotalOf(PackagesOf(ws, norm), ConsumerDue)
            && o.providerTotal <= TotalOf(PackagesOf(ws, norm), ProviderDue)
            && o.consumerSubTotal == TotalOf(PackagesOf(ws, norm), ConsumerSub)
  {
    var ps := PackagesOf(ws, norm);
    forall p | p in ps
      ensures IsPricedAlone(p, norm)
    {
      var i :| 0 <= i < |ps| && ps[i] == p;
      var w := ws[i];
      assert w in ws;
      NewPackageIsPricedAlone(w.quantity, w.addressState, w.groupCode, w.consumerQuotations, w.providerQuotations, norm);
    }
    OrderNeverDearer(remarks, ps, promotion, norm);
  }

  /** The packages bundled with `w` carry its code; those without a code are counted under the code "null". */
  predicate IsBundledWith(v: Wanted, w: Wanted) {
    v.groupCode == w.groupCode || (v.groupCode.None? && w.groupCode == Some("null"))
  }

  function BundleQuantity(ws: seq<Wanted>, w: Wanted): int {
    Sum(ws, v => if IsBundledWith(v, w) then v.quantity else 0)
  }

  /** The quantity whose tier prices a package of an order: that of its bundle, or its own if it has no code or the bundle's is 0. */
  function TierQuantity(ws: seq<Wanted>, w: Wanted): int {
    var n := BundleQuantity(ws, w);
    if IsMissing(w.groupCode) || n == 0 then w.quantity else if n < 0 then 0 else n
  }

  lemma BundleTotal(ws: seq<Wanted>, w: Wanted, norm: string -> string)
    requires !IsMissing(w.groupCode)
    ensures GroupTotal(PackagesOf(ws, norm), GroupKey(w.groupCode)) == BundleQuantity(ws, w)
  {
    var f := (p: Package) => if GroupKey(p.groupCode) == GroupKey(w.groupCode) then p.quantity else 0;
    SumMap(ws, v => PackageOf(v, norm), f, v => f(PackageOf(v, norm)));
    SumCongruent(ws, v => f(PackageOf(v, norm)), v => if IsBundledWith(v, w) then v.quantity else 0);
  }

  /** The package is `w`'s, with the original prices of one unit and the discounted ones of `n`, in the state of the provider's
      original tier. */
  ghost predicate IsPricedFor(p: Package, w: Wanted, n: int, norm: string -> string) {
    && p.quantity == w.quantity && p.groupCode == w.groupCode && IsWellPriced(p)
    && IsOriginal(p.consumer, w.consumerQuotations, AnyState()) && IsLocated(p, w.providerQuotations, w.addressState, norm)
    && IsDiscounted(p.consumer, w.consumerQuotations, AnyState(), n)
    && IsDiscounted(p.provider, w.providerQuotations, OfState(p.state, norm), n)
  }

  lemma WantedLists(w: Wanted, norm: string -> string)
    ensures PackageOf(w, norm).consumerQuotations == SortedList(w.consumerQuotations)
    ensures PackageOf(w, norm).providerQuotations == SortedList(w.providerQuotations)
  {
    if w.consumerQuotations.Some? {
      SortTwice(w.consumerQuotations.value);
    }
    if w.providerQuotations.Some? {
      SortTwice(w.providerQuotations.value);
    }
  }

  lemma WantedPrices(w: Wanted, groupQuantity: int, norm: string -> string)
    ensures var n := if IsMissing(w.groupCode) || groupQuantity == 0 then w.quantity else if groupQuantity < 0 then 0 else groupQuantity;
            IsPricedFor(WithGroupQuantity(PackageOf(w, norm), groupQuantity, norm), w, n, norm)
  {
    var p := PackageOf(w, norm);
    NewPackagePrices(w.quantity, w.addressState, w.groupCode, w.consumerQuotations, w.providerQuotations, norm);
    GroupPrices(p, groupQuantity, norm);
    if !IsMissing(w.groupCode) && groupQuantity != 0 {
      var n := if groupQuantity < 0 then 0 else groupQuantity;
      var p' := WithGroupQuantity(p, groupQuantity, norm);
      WantedLists(w, norm);
      SortedDiscount(p'.consumer, w.consumerQuotations, AnyState(), n);
      SortedDiscount(p'.provider, w.providerQuotations, OfState(p'.state, norm), n);
    }
  }

  /** In an order of new packages each is priced for the quantity of its bundle. */
  lemma OrderPrices(remarks: Remarks, ws: seq<Wanted>, promotion: Option<Promotion>, norm: string -> string, i: nat)
    requires !remarks.Undefined? && i < |ws|
    ensures IsPricedFor(NewOrder(remarks, PackagesOf(ws, norm), promotion, norm).packages[i], ws[i], TierQuantity(ws, ws[i]), norm)
  {
    var w, ps := ws[i], PackagesOf(ws, norm);
    var g := GroupTotal(ps, GroupKey(w.groupCode));
    assert ps[i].groupCode == w.groupCode;
    assert NewOrder(remarks, ps, promotion, norm).packages[i] == WithGroupQuantity(PackageOf(w, norm), g, norm);
    WantedPrices(w, g, norm);
    if !IsMissing(w.groupCode) {
      BundleTotal(ws, w, norm);
    }
  }

  lemma NewPackagesAreWellPriced(ws: seq<Wanted>, norm: string -> string)
    ensures forall p :: p in PackagesOf(ws, norm) ==> IsWellPriced(p) && exists w :: w in ws && p == PackageOf(w, norm) && p.quantity == w.quantity
  {
    var ps := PackagesOf(ws, norm);
    forall p | p in ps
      ensures IsWellPriced(p) && exists w :: w in ws && p == PackageOf(w, norm) && p.quantity == w.quantity
    {
      var i :| 0 <= i < |ps| && ps[i] == p;
      assert ws[i] in ws && p == PackageOf(ws[i], norm);
    }
  }

  // ---------- The order as an object over shared package objects ----------

  function Values(ps: seq<RequestedServicePackage>): (r: seq<Package>)
    reads ps
    ensures |r| == |ps| && forall i :: 0 <= i < |ps| ==> r[i] == ps[i].Value()
  {
    seq(|ps|, i requires 0 <= i < |ps| reads ps => ps[i].Value())
  }

  class CustomerOrder {
    const norm: string -> string
    var isHydrated: bool
    var remarks: Remarks
    var packages: seq<RequestedServicePackage>
    var consumerDiscountAmount: int
    var consumerSubTotal: int
    var consumerTotal: int
    var providerDiscountAmount: int
    var providerSubTotal: int
    var providerTotal: int
    var promotion: Promotion

    function Value(): Order
      reads this, packages
    {
      if !isHydrated then Blank
      else Order(remarks, Values(packages), consumerDiscountAmount, consumerSubTotal, consumerTotal,
                 providerDiscountAmount, providerSubTotal, providerTotal, promotion)
    }

    constructor (remarks: Remarks, requested: seq<RequestedServicePackage>, applied: Option<Promotion>, norm: string -> string)
      requires forall p :: p in requested ==> p.norm == norm
      modifies if remarks.Undefined? then {} else set p | p in requested
      ensures this.norm == norm && (isHydrated ==> packages == requested)
      ensures Value() == NewOrder(remarks, old(Values(requested)), applied, norm)
    {
      this.norm := norm;
      this.remarks := remarks;
      isHydrated := !remarks.Undefined?;
      packages := if remarks.Undefined? then [] else requested;
      promotion := NO_PROMOTION;
      if !remarks.Undefined? {
        BundleByServicePackageGroupCodes(requested, norm);
        var discount, sub, due, providerDiscount, providerSub, providerDue := CalculateTotals(Values(requested));
        consumerDiscountAmount, consumerSubTotal, consumerTotal := discount, sub, due;
        providerDiscountAmount, providerSubTotal, providerTotal := providerDiscount, providerSub, providerDue;
        if applied.Some? && applied.value.discountedAmount > 0 {
          promotion := applied.value;
          consumerTotal := due - applied.value.discountedAmount;
        }
      }
      new;
      assert isHydrated ==> Values(packages) == Bundled(old(Values(requested)), norm);
    }

    /** The new order shares the package objects, which it re-prices. */
    method ReviseRequestedServicePackages(requested: seq<RequestedServicePackage>) returns (o: CustomerOrder)
      requires forall p :: p in requested ==> p.norm == norm
      requires isHydrated ==> !remarks.Undefined?
      modifies requested
      ensures fresh(o) && o.Value() == Revise(old(Value()), old(Values(requested)), norm)
    {
      o := new CustomerOrder(if isHydrated then remarks else Undefined, requested, Some(promotion), norm);
    }

    method Reset() returns (o: CustomerOrder)
      requires forall p :: p in packages ==> p.norm == norm
      requires isHydrated ==> !remarks.Undefined?
      modifies packages
      ensures fresh(o) && o.Value() == AfterReset(old(Value()), norm)
    {
      o := ReviseRequestedServicePackages(packages);
    }
  }

  method Reduce(ps: seq<Package>, f: Package -> int) returns (total: int)
    ensures total == Sum(ps, f)
  {
    total := 0;
    for i := 0 to |ps|
      invariant total == Sum(ps[..i], f)
    {
      assert ps[..i + 1] == ps[..i] + [ps[i]];
      SumSnoc(ps[..i], ps[i], f);
      total := total + f(ps[i]);
    }
    assert ps[..|ps|] == ps;
  }

  method CalculateTotals(ps: seq<Package>)
    returns (consumerDiscount: int, consumerSub: int, consumerDue: int, providerDiscount: int, providerSub: int, providerDue: int)
    ensures consumerDiscount == TotalOf(ps, ConsumerDiscount) && providerDiscount == TotalOf(ps, ProviderDiscount)
    ensures consumerSub == TotalOf(ps, ConsumerSub) && providerSub == TotalOf(ps, ProviderSub)
    ensures consumerDue == TotalOf(ps, ConsumerDue) && providerDue == TotalOf(ps, ProviderDue)
  {
    consumerDiscount := Reduce(ps, ConsumerDiscount);
    consumerSub := Reduce(ps, ConsumerSub);
    consumerDue := Reduce(ps, ConsumerDue);
    providerDiscount := Reduce(ps, ProviderDiscount);
    providerSub := Reduce(ps, ProviderSub);
    providerDue := Reduce(ps, ProviderDue);
  }

  method GroupQuantities(ps: seq<RequestedServicePackage>) returns (groups: map<string, int>)
    ensures forall key :: GroupQuantityIn(groups, Some(key)) == GroupTotal(Values(ps), key)
  {
    groups := map[];
    ghost var vs := Values(ps);
    for i := 0 to |ps|
      invariant forall key :: GroupQuantityIn(groups, Some(key)) == GroupTotal(vs[..i], key)
    {
      assert vs[..i + 1] == vs[..i] + [vs[i]];
      forall key
        ensures GroupTotal(vs[..i + 1], key) == GroupTotal(vs[..i], key) + if GroupKey(vs[i].groupCode) == key then vs[i].quantity else 0
      {
        SumSnoc(vs[..i], vs[i], (p: Package) => if GroupKey(p.groupCode) == key then p.quantity else 0);
      }
      var key := GroupKey(ps[i].groupCode);
      if key !in groups || groups[key] == 0 {
        groups := groups[key := 0];
      }
      groups := groups[key := groups[key] + ps[i].quantity];
    }
    assert vs[..|ps|] == vs;
  }

  method BundleByServicePackageGroupCodes(ps: seq<RequestedServicePackage>, norm: string -> string)
    requires forall p :: p in ps ==> p.norm == norm
    modifies ps
    ensures Values(ps) == Bundled(old(Values(ps)), norm)
  {
    var groups := GroupQuantities(ps);
    ghost var was := Values(ps);
    ghost var goal := Bundled(was, norm);
    for i := 0 to |ps|
      invariant forall k :: 0 <= k < |ps| ==> ps[k].Value() == was[k] || ps[k].Value() == goal[k]
      invariant forall k :: 0 <= k < i ==> ps[k].Value() == goal[k]
    {
      GroupMapBundles(was, groups, norm, i, ps[i].Value());
      ps[i].ChangeServicePackageGroupQuantity(groups);
      assert ps[i].Value() == goal[i];
      assert forall k :: 0 <= k < |ps| && ps[k] == ps[i] ==> was[k] == was[i] && goal[k] == goal[i];
    }
  }

  /** Applying the group map takes a package to its bundled form, and leaves that form, which a second mention of the
      same object would hit. */
  lemma GroupMapBundles(ps: seq<Package>, groups: map<string, int>, norm: string -> string, k: nat, p: Package)
    requires k < |ps| && forall key :: GroupQuantityIn(groups, Some(key)) == GroupTotal(ps, key)
    requires p == ps[k] || p == Bundled(ps, norm)[k]
    ensures WithGroupQuantity(p, GroupQuantityIn(groups, p.groupCode), norm) == Bundled(ps, norm)[k]
  {
    WithGroupQuantityTwice(ps[k], GroupTotal(ps, GroupKey(ps[k].groupCode)), norm);
  }
}
