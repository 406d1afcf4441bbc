/** Volume tiers and the prices of one requested service package. Money is in units of 0.0001. */
module Pricing {
  import opened Wrappers
  import opened Sums
  import opened Sorting

  /** A tier of a price list; only provider tiers name a state, and it may be missing. */
  datatype Quotation = Quotation(minQuantity: int, unitPrice: int, state: Option<string>)

  datatype Prices = Prices(unitPrice: int, minQuantity: int, discountedUnitPrice: int, subTotal: int, total: int, discountAmount: int)

  /** A price list that is `None` was never snapshot: its prices are left alone. */
  datatype Package = Package(
    groupCode: Option<string>,
    quantity: int,
    state: string,
    consumerQuotations: Option<seq<Quotation>>,
    providerQuotations: Option<seq<Quotation>>,
    groupQuantity: int,
    consumer: Prices,
    provider: Prices)

  function SortTiers(qs: seq<Quotation>): seq<Quotation> {
    Sort(qs, (q: Quotation) => q.minQuantity)
  }

  /** The last tier of a list whose minimum does not exceed the quantity. */
  function Scan(qs: seq<Quotation>, quantity: int): Option<Quotation> {
    if qs == [] then None
    else if quantity >= qs[|qs| - 1].minQuantity then Some(qs[|qs| - 1])
    else Scan(qs[..|qs| - 1], quantity)
  }

  function FirstOf(qs: seq<Quotation>): Option<Quotation> {
    if qs == [] then None else Some(qs[0])
  }

  function OrElse(a: Option<Quotation>, b: Option<Quotation>): Option<Quotation> {
    if a.Some? then a else b
  }

  /** The consumer tier of a quantity. */
  function ConsumerTier(qs: seq<Quotation>, quantity: int): Option<Quotation> {
    var sorted := SortTiers(qs);
    OrElse(Scan(sorted, quantity), FirstOf(sorted))
  }

  predicate InState(q: Quotation, state: string, norm: string -> string) {
    q.state.Some? && norm(q.state.value) == norm(state)
  }

  function Scoped(qs: seq<Quotation>, state: string, norm: string -> string): seq<Quotation> {
    Filter(qs, q => InState(q, state, norm))
  }

  /** The provider tier of a quantity in a state, or the first tier of all states. `norm` trims and upper-cases. */
  function ProviderTier(qs: seq<Quotation>, quantity: int, state: string, norm: string -> string): Option<Quotation> {
    var sorted := SortTiers(qs);
    OrElse(Scan(Scoped(sorted, state, norm), quantity), FirstOf(sorted))
  }

  // ---------- What the search finds ----------

  /** `t` has the greatest minimum within the quantity. */
  predicate IsBestReachable(qs: seq<Quotation>, quantity: int, t: Quotation) {
    t in qs && t.minQuantity <= quantity && forall q :: q in qs && q.minQuantity <= quantity ==> q.minQuantity <= t.minQuantity
  }

  predicate IsReachable(qs: seq<Quotation>, quantity: int) {
    exists q :: q in qs && q.minQuantity <= quantity
  }

  predicate IsSmallest(qs: seq<Quotation>, t: Quotation) {
    t in qs && forall q :: q in qs ==> t.minQuantity <= q.minQuantity
  }

  lemma {:induction false} ScanFindsBest(qs: seq<Quotation>, quantity: int)
    requires SortedBy(qs, (q: Quotation) => q.minQuantity)
    ensures match Scan(qs, quantity)
            case None => !IsReachable(qs, quantity)
            case Some(t) => IsBestReachable(qs, quantity, t)
  {
    if qs != [] {
      var front, last := qs[..|qs| - 1], qs[|qs| - 1];
      if quantity >= last.minQuantity {
        LastIsGreatest(qs);
      } else {
        assert qs == front + [last];
        assert forall q :: q in qs <==> q in front || q == last;
        assert SortedBy(front, (q: Quotation) => q.minQuantity) by {
          FrontSorted(qs);
        }
        ScanFindsBest(front, quantity);
      }
    }
  }

  lemma FrontSorted(qs: seq<Quotation>)
    requires qs != [] && SortedBy(qs, (q: Quotation) => q.minQuantity)
    ensures SortedBy(qs[..|qs| - 1], (q: Quotation) => q.minQuantity)
  {}

  lemma LastIsGreatest(qs: seq<Quotation>)
    requires qs != [] && SortedBy(qs, (q: Quotation) => q.minQuantity)
    ensures forall q :: q in qs ==> q.minQuantity <= qs[|qs| - 1].minQuantity
  {
    var key := (q: Quotation) => q.minQuantity;
    forall q | q in qs
      ensures key(q) <= key(qs[|qs| - 1])
    {
      var i :| 0 <= i < |qs| && qs[i] == q;
    }
  }

  /** The sort-and-scan search returns the tier with the greatest minimum within the quantity, or the smallest tier if
      none is, or nothing if there are no tiers. */
  lemma ConsumerTierIsBest(qs: seq<Quotation>, quantity: int)
    ensures var t := ConsumerTier(qs, quantity);
            && (t.None? <==> qs == [])
            && (t.Some? && IsReachable(qs, quantity) ==> IsBestReachable(qs, quantity, t.value))
            && (t.Some? && !IsReachable(qs, quantity) ==> IsSmallest(qs, t.value))
  {
    var key := (q: Quotation) => q.minQuantity;
    SortSorted(qs, key);
    var sorted := SortTiers(qs);
    ScanFindsBest(sorted, quantity);
    if qs != [] {
      FirstIsSmallest(qs);
    }
  }

  lemma FirstIsSmallest(qs: seq<Quotation>)
    requires qs != []
    ensures FirstOf(SortTiers(qs)).Some? && IsSmallest(qs, SortTiers(qs)[0])
  {
    var key := (q: Quotation) => q.minQuantity;
    SortSorted(qs, key);
    var sorted := SortTiers(qs);
    assert sorted[0] in sorted;
    forall q | q in qs
      ensures key(sorted[0]) <= key(q)
    {
      var i :| 0 <= i < |sorted| && sorted[i] == q;
    }
  }

  lemma {:induction false} FilterSorted(qs: seq<Quotation>, p: Quotation -> bool)
    requires SortedBy(qs, (q: Quotation) => q.minQuantity)
    ensures SortedBy(Filter(qs, p), (q: Quotation) => q.minQuantity)
  {
    if qs != [] {
      var front, last := qs[..|qs| - 1], qs[|qs| - 1];
      var key := (q: Quotation) => q.minQuantity;
      FilterSorted(front, p);
      FilterMembers(front, p);
      var kept := Filter(front, p);
      forall i | 0 <= i < |kept|
        ensures key(kept[i]) <= key(last)
      {
        assert kept[i] in kept;
        var j :| 0 <= j < |front| && front[j] == kept[i];
        assert key(qs[j]) <= key(qs[|qs| - 1]);
      }
    }
  }

  /** The provider search: the best reachable tier of the state, or the smallest tier of all. */
  lemma ProviderTierIsBest(qs: seq<Quotation>, quantity: int, state: string, norm: string -> string)
    ensures var t := ProviderTier(qs, quantity, state, norm);
            var mine := Scoped(SortTiers(qs), state, norm);
            && (forall q :: q in mine <==> q in qs && InState(q, state, norm))
            && (t.None? <==> qs == [])
            && (IsReachable(mine, quantity) ==> t.Some? && IsBestReachable(mine, quantity, t.value))
            && (!IsReachable(mine, quantity) ==> t == FirstOf(SortTiers(qs)))
            && (qs != [] ==> IsSmallest(qs, SortTiers(qs)[0]))
  {
    SortSorted(qs, (q: Quotation) => q.minQuantity);
    var sorted := SortTiers(qs);
    FilterSorted(sorted, q => InState(q, state, norm));
    FilterMembers(sorted, q => InState(q, state, norm));
    ScanFindsBest(Scoped(sorted, state, norm), quantity);
    if qs != [] {
      FirstIsSmallest(qs);
    }
  }

  /** Unit prices do not rise with the minimum quantity. */
  predicate IsDegressive(qs: seq<Quotation>) {
    forall p, q :: p in qs && q in qs && p.minQuantity <= q.minQuantity ==> p.unitPrice >= q.unitPrice
  }

  function UnitPrice(t: Option<Quotation>): int {
    if t.Some? then t.value.unitPrice else 0
  }

  /** With degressive tiers a larger quantity never has a higher unit price. */
  lemma ConsumerPriceMonotone(qs: seq<Quotation>, m: int, n: int)
    requires IsDegressive(qs) && m <= n
    ensures UnitPrice(ConsumerTier(qs, m)) >= UnitPrice(ConsumerTier(qs, n))
  {
    ConsumerTierIsBest(qs, m);
    ConsumerTierIsBest(qs, n);
  }

  lemma ProviderPriceMonotone(qs: seq<Quotation>, m: int, n: int, state: string, norm: string -> string)
    requires IsDegressive(qs) && m <= n
    ensures UnitPrice(ProviderTier(qs, m, state, norm)) >= UnitPrice(ProviderTier(qs, n, state, norm))
  {
    ProviderTierIsBest(qs, m, state, norm);
    ProviderTierIsBest(qs, n, state, norm);
  }

  // ---------- A package ----------

  predicate IsMissing(s: Option<string>) {
    s.None? || s.value == ""
  }

  /** What the package stores as its state: a missing state becomes the empty string. */
  function StateOf(t: Option<Quotation>): string {
    if t.None? || IsMissing(t.value.state) then "" else t.value.state.value
  }

  function Reprice(p: Prices, t: Option<Quotation>): Prices {
    p.(minQuantity := if t.Some? then t.value.minQuantity else 0, discountedUnitPrice := UnitPrice(t))
  }

  function WithTotals(p: Prices, quantity: int): Prices {
    var sub, total := quantity * p.unitPrice, quantity * p.discountedUnitPrice;
    p.(subTotal := sub, total := total, discountAmount := sub - total)
  }

  function SortedList(qs: Option<seq<Quotation>>): Option<seq<Quotation>> {
    if qs.Some? then Some(SortTiers(qs.value)) else None
  }

  function ConsumerAt(p: Package, tierQuantity: int): Prices {
    WithTotals(if p.consumerQuotations.Some? then Reprice(p.consumer, ConsumerTier(p.consumerQuotations.value, tierQuantity)) else p.consumer, p.quantity)
  }

  function ProviderAt(p: Package, tierQuantity: int, norm: string -> string): Prices {
    WithTotals(if p.providerQuotations.Some?
               then Reprice(p.provider, ProviderTier(p.providerQuotations.value, tierQuantity, p.state, norm)) else p.provider, p.quantity)
  }

  /** Chooses the discounted tiers of `tierQuantity` and totals the package's own quantity. */
  function PriceAt(p: Package, tierQuantity: int, norm: string -> string): Package {
    p.(consumerQuotations := SortedList(p.consumerQuotations), providerQuotations := SortedList(p.providerQuotations),
       consumer := ConsumerAt(p, tierQuantity), provider := ProviderAt(p, tierQuantity, norm))
  }

  /** The original quotations, which are those of one unit; the provider's also fixes the state. */
  function WithOriginals(p: Package, norm: string -> string): Package {
    var tier := if p.providerQuotations.Some? then ProviderTier(p.providerQuotations.value, 1, p.state, norm) else None;
    p.(consumerQuotations := SortedList(p.consumerQuotations), providerQuotations := SortedList(p.providerQuotations),
       consumer := if p.consumerQuotations.Some? then p.consumer.(unitPrice := UnitPrice(ConsumerTier(p.consumerQuotations.value, 1))) else p.consumer,
       provider := if p.providerQuotations.Some? then p.provider.(unitPrice := UnitPrice(tier)) else p.provider,
       state := if p.providerQuotations.Some? then StateOf(tier) else p.state)
  }

  const NO_PRICES := Prices(0, 0, 0, 0, 0, 0)

  function NewPackage(quantity: int, addressState: string, groupCode: Option<string>, consumerQuotations: Option<seq<Quotation>>,
                      providerQuotations: Option<seq<Quotation>>, norm: string -> string): Package {
    var blank := Package(groupCode, quantity, addressState, consumerQuotations, providerQuotations, 0, NO_PRICES, NO_PRICES);
    PriceAt(WithOriginals(blank, norm), quantity, norm)
  }

  /** Applies the quantity of the package's group; without a group or a quantity its own prices stay. */
  function WithGroupQuantity(p: Package, groupQuantity: int, norm: string -> string): Package {
    if IsMissing(p.groupCode) || groupQuantity == 0 then p.(groupQuantity := 0)
    else
      var g := if groupQuantity < 0 then 0 else groupQuantity;
      PriceAt(p.(groupQuantity := g), g, norm)
  }

  /** The totals of a side follow from its unit prices and the quantity. */
  predicate IsTotalled(p: Prices, quantity: int) {
    p.subTotal == quantity * p.unitPrice && p.total == quantity * p.discountedUnitPrice && p.discountAmount == p.subTotal - p.total
  }

  predicate IsWellPriced(p: Package) {
    IsTotalled(p.consumer, p.quantity) && IsTotalled(p.provider, p.quantity)
  }

  lemma SortTwice(qs: seq<Quotation>)
    ensures SortTiers(SortTiers(qs)) == SortTiers(qs)
  {
    SortSorted(qs, (q: Quotation) => q.minQuantity);
    SortOfSorted(SortTiers(qs), (q: Quotation) => q.minQuantity);
  }

  lemma ConsumerAtTwice(p: Package, q: Package, n: int)
    requires q.consumerQuotations == SortedList(p.consumerQuotations) && q.consumer == ConsumerAt(p, n) && q.quantity == p.quantity
    ensures SortedList(q.consumerQuotations) == q.consumerQuotations && ConsumerAt(q, n) == q.consumer
  {
    if p.consumerQuotations.Some? {
      SortTwice(p.consumerQuotations.value);
    }
  }

  lemma ProviderAtTwice(p: Package, q: Package, n: int, norm: string -> string)
    requires q.providerQuotations == SortedList(p.providerQuotations) && q.provider == ProviderAt(p, n, norm)
    requires q.quantity == p.quantity && q.state == p.state
    ensures SortedList(q.providerQuotations) == q.providerQuotations && ProviderAt(q, n, norm) == q.provider
  {
    if p.providerQuotations.Some? {
      SortTwice(p.providerQuotations.value);
    }
  }

  /** Re-pricing at the same quantity changes nothing. */
  lemma PriceAtTwice(p: Package, n: int, norm: string -> string)
    ensures PriceAt(PriceAt(p, n, norm), n, norm) == PriceAt(p, n, norm)
  {
    ConsumerAtTwice(p, PriceAt(p, n, norm), n);
    ProviderAtTwice(p, PriceAt(p, n, norm), n, norm);
  }

  /** The state a tier counts as: a missing state counts as the empty string. */
  function EffectiveState(t: Option<Quotation>, norm: string -> string): string {
    norm(if t.Some? && t.value.state.Some? then t.value.state.value else "")
  }

  /** The original quotation and the discounted one of every quantity from 1 on have the same normalised state, also
      when the address's state has no tier, or none reachable by one unit, and the first tier of all is used. */
  lemma StateIsStable(qs: seq<Quotation>, addressState: string, quantity: int, norm: string -> string)
    requires quantity >= 1
    ensures var original := ProviderTier(qs, 1, addressState, norm);
            EffectiveState(ProviderTier(qs, quantity, StateOf(original), norm), norm) == EffectiveState(original, norm)
  {
    var original := ProviderTier(qs, 1, addressState, norm);
    var state := StateOf(original);
    ProviderTierIsBest(qs, 1, addressState, norm);
    ProviderTierIsBest(qs, quantity, state, norm);
    if original.Some? {
      var mine := Scoped(SortTiers(qs), addressState, norm);
      var theirs := Scoped(SortTiers(qs), state, norm);
      if IsReachable(mine, 1) {
        assert original.value in theirs;
        assert original.value.minQuantity <= quantity;
        assert IsReachable(theirs, quantity);
      }
    }
  }

  /** With degressive tiers the provider's original unit price is at least that of every quantity from 1 on, also when the
      original is the first tier of all. */
  lemma ProviderOriginalIsDearest(qs: seq<Quotation>, addressState: string, quantity: int, norm: string -> string)
    requires IsDegressive(qs) && quantity >= 1
    ensures var original := ProviderTier(qs, 1, addressState, norm);
            UnitPrice(original) >= UnitPrice(ProviderTier(qs, quantity, StateOf(original), norm))
  {
    var original := ProviderTier(qs, 1, addressState, norm);
    var state := StateOf(original);
    ProviderTierIsBest(qs, 1, addressState, norm);
    ProviderTierIsBest(qs, quantity, state, norm);
    if original.Some? {
      var mine := Scoped(SortTiers(qs), addressState, norm);
      var theirs := Scoped(SortTiers(qs), state, norm);
      if IsReachable(mine, 1) {
        assert original.value in theirs && original.value.minQuantity <= quantity;
        assert IsReachable(theirs, quantity);
      }
    }
  }

  // ---------- Which tiers a package is priced by ----------

  /** The tier that applies to a quantity: of those that `sel` picks and the quantity reaches the one with the greatest minimum,
      or, if it reaches none, the smallest of all. */
  predicate IsTierFor(qs: seq<Quotation>, sel: Quotation -> bool, quantity: int, t: Quotation) {
    && t in qs
    && if exists q :: q in qs && sel(q) && q.minQuantity <= quantity
       then sel(t) && t.minQuantity <= quantity && forall q :: q in qs && sel(q) && q.minQuantity <= quantity ==> q.minQuantity <= t.minQuantity
       else forall q :: q in qs ==> t.minQuantity <= q.minQuantity
  }

  function AnyState(): Quotation -> bool {
    (q: Quotation) => true
  }

  /** The tiers of a state, however it is spelled. */
  function OfState(state: string, norm: string -> string): Quotation -> bool {
    (q: Quotation) => q.state.Some? && norm(q.state.value) == norm(state)
  }

  predicate HasNoTiers(qs: Option<seq<Quotation>>) {
    qs.None? || qs.value == []
  }

  /** The original unit price is that of one unit. */
  ghost predicate IsOriginal(p: Prices, qs: Option<seq<Quotation>>, sel: Quotation -> bool) {
    if HasNoTiers(qs) then p.unitPrice == 0
    else exists t :: IsTierFor(qs.value, sel, 1, t) && p.unitPrice == t.unitPrice
  }

  /** The discounted unit price is that of the quantity. */
  ghost predicate IsDiscounted(p: Prices, qs: Option<seq<Quotation>>, sel: Quotation -> bool, quantity: int) {
    if HasNoTiers(qs) then p.discountedUnitPrice == 0 && p.minQuantity == 0
    else exists t :: IsTierFor(qs.value, sel, quantity, t) && p.discountedUnitPrice == t.unitPrice && p.minQuantity == t.minQuantity
  }

  lemma SameTiers(qs: seq<Quotation>, sel: Quotation -> bool, quantity: int, t: Quotation)
    ensures IsTierFor(SortTiers(qs), sel, quantity, t) <==> IsTierFor(qs, sel, quantity, t)
  {
    SortSorted(qs, (q: Quotation) => q.minQuantity);
  }

  lemma ConsumerTierFits(qs: seq<Quotation>, quantity: int)
    ensures var t := ConsumerTier(qs, quantity);
            if qs == [] then t.None? else t.Some? && IsTierFor(qs, AnyState(), quantity, t.value)
  {
    ConsumerTierIsBest(qs, quantity);
  }

  lemma ProviderTierFits(qs: seq<Quotation>, quantity: int, state: string, norm: string -> string)
    ensures var t := ProviderTier(qs, quantity, state, norm);
            if qs == [] then t.None? else t.Some? && IsTierFor(qs, OfState(state, norm), quantity, t.value)
  {
    ProviderTierIsBest(qs, quantity, state, norm);
    var mine := Scoped(SortTiers(qs), state, norm);
    assert forall q :: q in mine <==> q in qs && OfState(state, norm)(q);
  }

  /** Re-pricing takes the discounted prices of the tier quantity on both sides, and leaves the original prices, the state and
      the quantity alone. */
  lemma PriceAtPrices(p: Package, n: int, norm: string -> string)
    ensures var p' := PriceAt(p, n, norm);
            && p'.quantity == p.quantity && p'.state == p.state && p'.groupCode == p.groupCode && p'.groupQuantity == p.groupQuantity
            && p'.consumer.unitPrice == p.consumer.unitPrice && p'.provider.unitPrice == p.provider.unitPrice && IsWellPriced(p')
            && (p.consumerQuotations.Some? ==> IsDiscounted(p'.consumer, p.consumerQuotations, AnyState(), n))
            && (p.providerQuotations.Some? ==> IsDiscounted(p'.provider, p.providerQuotations, OfState(p.state, norm), n))
            && (p.consumerQuotations.None? ==> p'.consumer.discountedUnitPrice == p.consumer.discountedUnitPrice && p'.consumer.minQuantity == p.consumer.minQuantity)
            && (p.providerQuotations.None? ==> p'.provider.discountedUnitPrice == p.provider.discountedUnitPrice && p'.provider.minQuantity == p.provider.minQuantity)
  {
    if p.consumerQuotations.Some? {
      ConsumerTierFits(p.consumerQuotations.value, n);
    }
    if p.providerQuotations.Some? {
      ProviderTierFits(p.providerQuotations.value, n, p.state, norm);
    }
  }

  lemma SortedDiscount(p: Prices, qs: Option<seq<Quotation>>, sel: Quotation -> bool, quantity: int)
    ensures IsDiscounted(p, SortedList(qs), sel, quantity) <==> IsDiscounted(p, qs, sel, quantity)
  {
    if qs.Some? {
      forall t
        ensures IsTierFor(SortTiers(qs.value), sel, quantity, t) <==> IsTierFor(qs.value, sel, quantity, t)
      {
        SameTiers(qs.value, sel, quantity, t);
      }
    }
  }

  /** What the provider's original tier fixes: its unit price, and the state of the package. */
  ghost predicate IsLocated(p: Package, qs: Option<seq<Quotation>>, addressState: string, norm: string -> string) {
    if qs.None? then p.provider.unitPrice == 0 && p.state == addressState
    else if qs.value == [] then p.provider.unitPrice == 0 && p.state == ""
    else exists t :: IsTierFor(qs.value, OfState(addressState, norm), 1, t) && p.provider.unitPrice == t.unitPrice
                     && p.state == if t.state.Some? then t.state.value else ""
  }

  lemma ConsumerOriginalFits(p: Package, norm: string -> string)
    requires p.consumer == NO_PRICES
    ensures var consumer := WithOriginals(p, norm).consumer;
            IsOriginal(consumer, p.consumerQuotations, AnyState()) && consumer == NO_PRICES.(unitPrice := consumer.unitPrice)
  {
    if p.consumerQuotations.Some? {
      ConsumerTierFits(p.consumerQuotations.value, 1);
    }
  }

  lemma ProviderOriginalFits(p: Package, norm: string -> string)
    requires p.provider == NO_PRICES
    ensures var p' := WithOriginals(p, norm);
            IsLocated(p', p.providerQuotations, p.state, norm) && p'.provider == NO_PRICES.(unitPrice := p'.provider.unitPrice)
  {
    if p.providerQuotations.Some? {
      ProviderTierFits(p.providerQuotations.value, 1, p.state, norm);
    }
  }

  /** A new package has the original prices of one unit and the discounted ones of its quantity, in the state of the provider's
      original tier. */
  lemma NewPackagePrices(quantity: int, addressState: string, groupCode: Option<string>, consumerQuotations: Option<seq<Quotation>>,
                         providerQuotations: Option<seq<Quotation>>, norm: string -> string)
    ensures var p := NewPackage(quantity, addressState, groupCode, consumerQuotations, providerQuotations, norm);
            && p.quantity == quantity && p.groupCode == groupCode && p.groupQuantity == 0 && IsWellPriced(p)
            && IsOriginal(p.consumer, consumerQuotations, AnyState()) && IsLocated(p, providerQuotations, addressState, norm)
            && IsDiscounted(p.consumer, consumerQuotations, AnyState(), quantity)
            && IsDiscounted(p.provider, providerQuotations, OfState(p.state, norm), quantity)
  {
    var blank := Package(groupCode, quantity, addressState, consumerQuotations, providerQuotations, 0, NO_PRICES, NO_PRICES);
    var located := WithOriginals(blank, norm);
    ConsumerOriginalFits(blank, norm);
    ProviderOriginalFits(blank, norm);
    PriceAtPrices(located, quantity, norm);
    var p := PriceAt(located, quantity, norm);
    SortedDiscount(p.consumer, consumerQuotations, AnyState(), quantity);
    SortedDiscount(p.provider, providerQuotations, OfState(p.state, norm), quantity);
  }

  /** Its group's quantity gives it the discounted prices of that quantity and nothing else; without a group or a quantity it
      keeps its own. */
  lemma GroupPrices(p: Package, groupQuantity: int, norm: string -> string)
    ensures var p', n := WithGroupQuantity(p, groupQuantity, norm), if groupQuantity < 0 then 0 else groupQuantity;
            if IsMissing(p.groupCode) || groupQuantity == 0 then p' == p.(groupQuantity := 0)
            else
              && p'.groupQuantity == n && p'.quantity == p.quantity && p'.state == p.state && p'.groupCode == p.groupCode && IsWellPriced(p')
              && p'.consumer.unitPrice == p.consumer.unitPrice && p'.provider.unitPrice == p.provider.unitPrice
              && (p.consumerQuotations.Some? ==> IsDiscounted(p'.consumer, p.consumerQuotations, AnyState(), n))
              && (p.providerQuotations.Some? ==> IsDiscounted(p'.provider, p.providerQuotations, OfState(p.state, norm), n))
              && (p.consumerQuotations.None? ==> p'.consumer.discountedUnitPrice == p.consumer.discountedUnitPrice && p'.consumer.minQuantity == p.consumer.minQuantity)
              && (p.providerQuotations.None? ==> p'.provider.discountedUnitPrice == p.provider.discountedUnitPrice && p'.provider.minQuantity == p.provider.minQuantity)
  {
    var n := if groupQuantity < 0 then 0 else groupQuantity;
    PriceAtPrices(p.(groupQuantity := n), n, norm);
  }

  /** A new package with degressive tiers and a positive quantity: no discount is negative, and applying a group quantity
      of at least its own never raises a total. */
  lemma BundlingNeverRaises(quantity: int, addressState: string, groupCode: Option<string>, consumerQuotations: seq<Quotation>,
                            providerQuotations: seq<Quotation>, groupQuantity: int, norm: string -> string)
    requires 1 <= quantity <= groupQuantity && IsDegressive(consumerQuotations) && IsDegressive(providerQuotations)
    ensures var alone := NewPackage(quantity, addressState, groupCode, Some(consumerQuotations), Some(providerQuotations), norm);
            var bundled := WithGroupQuantity(alone, groupQuantity, norm);
            && alone.consumer.discountAmount >= 0 && alone.provider.discountAmount >= 0
            && bundled.consumer.total <= alone.consumer.total && bundled.provider.total <= alone.provider.total
            && bundled.consumer.discountAmount >= alone.consumer.discountAmount
            && bundled.provider.discountAmount >= alone.provider.discountAmount
            && bundled.consumer.subTotal == alone.consumer.subTotal && bundled.provider.subTotal == alone.provider.subTotal
            && IsWellPriced(alone) && IsWellPriced(bundled)
  {
    var alone := NewPackage(quantity, addressState, groupCode, Some(consumerQuotations), Some(providerQuotations), norm);
    var bundled := WithGroupQuantity(alone, groupQuantity, norm);
    SortTwice(consumerQuotations);
    SortTwice(providerQuotations);
    ConsumerPriceMonotone(consumerQuotations, 1, quantity);
    ConsumerPriceMonotone(consumerQuotations, quantity, groupQuantity);
    ProviderOriginalIsDearest(providerQuotations, addressState, quantity, norm);
    ProviderPriceMonotone(providerQuotations, quantity, groupQuantity, alone.state, norm);
    Scaled(alone.provider.discountedUnitPrice, alone.provider.unitPrice, quantity);
    Scaled(alone.consumer.discountedUnitPrice, alone.consumer.unitPrice, quantity);
    Scaled(bundled.consumer.discountedUnitPrice, alone.consumer.discountedUnitPrice, quantity);
    Scaled(bundled.provider.discountedUnitPrice, alone.provider.discountedUnitPrice, quantity);
  }
}
