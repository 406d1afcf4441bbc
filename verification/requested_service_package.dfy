/** The requested service package as the object that the order re-prices in place. */
module RequestedServicePackages {
  import opened Wrappers
  import opened Pricing

  datatype PackageError = BlankAddressState

  class RequestedServicePackage {
    const norm: string -> string
    var groupCode: Option<string>
    var quantity: int
    var state: string
    var consumerQuotations: Option<seq<Quotation>>
    var providerQuotations: Option<seq<Quotation>>
    var groupQuantity: int
    var consumer: Prices
    var provider: Prices

    function Value(): Package
      reads this
    {
      Package(groupCode, quantity, state, consumerQuotations, providerQuotations, groupQuantity, consumer, provider)
    }

    constructor Load(p: Package, norm: string -> string)
      ensures Value() == p && this.norm == norm
    {
      this.norm := norm;
      groupCode, quantity, state := p.groupCode, p.quantity, p.state;
      consumerQuotations, providerQuotations := p.consumerQuotations, p.providerQuotations;
      groupQuantity, consumer, provider := p.groupQuantity, p.consumer, p.provider;
    }

    /** Refuses a blank address state; otherwise takes the quotations of the service package and prices the quantity. */
    static method Create(quantity: int, addressState: string, groupCode: Option<string>, consumerQuotations: Option<seq<Quotation>>,
                         providerQuotations: Option<seq<Quotation>>, norm: string -> string)
      returns (r: Result<RequestedServicePackage, PackageError>)
      ensures r.Err? <==> norm(addressState) == ""
      ensures r.Ok? ==> fresh(r.value) && r.value.norm == norm
      ensures r.Ok? ==> r.value.Value() == NewPackage(quantity, addressState, groupCode, consumerQuotations, providerQuotations, norm)
    {
      if norm(addressState) == "" {
        return Err(BlankAddressState);
      }
      var p := new RequestedServicePackage.Load(
        Package(groupCode, quantity, addressState, consumerQuotations, providerQuotations, 0, NO_PRICES, NO_PRICES), norm);
      p.ReflectOriginalQuotations();
      p.ChangeQuantity(quantity);
      r := Ok(p);
    }

    method LowestConsumerTier(quantity: int) returns (t: Option<Quotation>)
      requires consumerQuotations.Some?
      modifies this`consumerQuotations
      ensures consumerQuotations == SortedList(old(consumerQuotations))
      ensures t == ConsumerTier(old(consumerQuotations.value), quantity)
    {
      var qs := SortTiers(consumerQuotations.value);
      consumerQuotations := Some(qs);
      t := ScanDown(qs, quantity);
      if t.None? {
        t := FirstOf(qs);
      }
    }

    method LowestProviderTier(quantity: int, state: string) returns (t: Option<Quotation>)
      requires providerQuotations.Some?
      modifies this`providerQuotations
      ensures providerQuotations == SortedList(old(providerQuotations))
      ensures t == ProviderTier(old(providerQuotations.value), quantity, state, norm)
    {
      var qs := SortTiers(providerQuotations.value);
      providerQuotations := Some(qs);
      t := ScanDown(Scoped(qs, state, norm), quantity);
      if t.None? {
        t := FirstOf(qs);
      }
    }

    method ReflectOriginalQuotations()
      modifies this
      ensures Value() == WithOriginals(old(Value()), norm)
    {
      if consumerQuotations.Some? {
        var original := LowestConsumerTier(1);
        consumer := consumer.(unitPrice := UnitPrice(original));
      }
      if providerQuotations.Some? {
        var original := LowestProviderTier(1, state);
        provider := provider.(unitPrice := UnitPrice(original));
        state := StateOf(original);
      }
    }

    method ReflectDiscountedQuotations(tierQuantity: int)
      modifies this`consumerQuotations, this`providerQuotations, this`consumer, this`provider
      ensures Value() == PriceAt(old(Value()), tierQuantity, norm)
    {
      if consumerQuotations.Some? {
        var tier := LowestConsumerTier(tierQuantity);
        consumer := Reprice(consumer, tier);
      }
      CalculateConsumerTotals(quantity);
      if providerQuotations.Some? {
        var tier := LowestProviderTier(tierQuantity, state);
        provider := Reprice(provider, tier);
      }
      CalculateProviderTotals(quantity);
    }

    method CalculateConsumerTotals(quantity: int)
      modifies this`consumer
      ensures consumer == WithTotals(old(consumer), quantity)
    {
      consumer := consumer.(subTotal := quantity * consumer.unitPrice);
      consumer := consumer.(total := quantity * consumer.discountedUnitPrice);
      consumer := consumer.(discountAmount := consumer.subTotal - consumer.total);
    }

    method CalculateProviderTotals(quantity: int)
      modifies this`provider
      ensures provider == WithTotals(old(provider), quantity)
    {
      provider := provider.(subTotal := quantity * provider.unitPrice);
      provider := provider.(total := quantity * provider.discountedUnitPrice);
      provider := provider.(discountAmount := provider.subTotal - provider.total);
    }

    method ChangeQuantity(quantity: int)
      modifies this
      ensures Value() == PriceAt(old(Value()).(quantity := quantity), quantity, norm)
    {
      this.quantity := quantity;
      ReflectDiscountedQuotations(quantity);
    }

    /** `groups` holds the total quantity of each group code of the order. */
    method ChangeServicePackageGroupQuantity(groups: map<string, int>)
      modifies this
      ensures Value() == WithGroupQuantity(old(Value()), GroupQuantityIn(groups, old(groupCode)), norm)
    {
      if IsMissing(groupCode) || groupCode.value !in groups || groups[groupCode.value] == 0 {
        groupQuantity := 0;
        return;
      }
      var total := groups[groupCode.value];
      groupQuantity := if total < 0 then 0 else total;
      ReflectDiscountedQuotations(groupQuantity);
    }
  }

  /** What the order's group map holds for a code, 0 if nothing. */
  function GroupQuantityIn(groups: map<string, int>, code: Option<string>): int {
    if code.Some? && code.value in groups then groups[code.value] else 0
  }

  /** The descending scan of the tier search. */
  method ScanDown(qs: seq<Quotation>, quantity: int) returns (t: Option<Quotation>)
    ensures t == Scan(qs, quantity)
  {
    var i := |qs| - 1;
    assert qs[..|qs|] == qs;
    while i >= 0
      invariant -1 <= i < |qs|
      invariant Scan(qs, quantity) == Scan(qs[..i + 1], quantity)
    {
      assert qs[..i + 1][..i] == qs[..i];
      if quantity >= qs[i].minQuantity {
        return Some(qs[i]);
      }
      i := i - 1;
    }
    t := None;
  }
}
