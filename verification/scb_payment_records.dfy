/** The bank's payment file: detail, invoice and trailer records. Amounts are in units of 0.0001, printed in cents. */
module ScbPaymentRecords {
  import opened Sums

  datatype BankPayout = BankPayout(id: string, amount: int)

  datatype Record =
    | Header
    | DetailRecord(customerReference: string, cents: int)
    | InvoiceRecord(invoiceReference: string, cents: int)
    | TrailerRecord(totalNumberOfRecords: nat, cents: int)

  const UNITS_PER_CENT := 100

  /** Printing to two decimals picks a nearest number of cents; ties may go either way. */
  ghost predicate IsNearest(print2: int -> int) {
    forall x :: -UNITS_PER_CENT <= 2 * (UNITS_PER_CENT * print2(x) - x) <= UNITS_PER_CENT
  }

  function PaymentAmount(payouts: seq<BankPayout>): int {
    Sum(payouts, (p: BankPayout) => p.amount)
  }

  class ScbPaymentRecordsBuilder {
    const id: string
    const payouts: seq<BankPayout>
    const print2: int -> int
    var details: seq<Record>
    var invoice: Record
    var trailer: Record

    constructor (id: string, payouts: seq<BankPayout>, print2: int -> int)
      ensures this.id == id && this.payouts == payouts && this.print2 == print2
    {
      this.id, this.payouts, this.print2 := id, payouts, print2;
      details, invoice, trailer := [], InvoiceRecord("", print2(0)), TrailerRecord(0, print2(0));
    }

    method SetDetails()
      modifies this`details
      ensures details == Map(payouts, DetailFor(print2))
    {
      details := [];
      for i := 0 to |payouts|
        invariant details == Map(payouts, DetailFor(print2))[..i]
      {
        details := details + [DetailRecord(payouts[i].id, print2(payouts[i].amount))];
      }
    }

    method GetPaymentAmount() returns (sum: int)
      ensures sum == PaymentAmount(payouts)
    {
      sum := 0;
      for i := 0 to |payouts|
        invariant sum == PaymentAmount(payouts[..i])
      {
        assert payouts[..i + 1] == payouts[..i] + [payouts[i]];
        SumSnoc(payouts[..i], payouts[i], (p: BankPayout) => p.amount);
        sum := sum + payouts[i].amount;
      }
      assert payouts[..|payouts|] == payouts;
    }

    method GetResult() returns (records: seq<Record>)
      modifies this
      ensures records == Records(id, payouts, print2)
    {
      if |payouts| < 1 {
        return [];
      }
      SetDetails();
      var amount := GetPaymentAmount();
      invoice := InvoiceRecord(id, print2(amount));
      trailer := TrailerRecord(|payouts|, print2(amount));
      records := [Header] + details + [invoice, trailer];
    }
  }

  function DetailFor(print2: int -> int): BankPayout -> Record {
    (p: BankPayout) => DetailRecord(p.id, print2(p.amount))
  }

  function Records(id: string, payouts: seq<BankPayout>, print2: int -> int): seq<Record> {
    if payouts == [] then []
    else
      var amount := print2(PaymentAmount(payouts));
      [Header] + Map(payouts, DetailFor(print2)) + [InvoiceRecord(id, amount), TrailerRecord(|payouts|, amount)]
  }

  predicate IsDetail(r: Record) { r.DetailRecord? }

  function CentsOfDetail(r: Record): int { if r.DetailRecord? then r.cents else 0 }

  function PrintedCents(print2: int -> int): BankPayout -> int {
    (p: BankPayout) => print2(p.amount)
  }

  /** The cents a bank reader adds up over the detail records of a file. */
  function DetailCents(records: seq<Record>): int {
    Sum(records, CentsOfDetail)
  }

  function DetailCount(records: seq<Record>): nat {
    |Filter(records, IsDetail)|
  }

  lemma {:induction false} CountDetails(payouts: seq<BankPayout>, print2: int -> int)
    ensures var ds := Map(payouts, DetailFor(print2));
            && DetailCount([Header] + ds) == |ds|
            && DetailCents([Header] + ds) == Sum(payouts, PrintedCents(print2))
  {
    var ds := Map(payouts, DetailFor(print2));
    if payouts != [] {
      var n := |payouts| - 1;
      CountDetails(payouts[..n], print2);
      assert Map(payouts[..n], DetailFor(print2)) == ds[..n];
      assert ([Header] + ds)[..n + 1] == [Header] + ds[..n];
    } else {
      assert [Header] + ds == [] + [Header];
      NoDetailAfter([], Header);
    }
  }

  lemma NoDetailAfter(records: seq<Record>, r: Record)
    requires !IsDetail(r)
    ensures DetailCount(records + [r]) == DetailCount(records) && DetailCents(records + [r]) == DetailCents(records)
  {
    assert (records + [r])[..|records|] == records;
    SumSnoc(records, r, CentsOfDetail);
  }

  /** The trailer of a file counts its detail records, and prints the same amount as the invoice. */
  lemma TrailerCountsDetails(id: string, payouts: seq<BankPayout>, print2: int -> int)
    requires payouts != []
    ensures var rs := Records(id, payouts, print2);
            var last := rs[|rs| - 1];
            && last == TrailerRecord(DetailCount(rs), last.cents) && rs[|rs| - 2] == InvoiceRecord(id, last.cents)
            && DetailCount(rs) == |payouts| && |rs| == |payouts| + 3
            && DetailCents(rs) == Sum(payouts, PrintedCents(print2))
  {
    var rs := Records(id, payouts, print2);
    var front := [Header] + Map(payouts, DetailFor(print2));
    CountDetails(payouts, print2);
    assert rs == front + [rs[|rs| - 2]] + [rs[|rs| - 1]];
    NoDetailAfter(front, rs[|rs| - 2]);
    NoDetailAfter(front + [rs[|rs| - 2]], rs[|rs| - 1]);
  }

  /** The file opens with the header, prints each payout under its id, and prints their sum in the invoice and the trailer. */
  lemma FilePrintsPayouts(id: string, payouts: seq<BankPayout>, print2: int -> int, i: nat)
    requires i < |payouts|
    ensures var rs := Records(id, payouts, print2);
            && |rs| == |payouts| + 3 && rs[0].Header?
            && rs[i + 1] == DetailRecord(payouts[i].id, print2(payouts[i].amount))
            && rs[|payouts| + 1] == InvoiceRecord(id, print2(Sum(payouts, (p: BankPayout) => p.amount)))
            && rs[|payouts| + 2] == TrailerRecord(|payouts|, print2(Sum(payouts, (p: BankPayout) => p.amount)))
  {}

  lemma {:induction false} RoundedSum(payouts: seq<BankPayout>, print2: int -> int)
    requires IsNearest(print2)
    ensures var off := UNITS_PER_CENT * Sum(payouts, PrintedCents(print2)) - PaymentAmount(payouts);
            -UNITS_PER_CENT * |payouts| <= 2 * off <= UNITS_PER_CENT * |payouts|
  {
    if payouts != [] {
      RoundedSum(payouts[..|payouts| - 1], print2);
    }
  }

  /** The printed details and the printed total differ by at most half a cent for each payout and half a cent more. */
  lemma TrailerWithinHalfCents(id: string, payouts: seq<BankPayout>, print2: int -> int)
    requires IsNearest(print2) && payouts != []
    ensures var rs := Records(id, payouts, print2);
            -(|payouts| + 1) <= 2 * (DetailCents(rs) - rs[|rs| - 1].cents) <= |payouts| + 1
  {
    TrailerCountsDetails(id, payouts, print2);
    RoundedSum(payouts, print2);
  }

  lemma WholeCent(x: int, print2: int -> int)
    requires IsNearest(print2) && x % UNITS_PER_CENT == 0
    ensures x == UNITS_PER_CENT * print2(x)
  {}

  lemma {:induction false} WholeCentsSum(payouts: seq<BankPayout>, print2: int -> int)
    requires IsNearest(print2) && forall p :: p in payouts ==> p.amount % UNITS_PER_CENT == 0
    ensures PaymentAmount(payouts) == UNITS_PER_CENT * Sum(payouts, PrintedCents(print2))
  {
    if payouts != [] {
      WholeCentsSum(payouts[..|payouts| - 1], print2);
      assert payouts[|payouts| - 1] in payouts;
      WholeCent(payouts[|payouts| - 1].amount, print2);
    }
  }

  /** Payouts in whole cents add up to the trailer exactly. */
  lemma WholeCentsAddUp(id: string, payouts: seq<BankPayout>, print2: int -> int)
    requires IsNearest(print2) && payouts != [] && forall p :: p in payouts ==> p.amount % UNITS_PER_CENT == 0
    ensures var rs := Records(id, payouts, print2);
            DetailCents(rs) == rs[|rs| - 1].cents
  {
    TrailerCountsDetails(id, payouts, print2);
    WholeCentsSum(payouts, print2);
  }

  /** In general they do not: two payouts of half a cent, printed as a cent each, total one cent. */
  lemma HalfCentsDoNotAddUp()
    ensures exists payouts, print2 :: IsNearest(print2) && payouts != []
              && DetailCents(Records("b", payouts, print2)) == Records("b", payouts, print2)[|payouts| + 2].cents + 1
  {
    var payouts := [BankPayout("p", 50), BankPayout("q", 50)];
    var print2 := (x: int) => (x + 50) / 100;
    TrailerCountsDetails("b", payouts, print2);
    SumTwo(payouts[0], payouts[1], PrintedCents(print2));
    SumTwo(payouts[0], payouts[1], (p: BankPayout) => p.amount);
    assert IsNearest(print2);
    assert DetailCents(Records("b", payouts, print2)) == Records("b", payouts, print2)[|payouts| + 2].cents + 1;
  }
}
