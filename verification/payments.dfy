/** What the paid-status inputs do to lines and payouts over a run. */
module Payments {
  import opened Wrappers
  import opened Sums
  import opened PayoutFactory
  import opened WalletLedger
  import opened PayoutLines
  import opened Settlement

  function PaidTerm(p: nat, l: Line): int {
    if l.status.Paid? then LineTerm(p, l) else 0
  }

  /** The sum of the paid lines of payout `p`. */
  function PaidIn(lines: seq<Line>, p: nat): int {
    Sum(lines, l => PaidTerm(p, l))
  }

  predicate HasLines(lines: seq<Line>, p: nat) {
    exists l :: l in lines && l.payoutId == Some(p)
  }

  predicate AllPaid(lines: seq<Line>, p: nat) {
    forall l :: l in lines && l.payoutId == Some(p) ==> l.status.Paid?
  }

  predicate HasPaid(lines: seq<Line>, p: nat) {
    exists l :: l in lines && l.payoutId == Some(p) && l.status.Paid?
  }

  /** Nothing is left to pay: every line of payout `p` that is worth something is paid. */
  predicate Settled(lines: seq<Line>, p: nat) {
    forall l :: l in lines && l.payoutId == Some(p) && l.amount > 0 ==> l.status.Paid?
  }

  predicate IsPositive(lines: seq<Line>, p: nat) {
    forall l :: l in lines && l.payoutId == Some(p) ==> l.amount > 0
  }

  function Count(ps: seq<nat>, p: nat): int {
    Sum(ps, q => if q == p then 1 else 0)
  }

  // ---------- The invariant ----------

  predicate LineLinked(payouts: seq<Payout>, l: Line) {
    l.payoutId.Some? && l.payoutId.value < |payouts| && l.tenant == payouts[l.payoutId.value].tenant && l.amount >= 0
  }

  predicate LinesLinked(payouts: seq<Payout>, lines: seq<Line>) {
    forall l :: l in lines ==> LineLinked(payouts, l)
  }

  /** All lines of a (request, vendor) pair share a payout. No input names a line without a vendor. */
  predicate PairsUnsplit(lines: seq<Line>) {
    forall l, m :: l in lines && m in lines && l.requestId == m.requestId && l.vendorId == m.vendorId && l.vendorId.Some? ==>
      l.payoutId == m.payoutId
  }

  /** The processed amount of a payout is its paid lines, and its lines, if it has any, are worth its amount. */
  predicate AmountsTrack(payout: Payout, lines: seq<Line>, p: nat) {
    && payout.processedAmount == PaidIn(lines, p)
    && (HasLines(lines, p) ==> LinesIn(lines, p) == payout.amount)
  }

  /** A payout is paid, and its event published, once some line is paid and nothing is left to pay; it waits to be sent
      exactly as its lines do. */
  predicate StatusTracks(payout: Payout, lines: seq<Line>, events: int, p: nat) {
    && (payout.status.Paid? <==> HasPaid(lines, p) && Settled(lines, p))
    && (forall l :: l in lines && l.payoutId == Some(p) ==> (l.status.Scheduled? <==> payout.status.Scheduled?))
    && (events > 0 <==> payout.status.Paid?)
    && (IsPositive(lines, p) ==> events <= 1)
  }

  predicate PayoutTracksLines(t: Tables, p: nat)
    requires p < |t.ledger.payouts|
  {
    AmountsTrack(t.ledger.payouts[p], t.lines, p) && StatusTracks(t.ledger.payouts[p], t.lines, Count(t.paidEvents, p), p)
  }

  ghost predicate Tracked(t: Tables) {
    && LinesLinked(t.ledger.payouts, t.lines)
    && PairsUnsplit(t.lines)
    && (forall p: nat :: p < |t.ledger.payouts| ==> PayoutTracksLines(t, p))
    && (forall p :: p in t.paidEvents ==> p < |t.ledger.payouts|)
  }

  /** The paid part of a payout stays below its lines until nothing is left to pay. */
  lemma PaidPart(lines: seq<Line>, p: nat)
    requires forall l :: l in lines ==> l.amount >= 0
    ensures 0 <= PaidIn(lines, p) <= LinesIn(lines, p)
    ensures PaidIn(lines, p) == LinesIn(lines, p) <==> Settled(lines, p)
  {
    SumNonNegative(lines, l => PaidTerm(p, l));
    SumMonotone(lines, l => PaidTerm(p, l), l => LineTerm(p, l));
    if Settled(lines, p) {
      SumCongruent(lines, l => PaidTerm(p, l), l => LineTerm(p, l));
    } else {
      var l :| l in lines && l.payoutId == Some(p) && l.amount > 0 && !l.status.Paid?;
      var paid, all := (x: Line) => PaidTerm(p, x), (x: Line) => LineTerm(p, x);
      assert paid(l) < all(l);
      SumMonotone(lines, paid, all);
    }
  }

  // ---------- A paid-status input ----------

  /** The lines that an accepted input names belong to one payout, which is in transit. */
  lemma NamedLines(t: Tables, input: PaidInput)
    requires Tracked(t)
    ensures forall l :: l in Named(t.lines, input) <==> l in t.lines && IsNamed(l, input)
    ensures Named(t.lines, input) != [] ==> Named(t.lines, input)[0] in t.lines
    ensures Named(t.lines, input) != [] ==> forall l :: l in t.lines && IsNamed(l, input) ==> l.payoutId == Named(t.lines, input)[0].payoutId
  {
    FilterMembers(t.lines, (l: Line) => IsNamed(l, input));
    if Named(t.lines, input) != [] {
      assert Named(t.lines, input)[0] in Named(t.lines, input);
    }
  }

  function NamedTerm(p: nat, input: PaidInput, l: Line): int {
    if IsNamed(l, input) then LineTerm(p, l) else 0
  }

  function Paying(lines: seq<Line>, input: PaidInput): seq<Line> {
    Map(lines, l => PayLine(l, input))
  }

  /** Paying the named lines adds exactly their amounts to the paid part of their payout, and of no other. */
  lemma PayingAdds(lines: seq<Line>, input: PaidInput, p: nat, q: nat)
    requires forall l :: l in lines && IsNamed(l, input) ==> l.status.InTransit? && l.payoutId == Some(q)
    ensures PaidIn(Paying(lines, input), p) == PaidIn(lines, p) + (if p == q then LinesTotal(Named(lines, input)) else 0)
  {
    SumMap(lines, l => PayLine(l, input), l => PaidTerm(p, l), l => PaidTerm(p, PayLine(l, input)));
    SumPlus(lines, l => PaidTerm(p, l), l => NamedTerm(p, input, l), l => PaidTerm(p, PayLine(l, input)));
    if p == q {
      SumFilter(lines, (l: Line) => IsNamed(l, input), (l: Line) => l.amount, l => NamedTerm(p, input, l));
    } else {
      SumZero(lines, l => NamedTerm(p, input, l));
    }
  }

  lemma PayingKeepsLinesIn(lines: seq<Line>, input: PaidInput, p: nat)
    ensures LinesIn(Paying(lines, input), p) == LinesIn(lines, p)
  {
    SumMap(lines, l => PayLine(l, input), l => LineTerm(p, l), l => LineTerm(p, l));
  }

  lemma RewrittenMembers(lines: seq<Line>, h: Line -> Line)
    ensures forall l :: l in lines ==> h(l) in Map(lines, h)
    ensures forall l' :: l' in Map(lines, h) ==> exists l :: l in lines && l' == h(l)
  {
    var lines' := Map(lines, h);
    forall l | l in lines
      ensures h(l) in lines'
    {
      var i :| 0 <= i < |lines| && lines[i] == l;
      assert lines'[i] == h(l);
    }
    forall l' | l' in lines'
      ensures exists l :: l in lines && l' == h(l)
    {
      var i :| 0 <= i < |lines'| && lines'[i] == l';
      assert lines[i] in lines;
    }
  }

  /** Lines after a step that rewrites each of them keeping its payout and amount. */
  lemma RewrittenLines(lines: seq<Line>, h: Line -> Line, p: nat)
    requires forall l :: l in lines ==> h(l).payoutId == l.payoutId && h(l).amount == l.amount
    ensures HasLines(Map(lines, h), p) <==> HasLines(lines, p)
    ensures IsPositive(Map(lines, h), p) <==> IsPositive(lines, p)
    ensures HasPaid(Map(lines, h), p) <==> exists l :: l in lines && l.payoutId == Some(p) && h(l).status.Paid?
    ensures Settled(Map(lines, h), p) <==> forall l :: l in lines && l.payoutId == Some(p) && l.amount > 0 ==> h(l).status.Paid?
  {
    RewrittenMembers(lines, h);
  }

  lemma PaidLines(lines: seq<Line>, input: PaidInput, p: nat)
    ensures HasLines(Paying(lines, input), p) <==> HasLines(lines, p)
    ensures IsPositive(Paying(lines, input), p) <==> IsPositive(lines, p)
    ensures HasPaid(Paying(lines, input), p) <==> HasPaid(lines, p) || exists l :: l in lines && IsNamed(l, input) && l.payoutId == Some(p)
    ensures Settled(Paying(lines, input), p) <==>
              forall l :: l in lines && l.payoutId == Some(p) && l.amount > 0 ==> l.status.Paid? || IsNamed(l, input)
    ensures forall l :: l in Paying(lines, input) && (forall x :: x in lines ==> x.amount >= 0) ==> l.amount >= 0
  {
    RewrittenLines(lines, l => PayLine(l, input), p);
    RewrittenMembers(lines, l => PayLine(l, input));
  }

  /** What paying the named lines of payout `q` makes of its amounts. */
  lemma PaidPayoutTracks(t: Tables, input: PaidInput, q: nat)
    requires Pays(t, input, q) && PayoutTracksLines(t, q)
    requires forall l :: l in t.lines ==> l.amount >= 0
    ensures var paid := Process(t.ledger.payouts[q], LinesTotal(Named(t.lines, input)));
            && paid.processedAmount == PaidIn(Paying(t.lines, input), q)
            && LinesIn(Paying(t.lines, input), q) == paid.amount
            && (paid.processedAmount == paid.amount <==> Settled(Paying(t.lines, input), q))
  {
    PayingAdds(t.lines, input, q, q);
    PayingKeepsLinesIn(t.lines, input, q);
    PaidLines(t.lines, input, q);
    PaidPart(Paying(t.lines, input), q);
  }

  /** Nothing was left to pay before only if nothing is after, and no line of the payout waits to be sent. */
  lemma PayingMovesOn(t: Tables, input: PaidInput, q: nat)
    requires Pays(t, input, q) && PayoutTracksLines(t, q)
    ensures !t.ledger.payouts[q].status.Scheduled? && HasPaid(Paying(t.lines, input), q)
    ensures Settled(t.lines, q) ==> Settled(Paying(t.lines, input), q)
    ensures IsPositive(t.lines, q) ==> !t.ledger.payouts[q].status.Paid?
    ensures forall l :: l in Paying(t.lines, input) && l.payoutId == Some(q) ==> !l.status.Scheduled?
  {
    PaidLines(t.lines, input, q);
    forall l' | l' in Paying(t.lines, input) && l'.payoutId == Some(q)
      ensures !l'.status.Scheduled?
    {
      var l := MapMember(t.lines, x => PayLine(x, input), l');
    }
  }

  /** The input pays lines of payout `q`. */
  ghost predicate Pays(t: Tables, input: PaidInput, q: nat) {
    && q < |t.ledger.payouts| && HasLines(t.lines, q)
    && (exists l :: l in t.lines && IsNamed(l, input))
    && (forall l :: l in t.lines && IsNamed(l, input) ==> l.status.InTransit? && l.payoutId == Some(q))
  }

  lemma PaidTables(t: Tables, input: PaidInput) returns (q: nat)
    requires Tracked(t) && MarkPaid(t, input).failure.None?
    ensures Pays(t, input, q) && PayoutTracksLines(t, q)
    ensures var t' := MarkPaid(t, input).tables;
            var paid := Process(t.ledger.payouts[q], LinesTotal(Named(t.lines, input)));
            && t'.lines == Paying(t.lines, input) && t'.ledger.payouts == t.ledger.payouts[q := paid]
            && t'.paidEvents == if paid.processedAmount == paid.amount then t.paidEvents + [q] else t.paidEvents
  {
    NamedLines(t, input);
    var named := Named(t.lines, input);
    q := named[0].payoutId.value;
    assert forall l :: l in t.lines && IsNamed(l, input) ==> l in named;
    assert named[0] in t.lines;
  }

  /** The lines of other payouts are not touched. */
  lemma OtherLinesSame(lines: seq<Line>, input: PaidInput, p: nat)
    requires forall l :: l in lines && IsNamed(l, input) ==> l.payoutId != Some(p)
    ensures forall l: Line :: l.payoutId == Some(p) ==> (l in Paying(lines, input) <==> l in lines)
  {
    var h := l => PayLine(l, input);
    RewrittenMembers(lines, h);
    forall l: Line | l.payoutId == Some(p) && l in lines
      ensures l in Paying(lines, input)
    {
      assert h(l) == l;
    }
  }

  lemma SameLinesSameStatus(payout: Payout, lines: seq<Line>, lines': seq<Line>, events: int, p: nat)
    requires forall l: Line :: l.payoutId == Some(p) ==> (l in lines' <==> l in lines)
    requires StatusTracks(payout, lines, events, p)
    ensures StatusTracks(payout, lines', events, p)
    ensures HasLines(lines', p) <==> HasLines(lines, p)
  {}

  lemma OtherPayoutTracks(t: Tables, input: PaidInput, q: nat, p: nat)
    requires Pays(t, input, q) && p != q && p < |t.ledger.payouts| && PayoutTracksLines(t, p)
    ensures AmountsTrack(t.ledger.payouts[p], Paying(t.lines, input), p)
    ensures StatusTracks(t.ledger.payouts[p], Paying(t.lines, input), Count(t.paidEvents, p), p)
  {
    PayingAdds(t.lines, input, p, q);
    PayingKeepsLinesIn(t.lines, input, p);
    OtherLinesSame(t.lines, input, p);
    SameLinesSameStatus(t.ledger.payouts[p], t.lines, Paying(t.lines, input), Count(t.paidEvents, p), p);
  }

  /** The payout that takes the payment: its amounts, its status and its event follow. */
  lemma PayingPayoutTracks(t: Tables, input: PaidInput, q: nat)
    requires Pays(t, input, q) && PayoutTracksLines(t, q) && LinesLinked(t.ledger.payouts, t.lines)
    ensures var paid := Process(t.ledger.payouts[q], LinesTotal(Named(t.lines, input)));
            var events := Count(t.paidEvents, q) + if paid.processedAmount == paid.amount then 1 else 0;
            && AmountsTrack(paid, Paying(t.lines, input), q) && StatusTracks(paid, Paying(t.lines, input), events, q)
  {
    SumNonNegative(t.paidEvents, x => if x == q then 1 else 0);
    PaidPayoutTracks(t, input, q);
    PayingMovesOn(t, input, q);
    PaidLines(t.lines, input, q);
  }

  lemma MarkPaidTracks(t: Tables, input: PaidInput, p: nat)
    requires Tracked(t) && MarkPaid(t, input).failure.None? && p < |t.ledger.payouts|
    ensures PayoutTracksLines(MarkPaid(t, input).tables, p)
  {
    var q := PaidTables(t, input);
    SumSnoc(t.paidEvents, q, x => if x == p then 1 else 0);
    if p == q {
      PayingPayoutTracks(t, input, q);
    } else {
      OtherPayoutTracks(t, input, q, p);
    }
  }

  /** An input that fails changes nothing. */
  lemma FailedInputChangesNothing(t: Tables, input: PaidInput)
    requires Tracked(t)
    ensures MarkPaid(t, input).failure.Some? ==> MarkPaid(t, input).tables == t
  {
    NamedLines(t, input);
  }

  lemma PayingKeepsLinks(payouts: seq<Payout>, payouts': seq<Payout>, lines: seq<Line>, input: PaidInput)
    requires LinesLinked(payouts, lines) && PairsUnsplit(lines)
    requires |payouts'| == |payouts| && forall p :: 0 <= p < |payouts| ==> payouts'[p].tenant == payouts[p].tenant
    ensures LinesLinked(payouts', Paying(lines, input)) && PairsUnsplit(Paying(lines, input))
  {
    RewrittenMembers(lines, l => PayLine(l, input));
  }

  lemma MarkPaidKeepsTracked(t: Tables, input: PaidInput)
    requires Tracked(t)
    ensures Tracked(MarkPaid(t, input).tables)
  {
    FailedInputChangesNothing(t, input);
    if MarkPaid(t, input).failure.None? {
      var t' := MarkPaid(t, input).tables;
      var q := PaidTables(t, input);
      forall p: nat | p < |t'.ledger.payouts|
        ensures PayoutTracksLines(t', p)
      {
        MarkPaidTracks(t, input, p);
      }
      PayingKeepsLinks(t.ledger.payouts, t'.ledger.payouts, t.lines, input);
    }
  }

  /** The paid event of a payout is published by exactly the accepted inputs for it that leave nothing to pay. */
  lemma EventFiresIff(t: Tables, input: PaidInput, p: nat)
    requires Tracked(t) && p < |t.ledger.payouts|
    ensures var t' := MarkPaid(t, input).tables;
            Count(t'.paidEvents, p) > Count(t.paidEvents, p) <==>
              && MarkPaid(t, input).failure.None?
              && (exists l :: l in t.lines && IsNamed(l, input) && l.payoutId == Some(p)) && Settled(t'.lines, p)
  {
    if MarkPaid(t, input).failure.None? {
      var q := PaidTables(t, input);
      SumSnoc(t.paidEvents, q, x => if x == p then 1 else 0);
      PaidPayoutTracks(t, input, q);
    } else {
      FailedInputChangesNothing(t, input);
    }
  }

  /** If every line of the payout is worth something, that is exactly the input that pays its last line. */
  lemma EventFiresOnLastLine(t: Tables, input: PaidInput, p: nat)
    requires Tracked(t) && p < |t.ledger.payouts| && IsPositive(t.lines, p)
    ensures var t' := MarkPaid(t, input).tables;
            Count(t'.paidEvents, p) > Count(t.paidEvents, p) <==>
              HasLines(t.lines, p) && !AllPaid(t.lines, p) && AllPaid(t'.lines, p)
  {
    EventFiresIff(t, input, p);
    if MarkPaid(t, input).failure.None? {
      RewrittenMembers(t.lines, l => PayLine(l, input));
      PaidLines(t.lines, input, p);
      var q := PaidTables(t, input);
    } else {
      FailedInputChangesNothing(t, input);
    }
  }

  /** Replaying an accepted input, whatever document it now names, fails and changes nothing. */
  lemma ReplayIsRejected(t: Tables, input: PaidInput, replay: PaidInput)
    requires Tracked(t) && MarkPaid(t, input).failure.None?
    requires replay.requestId == input.requestId && replay.vendorId == input.vendorId
    ensures MarkPaid(MarkPaid(t, input).tables, replay) == Step(MarkPaid(t, input).tables, Some(LineNotInTransit))
  {
    var t' := MarkPaid(t, input).tables;
    NamedLines(t, input);
    var l := Named(t.lines, input)[0];
    var i :| 0 <= i < |t.lines| && t.lines[i] == l;
    assert t'.lines[i] in t'.lines && IsNamed(t'.lines[i], replay) && t'.lines[i].status.Paid?;
    FilterMembers(t'.lines, (x: Line) => IsNamed(x, replay));
    assert t'.lines[i] in Named(t'.lines, replay);
  }

  // ---------- A batch ----------

  lemma BatchMembers(t: Tables, complete: set<nat>, tenant: Tenant)
    ensures forall p: nat :: p in BatchPayouts(t.ledger.payouts, complete, tenant) <==> InBatch(t.ledger.payouts, complete, tenant, p)
    ensures forall l :: l in BatchLines(t, complete, tenant) <==> l in t.lines && LineInBatch(t.ledger.payouts, complete, tenant, l)
  {
    var payouts := t.ledger.payouts;
    var all := seq<nat>(|payouts|, (i: nat) => i);
    FilterMembers(all, (p: nat) => InBatch(payouts, complete, tenant, p));
    forall p: nat
      ensures p in BatchPayouts(payouts, complete, tenant) <==> InBatch(payouts, complete, tenant, p)
    {
      assert p < |payouts| ==> all[p] == p;
      assert BatchPayouts(payouts, complete, tenant) == Filter(all, (p: nat) => InBatch(payouts, complete, tenant, p));
    }
    FilterMembers(t.lines, (l: Line) => LineInBatch(t.ledger.payouts, complete, tenant, l));
  }

  /** The guard against lines in a wrong state never stops a batch. */
  lemma BatchNeverStops(t: Tables, complete: set<nat>, tenant: Tenant)
    requires Tracked(t)
    ensures forall l :: l in BatchLines(t, complete, tenant) ==> l.status.Scheduled?
  {
    BatchMembers(t, complete, tenant);
    forall l | l in BatchLines(t, complete, tenant)
      ensures l.status.Scheduled?
    {
      assert PayoutTracksLines(t, l.payoutId.value);
    }
  }

  function Sending(t: Tables, complete: set<nat>, tenant: Tenant): seq<Line> {
    Map(t.lines, l => LineInTransit(t.ledger.payouts, complete, tenant, l))
  }

  lemma SendingTracks(t: Tables, complete: set<nat>, tenant: Tenant, p: nat)
    requires p < |t.ledger.payouts| && LinesLinked(t.ledger.payouts, t.lines)
    requires forall l :: l in t.lines && LineInBatch(t.ledger.payouts, complete, tenant, l) ==> l.status.Scheduled?
    ensures AmountsTrack(t.ledger.payouts[p], t.lines, p) ==> AmountsTrack(t.ledger.payouts[p], Sending(t, complete, tenant), p)
  {
    var h := l => LineInTransit(t.ledger.payouts, complete, tenant, l);
    SumMap(t.lines, h, l => LineTerm(p, l), l => LineTerm(p, l));
    SumMap(t.lines, h, l => PaidTerm(p, l), l => PaidTerm(p, l));
    RewrittenLines(t.lines, h, p);
  }

  /** A payout and its lines are sent together. */
  lemma SentTogether(t: Tables, complete: set<nat>, tenant: Tenant, p: nat)
    requires p < |t.ledger.payouts| && LinesLinked(t.ledger.payouts, t.lines)
    requires forall l :: l in t.lines && l.payoutId == Some(p) ==> (l.status.Scheduled? <==> t.ledger.payouts[p].status.Scheduled?)
    ensures forall l :: l in Sending(t, complete, tenant) && l.payoutId == Some(p) ==>
              (l.status.Scheduled? <==> PayoutsInTransit(t.ledger.payouts, complete, tenant)[p].status.Scheduled?)
  {
    forall l' | l' in Sending(t, complete, tenant) && l'.payoutId == Some(p)
      ensures l'.status.Scheduled? <==> PayoutsInTransit(t.ledger.payouts, complete, tenant)[p].status.Scheduled?
    {
      var l := MapMember(t.lines, x => LineInTransit(t.ledger.payouts, complete, tenant, x), l');
      assert LineLinked(t.ledger.payouts, l);
    }
  }

  lemma SendingKeepsStatus(t: Tables, complete: set<nat>, tenant: Tenant, p: nat, events: int)
    requires p < |t.ledger.payouts| && LinesLinked(t.ledger.payouts, t.lines)
    requires forall l :: l in t.lines && LineInBatch(t.ledger.payouts, complete, tenant, l) ==> l.status.Scheduled?
    requires StatusTracks(t.ledger.payouts[p], t.lines, events, p)
    ensures StatusTracks(PayoutsInTransit(t.ledger.payouts, complete, tenant)[p], Sending(t, complete, tenant), events, p)
  {
    var h := l => LineInTransit(t.ledger.payouts, complete, tenant, l);
    RewrittenLines(t.lines, h, p);
    SentTogether(t, complete, tenant, p);
  }

  function Sent(t: Tables, complete: set<nat>, tenant: Tenant): Tables {
    t.(ledger := t.ledger.(payouts := PayoutsInTransit(t.ledger.payouts, complete, tenant)), lines := Sending(t, complete, tenant))
  }

  lemma SentLinesLinked(t: Tables, complete: set<nat>, tenant: Tenant)
    requires LinesLinked(t.ledger.payouts, t.lines) && PairsUnsplit(t.lines)
    ensures LinesLinked(Sent(t, complete, tenant).ledger.payouts, Sending(t, complete, tenant)) && PairsUnsplit(Sending(t, complete, tenant))
  {
    var sent := l => LineInTransit(t.ledger.payouts, complete, tenant, l);
    forall l' | l' in Sending(t, complete, tenant)
      ensures LineLinked(Sent(t, complete, tenant).ledger.payouts, l')
    {
      var l := MapMember(t.lines, sent, l');
      assert LineLinked(t.ledger.payouts, l);
    }
    RewrittenKeepsPairs(t.lines, sent);
  }

  lemma RewrittenKeepsPairs(lines: seq<Line>, h: Line -> Line)
    requires PairsUnsplit(lines)
    requires forall l :: h(l).requestId == l.requestId && h(l).vendorId == l.vendorId && h(l).payoutId == l.payoutId
    ensures PairsUnsplit(Map(lines, h))
  {
    RewrittenMembers(lines, h);
  }

  lemma SentKeepsTracked(t: Tables, complete: set<nat>, tenant: Tenant)
    requires Tracked(t)
    requires forall l :: l in t.lines && LineInBatch(t.ledger.payouts, complete, tenant, l) ==> l.status.Scheduled?
    ensures Tracked(Sent(t, complete, tenant))
  {
    var t' := Sent(t, complete, tenant);
    SentLinesLinked(t, complete, tenant);
    forall p: nat | p < |t.ledger.payouts|
      ensures PayoutTracksLines(t', p)
    {
      assert PayoutTracksLines(t, p);
      SendingTracks(t, complete, tenant, p);
      SendingKeepsStatus(t, complete, tenant, p, Count(t.paidEvents, p));
    }
  }

  /** A batch that stays in the office only adds its own record; one that is sent moves its payouts and lines. */
  lemma CreateBatchCases(t: Tables, complete: set<nat>, tenant: Tenant, uploaded: bool)
    requires Tracked(t)
    ensures var t' := CreateBatch(t, complete, tenant, uploaded).tables;
            t' == t.(batches := t'.batches) || t' == Sent(t, complete, tenant).(batches := t'.batches)
    ensures forall l :: l in t.lines && LineInBatch(t.ledger.payouts, complete, tenant, l) ==> l.status.Scheduled?
  {
    BatchNeverStops(t, complete, tenant);
    BatchMembers(t, complete, tenant);
    assert forall l :: l in t.lines && LineInBatch(t.ledger.payouts, complete, tenant, l) ==> l in BatchLines(t, complete, tenant);
  }

  lemma OtherTables(t: Tables, batches: seq<Batch>)
    requires Tracked(t)
    ensures Tracked(t.(batches := batches))
  {
    forall p: nat | p < |t.ledger.payouts|
      ensures PayoutTracksLines(t.(batches := batches), p)
    {
      assert PayoutTracksLines(t, p);
    }
  }

  lemma CreateBatchKeepsTracked(t: Tables, complete: set<nat>, tenant: Tenant, uploaded: bool)
    requires Tracked(t)
    ensures Tracked(CreateBatch(t, complete, tenant, uploaded).tables)
  {
    CreateBatchCases(t, complete, tenant, uploaded);
    SentKeepsTracked(t, complete, tenant);
    var batches := CreateBatch(t, complete, tenant, uploaded).tables.batches;
    OtherTables(t, batches);
    OtherTables(Sent(t, complete, tenant), batches);
  }
}
