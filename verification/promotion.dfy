/** Promotion codes: the discount, and commits that validate on a stale read and count usage atomically. */
module Promotions {
  import opened Wrappers
  import opened Sums

  datatype DiscountType = Numeric | Percentage

  datatype Discount = Discount(discountType: DiscountType, discountValue: real, amountLimit: Option<real>)

  datatype Promotion = Promotion(
    isActive: bool,
    startsAt: Option<int>,
    endsAt: Option<int>,
    usageLimit: int,
    usageCount: int,
    discount: Discount)

  datatype PromotionError = CodeExpired | CodeInvalid | UsageLimitReached

  datatype Applied = Applied(code: string, discountedAmount: real, originalTotal: real, discountedTotal: real)

  /** The error of a promotion at a time, or none. */
  function Validate(p: Promotion, now: int): Option<PromotionError> {
    if p.endsAt.Some? && p.endsAt.value < now then Some(CodeExpired)
    else if p.startsAt.Some? && p.startsAt.value > now then Some(CodeInvalid)
    else if p.usageCount >= p.usageLimit then Some(UsageLimitReached)
    else None
  }

  function Min(a: real, b: real): real {
    if a <= b then a else b
  }

  /** A missing limit, and a limit of 0, is no limit but the total. */
  function LimitFor(d: Discount, total: real): real {
    if d.amountLimit.None? || d.amountLimit.value == 0.0 then total else d.amountLimit.value
  }

  function DiscountedAmount(d: Discount, total: real): real {
    match d.discountType
    case Numeric => Min(Min(d.discountValue, LimitFor(d, total)), total)
    case Percentage => Min(Min(total * d.discountValue / 100.0, LimitFor(d, total)), total)
  }

  function Apply(code: string, d: Discount, total: real): Applied {
    Applied(code, DiscountedAmount(d, total), total, total - DiscountedAmount(d, total))
  }

  predicate HasNonNegativeTerms(d: Discount) {
    d.discountValue >= 0.0 && (d.amountLimit.Some? ==> d.amountLimit.value >= 0.0)
  }

  /** What the customer may expect of a discount on a total. */
  predicate IsFair(a: Applied, d: Discount, total: real) {
    && a.originalTotal == total && a.discountedTotal == total - a.discountedAmount
    && 0.0 <= a.discountedAmount <= total
    && (d.amountLimit.Some? && d.amountLimit.value > 0.0 ==> a.discountedAmount <= d.amountLimit.value)
    && (d.discountType.Numeric? ==> a.discountedAmount <= d.discountValue)
    && (d.discountType.Percentage? ==> 100.0 * a.discountedAmount <= total * d.discountValue)
    && (a.discountedAmount == total
        || (d.amountLimit.Some? && d.amountLimit.value > 0.0 && a.discountedAmount == d.amountLimit.value)
        || (d.discountType.Numeric? && a.discountedAmount == d.discountValue)
        || (d.discountType.Percentage? && 100.0 * a.discountedAmount == total * d.discountValue))
  }

  /** The discount is the greatest that the total, the limit and the promotion's terms allow. */
  lemma ApplyIsFair(code: string, d: Discount, total: real)
    requires HasNonNegativeTerms(d) && total >= 0.0
    ensures IsFair(Apply(code, d, total), d, total)
  {
    assert total * d.discountValue >= 0.0;
  }

  // ---------- Concurrent commits ----------

  datatype Phase =
    | Requested
    | Validated(result: Applied)
    | Accepted(granted: Applied)
    | Refused(error: PromotionError)

  /** One execution of the command. */
  datatype Call = Call(code: string, totalAmount: real, forCommit: bool, phase: Phase)

  datatype System = System(promotions: map<string, Promotion>, calls: seq<Call>)

  /** Reads the stored promotion, validates it and computes the discount. */
  function ReadAndValidate(promotions: map<string, Promotion>, c: Call, now: int): Phase {
    if c.code !in promotions || !promotions[c.code].isActive then Refused(CodeInvalid)
    else
      var p := promotions[c.code];
      var error := Validate(p, now);
      if error.Some? then Refused(error.value)
      else if c.forCommit then Validated(Apply(c.code, p.discount, c.totalAmount))
      else Accepted(Apply(c.code, p.discount, c.totalAmount))
  }

  /** The conditional increment hits a row; it does not look at the status or the period again. */
  predicate Increments(promotions: map<string, Promotion>, code: string) {
    code in promotions && promotions[code].usageLimit > promotions[code].usageCount
  }

  function Increment(promotions: map<string, Promotion>, code: string): map<string, Promotion> {
    if Increments(promotions, code) then promotions[code := promotions[code].(usageCount := promotions[code].usageCount + 1)]
    else promotions
  }

  datatype Event =
    | Arrive(code: string, totalAmount: real, forCommit: bool)
    | Advance(call: nat, now: int)
    | SetActive(target: string, isActive: bool)

  /** Lets a call do its next database access. */
  function Next(s: System, e: Event): System {
    match e
    case Arrive(code, total, forCommit) => s.(calls := s.calls + [Call(code, total, forCommit, Requested)])
    case SetActive(code, isActive) =>
      if code !in s.promotions then s
      else s.(promotions := s.promotions[code := s.promotions[code].(isActive := isActive)])
    case Advance(i, now) =>
      if i >= |s.calls| then s
      else
        var c := s.calls[i];
        match c.phase
        case Requested => s.(calls := s.calls[i := c.(phase := ReadAndValidate(s.promotions, c, now))])
        case Validated(result) =>
          System(Increment(s.promotions, c.code),
                 s.calls[i := c.(phase := if Increments(s.promotions, c.code) then Accepted(result) else Refused(UsageLimitReached))])
        case _ => s
  }

  function Run(s: System, events: seq<Event>): System {
    if events == [] then s else Next(Run(s, events[..|events| - 1]), events[|events| - 1])
  }

  function UsageTerm(code: string): Call -> int {
    (c: Call) => if c.code == code && c.forCommit && c.phase.Accepted? then 1 else 0
  }

  /** The commits of a code that succeeded. */
  function Successes(s: System, code: string): int {
    Sum(s.calls, UsageTerm(code))
  }

  predicate IsStored(promotions: map<string, Promotion>) {
    forall code :: code in promotions ==>
      promotions[code].usageCount <= promotions[code].usageLimit && HasNonNegativeTerms(promotions[code].discount)
  }

  predicate CallIsFair(promotions: map<string, Promotion>, c: Call) {
    && (c.phase.Validated? ==> c.code in promotions && c.forCommit)
    && (c.phase.Accepted? ==> c.code in promotions)
    && (c.totalAmount >= 0.0 && c.phase.Validated? ==> IsFair(c.phase.result, promotions[c.code].discount, c.totalAmount))
    && (c.totalAmount >= 0.0 && c.phase.Accepted? ==> IsFair(c.phase.granted, promotions[c.code].discount, c.totalAmount))
  }

  function Used(p: Promotion, times: int, isActive: bool): Promotion {
    p.(usageCount := p.usageCount + times, isActive := isActive)
  }

  /** `now` has the promotions of `start`, with as many more usages as commits succeeded, and never beyond the limit. */
  ghost predicate Counted(start: map<string, Promotion>, now: System) {
    && now.promotions.Keys == start.Keys
    && IsStored(now.promotions)
    && (forall code :: code in start ==> now.promotions[code] == Used(start[code], Successes(now, code), now.promotions[code].isActive))
    && (forall i :: 0 <= i < |now.calls| ==> CallIsFair(now.promotions, now.calls[i]))
  }

  lemma ReadKeepsCounted(start: map<string, Promotion>, s: System, i: nat, now: int)
    requires Counted(start, s) && i < |s.calls| && s.calls[i].phase.Requested?
    ensures Counted(start, Next(s, Advance(i, now)))
  {
    var c := s.calls[i];
    var t := Next(s, Advance(i, now));
    forall code | code in start
      ensures Successes(t, code) == Successes(s, code)
    {
      SumUpdate(s.calls, i, t.calls[i], UsageTerm(code));
    }
    if c.code in s.promotions && c.totalAmount >= 0.0 {
      ApplyIsFair(c.code, s.promotions[c.code].discount, c.totalAmount);
    }
  }

  lemma CommitCounts(s: System, i: nat, now: int, code: string)
    requires i < |s.calls| && s.calls[i].phase.Validated? && s.calls[i].forCommit
    ensures Successes(Next(s, Advance(i, now)), code)
         == Successes(s, code) + if code == s.calls[i].code && Increments(s.promotions, code) then 1 else 0
  {
    SumUpdate(s.calls, i, Next(s, Advance(i, now)).calls[i], UsageTerm(code));
  }

  lemma CommitKeepsFair(s: System, i: nat, now: int, k: nat)
    requires i < |s.calls| && s.calls[i].phase.Validated? && k < |s.calls|
    requires forall j :: 0 <= j < |s.calls| ==> CallIsFair(s.promotions, s.calls[j])
    ensures CallIsFair(Next(s, Advance(i, now)).promotions, Next(s, Advance(i, now)).calls[k])
  {
    assert CallIsFair(s.promotions, s.calls[k]) && CallIsFair(s.promotions, s.calls[i]);
  }

  lemma CommitKeepsCounted(start: map<string, Promotion>, s: System, i: nat, now: int)
    requires Counted(start, s) && i < |s.calls| && s.calls[i].phase.Validated?
    ensures Counted(start, Next(s, Advance(i, now)))
  {
    var t := Next(s, Advance(i, now));
    assert CallIsFair(s.promotions, s.calls[i]);
    forall code | code in start
      ensures t.promotions[code] == Used(start[code], Successes(t, code), t.promotions[code].isActive)
    {
      CommitCounts(s, i, now, code);
    }
    forall k | 0 <= k < |t.calls|
      ensures CallIsFair(t.promotions, t.calls[k])
    {
      CommitKeepsFair(s, i, now, k);
    }
  }

  lemma StepKeepsCounted(start: map<string, Promotion>, s: System, e: Event)
    requires Counted(start, s)
    ensures Counted(start, Next(s, e))
  {
    match e
    case Arrive(code, total, forCommit) =>
      forall k | k in start
        ensures Successes(Next(s, e), k) == Successes(s, k)
      {
        SumSnoc(s.calls, Call(code, total, forCommit, Requested), UsageTerm(k));
      }
    case SetActive(_, _) =>
    case Advance(i, now) =>
      if i < |s.calls| && s.calls[i].phase.Requested? {
        ReadKeepsCounted(start, s, i, now);
      } else if i < |s.calls| && s.calls[i].phase.Validated? {
        CommitKeepsCounted(start, s, i, now);
      }
  }

  /** Whatever the interleaving of commits that validate on a read which others have since overtaken: a code's usage
      grows by one for each commit that succeeded, it never passes the limit, and every discount granted or about to be
      granted on a non-negative total lies between 0 and the total and within a positive amount limit. */
  lemma {:induction false} UsageOverEveryRun(promotions: map<string, Promotion>, events: seq<Event>)
    requires IsStored(promotions)
    ensures Counted(promotions, Run(System(promotions, []), events))
  {
    if events != [] {
      UsageOverEveryRun(promotions, events[..|events| - 1]);
      StepKeepsCounted(promotions, Run(System(promotions, []), events[..|events| - 1]), events[|events| - 1]);
    }
  }

  lemma UsageWithinLimit(promotions: map<string, Promotion>, events: seq<Event>, code: string)
    requires IsStored(promotions) && code in promotions
    ensures 0 <= Successes(Run(System(promotions, []), events), code) <= promotions[code].usageLimit - promotions[code].usageCount
  {
    UsageOverEveryRun(promotions, events);
    SumNonNegative(Run(System(promotions, []), events).calls, UsageTerm(code));
  }

  /** A validated commit is refused exactly if commits of others have used the code up since. */
  lemma LateCommitRefusedIff(promotions: map<string, Promotion>, events: seq<Event>, i: nat, now: int)
    requires IsStored(promotions)
    requires var s := Run(System(promotions, []), events); i < |s.calls| && s.calls[i].phase.Validated?
    ensures var s := Run(System(promotions, []), events);
            var code := s.calls[i].code;
            && code in promotions
            && (Next(s, Advance(i, now)).calls[i].phase == Refused(UsageLimitReached)
                <==> Successes(s, code) == promotions[code].usageLimit - promotions[code].usageCount)
            && (Next(s, Advance(i, now)).calls[i].phase.Refused? ==> Next(s, Advance(i, now)).promotions == s.promotions)
  {
    UsageOverEveryRun(promotions, events);
  }

  // ---------- When a code is accepted ----------

  /** The promotion is on, its period has begun and not ended, and usages are left. */
  predicate IsUsable(p: Promotion, now: int) {
    && p.isActive && p.usageCount < p.usageLimit
    && (p.startsAt.Some? ==> p.startsAt.value <= now) && (p.endsAt.Some? ==> now <= p.endsAt.value)
  }

  predicate HasEnded(p: Promotion, now: int) {
    p.isActive && p.endsAt.Some? && p.endsAt.value < now
  }

  /** A call that is not overtaken succeeds exactly if its code is stored and usable. It is told that a code that is on has expired if its
      period has ended, and that its limit is reached if the period is right; any other refused code is invalid. Only a successful
      commit changes the stored promotions: the code has one usage more. */
  lemma CallSucceedsIff(promotions: map<string, Promotion>, code: string, total: real, forCommit: bool, now: int)
    ensures var s := System(promotions, [Call(code, total, forCommit, Requested)]);
            var t := Next(Next(s, Advance(0, now)), Advance(0, now));
            var phase := t.calls[0].phase;
            && (phase.Accepted? <==> code in promotions && IsUsable(promotions[code], now))
            && (!phase.Accepted? ==> phase.Refused?)
            && (phase == Refused(CodeExpired) <==> code in promotions && HasEnded(promotions[code], now))
            && (phase == Refused(UsageLimitReached) <==>
                  && code in promotions && promotions[code].isActive && !HasEnded(promotions[code], now)
                  && (promotions[code].startsAt.Some? ==> promotions[code].startsAt.value <= now)
                  && promotions[code].usageCount >= promotions[code].usageLimit)
            && t.promotions == if phase.Accepted? && forCommit
                               then promotions[code := promotions[code].(usageCount := promotions[code].usageCount + 1)] else promotions
    ensures var s := System(promotions, [Call(code, total, forCommit, Requested)]);
            var phase := Next(Next(s, Advance(0, now)), Advance(0, now)).calls[0].phase;
            phase.Accepted? && HasNonNegativeTerms(promotions[code].discount) && total >= 0.0 ==>
              phase.granted.code == code && IsFair(phase.granted, promotions[code].discount, total)
  {
    if code in promotions && HasNonNegativeTerms(promotions[code].discount) && total >= 0.0 {
      ApplyIsFair(code, promotions[code].discount, total);
    }
  }

  // ---------- The handler as an object over the stored promotions ----------

  class ApplyPromoCodeHandler {
    var promotions: map<string, Promotion>

    constructor (promotions: map<string, Promotion>)
      ensures this.promotions == promotions
    {
      this.promotions := promotions;
    }

    /** A call that is not overtaken. */
    method Execute(code: string, totalAmount: real, forCommit: bool, now: int) returns (r: Result<Applied, PromotionError>)
      modifies this
      ensures var s := System(old(promotions), [Call(code, totalAmount, forCommit, Requested)]);
              var t := Next(Next(s, Advance(0, now)), Advance(0, now));
              && promotions == t.promotions
              && t.calls[0].phase == match r { case Ok(a) => Accepted(a) case Err(e) => Refused(e) }
    {
      if code !in promotions || !promotions[code].isActive {
        return Err(CodeInvalid);
      }
      var promotion := promotions[code];
      var error := Validate(promotion, now);
      if error.Some? {
        return Err(error.value);
      }
      var result := Apply(code, promotion.discount, totalAmount);
      if forCommit {
        var affected := if Increments(promotions, code) then 1 else 0;
        promotions := Increment(promotions, code);
        if affected == 0 {
          return Err(UsageLimitReached);
        }
      }
      return Ok(result);
    }
  }
}
