/** Concrete runs of one request in which a surcharge response leaves rows behind. */
module DispatchWitnesses {
  import opened Wrappers
  import opened ServiceEntity
  import opened ServiceRequests
  import opened Dispatching
  import opened DispatchRuns
  import opened Runs

  const CONFIG := Config(true, 10, 5, false, 0, 0, 0, 0)

  const ARRIVAL := Period(5 * HOUR, 6 * HOUR)

  const LATER := Period(8 * HOUR, 9 * HOUR)

  const APPOINTMENT := Appointment(ARRIVAL, Period(5 * HOUR, 6 * HOUR), 60)

  const PAID := PaymentResponse(0, PaymentSucceeded)

  const UNPAID := PaymentResponse(0, PaymentFailed)

  const ANNA := ServiceProvider("a", Independent, true, [])

  const BELA := ServiceProvider("b", Independent, true, [])

  /** The request paid its fee and was accepted by `a`; five hours before the arrival its customer asks for another one,
      which costs a surcharge. */
  const SURCHARGED := [
    RequestCreated("r", CONFIG, APPOINTMENT), FeePaid("r", [PAID], 0), JobAccepted("r", ANNA), CustomerRescheduled("r", LATER, 0)]

  const RETAKEN := SURCHARGED + [JobCancelled("r", ANNA, 0), JobAccepted("r", BELA)]

  function Open(order: RescheduleOrder, at: Option<int>): Request {
    Request(Make(None, None, Some(PAID), true, None), APPOINTMENT, order, CONFIG, at)
  }

  function Held(sp: ServiceProvider, order: RescheduleOrder, at: Option<int>): Request {
    Request(Make(None, Some(Provider(Some(Agent(Some(sp.id))), Some(Agent(Some(sp.id))), Some(APPOINTMENT.schedule))), Some(PAID), true, None),
            APPOINTMENT, order, CONFIG, at)
  }

  function Row(sp: ServiceProvider, status: AppointmentStatus): AppointmentRow {
    AppointmentRow("r", Some(sp.id), Some(sp.id), Some(APPOINTMENT.schedule), status)
  }

  const ORDER := MakeOrder(Some(LATER), Some(ARRIVAL), 10, 5, Some("a"), Some(0))

  lemma CreatedAndPaid()
    ensures Apply(Apply(EMPTY_DB, RequestCreated("r", CONFIG, APPOINTMENT)), FeePaid("r", [PAID], 0))
         == Db(map["r" := Open(EMPTY_ORDER, Some(0))], [], [], [])
  {
    OnlyResponse(PAID);
  }

  /** A free independent provider accepts. */
  lemma Accepted(db: Db, sp: ServiceProvider, order: RescheduleOrder)
    requires db.requests == map["r" := Open(order, Some(0))] && db.assignments == []
    requires sp.kind.Independent? && sp.active && !IsBusy(db.appointments, sp.id, APPOINTMENT.schedule)
    requires forall a :: a in db.appointments ==> a.status.ApptCancelled? && a.workerId != Some(sp.id)
    ensures var db' := Apply(db, JobAccepted("r", sp));
            && db'.requests == map["r" := Held(sp, order, Some(0))] && db'.assignments == []
            && |db'.appointments| == |db.appointments| + 1 && db'.appointments[|db.appointments|] == Row(sp, ApptAllocated)
  {}

  lemma SurchargeAsked(db: Db)
    requires db.requests == map["r" := Held(ANNA, EMPTY_ORDER, Some(0))]
    ensures Apply(db, CustomerRescheduled("r", LATER, 0)) == db.(requests := map["r" := Held(ANNA, ORDER, Some(0))])
  {}

  lemma CancelledByAnna(db: Db)
    requires db.requests == map["r" := Held(ANNA, ORDER, Some(0))] && db.assignments == [] && db.appointments == [Row(ANNA, ApptAllocated)]
    ensures var db' := Apply(db, JobCancelled("r", ANNA, 0));
            db'.requests == map["r" := Open(ORDER, Some(0))] && db'.assignments == [] && db'.appointments == [Row(ANNA, ApptCancelled)]
  {}

  // ---------- The states of the runs ----------

  lemma RunPasses(cs: seq<Command>)
    ensures Passes(Apply, EMPTY_DB, cs, StatesOf(Run, cs)) && StatesOf(Run, cs)[|cs|] == Run(cs)
  {
    forall k | 0 <= k < |cs|
      ensures Run(cs[..k + 1]) == Apply(Run(cs[..k]), cs[k])
    {
      var front := cs[..k + 1];
      assert front[..|front| - 1] == cs[..k] && front[|front| - 1] == cs[k];
    }
    StatesPass(Apply, Run, cs);
  }

  lemma SurchargedSteps(cs: seq<Command>, dbs: seq<Db>)
    requires Passes(Apply, EMPTY_DB, cs, dbs) && |cs| >= 4 && cs[..4] == SURCHARGED
    ensures dbs[2] == Apply(Apply(EMPTY_DB, RequestCreated("r", CONFIG, APPOINTMENT)), FeePaid("r", [PAID], 0))
    ensures dbs[3] == Apply(dbs[2], JobAccepted("r", ANNA)) && dbs[4] == Apply(dbs[3], CustomerRescheduled("r", LATER, 0))
  {
    assert forall k :: 0 <= k < 4 ==> cs[k] == cs[..4][k];
    assert IsStep(Apply, cs, dbs, 0) && IsStep(Apply, cs, dbs, 1) && IsStep(Apply, cs, dbs, 2) && IsStep(Apply, cs, dbs, 3);
  }

  lemma OpenInStep(order: RescheduleOrder, at: Option<int>)
    ensures InStep(Db(map["r" := Open(order, at)], [], [], []))
  {
    MakeIsCoherent(None, None, Some(PAID), true, None);
  }

  lemma PaidState(cs: seq<Command>, dbs: seq<Db>)
    requires Passes(Apply, EMPTY_DB, cs, dbs) && |cs| >= 4 && cs[..4] == SURCHARGED
    ensures dbs[2] == Db(map["r" := Open(EMPTY_ORDER, Some(0))], [], [], []) && InStep(dbs[2])
    ensures dbs[3] == Apply(dbs[2], JobAccepted("r", ANNA)) && dbs[4] == Apply(dbs[3], CustomerRescheduled("r", LATER, 0))
  {
    SurchargedSteps(cs, dbs);
    CreatedAndPaid();
    OpenInStep(EMPTY_ORDER, Some(0));
  }

  lemma AcceptedState(cs: seq<Command>, dbs: seq<Db>)
    requires Passes(Apply, EMPTY_DB, cs, dbs) && |cs| >= 4 && cs[..4] == SURCHARGED
    ensures dbs[3].requests == map["r" := Held(ANNA, EMPTY_ORDER, Some(0))]
    ensures dbs[3].assignments == [] && dbs[3].appointments == [Row(ANNA, ApptAllocated)]
    ensures InStep(dbs[3]) && dbs[4] == Apply(dbs[3], CustomerRescheduled("r", LATER, 0))
  {
    PaidState(cs, dbs);
    Accepted(dbs[2], ANNA, EMPTY_ORDER);
    ApplyKeepsInStep(dbs[2], JobAccepted("r", ANNA));
  }

  lemma SurchargedState(cs: seq<Command>, dbs: seq<Db>)
    requires Passes(Apply, EMPTY_DB, cs, dbs) && |cs| >= 4 && cs[..4] == SURCHARGED
    ensures dbs[4].requests == map["r" := Held(ANNA, ORDER, Some(0))]
    ensures dbs[4].assignments == [] && dbs[4].appointments == [Row(ANNA, ApptAllocated)]
    ensures InStep(dbs[4])
  {
    AcceptedState(cs, dbs);
    SurchargeAsked(dbs[3]);
    ApplyKeepsInStep(dbs[3], CustomerRescheduled("r", LATER, 0));
  }

  lemma RetakenState(dbs: seq<Db>)
    requires Passes(Apply, EMPTY_DB, RETAKEN, dbs)
    ensures dbs[6].requests == map["r" := Held(BELA, ORDER, Some(0))]
    ensures dbs[6].assignments == [] && |dbs[6].appointments| == 2 && dbs[6].appointments[1] == Row(BELA, ApptAllocated)
    ensures InStep(dbs[6])
  {
    SurchargedState(RETAKEN, dbs);
    assert IsStep(Apply, RETAKEN, dbs, 4) && IsStep(Apply, RETAKEN, dbs, 5);
    CancelledByAnna(dbs[4]);
    ApplyKeepsInStep(dbs[4], JobCancelled("r", ANNA, 0));
    assert "a"[0] != "b"[0];
    Accepted(dbs[5], BELA, ORDER);
    ApplyKeepsInStep(dbs[5], JobAccepted("r", BELA));
  }

  /** Outside its guard, a surcharge response takes a request in step out of step. */
  lemma ResponseMissesRow(db: Db, sp: ServiceProvider, k: nat, response: PaymentResponse)
    requires InStep(db) && db.requests == map["r" := Held(sp, ORDER, Some(0))]
    requires k < |db.appointments| && db.appointments[k] == Row(sp, ApptAllocated)
    requires response.status.PaymentSucceeded? ==> sp.id != "a"
    ensures SurchargeResponded(db, "r", [response], 0).error.None?
    ensures !InStep(SurchargeResponded(db, "r", [response], 0).db)
  {
    OnlyResponse(response);
    assert IsAllocatedRow(db.appointments[k], "r");
    SurchargeSafeIff(db, "r", [response], 0);
  }

  /** The surcharge payment fails: the appointment is moved and the provider released, whose allocated appointment stays. */
  lemma FailedSurchargeMissesRows(cs: seq<Command>)
    requires cs == SURCHARGED
    ensures InStep(Run(cs)) && !InStep(SurchargeResponded(Run(cs), "r", [UNPAID], 0).db)
  {
    RunPasses(cs);
    assert cs[..4] == cs;
    SurchargedState(cs, StatesOf(Run, cs));
    ResponseMissesRow(Run(cs), ANNA, 0, UNPAID);
  }

  /** The surcharge is paid after the job passed from `a` to `b`: the order names `a`, so the appointment of `b` stays. */
  lemma StaleSurchargeMissesRows(cs: seq<Command>)
    requires cs == RETAKEN
    ensures InStep(Run(cs)) && !InStep(SurchargeResponded(Run(cs), "r", [PAID], 0).db)
  {
    RunPasses(cs);
    RetakenState(StatesOf(Run, cs));
    assert "a"[0] != "b"[0];
    ResponseMissesRow(Run(cs), BELA, 1, PAID);
  }

  // ---------- A fee that is paid late ----------

  const FREE := CONFIG.(paymentGatewayEnabled := false)

  const UNPAID_JOB := [RequestCreated("r", FREE, APPOINTMENT), JobAccepted("r", ANNA)]

  lemma UnpaidJobTaken(dbs: seq<Db>)
    requires Passes(Apply, EMPTY_DB, UNPAID_JOB, dbs)
    ensures dbs[2].appointments == [Row(ANNA, ApptAllocated)] && "r" in dbs[2].requests && !dbs[2].requests["r"].IsPaid()
  {
    assert IsStep(Apply, UNPAID_JOB, dbs, 0) && IsStep(Apply, UNPAID_JOB, dbs, 1);
  }

  /** Where the gateway is off a job may be taken unpaid; a fee response that then succeeds dispatches the request anew
      and leaves the taken appointment behind. */
  lemma LateFeeMissesRows(cs: seq<Command>)
    requires cs == UNPAID_JOB
    ensures InStep(Run(cs)) && !InStep(FeePaymentResponded(Run(cs), "r", [PAID], 0).db)
  {
    QuietRunInStep(cs);
    RunPasses(cs);
    UnpaidJobTaken(StatesOf(Run, cs));
    LateFee(Run(cs));
  }

  lemma LateFee(db: Db)
    requires InStep(db) && "r" in db.requests && !db.requests["r"].IsPaid() && db.appointments == [Row(ANNA, ApptAllocated)]
    ensures !InStep(FeePaymentResponded(db, "r", [PAID], 0).db)
  {
    assert IsAllocatedRow(db.appointments[0], "r");
    OnlyResponse(PAID);
    FeeSafeIff(db, "r", [PAID], 0);
  }

  lemma {:induction false} QuietRunInStep(cs: seq<Command>)
    requires forall c :: c in cs ==> !c.SurchargePaid? && !c.FeePaid?
    ensures InStep(Run(cs))
  {
    if cs != [] {
      var front := cs[..|cs| - 1];
      assert forall c :: c in front ==> c in cs;
      assert cs[|cs| - 1] in cs;
      QuietRunInStep(front);
      ApplyKeepsInStep(Run(front), cs[|cs| - 1]);
    }
  }
}
