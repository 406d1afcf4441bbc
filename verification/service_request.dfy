/** A service request: its service, appointment and customer reschedule order. Times are in milliseconds. */
module ServiceRequests {
  import opened Wrappers
  import opened ServiceEntity
  import S = ServiceEntity

  const HOUR := 3_600_000

  const MINUTE := 60_000

  datatype Appointment = Appointment(arrival: Period, schedule: Period, totalServiceMinutes: int)

  /** Hour limits of 0 are unset. */
  datatype Config = Config(
    paymentGatewayEnabled: bool,
    surchargeAmount: int,
    compensationAmount: int,
    multipleReschedulesAllowed: bool,
    hoursBeforeRescheduleDisabled: nat,
    hoursBeforeSurchargeRequired: nat,
    hoursBeforeCancellationDisabled: nat,
    arrivalWindowHours: nat)

  datatype RescheduleOrder = RescheduleOrder(
    oldPeriod: Option<Period>,
    newPeriod: Option<Period>,
    surchargeAmount: int,
    compensationAmount: int,
    impactedProviderId: Option<string>,
    surchargeRequired: bool,
    paymentStatus: Option<PaymentStatus>,
    executedAt: Option<int>,
    createdAt: Option<int>)

  /** The payment history argument, which callers leave out, pass as null or pass. */
  datatype History = Undefined | Null | Responses(responses: seq<PaymentResponse>)

  /** The constructor stores its first argument as the new period and its second as the old one. */
  function MakeOrder(first: Option<Period>, second: Option<Period>, surcharge: int, compensation: int,
                     impactedProviderId: Option<string>, createdAt: Option<int>): RescheduleOrder {
    RescheduleOrder(second, first, surcharge, compensation, impactedProviderId, surcharge > 0,
                    if surcharge > 0 then Some(AwaitingPayment) else None, None, createdAt)
  }

  const EMPTY_ORDER := MakeOrder(None, None, 0, 0, None, None)

  predicate OrderIsEmpty(o: RescheduleOrder) {
    o.oldPeriod.None? || o.newPeriod.None? || o.createdAt.None?
  }

  predicate OrderIsPaid(o: RescheduleOrder) {
    o.surchargeRequired && o.paymentStatus == Some(PaymentSucceeded)
  }

  function LastOf(h: History): Option<PaymentResponse> {
    if h.Responses? then MostRecentResponse(h.responses) else None
  }

  function ExecuteOrder(o: RescheduleOrder, h: History, now: int): Result<RescheduleOrder, Error> {
    if !o.surchargeRequired then Ok(o.(executedAt := Some(now)))
    else
      match LastOf(h)
      case None => Err(PaymentMissing)
      case Some(response) =>
        var o' := o.(paymentStatus := Some(response.status));
        Ok(if response.status.PaymentSucceeded? then o'.(executedAt := Some(now)) else o')
  }

  /** Whole hours from `now` to `t`, truncated towards zero. */
  function HoursUntil(t: int, now: int): int {
    if t >= now then (t - now) / HOUR else -((now - t) / HOUR)
  }

  predicate StartsInWindow(p: Period, now: int, windowHours: nat) {
    p.start < now + windowHours * HOUR
  }

  function MakeAppointment(arrival: Period, minutes: int, now: int, windowHours: nat): Result<Appointment, Error> {
    if StartsInWindow(arrival, now, windowHours) then Err(InsideArrivalWindow)
    else Ok(Appointment(arrival, Period(arrival.start, arrival.start + minutes * MINUTE), minutes))
  }

  function OrElse(n: nat, default: nat): nat {
    if n == 0 then default else n
  }

  datatype Request = Request(
    service: Service,
    appointment: Appointment,
    order: RescheduleOrder,
    config: Config,
    transitionedAt: Option<int>)
  {
    predicate IsPaid() {
      service.paymentStatus.PaymentSucceeded?
    }

    predicate HasBeenRescheduledOnce() {
      order.executedAt.Some?
    }

    predicate HasBeenClosed() {
      service.status.StatusFailedPayment? || service.status.StatusFailed? || service.status.CancelledByCustomer?
    }

    predicate StartsAfter(hours: nat, now: int) {
      HoursUntil(appointment.arrival.start, now) >= hours
    }

    predicate AllowsReschedule(now: int) {
      && IsPaid() && !service.status.StatusStarted? && !service.status.StatusInProgress?
      && !HasBeenClosed() && !service.status.StatusFulfilled?
      && (config.multipleReschedulesAllowed || !HasBeenRescheduledOnce())
      && StartsAfter(OrElse(config.hoursBeforeRescheduleDisabled, 3), now)
    }

    function CustomerCancelError(now: int): Option<Error> {
      if !IsPaid() then Some(NotPaid)
      else if HasBeenRescheduledOnce() then Some(AlreadyRescheduled)
      else if service.status.StatusFulfilled? then Some(AlreadyFulfilled)
      else if HasBeenClosed() then Some(Terminated)
      else if !StartsAfter(OrElse(config.hoursBeforeCancellationDisabled, 24), now) then Some(WindowPast)
      else None
    }
  }

  /** The object after a call, and the error the call threw, if any. */
  datatype Attempt = Attempt(request: Request, error: Option<Error>)

  function Done(r: Request): Attempt {
    Attempt(r, None)
  }

  function Throws(r: Request, e: Error): Attempt {
    Attempt(r, Some(e))
  }

  function AttemptAssign(r: Request, dispatcher: ServiceProvider): Attempt {
    if HasBeenAssignedOrAllocated(r.service) && !IsCancelled(r.service.status) then Throws(r, JobTaken)
    else if r.config.paymentGatewayEnabled && !r.IsPaid() then Throws(r, JobUnpaid)
    else if dispatcher.kind.Worker? then Throws(r, DispatcherIsWorker)
    else
      var dispatched := S.AssignToDispatcher(r.service, dispatcher.id);
      if !dispatcher.kind.Independent? then Done(r.(service := dispatched))
      else Done(r.(service := S.AllocateToWorker(dispatched, dispatcher.id, r.appointment.schedule).value))
  }

  function AttemptAllocate(r: Request, workerId: string, dealerId: string): Attempt {
    if !IsAssignedOrAllocatedTo(r.service, dealerId) then Throws(r, NotAssignedToYou)
    else
      match S.AllocateToWorker(r.service, workerId, r.appointment.schedule)
      case Err(e) => Throws(r, e)
      case Ok(s) => Done(r.(service := s))
  }

  function RescheduleTo(r: Request, arrival: Period, now: int): Attempt {
    match MakeAppointment(arrival, r.appointment.totalServiceMinutes, now, r.config.arrivalWindowHours)
    case Err(e) => Throws(r, e)
    case Ok(a) => Done(r.(appointment := a, service := S.Reschedule(r.service)))
  }

  /** With a surcharge due the order is recorded and the call still throws. */
  function CreateOrder(r: Request, arrival: Period, now: int): Attempt {
    if !r.AllowsReschedule(now) then Throws(r, RescheduleNotAllowed)
    else if arrival.start == r.appointment.arrival.start then Throws(r, SameStart)
    else if StartsInWindow(arrival, now, r.config.arrivalWindowHours) then Throws(r, InsideArrivalWindow)
    else
      var impacted := DispatcherId(r.service.provider);
      if r.config.paymentGatewayEnabled && !r.StartsAfter(OrElse(r.config.hoursBeforeSurchargeRequired, 12), now)
         && r.config.surchargeAmount > 0 then
        Throws(r.(order := MakeOrder(Some(arrival), Some(r.appointment.arrival), r.config.surchargeAmount,
                                     r.config.compensationAmount, impacted, Some(now))), SurchargeUnpaid)
      else Done(r.(order := MakeOrder(Some(arrival), Some(r.appointment.arrival), 0, 0, impacted, Some(now))))
  }

  function ExecuteRescheduleOrder(r: Request, h: History, now: int): Attempt {
    if OrderIsEmpty(r.order) then Throws(r, EmptyOrder)
    else if r.order.surchargeRequired && !OrderIsPaid(r.order) && h.Null? then Throws(r, SurchargeUnpaid)
    else
      match ExecuteOrder(r.order, h, now)
      case Err(e) => Throws(r, e)
      case Ok(o) => RescheduleTo(r.(order := o), o.newPeriod.value, o.createdAt.value)
  }

  function AdminReschedule(r: Request, arrival: Period, now: int): Attempt {
    if arrival.start == r.appointment.arrival.start then Done(r) else RescheduleTo(r, arrival, now)
  }

  function DeriveProgress(r: Request, events: seq<HandlingEvent>, now: int): Request {
    var s := DerivedFromEvents(r.service, events);
    r.(service := s, transitionedAt := if s.status != r.service.status then Some(now) else r.transitionedAt)
  }

  function DerivePayment(r: Request, responses: seq<PaymentResponse>, now: int): Request {
    r.(service := DerivedFromResponses(r.service, responses), transitionedAt := Some(now))
  }

  function CancelByProvider(r: Request, canceller: ServiceProvider, now: int): Attempt {
    if r.service.status.StatusFulfilled? then Throws(r, AlreadyFulfilled)
    else
      match S.Cancel(r.service, canceller)
      case Err(e) => Throws(r, e)
      case Ok(s) => Done(r.(service := s, transitionedAt := Some(now)))
  }

  function AttemptCustomerCancel(r: Request, now: int): Attempt {
    match r.CustomerCancelError(now)
    case Some(e) => Throws(r, e)
    case None => Done(r.(service := S.CancelByCustomer(r.service), transitionedAt := Some(now)))
  }

  function RevokeRequest(r: Request, markAsFailed: bool, now: int): Request {
    r.(service := S.Revoke(r.service, markAsFailed), transitionedAt := Some(now))
  }

  function Expire(r: Request, now: int): Request {
    r.(service := S.ExpiredBySystem(r.service), transitionedAt := Some(now))
  }

  function RestartRequest(r: Request): Request {
    r.(service := S.Restart(r.service))
  }

  /** The service request object that the methods of the source change in place. */
  class ServiceRequest {
    var service: Service
    var appointment: Appointment
    var order: RescheduleOrder
    const config: Config
    var transitionedAt: Option<int>

    function Row(): Request
      reads this
    {
      Request(service, appointment, order, config, transitionedAt)
    }

    constructor (row: Request)
      ensures Row() == row
    {
      service, appointment, order, config, transitionedAt := row.service, row.appointment, row.order, row.config, row.transitionedAt;
    }

    method AssignToDispatcher(dispatcher: ServiceProvider) returns (error: Option<Error>)
      modifies this
      ensures Attempt(Row(), error) == AttemptAssign(old(Row()), dispatcher)
      ensures InOrder(old(Row())) ==> InOrder(Row())
    {
      if InOrder(Row()) {
        PerformKeepsOrder(Row(), AssignedTo(dispatcher));
      }
      if HasBeenAssignedOrAllocated(service) && !IsCancelled(service.status) {
        return Some(JobTaken);
      }
      if config.paymentGatewayEnabled && !Row().IsPaid() {
        return Some(JobUnpaid);
      }
      if dispatcher.kind.Worker? {
        return Some(DispatcherIsWorker);
      }
      service := S.AssignToDispatcher(service, dispatcher.id);
      if dispatcher.kind.Independent? {
        service := S.AllocateToWorker(service, dispatcher.id, appointment.schedule).value;
      }
      return None;
    }

    method AllocateToWorker(workerId: string, dealerId: string) returns (error: Option<Error>)
      modifies this
      ensures Attempt(Row(), error) == AttemptAllocate(old(Row()), workerId, dealerId)
      ensures InOrder(old(Row())) ==> InOrder(Row())
    {
      if InOrder(Row()) {
        PerformKeepsOrder(Row(), AllocatedTo(workerId, dealerId));
      }
      if !IsAssignedOrAllocatedTo(service, dealerId) {
        return Some(NotAssignedToYou);
      }
      var placed := S.AllocateToWorker(service, workerId, appointment.schedule);
      if placed.Err? {
        return Some(placed.error);
      }
      service := placed.value;
      return None;
    }

    method Reschedule(arrival: Period, now: int) returns (error: Option<Error>)
      modifies this
      ensures Attempt(Row(), error) == RescheduleTo(old(Row()), arrival, now)
      ensures InOrder(old(Row())) ==> InOrder(Row())
    {
      if InOrder(Row()) {
        MakeIsCoherent(service.lastEvent, Some(EMPTY_PROVIDER), service.lastResponse, service.isPrepaid, None);
      }
      var made := MakeAppointment(arrival, appointment.totalServiceMinutes, now, config.arrivalWindowHours);
      if made.Err? {
        return Some(made.error);
      }
      appointment := made.value;
      service := S.Reschedule(service);
      return None;
    }

    method CreateCustomerRescheduleOrder(arrival: Period, now: int) returns (error: Option<Error>)
      modifies this
      ensures Attempt(Row(), error) == CreateOrder(old(Row()), arrival, now)
      ensures InOrder(old(Row())) ==> InOrder(Row())
    {
      if InOrder(Row()) {
        PerformKeepsOrder(Row(), OrderCreated(arrival, now));
      }
      if !Row().AllowsReschedule(now) {
        return Some(RescheduleNotAllowed);
      }
      if arrival.start == appointment.arrival.start {
        return Some(SameStart);
      }
      var trial := MakeAppointment(arrival, appointment.totalServiceMinutes, now, config.arrivalWindowHours);
      if trial.Err? {
        return Some(trial.error);
      }
      var impacted := DispatcherId(service.provider);
      if config.paymentGatewayEnabled && !Row().StartsAfter(OrElse(config.hoursBeforeSurchargeRequired, 12), now)
         && config.surchargeAmount > 0 {
        order := MakeOrder(Some(arrival), Some(appointment.arrival), config.surchargeAmount, config.compensationAmount, impacted, Some(now));
        return Some(SurchargeUnpaid);
      }
      order := MakeOrder(Some(arrival), Some(appointment.arrival), 0, 0, impacted, Some(now));
      return None;
    }

    method ExecuteCustomerRescheduleOrder(h: History, now: int) returns (error: Option<Error>)
      modifies this
      ensures Attempt(Row(), error) == ExecuteRescheduleOrder(old(Row()), h, now)
      ensures InOrder(old(Row())) ==> InOrder(Row())
    {
      if InOrder(Row()) {
        PerformKeepsOrder(Row(), OrderExecuted(h, now));
      }
      if OrderIsEmpty(order) {
        return Some(EmptyOrder);
      }
      if order.surchargeRequired && !OrderIsPaid(order) && h.Null? {
        return Some(SurchargeUnpaid);
      }
      var executed := ExecuteOrder(order, h, now);
      if executed.Err? {
        return Some(executed.error);
      }
      order := executed.value;
      error := Reschedule(order.newPeriod.value, order.createdAt.value);
    }

    method AdminChangeSpecification(arrival: Period, now: int) returns (error: Option<Error>)
      modifies this
      ensures Attempt(Row(), error) == AdminReschedule(old(Row()), arrival, now)
      ensures InOrder(old(Row())) ==> InOrder(Row())
    {
      if InOrder(Row()) {
        PerformKeepsOrder(Row(), AdminRescheduled(arrival, now));
      }
      if arrival.start != appointment.arrival.start {
        error := Reschedule(arrival, now);
      } else {
        error := None;
      }
    }

    method DeriveServiceProgress(events: seq<HandlingEvent>, now: int)
      modifies this
      ensures Row() == DeriveProgress(old(Row()), events, now)
      ensures InOrder(old(Row())) ==> InOrder(Row())
    {
      if InOrder(Row()) {
        MakeIsCoherent(MostRecentEvent(events), service.provider, service.lastResponse, service.isPrepaid, None);
      }
      var lastStatus := service.status;
      service := DerivedFromEvents(service, events);
      if service.status != lastStatus {
        transitionedAt := Some(now);
      }
    }

    method DeriveCustomerPaymentProgress(responses: seq<PaymentResponse>, now: int)
      modifies this
      ensures Row() == DerivePayment(old(Row()), responses, now)
      ensures InOrder(old(Row())) ==> InOrder(Row())
    {
      if InOrder(Row()) {
        PerformKeepsOrder(Row(), FeeResponded(responses, now));
      }
      service := DerivedFromResponses(service, responses);
      transitionedAt := Some(now);
    }

    method Cancel(canceller: ServiceProvider, now: int) returns (error: Option<Error>)
      modifies this
      ensures Attempt(Row(), error) == CancelByProvider(old(Row()), canceller, now)
      ensures InOrder(old(Row())) ==> InOrder(Row())
    {
      if InOrder(Row()) {
        PerformKeepsOrder(Row(), ProviderCancels(canceller, now));
      }
      if service.status.StatusFulfilled? {
        return Some(AlreadyFulfilled);
      }
      var cancelled := S.Cancel(service, canceller);
      if cancelled.Err? {
        return Some(cancelled.error);
      }
      service, transitionedAt := cancelled.value, Some(now);
      return None;
    }

    method CancelByCustomer(now: int) returns (error: Option<Error>)
      modifies this
      ensures Attempt(Row(), error) == AttemptCustomerCancel(old(Row()), now)
      ensures InOrder(old(Row())) ==> InOrder(Row())
    {
      if InOrder(Row()) {
        PerformKeepsOrder(Row(), CustomerCancels(now));
      }
      error := Row().CustomerCancelError(now);
      if error.None? {
        service, transitionedAt := S.CancelByCustomer(service), Some(now);
      }
    }

    method Revoke(markAsFailed: bool, now: int)
      modifies this
      ensures Row() == RevokeRequest(old(Row()), markAsFailed, now)
      ensures InOrder(old(Row())) ==> InOrder(Row())
    {
      if InOrder(Row()) {
        PerformKeepsOrder(Row(), OperatorRevokes(markAsFailed, now));
      }
      service, transitionedAt := S.Revoke(service, markAsFailed), Some(now);
    }

    method ExpiredBySystem(now: int)
      modifies this
      ensures Row() == Expire(old(Row()), now)
      ensures InOrder(old(Row())) ==> InOrder(Row())
    {
      if InOrder(Row()) {
        PerformKeepsOrder(Row(), SystemExpires(now));
      }
      service, transitionedAt := S.ExpiredBySystem(service), Some(now);
    }

    method Restart()
      modifies this
      ensures Row() == RestartRequest(old(Row()))
      ensures InOrder(old(Row())) ==> InOrder(Row())
    {
      if InOrder(Row()) {
        PerformKeepsOrder(Row(), DispatchRestarts);
      }
      service := S.Restart(service);
    }
  }

  // ---------- Runs of one request ----------

  datatype Operation =
    | OrderCreated(arrival: Period, at: int)
    | OrderExecuted(history: History, at: int)
    | AdminRescheduled(arrival: Period, at: int)
    | AssignedTo(dispatcher: ServiceProvider)
    | AllocatedTo(workerId: string, dealerId: string)
    | EventRecorded(events: seq<HandlingEvent>, at: int)
    | FeeResponded(responses: seq<PaymentResponse>, at: int)
    | ProviderCancels(canceller: ServiceProvider, at: int)
    | CustomerCancels(at: int)
    | OperatorRevokes(markAsFailed: bool, at: int)
    | SystemExpires(at: int)
    | DispatchRestarts

  /** The next event of the job is added to the stored ones; a refused event throws. */
  function RecordNextEvent(r: Request, events: seq<HandlingEvent>, at: int): Attempt {
    match NextEventType(r.service)
    case Err(e) => Throws(r, e)
    case Ok(kind) => Done(DeriveProgress(r, events + [HandlingEvent(at, kind)], at))
  }

  function Perform(r: Request, op: Operation): Attempt {
    match op
    case OrderCreated(arrival, now) => CreateOrder(r, arrival, now)
    case OrderExecuted(h, now) => ExecuteRescheduleOrder(r, h, now)
    case AdminRescheduled(arrival, now) => AdminReschedule(r, arrival, now)
    case AssignedTo(d) => AttemptAssign(r, d)
    case AllocatedTo(w, d) => AttemptAllocate(r, w, d)
    case EventRecorded(events, at) => RecordNextEvent(r, events, at)
    case FeeResponded(responses, now) => Done(DerivePayment(r, responses, now))
    case ProviderCancels(c, now) => CancelByProvider(r, c, now)
    case CustomerCancels(now) => AttemptCustomerCancel(r, now)
    case OperatorRevokes(f, now) => Done(RevokeRequest(r, f, now))
    case SystemExpires(now) => Done(Expire(r, now))
    case DispatchRestarts => Done(RestartRequest(r))
  }

  /** What is saved: nothing after an error, except that an unpaid surcharge order is kept. */
  function Saved(r: Request, a: Attempt): Request {
    if a.error.None? || a.error == Some(SurchargeUnpaid) then a.request else r
  }

  function After(r: Request, ops: seq<Operation>): Request {
    if ops == [] then r
    else
      var before := After(r, ops[..|ops| - 1]);
      Saved(before, Perform(before, ops[|ops| - 1]))
  }

  /** The stored order still fits the arrival window it was created under. */
  ghost predicate OrderFits(r: Request) {
    !OrderIsEmpty(r.order) ==> !StartsInWindow(r.order.newPeriod.value, r.order.createdAt.value, r.config.arrivalWindowHours)
  }

  /** A request whose stored fields agree and whose order fits the window it was created under. */
  ghost predicate InOrder(r: Request) {
    Coherent(r.service) && OrderFits(r)
  }

  lemma PerformKeepsFit(r: Request, op: Operation)
    requires OrderFits(r)
    ensures OrderFits(Perform(r, op).request) && Perform(r, op).request.config == r.config
  {}

  lemma MovesKeepCoherent(r: Request, op: Operation)
    requires Coherent(r.service) && (op.OrderCreated? || op.OrderExecuted? || op.AdminRescheduled?)
    ensures Coherent(Perform(r, op).request.service)
  {
    MakeIsCoherent(r.service.lastEvent, Some(EMPTY_PROVIDER), r.service.lastResponse, r.service.isPrepaid, None);
  }

  lemma PlacementsKeepCoherent(r: Request, op: Operation)
    requires Coherent(r.service) && (op.AssignedTo? || op.AllocatedTo?)
    ensures Coherent(Perform(r, op).request.service)
  {
    var s := Perform(r, op).request.service;
    if s != r.service {
      MakeIsCoherent(s.lastEvent, s.provider, s.lastResponse, s.isPrepaid, None);
    }
  }

  lemma ProgressKeepsCoherent(r: Request, op: Operation)
    requires Coherent(r.service) && (op.EventRecorded? || op.FeeResponded?)
    ensures Coherent(Perform(r, op).request.service)
  {
    var s := Perform(r, op).request.service;
    if s != r.service {
      MakeIsCoherent(s.lastEvent, s.provider, s.lastResponse, s.isPrepaid, None);
    }
  }

  lemma EndsKeepCoherent(r: Request, op: Operation)
    requires Coherent(r.service) && (op.ProviderCancels? || op.CustomerCancels? || op.OperatorRevokes?)
    ensures Coherent(Perform(r, op).request.service)
  {
    var s := Perform(r, op).request.service;
    if s != r.service {
      MakeIsCoherent(s.lastEvent, s.provider, s.lastResponse, s.isPrepaid, Some(s.status));
    }
  }

  lemma PerformKeepsCoherent(r: Request, op: Operation)
    requires Coherent(r.service)
    ensures Coherent(Perform(r, op).request.service)
  {
    if op.OrderCreated? || op.OrderExecuted? || op.AdminRescheduled? {
      MovesKeepCoherent(r, op);
    } else if op.AssignedTo? || op.AllocatedTo? {
      PlacementsKeepCoherent(r, op);
    } else if op.EventRecorded? || op.FeeResponded? {
      ProgressKeepsCoherent(r, op);
    } else if op.SystemExpires? {
      NextIsCoherent(r.service, Expired);
    } else if op.DispatchRestarts? {
      NextIsCoherent(r.service, Restarted);
    } else {
      EndsKeepCoherent(r, op);
    }
  }

  /** Every operation, whether it throws or not, keeps the request in order. */
  lemma PerformKeepsOrder(r: Request, op: Operation)
    requires InOrder(r)
    ensures InOrder(Perform(r, op).request)
  {
    PerformKeepsFit(r, op);
    PerformKeepsCoherent(r, op);
  }

  lemma {:induction false} OrderFitsForever(r: Request, ops: seq<Operation>)
    requires OrderFits(r)
    ensures OrderFits(After(r, ops)) && After(r, ops).config == r.config
  {
    if ops != [] {
      OrderFitsForever(r, ops[..|ops| - 1]);
    }
  }

  /** Whenever an order is executed, it cannot fail the arrival-window rule. */
  lemma ExecutionFitsWindow(r: Request, ops: seq<Operation>, h: History, now: int)
    requires r.order == EMPTY_ORDER
    ensures ExecuteRescheduleOrder(After(r, ops), h, now).error != Some(InsideArrivalWindow)
  {
    OrderFitsForever(r, ops);
  }

  /** A created free order, executed at once as the service does, moves the appointment to exactly the requested period,
      keeps its length, clears the provider and counts as the one reschedule. */
  lemma CreatedOrderExecutes(r: Request, arrival: Period, now: int, h: History, later: int)
    requires CreateOrder(r, arrival, now).error.None?
    ensures var done := ExecuteRescheduleOrder(CreateOrder(r, arrival, now).request, h, later);
            && done.error.None?
            && done.request.appointment.arrival == arrival
            && done.request.appointment.schedule == Period(arrival.start, arrival.start + r.appointment.totalServiceMinutes * MINUTE)
            && done.request.order.oldPeriod == Some(r.appointment.arrival)
            && DispatcherId(done.request.service.provider).None? && WorkerId(done.request.service.provider).None?
            && done.request.HasBeenRescheduledOnce()
  {}

  /** A surcharge order that is executed moves the appointment whatever the payment's outcome, but counts as a
      reschedule exactly if the payment succeeded or the order had been executed before. */
  lemma SurchargeOrderMovesRegardless(r: Request, h: History, now: int)
    requires ExecuteRescheduleOrder(r, h, now).error.None? && r.order.surchargeRequired
    ensures var r' := ExecuteRescheduleOrder(r, h, now).request;
            && LastOf(h).Some?
            && r'.appointment.arrival == r.order.newPeriod.value
            && DispatcherId(r'.service.provider).None?
            && (r'.HasBeenRescheduledOnce() <==> LastOf(h).value.status.PaymentSucceeded? || r.HasBeenRescheduledOnce())
  {}

  lemma {:induction false} ExecutedForever(r: Request, ops: seq<Operation>)
    requires r.HasBeenRescheduledOnce() && !r.config.multipleReschedulesAllowed
    ensures After(r, ops).HasBeenRescheduledOnce() && After(r, ops).config == r.config
  {
    if ops != [] {
      ExecutedForever(r, ops[..|ops| - 1]);
    }
  }

  /** With one reschedule allowed: once an order is executed, no later customer reschedule order and no later customer
      cancellation ever succeeds, and neither changes the request. */
  lemma OneRescheduleOnly(r: Request, ops: seq<Operation>, arrival: Period, now: int)
    requires r.HasBeenRescheduledOnce() && !r.config.multipleReschedulesAllowed
    ensures CreateOrder(After(r, ops), arrival, now) == Attempt(After(r, ops), Some(RescheduleNotAllowed))
    ensures AttemptCustomerCancel(After(r, ops), now).error.Some? && AttemptCustomerCancel(After(r, ops), now).request == After(r, ops)
  {
    ExecutedForever(r, ops);
  }

  /** A fulfilled request stays fulfilled under every operation but an operator's revocation, a restart and expiry. */
  lemma FulfilledIsKept(r: Request, op: Operation)
    requires Coherent(r.service) && r.service.status.StatusFulfilled?
    requires !op.OperatorRevokes? && !op.SystemExpires? && !op.DispatchRestarts?
    ensures Saved(r, Perform(r, op)).service.status.StatusFulfilled?
  {}

  /** And those three do leave it. */
  lemma FulfilledIsLeft(r: Request, op: Operation)
    requires op.OperatorRevokes? || op.SystemExpires? || op.DispatchRestarts?
    ensures !Saved(r, Perform(r, op)).service.status.StatusFulfilled?
  {}

  /** The operations that leave a cancelled or failed request cancelled: creating an order, another cancellation or
      revocation, an operator's change that does not move the start, and whatever throws. */
  predicate LeavesCancelled(r: Request, op: Operation) {
    || op.OrderCreated? || op.ProviderCancels? || op.CustomerCancels? || op.OperatorRevokes?
    || (op.AdminRescheduled? && op.arrival.start == r.appointment.arrival.start)
    || Perform(r, op).error.Some?
  }

  /** What a successful operation rebuilds the service to. */
  lemma SuccessRebuilds(r: Request, op: Operation)
    requires Perform(r, op).error.None? && !op.OrderCreated? && !op.ProviderCancels? && !op.CustomerCancels? && !op.OperatorRevokes?
    requires !(op.AdminRescheduled? && op.arrival.start == r.appointment.arrival.start) && !op.SystemExpires?
    ensures var s := Perform(r, op).request.service;
            s == Make(s.lastEvent, s.provider, s.lastResponse, s.isPrepaid, None)
  {}

  lemma OperationKeepsCancellationIff(r: Request, op: Operation)
    requires IsCancelled(r.service.status)
    ensures IsCancelled(Saved(r, Perform(r, op)).service.status) <==> LeavesCancelled(r, op)
  {
    if !LeavesCancelled(r, op) && !op.SystemExpires? {
      SuccessRebuilds(r, op);
      var s := Perform(r, op).request.service;
      RebuiltIsOpen(s.lastEvent, s.provider, s.lastResponse, s.isPrepaid);
    } else if LeavesCancelled(r, op) {
      LeftCancelled(r, op);
    }
  }

  lemma LeftCancelled(r: Request, op: Operation)
    requires IsCancelled(r.service.status) && LeavesCancelled(r, op)
    ensures IsCancelled(Saved(r, Perform(r, op)).service.status)
  {}

  predicate CancelledAt(r: Request, ops: seq<Operation>, k: int)
    requires 0 <= k <= |ops|
  {
    IsCancelled(After(r, ops[..k]).service.status)
  }

  predicate StepLeavesCancelled(r: Request, ops: seq<Operation>, k: int)
    requires 0 <= k < |ops|
  {
    LeavesCancelled(After(r, ops[..k]), ops[k])
  }

  lemma StepKeepsIff(r: Request, ops: seq<Operation>, k: nat)
    requires k < |ops| && CancelledAt(r, ops, k)
    ensures CancelledAt(r, ops, k + 1) <==> StepLeavesCancelled(r, ops, k)
  {
    var upTo := ops[..k + 1];
    assert upTo[..|upTo| - 1] == ops[..k] && upTo[|upTo| - 1] == ops[k];
    OperationKeepsCancellationIff(After(r, ops[..k]), ops[k]);
  }

  lemma {:induction false} CancelledUpTo(r: Request, ops: seq<Operation>, k: nat)
    requires IsCancelled(r.service.status) && k <= |ops| && forall j :: 0 <= j < |ops| ==> StepLeavesCancelled(r, ops, j)
    ensures CancelledAt(r, ops, k)
  {
    if k > 0 {
      CancelledUpTo(r, ops, k - 1);
      StepKeepsIff(r, ops, k - 1);
    }
  }

  /** A cancelled request is cancelled all along a run exactly if each of its operations leaves it so: a fee response, an
      executed reschedule, a new assignment, a job event, a restart or an expiry brings it back. */
  lemma RequestStaysCancelledIff(r: Request, ops: seq<Operation>)
    requires IsCancelled(r.service.status)
    ensures (forall k :: 0 <= k < |ops| ==> StepLeavesCancelled(r, ops, k)) <==> forall k :: 0 <= k <= |ops| ==> CancelledAt(r, ops, k)
  {
    if forall k :: 0 <= k < |ops| ==> StepLeavesCancelled(r, ops, k) {
      forall k | 0 <= k <= |ops|
        ensures CancelledAt(r, ops, k)
      {
        CancelledUpTo(r, ops, k);
      }
    } else if forall k :: 0 <= k <= |ops| ==> CancelledAt(r, ops, k) {
      forall k | 0 <= k < |ops|
        ensures StepLeavesCancelled(r, ops, k)
      {
        StepKeepsIff(r, ops, k);
      }
    }
  }
}
