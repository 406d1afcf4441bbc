/** When each operation on a service request succeeds, and what it leaves behind, read off the request's fields. */
module RequestEffects {
  import opened Wrappers
  import opened ServiceEntity
  import opened ServiceRequests

  /** The service is rebuilt for these agents: events, payment and prepayment stay, and the status follows from them. */
  predicate IsRebuiltFor(s: Service, s': Service, dispatcherId: Option<string>, workerId: Option<string>) {
    && s'.lastEvent == s.lastEvent && s'.lastResponse == s.lastResponse && s'.isPrepaid == s.isPrepaid
    && DispatcherId(s'.provider) == dispatcherId && WorkerId(s'.provider) == workerId && StatusFollows(s')
  }

  /** Whole hours are left exactly if that much time is. */
  lemma HoursLeft(t: int, now: int, hours: nat)
    requires hours >= 1
    ensures HoursUntil(t, now) >= hours <==> t - now >= hours * HOUR
  {}

  // ---------- Assigning and allocating ----------

  /** A job is assigned exactly if nobody has it or it is cancelled, it is paid for where the gateway is on, and the taker
      is no worker; an independent provider is its own worker. */
  lemma AssignIff(r: Request, sp: ServiceProvider)
    requires Coherent(r.service)
    ensures AttemptAssign(r, sp).error.None? <==>
              && (DispatcherId(r.service.provider).None? || IsCancelled(r.service.status))
              && (r.config.paymentGatewayEnabled ==> r.service.paymentStatus.PaymentSucceeded?) && !sp.kind.Worker?
    ensures var a := AttemptAssign(r, sp);
            if a.error.Some? then a.request == r
            else
              && a.request == r.(service := a.request.service)
              && IsRebuiltFor(r.service, a.request.service, Some(sp.id), if sp.kind.Independent? then Some(sp.id) else None)
              && (sp.kind.Independent? ==> a.request.service.provider.value.schedule == Some(r.appointment.schedule))
  {
    var s := r.service;
    RebuiltFollows(s.lastEvent, Some(Provider(Some(Agent(Some(sp.id))), None, None)), s.lastResponse, s.isPrepaid);
    RebuiltFollows(s.lastEvent, Some(Provider(Some(Agent(Some(sp.id))), Some(Agent(Some(sp.id))), Some(r.appointment.schedule))),
                   s.lastResponse, s.isPrepaid);
  }

  /** A worker is allocated exactly if the one who allocates is the job's dispatcher or worker. */
  lemma AllocateIff(r: Request, workerId: string, dealerId: string)
    requires Coherent(r.service)
    ensures AttemptAllocate(r, workerId, dealerId).error.None? <==>
              DispatcherId(r.service.provider) == Some(dealerId) || WorkerId(r.service.provider) == Some(dealerId)
    ensures var a := AttemptAllocate(r, workerId, dealerId);
            if a.error.Some? then a.request == r
            else
              && a.request == r.(service := a.request.service)
              && IsRebuiltFor(r.service, a.request.service, DispatcherId(r.service.provider), Some(workerId))
              && a.request.service.provider.value.schedule == Some(r.appointment.schedule)
  {
    var s := r.service;
    if DispatcherId(s.provider).Some? {
      RebuiltFollows(s.lastEvent, Some(Provider(s.provider.value.dispatcher, Some(Agent(Some(workerId))), Some(r.appointment.schedule))),
                     s.lastResponse, s.isPrepaid);
    }
  }

  // ---------- Events and payments ----------

  /** What comes next in a job: it starts once allocated, moves on once started, and else is fulfilled. */
  function NextKind(s: Service): EventType {
    if s.status.StatusAllocated? then Start else if s.status.StatusStarted? then InProgress else Fulfil
  }

  /** The next event is refused exactly if the job is done, cancelled by its provider or waiting for a worker. */
  lemma NextEventIff(s: Service)
    requires Coherent(s)
    ensures NextEventType(s).Err? <==>
              || s.status.StatusFulfilled? || s.status.CancelledByServiceProvider?
              || (DispatcherId(s.provider).Some? && WorkerId(s.provider).None?)
    ensures NextEventType(s).Ok? ==> NextEventType(s).value == NextKind(s)
  {}

  /** An event newer than those before it decides the status; the time of the transition is kept if the status is. */
  lemma NewestEventDecides(r: Request, events: seq<HandlingEvent>, at: int, kind: EventType)
    requires IsWellFormed(r.service.provider) && forall e :: e in events ==> e.createdAt < at
    ensures var r' := DeriveProgress(r, events + [HandlingEvent(at, kind)], at); var s' := r'.service;
            && r' == r.(service := s', transitionedAt := if s'.status == r.service.status then r.transitionedAt else Some(at))
            && s'.lastEvent == Some(HandlingEvent(at, kind)) && s'.status == Stage(kind)
            && s'.lastResponse == r.service.lastResponse && s'.isPrepaid == r.service.isPrepaid && s'.provider == r.service.provider
  {
    var e := HandlingEvent(at, kind);
    LatestEventWins(events + [e], e);
    RebuiltFollows(Some(e), r.service.provider, r.service.lastResponse, r.service.isPrepaid);
  }

  /** A fee response newer than the others decides whether the request is paid, and the status follows. */
  lemma NewestResponseDecides(r: Request, responses: seq<PaymentResponse>, p: PaymentResponse, now: int)
    requires IsWellFormed(r.service.provider)
    requires p in responses && forall q :: q in responses && q != p ==> q.createdAt < p.createdAt
    ensures var r' := DerivePayment(r, responses, now); var s' := r'.service;
            && r' == r.(service := s', transitionedAt := Some(now))
            && s'.paymentStatus == p.status && s'.lastResponse == Some(p) && StatusFollows(s')
            && s'.lastEvent == r.service.lastEvent && s'.isPrepaid == r.service.isPrepaid && s'.provider == r.service.provider
  {
    LatestResponseWins(responses, p);
    RebuiltFollows(r.service.lastEvent, r.service.provider, Some(p), r.service.isPrepaid);
  }

  // ---------- Cancelling ----------

  /** The service is left without agents under this status. */
  predicate IsEnded(s: Service, s': Service, status: Status) {
    && s'.status == status && s'.nextActionType.Idle?
    && s'.lastEvent == s.lastEvent && s'.lastResponse == s.lastResponse && s'.isPrepaid == s.isPrepaid
    && DispatcherId(s'.provider).None? && WorkerId(s'.provider).None?
  }

  /** A customer may cancel exactly if the request is paid, was never rescheduled, is neither done nor closed, and enough time is
      left: the configured hours, or 24. */
  lemma CustomerCancelIff(r: Request, now: int)
    ensures var hours := if r.config.hoursBeforeCancellationDisabled == 0 then 24 else r.config.hoursBeforeCancellationDisabled;
            var s := r.service.status;
            AttemptCustomerCancel(r, now).error.None? <==>
              && r.service.paymentStatus.PaymentSucceeded? && r.order.executedAt.None?
              && !s.StatusFulfilled? && !s.StatusFailedPayment? && !s.StatusFailed? && !s.CancelledByCustomer?
              && r.appointment.arrival.start - now >= hours * HOUR
    ensures var a := AttemptCustomerCancel(r, now);
            if a.error.Some? then a.request == r
            else a.request == r.(service := a.request.service, transitionedAt := Some(now)) && IsEnded(r.service, a.request.service, CancelledByCustomer)
  {
    HoursLeft(r.appointment.arrival.start, now, OrElse(r.config.hoursBeforeCancellationDisabled, 24));
  }

  /** A provider may cancel exactly if the job is its own, it is no worker, and the job is neither done nor cancelled. */
  lemma ProviderCancelIff(r: Request, sp: ServiceProvider, now: int)
    ensures CancelByProvider(r, sp, now).error.None? <==>
              && (DispatcherId(r.service.provider) == Some(sp.id) || WorkerId(r.service.provider) == Some(sp.id))
              && !sp.kind.Worker? && !IsCancelled(r.service.status) && !r.service.status.StatusFulfilled?
    ensures var a := CancelByProvider(r, sp, now);
            if a.error.Some? then a.request == r
            else
              && a.request == r.(service := a.request.service, transitionedAt := Some(now))
              && IsEnded(r.service, a.request.service, CancelledByServiceProvider)
  {}

  /** A revocation marks the request as failed and keeps its agents, or cancels it and clears them. */
  lemma RevokeLeaves(r: Request, markAsFailed: bool, now: int)
    ensures var r' := RevokeRequest(r, markAsFailed, now); var s, s' := r.service, r'.service;
            && r' == r.(service := s', transitionedAt := Some(now))
            && (!markAsFailed ==> IsEnded(s, s', CancelledByOperator))
            && (markAsFailed ==>
                  && s'.status.StatusFailed? && s'.nextActionType.Idle? && s'.provider == s.provider
                  && s'.lastEvent == s.lastEvent && s'.lastResponse == s.lastResponse && s'.isPrepaid == s.isPrepaid)
  {}

  /** An expired request has a failed payment, no event and no agents. */
  lemma ExpireLeaves(r: Request, now: int)
    ensures var r' := Expire(r, now); var s' := r'.service;
            && r' == r.(service := s', transitionedAt := Some(now))
            && s'.status.StatusFailedPayment? && s'.paymentStatus.PaymentFailed? && s'.lastEvent.None?
            && s'.lastResponse == r.service.lastResponse && s'.isPrepaid == r.service.isPrepaid
            && DispatcherId(s'.provider).None? && WorkerId(s'.provider).None?
  {}

  /** A restarted request has no event and no agents, and waits for a provider if it is paid or need not be, else for its
      payment. */
  lemma RestartLeaves(r: Request)
    ensures var r' := RestartRequest(r); var s' := r'.service;
            && r' == r.(service := s')
            && s'.lastEvent.None? && s'.lastResponse == r.service.lastResponse && s'.isPrepaid == r.service.isPrepaid
            && DispatcherId(s'.provider).None? && WorkerId(s'.provider).None? && StatusFollows(s')
  {
    RebuiltFollows(None, None, r.service.lastResponse, r.service.isPrepaid);
  }

  // ---------- Rescheduling ----------

  /** What the customer's new period must meet: the request is paid, not under way, done or closed, not rescheduled before
      (where one reschedule is allowed), early enough by the configured hours or 3, and the period starts at another
      time, outside the arrival window. */
  predicate MayReschedule(r: Request, arrival: Period, now: int) {
    var hours := if r.config.hoursBeforeRescheduleDisabled == 0 then 3 else r.config.hoursBeforeRescheduleDisabled;
    var s := r.service.status;
    && r.service.paymentStatus.PaymentSucceeded?
    && !s.StatusStarted? && !s.StatusInProgress? && !s.StatusFulfilled?
    && !s.StatusFailedPayment? && !s.StatusFailed? && !s.CancelledByCustomer?
    && (r.config.multipleReschedulesAllowed || r.order.executedAt.None?)
    && r.appointment.arrival.start - now >= hours * HOUR
    && arrival.start != r.appointment.arrival.start && arrival.start - now >= r.config.arrivalWindowHours * HOUR
  }

  /** A surcharge is due: the gateway is on, an amount is configured, and less time is left than the configured hours or 12. */
  predicate IsSurchargeDue(r: Request, now: int) {
    var hours := if r.config.hoursBeforeSurchargeRequired == 0 then 12 else r.config.hoursBeforeSurchargeRequired;
    r.config.paymentGatewayEnabled && r.config.surchargeAmount > 0 && r.appointment.arrival.start - now < hours * HOUR
  }

  /** An order is created exactly if the customer may reschedule; the call throws all the same if a surcharge is due. */
  lemma CreateOrderIff(r: Request, arrival: Period, now: int)
    ensures var a := CreateOrder(r, arrival, now);
            && (a.error.None? <==> MayReschedule(r, arrival, now) && !IsSurchargeDue(r, now))
            && (a.error == Some(SurchargeUnpaid) <==> MayReschedule(r, arrival, now) && IsSurchargeDue(r, now))
            && (!MayReschedule(r, arrival, now) ==> a.request == r)
  {
    HoursLeft(r.appointment.arrival.start, now, OrElse(r.config.hoursBeforeRescheduleDisabled, 3));
    HoursLeft(r.appointment.arrival.start, now, OrElse(r.config.hoursBeforeSurchargeRequired, 12));
  }

  /** What the created order holds: both periods, the present dispatcher, and the configured surcharge and compensation if a
      surcharge is due. */
  lemma CreatedOrderHolds(r: Request, arrival: Period, now: int)
    requires MayReschedule(r, arrival, now)
    ensures var r' := CreateOrder(r, arrival, now).request; var o := r'.order; var due := IsSurchargeDue(r, now);
            && r' == r.(order := o)
            && o.newPeriod == Some(arrival) && o.oldPeriod == Some(r.appointment.arrival)
            && o.impactedProviderId == DispatcherId(r.service.provider)
            && o.createdAt == Some(now) && o.executedAt.None?
            && (o.surchargeRequired <==> due) && o.paymentStatus == (if due then Some(AwaitingPayment) else None)
            && o.surchargeAmount == (if due then r.config.surchargeAmount else 0)
            && o.compensationAmount == (if due then r.config.compensationAmount else 0)
  {
    CreateOrderIff(r, arrival, now);
    HoursLeft(r.appointment.arrival.start, now, OrElse(r.config.hoursBeforeSurchargeRequired, 12));
  }

  /** The request is moved to the period, keeps its length and is without agents. */
  predicate IsMoved(r: Request, r': Request, arrival: Period) {
    && r'.appointment.arrival == arrival && r'.appointment.totalServiceMinutes == r.appointment.totalServiceMinutes
    && r'.appointment.schedule == Period(arrival.start, arrival.start + r.appointment.totalServiceMinutes * MINUTE)
    && IsRebuiltFor(r.service, r'.service, None, None)
    && r'.config == r.config && r'.transitionedAt == r.transitionedAt
  }

  lemma MoveIff(r: Request, arrival: Period, now: int)
    ensures var a := RescheduleTo(r, arrival, now);
            && (a.error.None? <==> arrival.start - now >= r.config.arrivalWindowHours * HOUR)
            && (a.error.None? ==> IsMoved(r, a.request, arrival) && a.request.order == r.order)
            && (a.error.Some? ==> a.request == r)
  {
    RebuiltFollows(r.service.lastEvent, Some(EMPTY_PROVIDER), r.service.lastResponse, r.service.isPrepaid);
  }

  /** A stored order is executed exactly if it is not empty and, where it requires a surcharge, a response was given. It moves
      the request; it counts as executed unless the newest response to a required surcharge is no success. */
  lemma ExecuteIff(r: Request, h: History, now: int)
    requires OrderFits(r)
    ensures var a := ExecuteRescheduleOrder(r, h, now);
            && (a.error.None? <==>
                  && r.order.oldPeriod.Some? && r.order.newPeriod.Some? && r.order.createdAt.Some?
                  && (r.order.surchargeRequired ==> h.Responses? && h.responses != []))
            && (a.error.Some? ==> a.request == r)
            && (a.error.None? ==> IsMoved(r, a.request, r.order.newPeriod.value))
  {
    if r.order.newPeriod.Some? && r.order.createdAt.Some? {
      MoveIff(r, r.order.newPeriod.value, r.order.createdAt.value);
    }
  }

  lemma ExecutedOrderHolds(r: Request, h: History, now: int)
    requires OrderFits(r) && ExecuteRescheduleOrder(r, h, now).error.None?
    ensures var o, o' := r.order, ExecuteRescheduleOrder(r, h, now).request.order;
            if !o.surchargeRequired then o' == o.(executedAt := Some(now))
            else
              && h.Responses? && MostRecentResponse(h.responses).Some?
              && var status := MostRecentResponse(h.responses).value.status;
                 o' == o.(paymentStatus := Some(status), executedAt := if status.PaymentSucceeded? then Some(now) else o.executedAt)
  {}

  /** An operator moves a request exactly if the new start lies outside the arrival window; the same start changes nothing. */
  lemma AdminRescheduleIff(r: Request, arrival: Period, now: int)
    ensures var a := AdminReschedule(r, arrival, now);
            if arrival.start == r.appointment.arrival.start then a == Attempt(r, None)
            else
              && (a.error.None? <==> arrival.start - now >= r.config.arrivalWindowHours * HOUR)
              && (a.error.None? ==> IsMoved(r, a.request, arrival) && a.request.order == r.order)
              && (a.error.Some? ==> a.request == r)
  {
    if arrival.start != r.appointment.arrival.start {
      MoveIff(r, arrival, now);
    }
  }
}
