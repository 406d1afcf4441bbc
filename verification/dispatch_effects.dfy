/** When each dispatch handler succeeds, and what it does to every stored row. */
module DispatchEffects {
  import opened Wrappers
  import opened Sums
  import opened ServiceEntity
  import opened ServiceRequests
  import opened RequestEffects
  import opened Dispatching
  import opened DispatchRuns

  /** The rows that `sel` picks take the status; the others stay. */
  ghost predicate AssignmentsBecome(rows: seq<AssignmentRow>, rows': seq<AssignmentRow>, sel: AssignmentRow -> bool, status: AssignmentStatus) {
    |rows'| == |rows| && forall i :: 0 <= i < |rows| ==> rows'[i] == if sel(rows[i]) then rows[i].(status := status) else rows[i]
  }

  ghost predicate AppointmentsBecome(rows: seq<AppointmentRow>, rows': seq<AppointmentRow>, sel: AppointmentRow -> bool, status: AppointmentStatus) {
    |rows'| == |rows| && forall i :: 0 <= i < |rows| ==> rows'[i] == if sel(rows[i]) then rows[i].(status := status) else rows[i]
  }

  /** All rows of the request take these statuses. */
  ghost predicate RowsBecome(db: Db, db': Db, id: string, assignment: AssignmentStatus, appointment: AppointmentStatus) {
    && AssignmentsBecome(db.assignments, db'.assignments, (a: AssignmentRow) => a.requestId == id, assignment)
    && AppointmentsBecome(db.appointments, db'.appointments, (a: AppointmentRow) => a.requestId == id, appointment)
  }

  ghost predicate SameRows(db: Db, db': Db) {
    db'.assignments == db.assignments && db'.appointments == db.appointments
  }

  /** Other requests are as before, and so are the events. */
  ghost predicate SameOthers(db: Db, db': Db, id: string) {
    && db'.requests.Keys == db.requests.Keys && db'.events == db.events
    && forall o :: o in db.requests && o != id ==> db'.requests[o] == db.requests[o]
  }

  /** The request waits anew: no event and no agents, and the status follows from its payment. */
  predicate IsRestarted(s: Service, s': Service) {
    && s'.lastEvent.None? && s'.lastResponse == s.lastResponse && s'.isPrepaid == s.isPrepaid
    && DispatcherId(s'.provider).None? && WorkerId(s'.provider).None? && StatusFollows(s')
  }

  // ---------- Taking a job ----------

  /** No allocated appointment of the worker holds the start or the end of the period. */
  predicate IsFree(rows: seq<AppointmentRow>, workerId: string, p: Period) {
    forall a :: a in rows && a.status.ApptAllocated? && a.workerId == Some(workerId) && a.schedule.Some? ==>
      !(a.schedule.value.start <= p.start <= a.schedule.value.end) && !(a.schedule.value.start <= p.end <= a.schedule.value.end)
  }

  /** A dealer needs some free worker, anyone else must be free. */
  predicate IsAvailable(rows: seq<AppointmentRow>, sp: ServiceProvider, p: Period) {
    if sp.kind.Dealer? then exists w :: w in sp.workers && IsFree(rows, w, p) else IsFree(rows, sp.id, p)
  }

  /** Nobody has the job or it is cancelled, and it is paid for where the gateway is on. */
  predicate IsOpen(r: Request) {
    && (DispatcherId(r.service.provider).None? || IsCancelled(r.service.status))
    && (r.config.paymentGatewayEnabled ==> r.service.paymentStatus.PaymentSucceeded?)
  }

  lemma AvailableIff(db: Db, sp: ServiceProvider, p: Period)
    ensures AvailabilityError(db, sp, p).None? <==> IsAvailable(db.appointments, sp, p)
  {
    forall w
      ensures IsBusy(db.appointments, w, p) <==> !IsFree(db.appointments, w, p)
    {}
  }

  /** The taker's pending offer is accepted, the offers of others fail, and no other assignment changes. */
  ghost predicate OffersSettled(rows: seq<AssignmentRow>, rows': seq<AssignmentRow>, id: string, providerId: string) {
    |rows'| == |rows| && forall i :: 0 <= i < |rows| ==>
      rows'[i] == if rows[i].requestId != id then rows[i]
                  else if rows[i].providerId != providerId then rows[i].(status := AsgFailed)
                  else if rows[i].status.Pending? then rows[i].(status := Accepted)
                  else rows[i]
  }

  /** The worker's appointment is added as allocated, and the request's rows of other workers are replaced. */
  ghost predicate AppointmentAdded(rows: seq<AppointmentRow>, rows': seq<AppointmentRow>, id: string, dispatcherId: Option<string>,
                                   workerId: string, schedule: Period) {
    && |rows'| == |rows| + 1
    && AppointmentsBecome(rows, rows'[..|rows|], (a: AppointmentRow) => a.requestId == id && a.workerId != Some(workerId), ApptReplaced)
    && rows'[|rows|] == AppointmentRow(id, dispatcherId, Some(workerId), Some(schedule), ApptAllocated)
  }

  ghost predicate IsTakenBy(db: Db, db': Db, id: string, sp: ServiceProvider) {
    && id in db.requests && SameOthers(db, db', id)
    && db'.requests[id] == db.requests[id].(service := db'.requests[id].service)
    && IsRebuiltFor(db.requests[id].service, db'.requests[id].service, Some(sp.id), if sp.kind.Independent? then Some(sp.id) else None)
    && OffersSettled(db.assignments, db'.assignments, id, sp.id)
    && if sp.kind.Independent?
       then AppointmentAdded(db.appointments, db'.appointments, id, Some(sp.id), sp.id, db.requests[id].appointment.schedule)
       else db'.appointments == db.appointments
  }

  lemma AllocatedAdds(db: Db, id: string, r: Request)
    requires WorkerId(r.service.provider).Some? && r.service.provider.value.schedule.Some?
    ensures AppointmentAdded(db.appointments, OnAllocated(db, id, r).appointments, id, DispatcherId(r.service.provider),
                             WorkerId(r.service.provider).value, r.service.provider.value.schedule.value)
    ensures OnAllocated(db, id, r) == db.(appointments := OnAllocated(db, id, r).appointments)
  {}

  lemma AcceptedSettles(db: Db, id: string, providerId: string)
    ensures OffersSettled(db.assignments, OnAccepted(db, id, providerId).assignments, id, providerId)
    ensures OnAccepted(db, id, providerId) == db.(assignments := OnAccepted(db, id, providerId).assignments)
  {}

  lemma TakeEffect(db: Db, id: string, sp: ServiceProvider)
    requires id in db.requests && Coherent(db.requests[id].service)
    ensures Take(db, id, sp).error.None? <==> IsOpen(db.requests[id]) && !sp.kind.Worker?
    ensures if Take(db, id, sp).error.None? then IsTakenBy(db, Take(db, id, sp).db, id, sp) else Take(db, id, sp).db == db
  {
    AssignIff(db.requests[id], sp);
    if Take(db, id, sp).error.None? {
      var r' := AttemptAssign(db.requests[id], sp).request;
      AcceptedSettles(Save(db, id, r'), id, sp.id);
      if sp.kind.Independent? {
        AllocatedAdds(OnAccepted(Save(db, id, r'), id, sp.id), id, r');
      }
    }
  }

  /** A provider accepts a job exactly if the job is stored and open, and the provider is active, no worker and available. */
  lemma AcceptIff(db: Db, id: string, sp: ServiceProvider)
    requires InStep(db)
    ensures Accept(db, id, sp).error.None? <==>
              && id in db.requests && IsOpen(db.requests[id]) && sp.active && !sp.kind.Worker?
              && IsAvailable(db.appointments, sp, db.requests[id].appointment.schedule)
    ensures if Accept(db, id, sp).error.None? then IsTakenBy(db, Accept(db, id, sp).db, id, sp) else Accept(db, id, sp).db == db
  {
    if id in db.requests {
      assert RowsInStep(db, id);
      AvailableIff(db, sp, db.requests[id].appointment.schedule);
      TakeEffect(db, id, sp);
    }
  }

  /** An operator assigns a job under the same conditions, but the provider need not be active; the offer is added and accepted. */
  lemma ManuallyAssignIff(db: Db, id: string, sp: ServiceProvider)
    requires InStep(db)
    ensures ManuallyAssign(db, id, sp).error.None? <==>
              && id in db.requests && IsOpen(db.requests[id]) && !sp.kind.Worker?
              && IsAvailable(db.appointments, sp, db.requests[id].appointment.schedule)
    ensures var db' := ManuallyAssign(db, id, sp).db;
            if ManuallyAssign(db, id, sp).error.None? then
              && IsTakenBy(db.(assignments := db.assignments + [AssignmentRow(id, sp.id, Pending)]), db', id, sp)
              && db'.assignments[|db.assignments|] == AssignmentRow(id, sp.id, Accepted)
            else db' == db
  {
    if id in db.requests {
      assert RowsInStep(db, id);
      AvailableIff(db, sp, db.requests[id].appointment.schedule);
      TakeEffect(db.(assignments := db.assignments + [AssignmentRow(id, sp.id, Pending)]), id, sp);
    }
  }

  /** A dealer gives the job to a worker exactly if it is the dealer's, or the worker has it already, which changes nothing;
      otherwise the worker's appointment is added. */
  lemma AllocateEffect(db: Db, id: string, workerId: string, dealerId: string)
    requires InStep(db)
    ensures Allocate(db, id, workerId, dealerId).error.None? <==>
              id in db.requests && var p := db.requests[id].service.provider;
              WorkerId(p) == Some(workerId) || DispatcherId(p) == Some(dealerId) || WorkerId(p) == Some(dealerId)
    ensures var db' := Allocate(db, id, workerId, dealerId).db;
            if Allocate(db, id, workerId, dealerId).error.Some? || WorkerId(db.requests[id].service.provider) == Some(workerId) then db' == db
            else
              var r := db.requests[id];
              && SameOthers(db, db', id) && db'.assignments == db.assignments
              && db'.requests[id] == r.(service := db'.requests[id].service)
              && IsRebuiltFor(r.service, db'.requests[id].service, DispatcherId(r.service.provider), Some(workerId))
              && AppointmentAdded(db.appointments, db'.appointments, id, DispatcherId(r.service.provider), workerId, r.appointment.schedule)
  {
    if id in db.requests {
      assert RowsInStep(db, id);
      AllocateIff(db.requests[id], workerId, dealerId);
      var given := AttemptAllocate(db.requests[id], workerId, dealerId);
      if given.error.None? {
        AllocatedAdds(Save(db, id, given.request), id, given.request);
      }
    }
  }

  // ---------- Handling the job ----------

  lemma {:induction false} OwnEvents(rows: seq<EventRow>, id: string, e: HandlingEvent)
    ensures var own := (row: EventRow) => row.requestId == id; var event := (row: EventRow) => row.event;
            && Map(Filter(rows + [EventRow(id, e)], own), event) == Map(Filter(rows, own), event) + [e]
            && forall f :: f in Map(Filter(rows, own), event) <==> EventRow(id, f) in rows
  {
    var own := (row: EventRow) => row.requestId == id;
    var event := (row: EventRow) => row.event;
    assert (rows + [EventRow(id, e)])[..|rows|] == rows;
    FilterMembers(rows, own);
    forall f
      ensures f in Map(Filter(rows, own), event) <==> EventRow(id, f) in rows
    {
      if f in Map(Filter(rows, own), event) {
        var row := MapMember(Filter(rows, own), event, f);
      }
      if EventRow(id, f) in Filter(rows, own) {
        var i :| 0 <= i < |Filter(rows, own)| && Filter(rows, own)[i] == EventRow(id, f);
        assert Map(Filter(rows, own), event)[i] == f;
      }
    }
  }

  /** A job event is recorded exactly if the job is stored, may be started, is neither done nor cancelled by its provider, and
      does not wait for a worker. */
  lemma HandleJobIff(db: Db, id: string, at: int, mayStart: bool)
    requires InStep(db)
    ensures HandleJob(db, id, at, mayStart).error.None? <==>
              && id in db.requests && mayStart
              && var s := db.requests[id].service;
                 !s.status.StatusFulfilled? && !s.status.CancelledByServiceProvider? && (DispatcherId(s.provider).Some? ==> WorkerId(s.provider).Some?)
    ensures HandleJob(db, id, at, mayStart).error.Some? ==> HandleJob(db, id, at, mayStart).db == db
  {
    if id in db.requests {
      assert RowsInStep(db, id);
      NextEventIff(db.requests[id].service);
    }
  }

  lemma FulfilledBecomes(db: Db, id: string, r: Request)
    ensures AppointmentsBecome(db.appointments, OnFulfilled(db, id, r).appointments,
              (a: AppointmentRow) => a.requestId == id && a.workerId.Some? && a.workerId == WorkerId(r.service.provider), ApptFulfilled)
    ensures OnFulfilled(db, id, r) == db.(appointments := OnFulfilled(db, id, r).appointments)
  {}

  /** The request once an event newer than its stored ones is recorded. */
  lemma ProgressedRequest(db: Db, id: string, at: int, kind: EventType)
    requires id in db.requests && IsWellFormed(db.requests[id].service.provider)
    requires forall row :: row in db.events && row.requestId == id ==> row.event.createdAt < at
    ensures var r := db.requests[id];
            var r' := DeriveProgress(r, EventsOf(db.(events := db.events + [EventRow(id, HandlingEvent(at, kind))]), id), at);
            && r' == r.(service := r'.service, transitionedAt := if r'.service.status == r.service.status then r.transitionedAt else Some(at))
            && r'.service.lastEvent == Some(HandlingEvent(at, kind)) && r'.service.status == Stage(kind)
            && r'.service.provider == r.service.provider && r'.service.lastResponse == r.service.lastResponse
  {
    OwnEvents(db.events, id, HandlingEvent(at, kind));
    NewestEventDecides(db.requests[id], EventsOf(db, id), at, kind);
  }

  /** Recorded after all others, the event decides the status; the last one closes the worker's rows, and no other row changes. */
  lemma HandleJobEffect(db: Db, id: string, at: int, mayStart: bool)
    requires InStep(db) && HandleJob(db, id, at, mayStart).error.None?
    requires forall row :: row in db.events && row.requestId == id ==> row.event.createdAt < at
    ensures var db', s := HandleJob(db, id, at, mayStart).db, db.requests[id].service;
            var s' := db'.requests[id].service;
            && SameOthers(db, db'.(events := db.events), id) && db'.events == db.events + [EventRow(id, HandlingEvent(at, NextKind(s)))]
            && s'.lastEvent == Some(HandlingEvent(at, NextKind(s))) && s'.status == Stage(NextKind(s)) && s'.provider == s.provider
            && db'.assignments == db.assignments
            && AppointmentsBecome(db.appointments, db'.appointments,
                 (a: AppointmentRow) => s'.status.StatusFulfilled? && a.requestId == id && a.workerId.Some? && a.workerId == WorkerId(s.provider), ApptFulfilled)
  {
    assert RowsInStep(db, id);
    NextEventIff(db.requests[id].service);
    var event := HandlingEvent(at, NextKind(db.requests[id].service));
    var db1 := db.(events := db.events + [EventRow(id, event)]);
    ProgressedRequest(db, id, at, event.kind);
    var r' := DeriveProgress(db.requests[id], EventsOf(db1, id), at);
    FulfilledBecomes(Save(db1, id, r'), id, r');
  }

  // ---------- Ending a job ----------

  /** A provider's cancellation succeeds exactly as for the request alone; all rows of the request are cancelled and it waits anew. */
  lemma CancelJobIff(db: Db, id: string, sp: ServiceProvider, now: int)
    ensures var h := CancelJob(db, id, sp, now);
            && (h.error.None? <==>
                  && id in db.requests && var r := db.requests[id];
                     && (DispatcherId(r.service.provider) == Some(sp.id) || WorkerId(r.service.provider) == Some(sp.id))
                     && !sp.kind.Worker? && !IsCancelled(r.service.status) && !r.service.status.StatusFulfilled?)
            && (h.error.Some? ==> h.db == db)
            && (h.error.None? ==>
                  && SameOthers(db, h.db, id) && RowsBecome(db, h.db, id, AsgCancelled, ApptCancelled)
                  && IsRestarted(db.requests[id].service, h.db.requests[id].service)
                  && h.db.requests[id] == db.requests[id].(service := h.db.requests[id].service, transitionedAt := Some(now)))
  {
    if id in db.requests {
      ProviderCancelIff(db.requests[id], sp, now);
      RestartLeaves(CancelByProvider(db.requests[id], sp, now).request);
    }
  }

  /** The customer's cancellation ends the request, if the customer may cancel it, and cancels all its rows. */
  lemma CancelByConsumerEffect(db: Db, id: string, now: int)
    ensures var h := CancelByConsumer(db, id, now);
            && (h.error.None? <==> id in db.requests && AttemptCustomerCancel(db.requests[id], now).error.None?)
            && (h.error.Some? ==> h.db == db)
            && (h.error.None? ==>
                  && SameOthers(db, h.db, id) && RowsBecome(db, h.db, id, AsgCancelled, ApptCancelled)
                  && IsEnded(db.requests[id].service, h.db.requests[id].service, CancelledByCustomer)
                  && h.db.requests[id] == db.requests[id].(service := h.db.requests[id].service, transitionedAt := Some(now)))
  {
    if id in db.requests {
      CustomerCancelIff(db.requests[id], now);
    }
  }

  /** A revocation revokes all rows of a stored request; it fails the request with its agents kept, or makes it wait anew. */
  lemma RevokeJobEffect(db: Db, id: string, markAsFailed: bool, now: int)
    ensures var h := RevokeJob(db, id, markAsFailed, now);
            && (h.error.None? <==> id in db.requests)
            && (h.error.Some? ==> h.db == db)
            && (h.error.None? ==>
                  var s, s' := db.requests[id].service, h.db.requests[id].service;
                  && SameOthers(db, h.db, id) && RowsBecome(db, h.db, id, AsgRevoked, ApptRevoked)
                  && h.db.requests[id] == db.requests[id].(service := s', transitionedAt := Some(now))
                  && (markAsFailed ==> s'.status.StatusFailed? && s'.provider == s.provider)
                  && (!markAsFailed ==> IsRestarted(s, s')))
  {
    if id in db.requests {
      RevokeLeaves(db.requests[id], markAsFailed, now);
      RestartLeaves(RevokeRequest(db.requests[id], markAsFailed, now));
    }
  }

  // ---------- Rescheduling ----------

  /** The request's assignments and its appointments of the impacted dispatcher are rescheduled, or all of them if there is none. */
  ghost predicate RowsRescheduled(db: Db, db': Db, id: string, impacted: Option<string>) {
    && AssignmentsBecome(db.assignments, db'.assignments, (a: AssignmentRow) => a.requestId == id, AsgRescheduled)
    && AppointmentsBecome(db.appointments, db'.appointments,
                          (a: AppointmentRow) => a.requestId == id && (impacted.None? || a.dispatcherId == impacted), ApptRescheduled)
  }

  /** The request is moved to the period and waits anew. */
  predicate IsMovedAnew(r: Request, r': Request, arrival: Period) {
    && r'.appointment.arrival == arrival && r'.appointment.totalServiceMinutes == r.appointment.totalServiceMinutes
    && r'.appointment.schedule == Period(arrival.start, arrival.start + r.appointment.totalServiceMinutes * MINUTE)
    && r'.config == r.config && IsRestarted(r.service, r'.service)
  }

  lemma RescheduledAnew(db: Db, id: string, r': Request, arrival: Period, impacted: Option<string>)
    requires id in db.requests && IsMoved(db.requests[id], r', arrival)
    ensures var db' := InitiateDispatch(OnRescheduled(Save(db, id, r'), id, impacted), id);
            && SameOthers(db, db', id) && RowsRescheduled(db, db', id, impacted)
            && IsMovedAnew(db.requests[id], db'.requests[id], arrival) && db'.requests[id].order == r'.order
  {
    RestartLeaves(r');
  }

  /** A customer's reschedule succeeds exactly if the customer may reschedule to that period. If a surcharge is due, only the order is stored;
      otherwise the request is moved and waits anew, and the present dispatcher's rows are rescheduled. */
  lemma CustomerRescheduleEffect(db: Db, id: string, arrival: Period, now: int)
    ensures var h := CustomerReschedule(db, id, arrival, now);
            && (h.error.None? <==> id in db.requests && MayReschedule(db.requests[id], arrival, now))
            && (h.error.Some? ==> h.db == db)
            && (h.error.None? ==> SameOthers(db, h.db, id) && (IsSurchargeDue(db.requests[id], now) <==> h.db.requests[id].order.surchargeRequired))
            && (h.error.None? && IsSurchargeDue(db.requests[id], now) ==>
                  SameRows(db, h.db) && h.db.requests[id] == db.requests[id].(order := h.db.requests[id].order))
            && (h.error.None? && !IsSurchargeDue(db.requests[id], now) ==>
                  && RowsRescheduled(db, h.db, id, DispatcherId(db.requests[id].service.provider))
                  && IsMovedAnew(db.requests[id], h.db.requests[id], arrival) && h.db.requests[id].order.executedAt == Some(now))
  {
    if id in db.requests {
      var r := db.requests[id];
      CreateOrderIff(r, arrival, now);
      if MayReschedule(r, arrival, now) {
        CreatedOrderHolds(r, arrival, now);
        if !IsSurchargeDue(r, now) {
          var created := CreateOrder(r, arrival, now).request;
          ExecuteIff(created, Undefined, now);
          ExecutedOrderHolds(created, Undefined, now);
          RescheduledAnew(db, id, ExecuteRescheduleOrder(created, Undefined, now).request, arrival, DispatcherId(r.service.provider));
        }
      }
    }
  }

  /** An operator's change of the start moves the request and reschedules the present dispatcher's rows, exactly if the new start lies outside the
      arrival window; the same start changes nothing. */
  lemma AdminChangeEffect(db: Db, id: string, arrival: Period, now: int)
    requires id in db.requests
    ensures var h, r := AdminChange(db, id, arrival, now), db.requests[id];
            if arrival.start == r.appointment.arrival.start then h == Handled(db, None)
            else
              && (h.error.None? <==> arrival.start - now >= r.config.arrivalWindowHours * HOUR)
              && (h.error.Some? ==> h.db == db)
              && (h.error.None? ==>
                    && SameOthers(db, h.db, id) && RowsRescheduled(db, h.db, id, DispatcherId(r.service.provider))
                    && IsMovedAnew(r, h.db.requests[id], arrival) && h.db.requests[id].order == r.order)
  {
    var r := db.requests[id];
    AdminRescheduleIff(r, arrival, now);
    if arrival.start != r.appointment.arrival.start && AdminReschedule(r, arrival, now).error.None? {
      RescheduledAnew(db, id, AdminReschedule(r, arrival, now).request, arrival, DispatcherId(r.service.provider));
    } else {
      assert db.requests[id := r] == db.requests;
    }
  }

  // ---------- Payments ----------

  /** A surcharge response to an unpaid order moves the request exactly if an order is stored and a required surcharge has a response. The
      rows of the dispatcher that the order names are rescheduled if the order counts as executed, and stay otherwise. */
  lemma SurchargeEffect(db: Db, id: string, responses: seq<PaymentResponse>, now: int)
    requires id in db.requests && OrderFits(db.requests[id])
    requires !(db.requests[id].order.surchargeRequired && db.requests[id].order.paymentStatus == Some(PaymentSucceeded))
    ensures var h, o := SurchargeResponded(db, id, responses, now), db.requests[id].order;
            && (h.error.None? <==>
                  && o.oldPeriod.Some? && o.newPeriod.Some? && o.createdAt.Some? && (o.surchargeRequired ==> responses != []))
            && (h.error.Some? ==> h.db == db)
            && (h.error.None? ==>
                  && SameOthers(db, h.db, id)
                  && if h.db.requests[id].order.executedAt.Some?
                     then RowsRescheduled(db, h.db, id, o.impactedProviderId) && IsMovedAnew(db.requests[id], h.db.requests[id], o.newPeriod.value)
                     else SameRows(db, h.db) && IsMoved(db.requests[id], h.db.requests[id], o.newPeriod.value))
  {
    var r := db.requests[id];
    ExecuteIff(r, Responses(responses), now);
    var done := ExecuteRescheduleOrder(r, Responses(responses), now);
    if done.error.None? {
      ExecutedOrderHolds(r, Responses(responses), now);
      RescheduledAnew(db, id, done.request, r.order.newPeriod.value, r.order.impactedProviderId);
    }
  }

  /** A surcharge response to a paid order, or a fee response to a paid request, changes nothing. */
  lemma PaidAlready(db: Db, id: string, responses: seq<PaymentResponse>, now: int)
    requires id in db.requests
    ensures db.requests[id].order.surchargeRequired && db.requests[id].order.paymentStatus == Some(PaymentSucceeded) ==>
              SurchargeResponded(db, id, responses, now) == Handled(db, None)
    ensures db.requests[id].service.paymentStatus.PaymentSucceeded? ==> FeePaymentResponded(db, id, responses, now) == Handled(db, None)
  {}

  /** A fee response to an unpaid request decides its payment; a success makes the request wait for a provider, and no row changes. */
  lemma FeeEffect(db: Db, id: string, responses: seq<PaymentResponse>, p: PaymentResponse, now: int)
    requires InStep(db) && id in db.requests && !db.requests[id].service.paymentStatus.PaymentSucceeded?
    requires p in responses && forall q :: q in responses && q != p ==> q.createdAt < p.createdAt
    ensures var h, r := FeePaymentResponded(db, id, responses, now), db.requests[id]; var s' := h.db.requests[id].service;
            && h.error.None? && SameOthers(db, h.db, id) && SameRows(db, h.db)
            && h.db.requests[id] == r.(service := s', transitionedAt := Some(now))
            && s'.paymentStatus == p.status && s'.lastResponse == Some(p) && StatusFollows(s')
            && if p.status.PaymentSucceeded? then s'.lastEvent.None? && DispatcherId(s'.provider).None? && WorkerId(s'.provider).None?
               else s'.lastEvent == r.service.lastEvent && s'.provider == r.service.provider
  {
    assert RowsInStep(db, id);
    NewestResponseDecides(db.requests[id], responses, p, now);
    RestartLeaves(DerivePayment(db.requests[id], responses, now));
  }

  // ---------- New requests, offers and expiry ----------

  /** A new request has no event, no agents and no reschedule order; where the gateway is on it awaits its payment, else a provider. */
  lemma CreateEffect(db: Db, id: string, config: Config, appointment: Appointment)
    ensures var db' := CreateRequest(db, id, config, appointment);
            if id in db.requests then db' == db
            else
              && db' == db.(requests := db.requests[id := db'.requests[id]])
              && var r := db'.requests[id];
                 && r.config == config && r.appointment == appointment && r.transitionedAt.None?
                 && r.order.newPeriod.None? && r.order.executedAt.None? && !r.order.surchargeRequired
                 && r.service.lastEvent.None? && r.service.lastResponse.None? && r.service.isPrepaid == config.paymentGatewayEnabled
                 && DispatcherId(r.service.provider).None? && WorkerId(r.service.provider).None?
                 && r.service.status == if config.paymentGatewayEnabled then StatusAwaitingPayment else StatusUnassigned
  {}


  /** Offers of a stored job that nobody has are added as pending, one per provider in order; of any other none is. */
  lemma OfferEffect(db: Db, id: string, providerIds: seq<string>)
    requires InStep(db)
    ensures var db' := Offer(db, id, providerIds); var n := |db.assignments|;
            if id in db.requests && DispatcherId(db.requests[id].service.provider).None? then
              && db' == db.(assignments := db'.assignments) && |db'.assignments| == n + |providerIds| && db'.assignments[..n] == db.assignments
              && forall i :: 0 <= i < |providerIds| ==> db'.assignments[n + i] == AssignmentRow(id, providerIds[i], Pending)
            else db' == db
  {
    if id in db.requests {
      assert RowsInStep(db, id);
    }
  }

  /** A request expires exactly if nobody has it and it awaits its payment; its pending offers fail. */
  lemma ExpireEffect(db: Db, id: string, now: int)
    requires InStep(db)
    ensures var db' := ExpireTimedOut(db, id, now);
            if id in db.requests && DispatcherId(db.requests[id].service.provider).None? && db.requests[id].service.status.StatusAwaitingPayment? then
              && SameOthers(db, db', id) && db'.appointments == db.appointments
              && AssignmentsBecome(db.assignments, db'.assignments, (a: AssignmentRow) => a.requestId == id && a.status.Pending?, AsgFailed)
              && db'.requests[id].service.status.StatusFailedPayment? && db'.requests[id].transitionedAt == Some(now)
            else db' == db
  {
    if id in db.requests {
      assert RowsInStep(db, id);
    }
  }
}
