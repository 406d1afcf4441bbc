/** The assignment and appointment tables, and the handlers that keep them in step with the service requests. */
module Dispatching {
  import opened Wrappers
  import opened ServiceEntity
  import opened ServiceRequests
  import opened Sums

  datatype AppointmentStatus = ApptAllocated | ApptCancelled | ApptFulfilled | ApptReplaced | ApptRevoked | ApptRescheduled

  datatype AssignmentStatus = Accepted | Pending | AsgFailed | AsgRevoked | AsgCancelled | AsgRescheduled

  datatype AppointmentRow = AppointmentRow(
    requestId: string, dispatcherId: Option<string>, workerId: Option<string>, schedule: Option<Period>, status: AppointmentStatus)

  datatype AssignmentRow = AssignmentRow(requestId: string, providerId: string, status: AssignmentStatus)

  datatype EventRow = EventRow(requestId: string, event: HandlingEvent)

  /** The stored tables. A provider that was stored as null is read back as agents without ids, so that reading the id of
      its dispatcher or worker never throws. */
  datatype Db = Db(
    requests: map<string, Request>,
    appointments: seq<AppointmentRow>,
    assignments: seq<AssignmentRow>,
    events: seq<EventRow>)

  /** The tables after a handler, and what it threw. */
  datatype Handled = Handled(db: Db, error: Option<Error>)

  // ---------- Bulk updates ----------

  function SetAppointment(sel: AppointmentRow -> bool, status: AppointmentStatus, a: AppointmentRow): AppointmentRow {
    if sel(a) then a.(status := status) else a
  }

  function UpdateAppointments(rows: seq<AppointmentRow>, sel: AppointmentRow -> bool, status: AppointmentStatus): seq<AppointmentRow> {
    Map(rows, a => SetAppointment(sel, status, a))
  }

  function SetAssignment(sel: AssignmentRow -> bool, status: AssignmentStatus, a: AssignmentRow): AssignmentRow {
    if sel(a) then a.(status := status) else a
  }

  function UpdateAssignments(rows: seq<AssignmentRow>, sel: AssignmentRow -> bool, status: AssignmentStatus): seq<AssignmentRow> {
    Map(rows, a => SetAssignment(sel, status, a))
  }

  // ---------- Event handlers ----------

  /** The current provider of `r` as a new allocated appointment. */
  function NewAppointment(id: string, r: Request): AppointmentRow {
    AppointmentRow(id, DispatcherId(r.service.provider), WorkerId(r.service.provider),
                   if r.service.provider.Some? then r.service.provider.value.schedule else None, ApptAllocated)
  }

  /** Saves the new appointment and replaces those of other workers. */
  function OnAllocated(db: Db, id: string, r: Request): Db {
    db.(appointments := UpdateAppointments(db.appointments + [NewAppointment(id, r)],
                                           (a: AppointmentRow) => a.requestId == id && a.workerId != WorkerId(r.service.provider), ApptReplaced))
  }

  function OnAccepted(db: Db, id: string, providerId: string): Db {
    db.(assignments := UpdateAssignments(
      UpdateAssignments(db.assignments, (a: AssignmentRow) => a.requestId == id && a.providerId == providerId && a.status.Pending?, Accepted),
      (a: AssignmentRow) => a.requestId == id && a.providerId != providerId, AsgFailed))
  }

  function OnCancelled(db: Db, id: string): Db {
    db.(assignments := UpdateAssignments(db.assignments, (a: AssignmentRow) => a.requestId == id, AsgCancelled),
        appointments := UpdateAppointments(db.appointments, (a: AppointmentRow) => a.requestId == id, ApptCancelled))
  }

  function OnRevoked(db: Db, id: string): Db {
    db.(assignments := UpdateAssignments(db.assignments, (a: AssignmentRow) => a.requestId == id, AsgRevoked),
        appointments := UpdateAppointments(db.appointments, (a: AppointmentRow) => a.requestId == id, ApptRevoked))
  }

  predicate IsImpacted(a: AppointmentRow, id: string, impacted: Option<string>) {
    a.requestId == id && (impacted.Some? ==> a.dispatcherId == impacted)
  }

  function OnRescheduled(db: Db, id: string, impacted: Option<string>): Db {
    db.(assignments := UpdateAssignments(db.assignments, (a: AssignmentRow) => a.requestId == id, AsgRescheduled),
        appointments := UpdateAppointments(db.appointments, (a: AppointmentRow) => IsImpacted(a, id, impacted), ApptRescheduled))
  }

  function OnFulfilled(db: Db, id: string, r: Request): Db {
    db.(appointments := UpdateAppointments(db.appointments,
          (a: AppointmentRow) => a.requestId == id && a.workerId.Some? && a.workerId == WorkerId(r.service.provider), ApptFulfilled))
  }

  function Save(db: Db, id: string, r: Request): Db {
    db.(requests := db.requests[id := r])
  }

  // ---------- Command handlers ----------

  /** The overlap query: one of the schedule's two ends lies in the appointment. */
  predicate QueryOverlaps(a: Period, schedule: Period) {
    (a.start <= schedule.start <= a.end) || (a.start <= schedule.end <= a.end)
  }

  predicate IsBusy(rows: seq<AppointmentRow>, workerId: string, schedule: Period) {
    exists a :: a in rows && a.status.ApptAllocated? && a.workerId == Some(workerId)
             && a.schedule.Some? && QueryOverlaps(a.schedule.value, schedule)
  }

  predicate HasFreeWorker(rows: seq<AppointmentRow>, dealer: ServiceProvider, schedule: Period) {
    exists w :: w in dealer.workers && !IsBusy(rows, w, schedule)
  }

  function AvailabilityError(db: Db, sp: ServiceProvider, schedule: Period): Option<Error> {
    if sp.kind.Dealer? then (if HasFreeWorker(db.appointments, sp, schedule) then None else Some(Occupied))
    else if IsBusy(db.appointments, sp.id, schedule) then Some(Overlapping)
    else None
  }

  /** The part that accepting and assigning by hand share. */
  function Take(db: Db, id: string, sp: ServiceProvider): Handled
    requires id in db.requests
  {
    var r := db.requests[id];
    var taken := AttemptAssign(r, sp);
    if taken.error.Some? then Handled(db, taken.error)
    else
      var db' := OnAccepted(Save(db, id, taken.request), id, sp.id);
      if WorkerId(taken.request.service.provider) == Some(sp.id) then Handled(OnAllocated(db', id, taken.request), None)
      else Handled(db', None)
  }

  function Accept(db: Db, id: string, sp: ServiceProvider): Handled {
    if id !in db.requests then Handled(db, Some(RequestNotFound))
    else if !sp.active then Handled(db, Some(Inactive))
    else
      var unavailable := AvailabilityError(db, sp, db.requests[id].appointment.schedule);
      if unavailable.Some? then Handled(db, unavailable) else Take(db, id, sp)
  }

  /** Like accepting, but the offer is inserted first; nobody checks that the provider is active. */
  function ManuallyAssign(db: Db, id: string, sp: ServiceProvider): Handled {
    if id !in db.requests then Handled(db, Some(RequestNotFound))
    else
      var unavailable := AvailabilityError(db, sp, db.requests[id].appointment.schedule);
      if unavailable.Some? then Handled(db, unavailable)
      else
        var taken := Take(db.(assignments := db.assignments + [AssignmentRow(id, sp.id, Pending)]), id, sp);
        if taken.error.Some? then Handled(db, taken.error) else taken
  }

  function Allocate(db: Db, id: string, workerId: string, dealerId: string): Handled {
    if id !in db.requests then Handled(db, Some(RequestNotFound))
    else if WorkerId(db.requests[id].service.provider) == Some(workerId) then Handled(db, None)
    else
      var given := AttemptAllocate(db.requests[id], workerId, dealerId);
      if given.error.Some? then Handled(db, given.error)
      else Handled(OnAllocated(Save(db, id, given.request), id, given.request), None)
  }

  function EventsOf(db: Db, id: string): seq<HandlingEvent> {
    Map(Filter(db.events, (e: EventRow) => e.requestId == id), (e: EventRow) => e.event)
  }

  /** `mayStart`: the start limit has passed and the completion checks hold. */
  function HandleJob(db: Db, id: string, at: int, mayStart: bool): Handled {
    if id !in db.requests then Handled(db, Some(RequestNotFound))
    else if !mayStart then Handled(db, Some(TooEarly))
    else
      match NextEventType(db.requests[id].service)
      case Err(e) => Handled(db, Some(e))
      case Ok(kind) =>
        var db' := db.(events := db.events + [EventRow(id, HandlingEvent(at, kind))]);
        var r := DeriveProgress(db.requests[id], EventsOf(db', id), at);
        var saved := Save(db', id, r);
        Handled(if r.service.status.StatusFulfilled? then OnFulfilled(saved, id, r) else saved, None)
  }

  /** A new dispatch of the request, which follows a cancellation by its provider, a revocation, a reschedule or the payment. */
  function InitiateDispatch(db: Db, id: string): Db {
    if id in db.requests then Save(db, id, RestartRequest(db.requests[id])) else db
  }

  function CancelJob(db: Db, id: string, sp: ServiceProvider, now: int): Handled {
    if id !in db.requests then Handled(db, Some(RequestNotFound))
    else
      var cancelled := CancelByProvider(db.requests[id], sp, now);
      if cancelled.error.Some? then Handled(db, cancelled.error)
      else Handled(InitiateDispatch(OnCancelled(Save(db, id, cancelled.request), id), id), None)
  }

  function CancelByConsumer(db: Db, id: string, now: int): Handled {
    if id !in db.requests then Handled(db, Some(RequestNotFound))
    else
      var cancelled := AttemptCustomerCancel(db.requests[id], now);
      if cancelled.error.Some? then Handled(db, cancelled.error)
      else Handled(OnCancelled(Save(db, id, cancelled.request), id), None)
  }

  function RevokeJob(db: Db, id: string, markAsFailed: bool, now: int): Handled {
    if id !in db.requests then Handled(db, Some(RequestNotFound))
    else
      var db' := OnRevoked(Save(db, id, RevokeRequest(db.requests[id], markAsFailed, now)), id);
      Handled(if markAsFailed then db' else InitiateDispatch(db', id), None)
  }

  /** Creates and at once executes a customer's reschedule order; an unpaid surcharge order is only saved. */
  function CustomerReschedule(db: Db, id: string, arrival: Period, now: int): Handled {
    if id !in db.requests then Handled(db, Some(RequestNotFound))
    else
      var created := CreateOrder(db.requests[id], arrival, now);
      var done := if created.error.None? then ExecuteRescheduleOrder(created.request, Undefined, now) else created;
      if done.error.Some? && done.error != Some(SurchargeUnpaid) then Handled(db, done.error)
      else if !done.request.HasBeenRescheduledOnce() then Handled(Save(db, id, done.request), None)
      else Handled(InitiateDispatch(OnRescheduled(Save(db, id, done.request), id, done.request.order.impactedProviderId), id), None)
  }

  /** The impacted provider is the dispatcher before the change. */
  function AdminChange(db: Db, id: string, arrival: Period, now: int): Handled {
    if id !in db.requests then Handled(db, Some(RequestNotFound))
    else
      var r := db.requests[id];
      var changed := AdminReschedule(r, arrival, now);
      if changed.error.Some? then Handled(db, changed.error)
      else if arrival.start == r.appointment.arrival.start then Handled(Save(db, id, changed.request), None)
      else Handled(InitiateDispatch(OnRescheduled(Save(db, id, changed.request), id, DispatcherId(r.service.provider)), id), None)
  }

  /** The surcharge of a stored order was paid for, successfully or not. */
  function SurchargeResponded(db: Db, id: string, responses: seq<PaymentResponse>, now: int): Handled {
    if id !in db.requests then Handled(db, Some(RequestNotFound))
    else if OrderIsPaid(db.requests[id].order) then Handled(db, None)
    else
      var done := ExecuteRescheduleOrder(db.requests[id], Responses(responses), now);
      if done.error.Some? then Handled(db, done.error)
      else if !done.request.HasBeenRescheduledOnce() then Handled(Save(db, id, done.request), None)
      else Handled(InitiateDispatch(OnRescheduled(Save(db, id, done.request), id, done.request.order.impactedProviderId), id), None)
  }

  /** The service fee was paid for; the first success confirms the request and starts its dispatch. */
  function FeePaymentResponded(db: Db, id: string, responses: seq<PaymentResponse>, now: int): Handled {
    if id !in db.requests then Handled(db, Some(RequestNotFound))
    else if db.requests[id].IsPaid() then Handled(db, None)
    else
      var r := DerivePayment(db.requests[id], responses, now);
      Handled(if r.IsPaid() then InitiateDispatch(Save(db, id, r), id) else Save(db, id, r), None)
  }

  /** A batch of offers: one pending assignment per provider. */
  function Offer(db: Db, id: string, providerIds: seq<string>): Db {
    if id in db.requests && !HasBeenAssignedOrAllocated(db.requests[id].service)
    then db.(assignments := db.assignments + Map(providerIds, p => AssignmentRow(id, p, Pending)))
    else db
  }
}
