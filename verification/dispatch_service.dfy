/** The dispatch and service-request handlers, working on the stored tables in place. */
module DispatchServices {
  import opened Wrappers
  import opened ServiceEntity
  import opened ServiceRequests
  import opened Dispatching
  import opened DispatchRuns

  class DispatchService {
    var requests: map<string, Request>
    var appointments: seq<AppointmentRow>
    var assignments: seq<AssignmentRow>
    var events: seq<EventRow>

    function Rows(): Db
      reads this
    {
      Db(requests, appointments, assignments, events)
    }

    constructor (db: Db)
      ensures Rows() == db
    {
      requests, appointments, assignments, events := db.requests, db.appointments, db.assignments, db.events;
    }

    // ---------- Event handlers ----------

    /** Saves the current provider's appointment and replaces those of other workers. */
    method HandleAllocated(id: string, r: Request)
      modifies this
      ensures Rows() == OnAllocated(old(Rows()), id, r)
      ensures forall i :: 0 <= i < |appointments| && IsAllocatedRow(appointments[i], id) ==> appointments[i].workerId == WorkerId(r.service.provider)
    {
      appointments := appointments + [NewAppointment(id, r)];
      appointments := UpdateAppointments(appointments,
        (a: AppointmentRow) => a.requestId == id && a.workerId != WorkerId(r.service.provider), ApptReplaced);
    }

    method HandleCancelled(id: string)
      modifies this
      ensures Rows() == OnCancelled(old(Rows()), id)
      ensures NoneAllocated(appointments, id) && NoneAccepted(assignments, id)
    {
      assignments := UpdateAssignments(assignments, (a: AssignmentRow) => a.requestId == id, AsgCancelled);
      appointments := UpdateAppointments(appointments, (a: AppointmentRow) => a.requestId == id, ApptCancelled);
    }

    method HandleRevoked(id: string)
      modifies this
      ensures Rows() == OnRevoked(old(Rows()), id)
      ensures NoneAllocated(appointments, id) && NoneAccepted(assignments, id)
    {
      assignments := UpdateAssignments(assignments, (a: AssignmentRow) => a.requestId == id, AsgRevoked);
      appointments := UpdateAppointments(appointments, (a: AppointmentRow) => a.requestId == id, ApptRevoked);
    }

    method HandleRescheduled(id: string, impacted: Option<string>)
      modifies this
      ensures Rows() == OnRescheduled(old(Rows()), id, impacted)
      ensures NoneAccepted(assignments, id)
      ensures forall i :: 0 <= i < |appointments| && IsAllocatedRow(appointments[i], id) ==> impacted.Some? && appointments[i].dispatcherId != impacted
    {
      assignments := UpdateAssignments(assignments, (a: AssignmentRow) => a.requestId == id, AsgRescheduled);
      appointments := UpdateAppointments(appointments, (a: AppointmentRow) => IsImpacted(a, id, impacted), ApptRescheduled);
    }

    method HandleFulfilled(id: string, r: Request)
      modifies this
      ensures Rows() == OnFulfilled(old(Rows()), id, r)
      ensures WorkerId(r.service.provider).Some? ==>
                forall i :: 0 <= i < |appointments| && IsAllocatedRow(appointments[i], id) ==> appointments[i].workerId != WorkerId(r.service.provider)
    {
      appointments := UpdateAppointments(appointments,
        (a: AppointmentRow) => a.requestId == id && a.workerId.Some? && a.workerId == WorkerId(r.service.provider), ApptFulfilled);
    }

    method Initiate(id: string)
      modifies this
      ensures Rows() == InitiateDispatch(old(Rows()), id)
      ensures InStep(old(Rows())) && id in old(requests) ==>
                (InStep(Rows()) <==> NoneAllocated(appointments, id) && NoneAccepted(assignments, id))
    {
      if InStep(Rows()) && id in requests {
        DispatchSafeIff(Rows(), id);
      }
      if id !in requests {
        return;
      }
      var request := new ServiceRequest(requests[id]);
      request.Restart();
      requests := requests[id := request.Row()];
    }

    // ---------- Command handlers ----------

    method SettleOffers(id: string, providerId: string)
      modifies this
      ensures Rows() == OnAccepted(old(Rows()), id, providerId)
      ensures forall i :: 0 <= i < |assignments| && IsAcceptedRow(assignments[i], id) ==> assignments[i].providerId == providerId
    {
      assignments := UpdateAssignments(assignments,
        (a: AssignmentRow) => a.requestId == id && a.providerId == providerId && a.status.Pending?, Accepted);
      assignments := UpdateAssignments(assignments, (a: AssignmentRow) => a.requestId == id && a.providerId != providerId, AsgFailed);
    }

    method AcceptNewDispatchedJob(id: string, sp: ServiceProvider) returns (error: Option<Error>)
      modifies this
      ensures Handled(Rows(), error) == Accept(old(Rows()), id, sp)
      ensures InStep(old(Rows())) ==> InStep(Rows())
    {
      if InStep(Rows()) {
        AcceptKeepsInStep(Rows(), id, sp);
      }
      if id !in requests {
        return Some(RequestNotFound);
      }
      if !sp.active {
        return Some(Inactive);
      }
      error := AvailabilityError(Rows(), sp, requests[id].appointment.schedule);
      if error.Some? {
        return;
      }
      var request := new ServiceRequest(requests[id]);
      error := request.AssignToDispatcher(sp);
      if error.Some? {
        return;
      }
      requests := requests[id := request.Row()];
      SettleOffers(id, sp.id);
      if WorkerId(request.service.provider) == Some(sp.id) {
        HandleAllocated(id, request.Row());
      }
    }

    method ManuallyAssignJob(id: string, sp: ServiceProvider) returns (error: Option<Error>)
      modifies this
      ensures Handled(Rows(), error) == ManuallyAssign(old(Rows()), id, sp)
      ensures InStep(old(Rows())) ==> InStep(Rows())
    {
      if InStep(Rows()) {
        ManuallyAssignKeepsInStep(Rows(), id, sp);
      }
      if id !in requests {
        return Some(RequestNotFound);
      }
      error := AvailabilityError(Rows(), sp, requests[id].appointment.schedule);
      if error.Some? {
        return;
      }
      var request := new ServiceRequest(requests[id]);
      error := request.AssignToDispatcher(sp);
      if error.Some? {
        return;
      }
      requests := requests[id := request.Row()];
      assignments := assignments + [AssignmentRow(id, sp.id, Pending)];
      SettleOffers(id, sp.id);
      if WorkerId(request.service.provider) == Some(sp.id) {
        HandleAllocated(id, request.Row());
      }
    }

    method AllocateJobToWorker(id: string, workerId: string, dealerId: string) returns (error: Option<Error>)
      modifies this
      ensures Handled(Rows(), error) == Allocate(old(Rows()), id, workerId, dealerId)
      ensures InStep(old(Rows())) ==> InStep(Rows())
    {
      if InStep(Rows()) {
        AllocateKeepsInStep(Rows(), id, workerId, dealerId);
      }
      if id !in requests {
        return Some(RequestNotFound);
      }
      if WorkerId(requests[id].service.provider) == Some(workerId) {
        return None;
      }
      var request := new ServiceRequest(requests[id]);
      error := request.AllocateToWorker(workerId, dealerId);
      if error.Some? {
        return;
      }
      requests := requests[id := request.Row()];
      HandleAllocated(id, request.Row());
    }

    method HandleServicingJob(id: string, at: int, mayStart: bool) returns (error: Option<Error>)
      modifies this
      ensures Handled(Rows(), error) == HandleJob(old(Rows()), id, at, mayStart)
      ensures InStep(old(Rows())) ==> InStep(Rows())
    {
      if InStep(Rows()) {
        HandleJobKeepsInStep(Rows(), id, at, mayStart);
      }
      if id !in requests {
        return Some(RequestNotFound);
      }
      if !mayStart {
        return Some(TooEarly);
      }
      var request := new ServiceRequest(requests[id]);
      var next := NextEventType(request.service);
      if next.Err? {
        return Some(next.error);
      }
      events := events + [EventRow(id, HandlingEvent(at, next.value))];
      request.DeriveServiceProgress(EventsOf(Rows(), id), at);
      requests := requests[id := request.Row()];
      if request.service.status.StatusFulfilled? {
        HandleFulfilled(id, request.Row());
      }
      return None;
    }

    method CancelJobByProvider(id: string, sp: ServiceProvider, now: int) returns (error: Option<Error>)
      modifies this
      ensures Handled(Rows(), error) == CancelJob(old(Rows()), id, sp, now)
      ensures InStep(old(Rows())) ==> InStep(Rows())
    {
      if InStep(Rows()) {
        CancelJobKeepsInStep(Rows(), id, sp, now);
      }
      if id !in requests {
        return Some(RequestNotFound);
      }
      var request := new ServiceRequest(requests[id]);
      error := request.Cancel(sp, now);
      if error.Some? {
        return;
      }
      requests := requests[id := request.Row()];
      HandleCancelled(id);
      Initiate(id);
    }

    method CancelJobByCustomer(id: string, now: int) returns (error: Option<Error>)
      modifies this
      ensures Handled(Rows(), error) == CancelByConsumer(old(Rows()), id, now)
      ensures InStep(old(Rows())) ==> InStep(Rows())
    {
      if InStep(Rows()) {
        CancelByConsumerKeepsInStep(Rows(), id, now);
      }
      if id !in requests {
        return Some(RequestNotFound);
      }
      var request := new ServiceRequest(requests[id]);
      error := request.CancelByCustomer(now);
      if error.Some? {
        return;
      }
      requests := requests[id := request.Row()];
      HandleCancelled(id);
    }

    method RevokeJobByOperator(id: string, markAsFailed: bool, now: int) returns (error: Option<Error>)
      modifies this
      ensures Handled(Rows(), error) == RevokeJob(old(Rows()), id, markAsFailed, now)
      ensures InStep(old(Rows())) ==> InStep(Rows())
    {
      if InStep(Rows()) {
        RevokeJobKeepsInStep(Rows(), id, markAsFailed, now);
      }
      if id !in requests {
        return Some(RequestNotFound);
      }
      var request := new ServiceRequest(requests[id]);
      request.Revoke(markAsFailed, now);
      requests := requests[id := request.Row()];
      HandleRevoked(id);
      if !markAsFailed {
        Initiate(id);
      }
      return None;
    }

    method Reschedule(id: string, arrival: Period, now: int) returns (error: Option<Error>)
      modifies this
      ensures Handled(Rows(), error) == CustomerReschedule(old(Rows()), id, arrival, now)
      ensures InStep(old(Rows())) ==> InStep(Rows())
    {
      if InStep(Rows()) {
        CustomerRescheduleKeepsInStep(Rows(), id, arrival, now);
      }
      if id !in requests {
        return Some(RequestNotFound);
      }
      var request := new ServiceRequest(requests[id]);
      error := request.CreateCustomerRescheduleOrder(arrival, now);
      if error.None? {
        error := request.ExecuteCustomerRescheduleOrder(Undefined, now);
      }
      if error.Some? && error != Some(SurchargeUnpaid) {
        return;
      }
      requests := requests[id := request.Row()];
      if request.Row().HasBeenRescheduledOnce() {
        HandleRescheduled(id, request.order.impactedProviderId);
        Initiate(id);
      }
      return None;
    }

    method AdminChangeSpecification(id: string, arrival: Period, now: int) returns (error: Option<Error>)
      modifies this
      ensures Handled(Rows(), error) == AdminChange(old(Rows()), id, arrival, now)
      ensures InStep(old(Rows())) ==> InStep(Rows())
    {
      if InStep(Rows()) {
        AdminChangeKeepsInStep(Rows(), id, arrival, now);
      }
      if id !in requests {
        return Some(RequestNotFound);
      }
      var request := new ServiceRequest(requests[id]);
      var startChanged := arrival.start != request.appointment.arrival.start;
      var impacted := DispatcherId(request.service.provider);
      error := request.AdminChangeSpecification(arrival, now);
      if error.Some? {
        return;
      }
      requests := requests[id := request.Row()];
      if startChanged {
        HandleRescheduled(id, impacted);
        Initiate(id);
      }
    }

    method HandleSurchargeResponse(id: string, responses: seq<PaymentResponse>, now: int) returns (error: Option<Error>)
      modifies this
      ensures Handled(Rows(), error) == SurchargeResponded(old(Rows()), id, responses, now)
      ensures InStep(old(Rows())) && error.None? && id in old(requests) && !OrderIsPaid(old(requests)[id].order) ==>
                (InStep(Rows()) <==> old(SurchargeGuard(Rows(), id, responses)))
      ensures error.Some? || (id in old(requests) && OrderIsPaid(old(requests)[id].order)) ==> Rows() == old(Rows())
    {
      if InStep(Rows()) && id in requests && !OrderIsPaid(requests[id].order) && SurchargeResponded(Rows(), id, responses, now).error.None? {
        SurchargeSafeIff(Rows(), id, responses, now);
      }
      if id !in requests {
        return Some(RequestNotFound);
      }
      var request := new ServiceRequest(requests[id]);
      if OrderIsPaid(request.order) {
        return None;
      }
      error := request.ExecuteCustomerRescheduleOrder(Responses(responses), now);
      if error.Some? {
        return;
      }
      requests := requests[id := request.Row()];
      if request.Row().HasBeenRescheduledOnce() {
        HandleRescheduled(id, request.order.impactedProviderId);
        Initiate(id);
      }
    }

    method HandleFeeResponse(id: string, responses: seq<PaymentResponse>, now: int) returns (error: Option<Error>)
      modifies this
      ensures Handled(Rows(), error) == FeePaymentResponded(old(Rows()), id, responses, now)
      ensures InStep(old(Rows())) && id in old(requests) && !old(requests)[id].IsPaid() ==>
                (InStep(Rows()) <==> old(FeeGuard(Rows(), id, responses)))
      ensures InStep(old(Rows())) && id in old(requests) && old(requests)[id].config.paymentGatewayEnabled ==> InStep(Rows())
    {
      if InStep(Rows()) && id in requests && !requests[id].IsPaid() {
        FeeSafeIff(Rows(), id, responses, now);
        if requests[id].config.paymentGatewayEnabled {
          GatewayMeetsFeeGuard(Rows(), id, responses);
        }
      }
      if id !in requests {
        return Some(RequestNotFound);
      }
      var request := new ServiceRequest(requests[id]);
      if request.Row().IsPaid() {
        return None;
      }
      request.DeriveCustomerPaymentProgress(responses, now);
      requests := requests[id := request.Row()];
      if request.Row().IsPaid() {
        Initiate(id);
      }
      return None;
    }
  }
}
