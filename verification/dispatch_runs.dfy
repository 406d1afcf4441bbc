/** The tables stay in step with the service requests over every run of the dispatch handlers. */
module DispatchRuns {
  import opened Wrappers
  import opened ServiceEntity
  import opened ServiceRequests
  import opened Sums
  import opened Sorting
  import opened Dispatching

  predicate IsAllocatedRow(a: AppointmentRow, id: string) {
    a.requestId == id && a.status.ApptAllocated?
  }

  predicate IsAcceptedRow(a: AssignmentRow, id: string) {
    a.requestId == id && a.status.Accepted?
  }

  predicate NoneAllocated(rows: seq<AppointmentRow>, id: string) {
    forall i :: 0 <= i < |rows| ==> !IsAllocatedRow(rows[i], id)
  }

  predicate NoneAccepted(rows: seq<AssignmentRow>, id: string) {
    forall i :: 0 <= i < |rows| ==> !IsAcceptedRow(rows[i], id)
  }

  predicate AtMostOneAllocated(rows: seq<AppointmentRow>, id: string) {
    forall i, j :: 0 <= i < j < |rows| ==> !(IsAllocatedRow(rows[i], id) && IsAllocatedRow(rows[j], id))
  }

  /** An allocated appointment belongs to the service's current worker and dispatcher. */
  predicate AllocatedIsCurrent(rows: seq<AppointmentRow>, id: string, s: Service) {
    forall i :: 0 <= i < |rows| && IsAllocatedRow(rows[i], id) ==>
      && rows[i].workerId.Some? && rows[i].workerId == WorkerId(s.provider)
      && rows[i].dispatcherId == DispatcherId(s.provider)
      && !IsCancelled(s.status)
  }

  /** An accepted assignment belongs to the current dispatcher. */
  predicate AcceptedIsCurrent(rows: seq<AssignmentRow>, id: string, s: Service) {
    forall i :: 0 <= i < |rows| && IsAcceptedRow(rows[i], id) ==> DispatcherId(s.provider) == Some(rows[i].providerId)
  }

  ghost predicate ServiceInStep(s: Service) {
    Coherent(s) && (s.paymentStatus.PaymentSucceeded? ==> s.lastResponse.Some? && s.lastResponse.value.status.PaymentSucceeded?)
  }

  ghost predicate RowsInStep(db: Db, id: string)
    requires id in db.requests
  {
    var r := db.requests[id];
    && ServiceInStep(r.service)
    && AtMostOneAllocated(db.appointments, id)
    && AllocatedIsCurrent(db.appointments, id, r.service)
    && AcceptedIsCurrent(db.assignments, id, r.service)
    && (r.config.paymentGatewayEnabled && !r.IsPaid() ==> DispatcherId(r.service.provider).None?)
  }

  ghost predicate InStep(db: Db) {
    && (forall id :: id in db.requests ==> RowsInStep(db, id))
    && (forall i :: 0 <= i < |db.appointments| ==> db.appointments[i].requestId in db.requests)
    && (forall i :: 0 <= i < |db.assignments| ==> db.assignments[i].requestId in db.requests)
  }

  /** Only `id` is touched: other requests and their rows are as before, and new rows are its own. */
  ghost predicate OnlyTouches(db: Db, db': Db, id: string) {
    && db'.requests.Keys == db.requests.Keys
    && (forall o :: o in db.requests && o != id ==> db'.requests[o] == db.requests[o])
    && |db.appointments| <= |db'.appointments|
    && (forall i :: 0 <= i < |db.appointments| ==> db'.appointments[i].requestId == db.appointments[i].requestId)
    && (forall i :: 0 <= i < |db.appointments| && db.appointments[i].requestId != id ==> db'.appointments[i] == db.appointments[i])
    && (forall i :: |db.appointments| <= i < |db'.appointments| ==> db'.appointments[i].requestId == id)
    && |db.assignments| <= |db'.assignments|
    && (forall i :: 0 <= i < |db.assignments| ==> db'.assignments[i].requestId == db.assignments[i].requestId)
    && (forall i :: 0 <= i < |db.assignments| && db.assignments[i].requestId != id ==> db'.assignments[i] == db.assignments[i])
    && (forall i :: |db.assignments| <= i < |db'.assignments| ==> db'.assignments[i].requestId == id)
  }

  lemma OthersStayInStep(db: Db, db': Db, id: string, o: string)
    requires OnlyTouches(db, db', id) && o in db.requests && o != id && RowsInStep(db, o)
    ensures RowsInStep(db', o)
  {
    forall i | 0 <= i < |db'.appointments|
      ensures IsAllocatedRow(db'.appointments[i], o) ==> i < |db.appointments| && db'.appointments[i] == db.appointments[i]
    {}
    forall i | 0 <= i < |db'.assignments|
      ensures IsAcceptedRow(db'.assignments[i], o) ==> i < |db.assignments| && db'.assignments[i] == db.assignments[i]
    {}
  }

  lemma TouchKeepsInStep(db: Db, db': Db, id: string)
    requires InStep(db) && id in db.requests && OnlyTouches(db, db', id) && RowsInStep(db', id)
    ensures InStep(db')
  {
    forall o | o in db.requests && o != id
      ensures RowsInStep(db', o)
    {
      OthersStayInStep(db, db', id, o);
    }
  }

  /** With no allocated appointment and no accepted assignment left, any service without a dispatcher is in step. */
  lemma ClearedIsInStep(db: Db, id: string)
    requires id in db.requests && ServiceInStep(db.requests[id].service)
    requires db.requests[id].config.paymentGatewayEnabled && !db.requests[id].IsPaid() ==> DispatcherId(db.requests[id].service.provider).None?
    requires NoneAllocated(db.appointments, id) && NoneAccepted(db.assignments, id)
    ensures RowsInStep(db, id)
  {}

  /** Without a current worker there is no allocated appointment, without a dispatcher no accepted assignment. */
  lemma UnassignedIsCleared(db: Db, id: string)
    requires id in db.requests && RowsInStep(db, id)
    requires DispatcherId(db.requests[id].service.provider).None?
    ensures NoneAllocated(db.appointments, id) && NoneAccepted(db.assignments, id)
  {}

  lemma TouchTransitive(a: Db, b: Db, c: Db, id: string)
    requires OnlyTouches(a, b, id) && OnlyTouches(b, c, id)
    ensures OnlyTouches(a, c, id)
  {}

  lemma SaveTouches(db: Db, id: string, r: Request)
    requires id in db.requests
    ensures OnlyTouches(db, Save(db, id, r), id)
  {}

  lemma AllocatedTouches(db: Db, id: string, r: Request)
    ensures OnlyTouches(db, OnAllocated(db, id, r), id)
  {
    assert forall i :: 0 <= i < |db.appointments| ==> (db.appointments + [NewAppointment(id, r)])[i] == db.appointments[i];
  }

  lemma AcceptedTouches(db: Db, id: string, providerId: string)
    ensures OnlyTouches(db, OnAccepted(db, id, providerId), id)
  {}

  lemma FulfilledTouches(db: Db, id: string, r: Request)
    ensures OnlyTouches(db, OnFulfilled(db, id, r), id)
  {}

  lemma CancelledTouches(db: Db, id: string)
    ensures OnlyTouches(db, OnCancelled(db, id), id)
    ensures NoneAllocated(OnCancelled(db, id).appointments, id) && NoneAccepted(OnCancelled(db, id).assignments, id)
  {}

  lemma RevokedTouches(db: Db, id: string)
    ensures OnlyTouches(db, OnRevoked(db, id), id)
    ensures NoneAllocated(OnRevoked(db, id).appointments, id) && NoneAccepted(OnRevoked(db, id).assignments, id)
  {}

  /** A reschedule clears all assignments, and the appointments of the impacted dispatcher. */
  lemma RescheduledTouches(db: Db, id: string, impacted: Option<string>)
    ensures OnlyTouches(db, OnRescheduled(db, id, impacted), id)
    ensures NoneAccepted(OnRescheduled(db, id, impacted).assignments, id)
    ensures NoneAllocated(OnRescheduled(db, id, impacted).appointments, id) <==>
              forall i :: 0 <= i < |db.appointments| && IsAllocatedRow(db.appointments[i], id) ==> IsImpacted(db.appointments[i], id, impacted)
  {
    var rows, rows' := db.appointments, OnRescheduled(db, id, impacted).appointments;
    assert forall i :: 0 <= i < |rows| ==>
        (IsAllocatedRow(rows'[i], id) <==> IsAllocatedRow(rows[i], id) && !IsImpacted(rows[i], id, impacted));
  }

  // ---------- Taking a job ----------

  lemma TakenService(r: Request, sp: ServiceProvider)
    requires ServiceInStep(r.service) && AttemptAssign(r, sp).error.None?
    ensures var r' := AttemptAssign(r, sp).request;
            && ServiceInStep(r'.service) && !IsCancelled(r'.service.status) && r'.config == r.config
            && DispatcherId(r'.service.provider) == Some(sp.id)
            && WorkerId(r'.service.provider) == (if sp.kind.Independent? then Some(sp.id) else None)
            && (r.config.paymentGatewayEnabled ==> r'.IsPaid())
  {
    var s := r.service;
    var p := Some(Provider(Some(Agent(Some(sp.id))), None, None));
    var q := Some(Provider(Some(Agent(Some(sp.id))), Some(Agent(Some(sp.id))), Some(r.appointment.schedule)));
    MakeIsCoherent(s.lastEvent, p, s.lastResponse, s.isPrepaid, None);
    MakeIsCoherent(s.lastEvent, q, s.lastResponse, s.isPrepaid, None);
  }

  /** A request that can be taken has no allocated appointment; it may still hold accepted rows of the taker. */
  lemma TakeableHasNoAllocated(db: Db, id: string, sp: ServiceProvider)
    requires id in db.requests && RowsInStep(db, id) && AttemptAssign(db.requests[id], sp).error.None?
    ensures NoneAllocated(db.appointments, id)
  {}

  lemma AcceptedAfterTake(db: Db, id: string, providerId: string)
    ensures forall i :: 0 <= i < |db.assignments| && IsAcceptedRow(OnAccepted(db, id, providerId).assignments[i], id)
              ==> OnAccepted(db, id, providerId).assignments[i].providerId == providerId
  {}

  /** The new appointment is the only allocated one if none other of its worker was. */
  lemma AllocatedAfterInsert(db: Db, id: string, r: Request)
    requires forall i :: 0 <= i < |db.appointments| && IsAllocatedRow(db.appointments[i], id) ==>
               db.appointments[i].workerId != WorkerId(r.service.provider)
    requires WorkerId(r.service.provider).Some? && !IsCancelled(r.service.status)
    ensures AtMostOneAllocated(OnAllocated(db, id, r).appointments, id)
    ensures AllocatedIsCurrent(OnAllocated(db, id, r).appointments, id, r.service)
  {
    var rows := OnAllocated(db, id, r).appointments;
    var n := |db.appointments|;
    forall i | 0 <= i < n
      ensures !IsAllocatedRow(rows[i], id)
    {
      assert (db.appointments + [NewAppointment(id, r)])[i] == db.appointments[i];
    }
  }

  /** The rows after a request was taken by `providerId`, with or without its own appointment. */
  lemma RowsAfterTake(db: Db, id: string, r': Request, providerId: string)
    requires id in db.requests && NoneAllocated(db.appointments, id)
    requires ServiceInStep(r'.service) && !IsCancelled(r'.service.status)
    requires DispatcherId(r'.service.provider) == Some(providerId) && (r'.config.paymentGatewayEnabled ==> r'.IsPaid())
    ensures RowsInStep(OnAccepted(Save(db, id, r'), id, providerId), id)
    ensures WorkerId(r'.service.provider).Some? ==> RowsInStep(OnAllocated(OnAccepted(Save(db, id, r'), id, providerId), id, r'), id)
  {
    var db1 := OnAccepted(Save(db, id, r'), id, providerId);
    AcceptedAfterTake(Save(db, id, r'), id, providerId);
    if WorkerId(r'.service.provider).Some? {
      AllocatedAfterInsert(db1, id, r');
    }
  }

  lemma TakeKeepsInStep(db: Db, id: string, sp: ServiceProvider)
    requires InStep(db) && id in db.requests && AttemptAssign(db.requests[id], sp).error.None?
    ensures InStep(Take(db, id, sp).db)
  {
    var r' := AttemptAssign(db.requests[id], sp).request;
    TakenService(db.requests[id], sp);
    TakeableHasNoAllocated(db, id, sp);
    var db1 := Save(db, id, r');
    var db2 := OnAccepted(db1, id, sp.id);
    RowsAfterTake(db, id, r', sp.id);
    SaveTouches(db, id, r');
    AcceptedTouches(db1, id, sp.id);
    TouchTransitive(db, db1, db2, id);
    AllocatedTouches(db2, id, r');
    TouchTransitive(db, db2, OnAllocated(db2, id, r'), id);
    TouchKeepsInStep(db, Take(db, id, sp).db, id);
  }

  lemma OfferKeepsInStep(db: Db, id: string, offers: seq<AssignmentRow>)
    requires InStep(db) && id in db.requests
    requires forall i :: 0 <= i < |offers| ==> offers[i].requestId == id && offers[i].status.Pending?
    ensures InStep(db.(assignments := db.assignments + offers))
  {
    var db' := db.(assignments := db.assignments + offers);
    assert forall i :: 0 <= i < |db'.assignments| && IsAcceptedRow(db'.assignments[i], id) ==>
        i < |db.assignments| && db'.assignments[i] == db.assignments[i];
    assert RowsInStep(db', id);
    TouchKeepsInStep(db, db', id);
  }

  // ---------- Allocating a worker ----------

  lemma GivenService(r: Request, workerId: string, dealerId: string)
    requires ServiceInStep(r.service) && AttemptAllocate(r, workerId, dealerId).error.None?
    ensures var r' := AttemptAllocate(r, workerId, dealerId).request;
            && ServiceInStep(r'.service) && !IsCancelled(r'.service.status) && r'.config == r.config
            && DispatcherId(r'.service.provider) == DispatcherId(r.service.provider)
            && WorkerId(r'.service.provider) == Some(workerId)
            && (r.IsPaid() ==> r'.IsPaid())
  {
    var s := r.service;
    var p := Some(Provider(s.provider.value.dispatcher, Some(Agent(Some(workerId))), Some(r.appointment.schedule)));
    MakeIsCoherent(s.lastEvent, p, s.lastResponse, s.isPrepaid, None);
  }

  lemma AllocateKeepsInStep(db: Db, id: string, workerId: string, dealerId: string)
    requires InStep(db)
    ensures InStep(Allocate(db, id, workerId, dealerId).db)
  {
    if id in db.requests && WorkerId(db.requests[id].service.provider) != Some(workerId)
       && AttemptAllocate(db.requests[id], workerId, dealerId).error.None? {
      var r' := AttemptAllocate(db.requests[id], workerId, dealerId).request;
      GivenService(db.requests[id], workerId, dealerId);
      RowsAfterAllocate(db, id, r');
      SaveTouches(db, id, r');
      AllocatedTouches(Save(db, id, r'), id, r');
      TouchTransitive(db, Save(db, id, r'), OnAllocated(Save(db, id, r'), id, r'), id);
      TouchKeepsInStep(db, OnAllocated(Save(db, id, r'), id, r'), id);
    }
  }

  lemma RowsAfterAllocate(db: Db, id: string, r': Request)
    requires id in db.requests && RowsInStep(db, id)
    requires ServiceInStep(r'.service) && !IsCancelled(r'.service.status) && r'.config == db.requests[id].config
    requires WorkerId(r'.service.provider).Some? && WorkerId(r'.service.provider) != WorkerId(db.requests[id].service.provider)
    requires DispatcherId(r'.service.provider) == DispatcherId(db.requests[id].service.provider)
    requires db.requests[id].IsPaid() ==> r'.IsPaid()
    requires r'.config.paymentGatewayEnabled ==> r'.IsPaid()
    ensures RowsInStep(OnAllocated(Save(db, id, r'), id, r'), id)
  {
    AllocatedAfterInsert(Save(db, id, r'), id, r');
  }

  // ---------- Handling the job ----------

  lemma HandleJobKeepsInStep(db: Db, id: string, at: int, mayStart: bool)
    requires InStep(db)
    ensures InStep(HandleJob(db, id, at, mayStart).db)
  {
    if HandleJob(db, id, at, mayStart).error.None? {
      var event := EventRow(id, HandlingEvent(at, NextEventType(db.requests[id].service).value));
      var db1 := db.(events := db.events + [event]);
      var r' := DeriveProgress(db.requests[id], EventsOf(db1, id), at);
      DerivedService(db.requests[id], EventsOf(db1, id), at);
      SaveTouches(db1, id, r');
      FulfilledTouches(Save(db1, id, r'), id, r');
      TouchTransitive(db1, Save(db1, id, r'), OnFulfilled(Save(db1, id, r'), id, r'), id);
      assert InStep(db1) by {
        assert forall o :: o in db.requests && RowsInStep(db, o) ==> RowsInStep(db1, o);
      }
      RowsAfterEvent(db1, id, r');
      TouchKeepsInStep(db1, HandleJob(db, id, at, mayStart).db, id);
    }
  }

  lemma DerivedService(r: Request, events: seq<HandlingEvent>, at: int)
    requires ServiceInStep(r.service)
    ensures var r' := DeriveProgress(r, events, at);
            && ServiceInStep(r'.service) && !IsCancelled(r'.service.status) && r'.config == r.config
            && r'.service.provider == r.service.provider && (r.IsPaid() ==> r'.IsPaid())
  {
    MakeIsCoherent(MostRecentEvent(events), r.service.provider, r.service.lastResponse, r.service.isPrepaid, None);
  }

  lemma RowsAfterEvent(db: Db, id: string, r': Request)
    requires id in db.requests && RowsInStep(db, id)
    requires ServiceInStep(r'.service) && !IsCancelled(r'.service.status) && r'.config == db.requests[id].config
    requires r'.service.provider == db.requests[id].service.provider && (db.requests[id].IsPaid() ==> r'.IsPaid())
    ensures RowsInStep(Save(db, id, r'), id) && RowsInStep(OnFulfilled(Save(db, id, r'), id, r'), id)
  {
    var rows, rows' := db.appointments, OnFulfilled(Save(db, id, r'), id, r').appointments;
    assert forall i :: 0 <= i < |rows| && IsAllocatedRow(rows'[i], id) ==> rows'[i] == rows[i];
  }

  // ---------- Ending and restarting ----------

  lemma RestartedService(r: Request)
    requires ServiceInStep(r.service)
    ensures ServiceInStep(RestartRequest(r).service) && DispatcherId(RestartRequest(r).service.provider).None?
    ensures RestartRequest(r).config == r.config
  {
    MakeIsCoherent(None, None, r.service.lastResponse, r.service.isPrepaid, None);
  }

  /** Dispatching anew is safe exactly if no allocated appointment and no accepted assignment is left. */
  lemma DispatchSafeIff(db: Db, id: string)
    requires InStep(db) && id in db.requests
    ensures InStep(InitiateDispatch(db, id)) <==> NoneAllocated(db.appointments, id) && NoneAccepted(db.assignments, id)
  {
    var db' := InitiateDispatch(db, id);
    RestartedService(db.requests[id]);
    SaveTouches(db, id, RestartRequest(db.requests[id]));
    if NoneAllocated(db.appointments, id) && NoneAccepted(db.assignments, id) {
      ClearedIsInStep(db', id);
      TouchKeepsInStep(db, db', id);
    }
    if InStep(db') {
      UnassignedIsCleared(db', id);
    }
  }

  /** A request whose rows were all cleared may be saved with any coherent service that is paid or has no dispatcher,
      and dispatched anew. */
  lemma ClearedKeepsInStep(db: Db, cleared: Db, id: string)
    requires InStep(db) && id in db.requests && OnlyTouches(db, cleared, id)
    requires NoneAllocated(cleared.appointments, id) && NoneAccepted(cleared.assignments, id)
    requires ServiceInStep(cleared.requests[id].service)
    requires cleared.requests[id].config.paymentGatewayEnabled && !cleared.requests[id].IsPaid() ==>
               DispatcherId(cleared.requests[id].service.provider).None?
    ensures InStep(cleared) && InStep(InitiateDispatch(cleared, id))
  {
    ClearedIsInStep(cleared, id);
    TouchKeepsInStep(db, cleared, id);
    DispatchSafeIff(cleared, id);
  }

  lemma TerminatedService(s: Service, cancellation: Option<Status>)
    requires ServiceInStep(s) && (cancellation.Some? ==> IsCancelled(cancellation.value))
    ensures ServiceInStep(TerminateProvider(s, cancellation)) && DispatcherId(TerminateProvider(s, cancellation).provider).None?
  {
    MakeIsCoherent(s.lastEvent, Some(EMPTY_PROVIDER), s.lastResponse, s.isPrepaid, cancellation);
  }

  lemma CancelJobKeepsInStep(db: Db, id: string, sp: ServiceProvider, now: int)
    requires InStep(db)
    ensures InStep(CancelJob(db, id, sp, now).db)
  {
    if id in db.requests && CancelByProvider(db.requests[id], sp, now).error.None? {
      var r' := CancelByProvider(db.requests[id], sp, now).request;
      TerminatedService(db.requests[id].service, Some(CancelledByServiceProvider));
      var saved := Save(db, id, r');
      SaveTouches(db, id, r');
      CancelledTouches(saved, id);
      TouchTransitive(db, saved, OnCancelled(saved, id), id);
      ClearedKeepsInStep(db, OnCancelled(saved, id), id);
    }
  }

  lemma CancelByConsumerKeepsInStep(db: Db, id: string, now: int)
    requires InStep(db)
    ensures InStep(CancelByConsumer(db, id, now).db)
  {
    if id in db.requests && AttemptCustomerCancel(db.requests[id], now).error.None? {
      var r' := AttemptCustomerCancel(db.requests[id], now).request;
      TerminatedService(db.requests[id].service, Some(CancelledByCustomer));
      var saved := Save(db, id, r');
      SaveTouches(db, id, r');
      CancelledTouches(saved, id);
      TouchTransitive(db, saved, OnCancelled(saved, id), id);
      ClearedKeepsInStep(db, OnCancelled(saved, id), id);
    }
  }

  lemma RevokedService(r: Request, markAsFailed: bool, now: int)
    requires ServiceInStep(r.service)
    requires r.config.paymentGatewayEnabled && !r.IsPaid() ==> DispatcherId(r.service.provider).None?
    ensures var r' := RevokeRequest(r, markAsFailed, now);
            && ServiceInStep(r'.service) && r'.config == r.config
            && (r'.config.paymentGatewayEnabled && !r'.IsPaid() ==> DispatcherId(r'.service.provider).None?)
  {
    TerminatedService(r.service, Some(CancelledByOperator));
    MakeIsCoherent(r.service.lastEvent, r.service.provider, r.service.lastResponse, r.service.isPrepaid, Some(StatusFailed));
  }

  lemma RevokeJobKeepsInStep(db: Db, id: string, markAsFailed: bool, now: int)
    requires InStep(db)
    ensures InStep(RevokeJob(db, id, markAsFailed, now).db)
  {
    if id in db.requests {
      var r' := RevokeRequest(db.requests[id], markAsFailed, now);
      assert RowsInStep(db, id);
      RevokedService(db.requests[id], markAsFailed, now);
      var saved := Save(db, id, r');
      SaveTouches(db, id, r');
      RevokedTouches(saved, id);
      TouchTransitive(db, saved, OnRevoked(saved, id), id);
      ClearedKeepsInStep(db, OnRevoked(saved, id), id);
    }
  }

  // ---------- Rescheduling ----------

  /** Saving a rescheduled request and clearing the impacted dispatcher's rows is safe if every allocated row is impacted. */
  lemma RescheduleKeepsInStep(db: Db, id: string, r': Request, impacted: Option<string>)
    requires InStep(db) && id in db.requests
    requires ServiceInStep(r'.service) && DispatcherId(r'.service.provider).None?
    requires forall i :: 0 <= i < |db.appointments| && IsAllocatedRow(db.appointments[i], id) ==> IsImpacted(db.appointments[i], id, impacted)
    ensures InStep(InitiateDispatch(OnRescheduled(Save(db, id, r'), id, impacted), id))
  {
    var saved := Save(db, id, r');
    SaveTouches(db, id, r');
    RescheduledTouches(saved, id, impacted);
    TouchTransitive(db, saved, OnRescheduled(saved, id, impacted), id);
    ClearedKeepsInStep(db, OnRescheduled(saved, id, impacted), id);
  }

  lemma MovedService(r: Request, arrival: Period, now: int)
    requires ServiceInStep(r.service) && RescheduleTo(r, arrival, now).error.None?
    ensures ServiceInStep(RescheduleTo(r, arrival, now).request.service)
    ensures DispatcherId(RescheduleTo(r, arrival, now).request.service.provider).None?
  {
    TerminatedService(r.service, None);
  }

  /** A saved order changes no row and no service. */
  lemma SaveOrderKeepsInStep(db: Db, id: string, r': Request)
    requires InStep(db) && id in db.requests
    requires r'.service == db.requests[id].service && r'.config == db.requests[id].config
    ensures InStep(Save(db, id, r'))
  {
    SaveTouches(db, id, r');
    assert RowsInStep(db, id);
    TouchKeepsInStep(db, Save(db, id, r'), id);
  }

  lemma CustomerRescheduleKeepsInStep(db: Db, id: string, arrival: Period, now: int)
    requires InStep(db)
    ensures InStep(CustomerReschedule(db, id, arrival, now).db)
  {
    if id in db.requests {
      var r := db.requests[id];
      assert RowsInStep(db, id);
      var created := CreateOrder(r, arrival, now);
      if created.error.None? {
        CreatedOrderExecutes(r, arrival, now, Undefined, now);
        var done := ExecuteRescheduleOrder(created.request, Undefined, now);
        TerminatedService(r.service, None);
        RescheduleKeepsInStep(db, id, done.request, DispatcherId(r.service.provider));
      } else if created.error == Some(SurchargeUnpaid) {
        SaveOrderKeepsInStep(db, id, created.request);
      }
    }
  }

  lemma AdminChangeKeepsInStep(db: Db, id: string, arrival: Period, now: int)
    requires InStep(db)
    ensures InStep(AdminChange(db, id, arrival, now).db)
  {
    if id in db.requests {
      var r := db.requests[id];
      assert RowsInStep(db, id);
      var changed := AdminReschedule(r, arrival, now);
      if arrival.start == r.appointment.arrival.start {
        SaveOrderKeepsInStep(db, id, r);
      } else if changed.error.None? {
        MovedService(r, arrival, now);
        RescheduleKeepsInStep(db, id, changed.request, DispatcherId(r.service.provider));
      }
    }
  }

  // ---------- Paying a surcharge ----------

  /** What a caller can check before a surcharge response is handled. */
  predicate SurchargeGuard(db: Db, id: string, responses: seq<PaymentResponse>)
    requires id in db.requests
  {
    var r := db.requests[id];
    var response := MostRecentResponse(responses);
    if !r.order.surchargeRequired || r.HasBeenRescheduledOnce() || (response.Some? && response.value.status.PaymentSucceeded?) then
      || NoneAllocated(db.appointments, id)
      || r.order.impactedProviderId.None?
      || r.order.impactedProviderId == DispatcherId(r.service.provider)
    else NoneAllocated(db.appointments, id) && NoneAccepted(db.assignments, id)
  }

  lemma ExecutedOrder(r: Request, responses: seq<PaymentResponse>, now: int)
    requires ServiceInStep(r.service) && ExecuteRescheduleOrder(r, Responses(responses), now).error.None?
    ensures var r' := ExecuteRescheduleOrder(r, Responses(responses), now).request;
            && ServiceInStep(r'.service) && r'.config == r.config
            && DispatcherId(r'.service.provider).None? && WorkerId(r'.service.provider).None?
            && r'.order.impactedProviderId == r.order.impactedProviderId
            && (r'.HasBeenRescheduledOnce() <==>
                  !r.order.surchargeRequired || r.HasBeenRescheduledOnce() || MostRecentResponse(responses).value.status.PaymentSucceeded?)
            && (r.order.surchargeRequired ==> MostRecentResponse(responses).Some?)
  {
    TerminatedService(r.service, None);
  }

  /** The payment was made, or the order needs none: rows of the impacted dispatcher are cleared and the job dispatched anew. */
  lemma ExecutedSafeIff(db: Db, id: string, responses: seq<PaymentResponse>, now: int)
    requires InStep(db) && id in db.requests && !OrderIsPaid(db.requests[id].order)
    requires ExecuteRescheduleOrder(db.requests[id], Responses(responses), now).error.None?
    requires ExecuteRescheduleOrder(db.requests[id], Responses(responses), now).request.HasBeenRescheduledOnce()
    ensures InStep(SurchargeResponded(db, id, responses, now).db) <==> SurchargeGuard(db, id, responses)
  {
    var r := db.requests[id];
    assert RowsInStep(db, id);
    ExecutedOrder(r, responses, now);
    var r' := ExecuteRescheduleOrder(r, Responses(responses), now).request;
    var impacted := r.order.impactedProviderId;
    RescheduledTouches(Save(db, id, r'), id, impacted);
    if SurchargeGuard(db, id, responses) {
      RescheduleKeepsInStep(db, id, r', impacted);
    } else {
      RestartedService(r');
      if InStep(SurchargeResponded(db, id, responses, now).db) {
        UnassignedIsCleared(SurchargeResponded(db, id, responses, now).db, id);
      }
    }
  }

  /** The payment failed: the request is moved and saved, and nothing is cleared. */
  lemma FailedSafeIff(db: Db, id: string, responses: seq<PaymentResponse>, now: int)
    requires InStep(db) && id in db.requests && !OrderIsPaid(db.requests[id].order)
    requires ExecuteRescheduleOrder(db.requests[id], Responses(responses), now).error.None?
    requires !ExecuteRescheduleOrder(db.requests[id], Responses(responses), now).request.HasBeenRescheduledOnce()
    ensures InStep(SurchargeResponded(db, id, responses, now).db) <==> SurchargeGuard(db, id, responses)
  {
    var r := db.requests[id];
    assert RowsInStep(db, id);
    ExecutedOrder(r, responses, now);
    var r' := ExecuteRescheduleOrder(r, Responses(responses), now).request;
    SaveTouches(db, id, r');
    if SurchargeGuard(db, id, responses) {
      ClearedKeepsInStep(db, Save(db, id, r'), id);
    } else if InStep(Save(db, id, r')) {
      UnassignedIsCleared(Save(db, id, r'), id);
    }
  }

  /** A surcharge response keeps the tables in step exactly if its guard holds: a stored order names the dispatcher of its
      creation time, so another dispatcher's appointment survives it; and a failed payment moves the request without
      clearing any row. */
  lemma SurchargeSafeIff(db: Db, id: string, responses: seq<PaymentResponse>, now: int)
    requires InStep(db) && id in db.requests && !OrderIsPaid(db.requests[id].order)
    requires SurchargeResponded(db, id, responses, now).error.None?
    ensures InStep(SurchargeResponded(db, id, responses, now).db) <==> SurchargeGuard(db, id, responses)
  {
    if ExecuteRescheduleOrder(db.requests[id], Responses(responses), now).request.HasBeenRescheduledOnce() {
      ExecutedSafeIff(db, id, responses, now);
    } else {
      FailedSafeIff(db, id, responses, now);
    }
  }

  lemma OnlyResponse(p: PaymentResponse)
    ensures MostRecentResponse([p]) == Some(p)
  {
    var sorted := Sort([p], (r: PaymentResponse) => r.createdAt);
    assert multiset(sorted) == multiset{p} && sorted[0] in multiset(sorted);
  }

  // ---------- Payment, expiry, offers and new requests ----------

  lemma PaidService(r: Request, responses: seq<PaymentResponse>, now: int)
    requires ServiceInStep(r.service)
    ensures ServiceInStep(DerivePayment(r, responses, now).service)
    ensures DerivePayment(r, responses, now).config == r.config
    ensures DerivePayment(r, responses, now).service.provider == r.service.provider
  {
    MakeIsCoherent(r.service.lastEvent, r.service.provider, MostRecentResponse(responses), r.service.isPrepaid, None);
  }

  /** What a caller can check before a fee response is handled: if it is a success, the request it dispatches anew has no
      row left. */
  predicate FeeGuard(db: Db, id: string, responses: seq<PaymentResponse>) {
    var response := MostRecentResponse(responses);
    response.Some? && response.value.status.PaymentSucceeded? ==> NoneAllocated(db.appointments, id) && NoneAccepted(db.assignments, id)
  }

  /** Where the gateway is enabled, an unpaid request has no row that a fee response could leave behind. */
  lemma GatewayMeetsFeeGuard(db: Db, id: string, responses: seq<PaymentResponse>)
    requires InStep(db) && id in db.requests && !db.requests[id].IsPaid() && db.requests[id].config.paymentGatewayEnabled
    ensures FeeGuard(db, id, responses)
  {
    assert RowsInStep(db, id);
    UnassignedIsCleared(db, id);
  }

  /** A fee response to an unpaid request keeps the tables in step exactly if its guard holds. */
  lemma FeeSafeIff(db: Db, id: string, responses: seq<PaymentResponse>, now: int)
    requires InStep(db) && id in db.requests && !db.requests[id].IsPaid()
    ensures InStep(FeePaymentResponded(db, id, responses, now).db) <==> FeeGuard(db, id, responses)
  {
    var r' := DerivePayment(db.requests[id], responses, now);
    var saved := Save(db, id, r');
    assert RowsInStep(db, id);
    PaidService(db.requests[id], responses, now);
    SaveTouches(db, id, r');
    RebuiltIsOpen(r'.service.lastEvent, r'.service.provider, r'.service.lastResponse, r'.service.isPrepaid);
    assert RowsInStep(saved, id);
    TouchKeepsInStep(db, saved, id);
    if r'.IsPaid() {
      DispatchSafeIff(saved, id);
    }
  }

  lemma FeePaymentKeepsInStep(db: Db, id: string, responses: seq<PaymentResponse>, now: int)
    requires InStep(db)
    requires id in db.requests && !db.requests[id].IsPaid() ==>
               db.requests[id].config.paymentGatewayEnabled || FeeGuard(db, id, responses)
    ensures InStep(FeePaymentResponded(db, id, responses, now).db)
  {
    if id in db.requests && !db.requests[id].IsPaid() {
      if db.requests[id].config.paymentGatewayEnabled {
        GatewayMeetsFeeGuard(db, id, responses);
      }
      FeeSafeIff(db, id, responses, now);
    }
  }

  /** The timeout job expires requests that are unassigned and await their payment. */
  function ExpireTimedOut(db: Db, id: string, now: int): Db {
    if id !in db.requests || !db.requests[id].service.allocationStatus.Unassigned?
       || !db.requests[id].service.status.StatusAwaitingPayment? then db
    else
      var saved := Save(db, id, Expire(db.requests[id], now));
      saved.(assignments := UpdateAssignments(db.assignments, (a: AssignmentRow) => a.requestId == id && a.status.Pending?, AsgFailed))
  }

  lemma ExpiryTouches(db: Db, id: string, now: int)
    ensures OnlyTouches(db, ExpireTimedOut(db, id, now), id)
  {}

  lemma ExpiredService(r: Request, now: int)
    requires ServiceInStep(r.service)
    ensures ServiceInStep(Expire(r, now).service) && DispatcherId(Expire(r, now).service.provider).None?
  {
    NextIsCoherent(r.service, Expired);
  }

  lemma ExpireKeepsInStep(db: Db, id: string, now: int)
    requires InStep(db)
    ensures InStep(ExpireTimedOut(db, id, now))
  {
    var db' := ExpireTimedOut(db, id, now);
    if db' != db {
      assert RowsInStep(db, id);
      UnassignedIsCleared(db, id);
      ExpiredService(db.requests[id], now);
      ExpiryTouches(db, id, now);
      assert NoneAccepted(db'.assignments, id);
      ClearedKeepsInStep(db, db', id);
    }
  }

  function CreateRequest(db: Db, id: string, config: Config, appointment: Appointment): Db {
    if id in db.requests then db
    else db.(requests := db.requests[id := Request(New(config.paymentGatewayEnabled), appointment, EMPTY_ORDER, config, None)])
  }

  lemma CreateRequestKeepsInStep(db: Db, id: string, config: Config, appointment: Appointment)
    requires InStep(db)
    ensures InStep(CreateRequest(db, id, config, appointment))
  {
    var db' := CreateRequest(db, id, config, appointment);
    if db' != db {
      MakeIsCoherent(None, Some(EMPTY_PROVIDER), None, config.paymentGatewayEnabled, None);
      forall o | o in db'.requests
        ensures RowsInStep(db', o)
      {
        if o != id {
          assert RowsInStep(db, o);
        }
      }
    }
  }

  lemma OfferCommandKeepsInStep(db: Db, id: string, providerIds: seq<string>)
    requires InStep(db)
    ensures InStep(Offer(db, id, providerIds))
  {
    if id in db.requests {
      OfferKeepsInStep(db, id, Map(providerIds, p => AssignmentRow(id, p, Pending)));
    }
  }

  // ---------- Whole runs ----------

  datatype Command =
    | RequestCreated(id: string, config: Config, appointment: Appointment)
    | OffersSent(id: string, providerIds: seq<string>)
    | JobAccepted(id: string, sp: ServiceProvider)
    | JobAssigned(id: string, sp: ServiceProvider)
    | WorkerGiven(id: string, workerId: string, dealerId: string)
    | JobHandled(id: string, at: int, mayStart: bool)
    | JobCancelled(id: string, sp: ServiceProvider, at: int)
    | ConsumerCancelled(id: string, at: int)
    | JobRevoked(id: string, markAsFailed: bool, at: int)
    | CustomerRescheduled(id: string, arrival: Period, at: int)
    | AdminChanged(id: string, arrival: Period, at: int)
    | SurchargePaid(id: string, responses: seq<PaymentResponse>, at: int)
    | FeePaid(id: string, responses: seq<PaymentResponse>, at: int)
    | TimedOut(id: string, at: int)

  function Apply(db: Db, c: Command): Db {
    match c
    case RequestCreated(id, config, appointment) => CreateRequest(db, id, config, appointment)
    case OffersSent(id, ps) => Offer(db, id, ps)
    case JobAccepted(id, sp) => Accept(db, id, sp).db
    case JobAssigned(id, sp) => ManuallyAssign(db, id, sp).db
    case WorkerGiven(id, w, d) => Allocate(db, id, w, d).db
    case JobHandled(id, at, mayStart) => HandleJob(db, id, at, mayStart).db
    case JobCancelled(id, sp, at) => CancelJob(db, id, sp, at).db
    case ConsumerCancelled(id, at) => CancelByConsumer(db, id, at).db
    case JobRevoked(id, failed, at) => RevokeJob(db, id, failed, at).db
    case CustomerRescheduled(id, arrival, at) => CustomerReschedule(db, id, arrival, at).db
    case AdminChanged(id, arrival, at) => AdminChange(db, id, arrival, at).db
    case SurchargePaid(id, responses, at) => SurchargeResponded(db, id, responses, at).db
    case FeePaid(id, responses, at) => FeePaymentResponded(db, id, responses, at).db
    case TimedOut(id, at) => ExpireTimedOut(db, id, at)
  }

  const EMPTY_DB := Db(map[], [], [], [])

  function Run(cs: seq<Command>): Db {
    if cs == [] then EMPTY_DB else Apply(Run(cs[..|cs| - 1]), cs[|cs| - 1])
  }

  /** Fee responses come where the gateway is enabled or meet their guard, and surcharge responses meet theirs. */
  predicate MeetsGuard(db: Db, c: Command) {
    match c
    case FeePaid(id, responses, _) =>
      id in db.requests && !db.requests[id].IsPaid() ==> db.requests[id].config.paymentGatewayEnabled || FeeGuard(db, id, responses)
    case SurchargePaid(id, responses, _) => id in db.requests && !OrderIsPaid(db.requests[id].order) ==> SurchargeGuard(db, id, responses)
    case _ => true
  }

  predicate IsGuarded(cs: seq<Command>) {
    cs == [] || (IsGuarded(cs[..|cs| - 1]) && MeetsGuard(Run(cs[..|cs| - 1]), cs[|cs| - 1]))
  }

  lemma ApplyKeepsInStep(db: Db, c: Command)
    requires InStep(db) && MeetsGuard(db, c)
    ensures InStep(Apply(db, c))
  {
    match c
    case RequestCreated(id, config, appointment) => CreateRequestKeepsInStep(db, id, config, appointment);
    case OffersSent(id, ps) => OfferCommandKeepsInStep(db, id, ps);
    case JobAccepted(id, sp) => AcceptKeepsInStep(db, id, sp);
    case JobAssigned(id, sp) => ManuallyAssignKeepsInStep(db, id, sp);
    case WorkerGiven(id, w, d) => AllocateKeepsInStep(db, id, w, d);
    case JobHandled(id, at, mayStart) => HandleJobKeepsInStep(db, id, at, mayStart);
    case JobCancelled(id, sp, at) => CancelJobKeepsInStep(db, id, sp, at);
    case ConsumerCancelled(id, at) => CancelByConsumerKeepsInStep(db, id, at);
    case JobRevoked(id, failed, at) => RevokeJobKeepsInStep(db, id, failed, at);
    case CustomerRescheduled(id, arrival, at) => CustomerRescheduleKeepsInStep(db, id, arrival, at);
    case AdminChanged(id, arrival, at) => AdminChangeKeepsInStep(db, id, arrival, at);
    case SurchargePaid(id, responses, at) => SurchargeKeepsInStep(db, id, responses, at);
    case FeePaid(id, responses, at) => FeePaymentKeepsInStep(db, id, responses, at);
    case TimedOut(id, at) => ExpireKeepsInStep(db, id, at);
  }

  lemma AcceptKeepsInStep(db: Db, id: string, sp: ServiceProvider)
    requires InStep(db)
    ensures InStep(Accept(db, id, sp).db)
  {
    if id in db.requests && AttemptAssign(db.requests[id], sp).error.None? {
      TakeKeepsInStep(db, id, sp);
    }
  }

  lemma ManuallyAssignKeepsInStep(db: Db, id: string, sp: ServiceProvider)
    requires InStep(db)
    ensures InStep(ManuallyAssign(db, id, sp).db)
  {
    if id in db.requests && AttemptAssign(db.requests[id], sp).error.None? {
      OfferKeepsInStep(db, id, [AssignmentRow(id, sp.id, Pending)]);
      TakeKeepsInStep(db.(assignments := db.assignments + [AssignmentRow(id, sp.id, Pending)]), id, sp);
    }
  }

  lemma SurchargeKeepsInStep(db: Db, id: string, responses: seq<PaymentResponse>, now: int)
    requires InStep(db) && (id in db.requests && !OrderIsPaid(db.requests[id].order) ==> SurchargeGuard(db, id, responses))
    ensures InStep(SurchargeResponded(db, id, responses, now).db)
  {
    if id in db.requests && !OrderIsPaid(db.requests[id].order) && SurchargeResponded(db, id, responses, now).error.None? {
      SurchargeSafeIff(db, id, responses, now);
    }
  }

  lemma {:induction false} RunIsInStep(cs: seq<Command>)
    requires IsGuarded(cs)
    ensures InStep(Run(cs))
  {
    if cs != [] {
      RunIsInStep(cs[..|cs| - 1]);
      ApplyKeepsInStep(Run(cs[..|cs| - 1]), cs[|cs| - 1]);
    }
  }

  /** Over every guarded run each request has at most one allocated appointment, whose worker and dispatcher are the
      service's current ones, and it only has one while it is neither cancelled nor unpaid. */
  lemma AllocatedOverEveryRun(cs: seq<Command>, id: string, i: nat, j: nat)
    requires IsGuarded(cs) && id in Run(cs).requests
    requires i < |Run(cs).appointments| && IsAllocatedRow(Run(cs).appointments[i], id)
    requires j < |Run(cs).appointments| && IsAllocatedRow(Run(cs).appointments[j], id)
    ensures var row := Run(cs).appointments[i]; var r := Run(cs).requests[id];
            && i == j
            && row.workerId.Some? && row.workerId == WorkerId(r.service.provider)
            && row.dispatcherId == DispatcherId(r.service.provider)
            && r.service.allocationStatus.Allocated? && !IsCancelled(r.service.status)
            && (r.config.paymentGatewayEnabled ==> r.IsPaid())
  {
    RunIsInStep(cs);
    assert RowsInStep(Run(cs), id);
  }

  /** Over every guarded run every accepted assignment belongs to the current dispatcher of its request. */
  lemma AcceptedOverEveryRun(cs: seq<Command>, id: string, k: nat)
    requires IsGuarded(cs) && id in Run(cs).requests
    requires k < |Run(cs).assignments| && IsAcceptedRow(Run(cs).assignments[k], id)
    ensures DispatcherId(Run(cs).requests[id].service.provider) == Some(Run(cs).assignments[k].providerId)
    ensures Run(cs).requests[id].service.allocationStatus.Assigned? || Run(cs).requests[id].service.allocationStatus.Allocated?
  {
    RunIsInStep(cs);
    assert RowsInStep(Run(cs), id);
  }
}
