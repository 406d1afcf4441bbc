/** The derived-status value object of a service request, and its transitions. Times are in milliseconds. */
module ServiceEntity {
  import opened Wrappers
  import opened Sorting

  datatype EventType = Start | InProgress | Fulfil

  datatype HandlingEvent = HandlingEvent(createdAt: int, kind: EventType)

  datatype PaymentStatus = AwaitingPayment | PaymentFailed | PaymentSucceeded

  datatype PaymentResponse = PaymentResponse(createdAt: int, status: PaymentStatus)

  datatype Period = Period(start: int, end: int)

  /** `None` stands for an agent object without an id. */
  datatype Agent = Agent(id: Option<string>)

  /** A dispatcher or worker that is `None` is null, which differs from an agent without an id. */
  datatype Provider = Provider(dispatcher: Option<Agent>, worker: Option<Agent>, schedule: Option<Period>)

  datatype AllocationStatus = Unassigned | Assigned | Allocated

  datatype Status =
    | StatusAwaitingPayment | StatusFailedPayment
    | StatusUnassigned | StatusAssigned | StatusAllocated
    | StatusStarted | StatusInProgress | StatusFulfilled
    | StatusFailed | CancelledByServiceProvider | CancelledByOperator | CancelledByCustomer

  datatype ActionType = RequestJob | AllocateWorker | ActionStart | ActionInProgress | ActionFulfil | Idle

  datatype ProviderKind = Dealer | Independent | Worker

  /** A registered service provider; `workers` are the workers of a dealer. */
  datatype ServiceProvider = ServiceProvider(id: string, kind: ProviderKind, active: bool, workers: seq<string>)

  datatype Error =
    | JobTaken | JobUnpaid | DispatcherIsWorker | NotAssignedToYou | WorkerMayNotCancel | AlreadyCancelled | AlreadyFulfilled
    | NoDispatcher | NotAllocated | RescheduleNotAllowed | SameStart | InsideArrivalWindow | SurchargeUnpaid | EmptyOrder | PaymentMissing
    | NotPaid | AlreadyRescheduled | Terminated | WindowPast | TooEarly | RequestNotFound | Inactive | Overlapping | Occupied

  datatype Service = Service(
    lastEvent: Option<HandlingEvent>,
    provider: Option<Provider>,
    lastResponse: Option<PaymentResponse>,
    isPrepaid: bool,
    paymentStatus: PaymentStatus,
    allocationStatus: AllocationStatus,
    status: Status,
    nextActionType: ActionType)

  /** Sorts by creation time and takes the last. */
  function MostRecentEvent(events: seq<HandlingEvent>): Option<HandlingEvent> {
    if events == [] then None else Some(Sort(events, (e: HandlingEvent) => e.createdAt)[|events| - 1])
  }

  function MostRecentResponse(responses: seq<PaymentResponse>): Option<PaymentResponse> {
    if responses == [] then None else Some(Sort(responses, (r: PaymentResponse) => r.createdAt)[|responses| - 1])
  }

  /** An event later than all others is the most recent one, wherever it stands. */
  lemma LatestEventWins(events: seq<HandlingEvent>, e: HandlingEvent)
    requires e in events && forall f :: f in events && f != e ==> f.createdAt < e.createdAt
    ensures MostRecentEvent(events) == Some(e)
  {
    var key := (f: HandlingEvent) => f.createdAt;
    var sorted := Sort(events, key);
    SortSorted(events, key);
    var k :| 0 <= k < |sorted| && sorted[k] == e;
    assert sorted[|sorted| - 1] in sorted && key(sorted[k]) <= key(sorted[|sorted| - 1]);
  }

  /** A response later than all others is the most recent one, wherever it stands. */
  lemma LatestResponseWins(responses: seq<PaymentResponse>, r: PaymentResponse)
    requires r in responses && forall q :: q in responses && q != r ==> q.createdAt < r.createdAt
    ensures MostRecentResponse(responses) == Some(r)
  {
    var key := (q: PaymentResponse) => q.createdAt;
    var sorted := Sort(responses, key);
    SortSorted(responses, key);
    var k :| 0 <= k < |sorted| && sorted[k] == r;
    assert sorted[|sorted| - 1] in sorted && key(sorted[k]) <= key(sorted[|sorted| - 1]);
  }

  function AgentId(a: Option<Agent>): Option<string> {
    if a.Some? then a.value.id else None
  }

  function DispatcherId(p: Option<Provider>): Option<string> {
    if p.Some? then AgentId(p.value.dispatcher) else None
  }

  function WorkerId(p: Option<Provider>): Option<string> {
    if p.Some? then AgentId(p.value.worker) else None
  }

  function CalculateAllocationStatus(p: Option<Provider>): AllocationStatus {
    if p.None? then Unassigned
    else if p.value.dispatcher.None? && p.value.worker.None? then Unassigned
    else if DispatcherId(p).Some? && WorkerId(p).None? then Assigned
    else if DispatcherId(p).Some? && WorkerId(p).Some? then Allocated
    else Unassigned
  }

  predicate IsCancelled(s: Status) {
    s.CancelledByOperator? || s.StatusFailed? || s.CancelledByServiceProvider? || s.CancelledByCustomer?
  }

  /** A service under construction has no status yet, so nothing here looks at an earlier cancellation. */
  function CalculateStatus(lastEvent: Option<HandlingEvent>, isPrepaid: bool, payment: PaymentStatus, allocation: AllocationStatus): Status {
    if isPrepaid && lastEvent.None? && !payment.PaymentSucceeded? then StatusAwaitingPayment
    else
      match lastEvent
      case None =>
        (match allocation
         case Unassigned => StatusUnassigned
         case Assigned => StatusAssigned
         case Allocated => StatusAllocated)
      case Some(e) =>
        match e.kind
        case Start => StatusStarted
        case InProgress => StatusInProgress
        case Fulfil => StatusFulfilled
  }

  function CalculateNextAction(s: Status, allocation: AllocationStatus): ActionType {
    if IsCancelled(s) then Idle
    else
      match allocation
      case Unassigned => RequestJob
      case Assigned => AllocateWorker
      case Allocated =>
        match s
        case StatusAllocated => ActionStart
        case StatusStarted => ActionInProgress
        case _ => ActionFulfil
  }

  function Make(lastEvent: Option<HandlingEvent>, provider: Option<Provider>, lastResponse: Option<PaymentResponse>,
                isPrepaid: bool, cancellation: Option<Status>): Service {
    var payment := if lastResponse.Some? then lastResponse.value.status else AwaitingPayment;
    var allocation := CalculateAllocationStatus(provider);
    var status := if cancellation.Some? then cancellation.value else CalculateStatus(lastEvent, isPrepaid, payment, allocation);
    Service(lastEvent, provider, lastResponse, isPrepaid, payment, allocation, status, CalculateNextAction(status, allocation))
  }

  const EMPTY_PROVIDER := Provider(Some(Agent(None)), Some(Agent(None)), None)

  function New(isPrepaid: bool): Service {
    Make(None, Some(EMPTY_PROVIDER), None, isPrepaid, None)
  }

  function DerivedFromEvents(s: Service, events: seq<HandlingEvent>): Service {
    Make(MostRecentEvent(events), s.provider, s.lastResponse, s.isPrepaid, None)
  }

  function DerivedFromResponses(s: Service, responses: seq<PaymentResponse>): Service {
    Make(s.lastEvent, s.provider, MostRecentResponse(responses), s.isPrepaid, None)
  }

  function Restart(s: Service): Service {
    Make(None, None, s.lastResponse, s.isPrepaid, None)
  }

  function AssignToDispatcher(s: Service, id: string): Service {
    Make(s.lastEvent, Some(Provider(Some(Agent(Some(id))), None, None)), s.lastResponse, s.isPrepaid, None)
  }

  /** Fails, as the provider's constructor does, when the provider has no dispatcher. With no provider at all the
      constructor takes the call for a hydration, and the rebuilt service has no provider either. */
  function AllocateToWorker(s: Service, id: string, schedule: Period): Result<Service, Error> {
    if s.provider.None? then Ok(Make(s.lastEvent, None, s.lastResponse, s.isPrepaid, None))
    else if DispatcherId(s.provider).None? then Err(NoDispatcher)
    else Ok(Make(s.lastEvent, Some(Provider(s.provider.value.dispatcher, Some(Agent(Some(id))), Some(schedule))),
                 s.lastResponse, s.isPrepaid, None))
  }

  function TerminateProvider(s: Service, cancellation: Option<Status>): Service {
    Make(s.lastEvent, Some(EMPTY_PROVIDER), s.lastResponse, s.isPrepaid, cancellation)
  }

  predicate IsAssignedOrAllocatedTo(s: Service, id: string) {
    DispatcherId(s.provider) == Some(id) || WorkerId(s.provider) == Some(id)
  }

  predicate HasBeenAssignedOrAllocated(s: Service) {
    !s.allocationStatus.Unassigned?
  }

  function Cancel(s: Service, canceller: ServiceProvider): Result<Service, Error> {
    if !IsAssignedOrAllocatedTo(s, canceller.id) then Err(NotAssignedToYou)
    else if canceller.kind.Worker? then Err(WorkerMayNotCancel)
    else if IsCancelled(s.status) then Err(AlreadyCancelled)
    else if s.status.StatusFulfilled? then Err(AlreadyFulfilled)
    else Ok(TerminateProvider(s, Some(CancelledByServiceProvider)))
  }

  function CancelByCustomer(s: Service): Service {
    TerminateProvider(s, Some(CancelledByCustomer))
  }

  function Revoke(s: Service, markAsFailed: bool): Service {
    if markAsFailed then Make(s.lastEvent, s.provider, s.lastResponse, s.isPrepaid, Some(StatusFailed))
    else TerminateProvider(s, Some(CancelledByOperator))
  }

  function Reschedule(s: Service): Service {
    TerminateProvider(s, None)
  }

  /** Writes the failed payment and its status over a rebuilt service. */
  function ExpiredBySystem(s: Service): Service {
    Make(None, Some(EMPTY_PROVIDER), s.lastResponse, s.isPrepaid, None).(paymentStatus := PaymentFailed, status := StatusFailedPayment)
  }

  function NextEventType(s: Service): Result<EventType, Error> {
    if s.status.StatusFulfilled? then Err(AlreadyFulfilled)
    else if s.status.CancelledByServiceProvider? then Err(AlreadyCancelled)
    else if s.allocationStatus.Assigned? then Err(NotAllocated)
    else
      match s.status
      case StatusAllocated => Ok(Start)
      case StatusStarted => Ok(InProgress)
      case _ => Ok(Fulfil)
  }

  // ---------- Every reachable service ----------

  datatype Transition =
    | EventsHandled(events: seq<HandlingEvent>)
    | PaymentsReceived(responses: seq<PaymentResponse>)
    | Restarted
    | DispatcherAssigned(dispatcherId: string)
    | WorkerAllocated(workerId: string, schedule: Period)
    | ProviderCancelled(canceller: ServiceProvider)
    | CustomerCancelled
    | Revoked(markAsFailed: bool)
    | Rescheduled
    | Expired

  function OrSame(s: Service, r: Result<Service, Error>): Service {
    if r.Ok? then r.value else s
  }

  /** A transition that throws leaves the service as it was. */
  function Next(s: Service, t: Transition): Service {
    match t
    case EventsHandled(events) => DerivedFromEvents(s, events)
    case PaymentsReceived(responses) => DerivedFromResponses(s, responses)
    case Restarted => Restart(s)
    case DispatcherAssigned(id) => AssignToDispatcher(s, id)
    case WorkerAllocated(id, schedule) => OrSame(s, AllocateToWorker(s, id, schedule))
    case ProviderCancelled(canceller) => OrSame(s, Cancel(s, canceller))
    case CustomerCancelled => CancelByCustomer(s)
    case Revoked(markAsFailed) => Revoke(s, markAsFailed)
    case Rescheduled => Reschedule(s)
    case Expired => ExpiredBySystem(s)
  }

  function Reached(isPrepaid: bool, ts: seq<Transition>): Service {
    if ts == [] then New(isPrepaid) else Next(Reached(isPrepaid, ts[..|ts| - 1]), ts[|ts| - 1])
  }

  /** What the stored, redundant fields of a service mean. */
  ghost predicate Coherent(s: Service) {
    && (s.allocationStatus.Allocated? <==> DispatcherId(s.provider).Some? && WorkerId(s.provider).Some?)
    && (s.allocationStatus.Assigned? <==> DispatcherId(s.provider).Some? && WorkerId(s.provider).None?)
    && (WorkerId(s.provider).Some? ==> DispatcherId(s.provider).Some?)
    && s.nextActionType == CalculateNextAction(s.status, s.allocationStatus)
    && (s.isPrepaid && (s.status.StatusUnassigned? || s.status.StatusAssigned? || s.status.StatusAllocated?) ==> s.paymentStatus.PaymentSucceeded?)
    && (s.status.StatusUnassigned? ==> s.allocationStatus.Unassigned? && s.lastEvent.None?)
    && (s.status.StatusAssigned? ==> s.allocationStatus.Assigned? && s.lastEvent.None?)
    && (s.status.StatusAllocated? ==> s.allocationStatus.Allocated? && s.lastEvent.None?)
    && (s.status.StatusFulfilled? ==> s.lastEvent.Some? && s.lastEvent.value.kind.Fulfil?)
  }

  /** A worker is only ever stored under a dispatcher. */
  predicate IsWellFormed(p: Option<Provider>) {
    WorkerId(p).Some? ==> DispatcherId(p).Some?
  }

  lemma MakeIsCoherent(lastEvent: Option<HandlingEvent>, provider: Option<Provider>, lastResponse: Option<PaymentResponse>,
                       isPrepaid: bool, cancellation: Option<Status>)
    requires IsWellFormed(provider)
    requires cancellation.Some? ==> IsCancelled(cancellation.value)
    ensures Coherent(Make(lastEvent, provider, lastResponse, isPrepaid, cancellation))
  {}

  lemma NextIsCoherent(s: Service, t: Transition)
    requires Coherent(s)
    ensures Coherent(Next(s, t)) && Next(s, t).isPrepaid == s.isPrepaid
  {
    var s' := Next(s, t);
    if s' != s && !t.Expired? {
      MakeIsCoherent(s'.lastEvent, s'.provider, s'.lastResponse, s'.isPrepaid, if IsCancelled(s'.status) then Some(s'.status) else None);
    }
  }

  /** In every reachable service the allocation status follows from the agent ids, the next action from the status and
      the allocation status, and a prepaid service that is open, assigned or allocated has been paid. */
  lemma {:induction false} ReachedIsCoherent(isPrepaid: bool, ts: seq<Transition>)
    ensures Coherent(Reached(isPrepaid, ts)) && Reached(isPrepaid, ts).isPrepaid == isPrepaid
  {
    if ts == [] {
      MakeIsCoherent(None, Some(EMPTY_PROVIDER), None, isPrepaid, None);
    } else {
      ReachedIsCoherent(isPrepaid, ts[..|ts| - 1]);
      NextIsCoherent(Reached(isPrepaid, ts[..|ts| - 1]), ts[|ts| - 1]);
    }
  }

  /** The status that the newest event, the payment and the agents call for, in this order. */
  predicate StatusFollows(s: Service) {
    && s.paymentStatus == (if s.lastResponse.Some? then s.lastResponse.value.status else AwaitingPayment)
    && s.status ==
         if s.lastEvent.Some? then Stage(s.lastEvent.value.kind)
         else if s.isPrepaid && !s.paymentStatus.PaymentSucceeded? then StatusAwaitingPayment
         else if DispatcherId(s.provider).None? then StatusUnassigned
         else if WorkerId(s.provider).None? then StatusAssigned
         else StatusAllocated
  }

  /** The action that the status and the agents leave to do. */
  predicate ActionFollows(s: Service) {
    s.nextActionType ==
      if IsCancelled(s.status) then Idle
      else if DispatcherId(s.provider).None? then RequestJob
      else if WorkerId(s.provider).None? then AllocateWorker
      else if s.status.StatusAllocated? then ActionStart
      else if s.status.StatusStarted? then ActionInProgress
      else ActionFulfil
  }

  lemma RebuiltFollows(lastEvent: Option<HandlingEvent>, provider: Option<Provider>, lastResponse: Option<PaymentResponse>, isPrepaid: bool)
    requires IsWellFormed(provider)
    ensures StatusFollows(Make(lastEvent, provider, lastResponse, isPrepaid, None))
  {}

  /** The next action is what the status and the agents leave to do, and the status is what the newest event, the payment and
      the agents call for, unless the request is cancelled, failed or expired. */
  predicate Follows(s: Service) {
    ActionFollows(s) && (!IsCancelled(s.status) && !s.status.StatusFailedPayment? ==> StatusFollows(s))
  }

  lemma NextFollows(s: Service, t: Transition)
    requires Coherent(s) && Follows(s)
    ensures Follows(Next(s, t))
  {
    var s' := Next(s, t);
    NextIsCoherent(s, t);
    if s' != s && !IsCancelled(s'.status) && !t.Expired? {
      RebuiltFollows(s'.lastEvent, s'.provider, s'.lastResponse, s'.isPrepaid);
    }
  }

  lemma {:induction false} ReachedFollows(isPrepaid: bool, ts: seq<Transition>)
    ensures Follows(Reached(isPrepaid, ts))
  {
    if ts == [] {
      RebuiltFollows(None, Some(EMPTY_PROVIDER), None, isPrepaid);
    } else {
      ReachedFollows(isPrepaid, ts[..|ts| - 1]);
      ReachedIsCoherent(isPrepaid, ts[..|ts| - 1]);
      NextFollows(Reached(isPrepaid, ts[..|ts| - 1]), ts[|ts| - 1]);
    }
  }

  /** The service after its next event is recorded at time `at`; a refused event changes nothing. */
  function Handle(s: Service, events: seq<HandlingEvent>, at: int): (Service, seq<HandlingEvent>) {
    match NextEventType(s)
    case Err(_) => (s, events)
    case Ok(kind) =>
      var events' := events + [HandlingEvent(at, kind)];
      (DerivedFromEvents(s, events'), events')
  }

  function Stage(kind: EventType): Status {
    match kind
    case Start => StatusStarted
    case InProgress => StatusInProgress
    case Fulfil => StatusFulfilled
  }

  /** An event newer than all others decides the status and leaves the allocation alone. */
  lemma HandleTakesNewest(s: Service, events: seq<HandlingEvent>, at: int)
    requires Coherent(s) && NextEventType(s).Ok?
    requires forall e :: e in events ==> e.createdAt < at
    ensures var (s', events') := Handle(s, events, at);
            && Coherent(s') && s'.status == Stage(NextEventType(s).value) && s'.allocationStatus == s.allocationStatus
            && forall e :: e in events' ==> e.createdAt <= at
  {
    var e := HandlingEvent(at, NextEventType(s).value);
    LatestEventWins(events + [e], e);
    MakeIsCoherent(Some(e), s.provider, s.lastResponse, s.isPrepaid, None);
  }

  lemma LastEventCompletes(s: Service, events: seq<HandlingEvent>, c: int, d: int)
    requires Coherent(s) && s.status.StatusInProgress? && s.allocationStatus.Allocated?
    requires forall e :: e in events ==> e.createdAt < c
    ensures var (s', events') := Handle(s, events, c);
            s'.status.StatusFulfilled? && Handle(s', events', d) == (s', events')
  {
    HandleTakesNewest(s, events, c);
  }

  lemma TwoEventsComplete(s: Service, events: seq<HandlingEvent>, b: int, c: int, d: int)
    requires Coherent(s) && s.status.StatusStarted? && s.allocationStatus.Allocated?
    requires (forall e :: e in events ==> e.createdAt < b) && b < c
    ensures var (s2, e2) := Handle(s, events, b);
            var (s3, e3) := Handle(s2, e2, c);
            s2.status.StatusInProgress? && s3.status.StatusFulfilled? && Handle(s3, e3, d) == (s3, e3)
  {
    HandleTakesNewest(s, events, b);
    var (s2, e2) := Handle(s, events, b);
    LastEventCompletes(s2, e2, c, d);
  }

  /** From an allocated service without events, whatever events of earlier attempts remain, exactly three events at
      increasing times complete the job; a fourth is refused. */
  lemma ThreeEventsComplete(s: Service, events: seq<HandlingEvent>, a: int, b: int, c: int, d: int)
    requires Coherent(s) && s.status.StatusAllocated?
    requires (forall e :: e in events ==> e.createdAt < a) && a < b < c
    ensures var (s1, e1) := Handle(s, events, a);
            var (s2, e2) := Handle(s1, e1, b);
            var (s3, e3) := Handle(s2, e2, c);
            && s1.status.StatusStarted? && s2.status.StatusInProgress? && s3.status.StatusFulfilled?
            && Handle(s3, e3, d) == (s3, e3)
  {
    HandleTakesNewest(s, events, a);
    var (s1, e1) := Handle(s, events, a);
    TwoEventsComplete(s1, e1, b, c, d);
  }

  // ---------- Cancellation is not absorbing ----------

  /** The transitions that leave a cancelled or failed service cancelled: another cancellation or revocation, and one
      that throws. All others rebuild the service without its cancellation. */
  predicate KeepsCancellation(s: Service, t: Transition) {
    || t.ProviderCancelled? || t.CustomerCancelled? || t.Revoked?
    || (t.WorkerAllocated? && s.provider.Some? && DispatcherId(s.provider).None?)
  }

  lemma RebuiltIsOpen(lastEvent: Option<HandlingEvent>, provider: Option<Provider>, lastResponse: Option<PaymentResponse>, isPrepaid: bool)
    ensures !IsCancelled(Make(lastEvent, provider, lastResponse, isPrepaid, None).status)
  {}

  lemma CancellationKeptIff(s: Service, t: Transition)
    requires IsCancelled(s.status)
    ensures IsCancelled(Next(s, t).status) <==> KeepsCancellation(s, t)
  {
    var s' := Next(s, t);
    RebuiltIsOpen(s'.lastEvent, s'.provider, s'.lastResponse, s'.isPrepaid);
  }

  /** A request that an operator marks as failed is failed, and open again once a payment response arrives. */
  lemma CancellationIsForgotten(isPrepaid: bool, responses: seq<PaymentResponse>)
    ensures IsCancelled(Reached(isPrepaid, [Revoked(true)]).status)
    ensures !IsCancelled(Reached(isPrepaid, [Revoked(true), PaymentsReceived(responses)]).status)
  {
    assert [Revoked(true), PaymentsReceived(responses)][..1] == [Revoked(true)] && [Revoked(true)][..0] == [];
    CancellationKeptIff(Reached(isPrepaid, [Revoked(true)]), PaymentsReceived(responses));
  }
}
