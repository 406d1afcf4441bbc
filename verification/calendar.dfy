/** When two schedules overlap, and the calendar of an independent provider over every run. */
module Calendar {
  import opened Wrappers
  import opened ServiceEntity
  import opened ServiceRequests
  import opened Dispatching
  import opened DispatchRuns

  predicate IsPeriod(p: Period) {
    p.start <= p.end
  }

  /** The closed periods share a point. */
  predicate Intersects(a: Period, b: Period) {
    (b.start <= a.start <= b.end) || (a.start <= b.start <= a.end)
  }

  predicate IsStrictlyInside(a: Period, b: Period) {
    b.start < a.start && a.end < b.end
  }

  /** The overlap query misses exactly the appointments strictly inside the new schedule. */
  lemma QueryMissesOnlyInner(a: Period, schedule: Period)
    requires IsPeriod(a) && IsPeriod(schedule)
    ensures QueryOverlaps(a, schedule) <==> Intersects(a, schedule) && !IsStrictlyInside(a, schedule)
  {}

  /** An appointment from 2 to 3 is missed by a schedule from 1 to 4, which intersects it. */
  lemma QueryMissesAnInnerAppointment()
    ensures !QueryOverlaps(Period(2, 3), Period(1, 4)) && Intersects(Period(2, 3), Period(1, 4))
  {}

  /** Seconds since the epoch, as the entity's own overlap test counts them. */
  function Unix(t: int): int {
    t / 1000
  }

  function UnixPeriod(p: Period): Period {
    Period(Unix(p.start), Unix(p.end))
  }

  /** The entity's test of a worker's schedule against the appointment. */
  predicate EntityOverlaps(a: Appointment, start: int, end: int) {
    Intersects(UnixPeriod(Period(a.arrival.start, a.arrival.start + a.totalServiceMinutes * MINUTE)), UnixPeriod(Period(start, end)))
  }

  lemma UnixMonotone(t: int, u: int)
    requires t <= u
    ensures Unix(t) <= Unix(u)
  {}

  /** The entity's test never misses an overlap that the query finds; on whole seconds it finds exactly what the query
      finds and the inner appointments. */
  lemma EntityAndQueryAgree(a: Appointment, held: Period)
    requires IsPeriod(held) && a.totalServiceMinutes >= 0 && a.schedule == Period(a.arrival.start, a.arrival.start + a.totalServiceMinutes * MINUTE)
    ensures QueryOverlaps(held, a.schedule) ==> EntityOverlaps(a, held.start, held.end)
    ensures held.start % 1000 == held.end % 1000 == a.arrival.start % 1000 == 0 ==>
              (EntityOverlaps(a, held.start, held.end) <==> QueryOverlaps(held, a.schedule) || IsStrictlyInside(held, a.schedule))
  {
    var s := a.schedule;
    assert s.end - s.start == 1000 * (60 * a.totalServiceMinutes);
    if held.start <= s.end { UnixMonotone(held.start, s.end); }
    if s.start <= held.end { UnixMonotone(s.start, held.end); }
    if s.start <= held.start { UnixMonotone(s.start, held.start); } else { UnixMonotone(held.start, s.start); }
  }

  // ---------- The calendar of one worker ----------

  predicate IsHeldBy(a: AppointmentRow, workerId: string) {
    a.status.ApptAllocated? && a.workerId == Some(workerId)
  }

  /** The worker's allocated appointments have proper schedules and no two of them overlap. */
  predicate IsDisjoint(rows: seq<AppointmentRow>, workerId: string) {
    && (forall i :: 0 <= i < |rows| && IsHeldBy(rows[i], workerId) ==> rows[i].schedule.Some? && IsPeriod(rows[i].schedule.value))
    && (forall i, j :: 0 <= i < j < |rows| && IsHeldBy(rows[i], workerId) && IsHeldBy(rows[j], workerId) ==>
          !Intersects(rows[i].schedule.value, rows[j].schedule.value))
  }

  predicate HasProperAppointment(r: Request) {
    r.appointment.totalServiceMinutes >= 0 && IsPeriod(r.appointment.schedule)
  }

  predicate CalendarInStep(db: Db, workerId: string) {
    IsDisjoint(db.appointments, workerId) && (forall id :: id in db.requests ==> HasProperAppointment(db.requests[id]))
  }

  /** The job strictly contains no appointment the worker holds. */
  predicate ContainsNone(db: Db, id: string, workerId: string) {
    id in db.requests ==> forall a :: a in db.appointments && IsHeldBy(a, workerId) && a.schedule.Some? ==>
      !IsStrictlyInside(a.schedule.value, db.requests[id].appointment.schedule)
  }

  /** The worker is never given a job by a dealer, and takes no job that strictly contains one the worker holds. */
  predicate MeetsCalendarGuard(db: Db, c: Command, workerId: string) {
    match c
    case RequestCreated(_, _, a) => a.totalServiceMinutes >= 0 && IsPeriod(a.schedule)
    case JobAccepted(id, sp) => sp.id == workerId ==> sp.kind.Independent? && ContainsNone(db, id, workerId)
    case JobAssigned(id, sp) => sp.id == workerId ==> sp.kind.Independent? && ContainsNone(db, id, workerId)
    case WorkerGiven(_, w, _) => w != workerId
    case _ => true
  }

  /** No row becomes one that the worker holds. */
  predicate HoldsNoMore(rows: seq<AppointmentRow>, rows': seq<AppointmentRow>, workerId: string) {
    forall i :: 0 <= i < |rows'| && IsHeldBy(rows'[i], workerId) ==> i < |rows| && rows'[i] == rows[i]
  }

  lemma HoldsNoMoreKeepsDisjoint(rows: seq<AppointmentRow>, rows': seq<AppointmentRow>, workerId: string)
    requires IsDisjoint(rows, workerId) && HoldsNoMore(rows, rows', workerId)
    ensures IsDisjoint(rows', workerId)
  {}

  /** A job that the query lets the worker take is disjoint from all that the worker holds. */
  lemma TakenJobIsDisjoint(rows: seq<AppointmentRow>, workerId: string, schedule: Period)
    requires IsDisjoint(rows, workerId) && IsPeriod(schedule) && !IsBusy(rows, workerId, schedule)
    requires forall a :: a in rows && IsHeldBy(a, workerId) && a.schedule.Some? ==> !IsStrictlyInside(a.schedule.value, schedule)
    ensures forall i :: 0 <= i < |rows| && IsHeldBy(rows[i], workerId) ==> !Intersects(rows[i].schedule.value, schedule)
  {
    forall i | 0 <= i < |rows| && IsHeldBy(rows[i], workerId)
      ensures !Intersects(rows[i].schedule.value, schedule)
    {
      assert rows[i] in rows;
      QueryMissesOnlyInner(rows[i].schedule.value, schedule);
    }
  }

  /** What inserting the taken job's appointment does to the worker's calendar. */
  lemma InsertKeepsDisjoint(db: Db, id: string, r: Request, workerId: string, schedule: Period)
    requires IsDisjoint(db.appointments, workerId) && IsPeriod(schedule)
    requires WorkerId(r.service.provider) == Some(workerId) ==>
               && r.service.provider.value.schedule == Some(schedule)
               && (forall i :: 0 <= i < |db.appointments| && IsHeldBy(db.appointments[i], workerId) ==>
                     !Intersects(db.appointments[i].schedule.value, schedule))
    ensures IsDisjoint(OnAllocated(db, id, r).appointments, workerId)
  {
    var rows, rows' := db.appointments, OnAllocated(db, id, r).appointments;
    assert forall i :: 0 <= i < |rows| ==> (rows + [NewAppointment(id, r)])[i] == rows[i];
    assert forall i :: 0 <= i < |rows| && IsHeldBy(rows'[i], workerId) ==> rows'[i] == rows[i];
    if WorkerId(r.service.provider) != Some(workerId) {
      HoldsNoMoreKeepsDisjoint(rows, rows', workerId);
    }
  }

  lemma TakeKeepsCalendar(db: Db, id: string, sp: ServiceProvider, workerId: string)
    requires id in db.requests && CalendarInStep(db, workerId)
    requires AttemptAssign(db.requests[id], sp).error.None?
    requires sp.id == workerId ==>
               ContainsNone(db, id, workerId) && !IsBusy(db.appointments, workerId, db.requests[id].appointment.schedule)
    ensures CalendarInStep(Take(db, id, sp).db, workerId)
  {
    var r' := AttemptAssign(db.requests[id], sp).request;
    var schedule := db.requests[id].appointment.schedule;
    assert r'.appointment == db.requests[id].appointment;
    var db1 := OnAccepted(Save(db, id, r'), id, sp.id);
    if WorkerId(r'.service.provider) == Some(sp.id) {
      if sp.id == workerId {
        TakenJobIsDisjoint(db.appointments, workerId, schedule);
      }
      InsertKeepsDisjoint(db1, id, r', workerId, schedule);
    }
  }

  lemma QuietCommand(db: Db, c: Command, workerId: string)
    requires CalendarInStep(db, workerId) && MeetsCalendarGuard(db, c, workerId)
    requires !c.JobAccepted? && !c.JobAssigned? && !c.WorkerGiven?
    ensures HoldsNoMore(db.appointments, Apply(db, c).appointments, workerId)
  {}

  lemma ProperReschedule(db: Db, c: Command)
    requires forall id :: id in db.requests ==> HasProperAppointment(db.requests[id])
    requires c.CustomerRescheduled? || c.AdminChanged?
    ensures forall id :: id in Apply(db, c).requests ==> HasProperAppointment(Apply(db, c).requests[id])
  {}

  lemma ProperSurcharge(db: Db, c: Command)
    requires forall id :: id in db.requests ==> HasProperAppointment(db.requests[id])
    requires c.SurchargePaid?
    ensures forall id :: id in Apply(db, c).requests ==> HasProperAppointment(Apply(db, c).requests[id])
  {}

  lemma ProperTake(db: Db, c: Command)
    requires forall id :: id in db.requests ==> HasProperAppointment(db.requests[id])
    requires c.JobAccepted? || c.JobAssigned? || c.WorkerGiven?
    ensures forall id :: id in Apply(db, c).requests ==> HasProperAppointment(Apply(db, c).requests[id])
  {}

  lemma ProperProgress(db: Db, c: Command)
    requires forall id :: id in db.requests ==> HasProperAppointment(db.requests[id])
    requires c.JobHandled? || c.FeePaid?
    ensures forall id :: id in Apply(db, c).requests ==> HasProperAppointment(Apply(db, c).requests[id])
  {}

  lemma ProperEnd(db: Db, c: Command)
    requires forall id :: id in db.requests ==> HasProperAppointment(db.requests[id])
    requires c.JobCancelled? || c.ConsumerCancelled? || c.JobRevoked? || c.TimedOut?
    ensures forall id :: id in Apply(db, c).requests ==> HasProperAppointment(Apply(db, c).requests[id])
  {}

  lemma ProperStart(db: Db, c: Command)
    requires forall id :: id in db.requests ==> HasProperAppointment(db.requests[id])
    requires c.RequestCreated? || c.OffersSent?
    requires c.RequestCreated? ==> c.appointment.totalServiceMinutes >= 0 && IsPeriod(c.appointment.schedule)
    ensures forall id :: id in Apply(db, c).requests ==> HasProperAppointment(Apply(db, c).requests[id])
  {}

  lemma ProperCommand(db: Db, c: Command)
    requires forall id :: id in db.requests ==> HasProperAppointment(db.requests[id])
    requires c.RequestCreated? ==> c.appointment.totalServiceMinutes >= 0 && IsPeriod(c.appointment.schedule)
    ensures forall id :: id in Apply(db, c).requests ==> HasProperAppointment(Apply(db, c).requests[id])
  {
    if c.CustomerRescheduled? || c.AdminChanged? {
      ProperReschedule(db, c);
    } else if c.SurchargePaid? {
      ProperSurcharge(db, c);
    } else if c.JobAccepted? || c.JobAssigned? || c.WorkerGiven? {
      ProperTake(db, c);
    } else if c.JobHandled? || c.FeePaid? {
      ProperProgress(db, c);
    } else if c.RequestCreated? || c.OffersSent? {
      ProperStart(db, c);
    } else {
      ProperEnd(db, c);
    }
  }

  lemma ApplyKeepsCalendar(db: Db, c: Command, workerId: string)
    requires CalendarInStep(db, workerId) && MeetsCalendarGuard(db, c, workerId)
    ensures CalendarInStep(Apply(db, c), workerId)
  {
    ProperCommand(db, c);
    match c
    case JobAccepted(id, sp) =>
      if id in db.requests && Accept(db, id, sp).error.None? {
        TakeKeepsCalendar(db, id, sp, workerId);
      }
    case JobAssigned(id, sp) =>
      if id in db.requests && ManuallyAssign(db, id, sp).error.None? {
        var offered := db.(assignments := db.assignments + [AssignmentRow(id, sp.id, Pending)]);
        TakeKeepsCalendar(offered, id, sp, workerId);
      }
    case WorkerGiven(id, w, d) =>
      if id in db.requests && WorkerId(db.requests[id].service.provider) != Some(w) && AttemptAllocate(db.requests[id], w, d).error.None? {
        var r' := AttemptAllocate(db.requests[id], w, d).request;
        InsertKeepsDisjoint(Save(db, id, r'), id, r', workerId, Period(0, 0));
      }
    case _ =>
      QuietCommand(db, c, workerId);
      HoldsNoMoreKeepsDisjoint(db.appointments, Apply(db, c).appointments, workerId);
  }

  predicate CalendarGuarded(cs: seq<Command>, workerId: string) {
    cs == [] || (CalendarGuarded(cs[..|cs| - 1], workerId) && MeetsCalendarGuard(Run(cs[..|cs| - 1]), cs[|cs| - 1], workerId))
  }

  lemma {:induction false} RunKeepsCalendar(cs: seq<Command>, workerId: string)
    requires CalendarGuarded(cs, workerId)
    ensures CalendarInStep(Run(cs), workerId)
  {
    if cs != [] {
      RunKeepsCalendar(cs[..|cs| - 1], workerId);
      ApplyKeepsCalendar(Run(cs[..|cs| - 1]), cs[|cs| - 1], workerId);
    }
  }

  /** Over every run in which an independent provider takes no job that strictly contains a held one, any two
      appointments the provider holds are disjoint. */
  lemma CalendarOverEveryRun(cs: seq<Command>, workerId: string, i: nat, j: nat)
    requires CalendarGuarded(cs, workerId)
    requires i < j < |Run(cs).appointments|
    requires IsHeldBy(Run(cs).appointments[i], workerId) && IsHeldBy(Run(cs).appointments[j], workerId)
    ensures Run(cs).appointments[i].schedule.Some? && Run(cs).appointments[j].schedule.Some?
    ensures !Intersects(Run(cs).appointments[i].schedule.value, Run(cs).appointments[j].schedule.value)
  {
    RunKeepsCalendar(cs, workerId);
  }
}
