/** The store of payment gateway responses under browser responses and overriding webhooks, in any interleaving. */
module PaymentStore {
  import opened Wrappers
  import opened PayoutFactory

  datatype ResponseStatus = Succeeded | Failed

  /** The part of a response that identifies the payment, and the part that a webhook overwrites. */
  datatype Content = Content(responseStatus: ResponseStatus, paymentId: Option<string>, errorDescription: Option<string>)

  datatype Response = Response(transactionId: Option<string>, referenceId: string, tenant: Tenant, content: Content)

  /** The unique constraint: a missing transaction id never collides. */
  predicate Collides(rows: seq<Response>, pr: Response) {
    pr.transactionId.Some? && exists i :: 0 <= i < |rows| && rows[i].transactionId == pr.transactionId
  }

  predicate IsSamePayment(a: Response, b: Response) {
    a.transactionId == b.transactionId && a.referenceId == b.referenceId && a.tenant == b.tenant
  }

  function Find(rows: seq<Response>, pr: Response): (r: Option<nat>)
    ensures r.Some? ==> r.value < |rows| && IsSamePayment(rows[r.value], pr)
    ensures r.None? ==> forall i :: 0 <= i < |rows| ==> !IsSamePayment(rows[i], pr)
  {
    if rows == [] then None
    else
      var front := Find(rows[..|rows| - 1], pr);
      if front.Some? then front
      else if IsSamePayment(rows[|rows| - 1], pr) then Some(|rows| - 1)
      else
        assert forall i :: 0 <= i < |rows| - 1 ==> rows[..|rows| - 1][i] == rows[i];
        None
  }

  // ---------- One call at a time ----------

  /** The rows and the success flag after a call that is not overtaken. */
  function Inserted(rows: seq<Response>, pr: Response, override: bool): (seq<Response>, bool) {
    if !Collides(rows, pr) then (rows + [pr], true)
    else if !override then (rows, false)
    else
      match Find(rows, pr)
      case None => (rows, false)
      case Some(i) => (rows[i := rows[i].(content := pr.content)], true)
  }

  class PaymentGatewayResponseRepository {
    var rows: seq<Response>

    constructor ()
      ensures rows == []
    {
      rows := [];
    }

    method Save(pr: Response) returns (duplicate: bool)
      modifies this
      ensures duplicate == Collides(old(rows), pr)
      ensures rows == if duplicate then old(rows) else old(rows) + [pr]
    {
      duplicate := false;
      for i := 0 to |rows|
        invariant rows == old(rows)
        invariant duplicate <==> pr.transactionId.Some? && exists k :: 0 <= k < i && rows[k].transactionId == pr.transactionId
      {
        duplicate := duplicate || (pr.transactionId.Some? && rows[i].transactionId == pr.transactionId);
      }
      if !duplicate {
        rows := rows + [pr];
      }
    }

    method InsertIfNotExist(pr: Response, override: bool) returns (success: bool)
      modifies this
      ensures (rows, success) == Inserted(old(rows), pr, override)
    {
      success := false;
      var duplicate := Save(pr);
      if !duplicate {
        return true;
      }
      if !override {
        return success;
      }
      var found := Find(rows, pr);
      if found.None? {
        return success;
      }
      var stored := rows[found.value];
      stored := stored.(content := stored.content.(paymentId := pr.content.paymentId));
      stored := stored.(content := stored.content.(responseStatus := pr.content.responseStatus));
      stored := stored.(content := stored.content.(errorDescription := pr.content.errorDescription));
      rows := rows[found.value := stored];
      success := true;
    }
  }

  predicate IsTaken(rows: seq<Response>, pr: Response) {
    pr.transactionId.Some? && exists row :: row in rows && row.transactionId == pr.transactionId
  }

  /** A call succeeds exactly if its transaction id is free or missing, or it may override and a record of the same id, reference and tenant
      is stored. */
  lemma InsertedIff(rows: seq<Response>, pr: Response, override: bool)
    ensures Inserted(rows, pr, override).1 <==>
              || !IsTaken(rows, pr)
              || (override && exists row :: row in rows && row.transactionId == pr.transactionId
                                         && row.referenceId == pr.referenceId && row.tenant == pr.tenant)
  {
    assert Collides(rows, pr) <==> IsTaken(rows, pr);
  }

  /** A free id adds the record. Otherwise no record is added, and the only one that may change is of the same id, reference and tenant and
      takes over the content. */
  lemma InsertedRows(rows: seq<Response>, pr: Response, override: bool)
    ensures var rows' := Inserted(rows, pr, override).0;
            if !IsTaken(rows, pr) then rows' == rows + [pr]
            else
              && |rows'| == |rows| && (!override ==> rows' == rows)
              && (forall i :: 0 <= i < |rows| && rows'[i] != rows[i] ==>
                    rows'[i] == pr && rows[i].transactionId == pr.transactionId && rows[i].referenceId == pr.referenceId && rows[i].tenant == pr.tenant)
              && (Inserted(rows, pr, override).1 ==> pr in rows')
  {
    assert Collides(rows, pr) <==> IsTaken(rows, pr);
  }

  // ---------- Calls in any interleaving ----------

  /** Where a call is: before its insert, before the look-up, before writing to row `row`, or done. */
  datatype Phase = Inserting | Finding | Writing(row: nat) | Done(success: bool)

  datatype Call = Call(pr: Response, isWebhook: bool, phase: Phase)

  /** The call that a published event reports on. */
  datatype Published = Published(pr: Response, isWebhook: bool)

  datatype Store = Store(rows: seq<Response>, calls: seq<Call>, events: seq<Published>)

  datatype Action = Arrive(pr: Response, isWebhook: bool) | Advance(call: nat)

  function Finish(s: Store, i: nat, rows: seq<Response>): Store
    requires i < |s.calls|
  {
    Store(rows, s.calls[i := s.calls[i].(phase := Done(true))], s.events + [Published(s.calls[i].pr, s.calls[i].isWebhook)])
  }

  function Enter(s: Store, i: nat, phase: Phase): Store
    requires i < |s.calls|
  {
    s.(calls := s.calls[i := s.calls[i].(phase := phase)])
  }

  /** A call's next database access, and the event it publishes once it has succeeded. */
  function Next(s: Store, a: Action): Store {
    match a
    case Arrive(pr, isWebhook) => s.(calls := s.calls + [Call(pr, isWebhook, Inserting)])
    case Advance(i) =>
      if i >= |s.calls| then s
      else
        var c := s.calls[i];
        match c.phase
        case Inserting =>
          if !Collides(s.rows, c.pr) then Finish(s, i, s.rows + [c.pr])
          else Enter(s, i, if c.isWebhook then Finding else Done(false))
        case Finding =>
          (match Find(s.rows, c.pr)
           case None => Enter(s, i, Done(false))
           case Some(row) => Enter(s, i, Writing(row)))
        case Writing(row) =>
          if row >= |s.rows| then s
          else Finish(s, i, s.rows[row := s.rows[row].(content := c.pr.content)])
        case Done(_) => s
  }

  const EMPTY := Store([], [], [])

  function Run(actions: seq<Action>): Store {
    if actions == [] then EMPTY else Next(Run(actions[..|actions| - 1]), actions[|actions| - 1])
  }

  /** Without interleaving, the accesses of a call are `Inserted`. */
  lemma UninterruptedCall(s: Store, i: nat)
    requires i < |s.calls| && s.calls[i].phase.Inserting?
    ensures var t := Next(Next(Next(s, Advance(i)), Advance(i)), Advance(i));
            && (t.rows, t.calls[i].phase) == (Inserted(s.rows, s.calls[i].pr, s.calls[i].isWebhook).0,
                                              Done(Inserted(s.rows, s.calls[i].pr, s.calls[i].isWebhook).1))
  {}

  // ---------- What the store holds ----------

  /** What a webhook said last about a transaction, or else what was said first. */
  function LastWord(events: seq<Published>, id: string): Option<Published> {
    if events == [] then None
    else
      var front, e := LastWord(events[..|events| - 1], id), events[|events| - 1];
      if e.pr.transactionId != Some(id) then front
      else if e.isWebhook || front.None? then Some(e)
      else front
  }

  /** One reference and one tenant per transaction id. */
  ghost predicate HasOneOwner(pr: Response, ownerOf: string -> (string, Tenant)) {
    pr.transactionId.Some? ==> ownerOf(pr.transactionId.value) == (pr.referenceId, pr.tenant)
  }

  ghost predicate ActionHasOneOwner(a: Action, ownerOf: string -> (string, Tenant)) {
    a.Arrive? ==> HasOneOwner(a.pr, ownerOf)
  }

  ghost predicate AreUnique(rows: seq<Response>) {
    forall i, j :: 0 <= i < j < |rows| && rows[i].transactionId.Some? ==> rows[i].transactionId != rows[j].transactionId
  }

  predicate IsRecorded(rows: seq<Response>, id: string) {
    exists i :: 0 <= i < |rows| && rows[i].transactionId == Some(id)
  }

  /** Every row with an id shows the last word on it, and every word on an id is on a row. */
  ghost predicate ShowsLastWord(s: Store) {
    && (forall i :: 0 <= i < |s.rows| && s.rows[i].transactionId.Some? ==>
          LastWord(s.events, s.rows[i].transactionId.value).Some? &&
          s.rows[i].content == LastWord(s.events, s.rows[i].transactionId.value).value.pr.content)
    && (forall id :: LastWord(s.events, id).Some? ==> IsRecorded(s.rows, id))
  }

  predicate CallInStep(rows: seq<Response>, c: Call) {
    && (c.phase.Finding? ==> c.isWebhook && c.pr.transactionId.Some? && Collides(rows, c.pr))
    && (c.phase.Writing? ==> c.isWebhook && c.pr.transactionId.Some? && c.phase.row < |rows| && IsSamePayment(rows[c.phase.row], c.pr))
    && (c.phase == Done(false) ==> !c.isWebhook)
  }

  ghost predicate InStep(s: Store, ownerOf: string -> (string, Tenant)) {
    && AreUnique(s.rows) && ShowsLastWord(s)
    && (forall i :: 0 <= i < |s.rows| ==> HasOneOwner(s.rows[i], ownerOf))
    && (forall i :: 0 <= i < |s.calls| ==> HasOneOwner(s.calls[i].pr, ownerOf) && CallInStep(s.rows, s.calls[i]))
  }

  lemma LastWordSnoc(events: seq<Published>, e: Published, id: string)
    ensures LastWord(events + [e], id)
         == if e.pr.transactionId == Some(id) && (e.isWebhook || LastWord(events, id).None?) then Some(e) else LastWord(events, id)
  {
    assert (events + [e])[..|events|] == events;
  }

  lemma InsertKeepsInStep(s: Store, i: nat, ownerOf: string -> (string, Tenant))
    requires InStep(s, ownerOf) && i < |s.calls| && s.calls[i].phase.Inserting? && !Collides(s.rows, s.calls[i].pr)
    ensures InStep(Next(s, Advance(i)), ownerOf)
  {
    var t := Next(s, Advance(i));
    var c := s.calls[i];
    var e := Published(c.pr, c.isWebhook);
    forall id
      ensures LastWord(t.events, id) == if c.pr.transactionId == Some(id) then Some(e) else LastWord(s.events, id)
      ensures LastWord(t.events, id).Some? ==> IsRecorded(t.rows, id)
    {
      LastWordSnoc(s.events, e, id);
      if LastWord(s.events, id).Some? {
        var k :| 0 <= k < |s.rows| && s.rows[k].transactionId == Some(id);
        assert t.rows[k] == s.rows[k];
      } else if c.pr.transactionId == Some(id) {
        assert t.rows[|s.rows|] == c.pr;
      }
    }
    StillCollides(s, t);
  }

  /** Rows keep their identity, so calls under way stay in step. */
  lemma StillCollides(s: Store, t: Store)
    requires |s.rows| <= |t.rows| && forall k :: 0 <= k < |s.rows| ==> IsSamePayment(s.rows[k], t.rows[k])
    ensures forall c: Call :: CallInStep(s.rows, c) ==> CallInStep(t.rows, c)
  {
    forall c: Call | CallInStep(s.rows, c)
      ensures CallInStep(t.rows, c)
    {
      if c.phase.Finding? {
        var k :| 0 <= k < |s.rows| && s.rows[k].transactionId == c.pr.transactionId;
        assert t.rows[k].transactionId == c.pr.transactionId;
      }
    }
  }

  lemma WriteKeepsInStep(s: Store, i: nat, ownerOf: string -> (string, Tenant))
    requires InStep(s, ownerOf) && i < |s.calls| && s.calls[i].phase.Writing?
    ensures InStep(Next(s, Advance(i)), ownerOf)
  {
    var t := Next(s, Advance(i));
    var c := s.calls[i];
    var e := Published(c.pr, c.isWebhook);
    forall id
      ensures LastWord(t.events, id) == if c.pr.transactionId == Some(id) then Some(e) else LastWord(s.events, id)
      ensures LastWord(t.events, id).Some? ==> IsRecorded(t.rows, id)
    {
      LastWordSnoc(s.events, e, id);
      if LastWord(s.events, id).Some? {
        var k :| 0 <= k < |s.rows| && s.rows[k].transactionId == Some(id);
        assert t.rows[k].transactionId == Some(id);
      }
    }
    StillCollides(s, t);
  }

  /** With one owner per id, the look-up finds the row that the insert collided with. */
  lemma FindKeepsInStep(s: Store, i: nat, ownerOf: string -> (string, Tenant))
    requires InStep(s, ownerOf) && i < |s.calls| && s.calls[i].phase.Finding?
    ensures InStep(Next(s, Advance(i)), ownerOf)
  {
    var pr := s.calls[i].pr;
    var k :| 0 <= k < |s.rows| && s.rows[k].transactionId == pr.transactionId;
    assert HasOneOwner(s.rows[k], ownerOf) && HasOneOwner(pr, ownerOf);
    assert IsSamePayment(s.rows[k], pr);
  }

  lemma NextKeepsInStep(s: Store, a: Action, ownerOf: string -> (string, Tenant))
    requires InStep(s, ownerOf) && ActionHasOneOwner(a, ownerOf)
    ensures InStep(Next(s, a), ownerOf)
  {
    if a.Advance? && a.call < |s.calls| {
      var c := s.calls[a.call];
      if c.phase.Inserting? && !Collides(s.rows, c.pr) {
        InsertKeepsInStep(s, a.call, ownerOf);
      } else if c.phase.Writing? {
        WriteKeepsInStep(s, a.call, ownerOf);
      } else if c.phase.Finding? {
        FindKeepsInStep(s, a.call, ownerOf);
      }
    }
  }

  lemma {:induction false} RunInStep(actions: seq<Action>, ownerOf: string -> (string, Tenant))
    requires forall a :: a in actions ==> ActionHasOneOwner(a, ownerOf)
    ensures InStep(Run(actions), ownerOf)
  {
    if actions != [] {
      var front := actions[..|actions| - 1];
      forall a | a in front
        ensures a in actions
      {}
      RunInStep(front, ownerOf);
      NextKeepsInStep(Run(front), actions[|actions| - 1], ownerOf);
    }
  }

  /** Whatever the interleaving: a transaction id has at most one record; it has one exactly if some call about it has
      succeeded; the record's content is that of the webhook that succeeded last, or, if none has, of the first
      response; and no webhook is ever dropped. */
  lemma RecordOverEveryRun(actions: seq<Action>, ownerOf: string -> (string, Tenant), id: string)
    requires forall a :: a in actions ==> ActionHasOneOwner(a, ownerOf)
    ensures var s := Run(actions);
            && AreUnique(s.rows)
            && (IsRecorded(s.rows, id) <==> LastWord(s.events, id).Some?)
            && (forall i :: 0 <= i < |s.rows| && s.rows[i].transactionId == Some(id) && LastWord(s.events, id).Some?
                  ==> s.rows[i].content == LastWord(s.events, id).value.pr.content)
            && (forall c :: c in s.calls && c.isWebhook ==> c.phase != Done(false))
  {
    RunInStep(actions, ownerOf);
    assert forall c :: c in Run(actions).calls ==> CallInStep(Run(actions).rows, c);
  }

  /** `LastWord`, read off the events: the last webhook's if there is one, else the first event's. */
  lemma {:induction false} LastWordMeans(events: seq<Published>, id: string, k: nat)
    requires k < |events| && events[k].pr.transactionId == Some(id)
    requires forall j :: k < j < |events| && events[j].pr.transactionId == Some(id) ==> !events[j].isWebhook
    requires events[k].isWebhook || forall j :: 0 <= j < k ==> events[j].pr.transactionId != Some(id)
    ensures LastWord(events, id) == Some(events[k])
  {
    var n := |events| - 1;
    if k < n {
      LastWordMeans(events[..n], id, k);
    } else if !events[k].isWebhook {
      NoWord(events[..n], id);
    }
  }

  lemma {:induction false} NoWord(events: seq<Published>, id: string)
    requires forall j :: 0 <= j < |events| ==> events[j].pr.transactionId != Some(id)
    ensures LastWord(events, id) == None
  {
    if events != [] {
      NoWord(events[..|events| - 1], id);
    }
  }

  /** Without the assumption: a webhook that collides is dropped exactly if the record of its id has another
      reference or tenant. */
  lemma WebhookDroppedIff(rows: seq<Response>, pr: Response)
    requires AreUnique(rows) && Collides(rows, pr)
    ensures !Inserted(rows, pr, true).1
        <==> forall i :: 0 <= i < |rows| && rows[i].transactionId == pr.transactionId
                         ==> rows[i].referenceId != pr.referenceId || rows[i].tenant != pr.tenant
    ensures !Inserted(rows, pr, true).1 ==> Inserted(rows, pr, true).0 == rows
  {}
}
