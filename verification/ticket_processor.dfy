/** The batch-wise dispatch of one ticket: a job that requeues itself until its batches are used up. */
module Tickets {
  import opened Sums

  datatype BatchLimit = BatchLimit(size: int, maxAgents: nat)

  /** `currentBatchNo` is 0 while the job data does not hold one yet. */
  datatype State = State(dispatched: seq<string>, currentBatchNo: nat)

  /** What a step finds: whether the request was already taken, and the candidates of the scan. */
  datatype Finding = Finding(taken: bool, candidates: seq<string>)

  /** After a step: the job's state, the assignments saved so far, and whether the job was put back into the queue. */
  datatype Ticket = Ticket(state: State, saved: seq<string>, queued: bool)

  predicate NoDuplicates(xs: seq<string>) {
    forall i, j :: 0 <= i < j < |xs| ==> xs[i] != xs[j]
  }

  predicate AreDisjoint(xs: seq<string>, ys: seq<string>) {
    forall x :: x in xs ==> x !in ys
  }

  function BatchNo(s: State): nat {
    if s.currentBatchNo == 0 then 1 else s.currentBatchNo
  }

  function Process(limit: BatchLimit, t: Ticket, f: Finding): Ticket {
    var s := t.state.(currentBatchNo := BatchNo(t.state));
    if s.currentBatchNo > limit.size || f.taken then Ticket(s, t.saved, false)
    else Ticket(State(s.dispatched + f.candidates, s.currentBatchNo + 1), t.saved + f.candidates, s.currentBatchNo < limit.size)
  }

  const NEW_TICKET := Ticket(State([], 0), [], true)

  /** The ticket after at most `|fs|` steps, last finding last; a job that was not requeued takes no further step. */
  function Run(limit: BatchLimit, fs: seq<Finding>): Ticket {
    if fs == [] then NEW_TICKET
    else
      var t := Run(limit, fs[..|fs| - 1]);
      if t.queued then Process(limit, t, fs[|fs| - 1]) else t
  }

  /** The scan's answers that the run dispatches. */
  predicate Dispatches(limit: BatchLimit, t: Ticket, f: Finding) {
    t.queued && BatchNo(t.state) <= limit.size && !f.taken
  }

  /** The scan of each batch returns at most `maxAgents` providers. */
  predicate ScansLimited(limit: BatchLimit, fs: seq<Finding>) {
    forall i :: 0 <= i < |fs| && i < limit.size ==> |fs[i].candidates| <= limit.maxAgents
  }

  /** Each scan that is used honours the exclusion list and repeats no provider. */
  predicate ScansFresh(limit: BatchLimit, fs: seq<Finding>) {
    fs == [] ||
    (var t := Run(limit, fs[..|fs| - 1]); var f := fs[|fs| - 1];
     ScansFresh(limit, fs[..|fs| - 1])
     && (Dispatches(limit, t, f) ==> NoDuplicates(f.candidates) && AreDisjoint(f.candidates, t.state.dispatched)))
  }

  class TicketProcessor {
    var dispatched: seq<string>
    var currentBatchNo: nat
    var assignments: seq<string>
    var queued: bool

    function Row(): Ticket
      reads this
    {
      Ticket(State(dispatched, currentBatchNo), assignments, queued)
    }

    constructor ()
      ensures Row() == NEW_TICKET
    {
      dispatched, currentBatchNo, assignments, queued := [], 0, [], true;
    }

    method HandleAllocation(limit: BatchLimit, f: Finding)
      modifies this
      ensures Row() == Process(limit, old(Row()), f)
    {
      queued := false;
      if currentBatchNo == 0 {
        currentBatchNo := 1;
      }
      if currentBatchNo > limit.size || f.taken {
        return;
      }
      ghost var before := Row();
      for i := 0 to |f.candidates|
        invariant Row() == Ticket(State(before.state.dispatched + f.candidates[..i], before.state.currentBatchNo),
                                  before.saved + f.candidates[..i], false)
      {
        dispatched := dispatched + [f.candidates[i]];
        assignments := assignments + [f.candidates[i]];
      }
      assert f.candidates[..|f.candidates|] == f.candidates;
      currentBatchNo := currentBatchNo + 1;
      if currentBatchNo - 1 >= limit.size {
        return;
      }
      queued := true;
    }

    /** Takes the job from the queue until it is not put back; `scan` is what each step finds. */
    method Drain(limit: BatchLimit, scan: nat -> Finding) returns (steps: nat)
      requires Row() == NEW_TICKET
      modifies this
      ensures !queued && Row() == Run(limit, Findings(scan, steps))
    {
      steps := 0;
      while queued
        invariant Row() == Run(limit, Findings(scan, steps))
        decreases queued, limit.size - BatchNo(State(dispatched, currentBatchNo))
      {
        assert Findings(scan, steps + 1)[..steps] == Findings(scan, steps);
        HandleAllocation(limit, scan(steps));
        steps := steps + 1;
      }
    }
  }

  function Findings(scan: nat -> Finding, n: nat): seq<Finding> {
    seq(n, (i: nat) => scan(i))
  }

  // ---------- Every run ----------

  /** What every run has done, whatever the scans find: assignments mirror the dispatched ids, and a requeued job has used
      one batch a step. */
  lemma {:induction false} RunSaves(limit: BatchLimit, fs: seq<Finding>)
    ensures var t := Run(limit, fs);
            && t.saved == t.state.dispatched
            && (BatchNo(t.state) - 1 <= limit.size || t.saved == [])
            && (t.queued && fs != [] ==> BatchNo(t.state) == |fs| + 1 && |fs| < limit.size)
  {
    if fs != [] {
      RunSaves(limit, fs[..|fs| - 1]);
    }
  }

  /** Every run ends after at most `size` steps (one if there are no batches), and has saved exactly one assignment per
      dispatched provider. */
  lemma RunEnds(limit: BatchLimit, fs: seq<Finding>)
    requires |fs| >= 1 && |fs| >= limit.size
    ensures !Run(limit, fs).queued
    ensures Run(limit, fs).saved == Run(limit, fs).state.dispatched
  {
    RunSaves(limit, fs);
  }

  lemma {:induction false} RunBounds(limit: BatchLimit, fs: seq<Finding>)
    requires ScansLimited(limit, fs)
    ensures |Run(limit, fs).saved| <= (BatchNo(Run(limit, fs).state) - 1) * limit.maxAgents
  {
    if fs != [] {
      var front, f := fs[..|fs| - 1], fs[|fs| - 1];
      RunBounds(limit, front);
      RunSaves(limit, front);
      var t := Run(limit, front);
      if Dispatches(limit, t, f) {
        var k := BatchNo(t.state);
        assert k * limit.maxAgents == (k - 1) * limit.maxAgents + limit.maxAgents;
        assert fs[|fs| - 1] == f && |f.candidates| <= limit.maxAgents;
      }
    }
  }

  /** If the scans honour the limit, a run saves at most `size * maxAgents` assignments. */
  lemma AssignmentsBounded(limit: BatchLimit, fs: seq<Finding>)
    requires ScansLimited(limit, fs) && limit.size >= 0
    ensures |Run(limit, fs).saved| <= limit.size * limit.maxAgents
  {
    RunBounds(limit, fs);
    RunSaves(limit, fs);
    var t := Run(limit, fs);
    if t.saved != [] {
      Scaled(BatchNo(t.state) - 1, limit.size, limit.maxAgents);
    }
  }

  /** The scan handler does not pass the limit on: whatever the limit, one step saves all that it finds. */
  lemma ScanWithoutLimitExceeds(limit: BatchLimit, candidates: seq<string>)
    requires limit.size >= 1
    ensures Run(limit, [Finding(false, candidates)]).saved == candidates
  {
    var f := Finding(false, candidates);
    assert [f][..0] == [] && [] + candidates == candidates;
  }

  /** So with one batch of one agent, two candidates are two assignments. */
  lemma TwoCandidatesExceedOne()
    ensures |Run(BatchLimit(1, 1), [Finding(false, ["p", "q"])]).saved| > 1 * 1
  {
    ScanWithoutLimitExceeds(BatchLimit(1, 1), ["p", "q"]);
  }

  /** A step that finds the request taken saves nothing and is the last. */
  lemma TakenStopsRun(limit: BatchLimit, fs: seq<Finding>, f: Finding)
    requires f.taken
    ensures Run(limit, fs + [f]).saved == Run(limit, fs).saved && !Run(limit, fs + [f]).queued
  {
    assert (fs + [f])[..|fs|] == fs;
  }

  lemma ConcatNoDuplicates(xs: seq<string>, ys: seq<string>)
    requires NoDuplicates(xs)
    ensures NoDuplicates(xs + ys) <==> NoDuplicates(ys) && AreDisjoint(ys, xs)
  {
    var zs := xs + ys;
    if NoDuplicates(zs) {
      assert forall i :: 0 <= i < |ys| ==> zs[|xs| + i] == ys[i];
      forall i, j | 0 <= i < j < |ys|
        ensures ys[i] != ys[j]
      {
        assert zs[|xs| + i] != zs[|xs| + j];
      }
      forall y | y in ys
        ensures y !in xs
      {
        var j :| 0 <= j < |ys| && ys[j] == y;
        forall i | 0 <= i < |xs|
          ensures xs[i] != y
        {
          assert zs[i] != zs[|xs| + j];
        }
      }
    } else if NoDuplicates(ys) {
      var i, j :| 0 <= i < j < |zs| && zs[i] == zs[j];
      assert zs[i] in xs && zs[j] in ys;
    }
  }

  lemma {:induction false} DispatchedGrows(limit: BatchLimit, fs: seq<Finding>, k: nat)
    requires k <= |fs| && !NoDuplicates(Run(limit, fs[..k]).state.dispatched)
    ensures !NoDuplicates(Run(limit, fs).state.dispatched)
  {
    if k == |fs| {
      assert fs[..k] == fs;
    } else {
      var front := fs[..|fs| - 1];
      assert front[..k] == fs[..k];
      DispatchedGrows(limit, front, k);
      var xs, ys := Run(limit, front).state.dispatched, Run(limit, fs).state.dispatched;
      var i, j :| 0 <= i < j < |xs| && xs[i] == xs[j];
      assert ys[i] == xs[i] && ys[j] == xs[j];
    }
  }

  /** The job is offered to no provider twice exactly if each used scan honours the exclusion list it was given. */
  lemma {:induction false} OffersOnceIff(limit: BatchLimit, fs: seq<Finding>)
    ensures NoDuplicates(Run(limit, fs).state.dispatched) <==> ScansFresh(limit, fs)
  {
    if fs != [] {
      var front, f := fs[..|fs| - 1], fs[|fs| - 1];
      OffersOnceIff(limit, front);
      var t := Run(limit, front);
      if !ScansFresh(limit, front) {
        DispatchedGrows(limit, fs, |front|);
      } else if Dispatches(limit, t, f) {
        ConcatNoDuplicates(t.state.dispatched, f.candidates);
      }
    }
  }

  /** The scan handler passes neither the exclusion list nor the limit on, so a provider it finds in two batches is
      offered the job twice. */
  lemma ScanWithoutExclusionOffersTwice(id: string)
    ensures var f := Finding(false, [id]);
            !NoDuplicates(Run(BatchLimit(5, 10), [f, f]).state.dispatched)
  {
    var f := Finding(false, [id]);
    var limit := BatchLimit(5, 10);
    assert [f, f][..1] == [f] && [f][..0] == [];
    assert [] + [id] == [id] && [id] + [id] == [id, id];
    assert Run(limit, [f]) == Ticket(State([id], 2), [id], true);
    var twice := Run(limit, [f, f]).state.dispatched;
    assert twice == [id, id] && twice[0] == twice[1];
  }

  // ---------- Which batches are sent ----------

  /** All that the scans found, in order. */
  function Found(fs: seq<Finding>): seq<string> {
    if fs == [] then [] else Found(fs[..|fs| - 1]) + fs[|fs| - 1].candidates
  }

  lemma {:induction false} UntakenRun(limit: BatchLimit, fs: seq<Finding>)
    requires (|fs| <= limit.size || fs == []) && forall i :: 0 <= i < |fs| ==> !fs[i].taken
    ensures Run(limit, fs) == Ticket(State(Found(fs), if fs == [] then 0 else |fs| + 1), Found(fs), fs == [] || |fs| < limit.size)
  {
    if fs != [] {
      UntakenRun(limit, fs[..|fs| - 1]);
    }
  }

  /** Batches are sent until the request is found taken or the last batch is sent, and to all that their scans find; the job is in the queue
      exactly while more are to come. */
  lemma RunSendsBatches(limit: BatchLimit, fs: seq<Finding>, k: nat)
    requires k <= |fs| && (k <= limit.size || k == 0) && forall i :: 0 <= i < k ==> !fs[i].taken
    requires k < |fs| ==> k >= limit.size || fs[k].taken
    ensures Run(limit, fs).saved == Found(fs[..k])
    ensures Run(limit, fs).queued <==> k == |fs| && (k == 0 || k < limit.size)
  {
    UntakenRun(limit, fs[..k]);
    if k == |fs| {
      assert fs[..k] == fs;
    } else if k > 0 && k >= limit.size {
      StoppedRunStays(limit, fs, k);
    } else {
      assert fs[..k + 1][..k] == fs[..k];
      StoppedRunStays(limit, fs, k + 1);
    }
  }

  // ---------- The scan as it is written ----------

  /** The scan finds the same providers at every step, whom it was asked to leave out among them. */
  predicate ScansAlike(fs: seq<Finding>, candidates: seq<string>) {
    forall i :: 0 <= i < |fs| ==> fs[i].candidates == candidates
  }

  /** At most one batch is sent: there is room for no second one, or the request is taken at the first or second step. */
  predicate SendsOneBatch(limit: BatchLimit, fs: seq<Finding>) {
    |fs| <= 1 || limit.size <= 1 || fs[0].taken || fs[1].taken
  }

  lemma {:induction false} StoppedRunStays(limit: BatchLimit, fs: seq<Finding>, k: nat)
    requires k <= |fs| && !Run(limit, fs[..k]).queued
    ensures Run(limit, fs) == Run(limit, fs[..k])
  {
    if k == |fs| {
      assert fs[..k] == fs;
    } else {
      var front := fs[..|fs| - 1];
      assert front[..k] == fs[..k];
      StoppedRunStays(limit, front, k);
    }
  }

  lemma FirstSteps(limit: BatchLimit, fs: seq<Finding>, candidates: seq<string>)
    requires |fs| >= 1 && ScansAlike(fs, candidates)
    ensures var first := limit.size >= 1 && !fs[0].taken;
            && Run(limit, fs[..1]).state.dispatched == (if first then candidates else [])
            && (Run(limit, fs[..1]).queued <==> first && limit.size > 1)
            && (|fs| >= 2 && first && limit.size > 1 ==>
                  && Run(limit, fs[..2]).state.dispatched == (if fs[1].taken then candidates else candidates + candidates)
                  && (fs[1].taken ==> !Run(limit, fs[..2]).queued))
  {
    assert fs[..1][..0] == [];
    assert [] + candidates == candidates;
    if |fs| >= 2 {
      assert fs[..2][..1] == fs[..1];
    }
  }

  /** With that scan no provider is offered the job twice exactly if at most one batch is sent. */
  lemma SameScanOffersOnceIff(limit: BatchLimit, fs: seq<Finding>, candidates: seq<string>)
    requires ScansAlike(fs, candidates) && NoDuplicates(candidates) && candidates != []
    ensures NoDuplicates(Run(limit, fs).state.dispatched) <==> SendsOneBatch(limit, fs)
  {
    if |fs| >= 1 {
      FirstSteps(limit, fs, candidates);
      assert fs[..|fs|] == fs;
      if !Run(limit, fs[..1]).queued {
        StoppedRunStays(limit, fs, 1);
      } else if |fs| >= 2 && fs[1].taken {
        StoppedRunStays(limit, fs, 2);
      } else if |fs| >= 2 {
        var twice := candidates + candidates;
        assert twice[0] == twice[|candidates|];
        DispatchedGrows(limit, fs, 2);
      }
    }
  }
}
