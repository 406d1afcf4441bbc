/** Wallet transactions and how a scheduling run groups them into payouts. Money is in units of 0.0001. */
module PayoutFactory {
  import opened Wrappers
  import opened Sums

  datatype Tenant = Daikin | Acson

  datatype TransactionType = Income | Refund | TopUp | PayoutDebit | RescheduleSurchargeCompensation

  datatype TransactionStatus = Pending | Success | Failed

  datatype Transaction = Transaction(
    id: nat,
    ownerId: string,
    tenant: Tenant,
    kind: TransactionType,
    status: TransactionStatus,
    amount: int,
    requestId: Option<string>,
    payoutId: Option<nat>)

  /** A provider whose bank details are complete. */
  datatype Provider = Provider(vendorId: Option<string>)

  /** A payout before it is stored, with the transactions it pays. */
  datatype Draft = Draft(groupId: string, ownerId: string, tenant: Tenant, amount: int, transactions: seq<Transaction>)

  predicate IsEarning(t: Transaction) {
    t.kind.Income? || t.kind.RescheduleSurchargeCompensation?
  }

  /** The row filter of the query for transactions that no payout has taken yet. */
  predicate IsDebitable(t: Transaction) {
    IsEarning(t) && t.payoutId.None?
  }

  function Debitable(ts: seq<Transaction>): seq<Transaction> {
    Filter(ts, t => IsDebitable(t))
  }

  function TenantName(t: Tenant): string {
    match t
    case Daikin => "DMSS"
    case Acson => "AMSS"
  }

  function GroupId(t: Transaction): string {
    t.ownerId + "|" + TenantName(t.tenant)
  }

  /** The joined key loses nothing: it determines both the owner and the tenant. */
  lemma GroupIdInjective(t: Transaction, u: Transaction)
    ensures GroupId(t) == GroupId(u) <==> t.ownerId == u.ownerId && t.tenant == u.tenant
  {
    if GroupId(t) == GroupId(u) {
      var n := |t.ownerId|;
      assert |GroupId(t)| == n + 5 && |u.ownerId| == n;
      assert GroupId(t)[..n] == t.ownerId && GroupId(u)[..n] == u.ownerId;
      assert GroupId(t)[n + 1] == TenantName(t.tenant)[0] && GroupId(u)[n + 1] == TenantName(u.tenant)[0];
    }
  }

  function Members(ts: seq<Transaction>, groupId: string): seq<Transaction> {
    Filter(ts, t => GroupId(t) == groupId)
  }

  function Total(ts: seq<Transaction>): int {
    Sum(ts, (t: Transaction) => t.amount)
  }

  /** The keys of the group lookup, in the order in which they were first inserted. */
  function GroupIds(ts: seq<Transaction>): seq<string> {
    if ts == [] then []
    else
      var ids := GroupIds(ts[..|ts| - 1]);
      var id := GroupId(ts[|ts| - 1]);
      if id in ids then ids else ids + [id]
  }

  function Drafts(ids: seq<string>, ts: seq<Transaction>, payable: map<string, Provider>): seq<Draft> {
    if ids == [] then []
    else
      var drafts := Drafts(ids[..|ids| - 1], ts, payable);
      var members := Members(ts, ids[|ids| - 1]);
      if members != [] && members[0].ownerId in payable then
        drafts + [Draft(ids[|ids| - 1], members[0].ownerId, members[0].tenant, Total(members), members)]
      else drafts
  }

  /** The group lookup, and its keys in the order in which they were first inserted. */
  method GenerateGroupLookup(transactions: seq<Transaction>) returns (lookup: map<string, seq<Transaction>>, ids: seq<string>)
    ensures ids == GroupIds(transactions)
    ensures forall g :: g in lookup <==> g in ids
    ensures forall g :: g in lookup ==> lookup[g] == Members(transactions, g)
  {
    lookup, ids := map[], [];
    for i := 0 to |transactions|
      invariant ids == GroupIds(transactions[..i])
      invariant forall g :: g in lookup <==> g in ids
      invariant forall g :: g in lookup ==> lookup[g] == Members(transactions[..i], g)
      invariant forall g :: g !in lookup ==> Members(transactions[..i], g) == []
    {
      assert transactions[..i + 1][..i] == transactions[..i];
      var id := GroupId(transactions[i]);
      if id !in lookup {
        lookup := lookup[id := []];
        ids := ids + [id];
      }
      lookup := lookup[id := lookup[id] + [transactions[i]]];
    }
    assert transactions[..|transactions|] == transactions;
  }

  method AddUp(group: seq<Transaction>) returns (total: int)
    ensures total == Total(group)
  {
    total := 0;
    for j := 0 to |group|
      invariant total == Total(group[..j])
    {
      assert group[..j + 1][..j] == group[..j];
      total := total + group[j].amount;
    }
    assert group[..|group|] == group;
  }

  /** Groups the transactions by owner and tenant and drafts one payout per group with a payable owner. */
  method Create(transactions: seq<Transaction>, providers: map<string, Provider>) returns (payouts: seq<Draft>)
    ensures payouts == Drafts(GroupIds(transactions), transactions, providers)
  {
    var lookup, ids := GenerateGroupLookup(transactions);
    payouts := DraftGroups(lookup, ids, transactions, providers);
  }

  method DraftGroups(lookup: map<string, seq<Transaction>>, ids: seq<string>, ghost ts: seq<Transaction>, providers: map<string, Provider>)
      returns (payouts: seq<Draft>)
    requires forall g :: g in ids ==> g in lookup && lookup[g] == Members(ts, g)
    ensures payouts == Drafts(ids, ts, providers)
  {
    payouts := [];
    for k := 0 to |ids|
      invariant payouts == Drafts(ids[..k], ts, providers)
    {
      assert ids[..k + 1][..k] == ids[..k];
      var group := lookup[ids[k]];
      if group == [] || group[0].ownerId !in providers {
        continue;
      }
      var total := AddUp(group);
      payouts := payouts + [Draft(ids[k], group[0].ownerId, group[0].tenant, total, group)];
    }
    assert ids[..|ids|] == ids;
  }

  lemma {:induction false} GroupIdsAreTheKeys(ts: seq<Transaction>)
    ensures forall t :: t in ts ==> GroupId(t) in GroupIds(ts)
    ensures forall i, j :: 0 <= i < j < |GroupIds(ts)| ==> GroupIds(ts)[i] != GroupIds(ts)[j]
  {
    if ts != [] {
      GroupIdsAreTheKeys(ts[..|ts| - 1]);
      assert ts == ts[..|ts| - 1] + [ts[|ts| - 1]];
    }
  }

  ghost predicate IsDraftOf(d: Draft, ts: seq<Transaction>, payable: map<string, Provider>) {
    && d.transactions == Members(ts, d.groupId)
    && d.ownerId in payable
    && d.amount == Total(d.transactions)
    && (forall t :: t in d.transactions <==> t in ts && t.ownerId == d.ownerId && t.tenant == d.tenant)
  }

  /** The group of a key is uniform in owner and tenant and holds every transaction of that owner and tenant. */
  lemma GroupIsUniform(ts: seq<Transaction>, id: string)
    requires Members(ts, id) != []
    ensures var first := Members(ts, id)[0];
            forall t :: t in Members(ts, id) <==> t in ts && t.ownerId == first.ownerId && t.tenant == first.tenant
    ensures forall t :: t in Members(ts, id) <==> t in ts && GroupId(t) == id
  {
    FilterMembers(ts, (t: Transaction) => GroupId(t) == id);
    var first := Members(ts, id)[0];
    assert first in Members(ts, id);
    forall t | t in ts
      ensures GroupId(t) == id <==> t.ownerId == first.ownerId && t.tenant == first.tenant
    {
      GroupIdInjective(t, first);
    }
  }

  lemma LastDraft(ids: seq<string>, ts: seq<Transaction>, payable: map<string, Provider>)
    requires ids != []
    ensures var ds, front, id := Drafts(ids, ts, payable), Drafts(ids[..|ids| - 1], ts, payable), ids[|ids| - 1];
            ds == front || (exists d :: ds == front + [d] && d.groupId == id && d.transactions != [] && IsDraftOf(d, ts, payable))
  {
    var ds, front, id := Drafts(ids, ts, payable), Drafts(ids[..|ids| - 1], ts, payable), ids[|ids| - 1];
    if Members(ts, id) != [] {
      GroupIsUniform(ts, id);
    }
    if ds != front {
      assert ds == front + [ds[|ds| - 1]] && IsDraftOf(ds[|ds| - 1], ts, payable);
    }
  }

  lemma {:induction false} EachDraft(ids: seq<string>, ts: seq<Transaction>, payable: map<string, Provider>)
    requires forall i, j :: 0 <= i < j < |ids| ==> ids[i] != ids[j]
    ensures forall d :: d in Drafts(ids, ts, payable) ==> d.groupId in ids && d.transactions != [] && IsDraftOf(d, ts, payable)
    ensures var ds := Drafts(ids, ts, payable); forall i, j :: 0 <= i < j < |ds| ==> ds[i].groupId != ds[j].groupId
  {
    if ids != [] {
      var front, id := ids[..|ids| - 1], ids[|ids| - 1];
      assert ids == front + [id];
      EachDraft(front, ts, payable);
      LastDraft(ids, ts, payable);
    }
  }

  lemma {:induction false} DraftsCover(ids: seq<string>, ts: seq<Transaction>, payable: map<string, Provider>, t: Transaction)
    requires t in ts && GroupId(t) in ids && t.ownerId in payable
    ensures exists d :: d in Drafts(ids, ts, payable) && t in d.transactions
  {
    var front, id := ids[..|ids| - 1], ids[|ids| - 1];
    assert ids == front + [id];
    FilterMembers(ts, (x: Transaction) => GroupId(x) == id);
    if GroupId(t) == id {
      assert t in Members(ts, id);
      GroupIsUniform(ts, id);
      var ds := Drafts(ids, ts, payable);
      assert ds[|ds| - 1] in ds && t in ds[|ds| - 1].transactions;
    } else {
      DraftsCover(front, ts, payable, t);
      var d :| d in Drafts(front, ts, payable) && t in d.transactions;
      assert d in Drafts(ids, ts, payable);
    }
  }

  function Share(ids: seq<string>, payable: map<string, Provider>, t: Transaction): int {
    if GroupId(t) in ids && t.ownerId in payable then t.amount else 0
  }

  lemma {:induction false} DraftsConserve(ids: seq<string>, ts: seq<Transaction>, payable: map<string, Provider>)
    requires forall i, j :: 0 <= i < j < |ids| ==> ids[i] != ids[j]
    ensures Sum(Drafts(ids, ts, payable), (d: Draft) => d.amount) == Sum(ts, t => Share(ids, payable, t))
  {
    if ids == [] {
      SumZero(ts, t => Share(ids, payable, t));
    } else {
      var front, id := ids[..|ids| - 1], ids[|ids| - 1];
      assert ids == front + [id];
      DraftsConserve(front, ts, payable);
      SumPlus(ts, t => Share(front, payable, t), t => Share([id], payable, t), t => Share(ids, payable, t));
      LastGroup(id, ts, payable);
      var before := Drafts(front, ts, payable);
      var members := Members(ts, id);
      if members != [] && members[0].ownerId in payable {
        SumSnoc(before, Draft(id, members[0].ownerId, members[0].tenant, Total(members), members), (d: Draft) => d.amount);
      }
    }
  }

  lemma LastGroup(id: string, ts: seq<Transaction>, payable: map<string, Provider>)
    ensures Sum(ts, t => Share([id], payable, t))
         == if Members(ts, id) != [] && Members(ts, id)[0].ownerId in payable then Total(Members(ts, id)) else 0
  {
    var members := Members(ts, id);
    FilterMembers(ts, (t: Transaction) => GroupId(t) == id);
    if members != [] {
      GroupIsUniform(ts, id);
      assert members[0] in members;
    }
    forall t | t in ts
      ensures Share([id], payable, t) == if t in members && members[0].ownerId in payable then t.amount else 0
    {
      assert t in members <==> GroupId(t) == id;
      if t in members {
        assert t.ownerId == members[0].ownerId;
      }
    }
    if members != [] && members[0].ownerId in payable {
      SumFilter(ts, (t: Transaction) => GroupId(t) == id, (t: Transaction) => t.amount, t => Share([id], payable, t));
    } else {
      SumZero(ts, t => Share([id], payable, t));
    }
  }

  /** The payouts of one scheduling run: the drafts the factory makes from the transactions it is given. */
  function Payouts(ts: seq<Transaction>, payable: map<string, Provider>): seq<Draft> {
    Drafts(GroupIds(ts), ts, payable)
  }

  /** The payouts partition the transactions of payable owners, are uniform in owner and tenant with distinct
      (owner, tenant) pairs, and conserve the amount. */
  lemma PayoutsPartition(ts: seq<Transaction>, payable: map<string, Provider>)
    ensures forall d :: d in Payouts(ts, payable) ==> d.transactions != [] && IsDraftOf(d, ts, payable)
    ensures forall t :: t in ts ==>
              (t.ownerId in payable <==> exists d :: d in Payouts(ts, payable) && t in d.transactions)
    ensures var ds := Payouts(ts, payable); forall i, j :: 0 <= i < j < |ds| ==>
              ds[i].groupId != ds[j].groupId && !(ds[i].ownerId == ds[j].ownerId && ds[i].tenant == ds[j].tenant)
    ensures Sum(Payouts(ts, payable), (d: Draft) => d.amount)
         == Sum(ts, (t: Transaction) => if t.ownerId in payable then t.amount else 0)
  {
    GroupIdsAreTheKeys(ts);
    EachDraft(GroupIds(ts), ts, payable);
    DraftsConserve(GroupIds(ts), ts, payable);
    SumCongruent(ts, t => Share(GroupIds(ts), payable, t), (t: Transaction) => if t.ownerId in payable then t.amount else 0);
    forall t | t in ts && t.ownerId in payable
      ensures exists d :: d in Payouts(ts, payable) && t in d.transactions
    {
      DraftsCover(GroupIds(ts), ts, payable, t);
    }
    var ds := Payouts(ts, payable);
    forall i, j | 0 <= i < j < |ds|
      ensures !(ds[i].ownerId == ds[j].ownerId && ds[i].tenant == ds[j].tenant)
    {
      assert ds[i] in ds && ds[j] in ds;
      GroupIsUniform(ts, ds[i].groupId);
      GroupIsUniform(ts, ds[j].groupId);
      var t, u := ds[i].transactions[0], ds[j].transactions[0];
      assert t in ds[i].transactions && u in ds[j].transactions;
      GroupIdInjective(t, u);
    }
  }
}
