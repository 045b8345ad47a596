/**
 * The in-memory saga store: one row per saga, a compare-and-swap `save` on the
 * row's version, and a lease `claim_due` for elapsed deadlines. `save` and
 * `claim_due` exclude each other through a mutex that `load` does not take.
 */
module SagaStore {
  import opened Common
  import opened Sorting

  type Id(==, !new)
  type Payload(!new)
  type Command(!new)

  datatype Status = Running | Completed | Failed

  /** `version` 0 means "never persisted"; stored rows start at 1. */
  datatype Instance = Instance(id: Id, state: Payload, status: Status, deadline: Option<int>, version: nat)

  type Rows = map<Id, Instance>

  datatype SaveResult = Saved | Conflict(expected: nat, actual: Option<nat>)

  function Row(rows: Rows, id: Id): Option<Instance> {
    if id in rows then Some(rows[id]) else None
  }

  ghost predicate OthersUnchanged(rows: Rows, rows': Rows, id: Id) {
    forall jd :: jd != id ==> Row(rows', jd) == Row(rows, jd)
  }

  function VersionOf(row: Option<Instance>): nat {
    if row.Some? then row.value.version else 0
  }

  ghost predicate WellKeyed(rows: Rows) {
    forall id :: id in rows ==> rows[id].id == id && rows[id].version >= 1
  }

  /** The compare-and-swap: version 0 creates, any other version must match the stored one. */
  function SaveVerdict(rows: Rows, inst: Instance): SaveResult {
    if inst.id !in rows then
      if inst.version != 0 then Conflict(inst.version, None) else Saved
    else if rows[inst.id].version != inst.version then
      Conflict(inst.version, Some(rows[inst.id].version))
    else
      Saved
  }

  function RowsAfterSave(rows: Rows, inst: Instance): Rows {
    if SaveVerdict(rows, inst).Saved? then rows[inst.id := inst.(version := inst.version + 1)] else rows
  }

  predicate IsDue(row: Instance, now: int) {
    row.status.Running? && row.deadline.Some? && row.deadline.value <= now
  }

  function DueIds(rows: Rows, now: int): set<Id> {
    set id | id in rows && IsDue(rows[id], now)
  }

  function DeadlineKey(rows: Rows, now: int, id: Id): (int, int) {
    (if id in rows && rows[id].deadline.Some? then rows[id].deadline.value else now, 0)
  }

  /**
   * What a claim must select: as many due running instances as the limit
   * allows, soonest deadline first, leaving none behind that is due sooner.
   * Ties are broken arbitrarily, as the map's iteration order breaks them.
   */
  ghost predicate SoonestDue(rows: Rows, now: int, limit: nat, picked: seq<Id>) {
    SmallestBy(DueIds(rows, now), id => DeadlineKey(rows, now, id), limit, picked)
  }

  /** A claimed row keeps its payload but moves its deadline to the lease and its version on. */
  function ClaimedRow(row: Instance, until: int): Instance {
    row.(deadline := Some(until), version := row.version + 1)
  }

  function RowsAfterClaims(rows: Rows, picked: seq<Id>, until: int): Rows {
    map id | id in rows :: if id in picked then ClaimedRow(rows[id], until) else rows[id]
  }

  /** The claimer's copies carry the original deadline and the post-claim version. */
  function ClaimedCopies(rows: Rows, picked: seq<Id>): seq<Instance>
    requires forall id :: id in picked ==> id in rows
  {
    seq(|picked|, i requires 0 <= i < |picked| => rows[picked[i]].(version := rows[picked[i]].version + 1))
  }

  class InMemorySagaStore {
    var rows: Rows

    ghost predicate Valid() reads this {
      WellKeyed(rows)
    }

    constructor ()
      ensures Valid() && rows == map[]
    {
      rows := map[];
    }

    method Load(id: Id) returns (found: Option<Instance>)
      ensures found == Row(rows, id)
    {
      if id in rows {
        found := Some(rows[id]);
      } else {
        found := None;
      }
    }

    method Save(inst: Instance) returns (result: SaveResult)
      requires Valid()
      modifies this
      ensures Valid()
      ensures result == SaveVerdict(old(rows), inst)
      ensures rows == RowsAfterSave(old(rows), inst)
      // Accepted exactly at the stored version (0 when nothing is stored); then this row, and only it, is the instance one version on.
      ensures result.Saved? <==> (if inst.id in old(rows) then old(rows)[inst.id].version else 0) == inst.version
      ensures result.Saved? ==> rows == old(rows)[inst.id := inst.(version := inst.version + 1)]
      ensures result.Conflict? ==>
                && rows == old(rows) && result.expected == inst.version
                && result.actual == (if inst.id in old(rows) then Some(old(rows)[inst.id].version) else None)
    {
      var expected := inst.version;
      if inst.id !in rows {
        if expected != 0 {
          return Conflict(expected, None);
        }
        rows := rows[inst.id := inst.(version := expected + 1)];
      } else {
        var actual := rows[inst.id].version;
        if actual != expected {
          return Conflict(expected, Some(actual));
        }
        rows := rows[inst.id := inst.(version := expected + 1)];
      }
      return Saved;
    }

    method ClaimDue(now: int, lease: int, limit: nat) returns (claimed: seq<Instance>, ghost picked: seq<Id>)
      requires Valid()
      modifies this
      ensures Valid()
      ensures SoonestDue(old(rows), now, limit, picked)
      ensures claimed == ClaimedCopies(old(rows), picked)
      ensures rows == RowsAfterClaims(old(rows), picked, now + lease)
      // Written out: what the caller gets and what is stored. `PickedAreDue` says which rows are picked.
      ensures |claimed| == |picked|
      ensures forall k :: 0 <= k < |picked| ==>
                picked[k] in old(rows) && claimed[k] == old(rows)[picked[k]].(version := old(rows)[picked[k]].version + 1)
      ensures rows.Keys == old(rows).Keys
      ensures forall id :: id in rows ==>
                rows[id] == if id in picked
                            then old(rows)[id].(deadline := Some(now + lease), version := old(rows)[id].version + 1)
                            else old(rows)[id]
    {
      var due := SelectDue(now, limit);
      picked := due;
      ghost var before := rows;
      claimed := [];
      for i := 0 to |due|
        invariant rows == RowsAfterClaims(before, due[..i], now + lease)
        invariant claimed == ClaimedCopies(before, due[..i])
      {
        var id := due[i];
        OneMoreClaim(before, now, limit, due, i, now + lease);
        var original := rows[id].deadline;
        rows := rows[id := ClaimedRow(rows[id], now + lease)];
        claimed := claimed + [rows[id].(deadline := original)];
      }
      assert due[..|due|] == due;
      assert forall id :: id in due ==> id in DueIds(before, now);
    }

    method SelectDue(now: int, limit: nat) returns (picked: seq<Id>)
      ensures SoonestDue(rows, now, limit, picked)
    {
      var snapshot := rows;
      picked := SelectSmallest(DueIds(rows, now), id => DeadlineKey(snapshot, now, id), limit);
    }
  }

  /** The selection, in terms of statuses and deadlines. */
  lemma PickedAreDue(rows: Rows, now: int, limit: nat, picked: seq<Id>)
    requires SoonestDue(rows, now, limit, picked)
    ensures |picked| <= limit
    ensures forall id :: id in picked ==>
              id in rows && rows[id].status == Running && rows[id].deadline.Some? && rows[id].deadline.value <= now
    ensures forall id :: id in rows && rows[id].status == Running && rows[id].deadline.Some? && rows[id].deadline.value <= now ==>
              id in picked || (|picked| == limit && forall k :: 0 <= k < |picked| ==> rows[picked[k]].deadline.value <= rows[id].deadline.value)
    ensures forall j, k :: 0 <= j < k < |picked| ==>
              picked[j] != picked[k] && rows[picked[j]].deadline.value <= rows[picked[k]].deadline.value
  {
    forall id | id in picked ensures id in rows && IsDue(rows[id], now) {
      assert id in DueIds(rows, now);
    }
    assert forall id :: id in rows && IsDue(rows[id], now) ==> id in DueIds(rows, now);
    if |picked| < limit {
      ShortSelectionIsAll(DueIds(rows, now), id => DeadlineKey(rows, now, id), limit, picked);
    }
  }

  /** Claiming the next picked id extends both the row update and the copies by exactly that id. */
  lemma OneMoreClaim(rows: Rows, now: int, limit: nat, picked: seq<Id>, i: nat, until: int)
    requires SoonestDue(rows, now, limit, picked) && i < |picked|
    ensures picked[i] in rows && rows[picked[i]].status.Running?
    ensures forall id :: id in picked[..i] ==> id in rows
    ensures forall id :: id in picked[..i + 1] ==> id in rows
    ensures RowsAfterClaims(rows, picked[..i], until)[picked[i]] == rows[picked[i]]
    ensures RowsAfterClaims(rows, picked[..i + 1], until)
         == RowsAfterClaims(rows, picked[..i], until)[picked[i] := ClaimedRow(rows[picked[i]], until)]
    ensures ClaimedCopies(rows, picked[..i + 1])
         == ClaimedCopies(rows, picked[..i]) + [rows[picked[i]].(version := rows[picked[i]].version + 1)]
  {
    assert picked[..i + 1] == picked[..i] + [picked[i]];
    assert picked[i] !in picked[..i];
    forall id | id in picked[..i + 1] ensures id in rows {
      assert id in DueIds(rows, now);
    }
  }
}
