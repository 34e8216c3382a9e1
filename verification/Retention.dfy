/** The notification retention budget: reference-counted leases drawn from one
    finite count/byte budget (codexsdk/notification_retention.go).

    The value functions Reserve, Retain and Release specify the three budget
    critical sections; the protocol machine uses them directly, and the classes of
    module RetentionBudget perform them in place. */
module Retention {
  import opened Wrappers
  import opened Totals

  type LeaseId = nat

  datatype Lease = Lease(count: nat, bytes: nat, refs: int)

  /** `leases` stands for the heap of lease objects; a lease id is an object
      identity, so `next` is the identity of the next allocation. `panicked`
      records either of the two retention panics. */
  datatype Budget = Budget(
    maxCount: nat, maxBytes: nat, count: int, bytes: int,
    leases: map<LeaseId, Lease>, next: LeaseId, panicked: bool)

  function NewBudget(maxCount: nat, maxBytes: nat): Budget {
    Budget(maxCount, maxBytes, 0, 0, map[], 0, false)
  }

  function Reserve(b: Budget, count: nat, bytes: nat): (Budget, Option<LeaseId>) {
    if count > b.maxCount - b.count || bytes > b.maxBytes - b.bytes then (b, None)
    else (b.(count := b.count + count, bytes := b.bytes + bytes,
             leases := b.leases[b.next := Lease(count, bytes, 1)], next := b.next + 1),
          Some(b.next))
  }

  function Retain(b: Budget, l: LeaseId): Budget {
    if l !in b.leases || b.leases[l].refs <= 0 then b.(panicked := true)
    else b.(leases := b.leases[l := b.leases[l].(refs := b.leases[l].refs + 1)])
  }

  function Release(b: Budget, l: LeaseId): Budget {
    if l !in b.leases then b.(panicked := true)
    else
      var lease := b.leases[l].(refs := b.leases[l].refs - 1);
      var b' := b.(leases := b.leases[l := lease]);
      if lease.refs < 0 then b'.(panicked := true)
      else if lease.refs == 0 then b'.(count := b.count - lease.count, bytes := b.bytes - lease.bytes)
      else b'
  }

  function RetainAll(b: Budget, ls: seq<LeaseId>): Budget
    decreases |ls|
  {
    if ls == [] then b else RetainAll(Retain(b, ls[0]), ls[1..])
  }

  /** What a lease charges the budget: nothing once its last owner let go. */
  function CountCharge(lease: Lease): int { if lease.refs > 0 then lease.count else 0 }

  function ByteCharge(lease: Lease): int { if lease.refs > 0 then lease.bytes else 0 }

  /** Conservation: `owners` lists every slot that holds a lease, once per slot.
      Each lease counts exactly its owners, and the budget charges exactly the
      leases that still have one, within its limits. */
  ghost predicate Conserved(b: Budget, owners: multiset<LeaseId>) {
    && !b.panicked
    && (forall l <- b.leases :: l < b.next && b.leases[l].refs == owners[l])
    && (forall l <- owners :: l in b.leases)
    && b.count == Sum(b.leases, CountCharge)
    && b.bytes == Sum(b.leases, ByteCharge)
    && 0 <= b.count <= b.maxCount
    && 0 <= b.bytes <= b.maxBytes
  }

  lemma NewConserved(maxCount: nat, maxBytes: nat)
    ensures Conserved(NewBudget(maxCount, maxBytes), multiset{})
  {
  }

  /** A reservation is refused, and nothing changes, exactly when a limit would be
      passed. */
  lemma ReserveConserves(b: Budget, owners: multiset<LeaseId>, count: nat, bytes: nat)
    requires Conserved(b, owners)
    ensures var (b', l) := Reserve(b, count, bytes);
            if l.Some? then l.value !in b.leases && Conserved(b', owners + multiset{l.value}) else b' == b
    ensures Reserve(b, count, bytes).1.None? <==>
            Sum(b.leases, CountCharge) + count > b.maxCount || Sum(b.leases, ByteCharge) + bytes > b.maxBytes
  {
    var (b', l) := Reserve(b, count, bytes);
    if l.Some? {
      SumUpdate(b.leases, CountCharge, b.next, Lease(count, bytes, 1));
      SumUpdate(b.leases, ByteCharge, b.next, Lease(count, bytes, 1));
      assert b.leases - {b.next} == b.leases;
      assert owners[b.next] == 0;
    }
  }

  lemma RetainConserves(b: Budget, owners: multiset<LeaseId>, l: LeaseId)
    requires Conserved(b, owners) && l in owners
    ensures Conserved(Retain(b, l), owners + multiset{l})
  {
    var lease := b.leases[l].(refs := b.leases[l].refs + 1);
    SumUpdate(b.leases, CountCharge, l, lease);
    SumUpdate(b.leases, ByteCharge, l, lease);
    SumSplit(b.leases, CountCharge, l);
    SumSplit(b.leases, ByteCharge, l);
  }

  lemma ReleaseConserves(b: Budget, owners: multiset<LeaseId>, l: LeaseId)
    requires Conserved(b, owners) && l in owners
    ensures Conserved(Release(b, l), owners - multiset{l})
  {
    var lease := b.leases[l].(refs := b.leases[l].refs - 1);
    SumUpdate(b.leases, CountCharge, l, lease);
    SumUpdate(b.leases, ByteCharge, l, lease);
    SumSplit(b.leases, CountCharge, l);
    SumSplit(b.leases, ByteCharge, l);
    SumNonNegative(b.leases - {l}, CountCharge);
    SumNonNegative(b.leases - {l}, ByteCharge);
  }

  lemma {:induction false} RetainAllConserves(b: Budget, owners: multiset<LeaseId>, ls: seq<LeaseId>)
    requires Conserved(b, owners) && forall l <- ls :: l in owners
    ensures Conserved(RetainAll(b, ls), owners + multiset(ls))
    decreases |ls|
  {
    if ls == [] {
    } else {
      RetainConserves(b, owners, ls[0]);
      RetainAllConserves(Retain(b, ls[0]), owners + multiset{ls[0]}, ls[1..]);
      assert ls == [ls[0]] + ls[1..];
      assert owners + multiset(ls) == owners + multiset{ls[0]} + multiset(ls[1..]);
    }
  }

  function ReleaseAll(b: Budget, ls: seq<LeaseId>): Budget
    decreases |ls|
  {
    if ls == [] then b else ReleaseAll(Release(b, ls[0]), ls[1..])
  }

  /** Dropping every share of an owner gives back exactly those shares. */
  lemma {:induction false} ReleaseAllConserves(b: Budget, owners: multiset<LeaseId>, ls: seq<LeaseId>)
    requires Conserved(b, owners + multiset(ls))
    ensures Conserved(ReleaseAll(b, ls), owners)
    decreases |ls|
  {
    if ls == [] {
      assert owners + multiset(ls) == owners;
    } else {
      assert ls == [ls[0]] + ls[1..];
      assert owners + multiset(ls) - multiset{ls[0]} == owners + multiset(ls[1..]);
      ReleaseConserves(b, owners + multiset(ls), ls[0]);
      ReleaseAllConserves(Release(b, ls[0]), owners, ls[1..]);
    }
  }
}
