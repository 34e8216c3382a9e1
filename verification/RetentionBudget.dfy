/** The retention budget and a run's shares in it, updated in place
    (codexsdk/notification_retention.go). */
module RetentionBudget {
  import opened Wrappers
  import Retention

  type LeaseId = Retention.LeaseId

  /** notificationRetention with its leases. A panic leaves the flag set. */
  class NotificationRetention {
    const maxCount: nat
    const maxBytes: nat
    var count: int
    var bytes: int
    var leases: map<LeaseId, Retention.Lease>
    var next: LeaseId
    var panicked: bool

    ghost function Value(): Retention.Budget
      reads this
    {
      Retention.Budget(maxCount, maxBytes, count, bytes, leases, next, panicked)
    }

    constructor (maxCount: nat, maxBytes: nat)
      ensures Value() == Retention.NewBudget(maxCount, maxBytes)
    {
      this.maxCount, this.maxBytes := maxCount, maxBytes;
      count, bytes, leases, next, panicked := 0, 0, map[], 0, false;
    }

    method Reserve(count: nat, bytes: nat) returns (lease: Option<LeaseId>)
      modifies this
      ensures Value() == Retention.Reserve(old(Value()), count, bytes).0
      ensures lease == Retention.Reserve(old(Value()), count, bytes).1
    {
      if count > maxCount - this.count || bytes > maxBytes - this.bytes { return None; }
      this.count := this.count + count;
      this.bytes := this.bytes + bytes;
      leases := leases[next := Retention.Lease(count, bytes, 1)];
      lease := Some(next);
      next := next + 1;
    }

    method Retain(l: LeaseId)
      modifies this
      ensures Value() == Retention.Retain(old(Value()), l)
    {
      if l !in leases || leases[l].refs <= 0 {
        panicked := true;
      } else {
        leases := leases[l := leases[l].(refs := leases[l].refs + 1)];
      }
    }

    method Release(l: LeaseId)
      modifies this
      ensures Value() == Retention.Release(old(Value()), l)
    {
      if l !in leases {
        panicked := true;
        return;
      }
      var lease := leases[l].(refs := leases[l].refs - 1);
      leases := leases[l := lease];
      if lease.refs < 0 {
        panicked := true;
      } else if lease.refs == 0 {
        count := count - lease.count;
        bytes := bytes - lease.bytes;
      }
    }
  }

  /** retentionOwners: the shares one run holds until it is unreachable. */
  class RetentionOwners {
    var owned: seq<LeaseId>

    constructor ()
      ensures owned == []
    {
      owned := [];
    }

    method Add(budget: NotificationRetention, l: LeaseId)
      modifies this, budget
      ensures owned == old(owned) + [l]
      ensures budget.Value() == Retention.Retain(old(budget.Value()), l)
    {
      budget.Retain(l);
      owned := owned + [l];
    }

    /** The cleanup lets go of every share exactly once. */
    method Release(budget: NotificationRetention)
      modifies this, budget
      ensures owned == []
      ensures budget.Value() == Retention.ReleaseAll(old(budget.Value()), old(owned))
    {
      var mine := owned;
      owned := [];
      var i := 0;
      while i < |mine|
        invariant 0 <= i <= |mine| && owned == []
        invariant Retention.ReleaseAll(budget.Value(), mine[i..]) == Retention.ReleaseAll(old(budget.Value()), mine)
      {
        assert mine[i..][0] == mine[i] && mine[i..][1..] == mine[i + 1..];
        budget.Release(mine[i]);
        i := i + 1;
      }
    }
  }
}
