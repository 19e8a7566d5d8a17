/** The K-use ledger (defense/core/lanes.ts): uses per digest, kept until the generation that could hold it is gone. */
module UseLedgers {
  import opened Base
  import opened CreditFilters
  import Tallies

  datatype Use = Use(committed: nat, firstEpoch: nat)

  /** A record counts until its epoch window ends. */
  predicate Live(u: Use, epoch: nat) { epoch < u.firstEpoch + 2 }

  datatype Ledger = Ledger(entries: map<Digest, Use>, lastPurge: nat, fullRefusals: nat, violations: nat)

  const NO_USES := Ledger(map[], 0, 0, 0)

  function LiveEntries(entries: map<Digest, Use>, epoch: nat): map<Digest, Use>
  {
    map k | k in entries && Live(entries[k], epoch) :: entries[k]
  }

  function Committed(l: Ledger, key: Digest, epoch: nat): Option<nat>
  {
    if key in l.entries && Live(l.entries[key], epoch) then Some(l.entries[key].committed) else None
  }

  function Purge(l: Ledger, epoch: nat): Ledger { l.(entries := LiveEntries(l.entries, epoch), lastPurge := epoch) }

  function MaybePurge(l: Ledger, epoch: nat): Ledger { if epoch != l.lastPurge then Purge(l, epoch) else l }

  function CanAllocate(capacity: int, l: Ledger, epoch: nat): (Ledger, bool)
  {
    if |l.entries| < capacity then (l, true)
    else
      var p := Purge(l, epoch);
      if |p.entries| < capacity then (p, true) else (p.(fullRefusals := p.fullRefusals + 1), false)
  }

  function Commit(maxUses: int, l: Ledger, key: Digest, epoch: nat): Ledger
  {
    if key in l.entries && Live(l.entries[key], epoch) then
      var u := l.entries[key];
      if u.committed >= maxUses then l.(violations := l.violations + 1)
      else l.(entries := l.entries[key := u.(committed := u.committed + 1)])
    else l.(entries := l.entries[key := Use(1, epoch)])
  }

  /** Whether a slot is free depends on the live records only. */
  lemma {:induction false} AllocationNeedsLiveRoom(capacity: int, l: Ledger, epoch: nat)
    ensures CanAllocate(capacity, l, epoch).1 <==> |LiveEntries(l.entries, epoch)| < capacity
    ensures |LiveEntries(l.entries, epoch)| <= |l.entries|
  {
    Tallies.Smaller(LiveEntries(l.entries, epoch).Keys, l.entries.Keys);
  }

  class UseLedger {
    const capacity: int
    const maxUses: int
    var entries: map<Digest, Use>
    var lastPurgeEpoch: nat
    var fullRefusals: nat
    var violations: nat

    ghost function State(): Ledger
      reads this
    {
      Ledger(entries, lastPurgeEpoch, fullRefusals, violations)
    }

    constructor (capacity: int, maxUses: int)
      requires SafePositive(capacity) && SafePositive(maxUses)
      ensures this.capacity == capacity && this.maxUses == maxUses && State() == NO_USES
    {
      this.capacity, this.maxUses := capacity, maxUses;
      entries, lastPurgeEpoch, fullRefusals, violations := map[], 0, 0, 0;
    }

    method CommittedUses(key: Digest, epoch: nat) returns (used: Option<nat>)
      ensures used == Committed(State(), key, epoch)
    {
      if key !in entries || epoch >= entries[key].firstEpoch + 2 { return None; }
      return Some(entries[key].committed);
    }

    /** Deletes the aged-out records one by one. */
    method PurgeAt(epoch: nat)
      modifies this
      ensures State() == Purge(old(State()), epoch)
    {
      lastPurgeEpoch := epoch;
      ghost var before := entries;
      var todo := entries.Keys;
      while todo != {}
        invariant todo <= entries.Keys <= before.Keys
        invariant forall k :: k in entries ==> entries[k] == before[k]
        invariant forall k :: k in before && k !in todo ==> (k in entries <==> Live(before[k], epoch))
        invariant lastPurgeEpoch == epoch && fullRefusals == old(fullRefusals) && violations == old(violations)
        decreases todo
      {
        var key :| key in todo;
        todo := todo - {key};
        if epoch >= entries[key].firstEpoch + 2 {
          entries := entries - {key};
        }
      }
      assert entries == LiveEntries(before, epoch);
    }

    method MaybePurgeAt(epoch: nat)
      modifies this
      ensures State() == MaybePurge(old(State()), epoch)
    {
      if epoch != lastPurgeEpoch { PurgeAt(epoch); }
    }

    method Allocatable(epoch: nat) returns (ok: bool)
      modifies this
      ensures (State(), ok) == CanAllocate(capacity, old(State()), epoch)
    {
      if |entries| < capacity { return true; }
      PurgeAt(epoch);
      if |entries| < capacity { return true; }
      fullRefusals := fullRefusals + 1;
      return false;
    }

    method CommitUse(key: Digest, epoch: nat)
      modifies this
      ensures State() == Commit(maxUses, old(State()), key, epoch)
    {
      if key in entries && epoch < entries[key].firstEpoch + 2 {
        if entries[key].committed >= maxUses {
          violations := violations + 1;
          return;
        }
        entries := entries[key := entries[key].(committed := entries[key].committed + 1)];
        return;
      }
      if key in entries {
        assert (entries - {key})[key := Use(1, epoch)] == entries[key := Use(1, epoch)];
        entries := entries - {key};
      }
      entries := entries[key := Use(1, epoch)];
    }
  }
}
