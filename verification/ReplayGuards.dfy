/**
 * Single-use replay state of a hop verifier (defense/core/replay-guard.ts): reservations that are all-or-nothing,
 * tickets that settle them, purging by retention, over any interleaving of tickets.
 */
module ReplayGuards {
  import opened Base
  import opened Tallies

  datatype EntryState = Reserved | Committed | Burned
  datatype Entry = Entry(state: EntryState, retainUntil: real)
  datatype Want = Want(key: Text, retainMs: int)

  datatype Guard = Guard(
    capacity: int, entries: map<Text, Entry>, lastPurge: Option<real>,
    reserved: int, committed: int, burned: int, replayRejected: nat, capacityRejected: nat, purged: int, open: int,
    violations: nat)

  function Empty(capacity: int): Guard { Guard(capacity, map[], None, 0, 0, 0, 0, 0, 0, 0, 0) }

  datatype Reservation = Granted | Replayed | Full

  function Retained(entries: map<Text, Entry>, now: real): map<Text, Entry>
  {
    map k | k in entries && (entries[k].retainUntil > now || entries[k].state == Reserved) :: entries[k]
  }

  function Purge(g: Guard, now: real): Guard
  {
    var kept := Retained(g.entries, now);
    g.(entries := kept, lastPurge := Some(now), purged := g.purged + (|g.entries| - |kept|))
  }

  predicate PurgeDue(g: Guard, wants: seq<Want>, now: real)
  {
    g.lastPurge == None || now - g.lastPurge.value >= 250.0 || |g.entries| + |wants| > g.capacity
  }

  predicate AnyPresent(entries: map<Text, Entry>, wants: seq<Want>)
  {
    exists i :: 0 <= i < |wants| && wants[i].key in entries
  }

  predicate DistinctKeys(wants: seq<Want>) { forall i, j :: 0 <= i < j < |wants| ==> wants[i].key != wants[j].key }

  /** The entries with the first `n` wants added as reserved. */
  function WithReserved(entries: map<Text, Entry>, wants: seq<Want>, now: real, n: nat): map<Text, Entry>
    requires n <= |wants|
  {
    if n == 0 then entries
    else WithReserved(entries, wants, now, n - 1)[wants[n - 1].key :=
      Entry(Reserved, now + wants[n - 1].retainMs as real)]
  }

  function Reserve(g: Guard, wants: seq<Want>, now: real): (Guard, Reservation)
  {
    var p := if PurgeDue(g, wants, now) then Purge(g, now) else g;
    if AnyPresent(p.entries, wants) || !DistinctKeys(wants) then (p.(replayRejected := p.replayRejected + 1), Replayed)
    else if |p.entries| + |wants| > p.capacity then (p.(capacityRejected := p.capacityRejected + 1), Full)
    else
      (p.(entries := WithReserved(p.entries, wants, now, |wants|), reserved := p.reserved + |wants|,
        open := p.open + |wants|),
       Granted)
  }

  /** One key of a ticket settled. */
  function Transit(g: Guard, key: Text, next: EntryState): Guard
  {
    if key !in g.entries || g.entries[key].state != Reserved then g.(violations := g.violations + 1)
    else
      var n := g.(entries := g.entries[key := g.entries[key].(state := next)], open := g.open - 1);
      if next == Committed then n.(committed := g.committed + 1) else n.(burned := g.burned + 1)
  }

  function TransitAll(g: Guard, keys: seq<Text>, next: EntryState, n: nat): Guard
    requires n <= |keys|
  {
    if n == 0 then g else Transit(TransitAll(g, keys, next, n - 1), keys[n - 1], next)
  }

  /** A key of a ticket settled twice: burned, never released. */
  function Spoil(g: Guard, key: Text): Guard
  {
    if key in g.entries && g.entries[key].state == Committed then
      g.(entries := g.entries[key := g.entries[key].(state := Burned)], committed := g.committed - 1,
        burned := g.burned + 1)
    else g
  }

  function SpoilAll(g: Guard, keys: seq<Text>, n: nat): Guard
    requires n <= |keys|
  {
    if n == 0 then g.(violations := g.violations + 1) else Spoil(SpoilAll(g, keys, n - 1), keys[n - 1])
  }

  // ------------------------------------------------------------------ tickets

  datatype Ticket = Ticket(keys: seq<Text>, settled: bool)

  /** The guard with every ticket it ever granted, and how many settlements came a second time. */
  datatype System = System(guard: Guard, tickets: map<nat, Ticket>, repeats: nat)

  datatype Op = ReserveOp(id: nat, wants: seq<Want>, now: real) | SettleOp(id: nat, next: EntryState)

  function KeysOf(wants: seq<Want>): seq<Text> { seq(|wants|, i requires 0 <= i < |wants| => wants[i].key) }

  predicate Enabled(s: System, op: Op)
  {
    match op
    case ReserveOp(id, _, _) => id !in s.tickets
    case SettleOp(id, next) => id in s.tickets && next != Reserved
  }

  function Next(s: System, op: Op): System
    requires Enabled(s, op)
  {
    match op
    case ReserveOp(id, wants, now) =>
      var (g, r) := Reserve(s.guard, wants, now);
      if r == Granted then System(g, s.tickets[id := Ticket(KeysOf(wants), false)], s.repeats) else s.(guard := g)
    case SettleOp(id, next) =>
      var t := s.tickets[id];
      if t.settled then s.(guard := SpoilAll(s.guard, t.keys, |t.keys|), repeats := s.repeats + 1)
      else System(TransitAll(s.guard, t.keys, next, |t.keys|), s.tickets[id := t.(settled := true)], s.repeats)
  }

  // ------------------------------------------------------------------ the invariant

  const IS_RESERVED: Entry -> bool := (e: Entry) => e.state == Reserved

  /** The counters agree with the entries. */
  ghost predicate Counted(g: Guard)
  {
    && g.open == Tally(g.entries, IS_RESERVED)
    && g.reserved == g.committed + g.burned + g.open
    && |g.entries| == g.reserved - g.purged <= g.capacity
  }

  predicate Distinct(keys: seq<Text>) { forall i, j :: 0 <= i < j < |keys| ==> keys[i] != keys[j] }

  predicate Present(entries: map<Text, Entry>, keys: seq<Text>)
  {
    forall i :: 0 <= i < |keys| ==> keys[i] in entries && entries[keys[i]].state == Reserved
  }

  predicate Apart(a: seq<Text>, b: seq<Text>) { forall i, j :: 0 <= i < |a| && 0 <= j < |b| ==> a[i] != b[j] }

  /** Open tickets hold pairwise disjoint key sets, every key of which is present and RESERVED. */
  ghost predicate Held(entries: map<Text, Entry>, tickets: map<nat, Ticket>)
  {
    && (forall t :: t in tickets ==> Distinct(tickets[t].keys))
    && (forall t :: t in tickets && !tickets[t].settled ==> Present(entries, tickets[t].keys))
    && (forall t, u :: t in tickets && u in tickets && t != u && !tickets[t].settled && !tickets[u].settled ==>
          Apart(tickets[t].keys, tickets[u].keys))
  }

  ghost predicate Inv(s: System)
  {
    s.guard.capacity >= 1 && Counted(s.guard) && Held(s.guard.entries, s.tickets) && s.guard.violations == s.repeats
  }

  // ------------------------------------------------------------------ purging

  lemma {:induction false} PurgeCounts(g: Guard, now: real)
    requires Counted(g)
    ensures Counted(Purge(g, now))
  {
    var kept := Retained(g.entries, now);
    assert Matching(kept, IS_RESERVED) == Matching(g.entries, IS_RESERVED);
    Smaller(kept.Keys, g.entries.Keys);
  }

  lemma {:induction false} PurgeHolds(entries: map<Text, Entry>, tickets: map<nat, Ticket>, now: real)
    requires Held(entries, tickets)
    ensures Held(Retained(entries, now), tickets)
  {
    forall t | t in tickets && !tickets[t].settled ensures Present(Retained(entries, now), tickets[t].keys) {
      assert Present(entries, tickets[t].keys);
    }
  }

  // ------------------------------------------------------------------ reserving

  predicate Absent(entries: map<Text, Entry>, wants: seq<Want>)
  {
    forall i :: 0 <= i < |wants| ==> wants[i].key !in entries
  }

  lemma {:induction false} ReservedEntries(entries: map<Text, Entry>, wants: seq<Want>, now: real, n: nat)
    requires n <= |wants| && Absent(entries, wants) && DistinctKeys(wants)
    ensures var m := WithReserved(entries, wants, now, n);
            && (forall k :: k in entries ==> k in m && m[k] == entries[k])
            && (forall i :: 0 <= i < n ==>
              wants[i].key in m && m[wants[i].key] == Entry(Reserved, now + wants[i].retainMs as real))
            && (forall i :: n <= i < |wants| ==> wants[i].key !in m)
  {
    if n > 0 {
      ReservedEntries(entries, wants, now, n - 1);
    }
  }

  /** There are `n` more entries, all of them reserved. */
  ghost predicate Grown(entries: map<Text, Entry>, more: map<Text, Entry>, n: nat)
  {
    |more| == |entries| + n && Tally(more, IS_RESERVED) == Tally(entries, IS_RESERVED) + n
  }

  lemma {:induction false} ReservedCounts(entries: map<Text, Entry>, wants: seq<Want>, now: real, n: nat)
    requires n <= |wants| && Absent(entries, wants) && DistinctKeys(wants)
    ensures Grown(entries, WithReserved(entries, wants, now, n), n)
  {
    if n > 0 {
      ReservedCounts(entries, wants, now, n - 1);
      ReservedMore(entries, wants, now, n);
    } else {
      assert WithReserved(entries, wants, now, n) == entries;
    }
  }

  lemma {:induction false} ReservedMore(entries: map<Text, Entry>, wants: seq<Want>, now: real, n: nat)
    requires 0 < n <= |wants| && Absent(entries, wants) && DistinctKeys(wants)
    requires Grown(entries, WithReserved(entries, wants, now, n - 1), n - 1)
    ensures Grown(entries, WithReserved(entries, wants, now, n), n)
  {
    var m, key := WithReserved(entries, wants, now, n - 1), wants[n - 1].key;
    assert key !in m by { ReservedEntries(entries, wants, now, n - 1); }
    AddOne(m, key, Entry(Reserved, now + wants[n - 1].retainMs as real));
  }

  lemma {:induction false} AddOne(m: map<Text, Entry>, key: Text, e: Entry)
    requires key !in m && e.state == Reserved
    ensures |m[key := e]| == |m| + 1 && Tally(m[key := e], IS_RESERVED) == Tally(m, IS_RESERVED) + 1
  {
    TallyUpdate(m, key, e, IS_RESERVED);
    assert m[key := e].Keys == m.Keys + {key};
  }

  lemma {:induction false} GrantHolds(entries: map<Text, Entry>, tickets: map<nat, Ticket>, wants: seq<Want>,
      now: real, id: nat)
    requires Held(entries, tickets) && Absent(entries, wants) && DistinctKeys(wants) && id !in tickets
    ensures Held(WithReserved(entries, wants, now, |wants|), tickets[id := Ticket(KeysOf(wants), false)])
  {
    var m, all := WithReserved(entries, wants, now, |wants|), tickets[id := Ticket(KeysOf(wants), false)];
    ReservedEntries(entries, wants, now, |wants|);
    forall t | t in all && !all[t].settled ensures Present(m, all[t].keys) {
      if t != id { assert Present(entries, tickets[t].keys); }
    }
    forall t, u | t in all && u in all && t != u && !all[t].settled && !all[u].settled
      ensures Apart(all[t].keys, all[u].keys) {
      if t != id && u != id {
        assert Apart(tickets[t].keys, tickets[u].keys);
      } else {
        var v := if t == id then u else t;
        assert Present(entries, tickets[v].keys);
      }
    }
  }

  /** Reservation is all-or-nothing: without a grant the entries are at most purged. */
  lemma {:induction false} ReserveKeeps(s: System, id: nat, wants: seq<Want>, now: real)
    requires Inv(s) && id !in s.tickets
    ensures Inv(Next(s, ReserveOp(id, wants, now)))
    ensures var (g, r) := Reserve(s.guard, wants, now);
            && (r != Granted ==> g.entries == s.guard.entries || g.entries == Retained(s.guard.entries, now))
            && (r == Granted ==> forall i :: 0 <= i < |wants| ==>
              wants[i].key in g.entries && g.entries[wants[i].key].state == Reserved)
  {
    var p := if PurgeDue(s.guard, wants, now) then Purge(s.guard, now) else s.guard;
    PurgeCounts(s.guard, now);
    PurgeHolds(s.guard.entries, s.tickets, now);
    var (g, r) := Reserve(s.guard, wants, now);
    if r == Granted {
      assert Absent(p.entries, wants);
      ReservedEntries(p.entries, wants, now, |wants|);
      ReservedCounts(p.entries, wants, now, |wants|);
      GrantHolds(p.entries, s.tickets, wants, now, id);
    }
  }

  // ------------------------------------------------------------------ settling

  lemma {:induction false} TransitCounts(g: Guard, key: Text, next: EntryState)
    requires Counted(g) && next != Reserved && key in g.entries && g.entries[key].state == Reserved
    ensures Counted(Transit(g, key, next)) && Transit(g, key, next).violations == g.violations
  {
    TallyUpdate(g.entries, key, g.entries[key].(state := next), IS_RESERVED);
    assert Transit(g, key, next).entries.Keys == g.entries.Keys;
  }

  predicate Untouched(keys: seq<Text>, n: nat, k: Text)
    requires n <= |keys|
  {
    forall i :: 0 <= i < n ==> keys[i] != k
  }

  lemma {:induction false} TransitAllEntries(g: Guard, keys: seq<Text>, next: EntryState, n: nat)
    requires next != Reserved && n <= |keys| && Distinct(keys) && Present(g.entries, keys)
    ensures var m := TransitAll(g, keys, next, n);
            && m.entries.Keys == g.entries.Keys
            && (forall k :: k in g.entries && Untouched(keys, n, k) ==> m.entries[k] == g.entries[k])
  {
    if n > 0 {
      TransitAllEntries(g, keys, next, n - 1);
      assert Untouched(keys, n - 1, keys[n - 1]);
      assert forall k :: Untouched(keys, n, k) ==> Untouched(keys, n - 1, k) && k != keys[n - 1];
    }
  }

  lemma {:induction false} StillReserved(g: Guard, keys: seq<Text>, next: EntryState, n: nat)
    requires next != Reserved && n < |keys| && Distinct(keys) && Present(g.entries, keys)
    ensures keys[n] in TransitAll(g, keys, next, n).entries
            && TransitAll(g, keys, next, n).entries[keys[n]].state == Reserved
  {
    TransitAllEntries(g, keys, next, n);
    assert Untouched(keys, n, keys[n]);
  }

  lemma {:induction false} TransitAllCounts(g: Guard, keys: seq<Text>, next: EntryState, n: nat)
    requires Counted(g) && next != Reserved && n <= |keys| && Distinct(keys) && Present(g.entries, keys)
    ensures Counted(TransitAll(g, keys, next, n))
    ensures TransitAll(g, keys, next, n).violations == g.violations
            && TransitAll(g, keys, next, n).capacity == g.capacity
  {
    if n > 0 {
      StillReserved(g, keys, next, n - 1);
      TransitAllCounts(g, keys, next, n - 1);
      TransitCounts(TransitAll(g, keys, next, n - 1), keys[n - 1], next);
    }
  }

  lemma {:induction false} SpoilAllCounts(g: Guard, keys: seq<Text>, n: nat)
    requires Counted(g) && n <= |keys|
    ensures var m := SpoilAll(g, keys, n);
            && Counted(m) && m.violations == g.violations + 1 && m.capacity == g.capacity
              && m.entries.Keys == g.entries.Keys
            && forall k :: k in g.entries ==>
              (m.entries[k] == g.entries[k] || (g.entries[k].state == Committed && m.entries[k].state == Burned))
  {
    if n > 0 {
      SpoilAllCounts(g, keys, n - 1);
      SpoilCounts(SpoilAll(g, keys, n - 1), keys[n - 1]);
    }
  }

  lemma {:induction false} SpoilCounts(g: Guard, key: Text)
    requires Counted(g)
    ensures Counted(Spoil(g, key)) && Spoil(g, key).entries.Keys == g.entries.Keys
  {
    if key in g.entries && g.entries[key].state == Committed {
      TallyUpdate(g.entries, key, g.entries[key].(state := Burned), IS_RESERVED);
      assert g.entries[key := g.entries[key].(state := Burned)].Keys == g.entries.Keys;
    }
  }

  lemma {:induction false} SettleHolds(s: System, id: nat, next: EntryState)
    requires Inv(s) && id in s.tickets && next != Reserved && !s.tickets[id].settled
    ensures Held(TransitAll(s.guard, s.tickets[id].keys, next, |s.tickets[id].keys|).entries,
                 s.tickets[id := s.tickets[id].(settled := true)])
  {
    var keys := s.tickets[id].keys;
    var m, all := TransitAll(s.guard, keys, next, |keys|).entries, s.tickets[id := s.tickets[id].(settled := true)];
    TransitAllEntries(s.guard, keys, next, |keys|);
    forall t | t in all && !all[t].settled ensures Present(m, all[t].keys) {
      var other := s.tickets[t].keys;
      assert Present(s.guard.entries, other) && Apart(other, keys);
      assert forall i :: 0 <= i < |other| ==> Untouched(keys, |keys|, other[i]);
    }
  }

  lemma {:induction false} SpoilHolds(s: System, keys: seq<Text>)
    requires Inv(s)
    ensures Held(SpoilAll(s.guard, keys, |keys|).entries, s.tickets)
  {
    var m := SpoilAll(s.guard, keys, |keys|).entries;
    SpoilAllCounts(s.guard, keys, |keys|);
    forall t | t in s.tickets && !s.tickets[t].settled ensures Present(m, s.tickets[t].keys) {
      assert Present(s.guard.entries, s.tickets[t].keys);
    }
  }

  lemma {:induction false} SettleKeeps(s: System, id: nat, next: EntryState)
    requires Inv(s) && id in s.tickets && next != Reserved
    ensures Inv(Next(s, SettleOp(id, next)))
  {
    var keys := s.tickets[id].keys;
    if s.tickets[id].settled {
      SpoilAllCounts(s.guard, keys, |keys|);
      SpoilHolds(s, keys);
    } else {
      TransitAllCounts(s.guard, keys, next, |keys|);
      SettleHolds(s, id, next);
    }
  }

  // ------------------------------------------------------------------ whole runs

  predicate Possible(s: System, ops: seq<Op>)
    decreases |ops|
  {
    ops == [] || (Enabled(s, ops[0]) && Possible(Next(s, ops[0]), ops[1..]))
  }

  function After(s: System, ops: seq<Op>): System
    requires Possible(s, ops)
    decreases |ops|
  {
    if ops == [] then s else After(Next(s, ops[0]), ops[1..])
  }

  lemma {:induction false} RunKeeps(s: System, ops: seq<Op>)
    requires Inv(s) && Possible(s, ops)
    ensures Inv(After(s, ops))
    decreases |ops|
  {
    if ops != [] {
      match ops[0] {
        case ReserveOp(id, wants, now) => ReserveKeeps(s, id, wants, now);
        case SettleOp(id, next) => SettleKeeps(s, id, next);
      }
      RunKeeps(Next(s, ops[0]), ops[1..]);
    }
  }

  /**
   * Over any interleaving of reservations and settlements: open tickets hold disjoint, present, RESERVED keys; the
   * counters balance; the set never exceeds its capacity; and violations are exactly the repeated settlements.
   */
  lemma {:induction false} TicketsAreExclusive(capacity: int, ops: seq<Op>)
    requires capacity >= 1 && Possible(System(Empty(capacity), map[], 0), ops)
    ensures Inv(After(System(Empty(capacity), map[], 0), ops))
  {
    assert Matching(Empty(capacity).entries, IS_RESERVED) == {};
    RunKeeps(System(Empty(capacity), map[], 0), ops);
  }

  // ------------------------------------------------------------------ retention

  /** A reservation made: its key and the instant its retention ends. */
  datatype Retention = Retention(key: Text, until: real)

  /** No entry is forgotten before its retention elapsed. */
  ghost predicate Remembers(entries: map<Text, Entry>, history: seq<Retention>, now: real)
  {
    forall i :: 0 <= i < |history| && now < history[i].until ==>
      history[i].key in entries && entries[history[i].key].retainUntil >= history[i].until
  }

  function Retentions(wants: seq<Want>, now: real): seq<Retention>
  {
    seq(|wants|, i requires 0 <= i < |wants| => Retention(wants[i].key, now + wants[i].retainMs as real))
  }

  lemma {:induction false} ReserveRemembers(g: Guard, wants: seq<Want>, history: seq<Retention>, last: real, now: real)
    requires Remembers(g.entries, history, last) && last <= now
    ensures var (n, r) := Reserve(g, wants, now);
            Remembers(n.entries, if r == Granted then history + Retentions(wants, now) else history, now)
  {
    var p := if PurgeDue(g, wants, now) then Purge(g, now) else g;
    assert Remembers(p.entries, history, now);
    var (n, r) := Reserve(g, wants, now);
    if r == Granted {
      assert Absent(p.entries, wants);
      ReservedEntries(p.entries, wants, now, |wants|);
    }
  }

  lemma {:induction false} SettleRemembers(g: Guard, keys: seq<Text>, next: EntryState, n: nat,
      history: seq<Retention>, now: real)
    requires Remembers(g.entries, history, now) && n <= |keys|
    ensures Remembers(TransitAll(g, keys, next, n).entries, history, now)
    ensures Remembers(SpoilAll(g, keys, n).entries, history, now)
  {
    if n > 0 {
      SettleRemembers(g, keys, next, n - 1, history, now);
    }
  }

  /** A key whose retention has not elapsed is refused as replayed, whatever the capacity. */
  lemma {:induction false} RetainedIsReplayed(g: Guard, wants: seq<Want>, history: seq<Retention>, last: real,
      now: real, i: nat, j: nat)
    requires Remembers(g.entries, history, last) && last <= now
    requires i < |history| && j < |wants| && history[i].key == wants[j].key && now < history[i].until
    ensures Reserve(g, wants, now).1 == Replayed
  {
    var p := if PurgeDue(g, wants, now) then Purge(g, now) else g;
    assert wants[j].key in p.entries;
  }

  // ------------------------------------------------------------------ the objects

  class ReplayGuard {
    const capacity: int
    var entries: map<Text, Entry>
    var lastPurge: Option<real>
    var reserved: int
    var committed: int
    var burned: int
    var replayRejected: nat
    var capacityRejected: nat
    var purged: int
    var open: int
    var violations: nat

    ghost function State(): Guard
      reads this
    {
      Guard(capacity, entries, lastPurge, reserved, committed, burned, replayRejected, capacityRejected, purged, open,
        violations)
    }

    constructor (capacity: int)
      requires SafePositive(capacity)
      ensures State() == Empty(capacity)
    {
      this.capacity := capacity;
      entries, lastPurge := map[], None;
      reserved, committed, burned, replayRejected, capacityRejected, purged, open, violations := 0, 0, 0, 0, 0, 0, 0, 0;
    }

    method PurgeAt(now: real)
      modifies this
      ensures State() == Purge(old(State()), now)
    {
      lastPurge := Some(now);
      ghost var before := entries;
      var todo := entries.Keys;
      while todo != {}
        invariant todo <= entries.Keys <= before.Keys
        invariant forall k :: k in entries ==> entries[k] == before[k]
        invariant forall k :: k in before && k !in todo ==>
                    (k in entries <==> before[k].retainUntil > now || before[k].state == Reserved)
        invariant purged == old(purged) + |before| - |entries|
        invariant State() == old(State()).(entries := entries, purged := purged, lastPurge := Some(now))
        decreases todo
      {
        var key :| key in todo;
        todo := todo - {key};
        if !(entries[key].retainUntil > now || entries[key].state == Reserved) {
          assert (entries - {key}).Keys == entries.Keys - {key};
          entries := entries - {key};
          purged := purged + 1;
        }
      }
      assert entries == Retained(before, now);
    }

    /** Atomic and synchronous: all of `wants`, or none. */
    method ReserveAll(wants: seq<Want>, now: real) returns (r: Reservation)
      modifies this
      ensures (State(), r) == Reserve(old(State()), wants, now)
    {
      if lastPurge == None || now - lastPurge.value >= 250.0 || |entries| + |wants| > capacity { PurgeAt(now); }
      for i := 0 to |wants|
        invariant forall j :: 0 <= j < i ==> wants[j].key !in entries
      {
        if wants[i].key in entries {
          replayRejected := replayRejected + 1;
          return Replayed;
        }
      }
      if !DistinctKeys(wants) {
        replayRejected := replayRejected + 1;
        return Replayed;
      }
      if |entries| + |wants| > capacity {
        capacityRejected := capacityRejected + 1;
        return Full;
      }
      AddReserved(wants, now);
      reserved, open := reserved + |wants|, open + |wants|;
      return Granted;
    }

    method AddReserved(wants: seq<Want>, now: real)
      modifies this`entries
      ensures entries == WithReserved(old(entries), wants, now, |wants|)
    {
      for i := 0 to |wants|
        invariant entries == WithReserved(old(entries), wants, now, i)
      {
        entries := entries[wants[i].key := Entry(Reserved, now + wants[i].retainMs as real)];
      }
    }

    method Transition(keys: seq<Text>, next: EntryState)
      requires next != Reserved
      modifies this
      ensures State() == TransitAll(old(State()), keys, next, |keys|)
    {
      for i := 0 to |keys|
        invariant State() == TransitAll(old(State()), keys, next, i)
      {
        var key := keys[i];
        if key !in entries || entries[key].state != Reserved {
          violations := violations + 1;
        } else {
          entries := entries[key := entries[key].(state := next)];
          open := open - 1;
          if next == Committed { committed := committed + 1; } else { burned := burned + 1; }
        }
      }
    }

    method Violation(keys: seq<Text>)
      modifies this
      ensures State() == SpoilAll(old(State()), keys, |keys|)
    {
      violations := violations + 1;
      for i := 0 to |keys|
        invariant State() == SpoilAll(old(State()), keys, i)
      {
        var key := keys[i];
        if key in entries && entries[key].state == Committed {
          entries := entries[key := entries[key].(state := Burned)];
          committed, burned := committed - 1, burned + 1;
        }
      }
    }
  }

  class ReplayTicket {
    const guard: ReplayGuard
    const keys: seq<Text>
    var settled: bool

    constructor (guard: ReplayGuard, keys: seq<Text>)
      ensures this.guard == guard && this.keys == keys && !settled
    {
      this.guard, this.keys, settled := guard, keys, false;
    }

    method Settle(next: EntryState)
      requires next != Reserved
      modifies this, guard
      ensures settled
      ensures guard.State() == if old(settled) then SpoilAll(old(guard.State()), keys, |keys|)
                               else TransitAll(old(guard.State()), keys, next, |keys|)
    {
      if settled {
        guard.Violation(keys);
        return;
      }
      settled := true;
      guard.Transition(keys, next);
    }
  }
}
