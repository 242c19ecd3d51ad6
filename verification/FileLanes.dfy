/** The lock and lane objects of aalp/filelock_compat.py and aalp/file_lane.py, as one process runs them
    while other processes interfere. Every step is an event of the world of FileLocks. */
module FileLanes {
  import opened Basics
  import FL = FileLocks

  // ----- Rotation -----

  function Slot(start: nat, offset: nat, capacity: nat): (slot: nat)
    requires start < capacity
    ensures slot < capacity
  {
    (start + offset) % capacity
  }

  lemma {:induction false} WrapOnce(x: int, n: int)
    requires 0 <= x < 2 * n
    ensures x % n == if x < n then x else x - n
  {
    if x >= n {
      assert x == n + (x - n);
      assert (n + (x - n)) % n == (x - n) % n;
    }
  }

  ghost predicate Visits(start: nat, capacity: nat, slot: int)
    requires start < capacity
  {
    exists offset: nat :: offset < capacity && Slot(start, offset, capacity) == slot
  }

  /** One round of probes visits every slot, and none twice. */
  lemma {:induction false} RotationIsComplete(start: nat, capacity: nat)
    requires start < capacity
    ensures forall slot :: 0 <= slot < capacity ==> Visits(start, capacity, slot)
    ensures forall offset: nat :: offset < capacity ==>
              Slot(start, offset, capacity) == start + offset - if start + offset < capacity then 0 else capacity
    ensures forall a: nat, b: nat ::
              (a < capacity && b < capacity && Slot(start, a, capacity) == Slot(start, b, capacity)) ==> a == b
  {
    forall offset: nat | offset < capacity
      ensures Slot(start, offset, capacity) == start + offset - if start + offset < capacity then 0 else capacity
    {
      WrapOnce(start + offset, capacity);
    }
    forall slot | 0 <= slot < capacity
      ensures Visits(start, capacity, slot)
    {
      var offset: nat := if slot >= start then slot - start else slot - start + capacity;
      WrapOnce(start + offset, capacity);
      assert Slot(start, offset, capacity) == slot;
    }
    forall a: nat, b: nat | a < capacity && b < capacity && Slot(start, a, capacity) == Slot(start, b, capacity)
      ensures a == b
    {
      WrapOnce(start + a, capacity);
      WrapOnce(start + b, capacity);
    }
  }

  // ----- The operating system, seen from one process -----

  /** A first release frees the lease's slot and takes nothing else from the process. */
  lemma {:induction false} ReleaseTakesOwn(w: FL.World, l: nat)
    requires FL.Valid(w) && FL.Possible(w, FL.Release(l)) && FL.Alive(w, l)
    ensures var p, slot := w.leases[l].process, w.leases[l].slot;
            FL.Holds(FL.After(w, FL.Release(l)), p) == FL.Holds(w, p) - {slot}
  {
    FL.ReleaseFreesItsSlot(w, l);
  }

  /** A successful probe gives the process its slot, and a failed one nothing. */
  lemma {:induction false} ProbeAddsOwn(w: FL.World, p: nat, slot: nat)
    requires FL.Valid(w) && FL.Possible(w, FL.Probe(p, slot))
    ensures var v := FL.After(w, FL.Probe(p, slot));
            FL.Holds(v, p) == if slot in w.holder then FL.Holds(w, p) else FL.Holds(w, p)[slot := |w.owner|]
  {
  }

  /** The world as process `me` finds it. `history` lists every event since the start. */
  class Os {
    const me: nat
    const capacity: nat
    var world: FL.World
    var now: Time
    ghost var history: seq<FL.Event>

    ghost predicate Valid()
      reads this
    {
      && FL.Valid(world) && world.capacity == capacity && me !in world.dead
      && FL.Allows(FL.Start(capacity), history) && world == FL.Run(FL.Start(capacity), history)
    }

    ghost function Mine(): map<nat, nat>
      reads `world
    {
      FL.Holds(world, me)
    }

    /** Every probe this process has made, with the lock table it met. */
    ghost function Tries(): seq<FL.Try>
      requires Valid()
      reads this
    {
      FL.Tries(FL.Start(capacity), history, me)
    }

    constructor (me: nat, capacity: nat, now: Time)
      ensures Valid() && this.me == me && this.capacity == capacity && this.now == now
      ensures world == FL.Start(capacity) && Mine() == map[]
    {
      this.me, this.capacity, world, this.now, history := me, capacity, FL.Start(capacity), now, [];
    }

    /** At every moment of the real loop, live leases of all processes hold distinct slots. */
    lemma Exclusive()
      requires Valid()
      ensures forall l: nat, m: nat, s :: FL.Backs(world, l, s) && FL.Backs(world, m, s) ==> l == m
      ensures |set l | 0 <= l < |world.leases| && FL.Alive(world, l)| <= capacity
    {
      FL.SlotsAreExclusive(capacity, history);
    }

    /** Other processes probe, release and crash in any order. */
    method OthersMove()
      requires Valid()
      modifies `world, `history
      ensures Valid() && Mine() == old(Mine()) && Tries() == old(Tries()) && |old(world).owner| <= |world.owner|
      ensures forall l :: 0 <= l < |old(world).leases| && old(world).leases[l].process == me ==>
                l < |world.leases| && world.leases[l] == old(world).leases[l]
    {
      assert FL.Without(world, [], me);
      var events: seq<FL.Event> :| FL.Without(world, events, me);
      FL.OthersTryNothing(world, events, me);
      FL.TriesJoin(FL.Start(capacity), history, events, me);
      FL.OthersKeepMine(world, events, me);
      FL.RunKeepsValid(world, events);
      FL.RunsJoin(FL.Start(capacity), history, events);
      world := FL.Run(world, events);
      history := history + events;
    }

    /** Other processes probe, release and crash in any order while at least `s` passes. If `quiet`, they do not. */
    method Interfere(s: Time, quiet: bool)
      requires Valid() && s >= 0.0
      modifies this
      ensures Valid() && now >= old(now) + s && Mine() == old(Mine()) && Tries() == old(Tries())
      ensures forall l :: 0 <= l < |old(world).leases| && old(world).leases[l].process == me ==>
                l < |world.leases| && world.leases[l] == old(world).leases[l]
      ensures quiet ==> world == old(world)
      ensures |old(world).owner| <= |world.owner|
    {
      if quiet {
        now := now + s;
      } else {
        var more: Time := *;
        OthersMove();
        now := now + s + if more >= 0.0 then more else 0.0;
      }
    }

    /** Opens the slot's lock file and tries to lock it once, closing it again if that fails. */
    method TryLock(slot: nat) returns (fh: Option<nat>)
      requires Valid() && slot < capacity
      modifies `world, `history
      ensures Valid() && world == FL.After(old(world), FL.Probe(me, slot))
      ensures fh == if slot in old(world).holder then None else Some(|old(world).owner|)
      ensures Mine() == if fh.None? then old(Mine()) else old(Mine())[slot := fh.value]
      ensures Tries() == old(Tries()) + [FL.Try(slot, old(world).holder)]
    {
      FL.OneMoreTry(FL.Start(capacity), history, FL.Probe(me, slot), me);
      FL.ProbeKeepsValid(world, me, slot);
      ProbeAddsOwn(world, me, slot);
      FL.OneMoreEvent(FL.Start(capacity), history, FL.Probe(me, slot));
      var h := |world.owner|;
      history := history + [FL.Probe(me, slot)];
      if slot in world.holder {
        world := world.(owner := world.owner + [me]);
        return None;
      }
      world := world.(owner := world.owner + [me], holder := world.holder[slot := h],
                      leases := world.leases + [FL.Holding(me, slot, Some(h))]);
      return Some(h);
    }

    /** Unlocks and closes the handle behind a lease. */
    method Unlock(lease: nat)
      requires Valid() && lease < |world.leases| && world.leases[lease].process == me && world.leases[lease].fh.Some?
      modifies `world, `history
      ensures Valid() && world == FL.After(old(world), FL.Release(lease))
      ensures world.holder == old(world).holder - {old(world).leases[lease].slot}
      ensures Mine() == old(Mine()) - {old(world).leases[lease].slot} && Tries() == old(Tries())
    {
      FL.OneMoreTry(FL.Start(capacity), history, FL.Release(lease), me);
      FL.ReleaseKeepsValid(world, lease);
      FL.ReleaseFreesItsSlot(world, lease);
      ReleaseTakesOwn(world, lease);
      FL.OneMoreEvent(FL.Start(capacity), history, FL.Release(lease));
      history := history + [FL.Release(lease)];
      var held := world.leases[lease];
      world := world.(leases := world.leases[lease := held.(fh := None)], holder := world.holder - {held.slot});
    }
  }

  // ----- FileLock -----

  /** `lease` names this lock's entry among the leases of the world while `fh` is open. */
  class FileLock {
    const os: Os
    const slot: nat
    var fh: Option<nat>
    var lease: nat

    /** An open handle is this process's own and has the file locked. */
    ghost predicate Valid()
      reads this, os
    {
      && os.Valid() && slot < os.capacity
      && (fh.Some? ==> lease < |os.world.leases| && os.world.leases[lease] == FL.Holding(os.me, slot, fh))
    }

    constructor (os: Os, slot: nat)
      requires os.Valid() && slot < os.capacity
      ensures this.os == os && this.slot == slot && fh == None && Valid()
    {
      this.os, this.slot, fh, lease := os, slot, None, 0;
    }

    /** One non-blocking attempt, which is one probe of the world. Busy exactly when someone has the file, and then
        nothing is held; locking what is already locked here is a success without effect. */
    method Acquire() returns (busy: bool)
      requires Valid()
      modifies this, os`world, os`history
      ensures Valid() && (busy <==> fh.None?)
      ensures busy <==> old(fh).None? && slot in old(os.world).holder
      ensures old(fh).Some? ==> os.world == old(os.world) && fh == old(fh)
      ensures old(fh).None? ==> os.world == FL.After(old(os.world), FL.Probe(os.me, slot))
      ensures os.Mine() == if old(fh).Some? || busy then old(os.Mine()) else old(os.Mine())[slot := fh.value]
      ensures os.Tries() == old(os.Tries()) + if old(fh).Some? then [] else [FL.Try(slot, old(os.world).holder)]
    {
      if fh.Some? {
        return false;
      }
      var next := |os.world.leases|;
      fh := os.TryLock(slot);
      lease := next;
      busy := fh.None?;
    }

    /** Idempotent; a first release is the release event of this lock's own lease, and frees its file and no other. */
    method Release()
      requires Valid()
      modifies this, os`world, os`history
      ensures Valid() && fh == None
      ensures old(fh).None? ==> os.world == old(os.world)
      ensures old(fh).Some? ==>
                && os.world == FL.After(old(os.world), FL.Release(old(lease)))
                && os.world.holder == old(os.world).holder - {slot} && os.Mine() == old(os.Mine()) - {slot}
    {
      if fh.None? {
        return;
      }
      fh := None;
      os.Unlock(lease);
    }
  }

  class FileLease {
    const slot: nat
    const lock: FileLock

    constructor (slot: nat, lock: FileLock)
      ensures this.slot == slot && this.lock == lock
    {
      this.slot, this.lock := slot, lock;
    }

    method Release()
      requires lock.Valid()
      modifies lock, lock.os`world, lock.os`history
      ensures lock.Valid() && lock.fh == None
      ensures old(lock.fh).None? ==> lock.os.world == old(lock.os.world)
      ensures old(lock.fh).Some? ==>
                && lock.os.world.holder == old(lock.os.world).holder - {lock.slot}
                && lock.os.Mine() == old(lock.os.Mine()) - {lock.slot}
    {
      if lock.fh.Some? {
        lock.Release();
      }
    }
  }

  // ----- One round of probes -----

  /** The probes of one round, in rotated order from `start`. */
  ghost predicate InRotation(tries: seq<FL.Try>, start: nat, capacity: nat) {
    && start < capacity && |tries| <= capacity
    && forall n :: 0 <= n < |tries| ==> tries[n].slot == Slot(start, n, capacity)
  }

  ghost predicate Busy(tries: seq<FL.Try>) {
    forall n :: 0 <= n < |tries| ==> tries[n].slot in tries[n].found
  }

  /** Nobody acted between the probes. */
  ghost predicate AllMeet(tries: seq<FL.Try>, holder: map<nat, nat>) {
    forall n :: 0 <= n < |tries| ==> tries[n].found == holder
  }

  ghost predicate AllTaken(holder: map<nat, nat>, capacity: nat) {
    forall slot :: 0 <= slot < capacity ==> slot in holder
  }

  /** The round tried every slot and met every one taken. */
  ghost predicate InVain(tries: seq<FL.Try>, capacity: nat) {
    |tries| == capacity && Busy(tries) && exists start :: InRotation(tries, start, capacity)
  }

  /** The round met `slot` free after meeting those before it taken. */
  ghost predicate Finds(tries: seq<FL.Try>, slot: nat, capacity: nat) {
    && tries != [] && Busy(tries[..|tries| - 1]) && (exists start :: InRotation(tries, start, capacity))
    && slot == tries[|tries| - 1].slot && slot !in tries[|tries| - 1].found
  }

  /** One more probe in rotated order. */
  lemma {:induction false} OneMoreProbe(tries: seq<FL.Try>, probe: FL.Try, start: nat, capacity: nat)
    requires InRotation(tries, start, capacity) && Busy(tries)
    requires |tries| < capacity && probe.slot == Slot(start, |tries|, capacity)
    ensures InRotation(tries + [probe], start, capacity)
    ensures if probe.slot in probe.found then Busy(tries + [probe]) else Finds(tries + [probe], probe.slot, capacity)
    ensures forall holder :: AllMeet(tries, holder) && probe.found == holder ==> AllMeet(tries + [probe], holder)
  {
    assert (tries + [probe])[..|tries|] == tries;
    assert InRotation(tries + [probe], start, capacity);
  }

  /** A round that always meets the same table misses no free slot. */
  lemma {:induction false} QuietRoundIsExact(tries: seq<FL.Try>, holder: map<nat, nat>, start: nat, capacity: nat)
    requires InRotation(tries, start, capacity) && |tries| == capacity && AllMeet(tries, holder)
    ensures Busy(tries) <==> AllTaken(holder, capacity)
  {
    RotationIsComplete(start, capacity);
    if Busy(tries) {
      forall slot | 0 <= slot < capacity
        ensures slot in holder
      {
        assert Visits(start, capacity, slot);
        var offset: nat :| offset < capacity && Slot(start, offset, capacity) == slot;
        assert tries[offset].slot in tries[offset].found;
      }
    }
  }

  ghost predicate TakenUpTo(holder: map<nat, nat>, n: nat, start: nat, capacity: nat)
    requires start < capacity
  {
    forall offset: nat :: offset < n ==> Slot(start, offset, capacity) in holder
  }

  /** `slot` is the first one in rotated order that nobody has. */
  ghost predicate FirstFree(slot: nat, holder: map<nat, nat>, start: nat, capacity: nat)
    requires start < capacity
  {
    && slot !in holder
    && exists n: nat :: n < capacity && Slot(start, n, capacity) == slot && TakenUpTo(holder, n, start, capacity)
  }

  /** What a round without interference comes to: no lease exactly if all slots are taken,
      otherwise the first free one. */
  lemma {:induction false} QuietRound(tries: seq<FL.Try>, holder: map<nat, nat>, start: nat, capacity: nat,
                                      slot: Option<nat>)
    requires InRotation(tries, start, capacity) && AllMeet(tries, holder)
    requires if slot.None? then InVain(tries, capacity) else Finds(tries, slot.value, capacity)
    ensures slot.None? <==> AllTaken(holder, capacity)
    ensures slot.Some? ==> FirstFree(slot.value, holder, start, capacity)
  {
    if slot.None? {
      QuietRoundIsExact(tries, holder, start, capacity);
    } else {
      var n := |tries| - 1;
      forall offset: nat | offset < n
        ensures Slot(start, offset, capacity) in holder
      {
        assert tries[..n][offset] == tries[offset];
        assert tries[..n][offset].slot in tries[..n][offset].found;
      }
      assert TakenUpTo(holder, n, start, capacity) && Slot(start, n, capacity) == slot.value;
    }
  }

  // ----- FileLane -----

  function Ceil(x: real): int {
    -((-x).Floor)
  }

  lemma NegativeFactor(d: real, poll: real)
    requires poll > 0.0 && d * poll < 0.0
    ensures d < 0.0
  {
  }

  /** Whole polls that fit before the timeout leave room for one more below its ceiling. */
  lemma {:induction false} OneMorePoll(rounds: nat, poll: Time, timeout: Time)
    requires poll > 0.0 && (rounds as real) * poll < timeout
    ensures rounds + 1 <= Ceil(timeout / poll)
  {
    var q := timeout / poll;
    assert q * poll == timeout;
    assert ((rounds as real) - q) * poll == (rounds as real) * poll - q * poll;
    NegativeFactor((rounds as real) - q, poll);
    assert (-q).Floor <= -(rounds as int) - 1;
  }

  /** Every round but the last takes a poll interval, so their number is limited by the timeout. */
  predicate InBudget(rounds: nat, elapsed: Time, poll: Time, timeout: Time)
    requires poll > 0.0
  {
    ((rounds as real) * poll <= elapsed || timeout <= elapsed) && rounds <= Ceil(timeout / poll)
  }

  lemma {:induction false} BudgetStart(poll: Time, timeout: Time)
    requires poll > 0.0 && timeout >= 0.0
    ensures InBudget(0, 0.0, poll, timeout)
  {
    assert timeout / poll >= 0.0;
  }

  lemma {:induction false} BudgetStep(rounds: nat, elapsed: Time, later: Time, poll: Time, timeout: Time)
    requires poll > 0.0 && InBudget(rounds, elapsed, poll, timeout) && elapsed < timeout
    requires elapsed + poll <= later || timeout <= later
    ensures InBudget(rounds + 1, later, poll, timeout)
  {
    OneMorePoll(rounds, poll, timeout);
    assert ((rounds + 1) as real) * poll == (rounds as real) * poll + poll;
  }

  datatype Sleep = Sleep(at: Time, seconds: Time)

  /** A sleep of the poll interval and some jitter, cut short by the deadline only. */
  predicate FairSleep(s: Sleep, pollInterval: Time, jitter: Time, deadline: Time) {
    && 0.0 < s.seconds <= pollInterval + jitter && s.at + s.seconds <= deadline
    && (pollInterval <= s.seconds || s.at + s.seconds == deadline)
  }

  /** The probes of all rounds, one round after the other. */
  function Flat(rounds: seq<seq<FL.Try>>): seq<FL.Try> {
    if rounds == [] then [] else Flat(rounds[..|rounds| - 1]) + rounds[|rounds| - 1]
  }

  ghost predicate AllInVain(rounds: seq<seq<FL.Try>>, capacity: nat) {
    forall n :: 0 <= n < |rounds| ==> InVain(rounds[n], capacity)
  }

  lemma {:induction false} OneMoreRound(rounds: seq<seq<FL.Try>>, round: seq<FL.Try>, capacity: nat)
    ensures Flat(rounds + [round]) == Flat(rounds) + round
    ensures AllInVain(rounds, capacity) && InVain(round, capacity) ==> AllInVain(rounds + [round], capacity)
  {
    assert (rounds + [round])[..|rounds|] == rounds;
  }

  class FileLane {
    const os: Os
    const capacity: nat
    const pollInterval: Time
    const jitter: Time

    ghost predicate Valid()
      reads os
    {
      os.Valid() && capacity == os.capacity >= 1 && pollInterval > 0.0 && jitter >= 0.0
    }

    constructor (os: Os, pollInterval: Time, jitter: Time)
      requires os.Valid() && os.capacity >= 1 && pollInterval > 0.0 && jitter >= 0.0
      ensures this.os == os && this.pollInterval == pollInterval && Valid()
    {
      this.os, this.capacity, this.pollInterval, this.jitter := os, os.capacity, pollInterval, jitter;
    }

    /** A lease newly held for one more slot. */
    ghost predicate NewlyHeld(lease: FileLease, before: map<nat, nat>)
      reads lease.lock, lease.lock.os, os
    {
      && lease.lock.os == os && lease.lock.slot == lease.slot && lease.lock.Valid() && lease.lock.fh.Some?
      && lease.slot !in before && os.Mine() == before[lease.slot := lease.lock.fh.value]
    }

    /** One probe of one slot, after whatever other processes do (nothing if `quiet`). */
    method ProbeOne(slot: nat, quiet: bool) returns (lease: FileLease?, ghost found: map<nat, nat>)
      requires Valid() && slot < capacity
      modifies os
      ensures Valid() && old(os.now) <= os.now
      ensures lease == null <==> slot in found
      ensures lease == null ==> os.Mine() == old(os.Mine()) && (quiet ==> os.world.holder == found)
      ensures lease != null ==>
                fresh(lease) && fresh(lease.lock) && lease.slot == slot && NewlyHeld(lease, old(os.Mine()))
      ensures quiet ==> found == old(os.world).holder
      ensures os.Tries() == old(os.Tries()) + [FL.Try(slot, found)]
    {
      os.Interfere(0.0, quiet);
      found := os.world.holder;
      var candidate := new FileLock(os, slot);
      var busy := candidate.Acquire();
      lease := null;
      if !busy {
        lease := new FileLease(slot, candidate);
      }
    }

    /** Non-blocking probes in rotated order until one succeeds, other processes acting before each (unless `quiet`). */
    method ProbeInOrder(start: nat, quiet: bool) returns (lease: FileLease?, ghost tries: seq<FL.Try>)
      requires Valid() && start < capacity
      modifies os
      ensures Valid() && old(os.now) <= os.now && InRotation(tries, start, capacity)
      ensures os.Tries() == old(os.Tries()) + tries
      ensures lease == null ==> |tries| == capacity && Busy(tries) && os.Mine() == old(os.Mine())
      ensures lease != null ==>
                && fresh(lease) && fresh(lease.lock) && NewlyHeld(lease, old(os.Mine()))
                && Finds(tries, lease.slot, capacity)
      ensures quiet ==> AllMeet(tries, old(os.world).holder)
      ensures quiet && lease == null ==> os.world.holder == old(os.world).holder
    {
      ghost var holder, mine, before := os.world.holder, os.Mine(), os.Tries();
      tries := [];
      var offset := 0;
      while offset < capacity
        invariant 0 <= offset == |tries| <= capacity
        invariant Valid() && os.Mine() == mine && old(os.now) <= os.now
        invariant InRotation(tries, start, capacity) && Busy(tries)
        invariant os.Tries() == before + tries
        invariant quiet ==> os.world.holder == holder && AllMeet(tries, holder)
      {
        var slot := Slot(start, offset, capacity);
        ghost var found;
        lease, found := ProbeOne(slot, quiet);
        OneMoreProbe(tries, FL.Try(slot, found), start, capacity);
        tries := tries + [FL.Try(slot, found)];
        if lease != null {
          return;
        }
        offset := offset + 1;
      }
      lease := null;
    }

    /** One rotated round. */
    method TrySlotsOnce(start: nat, quiet: bool) returns (lease: FileLease?, ghost tries: seq<FL.Try>)
      requires Valid() && start < capacity
      modifies os
      ensures Valid() && old(os.now) <= os.now && InRotation(tries, start, capacity)
      ensures os.Tries() == old(os.Tries()) + tries
      ensures lease == null ==> InVain(tries, capacity) && os.Mine() == old(os.Mine())
      ensures lease != null ==>
                && fresh(lease) && fresh(lease.lock) && NewlyHeld(lease, old(os.Mine()))
                && Finds(tries, lease.slot, capacity)
      ensures quiet ==> (lease == null <==> AllTaken(old(os.world).holder, capacity))
      ensures quiet && lease != null ==> FirstFree(lease.slot, old(os.world).holder, start, capacity)
      ensures quiet && lease == null ==> os.world.holder == old(os.world).holder
    {
      ghost var holder := os.world.holder;
      lease, tries := ProbeInOrder(start, quiet);
      if quiet {
        QuietRound(tries, holder, start, capacity, if lease == null then None else Some(lease.slot));
      }
    }

    /** The sleep between two rounds, with what is left of the wait at most. */
    method Rest(deadline: Time, quiet: bool) returns (ghost slept: Sleep)
      requires Valid() && os.now < deadline
      modifies os
      ensures Valid() && os.Mine() == old(os.Mine()) && os.Tries() == old(os.Tries())
      ensures FairSleep(slept, pollInterval, jitter, deadline)
      ensures old(os.now) + pollInterval <= os.now || deadline <= os.now
      ensures old(os.now) <= os.now && (quiet ==> os.world == old(os.world))
    {
      var remaining := deadline - os.now;
      var extra: Time := *;
      var sleepFor := pollInterval + if 0.0 <= extra <= jitter then extra else 0.0;
      var pause := if remaining <= sleepFor then remaining else sleepFor;
      slept := Sleep(os.now, pause);
      os.Interfere(pause, quiet);
    }

    /** One more round of an acquire, appended to those made before. */
    method Again(quiet: bool, ghost rounds: seq<seq<FL.Try>>, ghost before: seq<FL.Try>)
      returns (lease: FileLease?, ghost more: seq<seq<FL.Try>>)
      requires Valid() && AllInVain(rounds, capacity) && os.Tries() == before + Flat(rounds)
      modifies os
      ensures Valid() && old(os.now) <= os.now && |more| == |rounds| + 1 && more[..|rounds|] == rounds
      ensures os.Tries() == before + Flat(more)
      ensures lease == null ==> AllInVain(more, capacity) && os.Mine() == old(os.Mine())
      ensures lease != null ==>
                && fresh(lease) && fresh(lease.lock) && NewlyHeld(lease, old(os.Mine()))
                && Finds(more[|rounds|], lease.slot, capacity)
      ensures quiet ==> (lease == null <==> AllTaken(old(os.world).holder, capacity))
      ensures quiet && lease == null ==> os.world.holder == old(os.world).holder
    {
      var start: nat :| start < capacity;
      ghost var tries;
      lease, tries := TrySlotsOnce(start, quiet);
      more := rounds + [tries];
      OneMoreRound(rounds, tries, capacity);
    }

    /** Rounds and sleeps until a slot is found or the deadline has passed; the ghost parameters say how it starts. */
    method RoundsUntil(timeoutSeconds: Time, quiet: bool, ghost begun: Time, ghost before: seq<FL.Try>,
                       ghost mine: map<nat, nat>, ghost holder: map<nat, nat>)
      returns (lease: FileLease?, rounds: nat, ghost tried: seq<seq<FL.Try>>, ghost sleeps: seq<Sleep>)
      requires Valid() && timeoutSeconds >= 0.0
      requires os.now == begun && os.Tries() == before && os.Mine() == mine && os.world.holder == holder
      modifies os
      ensures Valid() && 1 <= rounds <= Ceil(timeoutSeconds / pollInterval) + 1
      ensures |sleeps| == rounds - 1 && |tried| == rounds && os.Tries() == before + Flat(tried)
      ensures lease == null ==>
                AllInVain(tried, capacity) && os.Mine() == mine && begun + timeoutSeconds <= os.now
      ensures lease != null ==>
                && fresh(lease) && fresh(lease.lock) && NewlyHeld(lease, mine)
                && AllInVain(tried[..rounds - 1], capacity) && Finds(tried[rounds - 1], lease.slot, capacity)
      ensures quiet ==> (lease == null <==> AllTaken(holder, capacity)) && (lease != null ==> rounds == 1)
      ensures forall n :: 0 <= n < |sleeps| ==> FairSleep(sleeps[n], pollInterval, jitter, begun + timeoutSeconds)
    {
      var deadline := os.now + timeoutSeconds;
      sleeps, rounds, lease, tried := [], 0, null, [];
      BudgetStart(pollInterval, timeoutSeconds);
      while true
        invariant Valid() && os.Mine() == mine && begun <= os.now
        invariant InBudget(rounds, os.now - begun, pollInterval, timeoutSeconds)
        invariant |tried| == |sleeps| == rounds && AllInVain(tried, capacity) && os.Tries() == before + Flat(tried)
        invariant quiet ==> os.world.holder == holder && (rounds > 0 ==> AllTaken(holder, capacity))
        invariant forall n :: 0 <= n < |sleeps| ==> FairSleep(sleeps[n], pollInterval, jitter, deadline)
        decreases Ceil(timeoutSeconds / pollInterval) + 1 - rounds
      {
        lease, tried := Again(quiet, tried, before);
        rounds := rounds + 1;
        if lease != null || deadline <= os.now {
          return;
        }
        ghost var slept, elapsed := Sleep(0.0, 0.0), os.now - begun;
        slept := Rest(deadline, quiet);
        sleeps := sleeps + [slept];
        BudgetStep(rounds - 1, elapsed, os.now - begun, pollInterval, timeoutSeconds);
      }
    }

    /** Admission with a deadline. Besides the lease, or null for FileLaneTimeout or ValueError, the number of rounds
        made, what each of them met, and the sleeps asked for. If `quiet`, nobody else does anything meanwhile. */
    method Acquire(timeoutSeconds: Time, quiet: bool)
      returns (lease: FileLease?, valueError: bool, rounds: nat, ghost tried: seq<seq<FL.Try>>,
               ghost sleeps: seq<Sleep>)
      requires Valid()
      modifies os
      ensures Valid() && (valueError <==> timeoutSeconds < 0.0)
      ensures valueError ==> lease == null && rounds == 0 && os.world == old(os.world)
      ensures !valueError ==> 1 <= rounds <= Ceil(timeoutSeconds / pollInterval) + 1 && |sleeps| == rounds - 1
      ensures |tried| == rounds && os.Tries() == old(os.Tries()) + Flat(tried)
      ensures lease == null ==> AllInVain(tried, capacity) && os.Mine() == old(os.Mine())
      ensures !valueError && lease == null ==> old(os.now) + timeoutSeconds <= os.now
      ensures lease != null ==>
                && fresh(lease) && fresh(lease.lock) && NewlyHeld(lease, old(os.Mine())) && rounds > 0
                && AllInVain(tried[..rounds - 1], capacity) && Finds(tried[rounds - 1], lease.slot, capacity)
      ensures quiet && !valueError ==>
                (lease == null <==> AllTaken(old(os.world).holder, capacity)) && (lease != null ==> rounds == 1)
      ensures forall n :: 0 <= n < |sleeps| ==>
                FairSleep(sleeps[n], pollInterval, jitter, old(os.now) + timeoutSeconds)
    {
      valueError := timeoutSeconds < 0.0;
      if valueError {
        return null, true, 0, [], [];
      }
      ghost var begun, before, mine, holder := os.now, os.Tries(), os.Mine(), os.world.holder;
      lease, rounds, tried, sleeps := RoundsUntil(timeoutSeconds, quiet, begun, before, mine, holder);
    }
  }
}
