/** The table of queue slots and the two sections of aalp/gateway.py that run under `_queue_lock`, on values. */
module Coalescing {
  import opened Splice
  import opened Queues
  import opened Handoff

  /** Provider id and queue key. */
  type SlotKey = (string, string)

  /** One slot with its generation. `sent` and `results` record every body handed to the forwarder
      and every write to the slot's result. */
  datatype Slot = Slot(
    key: SlotKey,
    members: seq<Member>,
    state: GenState,
    total: nat,
    sent: seq<Json>,
    results: seq<AalpResult>,
    done: bool)

  /** `open` is `_open_queue_slots`, naming slots by position in `slots`, which holds every slot ever made.
      `faults` counts QueueGenerationSealed exceptions. */
  datatype Table = Table(open: map<SlotKey, nat>, slots: seq<Slot>, faults: nat)

  const EMPTY := Table(map[], [], 0)

  /** What the lock section of `handle_queue` decided: a new slot to lead, a slot joined, or an exception. */
  datatype Placement = Opened(slot: nat) | Joined(slot: nat, index: nat) | Raised

  /** The slot after one more member; it seals as soon as it reaches the limit. */
  function Grow(slot: Slot, m: Member, limit: int): Slot {
    var total := slot.total + m.size;
    slot.(members := slot.members + [m], total := total, state := if total >= limit then Ready else slot.state)
  }

  function Coalesce(t: Table, key: SlotKey, m: Member, limit: int): (Table, Placement) {
    if key !in t.open then
      var k := |t.slots|;
      var slot := Slot(key, [m], Open, m.size, [], [], false);
      if m.size >= limit then (t.(slots := t.slots + [slot.(state := Ready)]), Opened(k))
      else (t.(slots := t.slots + [slot], open := t.open[key := k]), Opened(k))
    else if t.open[key] >= |t.slots| || !t.slots[t.open[key]].state.Open? then
      (t.(faults := t.faults + 1), Raised)
    else
      var k := t.open[key];
      var grown := Grow(t.slots[k], m, limit);
      (t.(slots := t.slots[k := grown],
          open := if grown.total >= limit then t.open - {key} else t.open),
       Joined(k, |t.slots[k].members|))
  }

  function SealIfOpen(slot: Slot): Slot {
    slot.(state := if slot.state.Open? then Ready else slot.state)
  }

  function CloseSlot(t: Table, k: nat): Table
    requires k < |t.slots|
  {
    var slot := t.slots[k];
    t.(open := if slot.key in t.open && t.open[slot.key] == k then t.open - {slot.key} else t.open,
       slots := t.slots[k := SealIfOpen(slot)])
  }

  lemma {:induction false} JoiningTable(t: Table, key: SlotKey, m: Member, limit: int)
    requires key in t.open && t.open[key] < |t.slots| && t.slots[t.open[key]].state.Open?
    ensures var k := t.open[key];
            var grown := Grow(t.slots[k], m, limit);
            Coalesce(t, key, m, limit)
            == (t.(slots := t.slots[k := grown], open := if grown.total >= limit then t.open - {key} else t.open),
                Joined(k, |t.slots[k].members|))
  {
  }

  // ----- Invariant of the table -----

  function Bytes(ms: seq<Member>): nat {
    if ms == [] then 0 else Bytes(ms[..|ms| - 1]) + ms[|ms| - 1].size
  }

  /** Bytes are counted exactly, and nobody is let in once the bound is reached. */
  predicate Measured(slot: Slot, limit: int) {
    && slot.members != []
    && slot.total == Bytes(slot.members)
    && (slot.state.Open? ==> slot.total < limit)
    && (forall n :: 0 < n < |slot.members| ==> Bytes(slot.members[..n]) < limit)
  }

  predicate RegisteredRight(t: Table, key: SlotKey)
    requires key in t.open
  {
    t.open[key] < |t.slots| && t.slots[t.open[key]].key == key && t.slots[t.open[key]].state.Open?
  }

  /** A slot is open exactly while it is registered, under its own key. */
  predicate TableOk(t: Table, limit: int) {
    && t.faults == 0
    && (forall key | key in t.open :: RegisteredRight(t, key))
    && (forall k :: 0 <= k < |t.slots| && t.slots[k].state.Open? ==>
          t.slots[k].key in t.open && t.open[t.slots[k].key] == k)
    && (forall k {:trigger Measured(t.slots[k], limit)} :: 0 <= k < |t.slots| ==> Measured(t.slots[k], limit))
  }

  lemma {:induction false} AppendMeasured(slot: Slot, m: Member, limit: int)
    requires Measured(slot, limit) && slot.state.Open?
    ensures Measured(Grow(slot, m, limit), limit)
  {
    var ms := slot.members + [m];
    assert ms[..|ms| - 1] == slot.members;
    forall n | 0 < n < |ms|
      ensures Bytes(ms[..n]) < limit
    {
      if n < |slot.members| {
        assert ms[..n] == slot.members[..n];
      }
    }
  }

  lemma {:induction false} CoalesceKeepsTable(t: Table, key: SlotKey, m: Member, limit: int)
    requires TableOk(t, limit)
    ensures TableOk(Coalesce(t, key, m, limit).0, limit)
    ensures !Coalesce(t, key, m, limit).1.Raised?
  {
    var u := Coalesce(t, key, m, limit).0;
    if key in t.open {
      assert RegisteredRight(t, key);
      AppendMeasured(t.slots[t.open[key]], m, limit);
      forall o | o in u.open
        ensures RegisteredRight(u, o)
      {
        assert RegisteredRight(t, o);
      }
    } else {
      assert Bytes([m]) == m.size by { assert [m][..0] == []; }
      var made := u.slots[|t.slots|];
      assert Measured(made, limit);
      assert forall k :: 0 <= k < |t.slots| ==> u.slots[k] == t.slots[k];
      forall o | o in u.open
        ensures RegisteredRight(u, o)
      {
        assert o != key ==> RegisteredRight(t, o);
      }
    }
  }

  predicate OpenUnder(t: Table, key: SlotKey, k: nat) {
    k < |t.slots| && t.slots[k].state.Open? && t.slots[k].key == key
  }

  /** `after` has one member more, and is open exactly if its members are still below the limit. */
  predicate TakesIn(before: Slot, after: Slot, m: Member, limit: int) {
    && after == before.(members := before.members + [m], total := after.total, state := after.state)
    && after.total == Bytes(after.members)
    && after.state == (if after.total < limit then Open else Ready)
  }

  /** A member joins the slot that is open under its key, of which there is at most one, in the next place;
      without one it opens a slot of its own, which is open to others exactly if it is below the limit.
      Nobody else's slot changes. */
  lemma {:induction false} JoinsIffOpen(t: Table, key: SlotKey, m: Member, limit: int)
    requires TableOk(t, limit)
    ensures var (u, placed) := Coalesce(t, key, m, limit);
            && (forall k: nat :: OpenUnder(t, key, k) ==>
                  && placed == Joined(k, |t.slots[k].members|) && |u.slots| == |t.slots|
                  && TakesIn(t.slots[k], u.slots[k], m, limit)
                  && (forall o :: 0 <= o < |t.slots| && o != k ==> u.slots[o] == t.slots[o]))
            && ((forall k: nat :: !OpenUnder(t, key, k)) ==>
                  && placed == Opened(|t.slots|) && |u.slots| == |t.slots| + 1
                  && TakesIn(Slot(key, [], Open, 0, [], [], false), u.slots[|t.slots|], m, limit)
                  && (forall o :: 0 <= o < |t.slots| ==> u.slots[o] == t.slots[o]))
  {
    if key in t.open {
      assert RegisteredRight(t, key);
      var k := t.open[key];
      assert OpenUnder(t, key, k);
      var ms := t.slots[k].members;
      assert Measured(t.slots[k], limit);
      assert (ms + [m])[..|ms|] == ms;
    } else {
      assert Bytes([m]) == m.size by { assert [m][..0] == []; }
      assert [] + [m] == [m];
    }
  }

  /** Closing a slot never touches the registration of another one, whatever key it reused. */
  lemma {:induction false} CloseKeepsTable(t: Table, limit: int, k: nat)
    requires TableOk(t, limit) && k < |t.slots|
    ensures TableOk(CloseSlot(t, k), limit)
    ensures forall o :: o in t.open && t.open[o] != k ==>
              o in CloseSlot(t, k).open && CloseSlot(t, k).open[o] == t.open[o]
    ensures forall o :: o in CloseSlot(t, k).open ==> CloseSlot(t, k).open[o] != k
  {
    var u := CloseSlot(t, k);
    forall o | o in t.open && t.open[o] != k
      ensures o in u.open
    {
      assert RegisteredRight(t, o);
    }
    forall o | o in u.open
      ensures RegisteredRight(u, o) && u.open[o] != k
    {
      assert RegisteredRight(t, o);
    }
    forall o | 0 <= o < |u.slots|
      ensures Measured(u.slots[o], limit)
    {
      assert Measured(t.slots[o], limit);
    }
  }

  /** Replacing a slot that is closed and stays closed. */
  lemma {:induction false} ClosedSlotStep(t: Table, limit: int, k: nat, slot: Slot)
    requires TableOk(t, limit) && k < |t.slots|
    requires !t.slots[k].state.Open? && !slot.state.Open? && slot.key == t.slots[k].key && Measured(slot, limit)
    ensures TableOk(t.(slots := t.slots[k := slot]), limit)
  {
    var u := t.(slots := t.slots[k := slot]);
    forall key | key in u.open
      ensures RegisteredRight(u, key)
    {
      assert RegisteredRight(t, key);
    }
    forall o | 0 <= o < |u.slots|
      ensures Measured(u.slots[o], limit)
    {
      assert Measured(t.slots[o], limit);
    }
  }

  /** What stays fixed about a slot once it has left OPEN. */
  predicate Frozen(before: Slot, after: Slot, fmt: Formatter) {
    && after.key == before.key
    && |after.members| == |before.members|
    && (forall j :: 0 <= j < |before.members| ==>
          after.members[j].id == before.members[j].id && after.members[j].size == before.members[j].size)
    && Build(after.members, fmt) == Build(before.members, fmt)
    && after.total == before.total
    && !after.state.Open?
  }

  lemma {:induction false} SameSizesSameBytes(a: seq<Member>, b: seq<Member>)
    requires |a| == |b| && forall j :: 0 <= j < |a| ==> a[j].size == b[j].size
    ensures Bytes(a) == Bytes(b)
  {
    if a != [] {
      SameSizesSameBytes(a[..|a| - 1], b[..|b| - 1]);
    }
  }

  lemma {:induction false} AssemblyFreezes(slot: Slot, fmt: Formatter, limit: int)
    requires Measured(slot, limit) && !slot.state.Open?
    ensures var after := slot.(members := AfterBuild(slot.members, fmt));
            Frozen(slot, after, fmt) && Measured(after, limit)
  {
    RebuildIsIdempotent(slot.members, fmt);
    var ms := AfterBuild(slot.members, fmt);
    SameSizesSameBytes(slot.members, ms);
    forall n | 0 < n < |ms|
      ensures Bytes(ms[..n]) < limit
    {
      SameSizesSameBytes(slot.members[..n], ms[..n]);
    }
  }
}
