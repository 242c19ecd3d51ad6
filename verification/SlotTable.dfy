/** The gateway's slot objects and `_open_queue_slots`, updated in place, against the tables of Coalescing. */
module SlotTable {
  import opened Basics
  import opened Queues
  import opened Handoff
  import opened Coalescing

  class QueueSlot {
    const generation: QueueGeneration
    var totalMemberBytes: nat
    var result: Option<AalpResult>
    var doneEvent: bool

    constructor (generation: QueueGeneration, totalMemberBytes: nat)
      ensures this.generation == generation && this.totalMemberBytes == totalMemberBytes
      ensures result == None && !doneEvent
    {
      this.generation, this.totalMemberBytes, result, doneEvent := generation, totalMemberBytes, None, false;
    }

    /** The object's fields are those of the slot value. */
    ghost predicate Shows(v: Slot)
      reads this, generation
    {
      && (generation.providerId, generation.queueKey) == v.key
      && generation.members == v.members
      && generation.state == v.state
      && totalMemberBytes == v.total
      && doneEvent == v.done
      && result == if v.results == [] then None else Some(v.results[|v.results| - 1])
    }

    /** One more member, sealing when the limit is reached. */
    method Add(member: Member, limit: int, ghost v: Slot) returns (full: bool, raised: bool)
      requires Shows(v) && v.state.Open?
      modifies this`totalMemberBytes, generation
      ensures Shows(Grow(v, member, limit)) && !raised
      ensures full <==> Grow(v, member, limit).total >= limit
    {
      raised := generation.Append(member);
      totalMemberBytes := totalMemberBytes + member.size;
      full := totalMemberBytes >= limit;
      if full {
        raised := generation.Seal();
      }
    }

    method CloseMembership(ghost v: Slot) returns (raised: bool)
      requires Shows(v)
      modifies generation`state
      ensures Shows(SealIfOpen(v)) && !raised
    {
      raised := false;
      if generation.state == Open {
        raised := generation.Seal();
      }
    }

    /** `_finish_leader` up to the audit entry: whatever state a failure left, through to DONE; then the result,
        then the event. None of the guarded transitions raises. */
    method FinishLeader(outcome: AalpResult) returns (raised: bool)
      modifies this, generation`state
      ensures !raised && generation.state == Complete
      ensures result == Some(outcome) && doneEvent && totalMemberBytes == old(totalMemberBytes)
    {
      raised := false;
      if generation.state == Open {
        raised := generation.Seal();
      }
      if generation.state == Ready {
        raised := generation.MarkInFlight();
      }
      if generation.state == InFlight {
        raised := generation.MarkDone();
      }
      result := Some(outcome);
      doneEvent := true;
    }
  }

  /** The objects show these slot values. */
  ghost predicate Shown(slots: seq<QueueSlot>, vs: seq<Slot>, repr: set<object>)
    reads repr
  {
    && |slots| == |vs|
    && forall i :: 0 <= i < |slots| ==> slots[i] in repr && slots[i].generation in repr && slots[i].Shows(vs[i])
  }

  ghost predicate Distinct(slots: seq<QueueSlot>) {
    forall i, j :: 0 <= i < j < |slots| ==> slots[i] != slots[j] && slots[i].generation != slots[j].generation
  }

  /** `open` refers to the objects at these positions. */
  ghost predicate Linked(open: map<SlotKey, QueueSlot>, slots: seq<QueueSlot>, positions: map<SlotKey, nat>) {
    && open.Keys == positions.Keys
    && forall k :: k in open ==> positions[k] < |slots| && open[k] == slots[positions[k]]
  }

  class OpenSlots {
    const limit: int
    var open: map<SlotKey, QueueSlot>
    ghost var view: Table
    ghost var slots: seq<QueueSlot>
    ghost var repr: set<object>

    /** `view` is the value of the table; `slots` are the objects behind `view.slots`, all different. */
    ghost predicate Backed()
      reads this, repr
    {
      this !in repr && Shown(slots, view.slots, repr) && Distinct(slots) && Linked(open, slots, view.open)
    }

    ghost predicate Valid()
      reads this, repr
    {
      Backed() && TableOk(view, limit)
    }

    constructor (limit: int)
      ensures Valid() && view == EMPTY && this.limit == limit && repr == {}
    {
      this.limit, open, view, slots, repr := limit, map[], EMPTY, [], {};
    }

    ghost method Extend(slot: QueueSlot, v: Slot, t: Table)
      requires this !in repr && Shown(slots, view.slots, repr) && Distinct(slots)
      requires slot !in repr && slot.generation !in repr && slot.Shows(v) && t.slots == view.slots + [v]
      requires open.Keys == t.open.Keys
      requires forall k :: k in open ==>
                 t.open[k] <= |slots| && open[k] == if t.open[k] < |slots| then slots[t.open[k]] else slot
      modifies `view, `slots, `repr
      ensures Backed() && view == t && slots == old(slots) + [slot] && repr == old(repr) + {slot, slot.generation}
    {
      view := t;
      slots := slots + [slot];
      repr := repr + {slot, slot.generation};
    }

    /** A new slot for a new generation with one member. */
    method Lead(providerId: string, queueKey: string, generationId: string, member: Member) returns (slot: QueueSlot)
      requires Backed() && (providerId, queueKey) !in open
      modifies this
      ensures Backed() && fresh(repr - old(repr))
      ensures view == Coalesce(old(view), (providerId, queueKey), member, limit).0
      ensures slots == old(slots) + [slot]
    {
      var key := (providerId, queueKey);
      var generation := new QueueGeneration(generationId, providerId, queueKey);
      var raised := generation.Append(member);
      slot := new QueueSlot(generation, member.size);
      if slot.totalMemberBytes >= limit {
        raised := generation.Seal();
      } else {
        open := open[key := slot];
      }
      ghost var v := Slot(key, [member], generation.state, member.size, [], [], false);
      assert Coalesce(view, key, member, limit).0.slots == view.slots + [v];
      assert slot.Shows(v);
      Extend(slot, v, Coalesce(view, key, member, limit).0);
    }

    method UnregisterIf(full: bool, key: SlotKey)
      requires Linked(open, slots, view.open)
      modifies `open
      ensures Linked(open, slots, if full then view.open - {key} else view.open)
    {
      if full {
        open := open - {key};
      }
    }

    /** One more member in one slot; the other slots look as before. */
    method AddTo(slot: QueueSlot, ghost k: nat, member: Member) returns (full: bool, raised: bool)
      requires Backed() && k < |slots| && slot == slots[k] && view.slots[k].state.Open?
      modifies slot`totalMemberBytes, slot.generation
      ensures !raised && (full <==> Grow(view.slots[k], member, limit).total >= limit)
      ensures Shown(slots, view.slots[k := Grow(view.slots[k], member, limit)], repr)
    {
      full, raised := slot.Add(member, limit, view.slots[k]);
    }

    /** The objects' side of joining: the slot grows, and gives up its registration when it is full. */
    method Enlarge(key: SlotKey, member: Member, ghost k: nat) returns (slot: QueueSlot, raised: bool)
      requires Backed() && key in open && k == view.open[key] && view.slots[k].state.Open?
      modifies `open, repr
      ensures !raised && slot == slots[k] && Distinct(slots)
      ensures Shown(slots, view.slots[k := Grow(view.slots[k], member, limit)], repr)
      ensures var grown := Grow(view.slots[k], member, limit);
              Linked(open, slots, if grown.total >= limit then view.open - {key} else view.open)
    {
      slot := open[key];
      var full;
      full, raised := AddTo(slot, k, member);
      UnregisterIf(full, key);
    }

    /** The value side of a change to one slot object. */
    ghost method Replace(t: Table)
      requires this !in repr && Shown(slots, t.slots, repr) && Distinct(slots) && Linked(open, slots, t.open)
      modifies `view
      ensures Backed() && view == t
    {
      view := t;
    }

    method Join(key: SlotKey, member: Member, ghost k: nat, ghost grown: Slot) returns (slot: QueueSlot, raised: bool)
      requires Backed() && key in open && k == view.open[key] && view.slots[k].state.Open?
      requires grown == Grow(view.slots[k], member, limit)
      modifies `open, `view, repr
      ensures Backed() && !raised && slot == slots[k]
      ensures view == old(view).(slots := old(view).slots[k := grown],
                                 open := if grown.total >= limit then old(view).open - {key} else old(view).open)
    {
      slot, raised := Enlarge(key, member, k);
      Replace(view.(slots := view.slots[k := grown],
                    open := if grown.total >= limit then view.open - {key} else view.open));
    }

    /** The lock section of handle_queue. */
    method Submit(providerId: string, queueKey: string, generationId: string, member: Member)
      returns (slot: QueueSlot, isLeader: bool, raised: bool)
      requires Valid()
      modifies this, repr
      ensures Valid() && fresh(repr - old(repr)) && !raised
      ensures view == Coalesce(old(view), (providerId, queueKey), member, limit).0
      ensures var placed := Coalesce(old(view), (providerId, queueKey), member, limit).1;
              && (isLeader <==> placed.Opened?) && !placed.Raised?
              && placed.slot < |slots| && slot == slots[placed.slot]
      ensures isLeader <==> forall k: nat :: !OpenUnder(old(view), (providerId, queueKey), k)
      ensures forall k: nat :: OpenUnder(old(view), (providerId, queueKey), k) ==> k < |slots| && slot == slots[k]
    {
      ghost var before := view;
      var key := (providerId, queueKey);
      JoinsIffOpen(view, key, member, limit);
      CoalesceKeepsTable(view, key, member, limit);
      if key !in open {
        slot := Lead(providerId, queueKey, generationId, member);
        return slot, true, false;
      } else {
        assert RegisteredRight(view, key);
        JoiningTable(view, key, member, limit);
        ghost var k := view.open[key];
        slot, raised := Join(key, member, k, Grow(view.slots[k], member, limit));
        isLeader := false;
      }
    }

    method Deregister(slot: QueueSlot, ghost k: nat)
      requires Backed() && k < |slots| && slot == slots[k]
      modifies `open
      ensures Linked(open, slots, CloseSlot(view, k).open)
    {
      var key := (slot.generation.providerId, slot.generation.queueKey);
      assert key == view.slots[k].key;
      if key in open && open[key] == slot {
        open := open - {key};
      }
    }

    /** `_close_open_slot`: drops the registration only if it is still this very slot. */
    method CloseAt(slot: QueueSlot, ghost k: nat) returns (raised: bool)
      requires Backed() && k < |slots| && slot == slots[k]
      modifies this, slot.generation`state
      ensures Backed() && repr == old(repr) && slots == old(slots) && !raised
      ensures view == CloseSlot(old(view), k)
    {
      ghost var t := CloseSlot(view, k);
      Deregister(slot, k);
      raised := slot.CloseMembership(view.slots[k]);
      assert slots[k].Shows(t.slots[k]);
      Replace(t);
    }

    method Close(slot: QueueSlot, ghost k: nat) returns (raised: bool)
      requires Valid() && k < |slots| && slot == slots[k]
      modifies this, slot.generation`state
      ensures Valid() && repr == old(repr) && slots == old(slots) && !raised
      ensures view == CloseSlot(old(view), k)
    {
      CloseKeepsTable(view, limit, k);
      raised := CloseAt(slot, k);
    }

    // ----- The leader's steps on its closed slot -----

    /** The value side of a leader's step: slot `k` now shows `v`. */
    ghost method Advance(k: nat, v: Slot)
      requires TableOk(view, limit) && this !in repr && k < |view.slots|
      requires Shown(slots, view.slots[k := v], repr) && Distinct(slots) && Linked(open, slots, view.open)
      requires !view.slots[k].state.Open? && !v.state.Open? && v.key == view.slots[k].key && Measured(v, limit)
      modifies `view
      ensures Valid() && view == old(view).(slots := old(view).slots[k := v])
    {
      ClosedSlotStep(view, limit, k, v);
      Replace(view.(slots := view.slots[k := v]));
    }

    /** `build_physical_body` as the leader calls it. */
    method Assemble(slot: QueueSlot, fmt: Formatter, ghost k: nat) returns (built: Built)
      requires Valid() && k < |slots| && slot == slots[k] && !view.slots[k].state.Open?
      modifies slot.generation`members, `view
      ensures Valid() && built == Build(old(view).slots[k].members, fmt)
      ensures var v := old(view).slots[k];
              view == old(view).(slots := old(view).slots[k := v.(members := AfterBuild(v.members, fmt))])
    {
      ghost var v := view.slots[k];
      assert Measured(v, limit);
      AssemblyFreezes(v, fmt, limit);
      built := slot.generation.BuildPhysicalBody(fmt);
      Advance(k, v.(members := AfterBuild(v.members, fmt)));
    }

    method MarkInFlight(slot: QueueSlot, ghost k: nat) returns (raised: bool)
      requires Valid() && k < |slots| && slot == slots[k] && view.slots[k].state.Ready?
      modifies slot.generation`state, `view
      ensures Valid() && !raised
      ensures view == old(view).(slots := old(view).slots[k := old(view).slots[k].(state := InFlight)])
    {
      ghost var v := view.slots[k];
      assert Measured(v, limit);
      raised := slot.generation.MarkInFlight();
      Advance(k, v.(state := InFlight));
    }

    /** `_finish_leader` up to the audit entry. */
    method Finish(slot: QueueSlot, outcome: AalpResult, ghost k: nat) returns (raised: bool)
      requires Valid() && k < |slots| && slot == slots[k] && !view.slots[k].state.Open?
      modifies slot, slot.generation`state, `view
      ensures Valid() && !raised
      ensures var v := old(view).slots[k];
              var v' := v.(state := Complete, results := v.results + [outcome], done := true);
              view == old(view).(slots := old(view).slots[k := v'])
    {
      ghost var v := view.slots[k];
      assert Measured(v, limit);
      raised := slot.FinishLeader(outcome);
      Advance(k, v.(state := Complete, results := v.results + [outcome], done := true));
    }
  }
}
