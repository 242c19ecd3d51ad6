/** The coalescing side of the gateway invariant: members, generations and the requests behind them. */
module GatewaySlots {
  import opened Basics
  import opened Splice
  import opened Queues
  import opened Handoff
  import opened Coalescing
  import opened Gateway
  import opened GatewayLanes
  import LaneSharing
  import Lane = LaneModel

  // ----- A leader and its slot -----

  /** One body at most was sent, it was the assembly of the slot's members, and it went out with the worker. */
  predicate SentOk(slot: Slot, r: Req, fmt: Formatter) {
    && (slot.sent == [] <==> r.call.worker.Unstarted?)
    && |slot.sent| <= 1
    && (slot.sent != [] ==>
          Build(slot.members, fmt) == Body(slot.sent[0]) && (slot.state.InFlight? || slot.state.Complete?))
  }

  predicate Unpublished(slot: Slot) {
    slot.results == [] && !slot.done
  }

  /** Until its leader closes it, a slot takes members exactly while they are below the limit together. */
  predicate Joinable(slot: Slot, limit: int) {
    slot.state == (if slot.total < limit then Open else Ready) && Unpublished(slot)
  }

  predicate Agree(slot: Slot, r: Req, c: Config) {
    && r.holder != ""
    && SentOk(slot, r, c.fmt)
    && match r.pc
       case Entering => Joinable(slot, c.limit)
       case Acquiring(_) => Joinable(slot, c.limit)
       case AtLane(_) => Joinable(slot, c.limit)
       case Queued(_, _) => Joinable(slot, c.limit)
       case Settled(_) => Joinable(slot, c.limit)
       case Admitted => slot.state.Ready? && Unpublished(slot)
       case Overdue => slot.state.Ready? && Unpublished(slot)
       case Cleared => slot.state.Ready? && Unpublished(slot)
       case Assembled(b) => slot.state.Ready? && Unpublished(slot) && Build(slot.members, c.fmt) == Body(b)
       case Executing(b) =>
         slot.state.InFlight? && Unpublished(slot) && b.Some? && Build(slot.members, c.fmt) == Body(b.value)
       case Forwarding => slot.state.InFlight? && Unpublished(slot)
       case Returned(_) => slot.state.InFlight? && Unpublished(slot)
       case Finishing(_) => (slot.state.Ready? || slot.state.InFlight?) && Unpublished(slot)
       case Marked(_) => slot.state.Complete? && Unpublished(slot)
       case Published(result) => slot.state.Complete? && slot.results == [result] && !slot.done
       case Finished(result) => slot.state.Complete? && slot.results == [result] && slot.done
       case Escaped(cause) =>
         && Unpublished(slot)
         && ((cause.Unbuildable? && slot.state.Ready? && Build(slot.members, c.fmt).Escapes?)
             || (cause.Unprepared? && (slot.state.Ready? || slot.state.InFlight?))
             || (cause.Overflowed? && slot.state.InFlight? && r.call != IDLE))
       case _ => false
  }

  /** A joiner waits, or returned the published result, or returned its own timeout after its own deadline,
      or could not wait as long as it was asked to. */
  predicate JoinerOk(slot: Slot, r: Req, now: Time) {
    && r.call == IDLE
    && match r.pc
       case Watching => true
       case Finished(result) =>
         || (slot.done && slot.results == [result])
         || (result == Plainly(TotalTimeout) && r.totalDeadline <= now)
       case Escaped(cause) => cause.Overflowed?
       case _ => false
  }

  predicate PlainPc(pc: Pc) {
    && !(pc.Joining? || pc.Settled? || pc.Cleared? || pc.Assembled? || pc.Finishing? || pc.Marked? || pc.Published?
         || pc.Watching?)
    && !(pc.Escaped? && (pc.cause.Unbuildable? || pc.cause.Internal?))
  }

  // ----- What the members submitted -----

  /** The length recorded with a submission is the one measured for its payload. */
  predicate Measures(c: Config, r: Req) {
    r.submitted.Some? && c.measure(r.submitted.value.payload) == Some(r.submitted.value.size)
  }

  /** The key a request coalesces under: its provider and its queue key. */
  function CoalescingKey(r: Req): SlotKey
    requires r.submitted.Some?
  {
    (r.provider, r.submitted.value.queueKey)
  }

  /** The member that request `id` is to be, from what it submitted. */
  function Original(s: System, id: nat): Member {
    if id < |s.reqs| && s.reqs[id].submitted.Some?
    then Member(id, s.reqs[id].submitted.value.payload, s.reqs[id].submitted.value.size)
    else Member(id, Null, 0)
  }

  function Originals(s: System, ms: seq<Member>): (os: seq<Member>)
    ensures |os| == |ms| && forall j :: 0 <= j < |ms| ==> os[j] == Original(s, ms[j].id)
  {
    seq(|ms|, j requires 0 <= j < |ms| => Original(s, ms[j].id))
  }

  /** The members are just what was submitted, up to the splice that assembly leaves in the leader's payload. */
  predicate Genuine(s: System, slot: Slot) {
    || slot.members == Originals(s, slot.members)
    || (!slot.state.Open? && slot.members == AfterBuild(Originals(s, slot.members), s.config.fmt))
  }

  predicate RoleOk(s: System, i: nat)
    requires i < |s.reqs|
  {
    var r := s.reqs[i];
    match r.role
    case Plain => PlainPc(r.pc) && (Overran(r.pc) ==> r.call != IDLE)
    case Arriving => r.pc.Joining? && r.holder != "" && r.call == IDLE && Measures(s.config, r)
    case Coalesced(k, j) =>
      && k < |s.table.slots|
      && j < |s.table.slots[k].members|
      && s.table.slots[k].members[j].id == i
      && Measures(s.config, r)
      && s.table.slots[k].key == CoalescingKey(r)
      && if j == 0 then Agree(s.table.slots[k], r, s.config) else JoinerOk(s.table.slots[k], r, s.now)
  }

  predicate MemberOk(s: System, k: nat, j: nat)
    requires k < |s.table.slots| && j < |s.table.slots[k].members|
  {
    var id := s.table.slots[k].members[j].id;
    id < |s.reqs| && s.reqs[id].role == Coalesced(k, j)
  }

  predicate SlotsOk(s: System) {
    && TableOk(s.table, s.config.limit)
    && (forall i :: 0 <= i < |s.reqs| ==> RoleOk(s, i))
    && (forall k, j :: 0 <= k < |s.table.slots| && 0 <= j < |s.table.slots[k].members| ==> MemberOk(s, k, j))
    && (forall k {:trigger Genuine(s, s.table.slots[k])} :: 0 <= k < |s.table.slots| ==> Genuine(s, s.table.slots[k]))
  }

  // ----- Submissions are kept -----

  ghost predicate SameSubmissions(s: System, s': System) {
    && s'.config == s.config && |s.reqs| <= |s'.reqs|
    && forall o :: 0 <= o < |s.reqs| ==> s'.reqs[o].submitted == s.reqs[o].submitted
  }

  lemma {:induction false} SameOriginals(s: System, s': System, k: nat)
    requires SlotsOk(s) && SameSubmissions(s, s') && k < |s.table.slots|
    ensures var ms := s.table.slots[k].members; Originals(s', ms) == Originals(s, ms)
  {
    var ms := s.table.slots[k].members;
    forall j | 0 <= j < |ms|
      ensures Originals(s', ms)[j] == Originals(s, ms)[j]
    {
      assert MemberOk(s, k, j);
    }
  }

  lemma {:induction false} StaysGenuine(s: System, s': System, k: nat, slot': Slot)
    requires SlotsOk(s) && SameSubmissions(s, s') && k < |s.table.slots|
    requires slot'.members == s.table.slots[k].members && (!s.table.slots[k].state.Open? ==> !slot'.state.Open?)
    ensures Genuine(s', slot')
  {
    assert Genuine(s, s.table.slots[k]);
    SameOriginals(s, s', k);
  }

  /** Assembly, however often, leaves the originals as they were. */
  lemma {:induction false} AssemblyIsGenuine(s: System, s': System, k: nat, slot': Slot)
    requires SlotsOk(s) && SameSubmissions(s, s') && k < |s.table.slots| && !s.table.slots[k].state.Open?
    requires slot' == s.table.slots[k].(members := AfterBuild(s.table.slots[k].members, s.config.fmt))
    ensures Genuine(s', slot')
  {
    var ms, fmt := s.table.slots[k].members, s.config.fmt;
    assert Genuine(s, s.table.slots[k]);
    SameOriginals(s, s', k);
    RebuildIsIdempotent(Originals(s, ms), fmt);
    assert Originals(s', slot'.members) == Originals(s', ms);
  }

  // ----- Generic steps -----

  /** A step that leaves the table alone and only moves request `i` within its role. */
  lemma {:induction false} RequestStep(s: System, s': System, i: nat)
    requires SlotsOk(s) && i < |s.reqs| == |s'.reqs|
    requires s'.config == s.config && s'.table == s.table && s.now <= s'.now
    requires forall o :: 0 <= o < |s.reqs| && o != i ==> s'.reqs[o] == s.reqs[o]
    requires s'.reqs[i].role == s.reqs[i].role && SamePerson(s.reqs[i], s'.reqs[i]) && RoleOk(s', i)
    ensures SlotsOk(s')
  {
    forall k | 0 <= k < |s'.table.slots|
      ensures Genuine(s', s'.table.slots[k])
    {
      StaysGenuine(s, s', k, s'.table.slots[k]);
    }
    forall o | 0 <= o < |s'.reqs|
      ensures RoleOk(s', o)
    {
      assert RoleOk(s, o);
    }
    forall k, j | 0 <= k < |s'.table.slots| && 0 <= j < |s'.table.slots[k].members|
      ensures MemberOk(s', k, j)
    {
      assert MemberOk(s, k, j);
    }
  }

  /** What a leader's step on its own slot must leave as its joiners may have seen it. */
  predicate Evolves(slot: Slot, slot': Slot) {
    && slot'.key == slot.key
    && |slot'.members| == |slot.members|
    && (forall j :: 0 <= j < |slot.members| ==> slot'.members[j].id == slot.members[j].id)
    && (slot.done ==> slot'.done && slot'.results == slot.results)
  }

  /** Leader `i` moves itself and its own slot, and nothing else. */
  ghost predicate IsLeaderStep(s: System, s': System, i: nat) {
    && i < |s.reqs| == |s'.reqs| && Leads(s.reqs[i])
    && s'.config == s.config && s.now <= s'.now && |s'.table.slots| == |s.table.slots|
    && (forall o :: 0 <= o < |s.reqs| && o != i ==> s'.reqs[o] == s.reqs[o])
    && s'.reqs[i].role == s.reqs[i].role && SamePerson(s.reqs[i], s'.reqs[i])
    && var at := s.reqs[i].role.slot;
       && at < |s.table.slots|
       && (forall k :: 0 <= k < |s.table.slots| && k != at ==> s'.table.slots[k] == s.table.slots[k])
       && Evolves(s.table.slots[at], s'.table.slots[at])
  }

  lemma {:induction false} LeaderStepRole(s: System, s': System, i: nat, o: nat)
    requires SlotsOk(s) && IsLeaderStep(s, s', i) && o < |s.reqs| && o != i
    ensures RoleOk(s', o)
  {
    assert RoleOk(s, i) && RoleOk(s, o);
  }

  lemma {:induction false} LeaderStep(s: System, s': System, i: nat)
    requires SlotsOk(s) && IsLeaderStep(s, s', i) && RoleOk(s', i) && TableOk(s'.table, s.config.limit)
    requires Genuine(s', s'.table.slots[s.reqs[i].role.slot])
    ensures SlotsOk(s')
  {
    forall k | 0 <= k < |s'.table.slots|
      ensures Genuine(s', s'.table.slots[k])
    {
      if k != s.reqs[i].role.slot { StaysGenuine(s, s', k, s'.table.slots[k]); }
    }
    forall o | 0 <= o < |s'.reqs|
      ensures RoleOk(s', o)
    {
      if o != i { LeaderStepRole(s, s', i, o); }
    }
    forall k, j | 0 <= k < |s'.table.slots| && 0 <= j < |s'.table.slots[k].members|
      ensures MemberOk(s', k, j)
    {
      assert MemberOk(s, k, j);
    }
  }

  /** A step of a leader that only replaces its slot. */
  lemma {:induction false} SlotMoves(s: System, s': System, i: nat, slot': Slot)
    requires SlotsOk(s) && i < |s.reqs| && Leads(s.reqs[i]) && InTable(s, s.reqs[i])
    requires i < |s'.reqs| && s' == Put(PutSlot(s, s.reqs[i].role.slot, slot'), i, s'.reqs[i])
    requires s'.reqs[i].role == s.reqs[i].role && SamePerson(s.reqs[i], s'.reqs[i]) && RoleOk(s', i)
    requires Evolves(s.table.slots[s.reqs[i].role.slot], slot') && Genuine(s', slot')
    requires TableOk(s.table.(slots := s.table.slots[s.reqs[i].role.slot := slot']), s.config.limit)
    ensures SlotsOk(s')
  {
    LeaderStep(s, s', i);
  }

  ghost predicate IsNewcomer(s: System, s': System) {
    && s'.config == s.config && s'.table == s.table && s.now <= s'.now
    && |s'.reqs| == |s.reqs| + 1
    && (forall o :: 0 <= o < |s.reqs| ==> s'.reqs[o] == s.reqs[o])
  }

  lemma {:induction false} NewcomerMember(s: System, s': System, k: nat, j: nat)
    requires SlotsOk(s) && IsNewcomer(s, s') && k < |s.table.slots| && j < |s.table.slots[k].members|
    ensures MemberOk(s', k, j)
  {
    assert MemberOk(s, k, j);
  }

  lemma {:induction false} NewcomerRole(s: System, s': System, o: nat)
    requires SlotsOk(s) && IsNewcomer(s, s') && o < |s.reqs|
    ensures RoleOk(s', o)
  {
    assert RoleOk(s, o);
  }

  lemma {:induction false} NewcomerKeepsSlots(s: System, s': System)
    requires SlotsOk(s) && IsNewcomer(s, s') && RoleOk(s', |s.reqs|)
    ensures SlotsOk(s')
  {
    forall k | 0 <= k < |s'.table.slots|
      ensures Genuine(s', s'.table.slots[k])
    {
      StaysGenuine(s, s', k, s'.table.slots[k]);
    }
    forall o | 0 <= o < |s'.reqs|
      ensures RoleOk(s', o)
    {
      if o < |s.reqs| { NewcomerRole(s, s', o); }
    }
    forall k, j | 0 <= k < |s'.table.slots| && 0 <= j < |s'.table.slots[k].members|
      ensures MemberOk(s', k, j)
    {
      NewcomerMember(s, s', k, j);
    }
  }

  lemma {:induction false} ForwardHasRole(s: System, a: Action)
    requires a.ArriveForward?
    ensures RoleOk(Arrive(s, ForwardRequest(s, a), a.later), |s.reqs|)
  {
  }

  lemma {:induction false} QueueHasRole(s: System, a: Action)
    requires a.ArriveQueue? && a.generationId != ""
    ensures RoleOk(Arrive(s, QueueRequest(s, a), a.later), |s.reqs|)
  {
  }

  lemma {:induction false} ArrivalKeepsSlots(s: System, a: Action)
    requires SlotsOk(s) && Enabled(s, a) && (a.ArriveForward? || a.ArriveQueue?)
    ensures SlotsOk(Next(s, a))
  {
    if a.ArriveForward? {
      ForwardHasRole(s, a);
    } else {
      QueueHasRole(s, a);
    }
    NewcomerKeepsSlots(s, Next(s, a));
  }

  // ----- The lock section of handle_queue -----

  lemma {:induction false} LeadingIsGenuine(s: System, i: nat, k: nat)
    requires SlotsOk(s) && i < |s.reqs| && Can(s, s.reqs[i], JoinQueue)
    requires CoalescingKey(s.reqs[i]) !in s.table.open
    requires k < |DoJoinQueue(s, i).table.slots|
    ensures Genuine(DoJoinQueue(s, i), DoJoinQueue(s, i).table.slots[k])
  {
    var s' := DoJoinQueue(s, i);
    if k < |s.table.slots| {
      StaysGenuine(s, s', k, s'.table.slots[k]);
    } else {
      assert s'.table.slots[k].members == [Original(s, i)];
      assert Originals(s', s'.table.slots[k].members) == [Original(s, i)];
    }
  }

  lemma {:induction false} LeadingRole(s: System, i: nat, o: nat)
    requires SlotsOk(s) && i < |s.reqs| && Can(s, s.reqs[i], JoinQueue) && o < |s.reqs|
    requires CoalescingKey(s.reqs[i]) !in s.table.open
    ensures RoleOk(DoJoinQueue(s, i), o)
  {
    assert RoleOk(s, i) && RoleOk(s, o);
  }

  lemma {:induction false} LeadingMember(s: System, i: nat, k: nat, j: nat)
    requires SlotsOk(s) && i < |s.reqs| && Can(s, s.reqs[i], JoinQueue)
    requires CoalescingKey(s.reqs[i]) !in s.table.open
    requires k < |DoJoinQueue(s, i).table.slots| && j < |DoJoinQueue(s, i).table.slots[k].members|
    ensures MemberOk(DoJoinQueue(s, i), k, j)
  {
    if k < |s.table.slots| {
      assert MemberOk(s, k, j);
    }
  }

  lemma {:induction false} LeadingKeepsSlots(s: System, i: nat)
    requires SlotsOk(s) && i < |s.reqs| && Can(s, s.reqs[i], JoinQueue)
    requires CoalescingKey(s.reqs[i]) !in s.table.open
    ensures SlotsOk(DoJoinQueue(s, i))
  {
    var r, s' := s.reqs[i], DoJoinQueue(s, i);
    CoalesceKeepsTable(s.table, CoalescingKey(r), Original(s, i), s.config.limit);
    forall k | 0 <= k < |s'.table.slots|
      ensures Genuine(s', s'.table.slots[k])
    {
      LeadingIsGenuine(s, i, k);
    }
    forall o | 0 <= o < |s'.reqs|
      ensures RoleOk(s', o)
    {
      LeadingRole(s, i, o);
    }
    forall k, j | 0 <= k < |s'.table.slots| && 0 <= j < |s'.table.slots[k].members|
      ensures MemberOk(s', k, j)
    {
      LeadingMember(s, i, k, j);
    }
  }

  /** Request `i` joins the slot `at` that is open under its key. */
  ghost predicate IsJoining(s: System, s': System, i: nat, at: nat) {
    && i < |s.reqs| == |s'.reqs| && s.reqs[i].role.Arriving?
    && at < |s.table.slots| == |s'.table.slots| && s.table.slots[at].state.Open?
    && s.reqs[i].submitted.Some? && s.table.slots[at].key == CoalescingKey(s.reqs[i])
    && s'.config == s.config && s'.now == s.now
    && (forall o :: 0 <= o < |s.reqs| && o != i ==> s'.reqs[o] == s.reqs[o])
    && (forall k :: 0 <= k < |s.table.slots| && k != at ==> s'.table.slots[k] == s.table.slots[k])
    && var r, slot, slot' := s.reqs[i], s.table.slots[at], s'.table.slots[at];
       && s'.reqs[i] == r.(role := Coalesced(at, |slot.members|), pc := Watching)
       && slot'.state == (if slot'.total < s.config.limit then Open else Ready)
       && slot' == slot.(members := slot.members + [Original(s, i)],
                         total := slot'.total, state := slot'.state)
  }

  lemma {:induction false} JoiningRole(s: System, s': System, i: nat, at: nat, o: nat)
    requires SlotsOk(s) && IsJoining(s, s', i, at) && o < |s.reqs|
    ensures RoleOk(s', o)
  {
    assert RoleOk(s, o);
    assert Measured(s.table.slots[at], s.config.limit);
    if o != i && s.reqs[o].role.Coalesced? && s.reqs[o].role.slot == at {
      var j := s.reqs[o].role.index;
      assert s'.table.slots[at].members[j] == s.table.slots[at].members[j];
    }
  }

  lemma {:induction false} JoiningMember(s: System, s': System, i: nat, at: nat, k: nat, j: nat)
    requires SlotsOk(s) && IsJoining(s, s', i, at)
    requires k < |s'.table.slots| && j < |s'.table.slots[k].members|
    ensures MemberOk(s', k, j)
  {
    if j < |s.table.slots[k].members| {
      assert MemberOk(s, k, j);
      assert s'.table.slots[k].members[j] == s.table.slots[k].members[j];
      assert s.table.slots[k].members[j].id != i;
    }
  }

  lemma {:induction false} JoiningIsGenuine(s: System, s': System, i: nat, at: nat, k: nat)
    requires SlotsOk(s) && IsJoining(s, s', i, at) && k < |s'.table.slots|
    ensures Genuine(s', s'.table.slots[k])
  {
    if k != at {
      StaysGenuine(s, s', k, s'.table.slots[k]);
    } else {
      var ms, ms' := s.table.slots[at].members, s'.table.slots[at].members;
      assert Genuine(s, s.table.slots[at]);
      SameOriginals(s, s', at);
      assert Originals(s', ms') == Originals(s', ms) + [Original(s, i)];
    }
  }

  lemma {:induction false} JoiningKeepsSlots(s: System, i: nat)
    requires SlotsOk(s) && i < |s.reqs| && Can(s, s.reqs[i], JoinQueue)
    requires CoalescingKey(s.reqs[i]) in s.table.open
    ensures SlotsOk(DoJoinQueue(s, i))
  {
    var r, s' := s.reqs[i], DoJoinQueue(s, i);
    var key := CoalescingKey(r);
    CoalesceKeepsTable(s.table, key, Original(s, i), s.config.limit);
    assert RegisteredRight(s.table, key);
    var at := s.table.open[key];
    assert IsJoining(s, s', i, at);
    forall k | 0 <= k < |s'.table.slots|
      ensures Genuine(s', s'.table.slots[k])
    {
      JoiningIsGenuine(s, s', i, at, k);
    }
    forall o | 0 <= o < |s'.reqs|
      ensures RoleOk(s', o)
    {
      JoiningRole(s, s', i, at, o);
    }
    forall k, j | 0 <= k < |s'.table.slots| && 0 <= j < |s'.table.slots[k].members|
      ensures MemberOk(s', k, j)
    {
      JoiningMember(s, s', i, at, k, j);
    }
  }

  // ----- Leader steps -----

  lemma {:induction false} CloseKeepsSlots(s: System, i: nat)
    requires SlotsOk(s) && i < |s.reqs| && Can(s, s.reqs[i], CloseOpenSlot)
    ensures SlotsOk(DoCloseOpenSlot(s, i))
  {
    assert RoleOk(s, i);
    CloseKeepsTable(s.table, s.config.limit, s.reqs[i].role.slot);
    StaysGenuine(s, DoCloseOpenSlot(s, i), s.reqs[i].role.slot, SealIfOpen(s.table.slots[s.reqs[i].role.slot]));
    LeaderStep(s, DoCloseOpenSlot(s, i), i);
  }

  /** The table, and the slot, after assembly. */
  lemma {:induction false} AssemblyKeepsTable(t: Table, limit: int, k: nat, fmt: Formatter)
    requires TableOk(t, limit) && k < |t.slots| && !t.slots[k].state.Open?
    ensures var slot' := t.slots[k].(members := AfterBuild(t.slots[k].members, fmt));
            && TableOk(t.(slots := t.slots[k := slot']), limit) && Evolves(t.slots[k], slot')
            && Build(slot'.members, fmt) == Build(t.slots[k].members, fmt)
  {
    assert Measured(t.slots[k], limit);
    AssemblyFreezes(t.slots[k], fmt, limit);
    ClosedSlotStep(t, limit, k, t.slots[k].(members := AfterBuild(t.slots[k].members, fmt)));
  }

  lemma {:induction false} AssemblyAgrees(slot: Slot, r: Req, c: Config)
    requires Agree(slot, r, c) && r.pc.Cleared? && r.call.worker.Unstarted? && Build(slot.members, c.fmt).Body?
    ensures var slot' := slot.(members := AfterBuild(slot.members, c.fmt));
            Agree(slot', r.(pc := Assembled(Build(slot.members, c.fmt).tree)), c)
  {
    RebuildIsIdempotent(slot.members, c.fmt);
  }

  lemma {:induction false} FailureAgrees(slot: Slot, r: Req, c: Config, releases: nat)
    requires Agree(slot, r, c) && r.pc.Cleared? && !Build(slot.members, c.fmt).Body?
    ensures Agree(slot, r.(pc := Finishing(Plainly(Unavailable)), releases := releases), c)
    ensures Build(slot.members, c.fmt).Escapes? ==> Agree(slot, r.(pc := Escaped(Unbuildable)), c)
  {
  }

  lemma {:induction false} AssemblyKeepsRole(s: System, s': System, i: nat, tree: Json)
    requires i < |s.reqs| && Placed(s, s.reqs[i]) && RoleOk(s, i) && Leads(s.reqs[i]) && s.reqs[i].pc.Cleared?
    requires var k, fmt := s.reqs[i].role.slot, s.config.fmt;
             var slot := s.table.slots[k];
             && Build(slot.members, fmt) == Body(tree)
             && s' == Put(PutSlot(s, k, slot.(members := AfterBuild(slot.members, fmt))), i,
                          s.reqs[i].(pc := Assembled(tree)))
    ensures RoleOk(s', i)
  {
    var slot := s.table.slots[s.reqs[i].role.slot];
    RebuildIsIdempotent(slot.members, s.config.fmt);
    AssemblyAgrees(slot, s.reqs[i], s.config);
  }

  lemma {:induction false} AssemblyKeepsSlots(s: System, s': System, i: nat, tree: Json)
    requires SlotsOk(s) && i < |s.reqs| && Leads(s.reqs[i]) && InTable(s, s.reqs[i])
    requires Placed(s, s.reqs[i]) && s.reqs[i].pc.Cleared?
    requires var k, fmt := s.reqs[i].role.slot, s.config.fmt;
             var slot := s.table.slots[k];
             && Build(slot.members, fmt) == Body(tree)
             && s' == Put(PutSlot(s, k, slot.(members := AfterBuild(slot.members, fmt))), i,
                          s.reqs[i].(pc := Assembled(tree)))
    ensures SlotsOk(s')
  {
    var k, fmt := s.reqs[i].role.slot, s.config.fmt;
    var slot := s.table.slots[k];
    assert RoleOk(s, i);
    AssemblyKeepsTable(s.table, s.config.limit, k, fmt);
    AssemblyIsGenuine(s, s', k, slot.(members := AfterBuild(slot.members, fmt)));
    AssemblyKeepsRole(s, s', i, tree);
    SlotMoves(s, s', i, slot.(members := AfterBuild(slot.members, fmt)));
  }

  lemma {:induction false} AssembleKeepsSlots(s: System, i: nat, later: Time)
    requires LanesOk(s) && SlotsOk(s) && i < |s.reqs| && Can(s, s.reqs[i], Assemble(later))
    ensures SlotsOk(DoAssemble(s, i, later))
  {
    var r := s.reqs[i];
    assert RoleOk(s, i) && Placed(s, r);
    var built := Build(s.table.slots[r.role.slot].members, s.config.fmt);
    if built.Body? {
      AssemblyKeepsSlots(s, DoAssemble(s, i, later), i, built.tree);
    } else {
      FailureAgrees(s.table.slots[r.role.slot], r, s.config, DoAssemble(s, i, later).reqs[i].releases);
      RequestStep(s, DoAssemble(s, i, later), i);
    }
  }

  /** A leader step that moves its closed slot on without touching the members. */
  lemma {:induction false} ClosedLeaderStep(s: System, s': System, i: nat, slot': Slot)
    requires SlotsOk(s) && i < |s.reqs| && Leads(s.reqs[i]) && s.reqs[i].role.slot < |s.table.slots|
    requires |s'.reqs| == |s.reqs|
    requires var k := s.reqs[i].role.slot;
             var slot := s.table.slots[k];
             && !slot.state.Open? && !slot'.state.Open? && !slot.done
             && slot' == slot.(state := slot'.state, sent := slot'.sent, results := slot'.results, done := slot'.done)
             && s' == s.(table := s.table.(slots := s.table.slots[k := slot']), reqs := s.reqs[i := s'.reqs[i]])
    requires s'.reqs[i].role == s.reqs[i].role && SamePerson(s.reqs[i], s'.reqs[i])
    requires Agree(slot', s'.reqs[i], s.config)
    ensures SlotsOk(s')
  {
    var k := s.reqs[i].role.slot;
    assert RoleOk(s, i) && Measured(s.table.slots[k], s.config.limit);
    ClosedSlotStep(s.table, s.config.limit, k, slot');
    StaysGenuine(s, s', k, slot');
    LeaderStep(s, s', i);
  }

  lemma {:induction false} MarkKeepsSlots(s: System, i: nat)
    requires SlotsOk(s) && i < |s.reqs| && Can(s, s.reqs[i], MarkInFlight)
    ensures SlotsOk(DoMarkInFlight(s, i))
  {
    assert RoleOk(s, i);
    var s' := DoMarkInFlight(s, i);
    ClosedLeaderStep(s, s', i, s'.table.slots[s.reqs[i].role.slot]);
  }

  lemma {:induction false} StartKeepsRole(s: System, i: nat)
    requires i < |s.reqs| && RoleOk(s, i) && Local(s.reqs[i]) && Can(s, s.reqs[i], StartWorker)
    ensures RoleOk(DoStartWorker(s, i), i)
  {
  }

  lemma {:induction false} StartKeepsSlots(s: System, i: nat)
    requires LanesOk(s) && SlotsOk(s) && i < |s.reqs| && Can(s, s.reqs[i], StartWorker)
    ensures SlotsOk(DoStartWorker(s, i))
  {
    assert RoleOk(s, i) && Placed(s, s.reqs[i]);
    StartKeepsRole(s, i);
    var s' := DoStartWorker(s, i);
    if Leads(s.reqs[i]) {
      ClosedLeaderStep(s, s', i, s'.table.slots[s.reqs[i].role.slot]);
    } else {
      RequestStep(s, s', i);
    }
  }

  lemma {:induction false} MarkDoneKeepsSlots(s: System, i: nat)
    requires SlotsOk(s) && i < |s.reqs| && Can(s, s.reqs[i], MarkDone)
    ensures SlotsOk(DoMarkDone(s, i))
  {
    assert RoleOk(s, i);
    var s' := DoMarkDone(s, i);
    ClosedLeaderStep(s, s', i, s'.table.slots[s.reqs[i].role.slot]);
  }

  lemma {:induction false} PublishAgrees(slot: Slot, r: Req, c: Config)
    requires Agree(slot, r, c) && r.pc.Marked?
    ensures !slot.done && slot.state.Complete?
    ensures Agree(slot.(results := slot.results + [r.pc.result]), r.(pc := Published(r.pc.result)), c)
  {
  }

  lemma {:induction false} PublishKeepsSlots(s: System, i: nat)
    requires SlotsOk(s) && i < |s.reqs| && Can(s, s.reqs[i], Publish)
    ensures SlotsOk(DoPublish(s, i))
  {
    assert RoleOk(s, i);
    var at := s.reqs[i].role.slot;
    PublishAgrees(s.table.slots[at], s.reqs[i], s.config);
    ClosedLeaderStep(s, DoPublish(s, i), i, DoPublish(s, i).table.slots[at]);
  }

  lemma {:induction false} SignalAgrees(slot: Slot, r: Req, c: Config)
    requires Agree(slot, r, c) && r.pc.Published?
    ensures !slot.done && slot.state.Complete?
    ensures Agree(slot.(done := true), r.(pc := Finished(r.pc.result)), c)
  {
  }

  lemma {:induction false} SignalKeepsSlots(s: System, i: nat)
    requires SlotsOk(s) && i < |s.reqs| && Can(s, s.reqs[i], Signal)
    ensures SlotsOk(DoSignal(s, i))
  {
    assert RoleOk(s, i);
    var at := s.reqs[i].role.slot;
    SignalAgrees(s.table.slots[at], s.reqs[i], s.config);
    ClosedLeaderStep(s, DoSignal(s, i), i, DoSignal(s, i).table.slots[at]);
  }

  // ----- Steps that leave the table alone -----

  lemma {:induction false} TurnKeepsRole(s: System, s': System, i: nat, reply: Lane.Reply, until: Time, at: Time)
    requires i < |s.reqs| == |s'.reqs| && RoleOk(s, i) && HandlerAt(s, s.reqs[i])
    requires s.reqs[i].pc.AtLane? || s.reqs[i].pc.Queued?
    requires reply.Granted? || reply.TimedOut? || reply.Blocked?
    requires s'.table == s.table && s'.config == s.config && s'.reqs[i] == AfterTurn(s.reqs[i], reply, until, at)
    ensures RoleOk(s', i)
  {
  }

  lemma {:induction false} ReadKeepsSlots(s: System, i: nat)
    requires LanesOk(s) && SlotsOk(s) && i < |s.reqs| && Can(s, s.reqs[i], ReadRemaining)
    ensures SlotsOk(DoReadRemaining(s, i))
  {
    assert RoleOk(s, i) && Placed(s, s.reqs[i]);
    RequestStep(s, DoReadRemaining(s, i), i);
  }

  lemma {:induction false} SetKeepsSlots(s: System, i: nat)
    requires LanesOk(s) && SlotsOk(s) && i < |s.reqs| && Can(s, s.reqs[i], SetDeadline)
    ensures SlotsOk(DoSetDeadline(s, i))
  {
    assert RoleOk(s, i) && Placed(s, s.reqs[i]);
    RequestStep(s, DoSetDeadline(s, i), i);
  }

  lemma {:induction false} EnterKeepsSlots(s: System, i: nat, mid: Time, later: Time)
    requires LanesOk(s) && SlotsOk(s) && i < |s.reqs| && Can(s, s.reqs[i], EnterLane(mid, later))
    ensures SlotsOk(DoEnterLane(s, i, mid, later))
  {
    var r, s' := s.reqs[i], DoEnterLane(s, i, mid, later);
    var op := Lane.Enter(r.holder, r.pc.until, s.now, mid, later);
    EnterOutcome(s, i, mid, later);
    TurnKeepsRole(s, s', i, Lane.Apply(s.lanes[r.provider], op).1, r.pc.until, later);
    RequestStep(s, s', i);
  }

  lemma {:induction false} PollKeepsSlots(s: System, i: nat, later: Time)
    requires LanesOk(s) && SlotsOk(s) && i < |s.reqs| && Can(s, s.reqs[i], PollLane(later))
    ensures SlotsOk(DoPollLane(s, i, later))
  {
    var r, s' := s.reqs[i], DoPollLane(s, i, later);
    var op := Lane.Poll(r.pc.ticket, r.pc.until, s.now, later);
    PollOutcome(s, i, later);
    TurnKeepsRole(s, s', i, Lane.Apply(s.lanes[r.provider], op).1, r.pc.until, later);
    RequestStep(s, s', i);
  }

  lemma {:induction false} CheckKeepsSlots(s: System, i: nat)
    requires LanesOk(s) && SlotsOk(s) && i < |s.reqs| && Can(s, s.reqs[i], CheckDeadline)
    ensures SlotsOk(DoCheckDeadline(s, i))
  {
    assert RoleOk(s, i) && Placed(s, s.reqs[i]);
    RequestStep(s, DoCheckDeadline(s, i), i);
  }

  lemma {:induction false} ReturnKeepsSlots(s: System, i: nat, later: Time)
    requires LanesOk(s) && SlotsOk(s) && i < |s.reqs| && Can(s, s.reqs[i], ReturnSlot(later))
    ensures SlotsOk(DoReturnSlot(s, i, later))
  {
    assert RoleOk(s, i) && Placed(s, s.reqs[i]);
    RequestStep(s, DoReturnSlot(s, i, later), i);
  }

  lemma {:induction false} ConcludeAgrees(slot: Slot, r: Req, c: Config, releases: nat)
    requires Agree(slot, r, c) && r.pc.Returned?
    ensures Agree(slot, r.(pc := Finishing(r.pc.delivery.0), releases := releases), c)
  {
  }

  lemma {:induction false} ConcludeKeepsRole(s: System, i: nat, later: Time)
    requires i < |s.reqs| && RoleOk(s, i) && Can(s, s.reqs[i], Conclude(later))
    ensures RoleOk(DoConclude(s, i, later), i)
  {
    var r := s.reqs[i];
    if Leads(r) {
      ConcludeAgrees(s.table.slots[r.role.slot], r, s.config, DoConclude(s, i, later).reqs[i].releases);
    }
  }

  lemma {:induction false} ConcludeKeepsSlots(s: System, i: nat, later: Time)
    requires LanesOk(s) && SlotsOk(s) && i < |s.reqs| && Can(s, s.reqs[i], Conclude(later))
    ensures SlotsOk(DoConclude(s, i, later))
  {
    assert RoleOk(s, i) && Placed(s, s.reqs[i]);
    ConcludeKeepsRole(s, i, later);
    RequestStep(s, DoConclude(s, i, later), i);
  }

  /** A step of the worker, the callback or the heartbeat: the handler stays where it is. */
  lemma {:induction false} BesideKeepsSlots(s: System, s': System, i: nat)
    requires LanesOk(s) && SlotsOk(s) && i < |s.reqs| == |s'.reqs|
    requires s'.config == s.config && s'.table == s.table && s.now <= s'.now
    requires forall o :: 0 <= o < |s.reqs| && o != i ==> s'.reqs[o] == s.reqs[o]
    requires s'.reqs[i] == s.reqs[i].(call := s'.reqs[i].call, releases := s'.reqs[i].releases, beat := s'.reqs[i].beat)
    requires || s'.reqs[i].call == s.reqs[i].call
             || !(s.reqs[i].call.worker.Unstarted? || s'.reqs[i].call.worker.Unstarted?)
    ensures SlotsOk(s')
  {
    assert RoleOk(s, i) && Placed(s, s.reqs[i]);
    RequestStep(s, s', i);
  }

  lemma {:induction false} MoveKeepsSlots(s: System, i: nat, move: Move)
    requires LanesOk(s) && SlotsOk(s) && i < |s.reqs| && Can(s, s.reqs[i], MoveWorker(move))
    ensures SlotsOk(Put(s, i, s.reqs[i].(call := Make(s.reqs[i].call, move))))
  {
    BesideKeepsSlots(s, Put(s, i, s.reqs[i].(call := Make(s.reqs[i].call, move))), i);
  }

  lemma {:induction false} CallBackKeepsSlots(s: System, i: nat, later: Time)
    requires LanesOk(s) && SlotsOk(s) && i < |s.reqs| && Can(s, s.reqs[i], CallBack(later))
    ensures SlotsOk(DoCallBack(s, i, later))
  {
    BesideKeepsSlots(s, DoCallBack(s, i, later), i);
  }

  lemma {:induction false} BeatKeepsSlots(s: System, i: nat, later: Time)
    requires LanesOk(s) && SlotsOk(s) && i < |s.reqs| && Can(s, s.reqs[i], Heartbeat(later))
    ensures SlotsOk(DoHeartbeat(s, i, later))
  {
    BesideKeepsSlots(s, DoHeartbeat(s, i, later), i);
  }

  lemma {:induction false} DecideAgrees(slot: Slot, r: Req, c: Config)
    requires Agree(slot, r, c) && r.pc.Forwarding? && Possible(r.call, Decide)
    ensures var call := Make(r.call, Decide);
            Agree(slot, r.(call := call, pc := Returned(call.returned.value)), c)
  {
  }

  lemma {:induction false} DecideKeepsRole(s: System, i: nat)
    requires i < |s.reqs| && RoleOk(s, i) && Can(s, s.reqs[i], CallerDecides)
    ensures RoleOk(DoCallerDecides(s, i), i)
  {
    if Leads(s.reqs[i]) {
      DecideAgrees(s.table.slots[s.reqs[i].role.slot], s.reqs[i], s.config);
    }
  }

  lemma {:induction false} DecideKeepsSlots(s: System, i: nat)
    requires LanesOk(s) && SlotsOk(s) && i < |s.reqs| && Can(s, s.reqs[i], CallerDecides)
    ensures SlotsOk(DoCallerDecides(s, i))
  {
    assert RoleOk(s, i) && Placed(s, s.reqs[i]);
    DecideKeepsRole(s, i);
    RequestStep(s, DoCallerDecides(s, i), i);
  }

  lemma {:induction false} EscapeKeepsRole(s: System, i: nat)
    requires i < |s.reqs| && RoleOk(s, i) && Local(s.reqs[i]) && Can(s, s.reqs[i], Escape)
    ensures RoleOk(DoEscape(s, i, Unprepared), i)
  {
  }

  lemma {:induction false} EscapeKeepsSlots(s: System, i: nat)
    requires LanesOk(s) && SlotsOk(s) && i < |s.reqs| && Can(s, s.reqs[i], Escape)
    ensures SlotsOk(DoEscape(s, i, Unprepared))
  {
    assert RoleOk(s, i) && Placed(s, s.reqs[i]);
    EscapeKeepsRole(s, i);
    RequestStep(s, DoEscape(s, i, Unprepared), i);
  }

  lemma {:induction false} RefusalKeepsRole(s: System, i: nat, text: string)
    requires i < |s.reqs| && RoleOk(s, i) && Local(s.reqs[i]) && Can(s, s.reqs[i], RefuseCall(text))
    ensures RoleOk(DoRefuseCall(s, i, text), i)
  {
  }

  lemma {:induction false} RefusalKeepsSlots(s: System, i: nat, text: string)
    requires LanesOk(s) && SlotsOk(s) && i < |s.reqs| && Can(s, s.reqs[i], RefuseCall(text))
    ensures SlotsOk(DoRefuseCall(s, i, text))
  {
    assert RoleOk(s, i) && Placed(s, s.reqs[i]);
    RefusalKeepsRole(s, i, text);
    RequestStep(s, DoRefuseCall(s, i, text), i);
  }

  lemma {:induction false} CallerOverflowKeepsRole(s: System, i: nat)
    requires i < |s.reqs| && RoleOk(s, i) && Local(s.reqs[i]) && Can(s, s.reqs[i], CallerOverflows)
    ensures RoleOk(DoEscape(s, i, Overflowed), i)
  {
  }

  lemma {:induction false} CallerOverflowKeepsSlots(s: System, i: nat)
    requires LanesOk(s) && SlotsOk(s) && i < |s.reqs| && Can(s, s.reqs[i], CallerOverflows)
    ensures SlotsOk(DoEscape(s, i, Overflowed))
  {
    assert RoleOk(s, i) && Placed(s, s.reqs[i]);
    CallerOverflowKeepsRole(s, i);
    RequestStep(s, DoEscape(s, i, Overflowed), i);
  }

  lemma {:induction false} JoinerOverflowKeepsRole(s: System, i: nat)
    requires i < |s.reqs| && RoleOk(s, i) && Local(s.reqs[i]) && Can(s, s.reqs[i], JoinerOverflows)
    ensures RoleOk(DoEscape(s, i, Overflowed), i)
  {
  }

  lemma {:induction false} JoinerOverflowKeepsSlots(s: System, i: nat)
    requires LanesOk(s) && SlotsOk(s) && i < |s.reqs| && Can(s, s.reqs[i], JoinerOverflows)
    ensures SlotsOk(DoEscape(s, i, Overflowed))
  {
    assert RoleOk(s, i) && Placed(s, s.reqs[i]);
    JoinerOverflowKeepsRole(s, i);
    RequestStep(s, DoEscape(s, i, Overflowed), i);
  }

  /** A slot whose event is set carries exactly one result. */
  lemma {:induction false} DoneMeansPublished(s: System, k: nat)
    requires SlotsOk(s) && k < |s.table.slots| && s.table.slots[k].done
    ensures |s.table.slots[k].results| == 1 && s.table.slots[k].state.Complete?
  {
    assert Measured(s.table.slots[k], s.config.limit);
    assert MemberOk(s, k, 0);
    assert RoleOk(s, s.table.slots[k].members[0].id);
  }

  lemma {:induction false} WakeKeepsSlots(s: System, i: nat)
    requires SlotsOk(s) && i < |s.reqs| && Can(s, s.reqs[i], WakeJoiner)
    ensures SlotsOk(DoWakeJoiner(s, i))
  {
    assert RoleOk(s, i);
    DoneMeansPublished(s, s.reqs[i].role.slot);
    RequestStep(s, DoWakeJoiner(s, i), i);
  }

  lemma {:induction false} TimeOutKeepsRole(s: System, i: nat)
    requires i < |s.reqs| && RoleOk(s, i) && Can(s, s.reqs[i], TimeOutJoiner)
    ensures RoleOk(Put(s, i, s.reqs[i].(pc := Finished(Plainly(TotalTimeout)))), i)
  {
  }

  lemma {:induction false} TimeOutKeepsSlots(s: System, i: nat)
    requires SlotsOk(s) && i < |s.reqs| && Can(s, s.reqs[i], TimeOutJoiner)
    ensures SlotsOk(Put(s, i, s.reqs[i].(pc := Finished(Plainly(TotalTimeout)))))
  {
    assert RoleOk(s, i);
    TimeOutKeepsRole(s, i);
    RequestStep(s, Put(s, i, s.reqs[i].(pc := Finished(Plainly(TotalTimeout)))), i);
  }

  lemma {:induction false} DoLaneKeepsSlots(s: System, i: nat, d: Doing)
    requires LanesOk(s) && SlotsOk(s) && i < |s.reqs| && Can(s, s.reqs[i], d) && RunsLane(d)
    ensures SlotsOk(DoLane(s, i, d))
  {
    match d
    case EnterLane(mid, later) => EnterKeepsSlots(s, i, mid, later);
    case PollLane(later) => PollKeepsSlots(s, i, later);
    case ReturnSlot(later) => ReturnKeepsSlots(s, i, later);
    case Assemble(later) => AssembleKeepsSlots(s, i, later);
    case CallBack(later) => CallBackKeepsSlots(s, i, later);
    case Heartbeat(later) => BeatKeepsSlots(s, i, later);
    case Conclude(later) => ConcludeKeepsSlots(s, i, later);
  }

  lemma {:induction false} JoinKeepsSlots(s: System, i: nat)
    requires SlotsOk(s) && i < |s.reqs| && Can(s, s.reqs[i], JoinQueue)
    ensures SlotsOk(DoJoinQueue(s, i))
  {
    if CoalescingKey(s.reqs[i]) in s.table.open {
      JoiningKeepsSlots(s, i);
    } else {
      LeadingKeepsSlots(s, i);
    }
  }

  lemma {:induction false} DoSlotKeepsSlots(s: System, i: nat, d: Doing)
    requires LanesOk(s) && SlotsOk(s) && i < |s.reqs| && Can(s, s.reqs[i], d) && ChangesTable(d)
    ensures SlotsOk(DoSlot(s, i, d))
  {
    match d
    case JoinQueue => JoinKeepsSlots(s, i);
    case CloseOpenSlot => CloseKeepsSlots(s, i);
    case MarkInFlight => MarkKeepsSlots(s, i);
    case StartWorker => StartKeepsSlots(s, i);
    case MarkDone => MarkDoneKeepsSlots(s, i);
    case Publish => PublishKeepsSlots(s, i);
    case Signal => SignalKeepsSlots(s, i);
  }

  lemma {:induction false} DoAloneKeepsSlots(s: System, i: nat, d: Doing)
    requires LanesOk(s) && SlotsOk(s) && i < |s.reqs| && Can(s, s.reqs[i], d) && !RunsLane(d) && !ChangesTable(d)
    ensures SlotsOk(DoAlone(s, i, d))
  {
    match d
    case ReadRemaining => ReadKeepsSlots(s, i);
    case SetDeadline => SetKeepsSlots(s, i);
    case CheckDeadline => CheckKeepsSlots(s, i);
    case Escape => EscapeKeepsSlots(s, i);
    case RefuseCall(text) => RefusalKeepsSlots(s, i, text);
    case CallerOverflows => CallerOverflowKeepsSlots(s, i);
    case JoinerOverflows => JoinerOverflowKeepsSlots(s, i);
    case MoveWorker(move) => MoveKeepsSlots(s, i, move);
    case CallerDecides => DecideKeepsSlots(s, i);
    case WakeJoiner => WakeKeepsSlots(s, i);
    case TimeOutJoiner => TimeOutKeepsSlots(s, i);
  }

  lemma {:induction false} DoKeepsSlots(s: System, i: nat, d: Doing)
    requires LanesOk(s) && SlotsOk(s) && i < |s.reqs| && Can(s, s.reqs[i], d)
    ensures SlotsOk(Do(s, i, d))
  {
    if RunsLane(d) {
      DoLaneKeepsSlots(s, i, d);
    } else if ChangesTable(d) {
      DoSlotKeepsSlots(s, i, d);
    } else {
      DoAloneKeepsSlots(s, i, d);
    }
  }

  lemma {:induction false} TimeKeepsSlots(s: System, s': System)
    requires SlotsOk(s)
    requires s'.config == s.config && s'.table == s.table && s'.reqs == s.reqs && s.now <= s'.now
    ensures SlotsOk(s')
  {
    forall k | 0 <= k < |s'.table.slots|
      ensures Genuine(s', s'.table.slots[k])
    {
      StaysGenuine(s, s', k, s'.table.slots[k]);
    }
    forall o | 0 <= o < |s'.reqs|
      ensures RoleOk(s', o)
    {
      assert RoleOk(s, o);
    }
    forall k, j | 0 <= k < |s'.table.slots| && 0 <= j < |s'.table.slots[k].members|
      ensures MemberOk(s', k, j)
    {
      assert MemberOk(s, k, j);
    }
  }

  lemma {:induction false} NextKeepsSlots(s: System, a: Action)
    requires LanesOk(s) && SlotsOk(s) && Enabled(s, a)
    ensures SlotsOk(Next(s, a))
  {
    match a
    case Act(i, doing) => DoKeepsSlots(s, i, doing);
    case Tick(_) => TimeKeepsSlots(s, Next(s, a));
    case ReadStatus(_, _) => TimeKeepsSlots(s, Next(s, a));
    case _ => ArrivalKeepsSlots(s, a);
  }
}
