/** What holds in every run of the gateway: any number of requests, any interleaving, any clock. */
module GatewayTheorems {
  import opened Basics
  import opened Queues
  import opened Handoff
  import opened Coalescing
  import opened Gateway
  import opened GatewayLanes
  import opened GatewaySlots
  import Lane = LaneModel

  ghost predicate Inv(s: System) {
    LanesOk(s) && SlotsOk(s)
  }

  lemma {:induction false} NextKeepsConfig(s: System, a: Action)
    requires Enabled(s, a)
    ensures Next(s, a).config == s.config && s.now <= Next(s, a).now
  {
  }

  lemma {:induction false} RunKeepsInv(s: System, acts: seq<Action>)
    requires Inv(s) && Allows(s, acts)
    ensures Inv(Run(s, acts)) && Run(s, acts).config == s.config && s.now <= Run(s, acts).now
    decreases |acts|
  {
    if acts != [] {
      NextKeepsLanes(s, acts[0]);
      NextKeepsSlots(s, acts[0]);
      NextKeepsConfig(s, acts[0]);
      RunKeepsInv(Next(s, acts[0]), acts[1..]);
    }
  }

  lemma {:induction false} Reached(c: Config, now: Time, acts: seq<Action>)
    requires Configured(c) && Allows(Init(c, now), acts)
    ensures Inv(Run(Init(c, now), acts)) && Run(Init(c, now), acts).config == c
  {
    InitLanesOk(c, now);
    RunKeepsInv(Init(c, now), acts);
  }

  // ----- Upstream calls and the concurrency limit -----

  predicate OpenAt(s: System, p: string, i: int) {
    0 <= i < |s.reqs| && s.reqs[i].provider == p && StillOpen(s.reqs[i].call)
  }

  /** The lease behind request `i` was granted or renewed less than a lease time ago. */
  predicate Fresh(s: System, p: string, i: int) {
    && 0 <= i < |s.reqs| && p in s.lanes && s.reqs[i].token.Some?
    && s.reqs[i].token.value in s.lanes[p].renewed
    && s.now < s.lanes[p].renewed[s.reqs[i].token.value] + s.config.leaseSeconds
  }

  /** An upstream call that is not confirmed closed, and whose lease is fresh, owns that lease. */
  lemma {:induction false} OpenCallOwnsItsLease(s: System, p: string, i: nat)
    requires Inv(s) && OpenAt(s, p, i)
    ensures p in s.lanes && s.reqs[i].token.Some?
    ensures var t := s.reqs[i].token.value;
            && t in s.lanes[p].renewed && t !in s.lanes[p].released
            && (Fresh(s, p, i) ==> t in s.lanes[p].leases && s.lanes[p].leases[t].holder == s.reqs[i].holder
                                   && s.lanes[p].leases[t].expires == s.lanes[p].renewed[t] + s.config.leaseSeconds)
  {
    assert Placed(s, s.reqs[i]) && LaneOk(s, p);
  }

  /** A heartbeat that finds the lease alive makes it fresh again for a whole lease time, and disturbs no other;
      one that comes too late leaves it gone. */
  lemma {:induction false} HeartbeatRenews(s: System, i: nat, later: Time)
    requires Inv(s) && i < |s.reqs| && Can(s, s.reqs[i], Heartbeat(later))
    ensures var s', p, t := DoHeartbeat(s, i, later), s.reqs[i].provider, s.reqs[i].token.value;
            && p in s'.lanes && s'.now == later
            && (t in Lane.Live(s.lanes[p].leases, s.now) ==>
                  && t in s'.lanes[p].leases && s'.lanes[p].leases[t].expires == later + s.config.leaseSeconds
                  && Fresh(s', p, i))
            && (t !in Lane.Live(s.lanes[p].leases, s.now) ==> t !in s'.lanes[p].leases)
            && (forall u :: u != t ==>
                  (u in s'.lanes[p].leases <==> u in Lane.Live(s.lanes[p].leases, s.now))
                  && (u in s'.lanes[p].leases ==> s'.lanes[p].leases[u] == s.lanes[p].leases[u]))
  {
    var r := s.reqs[i];
    assert Placed(s, r) && LaneOk(s, r.provider);
    assert Lane.Valid(s.lanes[r.provider], s.now);
    assert s.config.leaseSeconds > 0.0;
  }

  function TokenOf(s: System, i: int): nat {
    if 0 <= i < |s.reqs| && s.reqs[i].token.Some? then s.reqs[i].token.value else 0
  }

  lemma {:induction false} FreshCallsFit(s: System, p: string)
    requires Inv(s) && Active(s.config, p)
    ensures |set i | 0 <= i < |s.reqs| && OpenAt(s, p, i) && Fresh(s, p, i)| <= s.config.providers[p].capacity
  {
    var open := set i | 0 <= i < |s.reqs| && OpenAt(s, p, i) && Fresh(s, p, i);
    assert LaneOk(s, p);
    forall i | i in open
      ensures TokenOf(s, i) in s.lanes[p].leases.Keys
    {
      OpenCallOwnsItsLease(s, p, i);
    }
    forall i, j | i in open && j in open && TokenOf(s, i) == TokenOf(s, j)
      ensures i == j
    {
      OpenCallOwnsItsLease(s, p, i);
      OpenCallOwnsItsLease(s, p, j);
      assert i < j ==> Apart(s.reqs[i], s.reqs[j]);
      assert j < i ==> Apart(s.reqs[j], s.reqs[i]);
    }
    InjectiveImageCardinality(open, i => TokenOf(s, i), s.lanes[p].leases.Keys);
  }

  /** In every run, each provider's unconfirmed upstream calls with a fresh lease own distinct live leases,
      so they never outnumber its concurrency limit. */
  lemma {:induction false} UpstreamCallsBounded(c: Config, now: Time, acts: seq<Action>, p: string)
    requires Configured(c) && Active(c, p) && Allows(Init(c, now), acts)
    ensures var s := Run(Init(c, now), acts);
            && p in s.lanes
            && |set i | 0 <= i < |s.reqs| && OpenAt(s, p, i) && Fresh(s, p, i)| <= c.providers[p].capacity
            && (forall i :: OpenAt(s, p, i) && Fresh(s, p, i) ==>
                  && s.reqs[i].token.value in s.lanes[p].leases
                  && s.now < s.lanes[p].leases[s.reqs[i].token.value].expires)
            && (forall i, j :: OpenAt(s, p, i) && OpenAt(s, p, j) && i != j ==> s.reqs[i].token != s.reqs[j].token)
  {
    Reached(c, now, acts);
    var s := Run(Init(c, now), acts);
    FreshCallsFit(s, p);
    forall i | OpenAt(s, p, i) && Fresh(s, p, i)
      ensures s.reqs[i].token.value in s.lanes[p].leases
      ensures s.now < s.lanes[p].leases[s.reqs[i].token.value].expires
    {
      OpenCallOwnsItsLease(s, p, i);
    }
    forall i, j | OpenAt(s, p, i) && OpenAt(s, p, j) && i != j
      ensures s.reqs[i].token != s.reqs[j].token
    {
      OpenCallOwnsItsLease(s, p, i);
      assert i < j ==> Apart(s.reqs[i], s.reqs[j]);
      assert j < i ==> Apart(s.reqs[j], s.reqs[i]);
    }
  }

  // ----- What happened is on record -----

  predicate SameTerms(r: Req, r': Req) {
    SamePerson(r, r') && (r.role.Arriving? || r'.role == r.role) && (r.token.Some? ==> r'.token == r.token)
  }

  lemma {:induction false} DoKeepsTerms(s: System, i: nat, d: Doing)
    requires i < |s.reqs| && Can(s, s.reqs[i], d)
    ensures Do(s, i, d).reqs == s.reqs[i := Do(s, i, d).reqs[i]] && SameTerms(s.reqs[i], Do(s, i, d).reqs[i])
  {
  }

  /** The history of a request's call: what it is before the request has arrived, too. */
  function CallOf(s: System, i: nat): Call {
    if i < |s.reqs| then s.reqs[i].call else IDLE
  }

  /** The action by which the worker of request `i` comes to know how its exchange went. */
  function Exchanging(i: nat, e: Exchanged): Action {
    Act(i, MoveWorker(Finish(e.exchange, e.reading)))
  }

  function ClosingWith(i: nat, confirmed: bool): Action {
    Act(i, MoveWorker(Close(confirmed)))
  }

  /** What the history of a call says more than before was done by these actions. */
  predicate Recorded(c: Call, d: Call, i: nat, acts: seq<Action>) {
    && (d.exchanged.Some? ==> d.exchanged == c.exchanged || Exchanging(i, d.exchanged.value) in acts)
    && (d.closed.Some? ==> d.closed == c.closed || ClosingWith(i, d.closed.value) in acts)
  }

  lemma {:induction false} TurnKeepsCall(r: Req, reply: Lane.Reply, until: Time, at: Time)
    ensures AfterTurn(r, reply, until, at).call == r.call
  {
  }

  lemma {:induction false} TurnsKeepCall(s: System, i: nat, d: Doing)
    requires i < |s.reqs| && Can(s, s.reqs[i], d) && (d.EnterLane? || d.PollLane?)
    ensures DoTurn(s, i, d).reqs[i].call == s.reqs[i].call
  {
    var r := s.reqs[i];
    match d
    case EnterLane(mid, later) =>
      var op := Lane.Enter(r.holder, r.pc.until, s.now, mid, later);
      TurnKeepsCall(r, Lane.Apply(s.lanes[r.provider], op).1, r.pc.until, later);
    case PollLane(later) =>
      var op := Lane.Poll(r.pc.ticket, r.pc.until, s.now, later);
      TurnKeepsCall(r, Lane.Apply(s.lanes[r.provider], op).1, r.pc.until, later);
  }

  lemma {:induction false} AssemblyKeepsCall(s: System, i: nat, later: Time)
    requires i < |s.reqs| && Can(s, s.reqs[i], Assemble(later))
    ensures DoAssemble(s, i, later).reqs[i].call == s.reqs[i].call
  {
    var built := Build(s.table.slots[s.reqs[i].role.slot].members, s.config.fmt);
    assert built.Body? || built.Rejected? || built.Escapes?;
  }

  lemma {:induction false} ConcludeKeepsCall(s: System, i: nat, later: Time)
    requires i < |s.reqs| && Can(s, s.reqs[i], Conclude(later))
    ensures DoConclude(s, i, later).reqs[i].call == s.reqs[i].call
  {
  }

  lemma {:induction false} CallBackNotifies(s: System, i: nat, later: Time)
    requires i < |s.reqs| && Can(s, s.reqs[i], CallBack(later))
    ensures DoCallBack(s, i, later).reqs[i].call == Make(s.reqs[i].call, Notify)
  {
  }

  lemma {:induction false} LaneStepRecords(s: System, i: nat, d: Doing)
    requires i < |s.reqs| && Can(s, s.reqs[i], d) && RunsLane(d)
    ensures Recorded(s.reqs[i].call, DoLane(s, i, d).reqs[i].call, i, [])
  {
    match d
    case EnterLane(_, _) => TurnsKeepCall(s, i, d);
    case PollLane(_) => TurnsKeepCall(s, i, d);
    case CallBack(later) => CallBackNotifies(s, i, later);
    case Assemble(later) => AssemblyKeepsCall(s, i, later);
    case Conclude(later) => ConcludeKeepsCall(s, i, later);
    case Heartbeat(_) =>
    case ReturnSlot(_) =>
  }

  lemma {:induction false} SlotStepRecords(s: System, i: nat, d: Doing)
    requires i < |s.reqs| && Can(s, s.reqs[i], d) && ChangesTable(d)
    ensures Recorded(s.reqs[i].call, DoSlot(s, i, d).reqs[i].call, i, [])
  {
  }

  lemma {:induction false} LoneStepRecords(s: System, i: nat, d: Doing)
    requires i < |s.reqs| && Can(s, s.reqs[i], d) && !RunsLane(d) && !ChangesTable(d)
    ensures Recorded(s.reqs[i].call, DoAlone(s, i, d).reqs[i].call, i, [Act(i, d)])
  {
  }

  lemma {:induction false} NextRecords(s: System, a: Action, i: nat)
    requires Enabled(s, a)
    ensures Recorded(CallOf(s, i), CallOf(Next(s, a), i), i, [a])
  {
    if a.Act? {
      DoKeepsTerms(s, a.i, a.doing);
      if a.i == i {
        if RunsLane(a.doing) {
          LaneStepRecords(s, i, a.doing);
        } else if ChangesTable(a.doing) {
          SlotStepRecords(s, i, a.doing);
        } else {
          LoneStepRecords(s, i, a.doing);
        }
      }
    }
  }

  /** What a call's history says was done in the run by that request's own worker. */
  lemma {:induction false} RunRecords(s: System, acts: seq<Action>, i: nat)
    requires Allows(s, acts)
    ensures Recorded(CallOf(s, i), CallOf(Run(s, acts), i), i, acts)
    decreases |acts|
  {
    if acts != [] {
      assert acts == [acts[0]] + acts[1..];
      NextRecords(s, acts[0], i);
      RunRecords(Next(s, acts[0]), acts[1..], i);
    }
  }

  /** In every run, no token has more than one release attempted for it, and one is attempted only when
      no upstream call was started under it or that call's worker has closed its connection with success. */
  lemma {:induction false} ReleaseDiscipline(c: Config, now: Time, acts: seq<Action>, i: nat)
    requires Configured(c) && Allows(Init(c, now), acts) && i < |Run(Init(c, now), acts).reqs|
    ensures var s := Run(Init(c, now), acts);
            var r := s.reqs[i];
            && r.releases <= 1
            && (r.releases == 1 ==> r.token.Some? && !StillOpen(r.call))
            && (r.token.Some? && r.provider in s.lanes && r.token.value in s.lanes[r.provider].released ==>
                  r.releases == 1)
            && (StillOpen(r.call) ==> r.releases == 0)
            && (r.releases == 1 && r.call != IDLE ==> ClosingWith(i, true) in acts)
  {
    Reached(c, now, acts);
    RunRecords(Init(c, now), acts, i);
    assert Placed(Run(Init(c, now), acts), Run(Init(c, now), acts).reqs[i]);
  }

  // ----- Nothing lost, nothing duplicated -----

  /** The recorded member has the identity and the measured length of what its request submitted, and the payload
      too, except that the leader's may carry the spliced tree under "shared". */
  predicate RecordedAs(m: Member, r: Req, id: nat, c: Config) {
    && r.submitted.Some?
    && m.id == id
    && c.measure(r.submitted.value.payload) == Some(m.size)
    && SameButShared(r.submitted.value.payload, m.payload)
  }

  lemma {:induction false} GenuineIsRecorded(s: System, i: nat, k: nat, j: nat)
    requires Inv(s) && i < |s.reqs| && s.reqs[i].role == Coalesced(k, j)
    ensures k < |s.table.slots| && j < |s.table.slots[k].members|
    ensures RecordedAs(s.table.slots[k].members[j], s.reqs[i], i, s.config)
    ensures s.table.slots[k].key == CoalescingKey(s.reqs[i])
    ensures j > 0 ==> s.table.slots[k].members[j].payload == s.reqs[i].submitted.value.payload
  {
    assert RoleOk(s, i);
    var slot := s.table.slots[k];
    assert Genuine(s, slot);
    var os := Originals(s, slot.members);
    assert os[j] == Original(s, i);
    AssemblyKeepsSubmissions(os, s.config.fmt, j);
  }

  /** In every run, an accepted member sits in one generation at one place, as it was submitted, every place
      belongs to the request that was put there, and all members of a generation, its leader included, have the
      provider and the queue key that the generation is kept under. */
  lemma {:induction false} EveryMemberOnce(c: Config, now: Time, acts: seq<Action>)
    requires Configured(c) && Allows(Init(c, now), acts)
    ensures var s := Run(Init(c, now), acts);
            && (forall i, k: nat, j: nat :: 0 <= i < |s.reqs| && s.reqs[i].role == Coalesced(k, j) ==>
                  && k < |s.table.slots| && j < |s.table.slots[k].members|
                  && RecordedAs(s.table.slots[k].members[j], s.reqs[i], i, c)
                  && s.table.slots[k].key == (s.reqs[i].provider, s.reqs[i].submitted.value.queueKey)
                  && (j > 0 ==> s.table.slots[k].members[j].payload == s.reqs[i].submitted.value.payload))
            && (forall k, j :: 0 <= k < |s.table.slots| && 0 <= j < |s.table.slots[k].members| ==>
                  var id := s.table.slots[k].members[j].id;
                  id < |s.reqs| && s.reqs[id].role == Coalesced(k, j))
  {
    Reached(c, now, acts);
    var s := Run(Init(c, now), acts);
    forall i, k: nat, j: nat | 0 <= i < |s.reqs| && s.reqs[i].role == Coalesced(k, j)
      ensures k < |s.table.slots| && j < |s.table.slots[k].members|
      ensures RecordedAs(s.table.slots[k].members[j], s.reqs[i], i, c)
      ensures s.table.slots[k].key == (s.reqs[i].provider, s.reqs[i].submitted.value.queueKey)
      ensures j > 0 ==> s.table.slots[k].members[j].payload == s.reqs[i].submitted.value.payload
    {
      GenuineIsRecorded(s, i, k, j);
    }
    forall k, j | 0 <= k < |s.table.slots| && 0 <= j < |s.table.slots[k].members|
      ensures s.table.slots[k].members[j].id < |s.reqs|
      ensures s.reqs[s.table.slots[k].members[j].id].role == Coalesced(k, j)
    {
      assert MemberOk(s, k, j);
    }
  }

  /** Members are only added, and the ones there stay as they are but for the leader's "shared". */
  predicate KeepsMembers(a: seq<Member>, b: seq<Member>) {
    && |a| <= |b|
    && forall j :: 0 <= j < |a| ==>
         && b[j].id == a[j].id && b[j].size == a[j].size
         && SameButShared(a[j].payload, b[j].payload) && (j > 0 ==> b[j].payload == a[j].payload)
  }

  /** How a slot may differ between two moments of a run. */
  predicate Follows(a: Slot, b: Slot, fmt: Formatter) {
    && b.key == a.key
    && a.sent <= b.sent && a.results <= b.results && (a.done ==> b.done)
    && KeepsMembers(a.members, b.members)
    && (!a.state.Open? ==> Frozen(a, b, fmt))
  }

  lemma FollowsIsTransitive(a: Slot, b: Slot, c: Slot, fmt: Formatter)
    requires Follows(a, b, fmt) && Follows(b, c, fmt)
    ensures Follows(a, c, fmt)
  {
  }

  lemma {:induction false} JoinFollows(s: System, i: nat, k: nat)
    requires i < |s.reqs| && Can(s, s.reqs[i], JoinQueue) && k < |s.table.slots|
    ensures k < |DoJoinQueue(s, i).table.slots|
    ensures Follows(s.table.slots[k], DoJoinQueue(s, i).table.slots[k], s.config.fmt)
  {
  }

  lemma {:induction false} AssemblyFollows(slot: Slot, limit: int, fmt: Formatter)
    requires Measured(slot, limit) && !slot.state.Open?
    ensures Follows(slot, slot.(members := AfterBuild(slot.members, fmt)), fmt)
  {
    AssemblyFreezes(slot, fmt, limit);
    forall j | 0 <= j < |slot.members|
      ensures SameButShared(slot.members[j].payload, AfterBuild(slot.members, fmt)[j].payload)
      ensures j > 0 ==> AfterBuild(slot.members, fmt)[j].payload == slot.members[j].payload
    {
      AssemblyKeepsSubmissions(slot.members, fmt, j);
    }
  }

  lemma {:induction false} AssembleChanges(s: System, i: nat, later: Time)
    requires i < |s.reqs| && Can(s, s.reqs[i], Assemble(later))
    ensures var at := s.reqs[i].role.slot;
            var slot := s.table.slots[at];
            DoAssemble(s, i, later).table.slots
            == s.table.slots[at := slot.(members := AfterBuild(slot.members, s.config.fmt))]
  {
    var at := s.reqs[i].role.slot;
    var slot := s.table.slots[at];
    if !Build(slot.members, s.config.fmt).Body? {
      assert slot.(members := AfterBuild(slot.members, s.config.fmt)) == slot;
      assert s.table.slots[at := slot] == s.table.slots;
    }
  }

  lemma {:induction false} LeaderIsClosed(s: System, i: nat)
    requires SlotsOk(s) && i < |s.reqs| && Leads(s.reqs[i]) && InTable(s, s.reqs[i]) && s.reqs[i].pc.Cleared?
    ensures !s.table.slots[s.reqs[i].role.slot].state.Open?
  {
    assert RoleOk(s, i);
  }

  lemma {:induction false} AssembleFollows(s: System, i: nat, later: Time, k: nat)
    requires SlotsOk(s) && i < |s.reqs| && Can(s, s.reqs[i], Assemble(later)) && k < |s.table.slots|
    ensures k < |DoAssemble(s, i, later).table.slots|
    ensures Follows(s.table.slots[k], DoAssemble(s, i, later).table.slots[k], s.config.fmt)
  {
    AssembleChanges(s, i, later);
    if k == s.reqs[i].role.slot {
      LeaderIsClosed(s, i);
      assert Measured(s.table.slots[k], s.config.limit);
      AssemblyFollows(s.table.slots[k], s.config.limit, s.config.fmt);
    }
  }

  /** Moving a slot on without touching what is frozen. */
  lemma {:induction false} SlotFollows(s: System, s': System, k: nat, at: nat)
    requires k < |s.table.slots| && at < |s.table.slots| == |s'.table.slots|
    requires forall o :: 0 <= o < |s.table.slots| && o != at ==> s'.table.slots[o] == s.table.slots[o]
    requires var a, b := s.table.slots[at], s'.table.slots[at];
             && b == a.(state := b.state, sent := b.sent, results := b.results, done := b.done)
             && a.sent <= b.sent && a.results <= b.results && (a.done ==> b.done) && (!a.state.Open? ==> !b.state.Open?)
    ensures Follows(s.table.slots[k], s'.table.slots[k], s.config.fmt)
  {
  }

  lemma {:induction false} CloseFollows(s: System, i: nat, k: nat)
    requires i < |s.reqs| && Can(s, s.reqs[i], CloseOpenSlot) && k < |s.table.slots|
    ensures k < |DoCloseOpenSlot(s, i).table.slots|
    ensures Follows(s.table.slots[k], DoCloseOpenSlot(s, i).table.slots[k], s.config.fmt)
  {
    SlotFollows(s, DoCloseOpenSlot(s, i), k, s.reqs[i].role.slot);
  }

  lemma {:induction false} MarkFollows(s: System, i: nat, k: nat)
    requires i < |s.reqs| && Can(s, s.reqs[i], MarkInFlight) && k < |s.table.slots|
    ensures k < |DoMarkInFlight(s, i).table.slots|
    ensures Follows(s.table.slots[k], DoMarkInFlight(s, i).table.slots[k], s.config.fmt)
  {
    SlotFollows(s, DoMarkInFlight(s, i), k, s.reqs[i].role.slot);
  }

  lemma {:induction false} StartFollows(s: System, i: nat, k: nat)
    requires i < |s.reqs| && Can(s, s.reqs[i], StartWorker) && k < |s.table.slots|
    ensures k < |DoStartWorker(s, i).table.slots|
    ensures Follows(s.table.slots[k], DoStartWorker(s, i).table.slots[k], s.config.fmt)
  {
    if Leads(s.reqs[i]) { SlotFollows(s, DoStartWorker(s, i), k, s.reqs[i].role.slot); }
  }

  lemma {:induction false} FinishFollows(s: System, i: nat, d: Doing, k: nat)
    requires i < |s.reqs| && Can(s, s.reqs[i], d) && k < |s.table.slots|
    requires d.MarkDone? || d.Publish? || d.Signal?
    ensures k < |DoSlot(s, i, d).table.slots|
    ensures Follows(s.table.slots[k], DoSlot(s, i, d).table.slots[k], s.config.fmt)
  {
    var at := s.reqs[i].role.slot;
    match d
    case MarkDone => SlotFollows(s, DoMarkDone(s, i), k, at);
    case Publish => SlotFollows(s, DoPublish(s, i), k, at);
    case Signal => SlotFollows(s, DoSignal(s, i), k, at);
  }

  lemma {:induction false} DoSlotFollows(s: System, i: nat, d: Doing, k: nat)
    requires i < |s.reqs| && Can(s, s.reqs[i], d) && ChangesTable(d) && k < |s.table.slots|
    ensures k < |DoSlot(s, i, d).table.slots|
    ensures Follows(s.table.slots[k], DoSlot(s, i, d).table.slots[k], s.config.fmt)
  {
    match d
    case JoinQueue => JoinFollows(s, i, k);
    case CloseOpenSlot => CloseFollows(s, i, k);
    case MarkInFlight => MarkFollows(s, i, k);
    case StartWorker => StartFollows(s, i, k);
    case _ => FinishFollows(s, i, d, k);
  }

  lemma {:induction false} DoLaneFollows(s: System, i: nat, d: Doing, k: nat)
    requires SlotsOk(s) && i < |s.reqs| && Can(s, s.reqs[i], d) && RunsLane(d) && k < |s.table.slots|
    ensures k < |DoLane(s, i, d).table.slots|
    ensures Follows(s.table.slots[k], DoLane(s, i, d).table.slots[k], s.config.fmt)
  {
    if d.Assemble? {
      AssembleFollows(s, i, d.later, k);
    }
  }

  lemma {:induction false} DoFollows(s: System, i: nat, d: Doing, k: nat)
    requires SlotsOk(s) && i < |s.reqs| && Can(s, s.reqs[i], d) && k < |s.table.slots|
    ensures k < |Do(s, i, d).table.slots|
    ensures Follows(s.table.slots[k], Do(s, i, d).table.slots[k], s.config.fmt)
  {
    if RunsLane(d) {
      DoLaneFollows(s, i, d, k);
    } else if ChangesTable(d) {
      DoSlotFollows(s, i, d, k);
    }
  }

  lemma {:induction false} NextFollows(s: System, a: Action, k: nat)
    requires Inv(s) && Enabled(s, a) && k < |s.table.slots|
    ensures k < |Next(s, a).table.slots|
    ensures Follows(s.table.slots[k], Next(s, a).table.slots[k], s.config.fmt)
  {
    if a.Act? {
      DoFollows(s, a.i, a.doing, k);
    }
  }

  /** Membership is frozen for good once a generation has left OPEN, and what was sent or published stays so. */
  lemma {:induction false} RunFollows(s: System, acts: seq<Action>, k: nat)
    requires Inv(s) && Allows(s, acts) && k < |s.table.slots|
    ensures k < |Run(s, acts).table.slots|
    ensures Follows(s.table.slots[k], Run(s, acts).table.slots[k], s.config.fmt)
    decreases |acts|
  {
    if acts != [] {
      var t := Next(s, acts[0]);
      NextKeepsLanes(s, acts[0]);
      NextKeepsSlots(s, acts[0]);
      NextKeepsConfig(s, acts[0]);
      NextFollows(s, acts[0], k);
      RunFollows(t, acts[1..], k);
      FollowsIsTransitive(s.table.slots[k], t.table.slots[k], Run(t, acts[1..]).table.slots[k], s.config.fmt);
    }
  }

  lemma {:induction false} LeaderAgrees(s: System, k: nat)
    requires Inv(s) && k < |s.table.slots|
    ensures s.table.slots[k].members != []
    ensures var lead := s.table.slots[k].members[0].id;
            && lead < |s.reqs| && s.reqs[lead].role == Coalesced(k, 0)
            && Agree(s.table.slots[k], s.reqs[lead], s.config)
  {
    assert Measured(s.table.slots[k], s.config.limit);
    assert MemberOk(s, k, 0);
    assert RoleOk(s, s.table.slots[k].members[0].id);
  }

  /** Assembling what is recorded is assembling what was submitted. */
  lemma {:induction false} AssemblesTheOriginals(s: System, k: nat)
    requires Inv(s) && k < |s.table.slots|
    ensures var ms := s.table.slots[k].members; Build(ms, s.config.fmt) == Build(Originals(s, ms), s.config.fmt)
  {
    assert Genuine(s, s.table.slots[k]);
    RebuildIsIdempotent(Originals(s, s.table.slots[k].members), s.config.fmt);
  }

  /** In every run, a generation sends at most one body; if it sent one, then at that moment and at every later one
      the body is the assembly of its full member list, as recorded and as submitted, the list can no longer
      change, and only its leader ever started a call. */
  lemma {:induction false} OneBodyPerGeneration(c: Config, now: Time, first: seq<Action>, rest: seq<Action>, k: nat)
    requires Configured(c) && Allows(Init(c, now), first) && Allows(Run(Init(c, now), first), rest)
    requires k < |Run(Init(c, now), first).table.slots|
    ensures var s := Run(Init(c, now), first);
            var t := Run(s, rest);
            && k < |t.table.slots|
            && var slot, end := s.table.slots[k], t.table.slots[k];
               && |end.sent| <= 1
               && (slot.sent != [] ==>
                     && end.sent == slot.sent
                     && Frozen(slot, end, c.fmt)
                     && Build(end.members, c.fmt) == Body(slot.sent[0])
                     && Build(Originals(t, end.members), c.fmt) == Body(slot.sent[0])
                     && (forall i :: 0 <= i < |t.reqs| && t.reqs[i].role.Coalesced? && t.reqs[i].role.slot == k ==>
                           (t.reqs[i].call != IDLE <==> t.reqs[i].role.index == 0)))
  {
    Reached(c, now, first);
    var s := Run(Init(c, now), first);
    var t := Run(s, rest);
    RunKeepsInv(s, rest);
    RunFollows(s, rest, k);
    LeaderAgrees(s, k);
    LeaderAgrees(t, k);
    AssemblesTheOriginals(t, k);
    forall i | 0 <= i < |t.reqs| && t.reqs[i].role.Coalesced? && t.reqs[i].role.slot == k
      ensures t.reqs[i].role.index == 0 ==> t.reqs[i].call.worker.Unstarted? == (t.table.slots[k].sent == [])
      ensures t.reqs[i].role.index > 0 ==> t.reqs[i].call == IDLE
      ensures t.reqs[i].call.worker.Unstarted? ==> t.reqs[i].call == IDLE
    {
      assert RoleOk(t, i);
      assert Placed(t, t.reqs[i]);
    }
  }

  // ----- The table at every lock boundary -----

  lemma {:induction false} OriginalsMeasured(s: System, k: nat)
    requires Inv(s) && k < |s.table.slots|
    ensures var slot := s.table.slots[k];
            var os := Originals(s, slot.members);
            && slot.members != [] && slot.total == Bytes(os)
            && (forall n :: 0 < n < |os| ==> Bytes(os[..n]) < s.config.limit)
            && (slot.state.Open? ==> Bytes(os) < s.config.limit)
  {
    var slot := s.table.slots[k];
    var ms, os := slot.members, Originals(s, slot.members);
    assert Measured(slot, s.config.limit) && Genuine(s, slot);
    forall j | 0 <= j < |ms|
      ensures os[j].size == ms[j].size
    {
      AssemblyKeepsSubmissions(os, s.config.fmt, j);
    }
    SameSizesSameBytes(ms, os);
    forall n | 0 < n < |os|
      ensures Bytes(os[..n]) < s.config.limit
    {
      SameSizesSameBytes(ms[..n], os[..n]);
    }
  }

  lemma {:induction false} OriginalSize(s: System, k: nat, j: nat)
    requires Inv(s) && k < |s.table.slots| && j < |s.table.slots[k].members|
    ensures var o := Originals(s, s.table.slots[k].members)[j]; s.config.measure(o.payload) == Some(o.size)
  {
    assert MemberOk(s, k, j) && RoleOk(s, s.table.slots[k].members[j].id);
  }

  /** Everybody in the slot has the provider and the queue key the slot is kept under. */
  predicate AllUnderKey(s: System, slot: Slot) {
    forall j :: 0 <= j < |slot.members| ==>
      var id := slot.members[j].id;
      id < |s.reqs| && s.reqs[id].submitted.Some?
      && slot.key == (s.reqs[id].provider, s.reqs[id].submitted.value.queueKey)
  }

  lemma {:induction false} MembersUnderKey(s: System, k: nat)
    requires SlotsOk(s) && k < |s.table.slots|
    ensures AllUnderKey(s, s.table.slots[k])
  {
    var slot := s.table.slots[k];
    forall j | 0 <= j < |slot.members|
      ensures var id := slot.members[j].id;
              id < |s.reqs| && s.reqs[id].submitted.Some? && slot.key == CoalescingKey(s.reqs[id])
    {
      assert MemberOk(s, k, j) && RoleOk(s, slot.members[j].id);
    }
  }

  /** In every run, a slot is open iff it is the one registered under its key, which is the provider and queue key
      of everybody in it, no call to append, seal or mark_* has raised, and the total is the sum of the lengths
      measured for what its members submitted, of which all but the last stay below the limit. */
  lemma {:induction false} OpenIffRegistered(c: Config, now: Time, acts: seq<Action>)
    requires Configured(c) && Allows(Init(c, now), acts)
    ensures var s := Run(Init(c, now), acts);
            var t := s.table;
            && t.faults == 0
            && (forall k :: 0 <= k < |t.slots| ==>
                  (t.slots[k].state.Open? <==> t.slots[k].key in t.open && t.open[t.slots[k].key] == k))
            && (forall key :: key in t.open ==> t.open[key] < |t.slots| && t.slots[t.open[key]].key == key)
            && (forall k :: 0 <= k < |t.slots| ==>
                  var os := Originals(s, t.slots[k].members);
                  && AllUnderKey(s, t.slots[k])
                  && os != [] && t.slots[k].total == Bytes(os)
                  && (forall j :: 0 <= j < |os| ==> c.measure(os[j].payload) == Some(os[j].size))
                  && (forall n :: 0 < n < |os| ==> Bytes(os[..n]) < c.limit)
                  && (t.slots[k].state.Open? ==> t.slots[k].total < c.limit)
                  && (|os| > 1 ==> t.slots[k].total < c.limit + os[|os| - 1].size))
  {
    Reached(c, now, acts);
    var s := Run(Init(c, now), acts);
    var t := s.table;
    forall key | key in t.open
      ensures t.open[key] < |t.slots| && t.slots[t.open[key]].key == key && t.slots[t.open[key]].state.Open?
    {
      assert RegisteredRight(t, key);
    }
    forall k | 0 <= k < |t.slots|
      ensures AllUnderKey(s, t.slots[k])
      ensures var os := Originals(s, t.slots[k].members);
              && os != [] && t.slots[k].total == Bytes(os)
              && (forall j :: 0 <= j < |os| ==> c.measure(os[j].payload) == Some(os[j].size))
              && (forall n :: 0 < n < |os| ==> Bytes(os[..n]) < c.limit)
              && (t.slots[k].state.Open? ==> t.slots[k].total < c.limit)
              && (|os| > 1 ==> t.slots[k].total < c.limit + os[|os| - 1].size)
    {
      OriginalsMeasured(s, k);
      MembersUnderKey(s, k);
      forall j | 0 <= j < |t.slots[k].members|
        ensures var o := Originals(s, t.slots[k].members)[j]; c.measure(o.payload) == Some(o.size)
      {
        OriginalSize(s, k, j);
      }
      var os := Originals(s, t.slots[k].members);
      assert |os| > 1 ==> Bytes(os[..|os| - 1]) < c.limit;
    }
  }

  // ----- Terms -----

  lemma {:induction false} NextKeepsTerms(s: System, a: Action, i: nat)
    requires Inv(s) && Enabled(s, a) && i < |s.reqs|
    ensures i < |Next(s, a).reqs| && SameTerms(s.reqs[i], Next(s, a).reqs[i])
  {
    if a.Act? {
      DoKeepsTerms(s, a.i, a.doing);
    }
  }

  /** Joining a generation moves nobody's deadline, and a request keeps its submission, its place and its token. */
  lemma {:induction false} RunKeepsTerms(s: System, acts: seq<Action>, i: nat)
    requires Inv(s) && Allows(s, acts) && i < |s.reqs|
    ensures i < |Run(s, acts).reqs| && SameTerms(s.reqs[i], Run(s, acts).reqs[i])
    decreases |acts|
  {
    if acts != [] {
      NextKeepsLanes(s, acts[0]);
      NextKeepsSlots(s, acts[0]);
      NextKeepsTerms(s, acts[0], i);
      RunKeepsTerms(Next(s, acts[0]), acts[1..], i);
    }
  }

  // ----- Every handler can go on -----

  function AtLatest(s: System, r: Req): System {
    s.(now := if s.now <= r.totalDeadline then r.totalDeadline else s.now)
  }

  /** The step the program takes next from where the handler is, at the latest when its total deadline has come. */
  function Onward(s: System, r: Req): Doing {
    var t := AtLatest(s, r).now;
    match r.pc
    case Joining => JoinQueue
    case Entering => ReadRemaining
    case Acquiring(_) => SetDeadline
    case AtLane(_) => EnterLane(t, t)
    case Queued(_, _) => PollLane(t)
    case Settled(_) => CloseOpenSlot
    case Admitted => CheckDeadline
    case Overdue => ReturnSlot(t)
    case Cleared => Assemble(t)
    case Assembled(_) => MarkInFlight
    case Executing(_) => StartWorker
    case Forwarding => CallerDecides
    case Returned(_) => Conclude(t)
    case Finishing(_) => MarkDone
    case Marked(_) => Publish
    case Published(_) => Signal
    case _ => if InTable(s, r) && s.table.slots[r.role.slot].done then WakeJoiner else TimeOutJoiner
  }

  lemma {:induction false} OnwardIsPossible(s: System, i: nat)
    requires Inv(s) && i < |s.reqs| && !s.reqs[i].pc.Finished? && !s.reqs[i].pc.Escaped?
    ensures Can(AtLatest(s, s.reqs[i]), s.reqs[i], Onward(s, s.reqs[i]))
  {
    assert Placed(s, s.reqs[i]) && RoleOk(s, i);
  }

  /** In every run, no handler is ever stuck short of returning: the next step of its code is possible,
      for a waiting joiner at the latest when its total deadline has come. */
  lemma {:induction false} NobodyIsStuck(c: Config, now: Time, acts: seq<Action>, i: nat)
    requires Configured(c) && Allows(Init(c, now), acts) && i < |Run(Init(c, now), acts).reqs|
    ensures var s := Run(Init(c, now), acts);
            var r := s.reqs[i];
            r.pc.Finished? || r.pc.Escaped? || Can(AtLatest(s, r), r, Onward(s, r))
  {
    Reached(c, now, acts);
    var s := Run(Init(c, now), acts);
    if !s.reqs[i].pc.Finished? && !s.reqs[i].pc.Escaped? {
      OnwardIsPossible(s, i);
    }
  }
}
