/** The lane side of the gateway invariant: who owns which token, and who may still give it back. */
module GatewayLanes {
  import opened Basics
  import opened Queues
  import opened Handoff
  import opened Coalescing
  import opened Gateway
  import opened LaneSharing
  import Lane = LaneModel

  predicate Before(pc: Pc) {
    pc.Joining? || pc.Entering? || pc.Acquiring? || pc.AtLane? || pc.Queued? || pc.Watching?
  }

  predicate Holding(pc: Pc) {
    pc.Admitted? || pc.Overdue? || pc.Cleared? || pc.Assembled? || pc.Executing?
  }

  /** The causes of escapes that come with a token in hand. */
  predicate WhileHolding(cause: Cause) {
    cause.Unbuildable? || cause.Unprepared?
  }

  predicate Overran(pc: Pc) {
    pc.Escaped? && pc.cause.Overflowed?
  }

  /** Token, upstream call and release count of one request, by where its handler is. */
  predicate Local(r: Req) {
    && Consistent(r.call)
    && r.releases <= 1
    && (r.releases == 1 ==> r.token.Some? && !StillOpen(r.call) && !r.call.worker.Notifying?)
    && (!r.call.worker.Unstarted? ==> r.token.Some? && (r.pc.Forwarding? || Overran(r.pc) <==> r.call.returned.None?))
    && (!r.call.worker.Unstarted? && r.call.gaveUp && r.call.late == [] ==> r.releases == 0)
    && (Before(r.pc) ==> r.token.None? && r.call == IDLE && r.releases == 0)
    && (Holding(r.pc) ==> r.token.Some? && r.call == IDLE && r.releases == 0)
    && match r.pc
       case Settled(verdict) => r.call == IDLE && r.releases == 0 && (verdict.None? <==> r.token.Some?)
       case Forwarding => !r.call.worker.Unstarted? && r.releases == 0
       case Returned(d) =>
         && r.token.Some?
         && (r.call.worker.Unstarted? ==> d.1)
         && (!r.call.worker.Unstarted? ==> r.call.returned == Some(d))
         && (r.call.late == [] ==> r.releases == 0)
       case Escaped(cause) =>
         && r.releases == 0
         && (cause == NoHolder ==> r.holder == "")
         && (if cause == Overflowed then r.token.Some? <==> r.call != IDLE
             else r.call == IDLE && (cause != Internal ==> (r.token.Some? <==> WhileHolding(cause))))
       case _ => true
  }

  /** The lane agrees with the request about its token and its place in the queue. */
  predicate Shared(l: Lane.Lane, r: Req) {
    && (r.token.Some? ==>
          var t := r.token.value;
          && t < l.tokens
          && (t in l.leases ==> l.leases[t].holder == r.holder)
          && (t in l.released ==> r.releases == 1))
    && (r.pc.Queued? ==> WaitsAs(l, r.pc.ticket, r.holder))
  }

  predicate Placed(s: System, r: Req) {
    && Local(r)
    && (r.token.Some? || r.pc.Queued? || r.pc.Acquiring? || r.pc.AtLane? ==> r.provider in s.lanes)
    && (r.provider in s.lanes ==> Shared(s.lanes[r.provider], r))
  }

  /** No two requests of a provider share a token or a ticket. */
  predicate Apart(a: Req, b: Req) {
    a.provider == b.provider ==>
      && (a.token.Some? ==> a.token != b.token)
      && (a.pc.Queued? && b.pc.Queued? ==> a.pc.ticket != b.pc.ticket)
  }

  ghost predicate LaneOk(s: System, p: string)
    requires p in s.lanes
  {
    && Active(s.config, p)
    && Lane.Valid(s.lanes[p], s.now)
    && s.lanes[p].capacity == s.config.providers[p].capacity
    && s.lanes[p].ttl == s.config.leaseSeconds
  }

  ghost predicate LanesOk(s: System) {
    && (forall p {:trigger LaneOk(s, p)} | p in s.lanes :: LaneOk(s, p))
    && (forall p :: Active(s.config, p) ==> p in s.lanes)
    && (forall i {:trigger Placed(s, s.reqs[i])} :: 0 <= i < |s.reqs| ==> Placed(s, s.reqs[i]))
    && (forall i, j {:trigger Apart(s.reqs[i], s.reqs[j])} :: 0 <= i < j < |s.reqs| ==> Apart(s.reqs[i], s.reqs[j]))
  }

  lemma {:induction false} InitLanesOk(c: Config, now: Time)
    requires Configured(c)
    ensures LanesOk(Init(c, now))
  {
    var s := Init(c, now);
    forall p | p in s.lanes
      ensures LaneOk(s, p)
    {
      assert forall k: nat :: !Lane.Waiting(s.lanes[p], k);
    }
  }

  // ----- Generic steps -----

  lemma {:induction false} LanesLater(s: System, s': System, p: string)
    requires LanesOk(s) && p in s.lanes
    requires s'.now >= s.now && s'.config == s.config && p in s'.lanes && s'.lanes[p] == s.lanes[p]
    ensures LaneOk(s', p)
  {
    assert LaneOk(s, p);
    Lane.TimePasses(s.lanes[p], s.now, s'.now);
  }

  ghost predicate IsQuietStep(s: System, s': System, i: nat) {
    && i < |s.reqs| == |s'.reqs|
    && s'.config == s.config && s'.lanes == s.lanes && s'.now >= s.now
    && (forall j :: 0 <= j < |s.reqs| && j != i ==> s'.reqs[j] == s.reqs[j])
    && var r, r' := s.reqs[i], s'.reqs[i];
       && r'.provider == r.provider && r'.holder == r.holder && r'.token == r.token
       && r'.releases == r.releases && !r'.pc.Queued? && Local(r')
       && (r'.pc.Acquiring? || r'.pc.AtLane? ==> r.provider in s.lanes)
  }

  lemma {:induction false} QuietRequest(s: System, s': System, i: nat, j: nat)
    requires LanesOk(s) && IsQuietStep(s, s', i) && j < |s.reqs|
    ensures Placed(s', s'.reqs[j])
    ensures forall k :: j < k < |s.reqs| ==> Apart(s'.reqs[j], s'.reqs[k])
  {
    assert Placed(s, s.reqs[j]);
    forall k | j < k < |s.reqs|
      ensures Apart(s'.reqs[j], s'.reqs[k])
    {
      assert Apart(s.reqs[j], s.reqs[k]);
    }
  }

  /** A step that only moves request `i`, without touching its token or taking a ticket. */
  lemma {:induction false} QuietStep(s: System, s': System, i: nat)
    requires LanesOk(s) && IsQuietStep(s, s', i)
    ensures LanesOk(s')
  {
    forall p | p in s'.lanes
      ensures LaneOk(s', p)
    {
      LanesLater(s, s', p);
    }
    forall j | 0 <= j < |s'.reqs|
      ensures Placed(s', s'.reqs[j])
      ensures forall k :: j < k < |s'.reqs| ==> Apart(s'.reqs[j], s'.reqs[k])
    {
      QuietRequest(s, s', i, j);
    }
  }

  ghost predicate IsArrival(s: System, s': System) {
    && s'.config == s.config && s'.lanes == s.lanes && s'.now >= s.now
    && |s'.reqs| == |s.reqs| + 1
    && (forall j :: 0 <= j < |s.reqs| ==> s'.reqs[j] == s.reqs[j])
    && var r' := s'.reqs[|s.reqs|];
       Local(r') && r'.token.None? && !r'.pc.Queued? && !r'.pc.Acquiring? && !r'.pc.AtLane?
  }

  lemma {:induction false} ArrivalPlaced(s: System, s': System, j: nat)
    requires LanesOk(s) && IsArrival(s, s') && j < |s'.reqs|
    ensures Placed(s', s'.reqs[j])
  {
    if j < |s.reqs| {
      assert Placed(s, s.reqs[j]);
    }
  }

  lemma {:induction false} ArrivalApart(s: System, s': System, j: nat, k: nat)
    requires LanesOk(s) && IsArrival(s, s') && j < k < |s'.reqs|
    ensures Apart(s'.reqs[j], s'.reqs[k])
  {
    if k < |s.reqs| {
      assert Apart(s.reqs[j], s.reqs[k]);
    }
  }

  lemma {:induction false} ArrivalStep(s: System, s': System)
    requires LanesOk(s) && IsArrival(s, s')
    ensures LanesOk(s')
  {
    forall p | p in s'.lanes
      ensures LaneOk(s', p)
    {
      LanesLater(s, s', p);
    }
    forall j | 0 <= j < |s'.reqs|
      ensures Placed(s', s'.reqs[j])
    {
      ArrivalPlaced(s, s', j);
    }
    forall j, k | 0 <= j < k < |s'.reqs|
      ensures Apart(s'.reqs[j], s'.reqs[k])
    {
      ArrivalApart(s, s', j, k);
    }
  }

  function TicketOf(r: Req): Option<nat> {
    if r.pc.Queued? then Some(r.pc.ticket) else None
  }

  lemma {:induction false} OthersUndisturbed(l: Lane.Lane, l': Lane.Lane, own: Req, other: Req)
    requires Frame(l, l', own.token, TicketOf(own)) && Shared(l, other)
    requires Apart(own, other) || Apart(other, own)
    requires own.provider == other.provider
    ensures Shared(l', other)
  {
    if other.token.Some? {
      assert SameLeaseOrLess(l, l', other.token.value);
    }
  }

  lemma {:induction false} FreshTickets(l: Lane.Lane, r: Req)
    requires Lane.Ordered(l.waiters, l.tickets)
    ensures Shared(l, r) ==> (r.pc.Queued? ==> r.pc.ticket < l.tickets) && (r.token.Some? ==> r.token.value < l.tokens)
  {
    if Shared(l, r) && r.pc.Queued? {
      var w := Lane.Waiter(r.pc.ticket, r.holder);
      var i :| 0 <= i < |l.waiters| && l.waiters[i] == w;
    }
  }

  /** A lane section run on behalf of request `i`: it may touch only that request's token and ticket,
      and what it newly hands out is fresh. */
  ghost predicate IsLaneStep(s: System, s': System, i: nat, op: Lane.Op) {
    && i < |s.reqs| == |s'.reqs| && s.reqs[i].provider in s.lanes
    && Lane.Clocked(op) && op.now == s.now
    && var r, r' := s.reqs[i], s'.reqs[i];
       var p := r.provider;
       && s'.config == s.config && s'.now == op.later
       && s'.lanes == s.lanes[p := Lane.Apply(s.lanes[p], op).0]
       && Frame(s.lanes[p], s'.lanes[p], r.token, TicketOf(r))
       && (forall j :: 0 <= j < |s.reqs| && j != i ==> s'.reqs[j] == s.reqs[j])
       && r'.provider == p && r'.holder == r.holder
       && (r'.token == r.token || r'.token == Some(s.lanes[p].tokens))
       && (r'.pc.Queued? ==> TicketOf(r') == TicketOf(r) || r'.pc.ticket == s.lanes[p].tickets)
       && Local(r') && Shared(s'.lanes[p], r')
  }

  lemma {:induction false} LaneStepLanes(s: System, s': System, i: nat, op: Lane.Op, q: string)
    requires LanesOk(s) && IsLaneStep(s, s', i, op) && q in s'.lanes
    ensures LaneOk(s', q)
  {
    var p := s.reqs[i].provider;
    if q != p {
      LanesLater(s, s', q);
    } else {
      assert LaneOk(s, p);
      Lane.ApplyKeepsValid(s.lanes[p], s.now, op);
    }
  }

  lemma {:induction false} LaneStepPlaced(s: System, s': System, i: nat, op: Lane.Op, j: nat)
    requires LanesOk(s) && IsLaneStep(s, s', i, op) && j < |s.reqs|
    ensures Placed(s', s'.reqs[j])
  {
    if j != i {
      assert Placed(s, s.reqs[j]);
      assert i < j ==> Apart(s.reqs[i], s.reqs[j]);
      assert j < i ==> Apart(s.reqs[j], s.reqs[i]);
      if s.reqs[j].provider == s.reqs[i].provider {
        OthersUndisturbed(s.lanes[s.reqs[i].provider], s'.lanes[s.reqs[i].provider], s.reqs[i], s.reqs[j]);
      }
    }
  }

  lemma {:induction false} LaneStepApart(s: System, s': System, i: nat, op: Lane.Op, j: nat, k: nat)
    requires LanesOk(s) && IsLaneStep(s, s', i, op) && j < k < |s.reqs|
    ensures Apart(s'.reqs[j], s'.reqs[k])
  {
    assert Apart(s.reqs[j], s.reqs[k]);
    var p := s.reqs[i].provider;
    assert Placed(s, s.reqs[j]) && Placed(s, s.reqs[k]);
    assert LaneOk(s, p);
    FreshTickets(s.lanes[p], s.reqs[j]);
    FreshTickets(s.lanes[p], s.reqs[k]);
  }

  lemma {:induction false} LaneStep(s: System, s': System, i: nat, op: Lane.Op)
    requires LanesOk(s) && IsLaneStep(s, s', i, op)
    ensures LanesOk(s')
  {
    forall q | q in s'.lanes
      ensures LaneOk(s', q)
    {
      LaneStepLanes(s, s', i, op, q);
    }
    forall q | Active(s'.config, q)
      ensures q in s'.lanes
    {
      assert Active(s.config, q);
    }
    forall j | 0 <= j < |s'.reqs|
      ensures Placed(s', s'.reqs[j])
    {
      LaneStepPlaced(s, s', i, op, j);
    }
    forall j, k | 0 <= j < k < |s'.reqs|
      ensures Apart(s'.reqs[j], s'.reqs[k])
    {
      LaneStepApart(s, s', i, op, j, k);
    }
  }

  // ----- Each action -----

  lemma {:induction false} TurnPlaces(l: Lane.Lane, m: Lane.Lane, reply: Lane.Reply, ticket: nat, r: Req, until: Time,
                                      at: Time)
    requires TurnOutcome(l, m, reply, ticket, r.holder)
    requires Local(r) && (r.pc.AtLane? || r.pc.Queued?)
    ensures var r' := AfterTurn(r, reply, until, at);
            && Local(r') && Shared(m, r')
            && r'.provider == r.provider && r'.holder == r.holder
            && (r'.token == r.token || r'.token == Some(l.tokens))
            && (r'.pc.Queued? ==> r'.pc.ticket == ticket)
  {
  }

  lemma {:induction false} ReadKeepsLanes(s: System, i: nat)
    requires LanesOk(s) && i < |s.reqs| && Can(s, s.reqs[i], ReadRemaining)
    ensures LanesOk(DoReadRemaining(s, i))
  {
    assert Placed(s, s.reqs[i]);
    QuietStep(s, DoReadRemaining(s, i), i);
  }

  lemma {:induction false} SetKeepsLanes(s: System, i: nat)
    requires LanesOk(s) && i < |s.reqs| && Can(s, s.reqs[i], SetDeadline)
    ensures LanesOk(DoSetDeadline(s, i))
  {
    assert Placed(s, s.reqs[i]);
    QuietStep(s, DoSetDeadline(s, i), i);
  }

  lemma {:induction false} EnterOutcome(s: System, i: nat, mid: Time, later: Time)
    requires LanesOk(s) && i < |s.reqs| && Can(s, s.reqs[i], EnterLane(mid, later))
    ensures var r := s.reqs[i];
            var l := s.lanes[r.provider];
            var (m, reply) := Lane.Apply(l, Lane.Enter(r.holder, r.pc.until, s.now, mid, later));
            Frame(l, m, None, None) && TurnOutcome(l, m, reply, l.tickets, r.holder)
  {
    var r := s.reqs[i];
    assert LaneOk(s, r.provider);
    EnterEffect(s.lanes[r.provider], s.now, Lane.Enter(r.holder, r.pc.until, s.now, mid, later));
  }

  lemma {:induction false} EnterKeepsLanes(s: System, i: nat, mid: Time, later: Time)
    requires LanesOk(s) && i < |s.reqs| && Can(s, s.reqs[i], EnterLane(mid, later))
    ensures LanesOk(DoEnterLane(s, i, mid, later))
  {
    var r := s.reqs[i];
    assert Placed(s, r);
    var l, op := s.lanes[r.provider], Lane.Enter(r.holder, r.pc.until, s.now, mid, later);
    EnterOutcome(s, i, mid, later);
    TurnPlaces(l, Lane.Apply(l, op).0, Lane.Apply(l, op).1, l.tickets, r, r.pc.until, later);
    LaneStep(s, DoEnterLane(s, i, mid, later), i, op);
  }

  lemma {:induction false} PollOutcome(s: System, i: nat, later: Time)
    requires LanesOk(s) && i < |s.reqs| && Can(s, s.reqs[i], PollLane(later))
    ensures var r := s.reqs[i];
            var l := s.lanes[r.provider];
            var (m, reply) := Lane.Apply(l, Lane.Poll(r.pc.ticket, r.pc.until, s.now, later));
            && Frame(l, m, None, Some(r.pc.ticket))
            && TurnOutcome(l, m, reply, r.pc.ticket, r.holder)
  {
    var r := s.reqs[i];
    assert Placed(s, r);
    assert LaneOk(s, r.provider);
    PollEffect(s.lanes[r.provider], s.now, Lane.Poll(r.pc.ticket, r.pc.until, s.now, later), r.holder);
  }

  lemma {:induction false} PollKeepsLanes(s: System, i: nat, later: Time)
    requires LanesOk(s) && i < |s.reqs| && Can(s, s.reqs[i], PollLane(later))
    ensures LanesOk(DoPollLane(s, i, later))
  {
    var r := s.reqs[i];
    assert Placed(s, r);
    var l, op := s.lanes[r.provider], Lane.Poll(r.pc.ticket, r.pc.until, s.now, later);
    PollOutcome(s, i, later);
    TurnPlaces(l, Lane.Apply(l, op).0, Lane.Apply(l, op).1, r.pc.ticket, r, r.pc.until, later);
    LaneStep(s, DoPollLane(s, i, later), i, op);
  }

  /** A release is attempted for a token nobody attempted to release before, with no call still open behind it. */
  lemma {:induction false} FreeKeepsLanes(s: System, s': System, i: nat, later: Time)
    requires LanesOk(s) && i < |s.reqs| && HasLane(s, s.reqs[i]) && s.now <= later
    requires s.reqs[i].releases == 0 && !s.reqs[i].pc.Queued?
    requires |s'.reqs| == |s.reqs|
    requires var r, r' := s.reqs[i], s'.reqs[i];
             && s'.reqs == s.reqs[i := r']
             && s' == CallLane(s, r.provider, Lane.Free(r.holder, r.token.value, s.now, later)).(reqs := s'.reqs)
             && r'.provider == r.provider && r'.holder == r.holder && r'.token == r.token
             && r'.releases == 1 && !r'.pc.Queued? && Local(r')
    ensures LanesOk(s')
  {
    var r := s.reqs[i];
    assert Placed(s, r);
    var op := Lane.Free(r.holder, r.token.value, s.now, later);
    TokenEffect(s.lanes[r.provider], op);
    LaneStep(s, s', i, op);
  }

  lemma {:induction false} BeatKeepsLanes(s: System, i: nat, later: Time)
    requires LanesOk(s) && i < |s.reqs| && Can(s, s.reqs[i], Heartbeat(later))
    ensures LanesOk(DoHeartbeat(s, i, later))
  {
    var r := s.reqs[i];
    assert Placed(s, r);
    var op := Lane.Beat(r.holder, r.token.value, s.now, later);
    TokenEffect(s.lanes[r.provider], op);
    LaneStep(s, DoHeartbeat(s, i, later), i, op);
  }

  lemma {:induction false} StatusKeepsLanes(s: System, p: string, later: Time)
    requires LanesOk(s) && p in s.lanes && s.now <= later
    ensures LanesOk(CallLane(s, p, Lane.Count(s.now, later)))
  {
    var op := Lane.Count(s.now, later);
    var s' := CallLane(s, p, op);
    assert LaneOk(s, p);
    Lane.ApplyKeepsValid(s.lanes[p], s.now, op);
    TokenEffect(s.lanes[p], op);
    forall q | q in s'.lanes
      ensures LaneOk(s', q)
    {
      if q != p { LanesLater(s, s', q); }
    }
    forall j | 0 <= j < |s'.reqs|
      ensures Placed(s', s'.reqs[j])
    {
      var r := s.reqs[j];
      assert Placed(s, r);
      if r.provider == p && r.token.Some? {
        assert SameLeaseOrLess(s.lanes[p], s'.lanes[p], r.token.value);
      }
    }
  }

  lemma {:induction false} CallBackKeepsLanes(s: System, i: nat, later: Time)
    requires LanesOk(s) && i < |s.reqs| && Can(s, s.reqs[i], CallBack(later))
    ensures LanesOk(DoCallBack(s, i, later))
  {
    var r := s.reqs[i];
    assert Placed(s, r);
    MakeKeepsConsistent(r.call, Notify);
    if r.call.worker.delivery.1 {
      FreeKeepsLanes(s, DoCallBack(s, i, later), i, later);
    } else {
      QuietStep(s, DoCallBack(s, i, later), i);
    }
  }

  lemma {:induction false} CheckKeepsLanes(s: System, i: nat)
    requires LanesOk(s) && i < |s.reqs| && Can(s, s.reqs[i], CheckDeadline)
    ensures LanesOk(DoCheckDeadline(s, i))
  {
    assert Placed(s, s.reqs[i]);
    QuietStep(s, DoCheckDeadline(s, i), i);
  }

  lemma {:induction false} ReturnKeepsLanes(s: System, i: nat, later: Time)
    requires LanesOk(s) && i < |s.reqs| && Can(s, s.reqs[i], ReturnSlot(later))
    ensures LanesOk(DoReturnSlot(s, i, later))
  {
    assert Placed(s, s.reqs[i]);
    FreeKeepsLanes(s, DoReturnSlot(s, i, later), i, later);
  }

  lemma {:induction false} RejectionKeepsLanes(s: System, i: nat, later: Time)
    requires LanesOk(s) && i < |s.reqs| && Can(s, s.reqs[i], Assemble(later))
    requires Build(s.table.slots[s.reqs[i].role.slot].members, s.config.fmt).Rejected?
    ensures LanesOk(DoAssemble(s, i, later))
  {
    assert Placed(s, s.reqs[i]);
    FreeKeepsLanes(s, DoAssemble(s, i, later), i, later);
  }

  lemma {:induction false} AssembleKeepsLanes(s: System, i: nat, later: Time)
    requires LanesOk(s) && i < |s.reqs| && Can(s, s.reqs[i], Assemble(later))
    ensures LanesOk(DoAssemble(s, i, later))
  {
    if Build(s.table.slots[s.reqs[i].role.slot].members, s.config.fmt).Rejected? {
      RejectionKeepsLanes(s, i, later);
    } else {
      assert Placed(s, s.reqs[i]);
      QuietStep(s, DoAssemble(s, i, later), i);
    }
  }

  lemma {:induction false} ConcludeIsLocal(r: Req)
    requires Local(r) && r.pc.Returned?
    ensures var r' := r.(pc := Exit(r, r.pc.delivery.0));
            Local(r') && (r.pc.delivery.1 ==> r.releases == 0 && Local(r'.(releases := 1)))
  {
  }

  lemma {:induction false} ConcludeKeepsLanes(s: System, i: nat, later: Time)
    requires LanesOk(s) && i < |s.reqs| && Can(s, s.reqs[i], Conclude(later))
    ensures LanesOk(DoConclude(s, i, later))
  {
    var r := s.reqs[i];
    assert Placed(s, r);
    ConcludeIsLocal(r);
    if r.pc.delivery.1 {
      FreeKeepsLanes(s, DoConclude(s, i, later), i, later);
    } else {
      QuietStep(s, DoConclude(s, i, later), i);
    }
  }

  /** The worker and the caller's decision change the call record only. */
  lemma {:induction false} WorkerKeepsLanes(s: System, i: nat, move: Move)
    requires LanesOk(s) && i < |s.reqs| && Can(s, s.reqs[i], MoveWorker(move))
    ensures LanesOk(Put(s, i, s.reqs[i].(call := Make(s.reqs[i].call, move))))
  {
    var r := s.reqs[i];
    assert Placed(s, r);
    MakeKeepsConsistent(r.call, move);
    QuietStep(s, Put(s, i, r.(call := Make(r.call, move))), i);
  }

  lemma {:induction false} DecideKeepsLanes(s: System, i: nat)
    requires LanesOk(s) && i < |s.reqs| && Can(s, s.reqs[i], CallerDecides)
    ensures LanesOk(DoCallerDecides(s, i))
  {
    var r := s.reqs[i];
    assert Placed(s, r);
    MakeKeepsConsistent(r.call, Decide);
    QuietStep(s, DoCallerDecides(s, i), i);
  }

  lemma {:induction false} StartKeepsLanes(s: System, i: nat)
    requires LanesOk(s) && i < |s.reqs| && Can(s, s.reqs[i], StartWorker)
    ensures LanesOk(DoStartWorker(s, i))
  {
    assert Placed(s, s.reqs[i]);
    QuietStep(s, DoStartWorker(s, i), i);
  }

  lemma {:induction false} JoinKeepsLanes(s: System, i: nat)
    requires LanesOk(s) && i < |s.reqs| && Can(s, s.reqs[i], JoinQueue)
    ensures LanesOk(DoJoinQueue(s, i))
  {
    assert Placed(s, s.reqs[i]);
    QuietStep(s, DoJoinQueue(s, i), i);
  }

  lemma {:induction false} FinishKeepsLanes(s: System, i: nat, slot: Slot, pc: Pc)
    requires LanesOk(s) && i < |s.reqs| && InTable(s, s.reqs[i])
    requires s.reqs[i].pc.Finishing? || s.reqs[i].pc.Marked? || s.reqs[i].pc.Published?
    requires pc.Marked? || pc.Published? || pc.Finished?
    ensures LanesOk(Settle(s, i, slot, pc))
  {
    assert Placed(s, s.reqs[i]);
    QuietStep(s, Settle(s, i, slot, pc), i);
  }

  lemma {:induction false} CloseKeepsLanes(s: System, i: nat)
    requires LanesOk(s) && i < |s.reqs| && Can(s, s.reqs[i], CloseOpenSlot)
    ensures LanesOk(DoCloseOpenSlot(s, i))
  {
    assert Placed(s, s.reqs[i]);
    QuietStep(s, DoCloseOpenSlot(s, i), i);
  }

  lemma {:induction false} MarkKeepsLanes(s: System, i: nat)
    requires LanesOk(s) && i < |s.reqs| && Can(s, s.reqs[i], MarkInFlight)
    ensures LanesOk(DoMarkInFlight(s, i))
  {
    assert Placed(s, s.reqs[i]);
    QuietStep(s, DoMarkInFlight(s, i), i);
  }

  lemma {:induction false} PcKeepsLanes(s: System, i: nat, pc: Pc)
    requires LanesOk(s) && i < |s.reqs|
    requires || ((s.reqs[i].pc.Executing? || s.reqs[i].pc.Cleared? || s.reqs[i].pc.Assembled?)
                 && pc == Escaped(Unprepared))
             || (s.reqs[i].pc.Forwarding? && pc == Escaped(Overflowed))
             || (s.reqs[i].pc.Watching? && (pc == Escaped(Internal) || pc == Escaped(Overflowed) || pc.Finished?))
    ensures LanesOk(Put(s, i, s.reqs[i].(pc := pc)))
  {
    assert Placed(s, s.reqs[i]);
    QuietStep(s, Put(s, i, s.reqs[i].(pc := pc)), i);
  }

  lemma {:induction false} RefusalKeepsLanes(s: System, i: nat, text: string)
    requires LanesOk(s) && i < |s.reqs| && Can(s, s.reqs[i], RefuseCall(text))
    ensures LanesOk(DoRefuseCall(s, i, text))
  {
    assert Placed(s, s.reqs[i]);
    QuietStep(s, DoRefuseCall(s, i, text), i);
  }

  lemma {:induction false} DoLaneKeepsLanes(s: System, i: nat, d: Doing)
    requires LanesOk(s) && i < |s.reqs| && Can(s, s.reqs[i], d) && RunsLane(d)
    ensures LanesOk(DoLane(s, i, d))
  {
    match d
    case EnterLane(mid, later) => EnterKeepsLanes(s, i, mid, later);
    case PollLane(later) => PollKeepsLanes(s, i, later);
    case ReturnSlot(later) => ReturnKeepsLanes(s, i, later);
    case Assemble(later) => AssembleKeepsLanes(s, i, later);
    case CallBack(later) => CallBackKeepsLanes(s, i, later);
    case Heartbeat(later) => BeatKeepsLanes(s, i, later);
    case Conclude(later) => ConcludeKeepsLanes(s, i, later);
  }

  lemma {:induction false} DoSlotKeepsLanes(s: System, i: nat, d: Doing)
    requires LanesOk(s) && i < |s.reqs| && Can(s, s.reqs[i], d) && ChangesTable(d)
    ensures LanesOk(DoSlot(s, i, d))
  {
    var at := if InTable(s, s.reqs[i]) then s.reqs[i].role.slot else 0;
    match d
    case JoinQueue => JoinKeepsLanes(s, i);
    case CloseOpenSlot => CloseKeepsLanes(s, i);
    case MarkInFlight => MarkKeepsLanes(s, i);
    case StartWorker => StartKeepsLanes(s, i);
    case MarkDone => FinishKeepsLanes(s, i, DoMarkDone(s, i).table.slots[at], Marked(s.reqs[i].pc.result));
    case Publish => FinishKeepsLanes(s, i, DoPublish(s, i).table.slots[at], Published(s.reqs[i].pc.result));
    case Signal => FinishKeepsLanes(s, i, DoSignal(s, i).table.slots[at], Finished(s.reqs[i].pc.result));
  }

  lemma {:induction false} DoAloneKeepsLanes(s: System, i: nat, d: Doing)
    requires LanesOk(s) && i < |s.reqs| && Can(s, s.reqs[i], d) && !RunsLane(d) && !ChangesTable(d)
    ensures LanesOk(DoAlone(s, i, d))
  {
    match d
    case ReadRemaining => ReadKeepsLanes(s, i);
    case SetDeadline => SetKeepsLanes(s, i);
    case CheckDeadline => CheckKeepsLanes(s, i);
    case MoveWorker(move) => WorkerKeepsLanes(s, i, move);
    case CallerDecides => DecideKeepsLanes(s, i);
    case Escape => PcKeepsLanes(s, i, Escaped(Unprepared));
    case RefuseCall(text) => RefusalKeepsLanes(s, i, text);
    case CallerOverflows => PcKeepsLanes(s, i, Escaped(Overflowed));
    case JoinerOverflows => PcKeepsLanes(s, i, Escaped(Overflowed));
    case WakeJoiner => PcKeepsLanes(s, i, DoWakeJoiner(s, i).reqs[i].pc);
    case TimeOutJoiner => PcKeepsLanes(s, i, Finished(Plainly(TotalTimeout)));
  }

  lemma {:induction false} DoKeepsLanes(s: System, i: nat, d: Doing)
    requires LanesOk(s) && i < |s.reqs| && Can(s, s.reqs[i], d)
    ensures LanesOk(Do(s, i, d))
  {
    if RunsLane(d) {
      DoLaneKeepsLanes(s, i, d);
    } else if ChangesTable(d) {
      DoSlotKeepsLanes(s, i, d);
    } else {
      DoAloneKeepsLanes(s, i, d);
    }
  }

  lemma {:induction false} TickKeepsLanes(s: System, at: Time)
    requires LanesOk(s) && s.now <= at
    ensures LanesOk(s.(now := at))
  {
    var s' := s.(now := at);
    forall p | p in s.lanes
      ensures LaneOk(s', p)
    {
      LanesLater(s, s', p);
    }
    forall j | 0 <= j < |s.reqs|
      ensures Placed(s', s.reqs[j])
    {
      assert Placed(s, s.reqs[j]);
    }
  }

  lemma {:induction false} ForwardArrives(s: System, a: Action)
    requires a.ArriveForward? && s.now <= a.later
    ensures IsArrival(s, Arrive(s, ForwardRequest(s, a), a.later))
  {
  }

  lemma {:induction false} QueueArrives(s: System, a: Action)
    requires a.ArriveQueue? && s.now <= a.later
    ensures IsArrival(s, Arrive(s, QueueRequest(s, a), a.later))
  {
  }

  lemma {:induction false} ArrivalKeepsLanes(s: System, a: Action)
    requires LanesOk(s) && Enabled(s, a) && (a.ArriveForward? || a.ArriveQueue?)
    ensures LanesOk(Next(s, a))
  {
    if a.ArriveForward? {
      ForwardArrives(s, a);
    } else {
      QueueArrives(s, a);
    }
    ArrivalStep(s, Next(s, a));
  }

  lemma {:induction false} NextKeepsLanes(s: System, a: Action)
    requires LanesOk(s) && Enabled(s, a)
    ensures LanesOk(Next(s, a))
  {
    match a
    case Act(i, doing) => DoKeepsLanes(s, i, doing);
    case ReadStatus(p, later) => StatusKeepsLanes(s, p, later);
    case Tick(at) => TickKeepsLanes(s, at);
    case ArriveForward(_, _, _) => ArrivalKeepsLanes(s, a);
    case ArriveQueue(_, _, _, _, _) => ArrivalKeepsLanes(s, a);
  }
}
