/** No slot and no place in a queue is ever lost: whatever a lane still holds, some handler or worker still needs. */
module GatewayConservation {
  import opened Basics
  import opened Queues
  import opened Handoff
  import opened Gateway
  import opened GatewayLanes
  import opened GatewaySlots
  import opened GatewayTheorems
  import Lane = LaneModel

  // ----- Who still needs a token -----

  /** The handler has not finished with its slot, or left by an exception. */
  predicate HandlerNeeds(pc: Pc) {
    pc.Settled? || Holding(pc) || pc.Forwarding? || pc.Returned? || pc.Escaped?
  }

  /** The worker has started and not ended with a confirmed close. */
  predicate WorkerNeeds(c: Call) {
    !c.worker.Unstarted? && !(c.worker.Ended? && c.worker.delivery.1)
  }

  predicate InUse(r: Req) {
    HandlerNeeds(r.pc) || WorkerNeeds(r.call)
  }

  /** A token that is no longer needed has had its release attempted. */
  predicate SlotSettled(r: Req) {
    && (r.token.Some? && r.releases == 0 ==> InUse(r))
    && (r.call.late != [] && r.call.late[0].1 ==> r.releases == 1)
  }

  /** An attempted release was effective: the token is out of the table for good. */
  predicate GivenBack(s: System, r: Req) {
    r.releases == 1 && r.token.Some? && r.provider in s.lanes ==> r.token.value !in s.lanes[r.provider].leases
  }

  predicate Holds(s: System, p: string, t: nat, i: int) {
    0 <= i < |s.reqs| && s.reqs[i].provider == p && s.reqs[i].token == Some(t)
  }

  predicate Stands(s: System, p: string, k: nat, i: int) {
    0 <= i < |s.reqs| && s.reqs[i].provider == p && TicketOf(s.reqs[i]) == Some(k)
  }

  ghost predicate Held(s: System, p: string, t: nat) {
    exists i :: Holds(s, p, t, i)
  }

  ghost predicate Stood(s: System, p: string, k: nat) {
    exists i :: Stands(s, p, k, i)
  }

  /** Every lease and every waiter of the lane belongs to a request. */
  ghost predicate LaneOwned(s: System, p: string)
    requires p in s.lanes
  {
    && (forall t :: t in s.lanes[p].leases ==> Held(s, p, t))
    && (forall n :: 0 <= n < |s.lanes[p].waiters| ==> Stood(s, p, s.lanes[p].waiters[n].ticket))
  }

  ghost predicate Conserved(s: System) {
    && (forall i {:trigger SlotSettled(s.reqs[i])} :: 0 <= i < |s.reqs| ==> SlotSettled(s.reqs[i]))
    && (forall i {:trigger GivenBack(s, s.reqs[i])} :: 0 <= i < |s.reqs| ==> GivenBack(s, s.reqs[i]))
    && (forall p {:trigger LaneOwned(s, p)} | p in s.lanes :: LaneOwned(s, p))
  }

  // ----- One request -----

  lemma {:induction false} TurnSettles(r: Req, reply: Lane.Reply, until: Time, at: Time)
    requires Local(r) && SlotSettled(r) && (r.pc.AtLane? || r.pc.Queued?)
    ensures SlotSettled(AfterTurn(r, reply, until, at))
  {
  }

  lemma {:induction false} TurnsSettle(s: System, i: nat, d: Doing)
    requires i < |s.reqs| && Can(s, s.reqs[i], d) && Local(s.reqs[i]) && SlotSettled(s.reqs[i])
    requires d.EnterLane? || d.PollLane?
    ensures SlotSettled(DoLane(s, i, d).reqs[i])
  {
    var r := s.reqs[i];
    match d
    case PollLane(later) =>
      var op := Lane.Poll(r.pc.ticket, r.pc.until, s.now, later);
      TurnSettles(r, Lane.Apply(s.lanes[r.provider], op).1, r.pc.until, later);
    case EnterLane(mid, later) =>
      var op := Lane.Enter(r.holder, r.pc.until, s.now, mid, later);
      TurnSettles(r, Lane.Apply(s.lanes[r.provider], op).1, r.pc.until, later);
  }

  lemma {:induction false} AssemblySettles(s: System, i: nat, later: Time)
    requires i < |s.reqs| && Can(s, s.reqs[i], Assemble(later)) && Local(s.reqs[i]) && SlotSettled(s.reqs[i])
    ensures SlotSettled(DoAssemble(s, i, later).reqs[i])
  {
    var built := Build(s.table.slots[s.reqs[i].role.slot].members, s.config.fmt);
    assert built.Body? || built.Rejected? || built.Escapes?;
  }

  lemma {:induction false} DoLaneSettles(s: System, i: nat, d: Doing)
    requires i < |s.reqs| && Can(s, s.reqs[i], d) && Local(s.reqs[i]) && SlotSettled(s.reqs[i]) && RunsLane(d)
    ensures SlotSettled(DoLane(s, i, d).reqs[i])
  {
    if d.EnterLane? || d.PollLane? {
      TurnsSettle(s, i, d);
    } else if d.Assemble? {
      AssemblySettles(s, i, d.later);
    }
  }

  lemma {:induction false} DoSlotSettles(s: System, i: nat, d: Doing)
    requires i < |s.reqs| && Can(s, s.reqs[i], d) && Local(s.reqs[i]) && SlotSettled(s.reqs[i]) && ChangesTable(d)
    ensures SlotSettled(DoSlot(s, i, d).reqs[i])
  {
  }

  lemma {:induction false} DoAloneSettles(s: System, i: nat, d: Doing)
    requires i < |s.reqs| && Can(s, s.reqs[i], d) && Local(s.reqs[i]) && SlotSettled(s.reqs[i])
    requires !RunsLane(d) && !ChangesTable(d)
    ensures SlotSettled(DoAlone(s, i, d).reqs[i])
  {
  }

  lemma {:induction false} DoSettles(s: System, i: nat, d: Doing)
    requires Inv(s) && i < |s.reqs| && Can(s, s.reqs[i], d) && SlotSettled(s.reqs[i])
    ensures SlotSettled(Do(s, i, d).reqs[i])
  {
    assert Placed(s, s.reqs[i]);
    if RunsLane(d) {
      DoLaneSettles(s, i, d);
    } else if ChangesTable(d) {
      DoSlotSettles(s, i, d);
    } else {
      DoAloneSettles(s, i, d);
    }
  }

  // ----- One lane section -----

  /** From `l` to `m` nothing was added but what request `own`, now `own'`, got, and nothing it gave up is left. */
  ghost predicate OnlyOwn(l: Lane.Lane, m: Lane.Lane, own: Req, own': Req) {
    && (forall t :: t in m.leases ==> t in l.leases || (own.token.None? && own'.token == Some(t) && t == l.tokens))
    && (own'.releases > own.releases && own.token.Some? ==> own.token.value !in m.leases)
    && (forall n :: 0 <= n < |m.waiters| ==>
          var k := m.waiters[n].ticket;
          TicketOf(own') == Some(k) || (TicketOf(own) != Some(k) && Lane.Waiting(l, k)))
  }

  /** A waiter left after one was dropped waited before, under another ticket. */
  lemma {:induction false} DropAddsNone(l: Lane.Lane, p: nat, n: nat)
    requires Lane.Ordered(l.waiters, l.tickets) && p < |l.waiters| && n < |Lane.Drop(l.waiters, p)|
    ensures var k := Lane.Drop(l.waiters, p)[n].ticket; k != l.waiters[p].ticket && Lane.Waiting(l, k)
  {
    Lane.DropStaysOrdered(l.waiters, l.tickets, p);
    var m := if n < p then n else n + 1;
    assert Lane.Drop(l.waiters, p)[n] == l.waiters[m];
  }

  /** From `l` to `m`, by a turn taken under `ticket` that leaves its caller as `own'`. */
  ghost predicate TurnAddsOnly(l: Lane.Lane, m: Lane.Lane, ticket: nat, own': Req) {
    && (forall t :: t in m.leases ==> t in l.leases || (own'.token == Some(t) && t == l.tokens))
    && (forall n :: 0 <= n < |m.waiters| ==>
          var k := m.waiters[n].ticket; TicketOf(own') == Some(k) || (k != ticket && Lane.Waiting(l, k)))
  }

  lemma {:induction false} TurnAdds(l: Lane.Lane, own: Req, ticket: nat, deadline: Time, later: Time, until: Time,
                                    at: Time)
    requires Lane.Ordered(l.waiters, l.tickets) && own.token.None?
    requires Lane.Waiting(l, ticket)
    ensures var (m, reply) := Lane.Turn(l, ticket, deadline, later);
            TurnAddsOnly(l, m, ticket, AfterTurn(own, reply, until, at)) && reply != Lane.NoTicket
  {
    var i :| 0 <= i < |l.waiters| && l.waiters[i].ticket == ticket;
    Lane.PositionOf(l.waiters, l.tickets, i);
    var (m, reply) := Lane.Turn(l, ticket, deadline, later);
    var own' := AfterTurn(own, reply, until, at);
    forall n | 0 <= n < |m.waiters|
      ensures var k := m.waiters[n].ticket; TicketOf(own') == Some(k) || (k != ticket && Lane.Waiting(l, k))
    {
      if reply.Blocked? {
        assert m.waiters[n] == l.waiters[n];
      } else {
        DropAddsNone(l, i, n);
      }
    }
  }

  lemma {:induction false} PollAdds(l: Lane.Lane, before: Time, op: Lane.Op, own: Req, until: Time, at: Time)
    requires Lane.Valid(l, before) && before <= op.now && Lane.Clocked(op) && op.Poll?
    requires own.token.None? && own.pc == Queued(op.ticket, until) && Lane.Waiting(l, op.ticket)
    ensures OnlyOwn(l, Lane.Apply(l, op).0, own, AfterTurn(own, Lane.Apply(l, op).1, until, at))
  {
    Lane.ExpireKeepsValid(l, before, op.now);
    var e := Lane.Expire(l, op.now);
    assert forall k: nat :: Lane.Waiting(e, k) == Lane.Waiting(l, k);
    TurnAdds(e, own, op.ticket, op.deadline, op.later, until, at);
  }

  lemma {:induction false} LinedUp(l: Lane.Lane, before: Time, op: Lane.Op)
    requires Lane.Valid(l, before) && before <= op.now && Lane.Clocked(op) && op.Enter?
    ensures var t := Lane.Expire(Lane.Enqueue(Lane.Expire(l, op.now), op.holder), op.mid);
            && Lane.Ordered(t.waiters, t.tickets)
            && (forall k: nat {:trigger Lane.Waiting(t, k)} ::
                  Lane.Waiting(t, k) <==> Lane.Waiting(l, k) || k == l.tickets)
  {
    Lane.EnqueueAdds(l, op.holder);
    var q := Lane.Enqueue(l, op.holder);
    var t := Lane.Expire(Lane.Enqueue(Lane.Expire(l, op.now), op.holder), op.mid);
    assert t.waiters == q.waiters && t.tickets == q.tickets;
    assert forall k: nat {:trigger Lane.Waiting(t, k)} :: Lane.Waiting(t, k) == Lane.Waiting(q, k);
  }

  lemma {:induction false} EnterAdds(l: Lane.Lane, before: Time, op: Lane.Op, own: Req, until: Time, at: Time)
    requires Lane.Valid(l, before) && before <= op.now && Lane.Clocked(op) && op.Enter?
    requires own.token.None? && own.pc.AtLane?
    ensures OnlyOwn(l, Lane.Apply(l, op).0, own, AfterTurn(own, Lane.Apply(l, op).1, until, at))
  {
    LinedUp(l, before, op);
    var t := Lane.Expire(Lane.Enqueue(Lane.Expire(l, op.now), op.holder), op.mid);
    TurnAdds(t, own, l.tickets, op.deadline, op.later, until, at);
  }

  /** Heartbeats, releases and status reads. */
  lemma {:induction false} TokenOpAdds(l: Lane.Lane, op: Lane.Op, own: Req, own': Req)
    requires op.Beat? || op.Free? || op.Count?
    requires op.Free? ==> own.token == Some(op.token)
                          && (op.token in l.leases ==> l.leases[op.token].holder == op.holder)
    requires !op.Free? ==> own'.releases <= own.releases
    requires TicketOf(own).None?
    ensures OnlyOwn(l, Lane.Apply(l, op).0, own, own')
  {
    var m := Lane.Apply(l, op).0;
    forall n | 0 <= n < |m.waiters|
      ensures Lane.Waiting(l, m.waiters[n].ticket)
    {
      assert l.waiters[n] == m.waiters[n];
    }
  }

  // ----- One step -----

  /** Request `i` moved; the only lane that may differ is its own. */
  ghost predicate IsOwnStep(s: System, s': System, i: nat) {
    && i < |s.reqs| && |s'.reqs| == |s.reqs| && s'.reqs == s.reqs[i := s'.reqs[i]]
    && s'.lanes.Keys == s.lanes.Keys
    && (forall p :: p in s.lanes && p != s.reqs[i].provider ==> s'.lanes[p] == s.lanes[p])
    && var r, r' := s.reqs[i], s'.reqs[i];
       && r'.provider == r.provider && (r.token.Some? ==> r'.token == r.token)
       && Local(r') && r.releases <= r'.releases
       && (r'.token != r.token ==> r'.releases == 0)
       && (r.provider in s.lanes ==> OnlyOwn(s.lanes[r.provider], s'.lanes[r.provider], r, r'))
  }

  lemma {:induction false} OwnStepGivesBack(s: System, s': System, i: nat, j: nat)
    requires Inv(s) && Conserved(s) && IsOwnStep(s, s', i) && j < |s.reqs|
    ensures GivenBack(s', s'.reqs[j])
  {
    assert Placed(s, s.reqs[j]) && GivenBack(s, s.reqs[j]);
  }

  lemma {:induction false} OwnStepOwnsLeases(s: System, s': System, i: nat, p: string, t: nat)
    requires Conserved(s) && IsOwnStep(s, s', i) && p in s'.lanes && t in s'.lanes[p].leases
    ensures Held(s', p, t)
  {
    assert LaneOwned(s, p);
    if t in s.lanes[p].leases {
      var j :| Holds(s, p, t, j);
      assert Holds(s', p, t, j);
    } else {
      assert Holds(s', p, t, i);
    }
  }

  lemma {:induction false} OwnStepOwnsWaiters(s: System, s': System, i: nat, p: string, n: nat)
    requires Conserved(s) && IsOwnStep(s, s', i) && p in s'.lanes && n < |s'.lanes[p].waiters|
    ensures Stood(s', p, s'.lanes[p].waiters[n].ticket)
  {
    assert LaneOwned(s, p);
    var k := s'.lanes[p].waiters[n].ticket;
    if p == s.reqs[i].provider && TicketOf(s'.reqs[i]) == Some(k) {
      assert Stands(s', p, k, i);
    } else {
      var m := n;
      if p == s.reqs[i].provider {
        m :| 0 <= m < |s.lanes[p].waiters| && s.lanes[p].waiters[m].ticket == k;
      }
      assert Stood(s, p, s.lanes[p].waiters[m].ticket);
      var j :| Stands(s, p, k, j);
      assert Stands(s', p, k, j);
    }
  }

  lemma {:induction false} OwnStep(s: System, s': System, i: nat)
    requires Inv(s) && Conserved(s) && IsOwnStep(s, s', i) && SlotSettled(s'.reqs[i])
    ensures Conserved(s')
  {
    forall j | 0 <= j < |s'.reqs|
      ensures SlotSettled(s'.reqs[j]) && GivenBack(s', s'.reqs[j])
    {
      assert SlotSettled(s.reqs[j]);
      OwnStepGivesBack(s, s', i, j);
    }
    forall p | p in s'.lanes
      ensures LaneOwned(s', p)
    {
      forall t | t in s'.lanes[p].leases
        ensures Held(s', p, t)
      {
        OwnStepOwnsLeases(s, s', i, p, t);
      }
      forall n | 0 <= n < |s'.lanes[p].waiters|
        ensures Stood(s', p, s'.lanes[p].waiters[n].ticket)
      {
        OwnStepOwnsWaiters(s, s', i, p, n);
      }
    }
  }

  // ----- Each action -----

  lemma {:induction false} UnmovedAdds(l: Lane.Lane, own: Req, own': Req)
    requires TicketOf(own).None? && own'.releases <= own.releases
    ensures OnlyOwn(l, l, own, own')
  {
  }

  /** Entering and polling add to the lane only what their own request gets. */
  lemma {:induction false} TurnsAdd(s: System, i: nat, d: Doing)
    requires Inv(s) && i < |s.reqs| && Can(s, s.reqs[i], d) && (d.EnterLane? || d.PollLane?)
    ensures var s', p := DoLane(s, i, d), s.reqs[i].provider;
            OnlyOwn(s.lanes[p], s'.lanes[p], s.reqs[i], s'.reqs[i])
  {
    var r := s.reqs[i];
    assert Placed(s, r) && LaneOk(s, r.provider);
    var l := s.lanes[r.provider];
    match d
    case PollLane(later) =>
      assert Lane.Waiter(r.pc.ticket, r.holder) in l.waiters;
      assert Lane.Waiting(l, r.pc.ticket);
      PollAdds(l, s.now, Lane.Poll(r.pc.ticket, r.pc.until, s.now, later), r, r.pc.until, later);
    case EnterLane(mid, later) =>
      EnterAdds(l, s.now, Lane.Enter(r.holder, r.pc.until, s.now, mid, later), r, r.pc.until, later);
  }

  lemma {:induction false} ReleaseAdds(s: System, s': System, i: nat, later: Time)
    requires Inv(s) && i < |s.reqs| && HasLane(s, s.reqs[i]) && TicketOf(s.reqs[i]).None?
    requires var r, p := s.reqs[i], s.reqs[i].provider;
             s'.lanes == s.lanes[p := Lane.Apply(s.lanes[p], Lane.Free(r.holder, r.token.value, s.now, later)).0]
    requires i < |s'.reqs|
    ensures var p := s.reqs[i].provider; OnlyOwn(s.lanes[p], s'.lanes[p], s.reqs[i], s'.reqs[i])
  {
    var r := s.reqs[i];
    assert Placed(s, r);
    TokenOpAdds(s.lanes[r.provider], Lane.Free(r.holder, r.token.value, s.now, later), r, s'.reqs[i]);
  }

  /** A step that either runs one release of the request's token or leaves its lane alone. */
  ghost predicate ReleasesOrNot(s: System, s': System, i: nat, later: Time)
    requires i < |s.reqs| && HasLane(s, s.reqs[i])
  {
    && i < |s'.reqs|
    && var r, p := s.reqs[i], s.reqs[i].provider;
       if s'.reqs[i].releases > r.releases
       then s'.lanes == s.lanes[p := Lane.Apply(s.lanes[p], Lane.Free(r.holder, r.token.value, s.now, later)).0]
       else s'.lanes == s.lanes
  }

  lemma {:induction false} ReleasesOnce(s: System, i: nat, d: Doing)
    requires i < |s.reqs| && Can(s, s.reqs[i], d)
    requires d.ReturnSlot? || d.CallBack? || d.Conclude? || d.Assemble?
    ensures ReleasesOrNot(s, DoLane(s, i, d), i, d.later)
  {
  }

  lemma {:induction false} ReleasesAdd(s: System, s': System, i: nat, later: Time)
    requires LanesOk(s) && SlotsOk(s) && i < |s.reqs| && HasLane(s, s.reqs[i]) && TicketOf(s.reqs[i]).None?
    requires ReleasesOrNot(s, s', i, later)
    ensures var p := s.reqs[i].provider; p in s'.lanes && OnlyOwn(s.lanes[p], s'.lanes[p], s.reqs[i], s'.reqs[i])
  {
    if s'.reqs[i].releases > s.reqs[i].releases {
      ReleaseAdds(s, s', i, later);
    } else {
      UnmovedAdds(s.lanes[s.reqs[i].provider], s.reqs[i], s'.reqs[i]);
    }
  }

  lemma {:induction false} BeatAdds(s: System, i: nat, later: Time)
    requires Inv(s) && i < |s.reqs| && Can(s, s.reqs[i], Heartbeat(later))
    ensures var s', p := DoHeartbeat(s, i, later), s.reqs[i].provider;
            OnlyOwn(s.lanes[p], s'.lanes[p], s.reqs[i], s'.reqs[i])
  {
    var r := s.reqs[i];
    TokenOpAdds(s.lanes[r.provider], Lane.Beat(r.holder, r.token.value, s.now, later), r, r.(beat := later));
  }

  lemma {:induction false} DoLaneAdds(s: System, i: nat, d: Doing)
    requires Inv(s) && i < |s.reqs| && Can(s, s.reqs[i], d) && RunsLane(d)
    ensures s.reqs[i].provider in s.lanes
    ensures var s', p := DoLane(s, i, d), s.reqs[i].provider;
            OnlyOwn(s.lanes[p], s'.lanes[p], s.reqs[i], s'.reqs[i])
  {
    if d.EnterLane? || d.PollLane? {
      TurnsAdd(s, i, d);
    } else if d.Heartbeat? {
      BeatAdds(s, i, d.later);
    } else {
      assert Placed(s, s.reqs[i]);
      ReleasesOnce(s, i, d);
      ReleasesAdd(s, DoLane(s, i, d), i, d.later);
    }
  }

  /** Away from the lanes, nobody is queued. */
  lemma {:induction false} OthersAreNotQueued(s: System, i: nat, d: Doing)
    requires LanesOk(s) && i < |s.reqs| && Can(s, s.reqs[i], d) && !RunsLane(d)
    ensures TicketOf(s.reqs[i]).None?
  {
    assert Placed(s, s.reqs[i]);
  }

  lemma {:induction false} LaneStepIsOwn(s: System, i: nat, d: Doing)
    requires Inv(s) && i < |s.reqs| && Can(s, s.reqs[i], d) && RunsLane(d)
    ensures IsOwnStep(s, DoLane(s, i, d), i)
  {
    var s' := DoLane(s, i, d);
    assert Placed(s, s.reqs[i]);
    DoLaneKeepsLanes(s, i, d);
    assert Placed(s', s'.reqs[i]);
    DoLaneAdds(s, i, d);
  }

  lemma {:induction false} OtherStepIsOwn(s: System, s': System, i: nat, d: Doing)
    requires Inv(s) && i < |s.reqs| && Can(s, s.reqs[i], d) && !RunsLane(d)
    requires |s'.reqs| == |s.reqs| && s'.reqs == s.reqs[i := s'.reqs[i]] && s'.lanes == s.lanes && LanesOk(s')
    requires SamePerson(s.reqs[i], s'.reqs[i]) && SameSlot(s.reqs[i], s'.reqs[i])
    ensures IsOwnStep(s, s', i)
  {
    assert Placed(s', s'.reqs[i]);
    OthersAreNotQueued(s, i, d);
    if s.reqs[i].provider in s.lanes {
      UnmovedAdds(s.lanes[s.reqs[i].provider], s.reqs[i], s'.reqs[i]);
    }
  }

  lemma {:induction false} DoIsOwnStep(s: System, i: nat, d: Doing)
    requires Inv(s) && i < |s.reqs| && Can(s, s.reqs[i], d)
    ensures IsOwnStep(s, Do(s, i, d), i)
  {
    if RunsLane(d) {
      LaneStepIsOwn(s, i, d);
    } else {
      DoKeepsLanes(s, i, d);
      OtherStepIsOwn(s, Do(s, i, d), i, d);
    }
  }

  /** A status read, the clock or an arrival: requests stay as they are, one may come. */
  ghost predicate IsOutsideStep(s: System, s': System) {
    && |s.reqs| <= |s'.reqs| <= |s.reqs| + 1
    && (forall j :: 0 <= j < |s.reqs| ==> s'.reqs[j] == s.reqs[j])
    && (|s.reqs| < |s'.reqs| ==> s'.reqs[|s.reqs|].token.None? && s'.reqs[|s.reqs|].call == IDLE)
    && s'.lanes.Keys == s.lanes.Keys
    && (forall p :: p in s.lanes ==> s'.lanes[p].waiters == s.lanes[p].waiters)
    && (forall p, t :: p in s.lanes && t in s'.lanes[p].leases ==> t in s.lanes[p].leases)
  }

  lemma {:induction false} OutsideStepOwns(s: System, s': System, p: string)
    requires Conserved(s) && IsOutsideStep(s, s') && p in s'.lanes
    ensures LaneOwned(s', p)
  {
    assert LaneOwned(s, p);
    forall t | t in s'.lanes[p].leases
      ensures Held(s', p, t)
    {
      var j :| Holds(s, p, t, j);
      assert Holds(s', p, t, j);
    }
    forall n | 0 <= n < |s'.lanes[p].waiters|
      ensures Stood(s', p, s'.lanes[p].waiters[n].ticket)
    {
      assert Stood(s, p, s.lanes[p].waiters[n].ticket);
      var j :| Stands(s, p, s.lanes[p].waiters[n].ticket, j);
      assert Stands(s', p, s'.lanes[p].waiters[n].ticket, j);
    }
  }

  lemma {:induction false} OutsideStep(s: System, s': System)
    requires Conserved(s) && IsOutsideStep(s, s')
    ensures Conserved(s')
  {
    forall j | 0 <= j < |s'.reqs|
      ensures SlotSettled(s'.reqs[j]) && GivenBack(s', s'.reqs[j])
    {
      if j < |s.reqs| {
        assert SlotSettled(s.reqs[j]) && GivenBack(s, s.reqs[j]);
      }
    }
    forall p | p in s'.lanes
      ensures LaneOwned(s', p)
    {
      OutsideStepOwns(s, s', p);
    }
  }

  lemma {:induction false} DoKeepsConserved(s: System, i: nat, d: Doing)
    requires Inv(s) && Conserved(s) && Enabled(s, Act(i, d))
    ensures Conserved(Do(s, i, d))
  {
    assert SlotSettled(s.reqs[i]);
    DoIsOwnStep(s, i, d);
    DoSettles(s, i, d);
    OwnStep(s, Do(s, i, d), i);
  }

  lemma {:induction false} NextKeepsConserved(s: System, a: Action)
    requires Inv(s) && Conserved(s) && Enabled(s, a)
    ensures Conserved(Next(s, a))
  {
    if a.Act? {
      DoKeepsConserved(s, a.i, a.doing);
    } else {
      assert IsOutsideStep(s, Next(s, a));
      OutsideStep(s, Next(s, a));
    }
  }

  // ----- Whole runs -----

  lemma {:induction false} RunKeepsConserved(s: System, acts: seq<Action>)
    requires Inv(s) && Conserved(s) && Allows(s, acts)
    ensures Conserved(Run(s, acts))
    decreases |acts|
  {
    if acts != [] {
      NextKeepsLanes(s, acts[0]);
      NextKeepsSlots(s, acts[0]);
      NextKeepsConserved(s, acts[0]);
      RunKeepsConserved(Next(s, acts[0]), acts[1..]);
    }
  }

  lemma {:induction false} HeldIsInUse(s: System, p: string)
    requires LanesOk(s) && Conserved(s) && p in s.lanes
    ensures forall t, i :: t in s.lanes[p].leases && Holds(s, p, t, i) ==> InUse(s.reqs[i]) && s.reqs[i].releases == 0
  {
    forall t, i | t in s.lanes[p].leases && Holds(s, p, t, i)
      ensures InUse(s.reqs[i]) && s.reqs[i].releases == 0
    {
      assert SlotSettled(s.reqs[i]) && GivenBack(s, s.reqs[i]) && Placed(s, s.reqs[i]);
    }
  }

  lemma {:induction false} HoldersAreUnique(s: System, p: string)
    requires LanesOk(s)
    ensures forall t, i, j :: Holds(s, p, t, i) && Holds(s, p, t, j) ==> i == j
    ensures forall k, i, j :: Stands(s, p, k, i) && Stands(s, p, k, j) ==> i == j
  {
    forall t, i, j | Holds(s, p, t, i) && Holds(s, p, t, j)
      ensures i == j
    {
      assert i < j ==> Apart(s.reqs[i], s.reqs[j]);
      assert j < i ==> Apart(s.reqs[j], s.reqs[i]);
    }
    forall k, i, j | Stands(s, p, k, i) && Stands(s, p, k, j)
      ensures i == j
    {
      assert i < j ==> Apart(s.reqs[i], s.reqs[j]);
      assert j < i ==> Apart(s.reqs[j], s.reqs[i]);
    }
  }

  /** In every run, each lease in a lane's table belongs to exactly one request, whose handler has not finished with
      the slot (or escaped) or whose worker has not ended with a confirmed close, and for which no release has been
      attempted; and each waiter is the ticket of exactly one blocked request. So a call whose close is confirmed,
      however late, gives its slot back without waiting for the lease to lapse. */
  lemma {:induction false} NothingLeaks(c: Config, now: Time, acts: seq<Action>, p: string)
    requires Configured(c) && Active(c, p) && Allows(Init(c, now), acts)
    ensures var s := Run(Init(c, now), acts);
            && p in s.lanes
            && (forall t :: t in s.lanes[p].leases ==> Held(s, p, t))
            && (forall t, i :: t in s.lanes[p].leases && Holds(s, p, t, i) ==>
                  InUse(s.reqs[i]) && s.reqs[i].releases == 0)
            && (forall t, i, j :: Holds(s, p, t, i) && Holds(s, p, t, j) ==> i == j)
            && (forall n :: 0 <= n < |s.lanes[p].waiters| ==> Stood(s, p, s.lanes[p].waiters[n].ticket))
            && (forall k, i, j :: Stands(s, p, k, i) && Stands(s, p, k, j) ==> i == j)
  {
    Reached(c, now, acts);
    InitLanesOk(c, now);
    RunKeepsConserved(Init(c, now), acts);
    var s := Run(Init(c, now), acts);
    assert LaneOwned(s, p);
    HeldIsInUse(s, p);
    HoldersAreUnique(s, p);
  }

  predicate AtRest(r: Req) {
    r.pc.Finished? && (r.call.worker.Unstarted? || (r.call.worker.Ended? && r.call.worker.delivery.1))
  }

  ghost predicate AllAtRest(s: System, p: string) {
    forall i :: 0 <= i < |s.reqs| && s.reqs[i].provider == p ==> AtRest(s.reqs[i])
  }

  lemma {:induction false} NobodyStands(s: System, p: string)
    requires p in s.lanes && LaneOwned(s, p)
    requires AllAtRest(s, p)
    ensures s.lanes[p].waiters == []
  {
    assert forall k, i :: !Stands(s, p, k, i);
    assert |s.lanes[p].waiters| > 0 ==> Stood(s, p, s.lanes[p].waiters[0].ticket);
  }

  lemma {:induction false} NobodyHolds(s: System, p: string)
    requires p in s.lanes && LaneOwned(s, p) && AllAtRest(s, p)
    requires forall t, i :: t in s.lanes[p].leases && Holds(s, p, t, i) ==> InUse(s.reqs[i])
    ensures forall t :: t !in s.lanes[p].leases
  {
    forall t
      ensures t !in s.lanes[p].leases
    {
      assert !Held(s, p, t) || exists i :: Holds(s, p, t, i) && AtRest(s.reqs[i]);
    }
  }

  lemma {:induction false} EmptyLaneIsIdle(l: Lane.Lane, now: Time)
    requires (forall t :: t !in l.leases) && l.waiters == []
    ensures l.leases == map[]
    ensures Lane.Apply(l, Lane.Count(now, now)).1 == Lane.Counts(l.capacity, 0, 0, true)
  {
    assert l.leases == map[];
    assert Lane.Expire(l, now).leases == map[];
  }

  /** Once every request of a provider has returned and every call it started is confirmed closed,
      its lane is empty and reports itself idle: no lease, no waiter, whatever happened before. */
  lemma {:induction false} QuiescentLaneIsIdle(c: Config, now: Time, acts: seq<Action>, p: string)
    requires Configured(c) && Active(c, p) && Allows(Init(c, now), acts)
    requires AllAtRest(Run(Init(c, now), acts), p)
    ensures var s := Run(Init(c, now), acts);
            && p in s.lanes && s.lanes[p].leases == map[] && s.lanes[p].waiters == []
            && Lane.Apply(s.lanes[p], Lane.Count(s.now, s.now)).1 == Lane.Counts(c.providers[p].capacity, 0, 0, true)
  {
    NothingLeaks(c, now, acts, p);
    Reached(c, now, acts);
    var s := Run(Init(c, now), acts);
    assert LaneOk(s, p);
    NobodyHolds(s, p);
    NobodyStands(s, p);
    EmptyLaneIsIdle(s.lanes[p], s.now);
  }
}
