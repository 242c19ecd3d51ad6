/** What heartbeats are for: as long as they come in time, every call that is still waited for owns its lease. */
module GatewayHeartbeats {
  import opened Basics
  import opened Queues
  import opened Gateway
  import opened GatewayLanes
  import opened GatewaySlots
  import opened GatewayTheorems
  import Lane = LaneModel

  /** The heartbeat thread runs. */
  predicate Beats(pc: Pc) {
    pc.Executing? || pc.Forwarding? || pc.Returned?
  }

  /** No heartbeat thread has left its lease without a grant or a heartbeat for a whole lease time. The program
      aims at a third of that between two heartbeats; nothing but the bound itself matters here. */
  ghost predicate OnTime(s: System) {
    forall i {:trigger s.reqs[i]} :: 0 <= i < |s.reqs| && Beats(s.reqs[i].pc) && s.reqs[i].releases == 0 ==>
      s.now < s.reqs[i].beat + s.config.leaseSeconds
  }

  /** A run with heartbeats on time throughout. */
  ghost predicate Prompt(s: System, acts: seq<Action>)
    decreases |acts|
  {
    OnTime(s) && (acts != [] ==> Enabled(s, acts[0]) && Prompt(Next(s, acts[0]), acts[1..]))
  }

  predicate Needs(r: Req) {
    r.token.Some? && r.releases == 0 && (r.pc.Settled? || Holding(r.pc) || Beats(r.pc))
  }

  /** The lane dates the last renewal of the request's lease by the request's own last heartbeat. */
  predicate Dated(s: System, r: Req) {
    Needs(r) && r.provider in s.lanes ==>
      r.token.value in s.lanes[r.provider].renewed && s.lanes[r.provider].renewed[r.token.value] == r.beat
  }

  ghost predicate AllDated(s: System) {
    forall i {:trigger Dated(s, s.reqs[i])} :: 0 <= i < |s.reqs| ==> Dated(s, s.reqs[i])
  }

  // ----- What a lane section does to the dates -----

  lemma {:induction false} TurnDates(l: Lane.Lane, ticket: nat, deadline: Time, later: Time)
    ensures var (m, reply) := Lane.Turn(l, ticket, deadline, later);
            m.renewed == if reply.Granted? then l.renewed[l.tokens := later] else l.renewed
    ensures Lane.Turn(l, ticket, deadline, later).1.Granted? ==>
              Lane.Turn(l, ticket, deadline, later).1.token == l.tokens
  {
  }

  /** Only the given token's date may differ, and new dates are for new tokens. */
  predicate SameDates(l: Lane.Lane, m: Lane.Lane, own: Option<nat>) {
    forall t :: t in l.renewed && t < l.tokens && own != Some(t) ==> t in m.renewed && m.renewed[t] == l.renewed[t]
  }

  lemma {:induction false} OtherDates(l: Lane.Lane, op: Lane.Op)
    requires op.Free? || op.Count?
    ensures Lane.Apply(l, op).0.renewed == l.renewed
  {
  }

  /** A heartbeat for a lease that is neither released nor lapsed renews it. */
  lemma {:induction false} BeatDates(l: Lane.Lane, now: Time, op: Lane.Op)
    requires op.Beat? && Lane.Valid(l, now) && op.now == now
    ensures SameDates(l, Lane.Apply(l, op).0, Some(op.token))
    ensures op.token in l.renewed && op.token !in l.released && now < l.renewed[op.token] + l.ttl
            && (op.token in l.leases ==> l.leases[op.token].holder == op.holder) ==>
              Lane.Apply(l, op).0.renewed == l.renewed[op.token := op.later]
  {
  }

  // ----- One step -----

  /** Request `i` moved from `r` to `r'`; dates of other requests' tokens in its lane are as before. */
  ghost predicate IsDatedStep(s: System, s': System, i: nat) {
    && i < |s.reqs| == |s'.reqs| && s'.reqs == s.reqs[i := s'.reqs[i]]
    && (forall p :: p in s'.lanes ==> p in s.lanes && (p != s.reqs[i].provider ==> s'.lanes[p] == s.lanes[p]))
    && s'.reqs[i].provider == s.reqs[i].provider
    && (s.reqs[i].provider in s'.lanes ==>
          SameDates(s.lanes[s.reqs[i].provider], s'.lanes[s.reqs[i].provider], s.reqs[i].token))
  }

  lemma {:induction false} OthersStayDated(s: System, s': System, i: nat, j: nat)
    requires LanesOk(s) && AllDated(s) && IsDatedStep(s, s', i) && j < |s.reqs| && j != i
    ensures Dated(s', s'.reqs[j])
  {
    assert Placed(s, s.reqs[j]) && Dated(s, s.reqs[j]);
    assert i < j ==> Apart(s.reqs[i], s.reqs[j]);
    assert j < i ==> Apart(s.reqs[j], s.reqs[i]);
  }

  lemma {:induction false} StepStaysDated(s: System, s': System, i: nat)
    requires LanesOk(s) && AllDated(s) && IsDatedStep(s, s', i) && Dated(s', s'.reqs[i])
    ensures AllDated(s')
  {
    forall j | 0 <= j < |s'.reqs|
      ensures Dated(s', s'.reqs[j])
    {
      if j != i { OthersStayDated(s, s', i, j); }
    }
  }

  // ----- Each action -----

  lemma {:induction false} GrantIsDated(r: Req, reply: Lane.Reply, until: Time, later: Time)
    requires Local(r) && (r.pc.AtLane? || r.pc.Queued?)
    ensures var r' := AfterTurn(r, reply, until, later);
            && r'.provider == r.provider
            && (Needs(r') ==> reply.Granted? && r'.token == Some(reply.token) && r'.beat == later)
  {
  }

  lemma {:induction false} EnterDated(s: System, i: nat, mid: Time, later: Time)
    requires LanesOk(s) && AllDated(s) && i < |s.reqs| && Can(s, s.reqs[i], EnterLane(mid, later))
    ensures AllDated(DoEnterLane(s, i, mid, later))
  {
    var r, s' := s.reqs[i], DoEnterLane(s, i, mid, later);
    assert Placed(s, r) && LaneOk(s, r.provider);
    var l := s.lanes[r.provider];
    var t := Lane.Expire(Lane.Enqueue(Lane.Expire(l, s.now), r.holder), mid);
    TurnDates(t, l.tickets, r.pc.until, later);
    GrantIsDated(r, Lane.Turn(t, l.tickets, r.pc.until, later).1, r.pc.until, later);
    StepStaysDated(s, s', i);
  }

  lemma {:induction false} PollDated(s: System, i: nat, later: Time)
    requires LanesOk(s) && AllDated(s) && i < |s.reqs| && Can(s, s.reqs[i], PollLane(later))
    ensures AllDated(DoPollLane(s, i, later))
  {
    var r, s' := s.reqs[i], DoPollLane(s, i, later);
    assert Placed(s, r) && LaneOk(s, r.provider);
    var t := Lane.Expire(s.lanes[r.provider], s.now);
    TurnDates(t, r.pc.ticket, r.pc.until, later);
    GrantIsDated(r, Lane.Turn(t, r.pc.ticket, r.pc.until, later).1, r.pc.until, later);
    StepStaysDated(s, s', i);
  }

  lemma {:induction false} BeatDated(s: System, i: nat, later: Time)
    requires LanesOk(s) && AllDated(s) && OnTime(s) && i < |s.reqs| && Can(s, s.reqs[i], Heartbeat(later))
    ensures AllDated(DoHeartbeat(s, i, later))
  {
    var r := s.reqs[i];
    assert Placed(s, r) && LaneOk(s, r.provider) && Dated(s, r);
    BeatDates(s.lanes[r.provider], s.now, Lane.Beat(r.holder, r.token.value, s.now, later));
    StepStaysDated(s, DoHeartbeat(s, i, later), i);
  }

  /** A step that leaves all dates alone and does not bring its own request a lease. */
  lemma {:induction false} UndatedStep(s: System, s': System, i: nat)
    requires LanesOk(s) && AllDated(s) && i < |s.reqs| && |s'.reqs| == |s.reqs| && s'.reqs == s.reqs[i := s'.reqs[i]]
    requires forall p :: p in s'.lanes ==> p in s.lanes && s'.lanes[p].renewed == s.lanes[p].renewed
    requires forall p :: p in s'.lanes && p != s.reqs[i].provider ==> s'.lanes[p] == s.lanes[p]
    requires var r, r' := s.reqs[i], s'.reqs[i];
             r'.provider == r.provider && (Needs(r') ==> Needs(r) && r'.token == r.token && r'.beat == r.beat)
    ensures AllDated(s')
  {
    assert Dated(s, s.reqs[i]);
    StepStaysDated(s, s', i);
  }

  lemma {:induction false} ReleaseLeavesDates(s: System, i: nat, d: Doing)
    requires i < |s.reqs| && Can(s, s.reqs[i], d)
    requires d.ReturnSlot? || d.CallBack? || d.Conclude? || d.Assemble?
    ensures var s', r := DoLane(s, i, d), s.reqs[i];
            && (forall p :: p in s'.lanes ==> s'.lanes[p].renewed == s.lanes[p].renewed)
            && s'.reqs[i].beat == r.beat && (Needs(s'.reqs[i]) ==> Needs(r))
  {
    var r := s.reqs[i];
    OtherDates(s.lanes[r.provider], Lane.Free(r.holder, r.token.value, s.now, d.later));
    if d.Assemble? {
      var built := Build(s.table.slots[r.role.slot].members, s.config.fmt);
      assert built.Body? || built.Rejected? || built.Escapes?;
    }
  }

  lemma {:induction false} DoLaneDated(s: System, i: nat, d: Doing)
    requires LanesOk(s) && AllDated(s) && OnTime(s) && i < |s.reqs| && Can(s, s.reqs[i], d) && RunsLane(d)
    ensures AllDated(DoLane(s, i, d))
  {
    if d.EnterLane? {
      EnterDated(s, i, d.mid, d.later);
    } else if d.PollLane? {
      PollDated(s, i, d.later);
    } else if d.Heartbeat? {
      BeatDated(s, i, d.later);
    } else {
      ReleaseLeavesDates(s, i, d);
      UndatedStep(s, DoLane(s, i, d), i);
    }
  }

  lemma {:induction false} SlotStepsNeed(s: System, i: nat, d: Doing)
    requires i < |s.reqs| && Can(s, s.reqs[i], d) && ChangesTable(d)
    ensures Needs(DoSlot(s, i, d).reqs[i]) ==> Needs(s.reqs[i])
  {
  }

  lemma {:induction false} LoneStepsNeed(s: System, i: nat, d: Doing)
    requires LanesOk(s) && i < |s.reqs| && Can(s, s.reqs[i], d) && !RunsLane(d) && !ChangesTable(d)
    ensures Needs(DoAlone(s, i, d).reqs[i]) ==> Needs(s.reqs[i])
  {
    assert Placed(s, s.reqs[i]);
  }

  lemma {:induction false} DoDated(s: System, i: nat, d: Doing)
    requires LanesOk(s) && AllDated(s) && OnTime(s) && i < |s.reqs| && Can(s, s.reqs[i], d)
    ensures AllDated(Do(s, i, d))
  {
    if RunsLane(d) {
      DoLaneDated(s, i, d);
    } else if ChangesTable(d) {
      SlotStepsNeed(s, i, d);
      UndatedStep(s, DoSlot(s, i, d), i);
    } else {
      LoneStepsNeed(s, i, d);
      UndatedStep(s, DoAlone(s, i, d), i);
    }
  }

  lemma {:induction false} NextDated(s: System, a: Action)
    requires Inv(s) && AllDated(s) && OnTime(s) && Enabled(s, a)
    ensures AllDated(Next(s, a))
  {
    if a.Act? {
      DoDated(s, a.i, a.doing);
    } else {
      if a.ReadStatus? {
        OtherDates(s.lanes[a.provider], Lane.Count(s.now, a.later));
      }
      forall j | 0 <= j < |Next(s, a).reqs|
        ensures Dated(Next(s, a), Next(s, a).reqs[j])
      {
        assert j < |s.reqs| ==> Dated(s, s.reqs[j]);
      }
    }
  }

  // ----- Whole runs -----

  lemma {:induction false} RunDated(s: System, acts: seq<Action>)
    requires Inv(s) && AllDated(s) && Prompt(s, acts)
    ensures Allows(s, acts) && AllDated(Run(s, acts)) && OnTime(Run(s, acts))
    decreases |acts|
  {
    if acts != [] {
      NextKeepsLanes(s, acts[0]);
      NextKeepsSlots(s, acts[0]);
      NextDated(s, acts[0]);
      RunDated(Next(s, acts[0]), acts[1..]);
    }
  }

  predicate WaitedFor(s: System, p: string, i: int) {
    0 <= i < |s.reqs| && s.reqs[i].provider == p && s.reqs[i].pc.Forwarding?
  }

  lemma {:induction false} WaitedForIsFresh(s: System, p: string, i: nat)
    requires Inv(s) && AllDated(s) && OnTime(s) && WaitedFor(s, p, i)
    ensures OpenAt(s, p, i) ==> Fresh(s, p, i)
    ensures p in s.lanes && s.reqs[i].token.Some? && s.reqs[i].token.value in s.lanes[p].leases
    ensures s.lanes[p].leases[s.reqs[i].token.value].expires == s.reqs[i].beat + s.config.leaseSeconds
  {
    assert Placed(s, s.reqs[i]) && Dated(s, s.reqs[i]) && LaneOk(s, p);
  }

  lemma {:induction false} WaitedForFit(s: System, p: string)
    requires Inv(s) && AllDated(s) && OnTime(s) && Active(s.config, p)
    ensures |set i | 0 <= i < |s.reqs| && WaitedFor(s, p, i)| <= s.config.providers[p].capacity
  {
    var waited := set i | 0 <= i < |s.reqs| && WaitedFor(s, p, i);
    assert LaneOk(s, p);
    forall i | i in waited
      ensures TokenOf(s, i) in s.lanes[p].leases.Keys
    {
      WaitedForIsFresh(s, p, i);
    }
    forall i, j | i in waited && j in waited && TokenOf(s, i) == TokenOf(s, j)
      ensures i == j
    {
      WaitedForIsFresh(s, p, i);
      WaitedForIsFresh(s, p, j);
      assert i < j ==> Apart(s.reqs[i], s.reqs[j]);
      assert j < i ==> Apart(s.reqs[j], s.reqs[i]);
    }
    InjectiveImageCardinality(waited, i => TokenOf(s, i), s.lanes[p].leases.Keys);
  }

  /** In every run with heartbeats on time, each call whose caller still waits owns a live lease that ends a lease time
      after its last heartbeat, so there are never more of them than the concurrency limit; and any other call not
      confirmed closed is one whose caller has been told so, or could not wait for it at all. */
  lemma {:induction false} OnlyAbandonedCallsExceed(c: Config, now: Time, acts: seq<Action>, p: string)
    requires Configured(c) && Active(c, p) && Prompt(Init(c, now), acts)
    ensures Allows(Init(c, now), acts)
    ensures var s := Run(Init(c, now), acts);
            && p in s.lanes
            && (forall i :: WaitedFor(s, p, i) ==>
                  && s.reqs[i].token.Some? && s.reqs[i].token.value in s.lanes[p].leases
                  && s.lanes[p].leases[s.reqs[i].token.value].expires == s.reqs[i].beat + c.leaseSeconds > s.now)
            && |set i | 0 <= i < |s.reqs| && WaitedFor(s, p, i)| <= c.providers[p].capacity
            && (forall i :: OpenAt(s, p, i) && !WaitedFor(s, p, i) ==>
                  || (s.reqs[i].call.returned.Some? && !s.reqs[i].call.returned.value.1)
                  || s.reqs[i].pc == Escaped(Overflowed))
  {
    Reached(c, now, []);
    RunDated(Init(c, now), acts);
    Reached(c, now, acts);
    var s := Run(Init(c, now), acts);
    WaitedForFit(s, p);
    assert LaneOk(s, p);
    forall i | WaitedFor(s, p, i)
      ensures s.reqs[i].token.Some? && s.reqs[i].token.value in s.lanes[p].leases
      ensures s.lanes[p].leases[s.reqs[i].token.value].expires == s.reqs[i].beat + c.leaseSeconds > s.now
    {
      WaitedForIsFresh(s, p, i);
      assert Placed(s, s.reqs[i]);
    }
    forall i | OpenAt(s, p, i) && !WaitedFor(s, p, i)
      ensures || (s.reqs[i].call.returned.Some? && !s.reqs[i].call.returned.value.1)
              || s.reqs[i].pc == Escaped(Overflowed)
    {
      assert Placed(s, s.reqs[i]);
    }
  }
}
