/** What deadlines do: who may go on, who is turned away, and that a deadline that has come stops a call. */
module GatewayDeadlines {
  import opened Basics
  import opened Queues
  import opened Handoff
  import opened Gateway
  import opened GatewayLanes
  import opened GatewaySlots
  import opened GatewayTheorems
  import Lane = LaneModel

  // ----- At the door -----

  /** The maintenance flag is readable and not set, both timeouts are readable, and the total deadline is not here. */
  predicate GoodOpening(s: System, o: Opening, later: Time) {
    && o.maintenance == Some(false) && o.total.Some? && o.queue.Some?
    && later < s.now + o.total.value
  }

  /** What else it takes: an active provider, or a body that parses and has a measurable block. */
  predicate GoodContent(s: System, a: Action)
    requires a.ArriveForward? || a.ArriveQueue?
  {
    if a.ArriveForward? then Active(s.config, a.opening.provider)
    else a.body.Parsed? && s.config.measure(a.body.payload).Some?
  }

  /** The request as it entered the program. */
  predicate EnteredAs(s: System, a: Action, r: Req)
    requires a.ArriveForward? || a.ArriveQueue?
  {
    && r.provider == a.opening.provider && r.token.None? && r.call == IDLE
    && (a.opening.total.Some? ==> r.totalDeadline == s.now + a.opening.total.value)
    && (a.opening.queue.Some? ==> r.queueDeadline == s.now + a.opening.queue.value)
    && (a.ArriveForward? ==> r.holder == a.flow && r.role == Plain)
    && (a.ArriveQueue? ==> r.holder == a.generationId && (r.pc.Joining? ==>
          a.body.Parsed? && s.config.measure(a.body.payload).Some?
          && r.submitted == Some(Submission(a.queueKey, a.body.payload, s.config.measure(a.body.payload).value))))
  }

  /** What comes of a request at the door. */
  ghost predicate Judged(s: System, a: Action, r: Req)
    requires a.ArriveForward? || a.ArriveQueue?
  {
    var o := a.opening;
    && EnteredAs(s, a, r)
    && (r.pc.Entering? || r.pc.Joining? <==> GoodOpening(s, o, a.later) && GoodContent(s, a))
    && (r.pc.Entering? || r.pc.Joining? || r.pc.Finished? || r.pc.Escaped?)
    && (r.pc == Finished(Plainly(Maintenance)) <==> o.maintenance == Some(true))
    && (r.pc == Finished(Plainly(TotalTimeout)) <==>
          && o.maintenance == Some(false) && o.total.Some? && o.queue.Some?
          && s.now + o.total.value <= a.later)
    && (r.pc == Finished(Plainly(Unavailable)) <==>
          && GoodOpening(s, o, a.later)
          && if a.ArriveForward? then !Active(s.config, o.provider) else a.body.Malformed?)
    && (r.pc == Escaped(FlagUnreadable) <==> o.maintenance.None?)
    && (r.pc == Escaped(TimeoutUnreadable) <==> o.maintenance == Some(false) && (o.total.None? || o.queue.None?))
    && (r.pc == Escaped(BodyUnreadable) <==> GoodOpening(s, o, a.later) && a.ArriveQueue? && a.body.Unreadable?)
    && (r.pc == Escaped(SizeUnmeasurable) <==>
          && GoodOpening(s, o, a.later)
          && a.ArriveQueue? && a.body.Parsed? && s.config.measure(a.body.payload).None?)
  }

  lemma {:induction false} ForwardIsJudged(s: System, a: Action)
    requires a.ArriveForward?
    ensures Judged(s, a, ForwardRequest(s, a))
  {
  }

  lemma {:induction false} QueueIsJudged(s: System, a: Action)
    requires a.ArriveQueue?
    ensures Judged(s, a, QueueRequest(s, a))
  {
  }

  /** A request gets past the door exactly if everything it is checked for first is in order. Otherwise it ends at once,
      with MAINTENANCE exactly if the flag is set, with TOTAL_TIMEOUT exactly if its flag and timeouts are in order and
      its total deadline has come, with unavailability exactly if all that is in order but the provider is inactive or
      the body malformed, and by an exception exactly if reading one of these raises; its deadlines count from its
      first reading of the clock. */
  lemma {:induction false} DoorIsExact(s: System, a: Action)
    requires Enabled(s, a) && (a.ArriveForward? || a.ArriveQueue?)
    ensures |Next(s, a).reqs| == |s.reqs| + 1 && Next(s, a).reqs[..|s.reqs|] == s.reqs
    ensures Judged(s, a, Next(s, a).reqs[|s.reqs|])
  {
    if a.ArriveForward? {
      ForwardIsJudged(s, a);
    } else {
      QueueIsJudged(s, a);
    }
  }

  // ----- The total deadline -----

  /** The handler has not yet found its total deadline still to come. */
  predicate Unchecked(pc: Pc) {
    || pc.Joining? || pc.Entering? || pc.Acquiring? || pc.AtLane? || pc.Queued? || pc.Settled? || pc.Admitted?
    || pc.Overdue? || pc.Watching?
  }

  /** Its answer, if it was ever granted a slot, is TOTAL_TIMEOUT with the slot given back. */
  predicate OwnsUp(r: Req, result: AalpResult) {
    r.token.Some? ==> result == Plainly(TotalTimeout) && r.releases == 1
  }

  /** A request whose total deadline came before it was checked: it has called nobody and will not. */
  predicate Overtime(r: Req, now: Time) {
    && r.totalDeadline <= now && r.call == IDLE
    && match r.pc
       case Finishing(result) => OwnsUp(r, result)
       case Marked(result) => OwnsUp(r, result)
       case Published(result) => OwnsUp(r, result)
       case Finished(result) => OwnsUp(r, result)
       case Escaped(_) => r.token.None?
       case _ => Unchecked(r.pc)
  }

  /** A turn ends in one of the three ways. */
  predicate Turned(s: System, i: nat, d: Doing)
    requires i < |s.reqs| && Can(s, s.reqs[i], d) && (d.EnterLane? || d.PollLane?)
  {
    var r := s.reqs[i];
    var op := match d
              case EnterLane(mid, later) => Lane.Enter(r.holder, r.pc.until, s.now, mid, later)
              case PollLane(later) => Lane.Poll(r.pc.ticket, r.pc.until, s.now, later);
    var reply := Lane.Apply(s.lanes[r.provider], op).1;
    reply.Granted? || reply.TimedOut? || reply.Blocked?
  }

  lemma {:induction false} TurnsEnd(s: System, i: nat, d: Doing)
    requires LanesOk(s) && i < |s.reqs| && Can(s, s.reqs[i], d) && (d.EnterLane? || d.PollLane?)
    ensures Turned(s, i, d)
  {
    match d
    case EnterLane(mid, later) => EnterOutcome(s, i, mid, later);
    case PollLane(later) => PollOutcome(s, i, later);
  }

  lemma {:induction false} TurnStaysOvertime(r: Req, reply: Lane.Reply, until: Time, at: Time, now: Time)
    requires Local(r) && Overtime(r, now) && (r.pc.AtLane? || r.pc.Queued?)
    requires reply.Granted? || reply.TimedOut? || reply.Blocked?
    ensures Overtime(AfterTurn(r, reply, until, at), now)
  {
  }

  lemma {:induction false} TurnsStayOvertime(s: System, i: nat, d: Doing)
    requires i < |s.reqs| && Can(s, s.reqs[i], d) && (d.EnterLane? || d.PollLane?) && Turned(s, i, d)
    requires Local(s.reqs[i]) && Overtime(s.reqs[i], s.now)
    ensures Overtime(DoTurn(s, i, d).reqs[i], DoTurn(s, i, d).now)
  {
    var r := s.reqs[i];
    match d
    case EnterLane(mid, later) =>
      var op := Lane.Enter(r.holder, r.pc.until, s.now, mid, later);
      TurnStaysOvertime(r, Lane.Apply(s.lanes[r.provider], op).1, r.pc.until, later, later);
    case PollLane(later) =>
      var op := Lane.Poll(r.pc.ticket, r.pc.until, s.now, later);
      TurnStaysOvertime(r, Lane.Apply(s.lanes[r.provider], op).1, r.pc.until, later, later);
  }

  lemma {:induction false} ReturnStaysOvertime(s: System, i: nat, later: Time)
    requires i < |s.reqs| && Can(s, s.reqs[i], ReturnSlot(later)) && Local(s.reqs[i]) && Overtime(s.reqs[i], s.now)
    ensures Overtime(DoReturnSlot(s, i, later).reqs[i], later)
  {
  }

  lemma {:induction false} LaneStepsStayOvertime(s: System, i: nat, d: Doing)
    requires i < |s.reqs| && Can(s, s.reqs[i], d) && RunsLane(d) && Local(s.reqs[i]) && Overtime(s.reqs[i], s.now)
    requires d.EnterLane? || d.PollLane? ==> Turned(s, i, d)
    ensures Overtime(DoLane(s, i, d).reqs[i], DoLane(s, i, d).now)
  {
    if d.EnterLane? || d.PollLane? {
      TurnsStayOvertime(s, i, d);
    } else {
      ReturnStaysOvertime(s, i, d.later);
    }
  }

  lemma {:induction false} SlotStepsStayOvertime(s: System, i: nat, d: Doing)
    requires i < |s.reqs| && Can(s, s.reqs[i], d) && ChangesTable(d) && Local(s.reqs[i]) && Overtime(s.reqs[i], s.now)
    ensures Overtime(DoSlot(s, i, d).reqs[i], s.now)
  {
  }

  lemma {:induction false} LoneStepsStayOvertime(s: System, i: nat, d: Doing)
    requires i < |s.reqs| && Can(s, s.reqs[i], d) && Local(s.reqs[i]) && Overtime(s.reqs[i], s.now)
    requires !RunsLane(d) && !ChangesTable(d)
    ensures Overtime(DoAlone(s, i, d).reqs[i], s.now)
  {
  }

  lemma {:induction false} NextStaysOvertime(s: System, a: Action, i: nat)
    requires Inv(s) && Enabled(s, a) && i < |s.reqs| && Overtime(s.reqs[i], s.now)
    ensures i < |Next(s, a).reqs| && Overtime(Next(s, a).reqs[i], Next(s, a).now)
  {
    NextKeepsConfig(s, a);
    if a.Act? {
      DoKeepsTerms(s, a.i, a.doing);
      if a.i == i {
        assert Placed(s, s.reqs[i]);
        if RunsLane(a.doing) {
          if a.doing.EnterLane? || a.doing.PollLane? { TurnsEnd(s, i, a.doing); }
          LaneStepsStayOvertime(s, i, a.doing);
        } else if ChangesTable(a.doing) {
          SlotStepsStayOvertime(s, i, a.doing);
        } else {
          LoneStepsStayOvertime(s, i, a.doing);
        }
      }
    }
  }

  lemma {:induction false} RunStaysOvertime(s: System, acts: seq<Action>, i: nat)
    requires Inv(s) && Allows(s, acts) && i < |s.reqs| && Overtime(s.reqs[i], s.now)
    ensures i < |Run(s, acts).reqs| && Overtime(Run(s, acts).reqs[i], Run(s, acts).now)
    decreases |acts|
  {
    if acts != [] {
      NextKeepsLanes(s, acts[0]);
      NextKeepsSlots(s, acts[0]);
      NextStaysOvertime(s, acts[0], i);
      RunStaysOvertime(Next(s, acts[0]), acts[1..], i);
    }
  }

  lemma {:induction false} UncheckedIsIdle(s: System, i: nat)
    requires Inv(s) && i < |s.reqs| && Unchecked(s.reqs[i].pc)
    ensures s.reqs[i].call == IDLE
  {
    assert Placed(s, s.reqs[i]);
  }

  /** A total deadline that comes before the handler has checked it stops the request for good: however the run goes
      on, it starts no upstream call and its generation sends nothing, and if it was granted a slot and returned,
      it answered TOTAL_TIMEOUT and gave the slot back. */
  lemma {:induction false} LateIsNeverCalled(c: Config, now: Time, first: seq<Action>, rest: seq<Action>, i: nat)
    requires Configured(c) && Allows(Init(c, now), first) && Allows(Run(Init(c, now), first), rest)
    requires i < |Run(Init(c, now), first).reqs| && Unchecked(Run(Init(c, now), first).reqs[i].pc)
    requires Run(Init(c, now), first).reqs[i].totalDeadline <= Run(Init(c, now), first).now
    ensures var t := Run(Run(Init(c, now), first), rest);
            && i < |t.reqs|
            && var r := t.reqs[i];
               && r.call == IDLE && !r.pc.Executing? && !r.pc.Forwarding?
               && (Leads(r) ==> InTable(t, r) && t.table.slots[r.role.slot].sent == [])
               && (r.pc.Finished? && r.token.Some? ==> r.pc.result == Plainly(TotalTimeout) && r.releases == 1)
  {
    Reached(c, now, first);
    var s := Run(Init(c, now), first);
    UncheckedIsIdle(s, i);
    RunStaysOvertime(s, rest, i);
    RunKeepsInv(s, rest);
    assert RoleOk(Run(s, rest), i);
  }

  // ----- The queue deadline -----

  /** Turned away before the lane: no ticket was drawn, no slot was granted, and the answer is QUEUE_TIMEOUT,
      or unavailability where the provider has no lane. */
  predicate TurnedAway(s: System, r: Req) {
    var answer := Plainly(if Active(s.config, r.provider) then QueueTimeout else Unavailable);
    && r.token.None? && r.call == IDLE && r.queueDeadline <= s.now
    && match r.pc
       case Entering => true
       case Settled(verdict) => verdict == Some(answer)
       case Finishing(result) => result == answer
       case Marked(result) => result == answer
       case Published(result) => result == answer
       case Finished(result) => result == answer
       case _ => false
  }

  lemma {:induction false} ReadTurnsAway(s: System, i: nat)
    requires i < |s.reqs| && Can(s, s.reqs[i], ReadRemaining) && TurnedAway(s, s.reqs[i])
    requires Active(s.config, s.reqs[i].provider) <==> s.reqs[i].provider in s.lanes
    ensures TurnedAway(DoReadRemaining(s, i), DoReadRemaining(s, i).reqs[i])
  {
  }

  lemma {:induction false} EndTurnsAway(s: System, i: nat, d: Doing)
    requires i < |s.reqs| && Can(s, s.reqs[i], d) && TurnedAway(s, s.reqs[i])
    requires d.CloseOpenSlot? || d.MarkDone? || d.Publish? || d.Signal?
    ensures TurnedAway(DoSlot(s, i, d), DoSlot(s, i, d).reqs[i])
  {
  }

  lemma {:induction false} OnlyTheseSteps(s: System, i: nat, d: Doing)
    requires i < |s.reqs| && Can(s, s.reqs[i], d) && TurnedAway(s, s.reqs[i])
    ensures d.ReadRemaining? || d.CloseOpenSlot? || d.MarkDone? || d.Publish? || d.Signal?
  {
  }

  lemma {:induction false} DoTurnsAway(s: System, i: nat, d: Doing)
    requires Inv(s) && i < |s.reqs| && Can(s, s.reqs[i], d) && TurnedAway(s, s.reqs[i])
    ensures TurnedAway(Do(s, i, d), Do(s, i, d).reqs[i])
  {
    OnlyTheseSteps(s, i, d);
    if d.ReadRemaining? {
      assert s.reqs[i].provider in s.lanes ==> LaneOk(s, s.reqs[i].provider);
      ReadTurnsAway(s, i);
    } else {
      EndTurnsAway(s, i, d);
    }
  }

  lemma {:induction false} NextTurnsAway(s: System, a: Action, i: nat)
    requires Inv(s) && Enabled(s, a) && i < |s.reqs| && TurnedAway(s, s.reqs[i])
    ensures i < |Next(s, a).reqs| && TurnedAway(Next(s, a), Next(s, a).reqs[i])
  {
    NextKeepsConfig(s, a);
    if a.Act? {
      DoKeepsTerms(s, a.i, a.doing);
      if a.i == i { DoTurnsAway(s, i, a.doing); }
    }
  }

  lemma {:induction false} RunTurnsAway(s: System, acts: seq<Action>, i: nat)
    requires Inv(s) && Allows(s, acts) && i < |s.reqs| && TurnedAway(s, s.reqs[i])
    ensures i < |Run(s, acts).reqs| && TurnedAway(Run(s, acts), Run(s, acts).reqs[i])
    decreases |acts|
  {
    if acts != [] {
      NextKeepsLanes(s, acts[0]);
      NextKeepsSlots(s, acts[0]);
      NextTurnsAway(s, acts[0], i);
      RunTurnsAway(Next(s, acts[0]), acts[1..], i);
    }
  }

  /** A request that finds its queue deadline come before it reaches the lane never gets a ticket, a slot or a call. */
  lemma {:induction false} LateForTheLane(s: System, acts: seq<Action>, i: nat)
    requires Inv(s) && Allows(s, acts) && i < |s.reqs| && s.reqs[i].pc.Entering? && s.reqs[i].queueDeadline <= s.now
    ensures i < |Run(s, acts).reqs| && TurnedAway(Run(s, acts), Run(s, acts).reqs[i])
  {
    assert Placed(s, s.reqs[i]);
    RunTurnsAway(s, acts, i);
  }

  lemma {:induction false} ReadsWhatIsLeft(s: System, i: nat)
    requires i < |s.reqs| && Can(s, s.reqs[i], ReadRemaining) && DoReadRemaining(s, i).reqs[i].pc.Acquiring?
    ensures DoReadRemaining(s, i).reqs[i] == s.reqs[i].(pc := Acquiring(s.reqs[i].queueDeadline - s.now))
    ensures s.now < s.reqs[i].queueDeadline && s.reqs[i].provider in s.lanes
  {
  }

  /** The time left to queue is read once and counted anew from a second reading, so a caller may wait past its queue
      deadline by exactly the time between the two readings, however much happens in between. */
  lemma {:induction false} WaitsForWhatIsLeft(s: System, i: nat, between: seq<Action>)
    requires Inv(s) && i < |s.reqs| && Can(s, s.reqs[i], ReadRemaining) && Allows(DoReadRemaining(s, i), between)
    requires var t := Run(DoReadRemaining(s, i), between);
             i < |t.reqs| && t.reqs[i] == DoReadRemaining(s, i).reqs[i] && Can(t, t.reqs[i], SetDeadline)
    ensures s.now < s.reqs[i].queueDeadline
    ensures var t := Run(DoReadRemaining(s, i), between);
            && t.now >= s.now
            && DoSetDeadline(t, i).reqs[i].pc
               == if s.reqs[i].holder == "" then Escaped(NoHolder)
                  else AtLane(s.reqs[i].queueDeadline + (t.now - s.now))
  {
    ReadsWhatIsLeft(s, i);
    ReadKeepsLanes(s, i);
    ReadKeepsSlots(s, i);
    RunKeepsInv(DoReadRemaining(s, i), between);
  }

  /** A turn of the acquire loop taken when the wait is over never leaves its caller waiting, and one that does not
      end the wait was taken in time. */
  lemma {:induction false} WaitsEndInTime(s: System, i: nat, d: Doing)
    requires Inv(s) && i < |s.reqs| && Can(s, s.reqs[i], d) && (d.EnterLane? || d.PollLane?)
    ensures Do(s, i, d).reqs[i].pc.Queued? ==> d.later < s.reqs[i].pc.until
    ensures Do(s, i, d).reqs[i].token.None? && !Do(s, i, d).reqs[i].pc.Queued? ==> s.reqs[i].pc.until <= d.later
  {
    TurnsEnd(s, i, d);
  }
}
