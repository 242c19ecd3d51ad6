/** What the gateway's results mean: a handler that called upstream answers with what forward() returned,
    any other with the reason it did not call, and joiners with their leader's answer. */
module GatewayOutcomes {
  import opened Basics
  import opened Queues
  import opened Handoff
  import opened Gateway
  import opened GatewayLanes
  import opened GatewaySlots
  import opened GatewayTheorems
  import Lane = LaneModel

  /** The leader's generation is closed and what its members submitted cannot be assembled. */
  predicate Unassemblable(s: System, r: Req) {
    && Leads(r) && InTable(s, r)
    && !s.table.slots[r.role.slot].state.Open?
    && Build(s.table.slots[r.role.slot].members, s.config.fmt).Rejected?
  }

  /** A reason for not calling upstream, with what it takes: maintenance if the flag was set; a timeout once its own
      deadline has come; unavailability for an inactive provider, a malformed body, a generation that cannot be
      assembled, or, with its message, a call that forward() refused. */
  predicate EarlyVerdict(s: System, r: Req, result: AalpResult, now: Time) {
    || (result == Plainly(Maintenance) && r.found.maintenance)
    || (result == Plainly(TotalTimeout) && r.totalDeadline <= now)
    || (result == Plainly(QueueTimeout) && r.queueDeadline <= now)
    || (result == Plainly(Unavailable)
        && (!Active(s.config, r.provider) || r.found.malformed || Unassemblable(s, r)))
    || (r.found.refused.Some? && result == AalpResult(Unavailable, r.found.refused.value))
  }

  predicate Says(s: System, r: Req, result: AalpResult, now: Time) {
    if r.call.worker.Unstarted? then EarlyVerdict(s, r, result, now)
    else r.call.returned.Some? && r.call.returned.value.0 == result
  }

  predicate Joiner(r: Req) {
    r.role.Coalesced? && r.role.index > 0
  }

  /** What request `r` of system `s` has seen, or answers, at the time `now`. */
  predicate Truthful(s: System, r: Req, now: Time) {
    && (r.found.maintenance ==> r.pc == Finished(Plainly(Maintenance)))
    && match r.pc
       case Acquiring(remaining) => r.queueDeadline <= now + remaining
       case AtLane(until) => r.queueDeadline <= until
       case Queued(_, until) => r.queueDeadline <= until
       case Settled(verdict) => verdict.Some? ==> EarlyVerdict(s, r, verdict.value, now)
       case Overdue => r.totalDeadline <= now
       case Returned(delivery) => Says(s, r, delivery.0, now)
       case Finishing(result) => Says(s, r, result, now)
       case Marked(result) => Says(s, r, result, now)
       case Published(result) => Says(s, r, result, now)
       case Finished(result) => Joiner(r) || Says(s, r, result, now)
       case _ => true
  }

  lemma TruthfulLater(s: System, t: System, r: Req, now: Time, later: Time)
    requires Truthful(s, r, now) && now <= later && t.config == s.config
    requires Unassemblable(s, r) ==> Unassemblable(t, r)
    ensures Truthful(t, r, later)
  {
  }

  lemma {:induction false} StaysUnassemblable(s: System, a: Action, r: Req)
    requires Inv(s) && Enabled(s, a) && Unassemblable(s, r)
    ensures Unassemblable(Next(s, a), r)
  {
    NextFollows(s, a, r.role.slot);
  }

  // ----- Each action -----

  lemma {:induction false} TurnIsTruthful(s: System, l: Lane.Lane, ticket: nat, r: Req, deadline: Time, later: Time)
    requires Local(r) && (r.pc.AtLane? || r.pc.Queued?) && r.queueDeadline <= deadline && !r.found.maintenance
    ensures Truthful(s, AfterTurn(r, Lane.Turn(l, ticket, deadline, later).1, deadline, later), later)
  {
  }

  lemma {:induction false} TurnsAreTruthful(s: System, i: nat, d: Doing)
    requires i < |s.reqs| && Can(s, s.reqs[i], d) && Local(s.reqs[i]) && Truthful(s, s.reqs[i], s.now)
    requires d.EnterLane? || d.PollLane?
    ensures Truthful(s, DoLane(s, i, d).reqs[i], DoLane(s, i, d).now)
  {
    var r := s.reqs[i];
    var e := Lane.Expire(s.lanes[r.provider], s.now);
    match d
    case PollLane(later) => TurnIsTruthful(s, e, r.pc.ticket, r, r.pc.until, later);
    case EnterLane(mid, later) =>
      TurnIsTruthful(s, Lane.Expire(Lane.Enqueue(e, r.holder), mid), e.tickets, r, r.pc.until, later);
  }

  lemma {:induction false} AssemblyIsTruthful(s: System, i: nat, later: Time)
    requires SlotsOk(s) && i < |s.reqs| && Can(s, s.reqs[i], Assemble(later)) && Truthful(s, s.reqs[i], s.now)
    requires Local(s.reqs[i])
    ensures Truthful(s, DoAssemble(s, i, later).reqs[i], DoAssemble(s, i, later).now)
  {
    var r := s.reqs[i];
    LeaderIsClosed(s, i);
    match Build(s.table.slots[r.role.slot].members, s.config.fmt)
    case Body(tree) =>
    case Rejected => assert DoAssemble(s, i, later).reqs[i].pc == Finishing(Plainly(Unavailable));
    case Escapes =>
  }

  lemma {:induction false} CallBacksAreTruthful(s: System, i: nat, later: Time)
    requires i < |s.reqs| && Can(s, s.reqs[i], CallBack(later)) && Truthful(s, s.reqs[i], s.now)
    ensures Truthful(s, DoCallBack(s, i, later).reqs[i], DoCallBack(s, i, later).now)
  {
    TruthfulLater(s, s, s.reqs[i], s.now, DoCallBack(s, i, later).now);
  }

  lemma {:induction false} ConclusionsAreTruthful(s: System, i: nat, later: Time)
    requires i < |s.reqs| && Can(s, s.reqs[i], Conclude(later)) && Truthful(s, s.reqs[i], s.now)
    ensures Truthful(s, DoConclude(s, i, later).reqs[i], DoConclude(s, i, later).now)
  {
  }

  lemma {:induction false} ReturnsAreTruthful(s: System, i: nat, later: Time)
    requires i < |s.reqs| && Can(s, s.reqs[i], ReturnSlot(later)) && Local(s.reqs[i]) && Truthful(s, s.reqs[i], s.now)
    ensures Truthful(s, DoReturnSlot(s, i, later).reqs[i], later)
  {
  }

  lemma {:induction false} BeatsAreTruthful(s: System, i: nat, later: Time)
    requires i < |s.reqs| && Can(s, s.reqs[i], Heartbeat(later)) && Truthful(s, s.reqs[i], s.now)
    ensures Truthful(s, DoHeartbeat(s, i, later).reqs[i], later)
  {
    TruthfulLater(s, s, s.reqs[i], s.now, later);
  }

  lemma {:induction false} DoLaneIsTruthful(s: System, i: nat, d: Doing)
    requires SlotsOk(s) && i < |s.reqs| && Can(s, s.reqs[i], d) && RunsLane(d)
    requires Local(s.reqs[i]) && Truthful(s, s.reqs[i], s.now)
    ensures Truthful(s, DoLane(s, i, d).reqs[i], DoLane(s, i, d).now)
  {
    match d
    case EnterLane(_, _) => TurnsAreTruthful(s, i, d);
    case PollLane(_) => TurnsAreTruthful(s, i, d);
    case ReturnSlot(later) => ReturnsAreTruthful(s, i, later);
    case Assemble(later) => AssemblyIsTruthful(s, i, later);
    case CallBack(later) => CallBacksAreTruthful(s, i, later);
    case Heartbeat(later) => BeatsAreTruthful(s, i, later);
    case Conclude(later) => ConclusionsAreTruthful(s, i, later);
  }

  lemma {:induction false} StartsAreTruthful(s: System, i: nat, d: Doing)
    requires i < |s.reqs| && Can(s, s.reqs[i], d) && Local(s.reqs[i]) && Truthful(s, s.reqs[i], s.now)
    requires d.JoinQueue? || d.CloseOpenSlot? || d.MarkInFlight? || d.StartWorker?
    ensures Truthful(s, DoSlot(s, i, d).reqs[i], s.now)
  {
  }

  lemma {:induction false} EndsAreTruthful(s: System, i: nat, d: Doing)
    requires i < |s.reqs| && Can(s, s.reqs[i], d) && Truthful(s, s.reqs[i], s.now)
    requires d.MarkDone? || d.Publish? || d.Signal?
    ensures Truthful(s, DoSlot(s, i, d).reqs[i], s.now)
  {
  }

  lemma {:induction false} DoSlotIsTruthful(s: System, i: nat, d: Doing)
    requires i < |s.reqs| && Can(s, s.reqs[i], d) && ChangesTable(d)
    requires Local(s.reqs[i]) && Truthful(s, s.reqs[i], s.now)
    ensures Truthful(s, DoSlot(s, i, d).reqs[i], s.now)
  {
    if d.MarkDone? || d.Publish? || d.Signal? {
      EndsAreTruthful(s, i, d);
    } else {
      StartsAreTruthful(s, i, d);
    }
  }

  lemma {:induction false} LoneStepsAreTruthful(s: System, i: nat, d: Doing)
    requires LanesOk(s) && i < |s.reqs| && Can(s, s.reqs[i], d) && Local(s.reqs[i]) && Truthful(s, s.reqs[i], s.now)
    requires !RunsLane(d) && !ChangesTable(d) && !d.WakeJoiner? && !d.TimeOutJoiner?
    ensures Truthful(s, DoAlone(s, i, d).reqs[i], s.now)
  {
  }

  lemma {:induction false} WakersAreTruthful(s: System, i: nat)
    requires SlotsOk(s) && i < |s.reqs| && Can(s, s.reqs[i], WakeJoiner) && Truthful(s, s.reqs[i], s.now)
    ensures Truthful(s, DoWakeJoiner(s, i).reqs[i], s.now)
  {
    assert RoleOk(s, i);
  }

  lemma {:induction false} TimedOutIsTruthful(s: System, i: nat)
    requires SlotsOk(s) && i < |s.reqs| && Can(s, s.reqs[i], TimeOutJoiner) && Truthful(s, s.reqs[i], s.now)
    ensures Truthful(s, s.reqs[i].(pc := Finished(Plainly(TotalTimeout))), s.now)
  {
    assert RoleOk(s, i);
  }

  lemma {:induction false} DoAloneIsTruthful(s: System, i: nat, d: Doing)
    requires Inv(s) && i < |s.reqs| && Can(s, s.reqs[i], d) && Truthful(s, s.reqs[i], s.now)
    requires !RunsLane(d) && !ChangesTable(d)
    ensures Truthful(s, DoAlone(s, i, d).reqs[i], s.now)
  {
    if d.WakeJoiner? {
      WakersAreTruthful(s, i);
    } else if d.TimeOutJoiner? {
      TimedOutIsTruthful(s, i);
    } else {
      assert Placed(s, s.reqs[i]);
      LoneStepsAreTruthful(s, i, d);
    }
  }

  lemma {:induction false} DoIsTruthful(s: System, i: nat, d: Doing)
    requires Inv(s) && i < |s.reqs| && Can(s, s.reqs[i], d) && Truthful(s, s.reqs[i], s.now)
    ensures Truthful(s, Do(s, i, d).reqs[i], Do(s, i, d).now)
  {
    assert Placed(s, s.reqs[i]);
    if RunsLane(d) {
      DoLaneIsTruthful(s, i, d);
    } else if ChangesTable(d) {
      DoSlotIsTruthful(s, i, d);
    } else {
      DoAloneIsTruthful(s, i, d);
    }
  }

  ghost predicate AllTruthful(s: System) {
    forall i {:trigger s.reqs[i]} :: 0 <= i < |s.reqs| ==> Truthful(s, s.reqs[i], s.now)
  }

  lemma {:induction false} ForwardIsTruthful(s: System, a: Action)
    requires a.ArriveForward?
    ensures Truthful(s, ForwardRequest(s, a), a.later)
  {
  }

  lemma {:induction false} QueueIsTruthful(s: System, a: Action)
    requires a.ArriveQueue?
    ensures Truthful(s, QueueRequest(s, a), a.later)
  {
  }

  lemma {:induction false} ArrivalsAreTruthful(s: System, a: Action)
    requires Enabled(s, a) && (a.ArriveForward? || a.ArriveQueue?)
    ensures |Next(s, a).reqs| == |s.reqs| + 1 && Next(s, a).reqs[..|s.reqs|] == s.reqs
    ensures Truthful(s, Next(s, a).reqs[|s.reqs|], Next(s, a).now)
  {
    if a.ArriveForward? {
      ForwardIsTruthful(s, a);
    } else {
      QueueIsTruthful(s, a);
    }
  }

  /** One request after a step, judged by the table before it. */
  lemma {:induction false} EachIsTruthful(s: System, a: Action, i: nat)
    requires Inv(s) && AllTruthful(s) && Enabled(s, a) && i < |Next(s, a).reqs|
    ensures Truthful(s, Next(s, a).reqs[i], Next(s, a).now)
  {
    NextKeepsConfig(s, a);
    if a.Act? {
      DoKeepsTerms(s, a.i, a.doing);
      if i == a.i {
        DoIsTruthful(s, a.i, a.doing);
      } else {
        TruthfulLater(s, s, s.reqs[i], s.now, Next(s, a).now);
      }
    } else if i == |s.reqs| {
      ArrivalsAreTruthful(s, a);
    } else {
      assert Next(s, a).reqs[i] == s.reqs[i];
      TruthfulLater(s, s, s.reqs[i], s.now, Next(s, a).now);
    }
  }

  lemma {:induction false} NextIsTruthful(s: System, a: Action)
    requires Inv(s) && AllTruthful(s) && Enabled(s, a)
    ensures AllTruthful(Next(s, a))
  {
    var s' := Next(s, a);
    NextKeepsConfig(s, a);
    forall i | 0 <= i < |s'.reqs|
      ensures Truthful(s', s'.reqs[i], s'.now)
    {
      EachIsTruthful(s, a, i);
      if Unassemblable(s, s'.reqs[i]) {
        StaysUnassemblable(s, a, s'.reqs[i]);
      }
      TruthfulLater(s, s', s'.reqs[i], s'.now, s'.now);
    }
  }

  lemma {:induction false} RunIsTruthful(s: System, acts: seq<Action>)
    requires Inv(s) && AllTruthful(s) && Allows(s, acts)
    ensures AllTruthful(Run(s, acts))
    decreases |acts|
  {
    if acts != [] {
      NextKeepsLanes(s, acts[0]);
      NextKeepsSlots(s, acts[0]);
      NextIsTruthful(s, acts[0]);
      RunIsTruthful(Next(s, acts[0]), acts[1..]);
    }
  }

  // ----- Whole runs -----

  lemma {:induction false} SaidIsTold(s: System, i: nat)
    requires Inv(s) && i < |s.reqs|
    ensures s.reqs[i].call.worker.Unstarted? <==> s.reqs[i].call == IDLE
    ensures s.reqs[i].call.returned.Some? ==> Told(s.reqs[i].call, s.reqs[i].call.returned.value.0)
  {
    assert Placed(s, s.reqs[i]);
    if s.reqs[i].call.returned.Some? {
      ToldTruly(s.reqs[i].call);
    }
  }

  /** In every run, a handler that returned, other than a joiner, answers with what forward() gave its caller if it
      started a call, which is how the exchange went or that no response came in time, and otherwise with a reason that
      was there: maintenance if the flag was set when it looked (and then nothing else), a timeout whose deadline had
      come, or unavailability for one of its own reasons. */
  lemma {:induction false} ResultsAreTruthful(c: Config, now: Time, acts: seq<Action>, i: nat)
    requires Configured(c) && Allows(Init(c, now), acts) && i < |Run(Init(c, now), acts).reqs|
    requires Run(Init(c, now), acts).reqs[i].pc.Finished? && !Joiner(Run(Init(c, now), acts).reqs[i])
    ensures var s := Run(Init(c, now), acts);
            var r := s.reqs[i];
            && Says(s, r, r.pc.result, s.now)
            && (r.call != IDLE ==> Told(r.call, r.pc.result))
            && (r.found.maintenance ==> r.pc.result == Plainly(Maintenance))
  {
    Reached(c, now, []);
    Reached(c, now, acts);
    RunIsTruthful(Init(c, now), acts);
    SaidIsTold(Run(Init(c, now), acts), i);
  }

  /** In every run: a leader that returned left its generation DONE with the one result it wrote, which is what
      forward() gave it or its own reason for not calling, and the event set; a joiner that returned got that same
      result from a leader that had returned, or its own total timeout after its own deadline;
      and where the leader escaped, only the timeout is left. */
  lemma {:induction false} Publication(c: Config, now: Time, acts: seq<Action>, i: nat)
    requires Configured(c) && Allows(Init(c, now), acts)
    requires i < |Run(Init(c, now), acts).reqs| && Run(Init(c, now), acts).reqs[i].role.Coalesced?
    ensures var s := Run(Init(c, now), acts);
            var r := s.reqs[i];
            && r.role.slot < |s.table.slots|
            && var slot := s.table.slots[r.role.slot];
               && slot.members != [] && slot.members[0].id < |s.reqs|
               && |slot.results| <= 1 && (slot.done ==> |slot.results| == 1 && slot.state.Complete?)
               && var lead := s.reqs[slot.members[0].id];
                  && (r.pc.Finished? && r.role.index == 0 ==>
                        && r == lead && slot.state.Complete? && slot.done && slot.results == [r.pc.result]
                        && Says(s, r, r.pc.result, s.now))
                  && (r.pc.Finished? && r.role.index > 0 ==>
                        || (slot.done && slot.results == [r.pc.result] && lead.pc == r.pc
                            && Says(s, lead, r.pc.result, s.now))
                        || (r.pc.result == Plainly(TotalTimeout) && r.totalDeadline <= s.now))
                  && (r.role.index > 0 && r.pc.Escaped? ==> r.pc.cause == Overflowed)
                  && (lead.pc.Escaped? && r.role.index > 0 && r.pc.Finished? ==> r.pc.result == Plainly(TotalTimeout))
  {
    Reached(c, now, acts);
    Reached(c, now, []);
    RunIsTruthful(Init(c, now), acts);
    var s := Run(Init(c, now), acts);
    assert RoleOk(s, i);
    LeaderAgrees(s, s.reqs[i].role.slot);
  }

  /** The slot's event is set, and the joiner has its result or will take it. */
  predicate Hears(s: System, r: Req) {
    && Joiner(r) && InTable(s, r) && s.table.slots[r.role.slot].done
    && |s.table.slots[r.role.slot].results| == 1
    && (r.pc.Watching? || r.pc == Finished(s.table.slots[r.role.slot].results[0]))
  }

  lemma {:induction false} OwnStepHears(s: System, i: nat, d: Doing)
    requires Inv(s) && i < |s.reqs| && Can(s, s.reqs[i], d) && Hears(s, s.reqs[i])
    ensures d == WakeJoiner && Hears(DoWakeJoiner(s, i), DoWakeJoiner(s, i).reqs[i])
  {
    assert Placed(s, s.reqs[i]) && RoleOk(s, i);
  }

  lemma {:induction false} NextHears(s: System, a: Action, i: nat)
    requires Inv(s) && Enabled(s, a) && i < |s.reqs| && Hears(s, s.reqs[i])
    ensures i < |Next(s, a).reqs| && Hears(Next(s, a), Next(s, a).reqs[i])
  {
    var k := s.reqs[i].role.slot;
    NextFollows(s, a, k);
    NextKeepsLanes(s, a);
    NextKeepsSlots(s, a);
    DoneMeansPublished(Next(s, a), k);
    if a.Act? {
      DoKeepsTerms(s, a.i, a.doing);
      if a.i == i { OwnStepHears(s, i, a.doing); }
    }
  }

  /** Once the event of a generation is set, a joiner that still waits can only return the published result, however
      late it looks and whatever else the run does. */
  lemma {:induction false} PublishedIsHeard(s: System, acts: seq<Action>, i: nat)
    requires Inv(s) && Allows(s, acts) && i < |s.reqs| && Hears(s, s.reqs[i])
    ensures i < |Run(s, acts).reqs| && Hears(Run(s, acts), Run(s, acts).reqs[i])
    ensures var k := s.reqs[i].role.slot;
            && k < |Run(s, acts).table.slots| && Run(s, acts).table.slots[k].results == s.table.slots[k].results
            && Run(s, acts).reqs[i].role == s.reqs[i].role
    decreases |acts|
  {
    if acts != [] {
      NextHears(s, acts[0], i);
      NextFollows(s, acts[0], s.reqs[i].role.slot);
      NextKeepsTerms(s, acts[0], i);
      NextKeepsLanes(s, acts[0]);
      NextKeepsSlots(s, acts[0]);
      PublishedIsHeard(Next(s, acts[0]), acts[1..], i);
    }
  }

  /** Whose call a request's answer comes from: its leader's, or its own. */
  function CallerFor(s: System, i: nat): nat
    requires i < |s.reqs|
  {
    var r := s.reqs[i];
    if Joiner(r) && InTable(s, r) && s.table.slots[r.role.slot].members != []
    then s.table.slots[r.role.slot].members[0].id else i
  }

  lemma {:induction false} SuccessIsTold(s: System, i: nat, result: AalpResult)
    requires Inv(s) && i < |s.reqs| && Says(s, s.reqs[i], result, s.now) && result.outcome == Success
    ensures CallOf(s, i).exchanged == Some(Exchanged(Responded, Read(result.content)))
  {
    assert Placed(s, s.reqs[i]);
    ToldTruly(s.reqs[i].call);
  }

  /** In every run, SUCCESS is answered only with the content that the worker of the answering request, or of its
      leader, read from a response in this very run. */
  lemma {:induction false} SuccessWasRead(c: Config, now: Time, acts: seq<Action>, i: nat)
    requires Configured(c) && Allows(Init(c, now), acts) && i < |Run(Init(c, now), acts).reqs|
    requires Run(Init(c, now), acts).reqs[i].pc.Finished?
    requires Run(Init(c, now), acts).reqs[i].pc.result.outcome == Success
    ensures var s := Run(Init(c, now), acts);
            Exchanging(CallerFor(s, i), Exchanged(Responded, Read(s.reqs[i].pc.result.content))) in acts
  {
    Reached(c, now, acts);
    var s := Run(Init(c, now), acts);
    var result := s.reqs[i].pc.result;
    if Joiner(s.reqs[i]) {
      Publication(c, now, acts, i);
    } else {
      ResultsAreTruthful(c, now, acts, i);
    }
    SuccessIsTold(s, CallerFor(s, i), result);
    RunRecords(Init(c, now), acts, CallerFor(s, i));
  }
}
