/** Every thread of a request comes to an end: no handler takes more than a fixed number of steps besides its turns at
    the lane, and no worker is ever without a next step. */
module GatewayProgress {
  import opened Basics
  import opened Queues
  import opened Handoff
  import opened Gateway
  import opened GatewayLanes
  import opened GatewaySlots
  import opened GatewayTheorems
  import opened GatewayHeartbeats
  import Lane = LaneModel

  /** How much of its code a handler has left. */
  function Left(pc: Pc): nat {
    match pc
    case Joining => 16
    case Entering => 15
    case Acquiring(_) => 14
    case AtLane(_) => 13
    case Queued(_, _) => 12
    case Settled(_) => 11
    case Admitted => 10
    case Overdue => 9
    case Cleared => 8
    case Assembled(_) => 7
    case Executing(_) => 6
    case Forwarding => 5
    case Returned(_) => 4
    case Finishing(_) => 3
    case Marked(_) => 2
    case Published(_) => 1
    case Watching => 1
    case Finished(_) => 0
    case Escaped(_) => 0
  }

  /** Steps of the handler itself, other than its further turns at the lane. */
  predicate OfHandler(d: Doing) {
    !(d.MoveWorker? || d.CallBack? || d.Heartbeat? || d.PollLane?)
  }

  /** Before it arrives, a request has everything before it. */
  function LeftOf(s: System, i: nat): nat {
    if i < |s.reqs| then Left(s.reqs[i].pc) else 16
  }

  function HandlerSteps(acts: seq<Action>, i: nat): nat {
    if acts == [] then 0
    else (if acts[0].Act? && acts[0].i == i && OfHandler(acts[0].doing) then 1 else 0) + HandlerSteps(acts[1..], i)
  }

  lemma {:induction false} TurnGoesOn(r: Req, reply: Lane.Reply, until: Time, at: Time)
    ensures Left(AfterTurn(r, reply, until, at).pc) <= 12
  {
  }

  lemma {:induction false} TurnsGoOn(s: System, i: nat, d: Doing)
    requires i < |s.reqs| && Can(s, s.reqs[i], d) && (d.EnterLane? || d.PollLane?)
    ensures Left(DoTurn(s, i, d).reqs[i].pc) <= 12
  {
    var r := s.reqs[i];
    match d
    case EnterLane(mid, later) =>
      var op := Lane.Enter(r.holder, r.pc.until, s.now, mid, later);
      TurnGoesOn(r, Lane.Apply(s.lanes[r.provider], op).1, r.pc.until, later);
    case PollLane(later) =>
      var op := Lane.Poll(r.pc.ticket, r.pc.until, s.now, later);
      TurnGoesOn(r, Lane.Apply(s.lanes[r.provider], op).1, r.pc.until, later);
  }

  lemma {:induction false} ReturnGoesOn(s: System, i: nat, later: Time)
    requires i < |s.reqs| && Can(s, s.reqs[i], ReturnSlot(later))
    ensures Left(DoReturnSlot(s, i, later).reqs[i].pc) < Left(s.reqs[i].pc)
  {
  }

  lemma {:induction false} ConcludeGoesOn(s: System, i: nat, later: Time)
    requires i < |s.reqs| && Can(s, s.reqs[i], Conclude(later))
    ensures Left(DoConclude(s, i, later).reqs[i].pc) < Left(s.reqs[i].pc)
  {
  }

  lemma {:induction false} AssemblyGoesOn(s: System, i: nat, later: Time)
    requires i < |s.reqs| && Can(s, s.reqs[i], Assemble(later))
    ensures Left(DoAssemble(s, i, later).reqs[i].pc) < Left(s.reqs[i].pc)
  {
    var built := Build(s.table.slots[s.reqs[i].role.slot].members, s.config.fmt);
    assert built.Body? || built.Rejected? || built.Escapes?;
  }

  lemma {:induction false} LaneStepsGoOn(s: System, i: nat, d: Doing)
    requires i < |s.reqs| && Can(s, s.reqs[i], d) && RunsLane(d)
    ensures Left(DoLane(s, i, d).reqs[i].pc) + (if OfHandler(d) then 1 else 0) <= Left(s.reqs[i].pc)
  {
    match d
    case EnterLane(_, _) => TurnsGoOn(s, i, d);
    case PollLane(_) => TurnsGoOn(s, i, d);
    case ReturnSlot(later) => ReturnGoesOn(s, i, later);
    case Assemble(later) => AssemblyGoesOn(s, i, later);
    case Conclude(later) => ConcludeGoesOn(s, i, later);
    case CallBack(later) => assert DoCallBack(s, i, later).reqs[i].pc == s.reqs[i].pc;
    case Heartbeat(later) => assert DoHeartbeat(s, i, later).reqs[i].pc == s.reqs[i].pc;
  }

  lemma {:induction false} SlotStepsGoOn(s: System, i: nat, d: Doing)
    requires i < |s.reqs| && Can(s, s.reqs[i], d) && ChangesTable(d)
    ensures Left(DoSlot(s, i, d).reqs[i].pc) + 1 <= Left(s.reqs[i].pc)
  {
  }

  lemma {:induction false} LoneStepsGoOn(s: System, i: nat, d: Doing)
    requires i < |s.reqs| && Can(s, s.reqs[i], d) && !RunsLane(d) && !ChangesTable(d)
    ensures Left(DoAlone(s, i, d).reqs[i].pc) + (if OfHandler(d) then 1 else 0) <= Left(s.reqs[i].pc)
  {
  }

  lemma {:induction false} NextGoesOn(s: System, a: Action, i: nat)
    requires Enabled(s, a)
    ensures LeftOf(Next(s, a), i) + HandlerSteps([a], i) <= LeftOf(s, i)
  {
    assert HandlerSteps([a][1..], i) == 0;
    if a.Act? {
      DoKeepsTerms(s, a.i, a.doing);
      if a.i == i {
        if RunsLane(a.doing) {
          LaneStepsGoOn(s, i, a.doing);
        } else if ChangesTable(a.doing) {
          SlotStepsGoOn(s, i, a.doing);
        } else {
          LoneStepsGoOn(s, i, a.doing);
        }
      }
    }
  }

  lemma {:induction false} RunGoesOn(s: System, acts: seq<Action>, i: nat)
    requires Allows(s, acts)
    ensures LeftOf(Run(s, acts), i) + HandlerSteps(acts, i) <= LeftOf(s, i)
    decreases |acts|
  {
    if acts != [] {
      NextGoesOn(s, acts[0], i);
      assert HandlerSteps([acts[0]][1..], i) == 0;
      RunGoesOn(Next(s, acts[0]), acts[1..], i);
    }
  }

  /** The worker of a started call has not come to its end. */
  predicate AtWork(c: Call) {
    !c.worker.Unstarted? && !c.worker.Ended? && !c.worker.Died?
  }

  /** What a worker does next, one way or another. */
  function NextOfWorker(s: System, c: Call): Doing {
    match c.worker
    case Calling => MoveWorker(Finish(Unexpected, Read("")))
    case Closing(_) => MoveWorker(Close(false))
    case Posting(_, _) => MoveWorker(Post)
    case _ => CallBack(s.now)
  }

  /** In every run, a handler takes at most sixteen steps besides its further turns at the lane; the worker of a call
      can go on until it has ended, whatever became of its caller; and a heartbeat can be sent from the moment the
      call is prepared until its result has been taken in. */
  lemma {:induction false} EveryThreadEnds(c: Config, now: Time, acts: seq<Action>, i: nat)
    requires Configured(c) && Allows(Init(c, now), acts)
    ensures HandlerSteps(acts, i) <= 16
    ensures var s := Run(Init(c, now), acts);
            i < |s.reqs| ==>
              && (AtWork(s.reqs[i].call) ==> Can(s, s.reqs[i], NextOfWorker(s, s.reqs[i].call)))
              && (Beats(s.reqs[i].pc) ==> Can(s, s.reqs[i], Heartbeat(s.now)))
  {
    RunGoesOn(Init(c, now), acts, i);
    Reached(c, now, acts);
    var s := Run(Init(c, now), acts);
    if i < |s.reqs| {
      assert Placed(s, s.reqs[i]);
    }
  }
}
