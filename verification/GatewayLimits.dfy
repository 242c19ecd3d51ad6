/** Two limits of the gateway's promises, each with the run or the list of causes that shows it. */
module GatewayLimits {
  import opened Basics
  import opened Queues
  import opened Handoff
  import opened Gateway
  import opened GatewayLanes
  import opened GatewaySlots
  import opened GatewayTheorems
  import opened GatewayHeartbeats
  import Lane = LaneModel

  // ----- Quarantine ends after a lease time, whether or not the call has stopped -----

  /** Nobody waits at the lane and every lease has lapsed. */
  predicate Quiet(s: System, p: string) {
    && p in s.lanes
    && s.lanes[p].capacity >= 1 && s.lanes[p].ttl == s.config.leaseSeconds
    && s.lanes[p].waiters == []
    && Lane.Live(s.lanes[p].leases, s.now) == map[]
  }

  lemma {:induction false} QuietLaneAdmits(l: Lane.Lane, op: Lane.Op)
    requires op.Enter? && op.mid == op.now == op.later
    requires l.capacity >= 1 && l.waiters == [] && Lane.Live(l.leases, op.now) == map[]
    ensures var (m, reply) := Lane.Apply(l, op);
            && reply == Lane.Granted(l.tokens) && m.waiters == [] && m.capacity == l.capacity && m.ttl == l.ttl
            && m.leases == map[l.tokens := Lane.Lease(op.holder, op.now + l.ttl)]
  {
    var q := Lane.Enqueue(Lane.Expire(l, op.now), op.holder);
    assert q.waiters == [Lane.Waiter(l.tickets, op.holder)];
    assert Lane.Expire(q, op.mid) == q;
    assert Lane.Drop(q.waiters, 0) == [];
  }

  lemma {:induction false} Then(s0: System, acts: seq<Action>, a: Action)
    requires Allows(s0, acts) && Prompt(s0, acts)
    requires Enabled(Run(s0, acts), a) && OnTime(Next(Run(s0, acts), a))
    ensures Allows(s0, acts + [a]) && Prompt(s0, acts + [a])
    ensures Run(s0, acts + [a]) == Next(Run(s0, acts), a)
    decreases |acts|
  {
    if acts == [] {
      assert acts + [a] == [a] && [a][1..] == [];
    } else {
      assert (acts + [a])[1..] == acts[1..] + [a];
      Then(Next(s0, acts[0]), acts[1..], a);
    }
  }

  lemma {:induction false} Step(s0: System, acts: seq<Action>, a: Action) returns (more: seq<Action>)
    requires Allows(s0, acts) && Prompt(s0, acts)
    requires Enabled(Run(s0, acts), a) && OnTime(Next(Run(s0, acts), a))
    ensures Allows(s0, more) && Prompt(s0, more) && Run(s0, more) == Next(Run(s0, acts), a)
  {
    Then(s0, acts, a);
    more := acts + [a];
  }

  /** Everybody but the last request, if that, is past its heartbeats. */
  ghost predicate OthersDone(s: System, n: nat) {
    forall i {:trigger s.reqs[i]} :: 0 <= i < |s.reqs| && i < n ==> s.reqs[i].pc.Finished?
  }

  lemma {:induction false} LastIsOnTime(s: System, n: nat)
    requires |s.reqs| <= n + 1 && OthersDone(s, n)
    requires |s.reqs| == n + 1 && Beats(s.reqs[n].pc) ==> s.now < s.reqs[n].beat + s.config.leaseSeconds
    ensures OnTime(s)
  {
  }

  function Visitor(s: System, p: string, pc: Pc): Req {
    Newcomer(s, Opening(p, Some(false), Some(1.0), Some(1.0)), "f", pc)
  }

  function Visited(s: System, p: string, pc: Pc): System {
    s.(reqs := s.reqs + [Visitor(s, p, pc)])
  }

  function Visit(s: System, p: string): Action {
    ArriveForward(Opening(p, Some(false), Some(1.0), Some(1.0)), "f", s.now)
  }

  lemma {:induction false} VisitorIsOnTime(s: System, p: string, pc: Pc)
    requires OthersDone(s, |s.reqs|) && !Beats(pc)
    ensures OnTime(Visited(s, p, pc))
  {
    LastIsOnTime(Visited(s, p, pc), |s.reqs|);
  }

  lemma {:induction false} VisitorArrives(s: System, p: string)
    requires Active(s.config, p)
    ensures Enabled(s, Visit(s, p)) && Next(s, Visit(s, p)) == Visited(s, p, Entering)
  {
  }

  lemma {:induction false} PutsLast(front: seq<Req>, a: Req, b: Req)
    ensures (front + [a])[|front| := b] == front + [b]
  {
  }

  /** The two readings before the lane. */
  lemma {:induction false} VisitorReads(s: System, p: string, u: System)
    requires p in s.lanes && u == Visited(s, p, Entering)
    ensures Enabled(u, Act(|s.reqs|, ReadRemaining))
    ensures Next(u, Act(|s.reqs|, ReadRemaining)) == Visited(s, p, Acquiring(1.0))
  {
    PutsLast(s.reqs, Visitor(s, p, Entering), Visitor(s, p, Acquiring(1.0)));
  }

  lemma {:induction false} VisitorSets(s: System, p: string, u: System)
    requires p in s.lanes && u == Visited(s, p, Acquiring(1.0))
    ensures Enabled(u, Act(|s.reqs|, SetDeadline))
    ensures Next(u, Act(|s.reqs|, SetDeadline)) == Visited(s, p, AtLane(s.now + 1.0))
  {
    PutsLast(s.reqs, Visitor(s, p, Acquiring(1.0)), Visitor(s, p, AtLane(s.now + 1.0)));
  }

  function VisitorGranted(s: System, p: string): Req
    requires p in s.lanes
  {
    Visitor(s, p, Admitted).(token := Some(s.lanes[p].tokens), beat := s.now)
  }

  /** It holds the only lease of its lane and waits at `pc`. */
  ghost predicate Admits(s: System, t: System, p: string, pc: Pc) {
    && p in s.lanes && p in t.lanes && t.config == s.config && t.now == s.now
    && t.reqs == s.reqs + [VisitorGranted(s, p).(pc := pc)]
    && t.lanes[p].capacity == s.lanes[p].capacity && t.lanes[p].ttl == s.lanes[p].ttl && t.lanes[p].waiters == []
    && t.lanes[p].leases == map[s.lanes[p].tokens := Lane.Lease("f", s.now + s.lanes[p].ttl)]
  }

  lemma {:induction false} VisitorTurns(s: System, u: System, p: string, op: Lane.Op)
    requires p in s.lanes && u == Visited(s, p, AtLane(s.now + 1.0))
    requires op == Lane.Enter("f", s.now + 1.0, s.now, s.now, s.now)
    requires Lane.Apply(s.lanes[p], op).1 == Lane.Granted(s.lanes[p].tokens)
    ensures DoEnterLane(u, |s.reqs|, s.now, s.now) == Put(CallLane(u, p, op), |s.reqs|, VisitorGranted(s, p))
  {
  }

  /** A visitor is admitted at once. */
  lemma {:induction false} VisitorEnters(s: System, u: System, p: string)
    requires Quiet(s, p) && u == Visited(s, p, AtLane(s.now + 1.0))
    ensures Admits(s, DoEnterLane(u, |s.reqs|, s.now, s.now), p, Admitted)
  {
    var op := Lane.Enter("f", s.now + 1.0, s.now, s.now, s.now);
    QuietLaneAdmits(s.lanes[p], op);
    VisitorTurns(s, u, p, op);
    PutsLast(s.reqs, Visitor(s, p, AtLane(s.now + 1.0)), VisitorGranted(s, p));
  }

  lemma {:induction false} VisitorMayEnter(s: System, u: System, p: string)
    requires p in s.lanes && u == Visited(s, p, AtLane(s.now + 1.0))
    ensures var enter := Act(|s.reqs|, EnterLane(s.now, s.now));
            Enabled(u, enter) && Next(u, enter) == DoEnterLane(u, |s.reqs|, s.now, s.now)
  {
  }

  lemma {:induction false} VisitorPasses(s: System, t: System, p: string)
    requires Admits(s, t, p, Admitted)
    ensures Enabled(t, Act(|s.reqs|, CheckDeadline))
    ensures Admits(s, Next(t, Act(|s.reqs|, CheckDeadline)), p, Executing(None))
  {
    PutsLast(s.reqs, VisitorGranted(s, p), VisitorGranted(s, p).(pc := Executing(None)));
  }

  lemma {:induction false} RunToEntering(s0: System, before: seq<Action>, p: string) returns (acts: seq<Action>)
    requires Allows(s0, before) && Prompt(s0, before) && OthersDone(Run(s0, before), |Run(s0, before).reqs|)
    requires Active(Run(s0, before).config, p) && p in Run(s0, before).lanes
    ensures Allows(s0, acts) && Prompt(s0, acts)
    ensures var s := Run(s0, before); Run(s0, acts) == Visited(s, p, Entering)
  {
    var s := Run(s0, before);
    VisitorArrives(s, p);
    VisitorIsOnTime(s, p, Entering);
    acts := Step(s0, before, Visit(s, p));
  }

  lemma {:induction false} RunToAcquiring(s0: System, before: seq<Action>, p: string) returns (acts: seq<Action>)
    requires Allows(s0, before) && Prompt(s0, before) && OthersDone(Run(s0, before), |Run(s0, before).reqs|)
    requires Active(Run(s0, before).config, p) && p in Run(s0, before).lanes
    ensures Allows(s0, acts) && Prompt(s0, acts)
    ensures var s := Run(s0, before); Run(s0, acts) == Visited(s, p, Acquiring(1.0))
  {
    var s := Run(s0, before);
    acts := RunToEntering(s0, before, p);
    VisitorReads(s, p, Run(s0, acts));
    VisitorIsOnTime(s, p, Acquiring(1.0));
    acts := Step(s0, acts, Act(|s.reqs|, ReadRemaining));
  }

  lemma {:induction false} RunToLane(s0: System, before: seq<Action>, p: string) returns (acts: seq<Action>)
    requires Allows(s0, before) && Prompt(s0, before) && OthersDone(Run(s0, before), |Run(s0, before).reqs|)
    requires Active(Run(s0, before).config, p) && p in Run(s0, before).lanes
    ensures Allows(s0, acts) && Prompt(s0, acts)
    ensures var s := Run(s0, before); Run(s0, acts) == Visited(s, p, AtLane(s.now + 1.0))
  {
    var s := Run(s0, before);
    acts := RunToAcquiring(s0, before, p);
    VisitorSets(s, p, Run(s0, acts));
    VisitorIsOnTime(s, p, AtLane(s.now + 1.0));
    acts := Step(s0, acts, Act(|s.reqs|, SetDeadline));
  }

  lemma {:induction false} RunToAdmitted(s0: System, before: seq<Action>, p: string) returns (acts: seq<Action>)
    requires Allows(s0, before) && Prompt(s0, before) && OthersDone(Run(s0, before), |Run(s0, before).reqs|)
    requires Active(Run(s0, before).config, p) && Quiet(Run(s0, before), p)
    ensures Allows(s0, acts) && Prompt(s0, acts) && Admits(Run(s0, before), Run(s0, acts), p, Admitted)
  {
    var s := Run(s0, before);
    acts := RunToLane(s0, before, p);
    VisitorMayEnter(s, Run(s0, acts), p);
    VisitorEnters(s, Run(s0, acts), p);
    LastIsOnTime(Next(Run(s0, acts), Act(|s.reqs|, EnterLane(s.now, s.now))), |s.reqs|);
    acts := Step(s0, acts, Act(|s.reqs|, EnterLane(s.now, s.now)));
  }

  /** It is about to call upstream. */
  lemma {:induction false} ReachExecuting(s0: System, before: seq<Action>, p: string) returns (acts: seq<Action>)
    requires Allows(s0, before) && Prompt(s0, before) && OthersDone(Run(s0, before), |Run(s0, before).reqs|)
    requires Active(Run(s0, before).config, p) && Quiet(Run(s0, before), p)
    requires Run(s0, before).config.leaseSeconds > 0.0
    ensures Allows(s0, acts) && Prompt(s0, acts) && Admits(Run(s0, before), Run(s0, acts), p, Executing(None))
  {
    acts := RunToAdmitted(s0, before, p);
    var s, t := Run(s0, before), Run(s0, acts);
    VisitorPasses(s, t, p);
    LastIsOnTime(Next(t, Act(|s.reqs|, CheckDeadline)), |s.reqs|);
    acts := Step(s0, acts, Act(|s.reqs|, CheckDeadline));
  }

  /** The call record of a caller that gave up at once. */
  const ABANDONED := Call(Calling, [], true, Some(NoResponse()), [], None, None)

  /** The system with another last request. */
  function WithLast(s: System, r: Req): System
    requires s.reqs != []
  {
    s.(reqs := s.reqs[|s.reqs| - 1 := r])
  }

  function Last(s: System): Req
    requires s.reqs != []
  {
    s.reqs[|s.reqs| - 1]
  }

  lemma {:induction false} StartsCall(s: System)
    requires s.reqs != [] && Last(s).pc == Executing(None) && Last(s).role == Plain
    ensures var start := Act(|s.reqs| - 1, StartWorker);
            && Enabled(s, start)
            && Next(s, start) == WithLast(s, Last(s).(pc := Forwarding, call := STARTED))
  {
  }

  lemma {:induction false} GivesUp(s: System)
    requires s.reqs != [] && Last(s).pc == Forwarding && Last(s).call == STARTED
    ensures var decide := Act(|s.reqs| - 1, CallerDecides);
            && Enabled(s, decide)
            && Next(s, decide) == WithLast(s, Last(s).(pc := Returned(NoResponse()), call := ABANDONED))
  {
  }

  /** Keeping the slot, because the close is unconfirmed. */
  lemma {:induction false} KeepsSlot(s: System)
    requires s.reqs != [] && Last(s).pc == Returned(NoResponse()) && Last(s).role == Plain && HasLane(s, Last(s))
    ensures var conclude := Act(|s.reqs| - 1, Conclude(s.now));
            && Enabled(s, conclude)
            && Next(s, conclude) == WithLast(s, Last(s).(pc := Finished(NoResponse().0)))
  {
  }

  /** All are past their heartbeats but the last, which has just been granted its slot. */
  ghost predicate OneActive(s: System, p: string) {
    && s.config.leaseSeconds > 0.0 && p in s.lanes
    && s.reqs != [] && OthersDone(s, |s.reqs| - 1)
    && Last(s).provider == p && Last(s).beat == s.now && Last(s).role == Plain && Last(s).token.Some?
  }

  lemma {:induction false} OneActiveIsOnTime(s: System, p: string)
    requires OneActive(s, p)
    ensures OnTime(s)
  {
    LastIsOnTime(s, |s.reqs| - 1);
  }

  lemma {:induction false} RunToReturned(s0: System, before: seq<Action>, p: string) returns (acts: seq<Action>)
    requires Allows(s0, before) && Prompt(s0, before)
    requires OneActive(Run(s0, before), p) && Last(Run(s0, before)).pc == Executing(None)
    ensures Allows(s0, acts) && Prompt(s0, acts)
    ensures var s := Run(s0, before);
            Run(s0, acts) == WithLast(s, Last(s).(pc := Returned(NoResponse()), call := ABANDONED))
  {
    var s := Run(s0, before);
    var n := |s.reqs| - 1;
    var u := WithLast(s, Last(s).(pc := Forwarding, call := STARTED));
    StartsCall(s);
    OneActiveIsOnTime(u, p);
    acts := Step(s0, before, Act(n, StartWorker));
    GivesUp(u);
    OneActiveIsOnTime(WithLast(u, Last(u).(pc := Returned(NoResponse()), call := ABANDONED)), p);
    acts := Step(s0, acts, Act(n, CallerDecides));
  }

  /** Calling upstream, giving up, and keeping the slot until the lease has lapsed while the call is still open. */
  lemma {:induction false} Abandon(s0: System, before: seq<Action>, p: string) returns (acts: seq<Action>)
    requires Allows(s0, before) && Prompt(s0, before)
    requires OneActive(Run(s0, before), p) && Last(Run(s0, before)).pc == Executing(None)
    ensures Allows(s0, acts) && Prompt(s0, acts)
    ensures var s := Run(s0, before);
            Run(s0, acts) == WithLast(s, Last(s).(pc := Finished(NoResponse().0), call := ABANDONED))
                             .(now := s.now + s.config.leaseSeconds)
  {
    var s := Run(s0, before);
    acts := RunToReturned(s0, before, p);
    var t := Run(s0, acts);
    var u := WithLast(t, Last(t).(pc := Finished(NoResponse().0)));
    KeepsSlot(t);
    OneActiveIsOnTime(u, p);
    acts := Step(s0, acts, Act(|s.reqs| - 1, Conclude(s.now)));
    LastIsOnTime(u.(now := s.now + s.config.leaseSeconds), |s.reqs|);
    acts := Step(s0, acts, Tick(s.now + s.config.leaseSeconds));
  }

  /** `n` calls of the provider are open, all given up by their callers, and its lane is free again. */
  ghost predicate Overrun(s: System, c: Config, p: string, n: nat) {
    && s.config == c && Quiet(s, p) && |s.reqs| == n && OthersDone(s, n)
    && forall i {:trigger s.reqs[i]} :: 0 <= i < n ==> OpenAt(s, p, i) && s.reqs[i].call.gaveUp
  }

  lemma {:induction false} OneMoreOpen(s: System, t: System, c: Config, p: string, n: nat, r: Req)
    requires Overrun(s, c, p, n) && t.config == c && t.reqs == s.reqs + [r] && Quiet(t, p)
    requires r.provider == p && r.call == ABANDONED && r.pc.Finished?
    ensures Overrun(t, c, p, n + 1)
  {
    forall i | 0 <= i < n + 1
      ensures OpenAt(t, p, i) && t.reqs[i].call.gaveUp && t.reqs[i].pc.Finished?
    {
      if i < n {
        assert t.reqs[i] == s.reqs[i];
        assert OpenAt(s, p, i) && s.reqs[i].call.gaveUp;
      }
    }
  }

  lemma {:induction false} AdmittedIsActive(s: System, t: System, p: string)
    requires Admits(s, t, p, Executing(None)) && OthersDone(s, |s.reqs|) && s.config.leaseSeconds > 0.0
    ensures OneActive(t, p) && Last(t).pc == Executing(None)
    ensures var r := Last(t).(pc := Finished(NoResponse().0), call := ABANDONED);
            WithLast(t, r).reqs == s.reqs + [r]
  {
  }

  lemma {:induction false} OverrunByOneMore(s0: System, before: seq<Action>, c: Config, p: string, n: nat)
    returns (acts: seq<Action>)
    requires Configured(c) && Active(c, p) && Allows(s0, before) && Prompt(s0, before)
    requires Overrun(Run(s0, before), c, p, n)
    ensures Allows(s0, acts) && Prompt(s0, acts) && Overrun(Run(s0, acts), c, p, n + 1)
  {
    var s := Run(s0, before);
    acts := ReachExecuting(s0, before, p);
    var t := Run(s0, acts);
    AdmittedIsActive(s, t, p);
    acts := Abandon(s0, acts, p);
    OneMoreOpen(s, Run(s0, acts), c, p, n, Last(t).(pc := Finished(NoResponse().0), call := ABANDONED));
  }

  lemma {:induction false} NothingOverrun(c: Config, p: string)
    requires Configured(c) && Active(c, p)
    ensures Prompt(Init(c, 0.0), []) && Overrun(Init(c, 0.0), c, p, 0)
  {
  }

  /** Freshness cannot be dropped from the concurrency bound: however low a provider's limit, some run, with all
      heartbeats on time, has any number of its calls open at once, all of them given up by their callers. */
  lemma {:induction false} OpenCallsUnbounded(c: Config, p: string, n: nat) returns (acts: seq<Action>)
    requires Configured(c) && Active(c, p)
    ensures Allows(Init(c, 0.0), acts) && Prompt(Init(c, 0.0), acts)
    ensures Overrun(Run(Init(c, 0.0), acts), c, p, n)
  {
    if n == 0 {
      NothingOverrun(c, p);
      acts := [];
    } else {
      acts := OpenCallsUnbounded(c, p, n - 1);
      acts := OverrunByOneMore(Init(c, 0.0), acts, c, p, n - 1);
    }
  }

  // ----- What can take a handler out of the protocol -----

  /** What an escaped handler had and why it left. */
  ghost predicate EscapeExplained(s: System, i: nat)
    requires i < |s.reqs| && s.reqs[i].pc.Escaped?
  {
    var r := s.reqs[i];
    && r.releases == 0
    && (r.pc.cause == Overflowed || r.call == IDLE)
    && match r.pc.cause
       case Internal => false
       case Overflowed =>
         || (r.call == IDLE && r.token.None? && r.role.Coalesced? && r.role.index > 0)
         || (!r.call.worker.Unstarted? && r.call.returned.None? && r.token.Some? && HandlerAt(s, r))
       case Unbuildable =>
         && Leads(r) && r.token.Some? && InTable(s, r)
         && Build(Originals(s, s.table.slots[r.role.slot].members), s.config.fmt).Escapes?
       case Unprepared => r.token.Some? && HandlerAt(s, r)
       case NoHolder => r.role == Plain && r.token.None? && r.holder == ""
       case _ => r.role == Plain && r.token.None?
  }

  lemma {:induction false} EscapesAreExplained(s: System, i: nat)
    requires Inv(s) && i < |s.reqs| && s.reqs[i].pc.Escaped?
    ensures EscapeExplained(s, i)
  {
    assert RoleOk(s, i) && Placed(s, s.reqs[i]);
    if s.reqs[i].role.Coalesced? {
      AssemblesTheOriginals(s, s.reqs[i].role.slot);
    }
  }

  /** In every run, an escaped handler has attempted no release and left for one of these reasons, none of which is a
      lane section, a transition of a generation or a wake-up: before it joined or queued anywhere, by the maintenance
      flag, a timeout, the body or the encoding of its block; by an empty flow id, likewise holding nothing; as a
      leader, by members whose submissions str.join or str.format rejects; while holding a token, by any exception
      before the upstream worker was started; or because the wait asked for is longer than the platform accepts,
      as a joiner, or as a caller whose call then goes on with nobody to hear of it. */
  lemma {:induction false} EscapesOnlyBy(c: Config, now: Time, acts: seq<Action>, i: nat)
    requires Configured(c) && Allows(Init(c, now), acts) && i < |Run(Init(c, now), acts).reqs|
    requires Run(Init(c, now), acts).reqs[i].pc.Escaped?
    ensures EscapeExplained(Run(Init(c, now), acts), i) && Run(Init(c, now), acts).config == c
  {
    Reached(c, now, acts);
    EscapesAreExplained(Run(Init(c, now), acts), i);
  }

  /** Of an escaped request only the worker goes on. */
  lemma EscapedIsStuck(s: System, i: nat, d: Doing)
    requires LanesOk(s) && i < |s.reqs| && s.reqs[i].pc.Escaped?
    ensures Can(s, s.reqs[i], d) ==> d.MoveWorker?
  {
    assert Placed(s, s.reqs[i]);
  }

  predicate SameButCall(r: Req, r': Req) {
    r' == r.(call := r'.call)
  }

  lemma {:induction false} StepKeepsEscaped(s: System, a: Action, i: nat)
    requires Inv(s) && Enabled(s, a) && i < |s.reqs| && s.reqs[i].pc.Escaped?
    ensures i < |Next(s, a).reqs| && SameButCall(s.reqs[i], Next(s, a).reqs[i])
  {
    if a.Act? {
      EscapedIsStuck(s, i, a.doing);
      DoKeepsTerms(s, a.i, a.doing);
    }
  }

  lemma {:induction false} RunKeepsEscaped(s: System, acts: seq<Action>, i: nat)
    requires Inv(s) && Allows(s, acts) && i < |s.reqs| && s.reqs[i].pc.Escaped?
    ensures i < |Run(s, acts).reqs| && SameButCall(s.reqs[i], Run(s, acts).reqs[i])
    decreases |acts|
  {
    if acts != [] {
      NextKeepsLanes(s, acts[0]);
      NextKeepsSlots(s, acts[0]);
      StepKeepsEscaped(s, acts[0], i);
      RunKeepsEscaped(Next(s, acts[0]), acts[1..], i);
    }
  }

  /** Escaping is final and leaves the lease to its time limit: however the run goes on, the request stays as it is
      but for a worker that is still under way, its token is never released, and the lease stands until a full
      lease time after its last renewal. */
  lemma {:induction false} EscapeReleasesNothing(c: Config, now: Time, acts: seq<Action>, rest: seq<Action>, i: nat)
    requires Configured(c) && Allows(Init(c, now), acts) && Allows(Run(Init(c, now), acts), rest)
    requires i < |Run(Init(c, now), acts).reqs| && Run(Init(c, now), acts).reqs[i].pc.Escaped?
    ensures var r := Run(Init(c, now), acts).reqs[i];
            var t := Run(Run(Init(c, now), acts), rest);
            && i < |t.reqs| && SameButCall(r, t.reqs[i]) && r.releases == 0
            && (r.token.Some? ==>
                  && r.provider in t.lanes
                  && var l := t.lanes[r.provider];
                     && r.token.value in l.renewed && r.token.value !in l.released
                     && (t.now < l.renewed[r.token.value] + c.leaseSeconds ==> r.token.value in l.leases))
  {
    Reached(c, now, acts);
    var s := Run(Init(c, now), acts);
    RunKeepsEscaped(s, rest, i);
    RunKeepsInv(s, rest);
    var t := Run(s, rest);
    assert Placed(t, t.reqs[i]);
    if t.reqs[i].token.Some? {
      assert LaneOk(t, t.reqs[i].provider);
    }
  }
}
