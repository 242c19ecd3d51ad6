/** The lane object of aalp/lane.py: fields updated in place under its monitor. */
module Lanes {
  import opened Basics
  import opened LaneModel
  import opened LaneTheorems
  import LaneSharing

  // ----- The comprehensions of the program, as functions -----

  function Without(ws: seq<Waiter>, ticket: nat): seq<Waiter> {
    if ws == [] then []
    else Without(ws[..|ws| - 1], ticket) + if ws[|ws| - 1].ticket == ticket then [] else [ws[|ws| - 1]]
  }

  lemma {:induction false} WithoutAbsent(ws: seq<Waiter>, ticket: nat)
    requires forall i :: 0 <= i < |ws| ==> ws[i].ticket != ticket
    ensures Without(ws, ticket) == ws
  {
    if ws != [] {
      WithoutAbsent(ws[..|ws| - 1], ticket);
    }
  }

  lemma {:induction false} DroppedIsAbsent(ws: seq<Waiter>, bound: nat, p: nat)
    requires Ordered(ws, bound) && p < |ws|
    ensures Without(Drop(ws, p), ws[p].ticket) == Drop(ws, p)
  {
    forall i | 0 <= i < |Drop(ws, p)|
      ensures Drop(ws, p)[i].ticket != ws[p].ticket
    {
      assert Drop(ws, p)[i] == ws[if i < p then i else i + 1];
    }
    WithoutAbsent(Drop(ws, p), ws[p].ticket);
  }

  lemma {:induction false} DropBeforeLast(ws: seq<Waiter>, p: nat)
    requires p < |ws| - 1
    ensures Drop(ws, p) == Drop(ws[..|ws| - 1], p) + [ws[|ws| - 1]]
  {
  }

  /** Filtering a ticket out is dropping its one entry. */
  lemma {:induction false} WithoutIsDrop(ws: seq<Waiter>, bound: nat, p: nat)
    requires Ordered(ws, bound) && p < |ws|
    ensures Without(ws, ws[p].ticket) == Drop(ws, p)
    decreases |ws|
  {
    var last := |ws| - 1;
    if p == last {
      WithoutAbsent(ws[..last], ws[p].ticket);
      assert Drop(ws, p) == ws[..last];
    } else {
      WithoutIsDrop(ws[..last], bound, p);
      assert ws[..last][p] == ws[p];
      DropBeforeLast(ws, p);
    }
  }

  lemma SweepIsLive(leases: map<nat, Lease>, now: Time)
    ensures leases - (set t | t in leases && leases[t].expires <= now) == Live(leases, now)
  {
  }

  /** What `acquire` ended in. `StillWaiting` is no outcome of the program:
      it is where the caller stands when the given rounds are used up. */
  datatype Acquired = Leased(token: nat) | LaneTimeout | ValueError | StillWaiting

  /** One `condition.wait`: the sections other threads run meanwhile, then this caller's next two clock readings. */
  datatype Round = Round(others: seq<Op>, now: Time, later: Time)

  predicate Orderly(clock: Time, rounds: seq<Round>, ticket: nat)
    decreases |rounds|
  {
    rounds != [] ==>
      && Scheduled(clock, rounds[0].others)
      && (forall i :: 0 <= i < |rounds[0].others| ==>
            !(rounds[0].others[i].Poll? && rounds[0].others[i].ticket == ticket))
      && EndOf(clock, rounds[0].others) <= rounds[0].now <= rounds[0].later
      && Orderly(rounds[0].later, rounds[1..], ticket)
  }

  /** The first round of an orderly wait is orderly, and so is what follows it. */
  lemma {:induction false} OrderlyRound(clock: Time, rounds: seq<Round>, ticket: nat)
    requires rounds != [] && Orderly(clock, rounds, ticket)
    ensures Orderly(clock, [rounds[0]], ticket) && Orderly(rounds[0].later, rounds[1..], ticket)
  {
  }

  /** The sections of an acquire: the one that enters, then for each wait what others do and this caller's turn. */
  function Sections(enter: Op, waits: seq<Round>, ticket: nat, deadline: Time): seq<Op> {
    if waits == [] then [enter]
    else
      var last := waits[|waits| - 1];
      Sections(enter, waits[..|waits| - 1], ticket, deadline)
      + (last.others + [Op.Poll(ticket, deadline, last.now, last.later)])
  }

  lemma {:induction false} OneMoreWait(enter: Op, waits: seq<Round>, round: Round, ticket: nat, deadline: Time)
    ensures Sections(enter, waits + [round], ticket, deadline)
         == Sections(enter, waits, ticket, deadline)
            + (round.others + [Op.Poll(ticket, deadline, round.now, round.later)])
  {
    assert (waits + [round])[..|waits|] == waits;
  }

  // ----- Facts about one caller's turns -----

  ghost predicate WaitingAs(l: LaneModel.Lane, ticket: nat, holder: string) {
    Waiter(ticket, holder) in l.waiters
  }

  /** What the last reply says about the lane it left behind. */
  ghost predicate Ends(l: LaneModel.Lane, reply: Reply, ticket: nat, holder: string, clock: Time, deadline: Time) {
    match reply
    case Granted(t) =>
      ticket in l.admitted && t < l.tokens && t in l.leases && l.leases[t] == Lease(holder, clock + l.ttl)
    case TimedOut => ticket in l.expelled && deadline <= clock
    case Blocked(k) => k == ticket && Waiting(l, ticket)
    case _ => false
  }

  /** Where a queueing acquire stands after `waits`: the sections in `trace` are those of its own turns and of the
      others in between, they are a run from `l0` to `l`, and `reply` is what the last turn said. */
  ghost predicate InLine(l0: LaneModel.Lane, clock0: Time, trace: seq<Op>, l: LaneModel.Lane, clock: Time,
                         enter: Op, waits: seq<Round>, reply: Reply)
    requires enter.Enter?
  {
    && Scheduled(clock0, trace) && clock == EndOf(clock0, trace) && l == After(l0, trace)
    && trace == Sections(enter, waits, l0.tickets, enter.deadline)
    && Ends(l, reply, l0.tickets, enter.holder, clock, enter.deadline)
    && (reply.Blocked? ==> WaitingAs(l, l0.tickets, enter.holder))
    && l0.tokens <= l.tokens && (reply.Granted? ==> l0.tokens <= reply.token)
  }

  ghost predicate NeverEntitled(l: LaneModel.Lane, ops: seq<Op>, ticket: nat) {
    forall i :: 0 <= i <= |ops| ==> !Entitled(After(l, ops[..i]), ticket)
  }

  /** How a queueing acquire ends in the lane `l` at `clock`: with a fresh lease for its holder that lasts for a lease
      time; by the timeout, after its deadline and without having been entitled at any moment of its wait;
      or still in the queue, all given waits used up. */
  ghost predicate EndsAs(r: Acquired, l0: LaneModel.Lane, trace: seq<Op>, l: LaneModel.Lane, clock: Time,
                         holder: string, deadline: Time, unused: nat) {
    match r
    case Leased(t) =>
      && l0.tokens <= t < l.tokens && l0.tickets in l.admitted
      && t in l.leases && l.leases[t] == Lease(holder, clock + l.ttl)
    case LaneTimeout =>
      && deadline <= clock && l0.tickets in l.expelled
      && NeverEntitled(l0, trace, l0.tickets)
    case StillWaiting => Waiting(l, l0.tickets) && unused == 0
    case ValueError => false
  }

  lemma {:induction false} TurnsAs(l: LaneModel.Lane, now: Time, ticket: nat, holder: string, deadline: Time,
                                   later: Time)
    requires LaneModel.Valid(l, now) && WaitingAs(l, ticket, holder)
    ensures var (m, reply) := Turn(l, ticket, deadline, later);
            && Ends(m, reply, ticket, holder, later, deadline) && l.tokens <= m.tokens
            && (reply.Blocked? ==> WaitingAs(m, ticket, holder))
            && (reply.Granted? ==> reply.token == l.tokens)
  {
    var i :| 0 <= i < |l.waiters| && l.waiters[i] == Waiter(ticket, holder);
    PositionOf(l.waiters, l.tickets, i);
    assert Waiting(l, ticket);
  }

  lemma {:induction false} EntersAs(l: LaneModel.Lane, before: Time, holder: string, deadline: Time,
                                    now: Time, mid: Time, later: Time)
    requires LaneModel.Valid(l, before) && before <= now <= mid <= later
    ensures var (m, reply) := Apply(l, Op.Enter(holder, deadline, now, mid, later));
            && Ends(m, reply, l.tickets, holder, later, deadline) && l.tokens <= m.tokens
            && (reply.Blocked? ==> WaitingAs(m, l.tickets, holder))
            && (reply.Granted? ==> reply.token == l.tokens)
  {
    ExpireKeepsValid(l, before, now);
    var q := Enqueue(LaneModel.Expire(l, now), holder);
    EnqueueKeepsValid(LaneModel.Expire(l, now), holder, now);
    ExpireKeepsValid(q, now, mid);
    assert q.waiters[|l.waiters|] == Waiter(l.tickets, holder);
    TurnsAs(LaneModel.Expire(q, mid), mid, l.tickets, holder, deadline, later);
  }

  lemma {:induction false} PollsAs(l: LaneModel.Lane, before: Time, ticket: nat, holder: string, deadline: Time,
                                   now: Time, later: Time)
    requires LaneModel.Valid(l, before) && before <= now <= later && WaitingAs(l, ticket, holder)
    ensures var (m, reply) := Apply(l, Op.Poll(ticket, deadline, now, later));
            && Ends(m, reply, ticket, holder, later, deadline) && l.tokens <= m.tokens
            && (reply.Blocked? ==> WaitingAs(m, ticket, holder))
            && (reply.Granted? ==> reply.token == l.tokens)
  {
    ExpireKeepsValid(l, before, now);
    TurnsAs(LaneModel.Expire(l, now), now, ticket, holder, deadline, later);
  }

  lemma {:induction false} OneOtherLeavesIt(l: LaneModel.Lane, before: Time, op: Op, ticket: nat, holder: string)
    requires LaneModel.Valid(l, before) && before <= op.now && Clocked(op) && WaitingAs(l, ticket, holder)
    requires !(op.Poll? && op.ticket == ticket)
    ensures WaitingAs(Apply(l, op).0, ticket, holder) && l.tokens <= Apply(l, op).0.tokens
  {
    if op.Enter? {
      LaneSharing.EnterEffect(l, before, op);
      assert LaneSharing.WaitsAs(l, ticket, holder);
    } else if op.Poll? {
      ExpireKeepsValid(l, before, op.now);
      LaneSharing.TurnFrame(LaneModel.Expire(l, op.now), op.ticket, op.deadline, op.later);
      assert LaneSharing.WaitsAs(LaneModel.Expire(l, op.now), ticket, holder);
    }
  }

  /** Other threads never take this caller's ticket out of the queue. */
  lemma {:induction false} OthersLeaveIt(l: LaneModel.Lane, start: Time, ops: seq<Op>, ticket: nat, holder: string)
    requires LaneModel.Valid(l, start) && Scheduled(start, ops) && WaitingAs(l, ticket, holder)
    requires forall i :: 0 <= i < |ops| ==> !(ops[i].Poll? && ops[i].ticket == ticket)
    ensures WaitingAs(After(l, ops), ticket, holder) && l.tokens <= After(l, ops).tokens
  {
    if ops != [] {
      var before, op := ops[..|ops| - 1], ops[|ops| - 1];
      OthersLeaveIt(l, start, before, ticket, holder);
      RunsStayValid(l, start, before);
      OneOtherLeavesIt(After(l, before), EndOf(start, before), op, ticket, holder);
    }
  }

  /** A caller that timed out was at no moment of the run entitled to a slot. */
  lemma {:induction false} TimedOutNeverEntitled(l: LaneModel.Lane, start: Time, ops: seq<Op>, ticket: nat)
    requires LaneModel.Valid(l, start) && Scheduled(start, ops) && ticket in After(l, ops).expelled
    ensures NeverEntitled(l, ops, ticket)
  {
    forall i | 0 <= i <= |ops|
      ensures !Entitled(After(l, ops[..i]), ticket)
    {
      SplitRun(l, start, ops, i);
      PrefixScheduled(start, ops, i);
      RunsStayValid(l, start, ops[..i]);
      if Entitled(After(l, ops[..i]), ticket) {
        EntitledUntilAdmitted(After(l, ops[..i]), EndOf(start, ops[..i]), ops[i..], ticket);
      }
    }
  }

  lemma EnterActivity(l: LaneModel.Lane, op: Op, last: Time)
    requires op.Enter?
    ensures Activity(l, op, last)
         == if Apply(l, op).1.Granted? then op.later
            else Swept(Enqueue(LaneModel.Expire(l, op.now), op.holder), op.mid, Swept(l, op.now, last))
  {
  }

  // ----- The object -----

  class Lane {
    const capacity: nat
    const leaseSeconds: Time
    var leases: map<nat, Lease>
    var waiters: seq<Waiter>
    var lastActivity: Time
    // Stand-ins for the random ticket and token sources.
    var tickets: nat
    var tokens: nat
    // History, and the latest clock reading taken under the monitor.
    ghost var admitted: seq<nat>
    ghost var expelled: set<nat>
    ghost var renewed: map<nat, Time>
    ghost var released: set<nat>
    ghost var clock: Time

    ghost function State(): LaneModel.Lane
      reads this
    {
      LaneModel.Lane(capacity, leaseSeconds, leases, waiters, tickets, tokens, admitted, expelled, renewed, released)
    }

    ghost predicate Valid()
      reads this
    {
      LaneModel.Valid(State(), clock)
    }

    constructor (capacity: nat, leaseSeconds: Time, now: Time)
      requires capacity >= 1 && leaseSeconds > 0.0
      ensures Valid() && State() == New(capacity, leaseSeconds) && clock == now && lastActivity == now
    {
      this.capacity, this.leaseSeconds := capacity, leaseSeconds;
      leases, waiters, lastActivity, tickets, tokens := map[], [], now, 0, 0;
      admitted, expelled, renewed, released, clock := [], {}, map[], {}, now;
      new;
      NewIsValid(capacity, leaseSeconds, now);
    }

    method Sweep(now: Time)
      modifies `leases, `lastActivity
      ensures leases == Live(old(leases), now)
      ensures lastActivity == if leases == old(leases) then old(lastActivity) else now
    {
      var expired := set t | t in leases && leases[t].expires <= now;
      SweepIsLive(leases, now);
      var todo := expired;
      while todo != {}
        invariant todo <= expired
        invariant leases == old(leases) - (expired - todo) && lastActivity == old(lastActivity)
        decreases |todo|
      {
        var t :| t in todo;
        leases := leases - {t};
        todo := todo - {t};
      }
      assert expired - todo == expired;
      if expired != {} {
        ghost var t :| t in expired;
        assert t in old(leases) && t !in leases;
        lastActivity := now;
      }
    }

    /** The sweep that opens every section. */
    method Expire(now: Time)
      requires Valid() && clock <= now
      modifies `leases, `lastActivity, `clock
      ensures Valid() && State() == LaneModel.Expire(old(State()), now) && clock == now
      ensures lastActivity == Swept(old(State()), now, old(lastActivity))
    {
      ExpireKeepsValid(State(), clock, now);
      Sweep(now);
      clock := now;
    }

    method Find(ticket: nat) returns (p: nat)
      ensures p == Position(waiters, ticket)
    {
      p := 0;
      while p < |waiters| && waiters[p].ticket != ticket
        invariant p <= |waiters|
        invariant Position(waiters, ticket) == p + Position(waiters[p..], ticket)
      {
        assert waiters[p..][1..] == waiters[p + 1..];
        p := p + 1;
      }
    }

    /** The `finally` clause of acquire. */
    method Forget(ticket: nat)
      modifies this`waiters
      ensures waiters == Without(old(waiters), ticket)
    {
      var kept: seq<Waiter> := [];
      var i := 0;
      while i < |waiters|
        invariant 0 <= i <= |waiters|
        invariant waiters == old(waiters)
        invariant kept == Without(waiters[..i], ticket)
      {
        assert waiters[..i + 1][..i] == waiters[..i];
        if waiters[i].ticket != ticket {
          kept := kept + [waiters[i]];
        }
        i := i + 1;
      }
      assert waiters[..i] == waiters;
      waiters := kept;
    }

    /** The `finally` clause finds nothing left of a ticket that was popped. */
    method ForgetPopped(ticket: nat, ghost queue: seq<Waiter>, ghost p: nat)
      requires Ordered(queue, tickets) && p < |queue| && queue[p].ticket == ticket && waiters == Drop(queue, p)
      modifies `waiters
      ensures waiters == old(waiters)
    {
      DroppedIsAbsent(queue, tickets, p);
      Forget(ticket);
    }

    /** A new token for `holder`, recorded as the admission of `ticket`. */
    method Lend(ghost ticket: nat, holder: string, later: Time) returns (token: nat)
      modifies `leases, `tokens, `lastActivity, `admitted, `renewed
      ensures token == old(tokens) && tokens == token + 1
      ensures leases == old(leases)[token := Lease(holder, later + leaseSeconds)]
      ensures admitted == old(admitted) + [ticket] && renewed == old(renewed)[token := later] && lastActivity == later
    {
      token := tokens;
      tokens := tokens + 1;
      leases := leases[token := Lease(holder, later + leaseSeconds)];
      lastActivity := later;
      admitted, renewed := admitted + [ticket], renewed[token := later];
    }

    method Admit(p: nat, later: Time) returns (token: nat)
      requires p < |waiters| && Ordered(waiters, tickets)
      modifies this
      ensures State() == Grant(old(State()), p, later) && token == old(tokens) && clock == old(clock)
      ensures lastActivity == later
    {
      ghost var queue := waiters;
      var Waiter(ticket, holder) := waiters[p];
      waiters := waiters[..p] + waiters[p + 1..];
      token := Lend(ticket, holder, later);
      ForgetPopped(ticket, queue, p);
    }

    method GiveUp(ticket: nat, ghost p: nat)
      requires p < |waiters| && waiters[p].ticket == ticket && Ordered(waiters, tickets)
      modifies this
      ensures State() == Expel(old(State()), p) && clock == old(clock) && lastActivity == old(lastActivity)
    {
      WithoutIsDrop(waiters, tickets, p);
      expelled := expelled + {ticket};
      Forget(ticket);
    }

    /** One pass through the body of the acquire loop, after its sweep. */
    method TakeTurn(ticket: nat, deadline: Time, later: Time) returns (reply: Reply)
      requires Valid() && clock <= later
      modifies this
      ensures Valid() && clock == later
      ensures State() == Turn(old(State()), ticket, deadline, later).0
      ensures reply == Turn(old(State()), ticket, deadline, later).1
      ensures lastActivity == if reply.Granted? then later else old(lastActivity)
    {
      TurnKeepsValid(State(), ticket, deadline, clock, later);
      var p := Find(ticket);
      if p == |waiters| {
        reply := NoTicket;
      } else if p + |leases| < capacity {
        var token := Admit(p, later);
        reply := Granted(token);
      } else if deadline <= later {
        GiveUp(ticket, p);
        reply := TimedOut;
      } else {
        reply := Blocked(ticket);
      }
      clock := later;
    }

    method LineUp(holder: string) returns (ticket: nat)
      requires Valid()
      modifies `waiters, `tickets
      ensures Valid() && State() == Enqueue(old(State()), holder) && ticket == old(tickets)
    {
      EnqueueKeepsValid(State(), holder, clock);
      ticket := tickets;
      tickets := tickets + 1;
      waiters := waiters + [Waiter(ticket, holder)];
    }

    method Enter(holder: string, deadline: Time, now: Time, mid: Time, later: Time) returns (reply: Reply)
      requires Valid() && clock <= now <= mid <= later
      modifies this
      ensures Valid() && clock == later
      ensures State() == Apply(old(State()), Op.Enter(holder, deadline, now, mid, later)).0
      ensures reply == Apply(old(State()), Op.Enter(holder, deadline, now, mid, later)).1
      ensures lastActivity == Activity(old(State()), Op.Enter(holder, deadline, now, mid, later), old(lastActivity))
    {
      EnterActivity(State(), Op.Enter(holder, deadline, now, mid, later), lastActivity);
      Expire(now);
      var ticket := LineUp(holder);
      Expire(mid);
      reply := TakeTurn(ticket, deadline, later);
    }

    method Poll(ticket: nat, deadline: Time, now: Time, later: Time) returns (reply: Reply)
      requires Valid() && clock <= now <= later
      modifies this
      ensures Valid() && clock == later
      ensures State() == Apply(old(State()), Op.Poll(ticket, deadline, now, later)).0
      ensures reply == Apply(old(State()), Op.Poll(ticket, deadline, now, later)).1
      ensures lastActivity == Activity(old(State()), Op.Poll(ticket, deadline, now, later), old(lastActivity))
    {
      Expire(now);
      reply := TakeTurn(ticket, deadline, later);
    }

    method Extend(token: nat, later: Time)
      requires token in leases
      modifies `leases, `renewed, `lastActivity
      ensures State() == Renew(old(State()), token, later) && lastActivity == later
    {
      leases := leases[token := leases[token].(expires := later + leaseSeconds)];
      renewed := renewed[token := later];
      lastActivity := later;
    }

    /** Sets a new expiry for a lease, if `holder` has it. */
    method Touch(holder: string, token: nat, now: Time, later: Time) returns (ok: bool)
      requires Valid() && clock <= now <= later
      modifies this
      ensures Valid() && clock == later
      ensures var e := LaneModel.Expire(old(State()), now);
              && (ok <==> HeldBy(e, holder, token))
              && State() == (if ok then Renew(e, token, later) else e)
              && lastActivity == if ok then later else Swept(old(State()), now, old(lastActivity))
    {
      Expire(now);
      if token !in leases || leases[token].holder != holder {
        TimePasses(State(), now, later);
        ok := false;
      } else {
        RenewKeepsValid(State(), token, now, later);
        Extend(token, later);
        ok := true;
      }
      clock := later;
    }

    method Reenter(holder: string, token: nat, now: Time, later: Time) returns (reply: Reply)
      requires Valid() && clock <= now <= later
      modifies this
      ensures Valid() && clock == later
      ensures State() == Apply(old(State()), Op.Reenter(holder, token, now, later)).0
      ensures reply == Apply(old(State()), Op.Reenter(holder, token, now, later)).1
      ensures lastActivity == Activity(old(State()), Op.Reenter(holder, token, now, later), old(lastActivity))
    {
      var ok := Touch(holder, token, now, later);
      reply := if ok then Granted(token) else BadReentry;
    }

    method Heartbeat(holder: string, token: nat, now: Time, later: Time) returns (ok: bool)
      requires Valid() && clock <= now <= later
      modifies this
      ensures Valid() && clock == later
      ensures State() == Apply(old(State()), Beat(holder, token, now, later)).0
      ensures Answer(ok) == Apply(old(State()), Beat(holder, token, now, later)).1
      ensures lastActivity == Activity(old(State()), Beat(holder, token, now, later), old(lastActivity))
    {
      ok := Touch(holder, token, now, later);
    }

    method Discard(token: nat, later: Time)
      modifies `leases, `released, `lastActivity
      ensures State() == Remove(old(State()), token) && lastActivity == later
    {
      leases := leases - {token};
      released := released + {token};
      lastActivity := later;
    }

    method Release(holder: string, token: nat, now: Time, later: Time) returns (ok: bool)
      requires Valid() && clock <= now <= later
      modifies this
      ensures Valid() && clock == later
      ensures State() == Apply(old(State()), Free(holder, token, now, later)).0
      ensures Answer(ok) == Apply(old(State()), Free(holder, token, now, later)).1
      ensures lastActivity == Activity(old(State()), Free(holder, token, now, later), old(lastActivity))
    {
      Expire(now);
      if token !in leases || leases[token].holder != holder {
        TimePasses(State(), now, later);
        clock := later;
        return false;
      }
      RemoveKeepsValid(State(), token, now);
      Discard(token, later);
      TimePasses(State(), now, later);
      clock := later;
      return true;
    }

    /** The counts of `status()`, and how long the lane has been idle at the reading `later`. */
    method Status(now: Time, later: Time) returns (reply: Reply, idleSeconds: Time)
      requires Valid() && clock <= now <= later
      modifies this
      ensures Valid() && clock == later
      ensures State() == Apply(old(State()), Count(now, later)).0
      ensures reply == Apply(old(State()), Count(now, later)).1
      ensures lastActivity == Activity(old(State()), Count(now, later), old(lastActivity))
      ensures idleSeconds >= 0.0 && (lastActivity <= later ==> idleSeconds == later - lastActivity)
    {
      Expire(now);
      TimePasses(State(), now, later);
      clock := later;
      reply := Counts(capacity, |leases|, |waiters|, leases == map[] && waiters == []);
      idleSeconds := if lastActivity <= later then later - lastActivity else 0.0;
    }

    /** Any monitor section. */
    method Serve(op: Op) returns (reply: Reply)
      requires Valid() && clock <= op.now && Clocked(op)
      modifies this
      ensures Valid() && clock == op.later
      ensures State() == Apply(old(State()), op).0 && reply == Apply(old(State()), op).1
      ensures lastActivity == Activity(old(State()), op, old(lastActivity))
    {
      match op
      case Enter(holder, deadline, now, mid, later) => reply := Enter(holder, deadline, now, mid, later);
      case Poll(ticket, deadline, now, later) => reply := Poll(ticket, deadline, now, later);
      case Reenter(holder, token, now, later) => reply := Reenter(holder, token, now, later);
      case Beat(holder, token, now, later) =>
        var ok := Heartbeat(holder, token, now, later);
        reply := Answer(ok);
      case Free(holder, token, now, later) =>
        var ok := Release(holder, token, now, later);
        reply := Answer(ok);
      case Count(now, later) =>
        var idle;
        reply, idle := Status(now, later);
    }

    /** What other threads do to the lane while this one waits. */
    method ServeAll(ops: seq<Op>)
      requires Valid() && Scheduled(clock, ops)
      modifies this
      ensures Valid() && clock == EndOf(old(clock), ops) && State() == After(old(State()), ops)
      ensures lastActivity == ActivityAfter(old(State()), ops, old(lastActivity))
    {
      var i := 0;
      while i < |ops|
        invariant 0 <= i <= |ops|
        invariant Valid() && clock == EndOf(old(clock), ops[..i]) && State() == After(old(State()), ops[..i])
        invariant lastActivity == ActivityAfter(old(State()), ops[..i], old(lastActivity))
      {
        assert ops[..i + 1][..i] == ops[..i];
        NextInRun(old(State()), old(clock), ops, i);
        var reply := Serve(ops[i]);
        i := i + 1;
      }
      assert ops[..i] == ops;
    }

    /** The first section of a queueing acquire. */
    method Begin(enter: Op) returns (reply: Reply, ghost trace: seq<Op>)
      requires Valid() && enter.Enter? && clock <= enter.now && Clocked(enter)
      modifies this
      ensures Valid() && clock == enter.later
      ensures InLine(old(State()), old(clock), trace, State(), clock, enter, [], reply)
    {
      var Enter(holder, deadline, now, mid, later) := enter;
      EntersAs(State(), clock, holder, deadline, now, mid, later);
      trace := [enter];
      assert trace[..0] == [];
      reply := Enter(holder, deadline, now, mid, later);
    }

    /** One wait, during which others run, and the turn after it. */
    method WaitAndPoll(ticket: nat, holder: string, deadline: Time, round: Round)
      returns (reply: Reply, ghost trace: seq<Op>)
      requires Valid() && Orderly(clock, [round], ticket) && WaitingAs(State(), ticket, holder)
      modifies this
      ensures Valid() && Scheduled(old(clock), trace) && clock == EndOf(old(clock), trace) == round.later
      ensures State() == After(old(State()), trace)
      ensures Ends(State(), reply, ticket, holder, clock, deadline)
      ensures old(tokens) <= tokens && (reply.Granted? ==> old(tokens) <= reply.token)
      ensures reply.Blocked? ==> WaitingAs(State(), ticket, holder)
      ensures trace == round.others + [Op.Poll(ticket, deadline, round.now, round.later)]
    {
      ghost var l0, clock0 := State(), clock;
      OthersLeaveIt(l0, clock0, round.others, ticket, holder);
      ServeAll(round.others);
      PollsAs(State(), clock, ticket, holder, deadline, round.now, round.later);
      var poll := Op.Poll(ticket, deadline, round.now, round.later);
      trace := round.others + [poll];
      assert trace[..|round.others|] == round.others;
      reply := Poll(ticket, deadline, round.now, round.later);
    }

    /** One more wait and turn, the `i`th, after the sections run since `clock0`. */
    method Again(ghost l0: LaneModel.Lane, ghost clock0: Time, ghost before: seq<Op>,
                 enter: Op, ticket: nat, rounds: seq<Round>, i: nat)
      returns (reply: Reply, ghost trace: seq<Op>)
      requires Valid() && enter.Enter? && ticket == l0.tickets && i < |rounds|
      requires InLine(l0, clock0, before, State(), clock, enter, rounds[..i], Reply.Blocked(ticket))
      requires Orderly(clock, rounds[i..], ticket)
      modifies this
      ensures Valid() && Orderly(clock, rounds[i + 1..], ticket)
      ensures InLine(l0, clock0, trace, State(), clock, enter, rounds[..i + 1], reply)
    {
      OrderlyRound(clock, rounds[i..], ticket);
      assert rounds[i..][0] == rounds[i] && rounds[i..][1..] == rounds[i + 1..];
      OneMoreWait(enter, rounds[..i], rounds[i], ticket, enter.deadline);
      assert rounds[..i + 1] == rounds[..i] + [rounds[i]];
      ghost var more;
      reply, more := WaitAndPoll(ticket, enter.holder, enter.deadline, rounds[i]);
      JoinRuns(l0, clock0, before, more);
      trace := before + more;
    }

    /** The queueing part of acquire: one section that enters, then one per wait, `waits` of them, until a turn decides
        or the given rounds are used up. */
    method Await(enter: Op, rounds: seq<Round>) returns (reply: Reply, ghost trace: seq<Op>, ghost waits: nat)
      requires Valid() && enter.Enter? && clock <= enter.now && Clocked(enter)
      requires Orderly(enter.later, rounds, tickets)
      modifies this
      ensures Valid() && waits <= |rounds| && (reply.Blocked? ==> waits == |rounds|)
      ensures InLine(old(State()), old(clock), trace, State(), clock, enter, rounds[..waits], reply)
    {
      ghost var l0, clock0 := State(), clock;
      var ticket := tickets;
      reply, trace := Begin(enter);
      var i := 0;
      while reply.Blocked? && i < |rounds|
        invariant 0 <= i <= |rounds|
        invariant Valid() && InLine(l0, clock0, trace, State(), clock, enter, rounds[..i], reply)
        invariant reply.Blocked? ==> Orderly(clock, rounds[i..], ticket)
      {
        reply, trace := Again(l0, clock0, trace, enter, ticket, rounds, i);
        i := i + 1;
      }
      waits := i;
    }

    /** acquire without a token. */
    method Queue(enter: Op, rounds: seq<Round>) returns (r: Acquired, ghost trace: seq<Op>, ghost waits: nat)
      requires Valid() && enter.Enter? && clock <= enter.now && Clocked(enter)
      requires Orderly(enter.later, rounds, tickets)
      modifies this
      ensures Valid() && Scheduled(old(clock), trace) && clock == EndOf(old(clock), trace)
      ensures State() == After(old(State()), trace)
      ensures waits <= |rounds| && trace == Sections(enter, rounds[..waits], old(tickets), enter.deadline)
      ensures EndsAs(r, old(State()), trace, State(), clock, enter.holder, enter.deadline, |rounds| - waits)
    {
      ghost var l0, clock0 := State(), clock;
      var reply;
      reply, trace, waits := Await(enter, rounds);
      match reply
      case Granted(t) => r := Leased(t);
      case TimedOut =>
        TimedOutNeverEntitled(l0, clock0, trace, l0.tickets);
        r := LaneTimeout;
      case _ => r := StillWaiting;
    }

    /** acquire with a token. */
    method Resume(holder: string, token: nat, now: Time, later: Time) returns (r: Acquired, ghost trace: seq<Op>)
      requires Valid() && clock <= now <= later
      modifies this
      ensures Valid() && Scheduled(old(clock), trace) && clock == EndOf(old(clock), trace)
      ensures State() == After(old(State()), trace) && trace == [Op.Reenter(holder, token, now, later)]
      ensures r == if HeldBy(LaneModel.Expire(old(State()), now), holder, token) then Leased(token) else ValueError
    {
      trace := [Op.Reenter(holder, token, now, later)];
      assert trace[..0] == [];
      var reply := Reenter(holder, token, now, later);
      r := if reply.Granted? then Leased(token) else ValueError;
    }

    /** The whole of acquire(holder, timeout_seconds, token). `start` is the reading its deadline is computed from,
        `now`, `mid` and `later` those of its first section, and `rounds` what happens during each wait.
        `trace` lists the sections run, by this caller and by the others, in order, over `waits` of the rounds. */
    method Acquire(holder: string, timeoutSeconds: Time, token: Option<nat>,
                   start: Time, now: Time, mid: Time, later: Time, rounds: seq<Round>)
      returns (r: Acquired, ghost trace: seq<Op>, ghost waits: nat)
      requires Valid() && start <= now && clock <= now <= mid <= later && Orderly(later, rounds, tickets)
      modifies this
      ensures Valid() && Scheduled(old(clock), trace) && clock == EndOf(old(clock), trace)
      ensures State() == After(old(State()), trace)
      ensures r.ValueError? <==> || holder == "" || timeoutSeconds < 0.0
                                 || (token.Some? && !HeldBy(LaneModel.Expire(old(State()), now), holder, token.value))
      ensures holder == "" || timeoutSeconds < 0.0 ==> trace == []
      ensures r.Leased? && token.Some? ==> r.token == token.value
      ensures waits <= |rounds| && (r.ValueError? || r.Leased? || token.None?)
      ensures !r.ValueError? && token.None? ==>
                var enter := Op.Enter(holder, start + timeoutSeconds, now, mid, later);
                && trace == Sections(enter, rounds[..waits], old(tickets), enter.deadline)
                && EndsAs(r, old(State()), trace, State(), clock, enter.holder, enter.deadline, |rounds| - waits)
    {
      trace, waits := [], 0;
      if holder == "" || timeoutSeconds < 0.0 {
        return ValueError, trace, 0;
      }
      if token.Some? {
        r, trace := Resume(holder, token.value, now, later);
        return;
      }
      r, trace, waits := Queue(Op.Enter(holder, start + timeoutSeconds, now, mid, later), rounds);
    }
  }
}
