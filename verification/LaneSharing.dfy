/** What one caller's lane section leaves alone: everything that belongs to the other callers. */
module LaneSharing {
  import opened Basics
  import opened LaneModel

  predicate WaitsAs(l: Lane, ticket: nat, holder: string) {
    Waiter(ticket, holder) in l.waiters
  }

  predicate SameLeaseOrLess(l: Lane, m: Lane, t: nat) {
    && (t in m.leases ==> t in l.leases && m.leases[t].holder == l.leases[t].holder)
    && (t in m.released ==> t in l.released)
  }

  /** From `l` to `m`, only the given token and ticket may have been touched. */
  ghost predicate Frame(l: Lane, m: Lane, token: Option<nat>, ticket: Option<nat>) {
    && m.capacity == l.capacity && m.ttl == l.ttl
    && l.tokens <= m.tokens
    && (forall t: nat {:trigger SameLeaseOrLess(l, m, t)} ::
          t < l.tokens && token != Some(t) ==> SameLeaseOrLess(l, m, t))
    && (forall k: nat, h {:trigger WaitsAs(m, k, h)} {:trigger WaitsAs(l, k, h)} ::
          WaitsAs(l, k, h) && ticket != Some(k) ==> WaitsAs(m, k, h))
  }

  lemma {:induction false} DropKeepsOthers(ws: seq<Waiter>, p: nat, w: Waiter)
    requires p < |ws| && w in ws && w != ws[p]
    ensures w in Drop(ws, p)
  {
    var i :| 0 <= i < |ws| && ws[i] == w;
    assert Drop(ws, p)[if i < p then i else i - 1] == w;
  }

  lemma {:induction false} TurnFrame(l: Lane, ticket: nat, deadline: Time, later: Time)
    requires Ordered(l.waiters, l.tickets)
    ensures Frame(l, Turn(l, ticket, deadline, later).0, None, Some(ticket))
  {
    var m := Turn(l, ticket, deadline, later).0;
    var p := Position(l.waiters, ticket);
    forall k: nat, h | WaitsAs(l, k, h) && ticket != k
      ensures WaitsAs(m, k, h)
    {
      if p < |l.waiters| {
        DropKeepsOthers(l.waiters, p, Waiter(k, h));
      }
    }
  }

  /** How a turn can end for the caller waiting as `holder` under `ticket`. */
  ghost predicate TurnOutcome(l: Lane, m: Lane, reply: Reply, ticket: nat, holder: string) {
    match reply
    case Granted(t) =>
      && t == l.tokens < m.tokens
      && (t in m.leases ==> m.leases[t].holder == holder)
      && t !in m.released
    case TimedOut => true
    case Blocked(k) => k == ticket && WaitsAs(m, k, holder)
    case _ => false
  }

  lemma {:induction false} TurnEnds(l: Lane, now: Time, ticket: nat, holder: string, deadline: Time, later: Time)
    requires Valid(l, now) && WaitsAs(l, ticket, holder)
    ensures var (m, reply) := Turn(l, ticket, deadline, later); TurnOutcome(l, m, reply, ticket, holder)
  {
    var i :| 0 <= i < |l.waiters| && l.waiters[i] == Waiter(ticket, holder);
    PositionOf(l.waiters, l.tickets, i);
    assert l.tokens !in l.released;
  }

  lemma {:induction false} EnterEffect(l: Lane, before: Time, op: Op)
    requires Valid(l, before) && before <= op.now && Clocked(op) && op.Enter?
    ensures var (m, reply) := Apply(l, op);
            Frame(l, m, None, None) && TurnOutcome(l, m, reply, l.tickets, op.holder)
  {
    ExpireKeepsValid(l, before, op.now);
    var e := Expire(l, op.now);
    EnqueueKeepsValid(e, op.holder, op.now);
    var q := Enqueue(e, op.holder);
    ExpireKeepsValid(q, op.now, op.mid);
    var t := Expire(q, op.mid);
    assert t.waiters[|l.waiters|] == Waiter(l.tickets, op.holder);
    TurnEnds(t, op.mid, l.tickets, op.holder, op.deadline, op.later);
    TurnFrame(t, l.tickets, op.deadline, op.later);
    var m := Apply(l, op).0;
    forall k: nat, h | WaitsAs(l, k, h)
      ensures WaitsAs(m, k, h)
    {
      var i :| 0 <= i < |l.waiters| && l.waiters[i] == Waiter(k, h);
      assert t.waiters[i] == Waiter(k, h) && WaitsAs(t, k, h);
    }
    forall u: nat | u < l.tokens
      ensures SameLeaseOrLess(l, m, u)
    {
      assert SameLeaseOrLess(t, m, u);
    }
  }

  lemma {:induction false} PollEffect(l: Lane, before: Time, op: Op, holder: string)
    requires Valid(l, before) && before <= op.now && Clocked(op) && op.Poll?
    requires WaitsAs(l, op.ticket, holder)
    ensures var (m, reply) := Apply(l, op);
            Frame(l, m, None, Some(op.ticket)) && TurnOutcome(l, m, reply, op.ticket, holder)
  {
    ExpireKeepsValid(l, before, op.now);
    var e := Expire(l, op.now);
    TurnEnds(e, op.now, op.ticket, holder, op.deadline, op.later);
    TurnFrame(e, op.ticket, op.deadline, op.later);
    var m := Apply(l, op).0;
    forall k: nat, h | WaitsAs(l, k, h) && k != op.ticket
      ensures WaitsAs(m, k, h)
    {
      assert WaitsAs(e, k, h);
    }
    forall u: nat | u < l.tokens
      ensures SameLeaseOrLess(l, m, u)
    {
      assert SameLeaseOrLess(e, m, u);
    }
  }

  /** A heartbeat, a release or a status read: nobody enters or leaves the queue, at most one lease is touched,
      and it keeps its holder. */
  lemma {:induction false} TokenEffect(l: Lane, op: Op)
    requires op.Beat? || op.Free? || op.Count?
    ensures Frame(l, Apply(l, op).0, if op.Count? then None else Some(op.token), None)
    ensures Apply(l, op).0.waiters == l.waiters && Apply(l, op).0.tokens == l.tokens
    ensures !op.Count? && op.token in Apply(l, op).0.leases ==>
              op.token in l.leases && Apply(l, op).0.leases[op.token].holder == l.leases[op.token].holder
    ensures !op.Free? ==> Apply(l, op).0.released == l.released
  {
  }
}
