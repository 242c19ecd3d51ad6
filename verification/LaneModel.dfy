/** The ticket lane of aalp/lane.py on values: one function per monitor section.
    Tickets and tokens, random strings in the program, are numbered in order of issue. */
module LaneModel {
  import opened Basics

  datatype Lease = Lease(holder: string, expires: Time)

  datatype Waiter = Waiter(ticket: nat, holder: string)

  /** `leases` and `waiters` are the program's state; `tickets` and `tokens` count what has been issued.
      The rest is history: tickets in admission order, tickets that timed out,
      the last clock reading at which each token was granted or renewed, and tokens freed by a release. */
  datatype Lane = Lane(
    capacity: nat,
    ttl: Time,
    leases: map<nat, Lease>,
    waiters: seq<Waiter>,
    tickets: nat,
    tokens: nat,
    admitted: seq<nat>,
    expelled: set<nat>,
    renewed: map<nat, Time>,
    released: set<nat>)

  /** A monitor section. `now` is the clock reading of its first expiry sweep; `later` is the reading it uses
      afterwards for a new expiry or for the remaining time. `Enter` sweeps twice, at `now` and at `mid`. */
  datatype Op =
    | Enter(holder: string, deadline: Time, now: Time, mid: Time, later: Time)
    | Poll(ticket: nat, deadline: Time, now: Time, later: Time)
    | Reenter(holder: string, token: nat, now: Time, later: Time)
    | Beat(holder: string, token: nat, now: Time, later: Time)
    | Free(holder: string, token: nat, now: Time, later: Time)
    | Count(now: Time, later: Time)

  datatype Reply =
    | Granted(token: nat)
    | TimedOut
    | Blocked(ticket: nat)
    | NoTicket
    | Answer(ok: bool)
    | BadReentry
    | Counts(capacity: nat, leased: nat, queued: nat, idle: bool)

  function New(capacity: nat, ttl: Time): Lane {
    Lane(capacity, ttl, map[], [], 0, 0, [], {}, map[], {})
  }

  // ----- Monitor sections -----

  function Live(leases: map<nat, Lease>, now: Time): map<nat, Lease> {
    map t | t in leases && leases[t].expires > now :: leases[t]
  }

  function Expire(l: Lane, now: Time): Lane {
    l.(leases := Live(l.leases, now))
  }

  function Position(ws: seq<Waiter>, ticket: nat): (p: nat)
    ensures p <= |ws|
    ensures p < |ws| ==> ws[p].ticket == ticket
    ensures forall i :: 0 <= i < p ==> ws[i].ticket != ticket
  {
    if ws == [] then 0
    else if ws[0].ticket == ticket then 0
    else 1 + Position(ws[1..], ticket)
  }

  function Drop(ws: seq<Waiter>, p: nat): seq<Waiter>
    requires p < |ws|
  {
    ws[..p] + ws[p + 1..]
  }

  function Enqueue(l: Lane, holder: string): Lane {
    l.(waiters := l.waiters + [Waiter(l.tickets, holder)], tickets := l.tickets + 1)
  }

  function Grant(l: Lane, p: nat, later: Time): Lane
    requires p < |l.waiters|
  {
    var w := l.waiters[p];
    l.(waiters := Drop(l.waiters, p),
       leases := l.leases[l.tokens := Lease(w.holder, later + l.ttl)],
       tokens := l.tokens + 1,
       admitted := l.admitted + [w.ticket],
       renewed := l.renewed[l.tokens := later])
  }

  function Expel(l: Lane, p: nat): Lane
    requires p < |l.waiters|
  {
    l.(waiters := Drop(l.waiters, p), expelled := l.expelled + {l.waiters[p].ticket})
  }

  /** One turn of the acquire loop, after its sweep. */
  function Turn(l: Lane, ticket: nat, deadline: Time, later: Time): (Lane, Reply) {
    var p := Position(l.waiters, ticket);
    if p == |l.waiters| then (l, NoTicket)
    else if p + |l.leases| < l.capacity then (Grant(l, p, later), Granted(l.tokens))
    else if deadline <= later then (Expel(l, p), TimedOut)
    else (l, Blocked(ticket))
  }

  predicate HeldBy(l: Lane, holder: string, token: nat) {
    token in l.leases && l.leases[token].holder == holder
  }

  function Renew(l: Lane, token: nat, later: Time): Lane
    requires token in l.leases
  {
    l.(leases := l.leases[token := l.leases[token].(expires := later + l.ttl)],
       renewed := l.renewed[token := later])
  }

  function Remove(l: Lane, token: nat): Lane {
    l.(leases := l.leases - {token}, released := l.released + {token})
  }

  function Apply(l: Lane, op: Op): (Lane, Reply) {
    var e := Expire(l, op.now);
    match op
    case Enter(holder, deadline, _, mid, later) =>
      Turn(Expire(Enqueue(e, holder), mid), l.tickets, deadline, later)
    case Poll(ticket, deadline, _, later) => Turn(e, ticket, deadline, later)
    case Reenter(holder, token, _, later) =>
      if HeldBy(e, holder, token) then (Renew(e, token, later), Granted(token)) else (e, BadReentry)
    case Beat(holder, token, _, later) =>
      if HeldBy(e, holder, token) then (Renew(e, token, later), Answer(true)) else (e, Answer(false))
    case Free(holder, token, _, _) =>
      if HeldBy(e, holder, token) then (Remove(e, token), Answer(true)) else (e, Answer(false))
    case Count(_, _) =>
      (e, Counts(e.capacity, |e.leases|, |e.waiters|, e.leases == map[] && e.waiters == []))
  }

  /** The last activity after a sweep: the sweep's reading if it removed a lease. */
  function Swept(l: Lane, now: Time, last: Time): Time {
    if Expire(l, now) == l then last else now
  }

  /** The last activity after a section. */
  function Activity(l: Lane, op: Op, last: Time): Time {
    var e, first := Expire(l, op.now), Swept(l, op.now, last);
    var reply := Apply(l, op).1;
    if reply.Granted? || reply == Answer(true) then op.later
    else if op.Enter? then Swept(Enqueue(e, op.holder), op.mid, first)
    else first
  }

  /** The readings inside one section do not go backwards. */
  predicate Clocked(op: Op) {
    op.now <= op.later && (op.Enter? ==> op.now <= op.mid <= op.later)
  }

  // ----- Invariant -----

  predicate Ordered(ws: seq<Waiter>, bound: nat) {
    && (forall i :: 0 <= i < |ws| ==> ws[i].ticket < bound)
    && (forall i, j :: 0 <= i < j < |ws| ==> ws[i].ticket < ws[j].ticket)
  }

  ghost predicate Waiting(l: Lane, ticket: nat) {
    exists i :: 0 <= i < |l.waiters| && l.waiters[i].ticket == ticket
  }

  /** Every ticket ever issued is waiting, admitted or timed out, and only one of these. */
  ghost predicate TicketsAccounted(l: Lane) {
    && Ordered(l.waiters, l.tickets)
    && (forall k: nat {:trigger Waiting(l, k)} ::
          k < l.tickets <==> Waiting(l, k) || k in l.admitted || k in l.expelled)
    && (forall k: nat {:trigger Waiting(l, k)} :: Waiting(l, k) ==> k !in l.admitted && k !in l.expelled)
    && (forall k: nat {:trigger k in l.expelled} :: k in l.expelled ==> k !in l.admitted)
    && (forall i, j :: 0 <= i < j < |l.admitted| ==> l.admitted[i] != l.admitted[j])
  }

  /** Every token ever granted is leased until `ttl` after its last renewal unless it was released before. */
  ghost predicate TokensAccounted(l: Lane, now: Time) {
    && (forall t: nat {:trigger t in l.renewed} :: t in l.renewed <==> t < l.tokens)
    && (forall t {:trigger t in l.leases} :: t in l.leases ==>
          t in l.renewed && t !in l.released && l.leases[t].expires == l.renewed[t] + l.ttl)
    && (forall t {:trigger t in l.renewed} :: t in l.renewed ==>
          t in l.leases || t in l.released || l.renewed[t] + l.ttl <= now)
    && (forall t {:trigger t in l.released} :: t in l.released ==> t in l.renewed)
  }

  ghost predicate Valid(l: Lane, now: Time) {
    && l.capacity >= 1
    && l.ttl > 0.0
    && |l.leases| <= l.capacity
    && TicketsAccounted(l)
    && TokensAccounted(l, now)
  }

  lemma {:induction false} PositionOf(ws: seq<Waiter>, bound: nat, i: nat)
    requires Ordered(ws, bound) && i < |ws|
    ensures Position(ws, ws[i].ticket) == i
  {
    assert Position(ws, ws[i].ticket) <= i;
  }

  lemma {:induction false} ExpireKeepsValid(l: Lane, before: Time, now: Time)
    requires Valid(l, before) && before <= now
    ensures Valid(Expire(l, now), now)
  {
    var e := Expire(l, now);
    SubsetCardinality(e.leases.Keys, l.leases.Keys);
    assert forall k: nat :: Waiting(e, k) == Waiting(l, k);
  }

  lemma {:induction false} TimePasses(l: Lane, before: Time, now: Time)
    requires Valid(l, before) && before <= now
    ensures Valid(l, now)
  {
  }

  /** A newcomer waits behind everyone else. */
  lemma {:induction false} EnqueueAdds(l: Lane, holder: string)
    requires Ordered(l.waiters, l.tickets)
    ensures var e := Enqueue(l, holder);
            && Ordered(e.waiters, e.tickets)
            && (forall k: nat {:trigger Waiting(e, k)} :: Waiting(e, k) <==> Waiting(l, k) || k == l.tickets)
  {
    var e := Enqueue(l, holder);
    forall k: nat
      ensures Waiting(e, k) <==> Waiting(l, k) || k == l.tickets
    {
      assert e.waiters[|l.waiters|].ticket == l.tickets;
      if Waiting(l, k) {
        var i :| 0 <= i < |l.waiters| && l.waiters[i].ticket == k;
        assert e.waiters[i].ticket == k;
      }
      if Waiting(e, k) && k != l.tickets {
        var i :| 0 <= i < |e.waiters| && e.waiters[i].ticket == k;
        assert l.waiters[i].ticket == k;
      }
    }
  }

  lemma {:induction false} EnqueueKeepsValid(l: Lane, holder: string, now: Time)
    requires Valid(l, now)
    ensures Valid(Enqueue(l, holder), now)
    ensures Waiting(Enqueue(l, holder), l.tickets)
  {
    var e := Enqueue(l, holder);
    EnqueueAdds(l, holder);
    assert !Waiting(l, l.tickets) && l.tickets !in l.admitted && l.tickets !in l.expelled;
    assert TicketsAccounted(e);
  }

  lemma {:induction false} DropShifts(ws: seq<Waiter>, p: nat, i: nat)
    requires p < |ws| && i < |ws| && i != p
    ensures var j := if i < p then i else i - 1; j < |Drop(ws, p)| && Drop(ws, p)[j] == ws[i]
  {
  }

  lemma {:induction false} DropStaysOrdered(ws: seq<Waiter>, bound: nat, p: nat)
    requires Ordered(ws, bound) && p < |ws|
    ensures Ordered(Drop(ws, p), bound)
    ensures forall i :: 0 <= i < |Drop(ws, p)| ==> Drop(ws, p)[i] == ws[if i < p then i else i + 1]
  {
    var d := Drop(ws, p);
    forall i | 0 <= i < |d|
      ensures d[i] == ws[if i < p then i else i + 1]
    {
      assert i >= p ==> d[i] == ws[p + 1..][i - p];
    }
  }

  /** Removing one waiter leaves the others waiting, in order. */
  lemma {:induction false} DropLeavesOthers(l: Lane, m: Lane, p: nat)
    requires Ordered(l.waiters, l.tickets) && p < |l.waiters|
    requires m.waiters == Drop(l.waiters, p) && m.tickets == l.tickets
    ensures Ordered(m.waiters, m.tickets)
    ensures forall k: nat {:trigger Waiting(m, k)} :: Waiting(m, k) <==> Waiting(l, k) && k != l.waiters[p].ticket
  {
    DropStaysOrdered(l.waiters, l.tickets, p);
    forall k: nat
      ensures Waiting(m, k) <==> Waiting(l, k) && k != l.waiters[p].ticket
    {
      if Waiting(m, k) {
        var i :| 0 <= i < |m.waiters| && m.waiters[i].ticket == k;
        assert l.waiters[if i < p then i else i + 1].ticket == k;
      }
      if Waiting(l, k) && k != l.waiters[p].ticket {
        var i :| 0 <= i < |l.waiters| && l.waiters[i].ticket == k;
        DropShifts(l.waiters, p, i);
        assert m.waiters[if i < p then i else i - 1].ticket == k;
      }
    }
  }

  lemma {:induction false} GrantKeepsTickets(l: Lane, p: nat, later: Time)
    requires TicketsAccounted(l) && p < |l.waiters|
    ensures TicketsAccounted(Grant(l, p, later))
  {
    var m := Grant(l, p, later);
    var ticket := l.waiters[p].ticket;
    assert Waiting(l, ticket);
    DropLeavesOthers(l, m, p);
    assert forall k: nat :: k in m.admitted <==> k in l.admitted || k == ticket;
  }

  lemma {:induction false} GrantKeepsTokens(l: Lane, p: nat, now: Time, later: Time)
    requires l.ttl > 0.0 && TokensAccounted(l, now) && now <= later && p < |l.waiters|
    ensures TokensAccounted(Grant(l, p, later), later)
  {
  }

  lemma {:induction false} ExpelKeepsTickets(l: Lane, p: nat)
    requires TicketsAccounted(l) && p < |l.waiters|
    ensures TicketsAccounted(Expel(l, p))
  {
    var m := Expel(l, p);
    var ticket := l.waiters[p].ticket;
    assert Waiting(l, ticket);
    DropLeavesOthers(l, m, p);
    assert forall k: nat :: k in m.expelled <==> k in l.expelled || k == ticket;
  }

  lemma {:induction false} TurnKeepsValid(l: Lane, ticket: nat, deadline: Time, now: Time, later: Time)
    requires Valid(l, now) && now <= later
    ensures Valid(Turn(l, ticket, deadline, later).0, later)
  {
    var p := Position(l.waiters, ticket);
    if p < |l.waiters| {
      if p + |l.leases| < l.capacity {
        GrantKeepsTickets(l, p, later);
        GrantKeepsTokens(l, p, now, later);
      } else if deadline <= later {
        ExpelKeepsTickets(l, p);
      }
    }
  }

  lemma {:induction false} RenewKeepsValid(l: Lane, token: nat, now: Time, later: Time)
    requires Valid(l, now) && now <= later && token in l.leases
    ensures Valid(Renew(l, token, later), later)
  {
    var m := Renew(l, token, later);
    assert m.leases.Keys == l.leases.Keys;
    assert |m.leases.Keys| == |m.leases|;
    assert forall k: nat :: Waiting(m, k) == Waiting(l, k);
  }

  lemma {:induction false} RemoveKeepsValid(l: Lane, token: nat, now: Time)
    requires Valid(l, now) && token in l.leases
    ensures Valid(Remove(l, token), now)
  {
    var m := Remove(l, token);
    SubsetCardinality(m.leases.Keys, l.leases.Keys);
    assert forall k: nat :: Waiting(m, k) == Waiting(l, k);
  }

  lemma {:induction false} ApplyKeepsValid(l: Lane, before: Time, op: Op)
    requires Valid(l, before) && before <= op.now && Clocked(op)
    ensures Valid(Apply(l, op).0, op.later)
  {
    ExpireKeepsValid(l, before, op.now);
    var e := Expire(l, op.now);
    match op
    case Enter(holder, deadline, now, mid, later) =>
      EnqueueKeepsValid(e, holder, now);
      ExpireKeepsValid(Enqueue(e, holder), now, mid);
      TurnKeepsValid(Expire(Enqueue(e, holder), mid), l.tickets, deadline, mid, later);
    case Poll(ticket, deadline, now, later) =>
      TurnKeepsValid(e, ticket, deadline, now, later);
    case Reenter(holder, token, now, later) =>
      if HeldBy(e, holder, token) { RenewKeepsValid(e, token, now, later); } else { TimePasses(e, now, later); }
    case Beat(holder, token, now, later) =>
      if HeldBy(e, holder, token) { RenewKeepsValid(e, token, now, later); } else { TimePasses(e, now, later); }
    case Free(holder, token, now, later) =>
      if HeldBy(e, holder, token) { RemoveKeepsValid(e, token, now); }
      TimePasses(Apply(l, op).0, now, later);
    case Count(now, later) => TimePasses(e, now, later);
  }
}
