/** What every run of a ticket lane satisfies, whatever the threads calling it do. */
module LaneTheorems {
  import opened Basics
  import opened LaneModel

  // ----- Runs -----

  function After(l: Lane, ops: seq<Op>): Lane {
    if ops == [] then l else Apply(After(l, ops[..|ops| - 1]), ops[|ops| - 1]).0
  }

  function Answered(l: Lane, ops: seq<Op>): seq<Reply> {
    if ops == [] then []
    else Answered(l, ops[..|ops| - 1]) + [Apply(After(l, ops[..|ops| - 1]), ops[|ops| - 1]).1]
  }

  function EndOf(start: Time, ops: seq<Op>): Time {
    if ops == [] then start else ops[|ops| - 1].later
  }

  /** Monitor sections exclude each other, so their readings of one clock follow each other. */
  predicate Scheduled(start: Time, ops: seq<Op>) {
    ops != [] ==>
      && Scheduled(start, ops[..|ops| - 1])
      && Clocked(ops[|ops| - 1])
      && EndOf(start, ops[..|ops| - 1]) <= ops[|ops| - 1].now
  }

  lemma {:induction false} RunsStayValid(l: Lane, start: Time, ops: seq<Op>)
    requires Valid(l, start) && Scheduled(start, ops)
    ensures Valid(After(l, ops), EndOf(start, ops))
  {
    if ops != [] {
      var before := ops[..|ops| - 1];
      RunsStayValid(l, start, before);
      ApplyKeepsValid(After(l, before), EndOf(start, before), ops[|ops| - 1]);
    }
  }

  lemma NewIsValid(capacity: nat, ttl: Time, start: Time)
    requires capacity >= 1 && ttl > 0.0
    ensures Valid(New(capacity, ttl), start)
  {
    assert forall k: nat :: !Waiting(New(capacity, ttl), k);
  }

  lemma {:induction false} PrefixScheduled(start: Time, ops: seq<Op>, n: nat)
    requires Scheduled(start, ops) && n <= |ops|
    ensures Scheduled(start, ops[..n])
    decreases |ops| - n
  {
    if n == |ops| {
      assert ops[..n] == ops;
    } else {
      PrefixScheduled(start, ops, n + 1);
      assert ops[..n + 1][..n] == ops[..n];
    }
  }

  lemma {:induction false} NextScheduled(start: Time, ops: seq<Op>, n: nat)
    requires Scheduled(start, ops) && n < |ops|
    ensures Clocked(ops[n]) && EndOf(start, ops[..n]) <= ops[n].now
  {
    PrefixScheduled(start, ops, n + 1);
    assert ops[..n + 1][..n] == ops[..n];
  }

  lemma {:induction false} CapacityIsFixed(l: Lane, ops: seq<Op>)
    ensures After(l, ops).capacity == l.capacity && After(l, ops).ttl == l.ttl
  {
    if ops != [] {
      CapacityIsFixed(l, ops[..|ops| - 1]);
    }
  }

  lemma {:induction false} OneMore(l: Lane, start: Time, ops: seq<Op>, op: Op)
    requires Scheduled(start, ops) && EndOf(start, ops) <= op.now && Clocked(op)
    ensures Scheduled(start, ops + [op]) && EndOf(start, ops + [op]) == op.later
    ensures After(l, ops + [op]) == Apply(After(l, ops), op).0
  {
    assert (ops + [op])[..|ops|] == ops;
  }

  /** Adding one section to a run and to its second part keeps them the same run. */
  lemma {:induction false} OneMoreInBoth(l: Lane, start: Time, first: seq<Op>, second: seq<Op>, both: seq<Op>, op: Op)
    requires Scheduled(start, both) && Scheduled(EndOf(start, first), second)
    requires EndOf(start, both) == EndOf(EndOf(start, first), second) <= op.now && Clocked(op)
    requires After(l, both) == After(After(l, first), second)
    ensures Scheduled(start, both + [op]) && Scheduled(EndOf(start, first), second + [op])
    ensures EndOf(start, both + [op]) == EndOf(EndOf(start, first), second + [op])
    ensures After(l, both + [op]) == After(After(l, first), second + [op])
  {
    OneMore(l, start, both, op);
    OneMore(After(l, first), EndOf(start, first), second, op);
  }

  lemma {:induction false} JoinOneMore(l: Lane, start: Time, first: seq<Op>, second: seq<Op>, op: Op)
    requires Scheduled(start, first + second) && Scheduled(EndOf(start, first), second)
    requires EndOf(start, first + second) == EndOf(EndOf(start, first), second) <= op.now && Clocked(op)
    requires After(l, first + second) == After(After(l, first), second)
    ensures Scheduled(start, first + (second + [op]))
    ensures EndOf(start, first + (second + [op])) == EndOf(EndOf(start, first), second + [op])
    ensures After(l, first + (second + [op])) == After(After(l, first), second + [op])
  {
    OneMoreInBoth(l, start, first, second, first + second, op);
    assert first + (second + [op]) == (first + second) + [op];
  }

  lemma {:induction false} JoinRuns(l: Lane, start: Time, first: seq<Op>, second: seq<Op>)
    requires Scheduled(start, first) && Scheduled(EndOf(start, first), second)
    ensures Scheduled(start, first + second)
    ensures EndOf(start, first + second) == EndOf(EndOf(start, first), second)
    ensures After(l, first + second) == After(After(l, first), second)
    decreases |second|
  {
    if second == [] {
      assert first + second == first;
    } else {
      var init, last := second[..|second| - 1], second[|second| - 1];
      assert second == init + [last];
      JoinRuns(l, start, first, init);
      JoinOneMore(l, start, first, init, last);
    }
  }

  lemma {:induction false} SuffixScheduled(start: Time, ops: seq<Op>, n: nat)
    requires Scheduled(start, ops) && n <= |ops|
    ensures Scheduled(EndOf(start, ops[..n]), ops[n..])
    decreases |ops|
  {
    if n < |ops| {
      var before := ops[..|ops| - 1];
      SuffixScheduled(start, before, n);
      assert before[..n] == ops[..n] && ops[n..][..|ops| - 1 - n] == before[n..];
      assert n == |before| ==> ops[..n] == before;
    }
  }

  /** A run cut anywhere is its first part followed by its second. */
  lemma {:induction false} SplitRun(l: Lane, start: Time, ops: seq<Op>, n: nat)
    requires Scheduled(start, ops) && n <= |ops|
    ensures After(l, ops) == After(After(l, ops[..n]), ops[n..])
    ensures Scheduled(EndOf(start, ops[..n]), ops[n..])
    ensures EndOf(start, ops) == EndOf(EndOf(start, ops[..n]), ops[n..])
  {
    PrefixScheduled(start, ops, n);
    SuffixScheduled(start, ops, n);
    JoinRuns(l, start, ops[..n], ops[n..]);
    assert ops[..n] + ops[n..] == ops;
  }

  /** A run one section further. */
  lemma {:induction false} NextInRun(l: Lane, start: Time, ops: seq<Op>, n: nat)
    requires Scheduled(start, ops) && n < |ops|
    ensures Clocked(ops[n]) && EndOf(start, ops[..n]) <= ops[n].now && EndOf(start, ops[..n + 1]) == ops[n].later
    ensures After(l, ops[..n + 1]) == Apply(After(l, ops[..n]), ops[n]).0
  {
    PrefixScheduled(start, ops, n);
    NextScheduled(start, ops, n);
    OneMore(l, start, ops[..n], ops[n]);
    assert ops[..n + 1] == ops[..n] + [ops[n]];
  }

  // ----- Entitlement -----

  /** The admission test of the acquire loop, for the waiter holding `k`. */
  predicate Entitled(l: Lane, k: nat) {
    var p := Position(l.waiters, k);
    p < |l.waiters| && p + |l.leases| < l.capacity
  }

  /** The lane as the admission test of a section finds it: swept, and with the newcomer at the end of its queue. */
  function AtTheTest(l: Lane, op: Op): Lane
    requires op.Enter? || op.Poll?
  {
    match op
    case Enter(holder, _, now, mid, _) => Expire(Enqueue(Expire(l, now), holder), mid)
    case Poll(_, _, now, _) => Expire(l, now)
  }

  lemma {:induction false} WaiterIsDecided(l: Lane, now: Time, ticket: nat, deadline: Time, later: Time)
    requires Valid(l, now) && now <= later && Waiting(l, ticket)
    ensures var (m, reply) := Turn(l, ticket, deadline, later);
            && (reply.Granted? <==> Entitled(l, ticket)) && (ticket in m.admitted <==> Entitled(l, ticket))
            && (reply.TimedOut? <==> !Entitled(l, ticket) && deadline <= later)
            && (ticket in m.expelled <==> !Entitled(l, ticket) && deadline <= later)
            && (reply.Blocked? <==> !Entitled(l, ticket) && later < deadline)
            && (Waiting(m, ticket) <==> !Entitled(l, ticket) && later < deadline)
  {
    var i :| 0 <= i < |l.waiters| && l.waiters[i].ticket == ticket;
    PositionOf(l.waiters, l.tickets, i);
    TurnKeepsValid(l, ticket, deadline, now, later);
  }

  /** Every turn decides: the caller is admitted exactly if it is entitled; otherwise it times out exactly if its
      deadline has come, and goes on waiting exactly if it has not. */
  lemma {:induction false} TurnsAreDecided(l: Lane, before: Time, op: Op)
    requires Valid(l, before) && before <= op.now && Clocked(op)
    requires op.Enter? || (op.Poll? && Waiting(l, op.ticket))
    ensures var k, (m, reply) := (if op.Enter? then l.tickets else op.ticket), Apply(l, op);
            var entitled := Entitled(AtTheTest(l, op), k);
            && (reply.Granted? <==> entitled) && (k in m.admitted <==> entitled)
            && (reply.TimedOut? <==> !entitled && op.deadline <= op.later)
            && (k in m.expelled <==> !entitled && op.deadline <= op.later)
            && (reply.Blocked? <==> !entitled && op.later < op.deadline)
            && (Waiting(m, k) <==> !entitled && op.later < op.deadline)
  {
    ExpireKeepsValid(l, before, op.now);
    var e := Expire(l, op.now);
    if op.Enter? {
      EnqueueKeepsValid(e, op.holder, op.now);
      ExpireKeepsValid(Enqueue(e, op.holder), op.now, op.mid);
      var t := AtTheTest(l, op);
      assert t.waiters[|l.waiters|] == Waiter(l.tickets, op.holder);
      WaiterIsDecided(t, op.mid, l.tickets, op.deadline, op.later);
    } else {
      WaiterIsDecided(e, op.now, op.ticket, op.deadline, op.later);
    }
  }

  lemma {:induction false} ExpireKeepsEntitlement(l: Lane, now: Time, k: nat)
    requires Entitled(l, k)
    ensures Entitled(Expire(l, now), k)
  {
    SubsetCardinality(Expire(l, now).leases.Keys, l.leases.Keys);
  }

  lemma {:induction false} EnqueueKeepsEntitlement(l: Lane, holder: string, k: nat)
    requires Ordered(l.waiters, l.tickets) && Entitled(l, k)
    ensures Entitled(Enqueue(l, holder), k)
  {
    var e := Enqueue(l, holder);
    var p := Position(l.waiters, k);
    assert e.waiters[p] == l.waiters[p];
    PositionOf(e.waiters, e.tickets, p);
  }

  lemma {:induction false} PositionAfterDrop(ws: seq<Waiter>, bound: nat, p: nat, q: nat)
    requires Ordered(ws, bound) && p < |ws| && q < |ws| && p != q
    ensures Position(Drop(ws, p), ws[q].ticket) == if q < p then q else q - 1
  {
    var d := Drop(ws, p);
    var r := if q < p then q else q - 1;
    assert d[r] == ws[q];
    assert Ordered(d, bound);
    PositionOf(d, bound, r);
  }

  /** Another waiter's turn, admitted ahead or timed out, costs an entitled waiter nothing; its own turn admits it. */
  lemma {:induction false} TurnKeepsEntitlement(l: Lane, ticket: nat, deadline: Time, later: Time, k: nat, now: Time)
    requires Valid(l, now) && Entitled(l, k)
    ensures ticket == k ==> Turn(l, ticket, deadline, later).1.Granted?
    ensures ticket != k ==> Entitled(Turn(l, ticket, deadline, later).0, k)
  {
    var p, q := Position(l.waiters, ticket), Position(l.waiters, k);
    if p < |l.waiters| && p != q {
      PositionAfterDrop(l.waiters, l.tickets, p, q);
    }
  }

  lemma RenewKeepsSize(l: Lane, token: nat, later: Time)
    requires token in l.leases
    ensures |Renew(l, token, later).leases| == |l.leases|
  {
    assert Renew(l, token, later).leases.Keys == l.leases.Keys;
    assert |Renew(l, token, later).leases.Keys| == |l.leases.Keys|;
  }

  lemma {:induction false} EntitlementIsStable(l: Lane, before: Time, op: Op, k: nat)
    requires Valid(l, before) && before <= op.now && Clocked(op) && Entitled(l, k)
    ensures op.Poll? && op.ticket == k ==> Apply(l, op).1.Granted?
    ensures !(op.Poll? && op.ticket == k) ==> Entitled(Apply(l, op).0, k)
  {
    ExpireKeepsValid(l, before, op.now);
    ExpireKeepsEntitlement(l, op.now, k);
    var e := Expire(l, op.now);
    match op
    case Enter(holder, deadline, now, mid, later) =>
      EnqueueKeepsValid(e, holder, now);
      EnqueueKeepsEntitlement(e, holder, k);
      ExpireKeepsValid(Enqueue(e, holder), now, mid);
      ExpireKeepsEntitlement(Enqueue(e, holder), mid, k);
      assert k < l.tickets;
      TurnKeepsEntitlement(Expire(Enqueue(e, holder), mid), l.tickets, deadline, later, k, mid);
    case Poll(ticket, deadline, now, later) =>
      TurnKeepsEntitlement(e, ticket, deadline, later, k, now);
    case Reenter(holder, token, _, later) =>
      if HeldBy(e, holder, token) { RenewKeepsSize(e, token, later); }
    case Beat(holder, token, _, later) =>
      if HeldBy(e, holder, token) { RenewKeepsSize(e, token, later); }
    case Free(holder, token, _, _) =>
      SubsetCardinality(Remove(e, token).leases.Keys, e.leases.Keys);
    case Count(_, _) =>
  }

  lemma {:induction false} TurnOvertakesEntitled(l: Lane, now: Time, ticket: nat, deadline: Time, later: Time, k: nat)
    requires Valid(l, now) && Waiting(l, k) && k < ticket
    requires Turn(l, ticket, deadline, later).1.Granted?
    ensures Entitled(Turn(l, ticket, deadline, later).0, k)
  {
    var q :| 0 <= q < |l.waiters| && l.waiters[q].ticket == k;
    var p := Position(l.waiters, ticket);
    PositionOf(l.waiters, l.tickets, q);
    PositionAfterDrop(l.waiters, l.tickets, p, q);
  }

  /** Only entitled waiters are ever overtaken. */
  lemma {:induction false} OvertakenIsEntitled(l: Lane, before: Time, op: Op, k: nat)
    requires Valid(l, before) && before <= op.now && Clocked(op)
    requires Waiting(l, k)
    requires (op.Enter? || op.Poll?) && Apply(l, op).1.Granted?
    requires op.Poll? ==> k < op.ticket
    ensures Entitled(Apply(l, op).0, k)
  {
    ExpireKeepsValid(l, before, op.now);
    var e := Expire(l, op.now);
    var q :| 0 <= q < |l.waiters| && l.waiters[q].ticket == k;
    if op.Enter? {
      EnqueueKeepsValid(e, op.holder, op.now);
      ExpireKeepsValid(Enqueue(e, op.holder), op.now, op.mid);
      var t := Expire(Enqueue(e, op.holder), op.mid);
      assert t.waiters[q].ticket == k;
      TurnOvertakesEntitled(t, op.mid, l.tickets, op.deadline, op.later, k);
    } else {
      assert e.waiters[q].ticket == k;
      TurnOvertakesEntitled(e, op.now, op.ticket, op.deadline, op.later, k);
    }
  }

  lemma AdmissionsOnlyGrow(l: Lane, op: Op)
    ensures l.admitted <= Apply(l, op).0.admitted
  {
  }

  lemma {:induction false} StillEntitledOrAdmitted(l: Lane, before: Time, op: Op, k: nat)
    requires Valid(l, before) && before <= op.now && Clocked(op)
    requires Entitled(l, k) || k in l.admitted
    ensures Entitled(Apply(l, op).0, k) || k in Apply(l, op).0.admitted
    ensures k !in Apply(l, op).0.expelled
  {
    ApplyKeepsValid(l, before, op);
    if Entitled(l, k) {
      EntitlementIsStable(l, before, op, k);
      if op.Poll? && op.ticket == k {
        assert Apply(l, op).0.admitted == l.admitted + [k];
      } else {
        assert Waiting(Apply(l, op).0, k);
      }
    } else {
      AdmissionsOnlyGrow(l, op);
    }
  }

  /** Once entitled, a waiter is entitled in every later state until it is admitted; it never times out. */
  lemma {:induction false} EntitledUntilAdmitted(l: Lane, start: Time, ops: seq<Op>, k: nat)
    requires Valid(l, start) && Scheduled(start, ops)
    requires Entitled(l, k)
    ensures Entitled(After(l, ops), k) || k in After(l, ops).admitted
    ensures k !in After(l, ops).expelled
  {
    if ops == [] {
      assert Waiting(l, k);
    } else {
      var before, op := ops[..|ops| - 1], ops[|ops| - 1];
      EntitledUntilAdmitted(l, start, before, k);
      RunsStayValid(l, start, before);
      StillEntitledOrAdmitted(After(l, before), EndOf(start, before), op, k);
    }
  }

  /** A waiter that some younger ticket overtook in a run never ends in a timeout:
      at the end of the run it has been admitted or is still entitled. */
  lemma {:induction false} OvertakenNeverTimesOut(capacity: nat, ttl: Time, start: Time, ops: seq<Op>, i: nat, k: nat)
    requires capacity >= 1 && ttl > 0.0 && Scheduled(start, ops) && i < |ops|
    requires var l := After(New(capacity, ttl), ops[..i]);
             && Waiting(l, k)
             && (ops[i].Enter? || (ops[i].Poll? && k < ops[i].ticket))
             && Apply(l, ops[i]).1.Granted?
    ensures k !in After(New(capacity, ttl), ops).expelled
    ensures k in After(New(capacity, ttl), ops).admitted || Entitled(After(New(capacity, ttl), ops), k)
  {
    var l0 := New(capacity, ttl);
    var l := After(l0, ops[..i]);
    PrefixScheduled(start, ops, i);
    PrefixScheduled(start, ops, i + 1);
    assert ops[..i + 1][..i] == ops[..i];
    NewIsValid(capacity, ttl, start);
    RunsStayValid(l0, start, ops[..i]);
    OvertakenIsEntitled(l, EndOf(start, ops[..i]), ops[i], k);
    RunsStayValid(l0, start, ops[..i + 1]);
    SplitRun(l0, start, ops, i + 1);
    EntitledUntilAdmitted(After(l0, ops[..i + 1]), EndOf(start, ops[..i + 1]), ops[i + 1..], k);
  }

  // ----- First come, first served -----

  ghost predicate InOrder(admitted: seq<nat>) {
    forall i, j :: 0 <= i < j < |admitted| ==> admitted[i] < admitted[j]
  }

  /** Admissions so far are in arrival order, and everyone still waiting arrived after them. */
  ghost predicate Served(admitted: seq<nat>, waiters: seq<Waiter>) {
    && InOrder(admitted)
    && (forall i, j :: 0 <= i < |admitted| && 0 <= j < |waiters| ==> admitted[i] < waiters[j].ticket)
  }

  ghost predicate Fifo(l: Lane) {
    Served(l.admitted, l.waiters)
  }

  lemma {:induction false} TurnKeepsFifo(l: Lane, ticket: nat, deadline: Time, later: Time, now: Time)
    requires Valid(l, now) && l.capacity == 1 && Fifo(l)
    ensures Fifo(Turn(l, ticket, deadline, later).0)
  {
  }

  lemma {:induction false} EnqueueKeepsFifo(l: Lane, holder: string)
    requires TicketsAccounted(l) && Fifo(l)
    ensures Fifo(Enqueue(l, holder))
  {
    forall i | 0 <= i < |l.admitted|
      ensures l.admitted[i] < l.tickets
    {
      assert l.admitted[i] in l.admitted;
      assert Waiting(l, l.admitted[i]) || !Waiting(l, l.admitted[i]);
    }
  }

  lemma {:induction false} ApplyKeepsFifo(l: Lane, before: Time, op: Op)
    requires Valid(l, before) && before <= op.now && Clocked(op)
    requires l.capacity == 1 && Fifo(l)
    ensures Fifo(Apply(l, op).0)
  {
    ExpireKeepsValid(l, before, op.now);
    var e := Expire(l, op.now);
    match op
    case Enter(holder, deadline, now, mid, later) =>
      EnqueueKeepsValid(e, holder, now);
      EnqueueKeepsFifo(e, holder);
      ExpireKeepsValid(Enqueue(e, holder), now, mid);
      TurnKeepsFifo(Expire(Enqueue(e, holder), mid), l.tickets, deadline, later, mid);
    case Poll(ticket, deadline, now, later) => TurnKeepsFifo(e, ticket, deadline, later, now);
    case _ =>
      assert Apply(l, op).0.admitted == l.admitted && Apply(l, op).0.waiters == l.waiters;
  }

  lemma {:induction false} CapacityOneRunsAreFifo(ttl: Time, start: Time, ops: seq<Op>)
    requires ttl > 0.0 && Scheduled(start, ops)
    ensures Fifo(After(New(1, ttl), ops))
  {
    if ops != [] {
      var before := ops[..|ops| - 1];
      CapacityOneRunsAreFifo(ttl, start, before);
      NewIsValid(1, ttl, start);
      RunsStayValid(New(1, ttl), start, before);
      CapacityIsFixed(New(1, ttl), before);
      ApplyKeepsFifo(After(New(1, ttl), before), EndOf(start, before), ops[|ops| - 1]);
    }
  }

  // A run that breaks the order at any capacity of two or more: the lane fills up, two callers block,
  // two leases are released, and the younger caller happens to wake first.

  function Fill(n: nat): seq<Op> {
    seq(n, _ => Enter("a", 0.0, 0.0, 0.0, 0.0))
  }

  ghost predicate Filled(l: Lane, capacity: nat, ttl: Time, n: nat) {
    && l.capacity == capacity && l.ttl == ttl && |l.leases| == n && l.tokens == n
    && (forall t: nat :: t < n ==> t in l.leases && l.leases[t] == Lease("a", ttl))
    && (forall t :: t in l.leases ==> t < n)
    && l.waiters == []
  }

  /** Entering a lane at instant zero, when nothing has lapsed. */
  lemma {:induction false} EnterAtZero(l: Lane, holder: string, deadline: Time)
    requires Ordered(l.waiters, l.tickets) && Live(l.leases, 0.0) == l.leases
    ensures Apply(l, Enter(holder, deadline, 0.0, 0.0, 0.0)) == Turn(Enqueue(l, holder), l.tickets, deadline, 0.0)
    ensures Position(Enqueue(l, holder).waiters, l.tickets) == |l.waiters|
  {
    var q := Enqueue(l, holder);
    assert q.waiters[|l.waiters|].ticket == l.tickets;
    PositionOf(q.waiters, q.tickets, |l.waiters|);
  }

  lemma {:induction false} FillStep(l: Lane, capacity: nat, ttl: Time, n: nat)
    requires n < capacity && ttl > 0.0 && Filled(l, capacity, ttl, n)
    ensures Filled(Apply(l, Enter("a", 0.0, 0.0, 0.0, 0.0)).0, capacity, ttl, n + 1)
  {
    EnterAtZero(l, "a", 0.0);
    assert Drop(Enqueue(l, "a").waiters, 0) == [];
  }

  lemma {:induction false} FillOneMore(l: Lane, capacity: nat, ttl: Time, n: nat)
    requires n < capacity && ttl > 0.0
    requires Scheduled(0.0, Fill(n)) && EndOf(0.0, Fill(n)) == 0.0 && Filled(After(l, Fill(n)), capacity, ttl, n)
    ensures Scheduled(0.0, Fill(n + 1)) && EndOf(0.0, Fill(n + 1)) == 0.0
    ensures Filled(After(l, Fill(n + 1)), capacity, ttl, n + 1)
  {
    var op := Enter("a", 0.0, 0.0, 0.0, 0.0);
    assert Fill(n + 1) == Fill(n) + [op];
    OneMore(l, 0.0, Fill(n), op);
    FillStep(After(l, Fill(n)), capacity, ttl, n);
  }

  lemma {:induction false} FillFills(capacity: nat, ttl: Time, n: nat)
    requires n <= capacity && ttl > 0.0
    ensures Scheduled(0.0, Fill(n)) && EndOf(0.0, Fill(n)) == 0.0
    ensures Filled(After(New(capacity, ttl), Fill(n)), capacity, ttl, n)
  {
    if n > 0 {
      FillFills(capacity, ttl, n - 1);
      FillOneMore(New(capacity, ttl), capacity, ttl, n - 1);
    }
  }

  /** The lane after two callers have blocked on it and both of those leases have been released. */
  function Contended(l: Lane): Lane {
    var b, c := Waiter(l.tickets, "b"), Waiter(l.tickets + 1, "c");
    Remove(Remove(l.(waiters := [b, c], tickets := l.tickets + 2), 0), 1)
  }

  lemma {:induction false} TwoCallersBlock(l: Lane, capacity: nat, ttl: Time)
    requires ttl > 0.0 && Filled(l, capacity, ttl, capacity)
    ensures var l1 := Apply(l, Enter("b", 1.0, 0.0, 0.0, 0.0)).0;
            && l1 == l.(waiters := [Waiter(l.tickets, "b")], tickets := l.tickets + 1)
            && Apply(l1, Enter("c", 1.0, 0.0, 0.0, 0.0)).0
               == l.(waiters := [Waiter(l.tickets, "b"), Waiter(l.tickets + 1, "c")], tickets := l.tickets + 2)
  {
    EnterAtZero(l, "b", 1.0);
    EnterAtZero(Apply(l, Enter("b", 1.0, 0.0, 0.0, 0.0)).0, "c", 1.0);
  }

  lemma {:induction false} TwoLeasesFree(l: Lane, capacity: nat, ttl: Time)
    requires capacity >= 2 && ttl > 0.0 && Filled(l.(waiters := []), capacity, ttl, capacity)
    ensures Apply(l, Free("a", 0, 0.0, 0.0)).0 == Remove(l, 0)
    ensures Apply(Remove(l, 0), Free("a", 1, 0.0, 0.0)).0 == Remove(Remove(l, 0), 1)
  {
    assert Expire(l, 0.0) == l;
    assert Expire(Remove(l, 0), 0.0) == Remove(l, 0);
  }

  lemma {:induction false} Contention(l: Lane, capacity: nat, ttl: Time)
    requires capacity >= 2 && ttl > 0.0 && Filled(l, capacity, ttl, capacity)
    ensures var l1 := Apply(l, Enter("b", 1.0, 0.0, 0.0, 0.0)).0;
            var l2 := Apply(l1, Enter("c", 1.0, 0.0, 0.0, 0.0)).0;
            Apply(Apply(l2, Free("a", 0, 0.0, 0.0)).0, Free("a", 1, 0.0, 0.0)).0 == Contended(l)
  {
    TwoCallersBlock(l, capacity, ttl);
    TwoLeasesFree(l.(waiters := [Waiter(l.tickets, "b"), Waiter(l.tickets + 1, "c")], tickets := l.tickets + 2),
                  capacity, ttl);
  }

  lemma {:induction false} Extend(l: Lane, ops: seq<Op>, op: Op) returns (more: seq<Op>)
    requires Scheduled(0.0, ops) && EndOf(0.0, ops) == 0.0
    requires op.now == op.later == 0.0 && Clocked(op)
    ensures Scheduled(0.0, more) && EndOf(0.0, more) == 0.0
    ensures After(l, more) == Apply(After(l, ops), op).0
  {
    more := ops + [op];
    OneMore(l, 0.0, ops, op);
  }

  /** With both leases free, the younger caller's turn admits it first. */
  lemma {:induction false} YoungerWins(l: Lane, capacity: nat, ttl: Time)
    requires capacity >= 2 && ttl > 0.0 && Filled(l, capacity, ttl, capacity)
    ensures !Fifo(Apply(Contended(l), Poll(l.tickets + 1, 1.0, 0.0, 0.0)).0)
  {
    var m := Contended(l);
    assert |m.leases.Keys| == capacity - 2;
    assert Expire(m, 0.0) == m;
    assert Position(m.waiters, l.tickets + 1) == 1 by { assert m.waiters[1..][0].ticket == l.tickets + 1; }
    var g := Grant(m, 1, 0.0);
    assert Apply(m, Poll(l.tickets + 1, 1.0, 0.0, 0.0)).0 == g;
    assert g.admitted[|l.admitted|] == l.tickets + 1 && g.waiters[0].ticket == l.tickets;
  }

  lemma {:induction false} OrderCanBreak(capacity: nat, ttl: Time) returns (ops: seq<Op>)
    requires capacity >= 2 && ttl > 0.0
    ensures Scheduled(0.0, ops) && !Fifo(After(New(capacity, ttl), ops))
  {
    var l0 := New(capacity, ttl);
    FillFills(capacity, ttl, capacity);
    var l := After(l0, Fill(capacity));
    Contention(l, capacity, ttl);
    ops := Extend(l0, Fill(capacity), Enter("b", 1.0, 0.0, 0.0, 0.0));
    ops := Extend(l0, ops, Enter("c", 1.0, 0.0, 0.0, 0.0));
    ops := Extend(l0, ops, Free("a", 0, 0.0, 0.0));
    ops := Extend(l0, ops, Free("a", 1, 0.0, 0.0));
    ops := Extend(l0, ops, Poll(l.tickets + 1, 1.0, 0.0, 0.0));
    YoungerWins(l, capacity, ttl);
  }

  /** The documented promise, strictly first come first served, is kept by every run
      exactly when the lane has capacity one. */
  lemma {:induction false} StrictFifoIffCapacityOne(capacity: nat, ttl: Time)
    requires capacity >= 1 && ttl > 0.0
    ensures (forall ops :: Scheduled(0.0, ops) ==> Fifo(After(New(capacity, ttl), ops))) <==> capacity == 1
  {
    if capacity == 1 {
      forall ops | Scheduled(0.0, ops)
        ensures Fifo(After(New(capacity, ttl), ops))
      {
        CapacityOneRunsAreFifo(ttl, 0.0, ops);
      }
    } else {
      var ops := OrderCanBreak(capacity, ttl);
    }
  }

  // ----- Leases end exactly when they should -----

  /** In every run, a lease that was not released is in the table for `ttl` after its last grant or renewal,
      and never carries more than that. */
  lemma {:induction false} NeverReclaimedEarly(capacity: nat, ttl: Time, start: Time, ops: seq<Op>, token: nat)
    requires capacity >= 1 && ttl > 0.0 && Scheduled(start, ops)
    ensures var l := After(New(capacity, ttl), ops);
            && |l.leases| <= capacity
            && (token < l.tokens <==> token in l.renewed)
            && (token < l.tokens && token !in l.released && EndOf(start, ops) < l.renewed[token] + ttl ==>
                  token in l.leases && l.leases[token].expires == l.renewed[token] + ttl)
            && (token in l.leases ==> token < l.tokens && token !in l.released)
  {
    NewIsValid(capacity, ttl, start);
    RunsStayValid(New(capacity, ttl), start, ops);
    CapacityIsFixed(New(capacity, ttl), ops);
  }

  /** A token was granted and is no longer leased at this instant. */
  predicate Gone(l: Lane, token: nat, now: Time) {
    token < l.tokens && token !in Live(l.leases, now)
  }

  predicate Names(op: Op, token: nat) {
    (op.Reenter? || op.Beat? || op.Free?) && op.token == token
  }

  lemma {:induction false} GoneAfterTurn(l: Lane, ticket: nat, deadline: Time, later: Time, token: nat)
    requires token < l.tokens && token !in l.leases
    ensures var m := Turn(l, ticket, deadline, later).0; token < m.tokens && token !in m.leases
  {
  }

  lemma {:induction false} GoneAfterTokenCall(l: Lane, before: Time, op: Op, token: nat)
    requires before <= op.now && Clocked(op) && Gone(l, token, before) && !op.Enter? && !op.Poll?
    ensures token !in Apply(l, op).0.leases && Apply(l, op).0.tokens == l.tokens
    ensures Names(op, token) ==>
              Apply(l, op) == (Expire(l, op.now), if op.Reenter? then BadReentry else Answer(false))
  {
  }

  lemma {:induction false} GoneIsRefused(l: Lane, before: Time, op: Op, token: nat)
    requires before <= op.now && Clocked(op) && Gone(l, token, before)
    ensures Gone(Apply(l, op).0, token, op.later)
    ensures Names(op, token) ==>
              Apply(l, op) == (Expire(l, op.now), if op.Reenter? then BadReentry else Answer(false))
  {
    var e := Expire(l, op.now);
    match op
    case Enter(holder, deadline, _, mid, later) =>
      GoneAfterTurn(Expire(Enqueue(e, holder), mid), l.tickets, deadline, later, token);
    case Poll(ticket, deadline, _, later) => GoneAfterTurn(e, ticket, deadline, later, token);
    case _ => GoneAfterTokenCall(l, before, op, token);
  }

  ghost predicate Refused(ops: seq<Op>, replies: seq<Reply>, token: nat) {
    && |replies| == |ops|
    && forall i :: 0 <= i < |ops| && Names(ops[i], token) ==>
         replies[i] == if ops[i].Reenter? then BadReentry else Answer(false)
  }

  lemma {:induction false} OneMoreRefusal(ops: seq<Op>, replies: seq<Reply>, op: Op, reply: Reply, token: nat)
    requires Refused(ops, replies, token)
    requires Names(op, token) ==> reply == if op.Reenter? then BadReentry else Answer(false)
    ensures Refused(ops + [op], replies + [reply], token)
  {
  }

  lemma {:induction false} OneMoreGone(l: Lane, start: Time, ops: seq<Op>, op: Op, token: nat)
    requires Scheduled(start, ops) && EndOf(start, ops) <= op.now && Clocked(op)
    requires Gone(After(l, ops), token, EndOf(start, ops)) && Refused(ops, Answered(l, ops), token)
    ensures Gone(After(l, ops + [op]), token, EndOf(start, ops + [op]))
    ensures Refused(ops + [op], Answered(l, ops + [op]), token)
  {
    assert (ops + [op])[..|ops|] == ops;
    GoneIsRefused(After(l, ops), EndOf(start, ops), op, token);
    OneMoreRefusal(ops, Answered(l, ops), op, Apply(After(l, ops), op).1, token);
  }

  /** A lapsed or released token is never leased again: every later heartbeat, release or re-entry that names it
      is refused and does no more to the table than the sweep that starts every section. */
  lemma {:induction false} GoneStaysGone(l: Lane, start: Time, ops: seq<Op>, token: nat)
    requires Scheduled(start, ops) && Gone(l, token, start)
    ensures Gone(After(l, ops), token, EndOf(start, ops))
    ensures Refused(ops, Answered(l, ops), token)
  {
    if ops != [] {
      var before, last := ops[..|ops| - 1], ops[|ops| - 1];
      assert ops == before + [last];
      GoneStaysGone(l, start, before, token);
      OneMoreGone(l, start, before, last, token);
    }
  }

  /** A heartbeat or a re-entry: what it answers where it renews. */
  function Renewed(op: Op): Reply
    requires op.Beat? || op.Reenter?
  {
    if op.Beat? then Answer(true) else Granted(op.token)
  }

  /** The expiry test and the new expiry use two readings, so a heartbeat or a re-entry can succeed for a lease that
      has lapsed by the second one. In every run, the next one does so exactly when the holder sends it for an
      unreleased lease whose last renewal lies a lease time before some instant between the two readings, the second
      included; the lease then lives on for a lease time from the second. */
  lemma {:induction false} RenewedAcrossLapse(capacity: nat, ttl: Time, start: Time, ops: seq<Op>, op: Op)
    requires capacity >= 1 && ttl > 0.0 && Scheduled(start, ops)
    requires (op.Beat? || op.Reenter?) && Clocked(op) && EndOf(start, ops) <= op.now
    ensures var l := After(New(capacity, ttl), ops);
            && (Apply(l, op).1 == Renewed(op) && Gone(l, op.token, op.later) <==>
                  && op.token in l.renewed && op.token !in l.released
                  && op.now < l.renewed[op.token] + ttl <= op.later
                  && HeldBy(l, op.holder, op.token))
            && (Apply(l, op).1 == Renewed(op) ==>
                  op.token in Apply(l, op).0.leases && Apply(l, op).0.leases[op.token].expires == op.later + ttl)
  {
    NewIsValid(capacity, ttl, start);
    RunsStayValid(New(capacity, ttl), start, ops);
    CapacityIsFixed(New(capacity, ttl), ops);
    NeverReclaimedEarly(capacity, ttl, start, ops, op.token);
  }

  /** A run, at any capacity, whose next heartbeat, or just as well re-entry, revives a lease lapsed by its own
      second reading. */
  lemma {:induction false} RenewedAcrossLapseExample(capacity: nat, ttl: Time, reentry: bool)
    returns (ops: seq<Op>, op: Op)
    requires capacity >= 1 && ttl > 0.0
    ensures Scheduled(0.0, ops) && Clocked(op) && EndOf(0.0, ops) <= op.now
    ensures if reentry then op.Reenter? else op.Beat?
    ensures var l := After(New(capacity, ttl), ops);
            && Gone(l, op.token, op.later)
            && Apply(l, op).1 == Renewed(op) && !Gone(Apply(l, op).0, op.token, op.later)
  {
    ops, op := Fill(1), if reentry then Reenter("a", 0, 0.0, ttl) else Beat("a", 0, 0.0, ttl);
    FillFills(capacity, ttl, 1);
    var l := After(New(capacity, ttl), ops);
    assert HeldBy(Expire(l, 0.0), "a", 0);
    assert Apply(l, op).0.leases[0].expires == ttl + ttl;
  }

  // ----- Idle time -----

  /** The last activity after a run of sections, if `last` was the one before it. */
  function ActivityAfter(l: Lane, ops: seq<Op>, last: Time): Time {
    if ops == [] then last
    else Activity(After(l, ops[..|ops| - 1]), ops[|ops| - 1], ActivityAfter(l, ops[..|ops| - 1], last))
  }

  /** One of the clock readings of a section. */
  predicate ReadingOf(op: Op, at: Time) {
    at == op.now || at == op.later || (op.Enter? && at == op.mid)
  }

  /** The section granted, renewed or released a lease, or dropped one that had lapsed. */
  predicate Stirs(l: Lane, op: Op) {
    Apply(l, op).1.Granted? || Apply(l, op).1 == Answer(true) || Apply(l, op).0.leases != l.leases
  }

  lemma {:induction false} ActiveIffItStirs(l: Lane, op: Op, last: Time)
    requires Clocked(op)
    ensures if Stirs(l, op) then ReadingOf(op, Activity(l, op, last))
            else Activity(l, op, last) == last && Apply(l, op).0.leases == l.leases
  {
  }

  lemma {:induction false} LastSectionActs(l: Lane, ops: seq<Op>, last: Time)
    requires ops != [] && Clocked(ops[|ops| - 1])
    ensures var before := ops[..|ops| - 1];
            if Stirs(After(l, before), ops[|ops| - 1]) then ReadingOf(ops[|ops| - 1], ActivityAfter(l, ops, last))
            else ActivityAfter(l, ops, last) == ActivityAfter(l, before, last)
                 && After(l, ops).leases == After(l, before).leases
  {
    var before := ops[..|ops| - 1];
    ActiveIffItStirs(After(l, before), ops[|ops| - 1], ActivityAfter(l, before, last));
  }

  /** No section from the `n`th on has changed the leases. */
  predicate UnchangedSince(l: Lane, ops: seq<Op>, n: nat)
    requires n <= |ops|
  {
    n == |ops|
    || (UnchangedSince(l, ops[..|ops| - 1], n) && After(l, ops).leases == After(l, ops[..|ops| - 1]).leases)
  }

  /** The last activity of a run is a reading of its last section that granted, renewed, released or dropped a lease,
      or its beginning if there was none; so the idle time counts from when the leases last changed. */
  lemma {:induction false} IdleSinceLastChange(l: Lane, start: Time, ops: seq<Op>, last: Time) returns (n: nat)
    requires Scheduled(start, ops)
    ensures n <= |ops| && UnchangedSince(l, ops, n)
    ensures var a := ActivityAfter(l, ops, last);
            if n == 0 then a == last else ReadingOf(ops[n - 1], a) && Stirs(After(l, ops[..n - 1]), ops[n - 1])
  {
    if ops == [] {
      n := 0;
    } else {
      var before := ops[..|ops| - 1];
      LastSectionActs(l, ops, last);
      if Stirs(After(l, before), ops[|ops| - 1]) {
        n := |ops|;
      } else {
        n := IdleSinceLastChange(l, start, before, last);
        assert n > 0 ==> before[..n - 1] == ops[..n - 1];
      }
    }
  }

  // ----- Lazy expiry cannot be observed -----

  // The reference lane has no sweep: its table keeps everything granted and not released,
  // and a lease exists at an instant iff its expiry is still to come.

  function IdealTurn(l: Lane, ticket: nat, deadline: Time, at: Time, later: Time): (Lane, Reply) {
    var p := Position(l.waiters, ticket);
    if p == |l.waiters| then (l, NoTicket)
    else if p + |Live(l.leases, at)| < l.capacity then (Grant(l, p, later), Granted(l.tokens))
    else if deadline <= later then (Expel(l, p), TimedOut)
    else (l, Blocked(ticket))
  }

  predicate ExistsAt(l: Lane, holder: string, token: nat, at: Time) {
    token in l.leases && l.leases[token].holder == holder && at < l.leases[token].expires
  }

  function IdealApply(l: Lane, op: Op): (Lane, Reply) {
    match op
    case Enter(holder, deadline, _, mid, later) => IdealTurn(Enqueue(l, holder), l.tickets, deadline, mid, later)
    case Poll(ticket, deadline, now, later) => IdealTurn(l, ticket, deadline, now, later)
    case Reenter(holder, token, now, later) =>
      if ExistsAt(l, holder, token, now) then (Renew(l, token, later), Granted(token)) else (l, BadReentry)
    case Beat(holder, token, now, later) =>
      if ExistsAt(l, holder, token, now) then (Renew(l, token, later), Answer(true)) else (l, Answer(false))
    case Free(holder, token, now, _) =>
      if ExistsAt(l, holder, token, now) then (Remove(l, token), Answer(true)) else (l, Answer(false))
    case Count(now, _) =>
      var n := |Live(l.leases, now)|;
      (l, Counts(l.capacity, n, |l.waiters|, n == 0 && l.waiters == []))
  }

  function IdealAfter(l: Lane, ops: seq<Op>): Lane {
    if ops == [] then l else IdealApply(IdealAfter(l, ops[..|ops| - 1]), ops[|ops| - 1]).0
  }

  function IdealAnswered(l: Lane, ops: seq<Op>): seq<Reply> {
    if ops == [] then []
    else IdealAnswered(l, ops[..|ops| - 1]) + [IdealApply(IdealAfter(l, ops[..|ops| - 1]), ops[|ops| - 1]).1]
  }

  /** The two lanes differ at most in leases that have lapsed. */
  predicate Alike(l: Lane, ideal: Lane, now: Time) {
    l.(leases := ideal.leases) == ideal && Live(l.leases, now) == Live(ideal.leases, now)
  }

  lemma AlikeLater(l: Lane, ideal: Lane, before: Time, now: Time)
    requires Alike(l, ideal, before) && before <= now
    ensures Alike(l, ideal, now) && Alike(Expire(l, now), ideal, now)
  {
    assert forall t :: t in Live(l.leases, now) <==> t in Live(l.leases, before) && l.leases[t].expires > now;
    assert forall t ::
        t in Live(ideal.leases, now) <==> t in Live(ideal.leases, before) && ideal.leases[t].expires > now;
    assert forall t :: t in Live(l.leases, before) ==> Live(l.leases, before)[t] == Live(ideal.leases, before)[t];
    assert Live(Live(l.leases, now), now) == Live(l.leases, now);
  }

  lemma {:induction false} TurnsAlike(l: Lane, ideal: Lane, ticket: nat, deadline: Time, at: Time, later: Time)
    requires Alike(l, ideal, at) && l.leases == Live(ideal.leases, at) && at <= later
    ensures Turn(l, ticket, deadline, later).1 == IdealTurn(ideal, ticket, deadline, at, later).1
    ensures Alike(Turn(l, ticket, deadline, later).0, IdealTurn(ideal, ticket, deadline, at, later).0, later)
  {
    AlikeLater(l, ideal, at, later);
    var m, n := Turn(l, ticket, deadline, later).0, IdealTurn(ideal, ticket, deadline, at, later).0;
    forall t
      ensures t in Live(m.leases, later) <==> t in Live(n.leases, later)
      ensures t in Live(m.leases, later) ==> m.leases[t] == n.leases[t]
    {
      if t != l.tokens {
        assert t in Live(l.leases, later) <==> t in Live(ideal.leases, later);
      }
    }
  }

  lemma {:induction false} EntersAlike(l: Lane, ideal: Lane, before: Time, op: Op)
    requires Alike(l, ideal, before) && before <= op.now && Clocked(op) && op.Enter?
    ensures Apply(l, op).1 == IdealApply(ideal, op).1
    ensures Alike(Apply(l, op).0, IdealApply(ideal, op).0, op.later)
  {
    AlikeLater(l, ideal, before, op.now);
    var q := Enqueue(Expire(l, op.now), op.holder);
    assert Alike(q, Enqueue(ideal, op.holder), op.now);
    AlikeLater(q, Enqueue(ideal, op.holder), op.now, op.mid);
    TurnsAlike(Expire(q, op.mid), Enqueue(ideal, op.holder), l.tickets, op.deadline, op.mid, op.later);
  }

  /** The same update of one token on both lanes. */
  lemma {:induction false} TokenAlike(e: Lane, ideal: Lane, m: Lane, n: Lane, now: Time, later: Time, token: nat)
    requires Alike(e, ideal, now) && now <= later
    requires m.(leases := n.leases) == n
    requires forall t :: t != token ==> (t in m.leases <==> t in e.leases) && (t in n.leases <==> t in ideal.leases)
    requires forall t :: t != token && t in m.leases ==> m.leases[t] == e.leases[t]
    requires forall t :: t != token && t in n.leases ==> n.leases[t] == ideal.leases[t]
    requires token in m.leases <==> token in n.leases
    requires token in m.leases ==> m.leases[token] == n.leases[token]
    ensures Alike(m, n, later)
  {
    AlikeLater(e, ideal, now, later);
    forall t
      ensures t in Live(m.leases, later) <==> t in Live(n.leases, later)
      ensures t in Live(m.leases, later) ==> m.leases[t] == n.leases[t]
    {
      assert t in Live(e.leases, later) <==> t in Live(ideal.leases, later);
    }
  }

  lemma {:induction false} TokenCallsAlike(l: Lane, ideal: Lane, before: Time, op: Op)
    requires Alike(l, ideal, before) && before <= op.now && Clocked(op) && (op.Reenter? || op.Beat? || op.Free?)
    ensures Apply(l, op).1 == IdealApply(ideal, op).1
    ensures Alike(Apply(l, op).0, IdealApply(ideal, op).0, op.later)
  {
    AlikeLater(l, ideal, before, op.now);
    var e := Expire(l, op.now);
    assert op.token in e.leases <==> op.token in Live(ideal.leases, op.now);
    assert op.token in e.leases ==> e.leases[op.token] == ideal.leases[op.token];
    assert HeldBy(e, op.holder, op.token) <==> ExistsAt(ideal, op.holder, op.token, op.now);
    if HeldBy(e, op.holder, op.token) {
      TokenAlike(e, ideal, Apply(l, op).0, IdealApply(ideal, op).0, op.now, op.later, op.token);
    } else {
      AlikeLater(e, ideal, op.now, op.later);
    }
  }

  lemma {:induction false} AppliesAlike(l: Lane, ideal: Lane, before: Time, op: Op)
    requires Alike(l, ideal, before) && before <= op.now && Clocked(op)
    ensures Apply(l, op).1 == IdealApply(ideal, op).1
    ensures Alike(Apply(l, op).0, IdealApply(ideal, op).0, op.later)
  {
    match op
    case Enter(_, _, _, _, _) => EntersAlike(l, ideal, before, op);
    case Poll(ticket, deadline, now, later) =>
      AlikeLater(l, ideal, before, now);
      TurnsAlike(Expire(l, now), ideal, ticket, deadline, now, later);
    case Count(now, later) =>
      AlikeLater(l, ideal, before, now);
      AlikeLater(Expire(l, now), ideal, now, later);
      if |Expire(l, now).leases| == 0 { assert Expire(l, now).leases == map[]; }
    case _ => TokenCallsAlike(l, ideal, before, op);
  }

  /** In every run every reply of the lane, counts included, is the reply of the reference lane. */
  lemma {:induction false} LazyExpiryIsUnobservable(capacity: nat, ttl: Time, start: Time, ops: seq<Op>)
    requires Scheduled(start, ops)
    ensures Answered(New(capacity, ttl), ops) == IdealAnswered(New(capacity, ttl), ops)
    ensures Alike(After(New(capacity, ttl), ops), IdealAfter(New(capacity, ttl), ops), EndOf(start, ops))
  {
    if ops != [] {
      var l0, before := New(capacity, ttl), ops[..|ops| - 1];
      LazyExpiryIsUnobservable(capacity, ttl, start, before);
      AppliesAlike(After(l0, before), IdealAfter(l0, before), EndOf(start, before), ops[|ops| - 1]);
    }
  }
}
