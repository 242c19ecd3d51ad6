/** The gateway as one interleaved transition system: every request's handler thread with its heartbeat and
    its upstream worker, the lanes they are admitted through, and the coalescing table they share. */
module Gateway {
  import opened Basics
  import opened Splice
  import opened Queues
  import opened Handoff
  import opened Coalescing
  import Lane = LaneModel

  datatype Provider = Provider(active: bool, capacity: nat)

  /** The byte length of a payload's block, `len(str(member_block or "").encode())`, or None where Python raises. */
  type Meter = Json -> Option<nat>

  /** `timeoutMax` is the longest wait the platform's threading primitives accept. */
  datatype Config = Config(
    providers: map<string, Provider>,
    leaseSeconds: Time,
    timeoutMax: Time,
    limit: int,
    fmt: Formatter,
    measure: Meter)

  /** A plain forward, a queue request that has not reached the table yet, or a member of a slot.
      The member at index 0 leads. */
  datatype Role =
    | Plain
    | Arriving
    | Coalesced(slot: nat, index: nat)

  /** Why a handler left by an exception nobody below it catches: reading the maintenance flag, the timeouts
      or the body; encoding the block; an empty flow id; joining or formatting the blocks; anything else between
      admission and the start of the upstream worker; a wait longer than the platform accepts.
      `Internal` is everything the gateway's own bookkeeping could raise. */
  datatype Cause =
    | FlagUnreadable
    | TimeoutUnreadable
    | BodyUnreadable
    | SizeUnmeasurable
    | NoHolder
    | Unbuildable
    | Unprepared
    | Overflowed
    | Internal

  /** Where the handler thread is. */
  datatype Pc =
    | Joining                                    // before the lock section of handle_queue
    | Entering                                   // before reading what is left of its queue deadline
    | Acquiring(remaining: Time)                 // before lane.acquire computes its own deadline
    | AtLane(until: Time)                        // waits for the lane's monitor to enter
    | Queued(ticket: nat, until: Time)           // blocked inside lane.acquire
    | Settled(verdict: Option<AalpResult>)       // leader: acquire is over, the slot is not closed yet
    | Admitted                                   // holds a token
    | Overdue                                    // total deadline seen past, token not released yet
    | Cleared                                    // leader: total deadline checked, nothing assembled yet
    | Assembled(body: Json)
    | Executing(payload: Option<Json>)           // heartbeat running, upstream worker not started
    | Forwarding                                 // inside forward()
    | Returned(delivery: Delivery)               // forward() is over, heartbeat not stopped yet
    | Finishing(result: AalpResult)              // leader: _finish_leader
    | Marked(result: AalpResult)                 // leader: generation DONE, result not written yet
    | Published(result: AalpResult)              // leader: result written, event not set yet
    | Watching                                   // joiner
    | Finished(result: AalpResult)               // returned
    | Escaped(cause: Cause)

  /** What a queue request brought: its key, its parsed body and the length measured for it. */
  datatype Submission = Submission(queueKey: string, payload: Json, size: nat)

  /** What a handler met that keeps it from calling upstream: the maintenance flag set, a body it could not use,
      a call refused by forward() with this message. */
  datatype Findings = Findings(maintenance: bool, malformed: bool, refused: Option<string>)

  /** `beat` is the clock reading of the grant or of the last heartbeat sent; `releases` counts the attempts
      made to release `token`, by the handler or by the late callback. */
  datatype Req = Req(
    provider: string,
    holder: string,
    role: Role,
    submitted: Option<Submission>,
    found: Findings,
    queueDeadline: Time,
    totalDeadline: Time,
    pc: Pc,
    token: Option<nat>,
    beat: Time,
    call: Call,
    releases: nat)

  datatype System = System(
    config: Config,
    now: Time,
    lanes: map<string, Lane.Lane>,
    table: Table,
    reqs: seq<Req>)

  predicate Configured(c: Config) {
    c.leaseSeconds > 0.0 && forall p :: p in c.providers ==> c.providers[p].capacity >= 1
  }

  predicate Active(c: Config, p: string) {
    p in c.providers && c.providers[p].active
  }

  function Init(c: Config, now: Time): System {
    System(c, now,
           map p | p in c.providers && c.providers[p].active :: Lane.New(c.providers[p].capacity, c.leaseSeconds),
           EMPTY, [])
  }

  function Plainly(outcome: Outcome): AalpResult {
    AalpResult(outcome, "")
  }

  // ----- Actions -----

  /** One step of a request's handler, heartbeat or upstream worker. `mid` and `later` are further clock
      readings of a lane section, which starts at the system's current time. */
  datatype Doing =
    | JoinQueue
    | ReadRemaining
    | SetDeadline
    | EnterLane(mid: Time, later: Time)
    | PollLane(later: Time)
    | CloseOpenSlot
    | CheckDeadline
    | ReturnSlot(later: Time)
    | Assemble(later: Time)
    | MarkInFlight
    | Escape
    | RefuseCall(text: string)
    | StartWorker
    | MoveWorker(move: Move)
    | CallBack(later: Time)
    | CallerDecides
    | CallerOverflows
    | Heartbeat(later: Time)
    | Conclude(later: Time)
    | MarkDone
    | Publish
    | Signal
    | WakeJoiner
    | TimeOutJoiner
    | JoinerOverflows

  /** What came of decoding a queue request's body: an exception that is not caught, one that is
      (or a value that is no object), or the payload. */
  datatype Received = Unreadable | Malformed | Parsed(payload: Json)

  /** A request as it comes in, with what its handler reads first: the maintenance flag and the two timeouts,
      each None where reading it raises. */
  datatype Opening = Opening(provider: string, maintenance: Option<bool>, total: Option<Time>, queue: Option<Time>)

  datatype Action =
    | Tick(at: Time)
    | ArriveForward(opening: Opening, flow: string, later: Time)
    | ArriveQueue(opening: Opening, queueKey: string, generationId: string, body: Received, later: Time)
    | ReadStatus(provider: string, later: Time)
    | Act(i: nat, doing: Doing)

  predicate Leads(r: Req) {
    r.role.Coalesced? && r.role.index == 0
  }

  predicate InTable(s: System, r: Req) {
    r.role.Coalesced? && r.role.slot < |s.table.slots|
  }

  predicate HasLane(s: System, r: Req) {
    r.provider in s.lanes && r.token.Some?
  }

  /** Leaders also need their slot, and only leaders pass through the slot steps. */
  predicate HandlerAt(s: System, r: Req) {
    r.role == Plain || (Leads(r) && InTable(s, r))
  }

  predicate Can(s: System, r: Req, d: Doing) {
    match d
    case JoinQueue => r.pc.Joining? && r.role.Arriving? && r.submitted.Some?
    case ReadRemaining => r.pc.Entering? && HandlerAt(s, r)
    case SetDeadline => r.pc.Acquiring? && HandlerAt(s, r)
    case EnterLane(mid, later) =>
      r.pc.AtLane? && HandlerAt(s, r) && r.provider in s.lanes && r.token.None? && s.now <= mid <= later
    case PollLane(later) =>
      r.pc.Queued? && HandlerAt(s, r) && r.provider in s.lanes && r.token.None? && s.now <= later
    case CloseOpenSlot => r.pc.Settled? && Leads(r) && InTable(s, r)
    case CheckDeadline => r.pc.Admitted? && HandlerAt(s, r)
    case ReturnSlot(later) => r.pc.Overdue? && HandlerAt(s, r) && HasLane(s, r) && s.now <= later
    case Assemble(later) => r.pc.Cleared? && Leads(r) && InTable(s, r) && HasLane(s, r) && s.now <= later
    case MarkInFlight => r.pc.Assembled? && Leads(r) && InTable(s, r)
    case Escape => r.pc.Executing? || ((r.pc.Cleared? || r.pc.Assembled?) && Leads(r) && InTable(s, r))
    case RefuseCall(_) => r.pc.Executing?
    case StartWorker => r.pc.Executing? && HandlerAt(s, r) && (Leads(r) ==> r.pc.payload.Some?)
    case MoveWorker(move) => Possible(r.call, move) && !move.Notify? && !move.Decide?
    case CallBack(later) => Possible(r.call, Notify) && HasLane(s, r) && s.now <= later
    case CallerDecides => r.pc.Forwarding? && Possible(r.call, Decide)
    case CallerOverflows => r.pc.Forwarding?
    case Heartbeat(later) =>
      (r.pc.Executing? || r.pc.Forwarding? || r.pc.Returned?) && HasLane(s, r) && s.now <= later
    case Conclude(later) => r.pc.Returned? && HandlerAt(s, r) && HasLane(s, r) && s.now <= later
    case MarkDone => r.pc.Finishing? && Leads(r) && InTable(s, r)
    case Publish => r.pc.Marked? && Leads(r) && InTable(s, r)
    case Signal => r.pc.Published? && Leads(r) && InTable(s, r)
    case WakeJoiner => r.pc.Watching? && InTable(s, r) && s.table.slots[r.role.slot].done
    case TimeOutJoiner =>
      r.pc.Watching? && InTable(s, r) && !s.table.slots[r.role.slot].done && r.totalDeadline <= s.now
    case JoinerOverflows =>
      && r.pc.Watching? && InTable(s, r) && !s.table.slots[r.role.slot].done
      && s.config.timeoutMax < r.totalDeadline - s.now
  }

  predicate Enabled(s: System, a: Action) {
    match a
    case Tick(at) => s.now <= at
    case ArriveForward(_, _, later) => s.now <= later
    case ArriveQueue(_, _, generationId, _, later) => s.now <= later && generationId != ""
    case ReadStatus(provider, later) => s.now <= later && provider in s.lanes
    case Act(i, doing) => i < |s.reqs| && Can(s, s.reqs[i], doing)
  }

  function Put(s: System, i: nat, r: Req): System
    requires i < |s.reqs|
  {
    s.(reqs := s.reqs[i := r])
  }

  function PutSlot(s: System, k: nat, slot: Slot): System
    requires k < |s.table.slots|
  {
    s.(table := s.table.(slots := s.table.slots[k := slot]))
  }

  function CallLane(s: System, p: string, op: Lane.Op): System
    requires p in s.lanes
  {
    s.(lanes := s.lanes[p := Lane.Apply(s.lanes[p], op).0], now := op.later)
  }

  /** Where a handler goes with its final result: a leader still has its generation to finish. */
  function Exit(r: Req, result: AalpResult): Pc {
    if Leads(r) then Finishing(result) else Finished(result)
  }

  /** A result reached before admission: a leader still has its slot to close. */
  function AfterVerdict(r: Req, result: AalpResult): Req {
    r.(pc := if Leads(r) then Settled(Some(result)) else Finished(result))
  }

  /** How one turn of the acquire loop moves its thread; `at` is the reading a grant is dated from. */
  function AfterTurn(r: Req, reply: Lane.Reply, until: Time, at: Time): Req {
    match reply
    case Granted(token) => r.(token := Some(token), beat := at, pc := if Leads(r) then Settled(None) else Admitted)
    case TimedOut => AfterVerdict(r, Plainly(QueueTimeout))
    case Blocked(ticket) => r.(pc := Queued(ticket, until))
    case _ => r.(pc := Escaped(Internal))
  }

  /** What no step changes about a request. */
  predicate SamePerson(r: Req, r': Req) {
    && r'.provider == r.provider && r'.holder == r.holder && r'.submitted == r.submitted
    && r'.queueDeadline == r.queueDeadline && r'.totalDeadline == r.totalDeadline
    && r'.found.maintenance == r.found.maintenance && r'.found.malformed == r.found.malformed
  }

  /** What only the steps that run a section of a lane change. */
  predicate SameSlot(r: Req, r': Req) {
    r'.token == r.token && r'.beat == r.beat && r'.releases == r.releases
  }

  /** From `s` to `t`, a step of request `i` that may have run a section of its lane: nobody else's affair. */
  ghost predicate Concerns(s: System, t: System, i: nat) {
    && t.config == s.config && s.now <= t.now
    && i < |s.reqs| == |t.reqs| && t.reqs == s.reqs[i := t.reqs[i]]
    && t.lanes.Keys == s.lanes.Keys
    && (forall p :: p in s.lanes && p != s.reqs[i].provider ==> t.lanes[p] == s.lanes[p])
    && var r, r' := s.reqs[i], t.reqs[i];
       && SamePerson(r, r') && r'.role == r.role && r.releases <= r'.releases
       && (r'.token == r.token || (r.token.None? && r'.releases == r.releases))
  }

  /** lane.release(holder, token), then on to `pc`. */
  function ReleaseAnd(s: System, i: nat, later: Time, pc: Pc): (t: System)
    requires i < |s.reqs| && HasLane(s, s.reqs[i]) && s.now <= later
    ensures Concerns(s, t, i) && t.table == s.table
  {
    var r := s.reqs[i];
    Put(CallLane(s, r.provider, Lane.Free(r.holder, r.token.value, s.now, later)), i,
        r.(pc := pc, releases := r.releases + 1))
  }

  // ----- Arrivals -----

  function Newcomer(s: System, o: Opening, holder: string, pc: Pc): Req {
    var found := Findings(o.maintenance == Some(true), false, None);
    Req(o.provider, holder, Plain, None, found, s.now + o.queue.GetOr(0.0), s.now + o.total.GetOr(0.0),
        pc, None, 0.0, IDLE, 0)
  }

  /** What both kinds of requests check first: where the handler ends, or None if it goes on. */
  function Early(s: System, o: Opening, later: Time): Option<Pc> {
    if o.maintenance.None? then Some(Escaped(FlagUnreadable))
    else if o.maintenance.value then Some(Finished(Plainly(Maintenance)))
    else if o.total.None? || o.queue.None? then Some(Escaped(TimeoutUnreadable))
    else if s.now + o.total.value <= later then Some(Finished(Plainly(TotalTimeout)))
    else None
  }

  function ForwardRequest(s: System, a: Action): Req
    requires a.ArriveForward?
  {
    var early := Early(s, a.opening, a.later);
    Newcomer(s, a.opening, a.flow,
             if early.Some? then early.value
             else if !Active(s.config, a.opening.provider) then Finished(Plainly(Unavailable))
             else Entering)
  }

  function QueueRequest(s: System, a: Action): Req
    requires a.ArriveQueue?
  {
    var early := Early(s, a.opening, a.later);
    if early.Some? then Newcomer(s, a.opening, a.generationId, early.value)
    else
      match a.body
      case Unreadable => Newcomer(s, a.opening, a.generationId, Escaped(BodyUnreadable))
      case Malformed =>
        Newcomer(s, a.opening, a.generationId, Finished(Plainly(Unavailable))).(found := Findings(false, true, None))
      case Parsed(payload) =>
        var size := s.config.measure(payload);
        if size.None? then Newcomer(s, a.opening, a.generationId, Escaped(SizeUnmeasurable))
        else
          Newcomer(s, a.opening, a.generationId, Joining)
          .(role := Arriving, submitted := Some(Submission(a.queueKey, payload, size.value)))
  }

  function Arrive(s: System, r: Req, later: Time): System {
    s.(now := later, reqs := s.reqs + [r])
  }

  // ----- Steps of a handler -----

  function DoJoinQueue(s: System, i: nat): System
    requires i < |s.reqs| && s.reqs[i].role.Arriving? && s.reqs[i].submitted.Some?
  {
    var r := s.reqs[i];
    var Submission(queueKey, payload, size) := r.submitted.value;
    var (t, placed) := Coalesce(s.table, (r.provider, queueKey), Member(i, payload, size), s.config.limit);
    var r' := match placed
              case Opened(k) => r.(role := Coalesced(k, 0), pc := Entering)
              case Joined(k, j) => r.(role := Coalesced(k, j), pc := Watching)
              case Raised => r.(pc := Escaped(Internal));
    Put(s.(table := t), i, r')
  }

  /** One reading of the clock against the queue deadline. */
  function DoReadRemaining(s: System, i: nat): System
    requires i < |s.reqs|
  {
    var r := s.reqs[i];
    Put(s, i,
        if r.provider !in s.lanes then AfterVerdict(r, Plainly(Unavailable))
        else if r.queueDeadline <= s.now then AfterVerdict(r, Plainly(QueueTimeout))
        else r.(pc := Acquiring(r.queueDeadline - s.now)))
  }

  /** The start of lane.acquire, before its monitor: a second reading. */
  function DoSetDeadline(s: System, i: nat): System
    requires i < |s.reqs| && s.reqs[i].pc.Acquiring?
  {
    var r := s.reqs[i];
    Put(s, i, r.(pc := if r.holder == "" then Escaped(NoHolder) else AtLane(s.now + r.pc.remaining)))
  }

  function DoEnterLane(s: System, i: nat, mid: Time, later: Time): (t: System)
    requires i < |s.reqs| && s.reqs[i].pc.AtLane? && s.reqs[i].provider in s.lanes
    requires s.now <= mid <= later && s.reqs[i].token.None?
    ensures Concerns(s, t, i) && t.table == s.table
  {
    var r := s.reqs[i];
    var op := Lane.Enter(r.holder, r.pc.until, s.now, mid, later);
    Put(CallLane(s, r.provider, op), i, AfterTurn(r, Lane.Apply(s.lanes[r.provider], op).1, r.pc.until, later))
  }

  function DoPollLane(s: System, i: nat, later: Time): (t: System)
    requires i < |s.reqs| && s.reqs[i].pc.Queued? && s.reqs[i].provider in s.lanes
    requires s.now <= later && s.reqs[i].token.None?
    ensures Concerns(s, t, i) && t.table == s.table
  {
    var r := s.reqs[i];
    var op := Lane.Poll(r.pc.ticket, r.pc.until, s.now, later);
    Put(CallLane(s, r.provider, op), i, AfterTurn(r, Lane.Apply(s.lanes[r.provider], op).1, r.pc.until, later))
  }

  function DoCloseOpenSlot(s: System, i: nat): System
    requires i < |s.reqs| && s.reqs[i].pc.Settled? && InTable(s, s.reqs[i])
  {
    var r := s.reqs[i];
    Put(s.(table := CloseSlot(s.table, r.role.slot)), i,
        r.(pc := if r.pc.verdict.None? then Admitted else Finishing(r.pc.verdict.value)))
  }

  function DoCheckDeadline(s: System, i: nat): System
    requires i < |s.reqs|
  {
    var r := s.reqs[i];
    Put(s, i, r.(pc := if r.totalDeadline <= s.now then Overdue else if Leads(r) then Cleared else Executing(None)))
  }

  function DoReturnSlot(s: System, i: nat, later: Time): (t: System)
    requires i < |s.reqs| && HasLane(s, s.reqs[i]) && s.now <= later
    ensures Concerns(s, t, i) && t.table == s.table
  {
    ReleaseAnd(s, i, later, Exit(s.reqs[i], Plainly(TotalTimeout)))
  }

  function DoAssemble(s: System, i: nat, later: Time): (t: System)
    requires i < |s.reqs| && HasLane(s, s.reqs[i]) && InTable(s, s.reqs[i]) && s.now <= later
    ensures Concerns(s, t, i)
  {
    var r := s.reqs[i];
    var slot := s.table.slots[r.role.slot];
    match Build(slot.members, s.config.fmt)
    case Body(tree) =>
      Put(PutSlot(s, r.role.slot, slot.(members := AfterBuild(slot.members, s.config.fmt))), i,
          r.(pc := Assembled(tree)))
    case Rejected => ReleaseAnd(s, i, later, Finishing(Plainly(Unavailable)))
    case Escapes => Put(s, i, r.(pc := Escaped(Unbuildable)))
  }

  function DoMarkInFlight(s: System, i: nat): System
    requires i < |s.reqs| && s.reqs[i].pc.Assembled? && InTable(s, s.reqs[i])
  {
    var r := s.reqs[i];
    var slot := s.table.slots[r.role.slot];
    if Started(slot.state).None? then
      Put(s.(table := s.table.(faults := s.table.faults + 1)), i, r.(pc := Escaped(Internal)))
    else
      Put(PutSlot(s, r.role.slot, slot.(state := Started(slot.state).value)), i, r.(pc := Executing(Some(r.pc.body))))
  }

  function DoStartWorker(s: System, i: nat): System
    requires i < |s.reqs| && s.reqs[i].pc.Executing?
    requires Leads(s.reqs[i]) ==> InTable(s, s.reqs[i]) && s.reqs[i].pc.payload.Some?
  {
    var r := s.reqs[i];
    var r' := r.(pc := Forwarding, call := STARTED);
    if Leads(r) then
      var slot := s.table.slots[r.role.slot];
      Put(PutSlot(s, r.role.slot, slot.(sent := slot.sent + [r.pc.payload.value])), i, r')
    else Put(s, i, r')
  }

  /** `_on_late_completion`: only a confirmed close gives the slot back. */
  function DoCallBack(s: System, i: nat, later: Time): (t: System)
    requires i < |s.reqs| && Possible(s.reqs[i].call, Notify) && HasLane(s, s.reqs[i]) && s.now <= later
    ensures Concerns(s, t, i) && t.table == s.table
  {
    var r := s.reqs[i];
    var r' := r.(call := Make(r.call, Notify));
    if r.call.worker.delivery.1 then
      Put(CallLane(s, r.provider, Lane.Free(r.holder, r.token.value, s.now, later)), i, r'.(releases := r.releases + 1))
    else Put(s, i, r')
  }

  function DoCallerDecides(s: System, i: nat): System
    requires i < |s.reqs| && Possible(s.reqs[i].call, Decide)
  {
    var call := Make(s.reqs[i].call, Decide);
    Put(s, i, s.reqs[i].(call := call, pc := Returned(call.returned.value)))
  }

  function DoHeartbeat(s: System, i: nat, later: Time): (t: System)
    requires i < |s.reqs| && HasLane(s, s.reqs[i]) && s.now <= later
    ensures Concerns(s, t, i) && t.table == s.table
  {
    var r := s.reqs[i];
    Put(CallLane(s, r.provider, Lane.Beat(r.holder, r.token.value, s.now, later)), i, r.(beat := later))
  }

  function DoConclude(s: System, i: nat, later: Time): (t: System)
    requires i < |s.reqs| && s.reqs[i].pc.Returned? && HasLane(s, s.reqs[i]) && s.now <= later
    ensures Concerns(s, t, i) && t.table == s.table
  {
    var r := s.reqs[i];
    var (result, closed) := r.pc.delivery;
    if closed then ReleaseAnd(s, i, later, Exit(r, result)) else Put(s, i, r.(pc := Exit(r, result)))
  }

  /** forward() raises ValueError before it starts a worker. */
  function DoRefuseCall(s: System, i: nat, text: string): System
    requires i < |s.reqs|
  {
    var r := s.reqs[i];
    Put(s, i, r.(pc := Returned((AalpResult(Unavailable, text), true)), found := r.found.(refused := Some(text))))
  }

  function DoEscape(s: System, i: nat, cause: Cause): System
    requires i < |s.reqs|
  {
    Put(s, i, s.reqs[i].(pc := Escaped(cause)))
  }

  /** The guarded transitions of `_finish_leader`; a guard that lets a raising call through would be a fault. */
  function FinishState(state: GenState): GenState {
    var ready := if state.Open? then Sealed(state).GetOr(state) else state;
    var flying := if ready.Ready? then Started(ready).GetOr(ready) else ready;
    if flying.InFlight? then Completed(flying).GetOr(flying) else flying
  }

  /** A step of `_finish_leader`: the slot changes to `slot`, the handler moves to `pc`. */
  function Settle(s: System, i: nat, slot: Slot, pc: Pc): System
    requires i < |s.reqs| && InTable(s, s.reqs[i])
  {
    Put(PutSlot(s, s.reqs[i].role.slot, slot), i, s.reqs[i].(pc := pc))
  }

  function DoMarkDone(s: System, i: nat): System
    requires i < |s.reqs| && s.reqs[i].pc.Finishing? && InTable(s, s.reqs[i])
  {
    var slot := s.table.slots[s.reqs[i].role.slot];
    Settle(s, i, slot.(state := FinishState(slot.state)), Marked(s.reqs[i].pc.result))
  }

  function DoPublish(s: System, i: nat): System
    requires i < |s.reqs| && s.reqs[i].pc.Marked? && InTable(s, s.reqs[i])
  {
    var slot := s.table.slots[s.reqs[i].role.slot];
    Settle(s, i, slot.(results := slot.results + [s.reqs[i].pc.result]), Published(s.reqs[i].pc.result))
  }

  function DoSignal(s: System, i: nat): System
    requires i < |s.reqs| && s.reqs[i].pc.Published? && InTable(s, s.reqs[i])
  {
    Settle(s, i, s.table.slots[s.reqs[i].role.slot].(done := true), Finished(s.reqs[i].pc.result))
  }

  function DoWakeJoiner(s: System, i: nat): System
    requires i < |s.reqs| && InTable(s, s.reqs[i])
  {
    var results := s.table.slots[s.reqs[i].role.slot].results;
    Put(s, i, s.reqs[i].(pc := if results == [] then Escaped(Internal) else Finished(results[|results| - 1])))
  }

  predicate RunsLane(d: Doing) {
    || d.EnterLane? || d.PollLane? || d.ReturnSlot? || d.CallBack? || d.Conclude? || d.Assemble? || d.Heartbeat?
  }

  predicate ChangesTable(d: Doing) {
    || d.JoinQueue? || d.CloseOpenSlot? || d.MarkInFlight? || d.StartWorker? || d.MarkDone? || d.Publish? || d.Signal?
  }

  /** One turn of the acquire loop. */
  function DoTurn(s: System, i: nat, d: Doing): (t: System)
    requires i < |s.reqs| && Can(s, s.reqs[i], d) && (d.EnterLane? || d.PollLane?)
    ensures Concerns(s, t, i) && t.table == s.table
  {
    match d
    case EnterLane(mid, later) => DoEnterLane(s, i, mid, later)
    case PollLane(later) => DoPollLane(s, i, later)
  }

  /** Steps that may run a section of the request's lane. */
  function DoLane(s: System, i: nat, d: Doing): (t: System)
    requires i < |s.reqs| && Can(s, s.reqs[i], d) && RunsLane(d)
    ensures Concerns(s, t, i) && (!d.Assemble? ==> t.table == s.table)
  {
    match d
    case EnterLane(_, _) => DoTurn(s, i, d)
    case PollLane(_) => DoTurn(s, i, d)
    case ReturnSlot(later) => DoReturnSlot(s, i, later)
    case Assemble(later) => DoAssemble(s, i, later)
    case CallBack(later) => DoCallBack(s, i, later)
    case Heartbeat(later) => DoHeartbeat(s, i, later)
    case Conclude(later) => DoConclude(s, i, later)
  }

  /** Steps on the coalescing table. */
  function DoSlot(s: System, i: nat, d: Doing): (t: System)
    requires i < |s.reqs| && Can(s, s.reqs[i], d) && ChangesTable(d)
    ensures t.config == s.config && t.now == s.now && t.lanes == s.lanes
    ensures |t.reqs| == |s.reqs| && t.reqs == s.reqs[i := t.reqs[i]]
    ensures SamePerson(s.reqs[i], t.reqs[i]) && SameSlot(s.reqs[i], t.reqs[i])
    ensures d.JoinQueue? || t.reqs[i].role == s.reqs[i].role
  {
    match d
    case JoinQueue => DoJoinQueue(s, i)
    case CloseOpenSlot => DoCloseOpenSlot(s, i)
    case MarkInFlight => DoMarkInFlight(s, i)
    case StartWorker => DoStartWorker(s, i)
    case MarkDone => DoMarkDone(s, i)
    case Publish => DoPublish(s, i)
    case Signal => DoSignal(s, i)
  }

  /** Steps that concern the request alone. */
  function DoAlone(s: System, i: nat, d: Doing): (t: System)
    requires i < |s.reqs| && Can(s, s.reqs[i], d) && !RunsLane(d) && !ChangesTable(d)
    ensures |t.reqs| == |s.reqs| && t == s.(reqs := s.reqs[i := t.reqs[i]])
    ensures SamePerson(s.reqs[i], t.reqs[i]) && SameSlot(s.reqs[i], t.reqs[i]) && t.reqs[i].role == s.reqs[i].role
  {
    match d
    case ReadRemaining => DoReadRemaining(s, i)
    case SetDeadline => DoSetDeadline(s, i)
    case CheckDeadline => DoCheckDeadline(s, i)
    case Escape => DoEscape(s, i, Unprepared)
    case RefuseCall(text) => DoRefuseCall(s, i, text)
    case MoveWorker(move) => Put(s, i, s.reqs[i].(call := Make(s.reqs[i].call, move)))
    case CallerDecides => DoCallerDecides(s, i)
    case CallerOverflows => DoEscape(s, i, Overflowed)
    case WakeJoiner => DoWakeJoiner(s, i)
    case TimeOutJoiner => Put(s, i, s.reqs[i].(pc := Finished(Plainly(TotalTimeout))))
    case JoinerOverflows => DoEscape(s, i, Overflowed)
  }

  /** One step. The contracts of the three kinds of steps say whom it concerns: one request, which stays who it is,
      and that request's lane or the table. */
  function Do(s: System, i: nat, d: Doing): System
    requires i < |s.reqs| && Can(s, s.reqs[i], d)
  {
    if RunsLane(d) then DoLane(s, i, d) else if ChangesTable(d) then DoSlot(s, i, d) else DoAlone(s, i, d)
  }

  function Next(s: System, a: Action): System
    requires Enabled(s, a)
  {
    match a
    case Tick(at) => s.(now := at)
    case ArriveForward(_, _, later) => Arrive(s, ForwardRequest(s, a), later)
    case ArriveQueue(_, _, _, _, later) => Arrive(s, QueueRequest(s, a), later)
    case ReadStatus(provider, later) => CallLane(s, provider, Lane.Count(s.now, later))
    case Act(i, doing) => Do(s, i, doing)
  }

  // ----- Runs -----

  predicate Allows(s: System, acts: seq<Action>)
    decreases |acts|
  {
    acts == [] || (Enabled(s, acts[0]) && Allows(Next(s, acts[0]), acts[1..]))
  }

  function Run(s: System, acts: seq<Action>): System
    requires Allows(s, acts)
    decreases |acts|
  {
    if acts == [] then s else Run(Next(s, acts[0]), acts[1..])
  }
}
