/** The deadline hand-off inside `forward` (aalp/forwarder.py): one worker thread, one caller, one lock. */
module Handoff {
  import opened Basics

  datatype Outcome =
    | Success | Unavailable | QueueTimeout | CompressionTimeout
    | TotalTimeout | InvalidResponse | UpstreamError | Maintenance

  /** `content` stands for status, headers, body and message. */
  datatype AalpResult = AalpResult(outcome: Outcome, content: string)

  type Delivery = (AalpResult, bool)

  // ----- Classification of one upstream call -----

  /** How request() and getresponse() end; `Unexpected` is any exception that nobody in the worker catches,
      there or while the successful result is put together. */
  datatype Exchange = Responded | TimedOut(text: string) | Failed(text: string) | Unexpected

  datatype Reading = Read(content: string) | ReadTimedOut(text: string) | ReadFailed(text: string)

  /** The worker's `result` variable, None where it stays unbound. */
  function Classify(exchange: Exchange, reading: Reading): Option<AalpResult> {
    match exchange
    case TimedOut(text) => Some(AalpResult(CompressionTimeout, text))
    case Failed(text) => Some(AalpResult(UpstreamError, text))
    case Unexpected => None
    case Responded =>
      match reading
      case Read(content) => Some(AalpResult(Success, content))
      case ReadTimedOut(text) => Some(AalpResult(CompressionTimeout, text))
      case ReadFailed(text) => Some(AalpResult(InvalidResponse, text))
  }

  /** How request(), getresponse() and read() really went. */
  datatype Exchanged = Exchanged(exchange: Exchange, reading: Reading)

  /** The result says what happened: a success carries the content that was read, every failure its own text. */
  predicate Reports(a: AalpResult, e: Exchanged) {
    match a.outcome
    case Success => e.exchange.Responded? && e.reading == Read(a.content)
    case CompressionTimeout =>
      e.exchange == TimedOut(a.content) || (e.exchange.Responded? && e.reading == ReadTimedOut(a.content))
    case UpstreamError => e.exchange == Failed(a.content)
    case InvalidResponse => e.exchange.Responded? && e.reading == ReadFailed(a.content)
    case _ => false
  }

  // ----- The protocol -----

  datatype Worker =
    | Unstarted
    | Calling
    | Closing(result: Option<AalpResult>)
    | Posting(result: Option<AalpResult>, closed: bool)
    | Notifying(delivery: Delivery)
    | Ended(delivery: Delivery)
    | Died

  /** `box` and `gaveUp` are shared under the lock; `returned` is what the caller's `forward` returned
      and `late` the calls made to `on_late_completion`. The rest is history: how the exchange really went,
      and whether the connection's close() succeeded. */
  datatype Call = Call(
    worker: Worker,
    box: seq<Delivery>,
    gaveUp: bool,
    returned: Option<Delivery>,
    late: seq<Delivery>,
    exchanged: Option<Exchanged>,
    closed: Option<bool>)

  const IDLE := Call(Unstarted, [], false, None, [], None, None)
  const STARTED := Call(Calling, [], false, None, [], None, None)

  function NoResponse(): Delivery {
    (AalpResult(CompressionTimeout, "no response within the timeout"), false)
  }

  datatype Move =
    | Finish(exchange: Exchange, reading: Reading)
    | Close(confirmed: bool)
    | Post
    | Notify
    | Decide

  /** `Decide` needs no worker progress: the caller's join can time out at any point. */
  predicate Possible(c: Call, m: Move) {
    match m
    case Finish(_, _) => c.worker.Calling?
    case Close(_) => c.worker.Closing?
    case Post => c.worker.Posting?
    case Notify => c.worker.Notifying?
    case Decide => !c.worker.Unstarted? && c.returned.None?
  }

  /** The worker's lock section. An unbound result raises inside it, so nothing is posted. */
  function PostTo(c: Call): Call
    requires c.worker.Posting?
  {
    if c.worker.result.None? then c.(worker := Died)
    else
      var d := (c.worker.result.value, c.worker.closed);
      c.(box := c.box + [d], worker := if c.gaveUp then Notifying(d) else Ended(d))
  }

  /** The caller's lock section. */
  function DecideFrom(c: Call): Call {
    if c.box != [] then c.(returned := Some(c.box[0]))
    else c.(gaveUp := true, returned := Some(NoResponse()))
  }

  function Make(c: Call, m: Move): Call
    requires Possible(c, m)
  {
    match m
    case Finish(exchange, reading) =>
      c.(worker := Closing(Classify(exchange, reading)), exchanged := Some(Exchanged(exchange, reading)))
    case Close(confirmed) => c.(worker := Posting(c.worker.result, confirmed), closed := Some(confirmed))
    case Post => PostTo(c)
    case Notify => c.(late := c.late + [c.worker.delivery], worker := Ended(c.worker.delivery))
    case Decide => DecideFrom(c)
  }

  /** Started, and its connection's close() has not succeeded. */
  predicate StillOpen(c: Call) {
    !c.worker.Unstarted? && c.closed != Some(true)
  }

  /** A result that was bound reports the exchange; one that was not is due to an exception nobody catches. */
  predicate BoundRight(result: Option<AalpResult>, exchanged: Option<Exchanged>) {
    && exchanged.Some?
    && (result.None? <==> exchanged.value.exchange.Unexpected?)
    && (result.Some? ==> Reports(result.value, exchanged.value))
  }

  /** A pair tells how the exchange went and how the connection was closed. */
  predicate Tells(d: Delivery, c: Call) {
    BoundRight(Some(d.0), c.exchanged) && c.closed == Some(d.1)
  }

  predicate Consistent(c: Call) {
    && (c.gaveUp ==> c.returned == Some(NoResponse()))
    && (c.returned.Some? && !c.gaveUp ==> c.box != [] && c.returned == Some(c.box[0]))
    && match c.worker
       case Unstarted => c == IDLE
       case Calling => c.box == [] && c.late == [] && c.exchanged.None? && c.closed.None?
       case Closing(result) => c.box == [] && c.late == [] && BoundRight(result, c.exchanged) && c.closed.None?
       case Posting(result, closed) =>
         c.box == [] && c.late == [] && BoundRight(result, c.exchanged) && c.closed == Some(closed)
       case Notifying(d) => c.box == [d] && c.gaveUp && c.late == [] && Tells(d, c)
       case Ended(d) => c.box == [d] && c.late == (if c.gaveUp then [d] else []) && Tells(d, c)
       case Died => c.box == [] && c.late == [] && BoundRight(None, c.exchanged) && c.closed.Some?
  }

  lemma MakeKeepsConsistent(c: Call, m: Move)
    requires Consistent(c) && Possible(c, m)
    ensures Consistent(Make(c, m))
  {
  }

  // ----- Whole runs -----

  predicate Allowed(c: Call, moves: seq<Move>)
    decreases |moves|
  {
    moves == [] || (Possible(c, moves[0]) && Allowed(Make(c, moves[0]), moves[1..]))
  }

  function Play(c: Call, moves: seq<Move>): Call
    requires Allowed(c, moves)
    decreases |moves|
  {
    if moves == [] then c else Play(Make(c, moves[0]), moves[1..])
  }

  predicate Over(c: Call) {
    (c.worker.Ended? || c.worker.Died?) && c.returned.Some?
  }

  lemma {:induction false} PlayKeepsConsistent(c: Call, moves: seq<Move>)
    requires Consistent(c) && Allowed(c, moves)
    ensures Consistent(Play(c, moves))
    decreases |moves|
  {
    if moves != [] {
      MakeKeepsConsistent(c, moves[0]);
      PlayKeepsConsistent(Make(c, moves[0]), moves[1..]);
    }
  }

  /** How often the pair `d` has reached the caller's side, by return value or by callback. */
  function Deliveries(c: Call, d: Delivery): nat {
    (if c.returned == Some(d) && !c.gaveUp then 1 else 0) + multiset(c.late)[d]
  }

  predicate Unbound(c: Call) {
    c.worker.Died? || ((c.worker.Closing? || c.worker.Posting?) && c.worker.result.None?)
  }

  lemma {:induction false} DiesIffUnexpected(c: Call, moves: seq<Move>)
    requires Consistent(c) && !c.worker.Unstarted? && Allowed(c, moves)
    ensures Unbound(Play(c, moves)) <==>
              Unbound(c) || exists i :: 0 <= i < |moves| && moves[i].Finish? && moves[i].exchange.Unexpected?
    decreases |moves|
  {
    if moves != [] {
      MakeKeepsConsistent(c, moves[0]);
      DiesIffUnexpected(Make(c, moves[0]), moves[1..]);
      var more := moves[1..];
      if i :| 0 <= i < |more| && more[i].Finish? && more[i].exchange.Unexpected? {
        assert moves[i + 1] == more[i];
      }
      if i :| 0 <= i < |moves| && moves[i].Finish? && moves[i].exchange.Unexpected? {
        assert i == 0 || moves[i] == more[i - 1];
      }
    }
  }

  /** In every finished interleaving the worker's pair was delivered exactly once exactly when the worker
      got as far as binding a result; otherwise nothing was delivered. A caller that gave up returned
      an unconfirmed close. */
  lemma {:induction false} DeliveredExactlyOnce(moves: seq<Move>)
    requires Allowed(STARTED, moves) && Over(Play(STARTED, moves))
    ensures var c := Play(STARTED, moves);
            && (c.worker.Ended? ==>
                  && Deliveries(c, c.worker.delivery) == 1
                  && (c.late == [] <==> !c.gaveUp)
                  && (!c.gaveUp ==> c.returned == Some(c.worker.delivery))
                  && (c.gaveUp ==> c.late == [c.worker.delivery]))
            && (c.worker.Died? ==> forall d :: Deliveries(c, d) == 0)
            && (c.gaveUp ==> !c.returned.value.1)
    ensures Play(STARTED, moves).worker.Died? <==>
              exists i :: 0 <= i < |moves| && moves[i].Finish? && moves[i].exchange.Unexpected?
  {
    PlayKeepsConsistent(STARTED, moves);
    DiesIffUnexpected(STARTED, moves);
  }

  /** The history is that of the moves: the exchange of the one Finish, the outcome of the one Close. */
  lemma {:induction false} RemembersMoves(c: Call, moves: seq<Move>)
    requires Consistent(c) && Allowed(c, moves)
    ensures var d := Play(c, moves);
            && (forall e, r :: Finish(e, r) in moves ==> d.exchanged == Some(Exchanged(e, r)))
            && (forall b :: Close(b) in moves ==> d.closed == Some(b))
            && (d.exchanged == c.exchanged
                || (d.exchanged.Some? && Finish(d.exchanged.value.exchange, d.exchanged.value.reading) in moves))
            && (d.closed == c.closed || (d.closed.Some? && Close(d.closed.value) in moves))
            && (c.exchanged.Some? ==> d.exchanged == c.exchanged) && (c.closed.Some? ==> d.closed == c.closed)
    decreases |moves|
  {
    if moves != [] {
      MakeKeepsConsistent(c, moves[0]);
      assert moves == [moves[0]] + moves[1..];
      RemembersMoves(Make(c, moves[0]), moves[1..]);
    }
  }

  /** What forward() told its caller: how the exchange went, or that no response came in time. */
  predicate Told(c: Call, a: AalpResult) {
    && c.returned.Some? && c.returned.value.0 == a
    && if c.gaveUp then a.outcome == CompressionTimeout && !c.returned.value.1
       else c.exchanged.Some? && Reports(a, c.exchanged.value) && c.closed == Some(c.returned.value.1)
  }

  lemma ToldTruly(c: Call)
    requires Consistent(c) && c.returned.Some?
    ensures Told(c, c.returned.value.0)
  {
  }

  /** What reached the caller's side: the pair posted, the pair returned by a caller that did not give up,
      the pair given to the callback. */
  predicate Delivered(c: Call, d: Delivery) {
    d in c.box || d in c.late || (c.returned == Some(d) && !c.gaveUp)
  }

  /** How the exchange went, according to the moves. */
  ghost predicate Went(moves: seq<Move>, e: Exchanged) {
    Finish(e.exchange, e.reading) in moves
  }

  /** In every interleaving there is at most one exchange and one close, and every pair delivered tells their true
      outcome: SUCCESS exactly if a response was read, with the content that was read; COMPRESSION_TIMEOUT exactly if
      the exchange or the reading timed out, UPSTREAM_ERROR exactly if the exchange failed, INVALID_RESPONSE exactly
      if the reading failed, each with its own text; no other outcome; and a confirmed close exactly if close()
      succeeded. A caller that gave up has COMPRESSION_TIMEOUT and an unconfirmed close. */
  lemma {:induction false} DeliveriesAreTrue(moves: seq<Move>, d: Delivery)
    requires Allowed(STARTED, moves)
    ensures forall e, e' :: Went(moves, e) && Went(moves, e') ==> e == e'
    ensures forall b, b' :: Close(b) in moves && Close(b') in moves ==> b == b'
    ensures var c := Play(STARTED, moves);
            && (Delivered(c, d) ==> Close(d.1) in moves && exists e :: Went(moves, e) && Reports(d.0, e))
            && (c.gaveUp ==> c.returned.Some? && c.returned.value.0.outcome == CompressionTimeout
                             && !c.returned.value.1)
    ensures Delivered(Play(STARTED, moves), d) ==> forall e :: Went(moves, e) ==>
              && (d.0.outcome == Success <==> e.exchange.Responded? && e.reading.Read?)
              && (d.0.outcome == CompressionTimeout <==>
                    e.exchange.TimedOut? || (e.exchange.Responded? && e.reading.ReadTimedOut?))
              && (d.0.outcome == UpstreamError <==> e.exchange.Failed?)
              && (d.0.outcome == InvalidResponse <==> e.exchange.Responded? && e.reading.ReadFailed?)
  {
    PlayKeepsConsistent(STARTED, moves);
    RemembersMoves(STARTED, moves);
    var c := Play(STARTED, moves);
    if Delivered(c, d) {
      assert Tells(d, c);
      assert Went(moves, c.exchanged.value) && Reports(d.0, c.exchanged.value);
    }
  }

  function Remaining(c: Call): nat {
    (match c.worker
     case Unstarted => 4
     case Calling => 4
     case Closing(_) => 3
     case Posting(_, _) => 2
     case Notifying(_) => 1
     case _ => 0)
    + if c.returned.None? then 1 else 0
  }

  lemma {:induction false} MovesAreBounded(c: Call, moves: seq<Move>)
    requires !c.worker.Unstarted? && Allowed(c, moves)
    ensures |moves| <= Remaining(c)
    ensures !Play(c, moves).worker.Unstarted?
    decreases |moves|
  {
    if moves != [] {
      MovesAreBounded(Make(c, moves[0]), moves[1..]);
    }
  }

  /** No interleaving gets stuck before both threads are done, and none has more than five moves. */
  lemma {:induction false} RunsFinish(moves: seq<Move>)
    requires Allowed(STARTED, moves)
    ensures |moves| <= 5
    ensures Over(Play(STARTED, moves)) || exists m :: Possible(Play(STARTED, moves), m)
  {
    PlayKeepsConsistent(STARTED, moves);
    MovesAreBounded(STARTED, moves);
    var c := Play(STARTED, moves);
    assert c.worker.Calling? ==> Possible(c, Finish(Unexpected, Read("")));
    assert c.worker.Closing? ==> Possible(c, Close(true));
    assert c.worker.Posting? ==> Possible(c, Post);
    assert c.worker.Notifying? ==> Possible(c, Notify);
    assert c.returned.None? ==> Possible(c, Decide);
  }

  // ----- The shared cell -----

  /** `outcome_box` and `caller_gave_up`, with the two lock sections that touch them. */
  class OutcomeCell {
    var box: seq<Delivery>
    var gaveUp: bool

    constructor ()
      ensures box == STARTED.box && gaveUp == STARTED.gaveUp
    {
      box, gaveUp := [], false;
    }

    /** The worker's section; `notifyLate` is whether it must call `on_late_completion` afterwards. */
    method Deposit(result: AalpResult, closed: bool, ghost c: Call) returns (notifyLate: bool)
      requires c.worker == Posting(Some(result), closed) && c.box == box && c.gaveUp == gaveUp
      modifies this
      ensures box == PostTo(c).box && gaveUp == PostTo(c).gaveUp
      ensures notifyLate <==> PostTo(c).worker == Notifying((result, closed))
    {
      box := box + [(result, closed)];
      notifyLate := gaveUp;
    }

    /** The caller's section, and the pair `forward` returns. */
    method Collect(ghost c: Call) returns (answer: Delivery)
      requires c.box == box && c.gaveUp == gaveUp
      modifies this
      ensures box == DecideFrom(c).box && gaveUp == DecideFrom(c).gaveUp
      ensures DecideFrom(c).returned == Some(answer)
    {
      if box != [] {
        return box[0];
      }
      gaveUp := true;
      return NoResponse();
    }
  }
}
