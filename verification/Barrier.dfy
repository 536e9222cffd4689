/** The ordered-write protocol of a queue that orders by draining.

    A barrier at the head of the dispatch list is replaced by a sequence of proxies
    (pre-flush, barrier proxy, post-flush), each released to the driver only when all
    earlier stages are over.  The state below holds the fields the code keeps, followed by
    history that only the statements of properties read: the number of barriers submitted
    before a request (its epoch), which of the barriers were empty, the requests submitted and
    completed, the stages whose proxy has come back, the errors reported in the running
    sequence, and the error each finished barrier ended with. */
module Barrier {
  import opened Common

  // ----- requests and stages -----

  /** In stage order; each is one bit of `ordseq`. */
  datatype Stage = Started | Drain | PreFlush | Bar | PostFlush | Done

  function Rank(s: Stage): nat {
    match s
    case Started => 0
    case Drain => 1
    case PreFlush => 2
    case Bar => 3
    case PostFlush => 4
    case Done => 5
  }

  datatype Rq =
    | Fs(id: nat, epoch: nat, barrier: bool, empty: bool, color: bool)
    | PreRq
    | BarRq
    | PostRq

  /** `stop` is set when one of SOFTBARRIER, HARDBARRIER and STARTED is. */
  datatype Entry = Entry(rq: Rq, stop: bool)

  datatype Mode = DrainOnly | DrainFlush | DrainFua

  datatype Q = Q(
    mode: Mode,
    queue: seq<Entry>,
    sorted: set<Rq>,
    driver: set<Rq>,
    inFlight: int,
    ordcolor: bool,
    ordseq: set<Stage>,
    doPre: bool, doBar: bool, doPost: bool,
    orig: Option<Rq>,
    orderr: int,
    // history
    nextId: nat,
    barriers: nat,
    empties: seq<bool>,
    submitted: set<Rq>,
    completed: set<Rq>,
    finished: set<Stage>,
    errors: seq<int>,
    ended: seq<int>)

  function Init(mode: Mode): Q {
    Q(mode, [], {}, {}, 0, false, {}, false, false, false, None, 0, 0, 0, [], {}, {}, {}, [], [])
  }

  /** fs requests and the barrier proxy are accounted as in flight; flushes are not. */
  predicate Accounted(rq: Rq) { rq.Fs? || rq.BarRq? }

  /** `blk_ordered_cur_seq` while a sequence is running: the lowest stage not yet over. */
  function CurSeq(ordseq: set<Stage>): Stage {
    if Started !in ordseq then Started
    else if Drain !in ordseq then Drain
    else if PreFlush !in ordseq then PreFlush
    else if Bar !in ordseq then Bar
    else if PostFlush !in ordseq then PostFlush
    else Done
  }

  /** `blk_ordered_req_seq`: fs requests are told apart by their colour. */
  function ReqSeq(q: Q, rq: Rq): Stage
    requires q.orig.Some? && q.orig.value.Fs?
  {
    match rq
    case PreRq => PreFlush
    case BarRq => Bar
    case PostRq => PostFlush
    case Fs(_, _, _, _, color) => if color == q.orig.value.color then Drain else Done
  }

  /** `blk_ordered_complete_seq`; the flag says that the whole sequence is over. */
  function CompleteSeq(q: Q, seqs: set<Stage>, error: int): (Q, bool) {
    var q1 := q.(orderr := if error != 0 && q.orderr == 0 then error else q.orderr,
                 errors := q.errors + [error],
                 ordseq := q.ordseq + seqs);
    if CurSeq(q1.ordseq) != Done then (q1, false)
    else (q1.(ordseq := {}, ended := q1.ended + [q1.orderr]), true)
  }

  function Front(queue: seq<Entry>, yes: bool, rq: Rq): seq<Entry> {
    if yes then [Entry(rq, true)] + queue else queue
  }

  datatype Verdict = Gone | Blocked | Give

  /** Stages of the sequence that have nothing to do. */
  function Skipped(doPre: bool, doBar: bool, doPost: bool, idle: bool): set<Stage> {
    (if doPost then {} else {PostFlush}) + (if doBar then {} else {Bar})
    + (if doPre then {} else {PreFlush}) + (if idle then {Drain} else {})
  }

  /** The head barrier is stashed away and its proxies are stacked at the head in its place.
      An empty barrier has no proxy of its own and needs no post-flush. */
  function StackProxies(q: Q): Q
    requires |q.queue| > 0 && q.queue[0].rq.Fs?
  {
    var rq := q.queue[0].rq;
    var doPre, doBar, doPost := q.mode != DrainOnly, !rq.empty, q.mode == DrainFlush && !rq.empty;
    q.(queue := Front(Front(Front(q.queue[1..], doPost, PostRq), doBar, BarRq), doPre, PreRq),
       ordseq := q.ordseq + {Started}, doPre := doPre, doBar := doBar, doPost := doPost,
       orig := Some(rq), orderr := 0, errors := [], finished := {})
  }

  /** `start_ordered` on the barrier at the head of the queue. */
  function StartOrdered(q: Q): (Q, Verdict)
    requires |q.queue| > 0 && q.queue[0].rq.Fs?
  {
    var q1 := StackProxies(q);
    var (q2, over) := CompleteSeq(q1, Skipped(q1.doPre, q1.doBar, q1.doPost, q.inFlight == 0), 0);
    (q2, if over then Gone else if q.inFlight != 0 then Blocked else Give)
  }

  /** `blk_do_ordered` on the head of the queue. */
  function DoOrdered(q: Q): (Q, Verdict)
    requires |q.queue| > 0
    requires q.ordseq != {} ==> q.orig.Some? && q.orig.value.Fs?
  {
    var rq := q.queue[0].rq;
    if q.ordseq == {} then
      if rq.Fs? && rq.barrier then StartOrdered(q) else (q, Give)
    else if Rank(ReqSeq(q, rq)) > Rank(CurSeq(q.ordseq)) then (q, Blocked)
    else (q, Give)
  }

  /** `blk_dequeue_request` on the head, which goes to the driver. */
  function HandOver(q: Q): Q
    requires |q.queue| > 0
  {
    var rq := q.queue[0].rq;
    q.(queue := q.queue[1..], driver := q.driver + {rq}, inFlight := q.inFlight + if Accounted(rq) then 1 else 0)
  }

  /** The head is shown to the driver and marked STARTED. */
  function Peeked(q: Q): Q
    requires |q.queue| > 0
  {
    q.(queue := q.queue[0 := q.queue[0].(stop := true)])
  }

  /** `blk_peek_request` and, when `start` is set, `blk_start_request`. */
  function Fetch(q: Q, start: bool): Q
    requires |q.queue| > 0
    requires q.ordseq != {} ==> q.orig.Some? && q.orig.value.Fs?
  {
    var (q1, v) := DoOrdered(q);
    if v != Give || |q1.queue| == 0 then q1 else if start then HandOver(q1) else Peeked(q1)
  }

  /** Index at which `elv_insert` puts a requeued request while a sequence is running. */
  function RequeueIndex(q: Q, rq: Rq, from: nat): (i: nat)
    requires q.orig.Some? && q.orig.value.Fs? && from <= |q.queue|
    ensures from <= i <= |q.queue|
    ensures forall j :: from <= j < i ==> Rank(ReqSeq(q, q.queue[j].rq)) < Rank(ReqSeq(q, rq))
    ensures i < |q.queue| ==> Rank(ReqSeq(q, rq)) <= Rank(ReqSeq(q, q.queue[i].rq))
    decreases |q.queue| - from
  {
    if from == |q.queue| || Rank(ReqSeq(q, rq)) <= Rank(ReqSeq(q, q.queue[from].rq)) then from
    else RequeueIndex(q, rq, from + 1)
  }

  function Insert(queue: seq<Entry>, i: nat, e: Entry): seq<Entry>
    requires i <= |queue|
  {
    queue[..i] + [e] + queue[i..]
  }

  /** `elv_requeue_request`. */
  function Requeue(q: Q, rq: Rq): Q
    requires q.ordseq != {} ==> q.orig.Some? && q.orig.value.Fs?
  {
    var q1 := q.(driver := q.driver - {rq}, inFlight := q.inFlight - if Accounted(rq) then 1 else 0);
    var i := if q.ordseq == {} then 0 else RequeueIndex(q, rq, 0);
    q1.(queue := Insert(q.queue, i, Entry(rq, true)))
  }

  function StageOf(rq: Rq): Stage
    requires !rq.Fs?
  {
    match rq
    case PreRq => PreFlush
    case BarRq => Bar
    case PostRq => PostFlush
  }

  /** A completed request comes off the books. */
  function TakeBack(q: Q, rq: Rq): Q {
    q.(driver := q.driver - {rq}, inFlight := q.inFlight - if Accounted(rq) then 1 else 0,
       completed := if rq.Fs? then q.completed + {rq} else q.completed)
  }

  /** Nothing is left to drain. */
  predicate Drained(q: Q)
    requires q.ordseq != {} ==> q.orig.Some? && q.orig.value.Fs?
  {
    && q.ordseq != {} && q.inFlight == 0 && CurSeq(q.ordseq) == Drain
    && (|q.queue| == 0 || Rank(ReqSeq(q, q.queue[0].rq)) > Rank(Drain))
  }

  /** `elv_completed_request`: takes the request off the books and ends the drain stage when
      nothing is left to drain. */
  function Completed(q: Q, rq: Rq): Q
    requires q.ordseq != {} ==> q.orig.Some? && q.orig.value.Fs?
  {
    var q1 := TakeBack(q, rq);
    if Drained(q1) then CompleteSeq(q1, {Drain}, 0).0 else q1
  }

  /** A driver completes a request; the end_io of a proxy reports its stage. */
  function Complete(q: Q, rq: Rq, error: int): Q
    requires q.ordseq != {} ==> q.orig.Some? && q.orig.value.Fs?
  {
    var q1 := Completed(q, rq);
    if rq.Fs? then q1
    else CompleteSeq(q1.(finished := q1.finished + {StageOf(rq)}), {StageOf(rq)}, error).0
  }

  /** `req_bio_endio` when a part of the barrier proxy completes: its error is recorded. */
  function Partial(q: Q, error: int): Q {
    q.(orderr := if error != 0 && q.orderr == 0 then error else q.orderr, errors := q.errors + [error])
  }

  /** `__elv_add_request` for an ordinary fs request, which goes to the elevator. */
  function Submit(q: Q, empty: bool): Q {
    var rq := Fs(q.nextId, q.barriers, false, empty, q.ordcolor);
    q.(sorted := q.sorted + {rq}, nextId := q.nextId + 1, submitted := q.submitted + {rq})
  }

  /** `__elv_add_request` for a request carrying SOFTBARRIER, inserted at the back. */
  function SubmitSoft(q: Q, empty: bool): Q {
    var rq := Fs(q.nextId, q.barriers, false, empty, q.ordcolor);
    q.(queue := q.queue + [Entry(rq, true)], nextId := q.nextId + 1, submitted := q.submitted + {rq})
  }

  /** `__elv_add_request` for a barrier, which flips the colour and goes to the back. */
  function SubmitBarrier(q: Q, empty: bool): Q {
    var rq := Fs(q.nextId, q.barriers, true, empty, q.ordcolor);
    q.(queue := q.queue + [Entry(rq, true)], ordcolor := !q.ordcolor, nextId := q.nextId + 1,
       barriers := q.barriers + 1, empties := q.empties + [empty])
  }

  /** The elevator hands a request over; it may be sorted in, but not across a stop. */
  function Dispatch(q: Q, rq: Rq, pos: nat): Q
    requires pos <= |q.queue|
  {
    q.(sorted := q.sorted - {rq}, queue := Insert(q.queue, pos, Entry(rq, false)))
  }

  // ----- steps -----

  datatype Action =
    | DoSubmit(empty: bool)
    | DoSubmitSoft(empty: bool)
    | DoSubmitBarrier(empty: bool)
    | DoDispatch(rq: Rq, pos: nat)
    | DoFetch(start: bool)
    | DoPartial(error: int)
    | DoComplete(rq: Rq, error: int)
    | DoRequeue(rq: Rq)

  /** Back insertion drains the elevator first: it follows dispatch steps that emptied it. */
  predicate Enabled(q: Q, a: Action) {
    && (q.ordseq != {} ==> q.orig.Some? && q.orig.value.Fs?)
    && match a
       case DoSubmit(_) => true
       case DoSubmitSoft(_) => q.sorted == {}
       case DoSubmitBarrier(_) => q.sorted == {}
       case DoDispatch(rq, pos) =>
         rq in q.sorted && pos <= |q.queue| && forall i :: pos <= i < |q.queue| ==> !q.queue[i].stop
       case DoFetch(_) => |q.queue| > 0
       case DoPartial(_) => BarRq in q.driver
       case DoComplete(rq, _) => rq in q.driver
       case DoRequeue(rq) => rq in q.driver
  }

  function Next(q: Q, a: Action): Q
    requires Enabled(q, a)
  {
    match a
    case DoSubmit(empty) => Submit(q, empty)
    case DoSubmitSoft(empty) => SubmitSoft(q, empty)
    case DoSubmitBarrier(empty) => SubmitBarrier(q, empty)
    case DoDispatch(rq, pos) => Dispatch(q, rq, pos)
    case DoFetch(start) => Fetch(q, start)
    case DoPartial(error) => Partial(q, error)
    case DoComplete(rq, error) => Complete(q, rq, error)
    case DoRequeue(rq) => Requeue(q, rq)
  }
}
