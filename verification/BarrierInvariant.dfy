/** The invariant of the barrier protocol and its preservation by every step. */
module BarrierInvariant {
  import opened Common
  import opened Barrier

  predicate Odd(n: nat) { n % 2 == 1 }

  predicate Busy(q: Q) { q.ordseq != {} }

  /** Barriers that have ended, and those that have left the dispatch list for good. */
  function Over(q: Q): nat { |q.ended| }

  function Left(q: Q): nat { |q.ended| + if Busy(q) then 1 else 0 }

  predicate Plain(rq: Rq) { rq.Fs? && !rq.barrier }

  /** Place of a request in the order the dispatch list must keep, while barrier `k` is next. */
  function Key(rq: Rq, k: nat): nat {
    match rq
    case Fs(_, e, b, _, _) => 8 * e + if b then 7 else 0
    case PreRq => 8 * k + 2
    case BarRq => 8 * k + 3
    case PostRq => 8 * k + 4
  }

  ghost predicate Precedes(a: Rq, b: Rq, k: nat) {
    Key(a, k) < Key(b, k) || (Key(a, k) == Key(b, k) && Plain(a) && a != b)
  }

  ghost predicate Ordered(queue: seq<Entry>, k: nat) {
    forall i, j :: 0 <= i < j < |queue| ==> Precedes(queue[i].rq, queue[j].rq, k)
  }

  ghost predicate InQueue(queue: seq<Entry>, rq: Rq) {
    exists i :: 0 <= i < |queue| && queue[i].rq == rq
  }

  /** An entry of the dispatch list fits the queue it is on. */
  ghost predicate EntryOk(q: Q, e: Entry) {
    if e.rq.Fs? then
      && e.rq.color == Odd(e.rq.epoch) && e.rq.id < q.nextId
      && Over(q) <= e.rq.epoch <= q.barriers
      && (e.rq.barrier ==> Left(q) <= e.rq.epoch < q.barriers && e.stop)
      && (e.rq.epoch < Left(q) ==> e.stop && Drain !in q.ordseq)
    else
      Busy(q) && e.stop && StageOf(e.rq) !in q.ordseq
  }

  ghost predicate EntriesOk(q: Q) {
    forall i :: 0 <= i < |q.queue| ==> EntryOk(q, q.queue[i])
  }

  ghost predicate HasBarrier(queue: seq<Entry>, e: nat) {
    exists i :: 0 <= i < |queue| && queue[i].rq.Fs? && queue[i].rq.barrier && queue[i].rq.epoch == e
  }

  /** Every barrier that has not left is on the dispatch list. */
  ghost predicate BarriersOk(q: Q) {
    Left(q) <= q.barriers && forall e :: Left(q) <= e < q.barriers ==> HasBarrier(q.queue, e)
  }

  ghost predicate ElevatorOk(q: Q) {
    && q.ordcolor == Odd(q.barriers)
    && forall rq :: rq in q.sorted ==>
         Plain(rq) && rq.epoch == q.barriers && rq.color == Odd(rq.epoch) && rq.id < q.nextId
  }

  /** What the driver holds belongs to the epoch of the next barrier, or is the proxy of the
      stage that is running. */
  ghost predicate HeldOk(q: Q, rq: Rq) {
    if rq.Fs? then
      && Plain(rq) && rq.epoch == Over(q) && rq.color == Odd(rq.epoch) && rq.id < q.nextId
      && Drain !in q.ordseq
    else
      Busy(q) && CurSeq(q.ordseq) == StageOf(rq)
  }

  ghost predicate DriverOk(q: Q) {
    forall rq :: rq in q.driver ==> HeldOk(q, rq)
  }

  ghost predicate Separate(q: Q) {
    && q.sorted !! q.driver
    && forall i :: 0 <= i < |q.queue| ==> q.queue[i].rq !in q.sorted && q.queue[i].rq !in q.driver
  }

  function InFlightSet(driver: set<Rq>): set<Rq> { set rq | rq in driver && Accounted(rq) }

  predicate Wanted(q: Q, p: Rq)
    requires !p.Fs?
  {
    match p
    case PreRq => q.doPre
    case BarRq => q.doBar
    case PostRq => q.doPost
  }

  /** A stage is open exactly while its proxy is on the list or with the driver, and it was
      closed by that proxy coming back unless it was never wanted. */
  ghost predicate ProxyOk(q: Q, p: Rq)
    requires !p.Fs?
  {
    && (StageOf(p) !in q.ordseq <==> InQueue(q.queue, p) || p in q.driver)
    && (StageOf(p) in q.ordseq <==> !Wanted(q, p) || StageOf(p) in q.finished)
  }

  ghost predicate SequenceOk(q: Q) {
    Busy(q) ==>
      && q.orig.Some? && q.orig.value.Fs? && q.orig.value.barrier
      && q.orig.value.epoch == Over(q) && q.orig.value.color == Odd(Over(q))
      && Started in q.ordseq
      && ProxyOk(q, PreRq) && ProxyOk(q, BarRq) && ProxyOk(q, PostRq)
  }

  function FirstError(errors: seq<int>): int {
    if |errors| == 0 then 0
    else if errors[0] != 0 then errors[0]
    else FirstError(errors[1..])
  }

  ghost predicate HistoryOk(q: Q) {
    && q.orderr == FirstError(q.errors)
    && forall rq :: rq in q.submitted ==>
         Plain(rq) && (rq in q.completed || rq in q.driver || rq in q.sorted || InQueue(q.queue, rq))
  }

  /** All of the invariant except that a sequence with no stage left has been wound up. */
  ghost predicate Unsettled(q: Q) {
    && Ordered(q.queue, Over(q)) && EntriesOk(q) && BarriersOk(q)
    && ElevatorOk(q) && DriverOk(q) && Separate(q)
    && q.inFlight == |InFlightSet(q.driver)|
    && SequenceOk(q) && HistoryOk(q)
  }

  ghost predicate Inv(q: Q) {
    Unsettled(q) && (Busy(q) ==> CurSeq(q.ordseq) != Done)
  }

  lemma InitInv(mode: Mode)
    ensures Inv(Init(mode))
  {
    assert InFlightSet({}) == {};
  }

  // ----- lists -----

  lemma InsertOrdered(queue: seq<Entry>, i: nat, e: Entry, k: nat)
    requires Ordered(queue, k) && i <= |queue|
    requires forall j :: 0 <= j < i ==> Precedes(queue[j].rq, e.rq, k)
    requires forall j :: i <= j < |queue| ==> Precedes(e.rq, queue[j].rq, k)
    ensures Ordered(Insert(queue, i, e), k)
  {
    hide Precedes;
  }

  lemma InsertMembers(queue: seq<Entry>, i: nat, e: Entry)
    requires i <= |queue|
    ensures forall rq :: InQueue(Insert(queue, i, e), rq) <==> rq == e.rq || InQueue(queue, rq)
    ensures forall n :: HasBarrier(queue, n) ==> HasBarrier(Insert(queue, i, e), n)
    ensures forall j :: 0 <= j < |queue| + 1 ==>
              Insert(queue, i, e)[j] == if j < i then queue[j] else if j == i then e else queue[j - 1]
  {
    var r := Insert(queue, i, e);
    forall rq | InQueue(queue, rq) ensures InQueue(r, rq) {
      var j :| 0 <= j < |queue| && queue[j].rq == rq;
      assert r[if j < i then j else j + 1].rq == rq;
    }
    forall n | HasBarrier(queue, n) ensures HasBarrier(r, n) {
      var j :| 0 <= j < |queue| && queue[j].rq.Fs? && queue[j].rq.barrier && queue[j].rq.epoch == n;
      assert r[if j < i then j else j + 1] == queue[j];
    }
    assert r[i] == e;
  }

  // ----- what later states inherit -----

  /** Between the two states no barrier moved on and no stage opened or closed. */
  ghost predicate Grown(q: Q, q': Q) {
    && q'.ended == q.ended && q'.ordseq == q.ordseq && q'.orig == q.orig
    && q'.doPre == q.doPre && q'.doBar == q.doBar && q'.doPost == q.doPost && q'.finished == q.finished
    && q.barriers <= q'.barriers && q.nextId <= q'.nextId
  }

  lemma EntriesInsert(q: Q, q': Q, i: nat, e: Entry)
    requires EntriesOk(q) && Grown(q, q') && i <= |q.queue| && q'.queue == Insert(q.queue, i, e) && EntryOk(q', e)
    ensures EntriesOk(q')
  {
    forall j | 0 <= j < |q'.queue| ensures EntryOk(q', q'.queue[j]) {
      assert q'.queue[j] == if j < i then q.queue[j] else if j == i then e else q.queue[j - 1];
    }
  }

  lemma DriverKeep(q: Q, q': Q)
    requires DriverOk(q) && Grown(q, q') && q'.driver <= q.driver
    ensures DriverOk(q')
  {
    forall r | r in q'.driver ensures HeldOk(q', r) {
      assert HeldOk(q, r);
    }
  }

  ghost predicate SameProxies(q: Q, q': Q) {
    forall p: Rq :: !p.Fs? ==> (InQueue(q'.queue, p) || p in q'.driver <==> InQueue(q.queue, p) || p in q.driver)
  }

  lemma SequenceKeep(q: Q, q': Q)
    requires SequenceOk(q) && Grown(q, q') && SameProxies(q, q')
    ensures SequenceOk(q')
  {
    hide CurSeq, InQueue;
    if Busy(q) {
      assert !PreRq.Fs? && !BarRq.Fs? && !PostRq.Fs?;
    }
  }

  lemma SeparateInsert(q: Q, q': Q, i: nat, e: Entry)
    requires Separate(q) && q'.sorted <= q.sorted && q'.driver <= q.driver
    requires i <= |q.queue| && q'.queue == Insert(q.queue, i, e) && e.rq !in q'.sorted && e.rq !in q'.driver
    ensures Separate(q')
  {
    InsertMembers(q.queue, i, e);
  }

  lemma BarriersInsert(q: Q, q': Q, i: nat, e: Entry)
    requires BarriersOk(q) && Grown(q, q') && i <= |q.queue| && q'.queue == Insert(q.queue, i, e)
    requires q'.barriers == q.barriers
             || (q'.barriers == q.barriers + 1 && e.rq.Fs? && e.rq.barrier && e.rq.epoch == q.barriers)
    ensures BarriersOk(q')
  {
    InsertMembers(q.queue, i, e);
    assert q'.queue[i] == e;
    assert e.rq.Fs? && e.rq.barrier ==> HasBarrier(q'.queue, e.rq.epoch);
  }

  lemma HistoryInsert(q: Q, q': Q, i: nat, e: Entry)
    requires HistoryOk(q) && i <= |q.queue| && q'.queue == Insert(q.queue, i, e)
    requires q'.orderr == q.orderr && q'.errors == q.errors && q.completed <= q'.completed
    requires q'.submitted <= q.submitted + {e.rq} && (Plain(e.rq) || q'.submitted <= q.submitted)
    requires q.driver <= q'.driver + {e.rq} && q.sorted <= q'.sorted + {e.rq}
    ensures HistoryOk(q')
  {
    hide FirstError;
    InsertMembers(q.queue, i, e);
  }

  /** A request joins the dispatch list without the protocol moving on. */
  lemma InsertInv(q: Q, q': Q, i: nat, e: Entry)
    requires Inv(q) && Grown(q, q') && i <= |q.queue| && q'.queue == Insert(q.queue, i, e)
    requires EntryOk(q', e) && e.rq !in q'.sorted && e.rq !in q'.driver
    requires forall j :: 0 <= j < i ==> Precedes(q.queue[j].rq, e.rq, Over(q))
    requires forall j :: i <= j < |q.queue| ==> Precedes(e.rq, q.queue[j].rq, Over(q))
    requires q'.barriers == q.barriers
             || (q'.barriers == q.barriers + 1 && e.rq.Fs? && e.rq.barrier && e.rq.epoch == q.barriers)
    requires q'.sorted <= q.sorted <= q'.sorted + {e.rq} && q'.driver <= q.driver <= q'.driver + {e.rq}
    requires q'.submitted <= q.submitted + {e.rq} && (Plain(e.rq) || q'.submitted <= q.submitted)
    requires q.completed <= q'.completed
    requires q'.orderr == q.orderr && q'.errors == q.errors
    requires ElevatorOk(q') && SameProxies(q, q') && q'.inFlight == |InFlightSet(q'.driver)|
    ensures Inv(q')
  {
    hide EntryOk, Precedes, InFlightSet, ElevatorOk, SequenceOk, HistoryOk, BarriersOk, DriverOk, Separate, EntriesOk;
    hide Ordered, SameProxies, CurSeq;
    InsertOrdered(q.queue, i, e, Over(q));
    EntriesInsert(q, q', i, e);
    DriverKeep(q, q');
    SequenceKeep(q, q');
    SeparateInsert(q, q', i, e);
    BarriersInsert(q, q', i, e);
    HistoryInsert(q, q', i, e);
  }

  lemma InsertSameProxies(q: Q, q': Q, i: nat, e: Entry)
    requires i <= |q.queue| && q'.queue == Insert(q.queue, i, e)
    requires if e.rq.Fs? then (forall p: Rq :: !p.Fs? ==> (p in q'.driver <==> p in q.driver))
             else e.rq in q.driver && q'.driver == q.driver - {e.rq}
    ensures SameProxies(q, q')
  {
    hide InQueue;
    InsertMembers(q.queue, i, e);
  }

  // ----- submission -----

  lemma SubmitInv(q: Q, empty: bool)
    requires Inv(q)
    ensures Inv(Submit(q, empty))
  {
    var q' := Submit(q, empty);
    var rq := Fs(q.nextId, q.barriers, false, empty, q.ordcolor);
    forall i | 0 <= i < |q.queue| ensures q.queue[i].rq != rq && EntryOk(q', q'.queue[i]) {
      assert EntryOk(q, q.queue[i]);
    }
    DriverKeep(q, q');
    SequenceKeep(q, q');
  }

  lemma FreshRq(q: Q, rq: Rq)
    requires Inv(q) && rq.Fs? && rq.id == q.nextId
    ensures rq !in q.driver && rq !in q.sorted
    ensures forall j :: 0 <= j < |q.queue| ==> q.queue[j].rq != rq
  {
    assert rq in q.driver ==> HeldOk(q, rq);
    forall j | 0 <= j < |q.queue| ensures q.queue[j].rq != rq {
      assert EntryOk(q, q.queue[j]);
    }
  }

  lemma BackOfQueue(q: Q, rq: Rq)
    requires Inv(q) && rq.Fs? && rq.epoch == q.barriers && rq.id == q.nextId
    ensures forall j :: 0 <= j < |q.queue| ==> Precedes(q.queue[j].rq, rq, Over(q))
  {
    FreshRq(q, rq);
    forall j | 0 <= j < |q.queue| ensures Precedes(q.queue[j].rq, rq, Over(q)) {
      assert EntryOk(q, q.queue[j]);
    }
  }

  lemma SubmitSoftInv(q: Q, empty: bool)
    requires Inv(q) && q.sorted == {}
    ensures Inv(SubmitSoft(q, empty))
  {
    hide Odd, InFlightSet, SameProxies, SequenceOk, HistoryOk, DriverOk, Separate, Ordered, EntriesOk;
    var q', rq := SubmitSoft(q, empty), Fs(q.nextId, q.barriers, false, empty, q.ordcolor);
    var n, e := |q.queue|, Entry(rq, true);
    assert q'.queue == Insert(q.queue, n, e);
    FreshRq(q, rq);
    BackOfQueue(q, rq);
    InsertSameProxies(q, q', n, e);
    InsertInv(q, q', n, e);
  }

  lemma SubmitBarrierInv(q: Q, empty: bool)
    requires Inv(q) && q.sorted == {}
    ensures Inv(SubmitBarrier(q, empty))
  {
    hide InFlightSet, SameProxies, SequenceOk, HistoryOk, DriverOk, Separate, Ordered, EntriesOk;
    var q', rq := SubmitBarrier(q, empty), Fs(q.nextId, q.barriers, true, empty, q.ordcolor);
    var n, e := |q.queue|, Entry(rq, true);
    assert q'.queue == Insert(q.queue, n, e);
    FreshRq(q, rq);
    BackOfQueue(q, rq);
    InsertSameProxies(q, q', n, e);
    InsertInv(q, q', n, e);
  }

  // ----- dispatch -----

  /** Behind the last stop there are only plain requests of the current epoch. */
  lemma TailIsCurrent(q: Q, pos: nat, i: nat)
    requires Inv(q) && pos <= i < |q.queue|
    requires forall j :: pos <= j < |q.queue| ==> !q.queue[j].stop
    ensures Plain(q.queue[i].rq) && q.queue[i].rq.epoch == q.barriers
  {
    var rq := q.queue[i].rq;
    assert EntryOk(q, q.queue[i]);
    assert Left(q) <= rq.epoch < q.barriers ==> HasBarrier(q.queue, rq.epoch);
  }

  lemma DispatchInv(q: Q, rq: Rq, pos: nat)
    requires Inv(q) && Enabled(q, DoDispatch(rq, pos))
    ensures Inv(Dispatch(q, rq, pos))
  {
    hide CurSeq, FirstError, InFlightSet, SameProxies, SequenceOk, HistoryOk, DriverOk, Ordered;
    var q' := Dispatch(q, rq, pos);
    var e := Entry(rq, false);
    forall j | pos <= j < |q.queue| ensures Precedes(rq, q.queue[j].rq, Over(q)) {
      TailIsCurrent(q, pos, j);
    }
    forall j | 0 <= j < pos ensures Precedes(q.queue[j].rq, rq, Over(q)) {
      assert EntryOk(q, q.queue[j]);
    }
    InsertSameProxies(q, q', pos, e);
    InsertInv(q, q', pos, e);
  }

  // ----- the head of the list -----

  /** The first fs request on the list is of the epoch that is due, or of the one after a
      running sequence. */
  lemma FirstFsEpoch(q: Q, i: nat)
    requires Inv(q) && i < |q.queue| && q.queue[i].rq.Fs?
    requires forall j :: 0 <= j < i ==> !q.queue[j].rq.Fs? || q.queue[j].rq.epoch < Left(q)
    ensures q.queue[i].rq.epoch <= Left(q)
  {
    var rq := q.queue[i].rq;
    assert EntryOk(q, q.queue[i]);
    assert Left(q) < rq.epoch ==> HasBarrier(q.queue, Left(q));
  }

  lemma RemoveHead(q: Q)
    requires |q.queue| > 0
    ensures forall rq :: InQueue(q.queue, rq) <==> rq == q.queue[0].rq || InQueue(q.queue[1..], rq)
    ensures forall e :: HasBarrier(q.queue, e) ==>
              HasBarrier(q.queue[1..], e) || (q.queue[0].rq.Fs? && q.queue[0].rq.barrier && q.queue[0].rq.epoch == e)
  {
    var r := q.queue[1..];
    forall rq | InQueue(q.queue, rq) && rq != q.queue[0].rq ensures InQueue(r, rq) {
      var j :| 0 <= j < |q.queue| && q.queue[j].rq == rq;
      assert r[j - 1].rq == rq;
    }
    forall rq | InQueue(r, rq) ensures InQueue(q.queue, rq) {
      var j :| 0 <= j < |r| && r[j].rq == rq;
      assert q.queue[j + 1].rq == rq;
    }
    forall e | HasBarrier(q.queue, e) && !(q.queue[0].rq.Fs? && q.queue[0].rq.barrier && q.queue[0].rq.epoch == e)
      ensures HasBarrier(r, e)
    {
      var j :| 0 <= j < |q.queue| && q.queue[j].rq.Fs? && q.queue[j].rq.barrier && q.queue[j].rq.epoch == e;
      assert r[j - 1] == q.queue[j];
    }
  }

  lemma InFlightAdd(driver: set<Rq>, rq: Rq)
    requires rq !in driver
    ensures |InFlightSet(driver + {rq})| == |InFlightSet(driver)| + if Accounted(rq) then 1 else 0
  {
    assert InFlightSet(driver + {rq}) == if Accounted(rq) then InFlightSet(driver) + {rq} else InFlightSet(driver);
  }

  lemma InFlightRemove(driver: set<Rq>, rq: Rq)
    requires rq in driver
    ensures |InFlightSet(driver - {rq})| == |InFlightSet(driver)| - if Accounted(rq) then 1 else 0
  {
    InFlightAdd(driver - {rq}, rq);
    assert driver - {rq} + {rq} == driver;
  }

  /** Handing the head to the driver when it is due. */
  lemma HandOverInv(q: Q)
    requires Inv(q) && |q.queue| > 0 && HeldOk(q, q.queue[0].rq)
    ensures Inv(HandOver(q))
  {
    hide FirstError, CurSeq, InFlightSet;
    var q', rq := HandOver(q), q.queue[0].rq;
    RemoveHead(q);
    InFlightAdd(q.driver, rq);
    HandOverSequence(q, q');
    forall r | r in q'.driver ensures HeldOk(q', r) {
      assert r in q.driver ==> HeldOk(q, r);
    }
    forall i | 0 <= i < |q'.queue| ensures EntryOk(q', q'.queue[i]) && Precedes(rq, q'.queue[i].rq, Over(q)) {
      assert q'.queue[i] == q.queue[i + 1] && EntryOk(q, q.queue[i + 1]);
    }
  }

  lemma HandOverSequence(q: Q, q': Q)
    requires |q.queue| > 0 && SequenceOk(q) && q' == HandOver(q)
    ensures SequenceOk(q')
  {
    RemoveHead(q);
    SequenceKeep(q, q');
  }

  /** What `blk_do_ordered` lets pass outside `start_ordered` is due. */
  lemma GivenIsDue(q: Q)
    requires Inv(q) && |q.queue| > 0
    requires if Busy(q) then Rank(ReqSeq(q, q.queue[0].rq)) <= Rank(CurSeq(q.ordseq))
             else !(q.queue[0].rq.Fs? && q.queue[0].rq.barrier)
    ensures HeldOk(q, q.queue[0].rq)
  {
    assert EntryOk(q, q.queue[0]);
    if q.queue[0].rq.Fs? {
      FirstFsEpoch(q, 0);
    }
  }

  lemma PeekInv(q: Q)
    requires Inv(q) && |q.queue| > 0
    ensures Inv(Peeked(q))
  {
    hide FirstError, CurSeq, InFlightSet;
    var q' := Peeked(q);
    PeekMembers(q, q');
    DriverKeep(q, q');
    SequenceKeep(q, q');
    forall i | 0 <= i < |q'.queue| ensures EntryOk(q', q'.queue[i]) {
      assert EntryOk(q, q.queue[i]);
    }
  }

  lemma PeekMembers(q: Q, q': Q)
    requires |q.queue| > 0 && q' == Peeked(q)
    ensures forall rq :: InQueue(q'.queue, rq) <==> InQueue(q.queue, rq)
    ensures forall e :: HasBarrier(q.queue, e) ==> HasBarrier(q'.queue, e)
  {
    forall rq | InQueue(q.queue, rq) ensures InQueue(q'.queue, rq) {
      var j :| 0 <= j < |q.queue| && q.queue[j].rq == rq;
      assert q'.queue[j].rq == rq;
    }
    forall e | HasBarrier(q.queue, e) ensures HasBarrier(q'.queue, e) {
      var j :| 0 <= j < |q.queue| && q.queue[j].rq.Fs? && q.queue[j].rq.barrier && q.queue[j].rq.epoch == e;
      assert q'.queue[j].rq == q.queue[j].rq;
    }
  }

  // ----- requeue -----

  lemma RequeueInv(q: Q, rq: Rq)
    requires Inv(q) && rq in q.driver
    ensures Inv(Requeue(q, rq))
  {
    hide FirstError, CurSeq, InFlightSet, ProxyOk, HistoryOk, ElevatorOk, SameProxies, Ordered;
    var q' := Requeue(q, rq);
    var i := if q.ordseq == {} then 0 else RequeueIndex(q, rq, 0);
    var e := Entry(rq, true);
    assert HeldOk(q, rq);
    RequeuePlace(q, rq, i);
    InFlightRemove(q.driver, rq);
    InsertSameProxies(q, q', i, e);
    RequeueEntry(q, q', rq);
    RequeueElevator(q, q');
    InsertInv(q, q', i, e);
  }

  /** Scanning for its place, a requeued request only passes proxies and drained requests. */
  lemma {:induction false} PassedOver(q: Q, rq: Rq, i: nat, n: nat)
    requires Inv(q) && Busy(q) && n <= i <= |q.queue|
    requires forall j :: 0 <= j < i ==> Rank(ReqSeq(q, q.queue[j].rq)) < Rank(ReqSeq(q, rq))
    ensures forall j :: 0 <= j < n ==> !q.queue[j].rq.Fs? || q.queue[j].rq.epoch < Left(q)
  {
    hide HistoryOk, ElevatorOk, BarriersOk, InFlightSet, CurSeq, ProxyOk, DriverOk, Separate, Ordered;
    if n > 0 {
      PassedOver(q, rq, i, n - 1);
      if q.queue[n - 1].rq.Fs? {
        FirstFsEpoch(q, n - 1);
        assert EntryOk(q, q.queue[n - 1]);
      }
    }
  }

  lemma RequeuePlace(q: Q, rq: Rq, i: nat)
    requires Inv(q) && rq in q.driver && i <= |q.queue|
    requires i == if q.ordseq == {} then 0 else RequeueIndex(q, rq, 0)
    ensures forall j :: 0 <= j < i ==> Precedes(q.queue[j].rq, rq, Over(q))
    ensures forall j :: i <= j < |q.queue| ==> Precedes(rq, q.queue[j].rq, Over(q))
  {
    hide HistoryOk, ElevatorOk, FirstError, BarriersOk, InFlightSet, CurSeq, ProxyOk;
    assert HeldOk(q, rq);
    if rq.Fs? {
      assert i == 0;
      forall j | 0 <= j < |q.queue| ensures Precedes(rq, q.queue[j].rq, Over(q)) {
        assert EntryOk(q, q.queue[j]);
      }
    } else {
      ProxyPlace(q, rq, i);
    }
  }

  lemma ProxyPlace(q: Q, rq: Rq, i: nat)
    requires Inv(q) && rq in q.driver && i <= |q.queue| && !rq.Fs?
    requires i == if q.ordseq == {} then 0 else RequeueIndex(q, rq, 0)
    ensures forall j :: 0 <= j < i ==> Precedes(q.queue[j].rq, rq, Over(q))
    ensures forall j :: i <= j < |q.queue| ==> Precedes(rq, q.queue[j].rq, Over(q))
  {
    hide HistoryOk, ElevatorOk, FirstError, BarriersOk, InFlightSet, CurSeq, ProxyOk;
    assert HeldOk(q, rq);
    ProxyBefore(q, rq, i);
    ProxyBehind(q, rq, i);
  }

  lemma ProxyBefore(q: Q, rq: Rq, i: nat)
    requires Inv(q) && HeldOk(q, rq) && Busy(q) && i <= |q.queue| && !rq.Fs? && i == RequeueIndex(q, rq, 0)
    ensures forall j :: 0 <= j < i ==> Precedes(q.queue[j].rq, rq, Over(q))
  {
    hide HistoryOk, ElevatorOk, FirstError, BarriersOk, InFlightSet, CurSeq, ProxyOk;
    PassedOver(q, rq, i, i);
    forall j | 0 <= j < i ensures Precedes(q.queue[j].rq, rq, Over(q)) {
      assert EntryOk(q, q.queue[j]);
    }
  }

  lemma ProxyBehind(q: Q, rq: Rq, i: nat)
    requires Inv(q) && rq in q.driver && HeldOk(q, rq) && Busy(q) && i <= |q.queue| && !rq.Fs?
             && i == RequeueIndex(q, rq, 0)
    ensures forall j :: i <= j < |q.queue| ==> Precedes(rq, q.queue[j].rq, Over(q))
  {
    hide HistoryOk, ElevatorOk, FirstError, BarriersOk, InFlightSet, CurSeq, ProxyOk;
    if i < |q.queue| {
      assert EntryOk(q, q.queue[i]);
      assert Key(rq, Over(q)) < Key(q.queue[i].rq, Over(q));
      forall j | i < j < |q.queue| ensures Precedes(rq, q.queue[j].rq, Over(q)) {
        assert Precedes(q.queue[i].rq, q.queue[j].rq, Over(q));
      }
    }
  }

  lemma RequeueElevator(q: Q, q': Q)
    requires ElevatorOk(q) && q'.sorted == q.sorted && q'.barriers == q.barriers
    requires q'.ordcolor == q.ordcolor && q'.nextId == q.nextId
    ensures ElevatorOk(q')
  {}

  lemma RequeueEntry(q: Q, q': Q, rq: Rq)
    requires Inv(q) && HeldOk(q, rq) && Grown(q, q') && q'.barriers == q.barriers
    ensures EntryOk(q', Entry(rq, true))
  {}

  // ----- closing stages -----

  /** Ends the sequence if no stage is left. */
  function Settle(q: Q): Q {
    if CurSeq(q.ordseq) != Done then q else q.(ordseq := {}, ended := q.ended + [q.orderr])
  }

  lemma CompleteSeqSettles(q: Q, seqs: set<Stage>, error: int)
    ensures CompleteSeq(q, seqs, error).0
            == Settle(q.(orderr := if error != 0 && q.orderr == 0 then error else q.orderr,
                         errors := q.errors + [error], ordseq := q.ordseq + seqs))
  {}

  /** Closing stages leaves the rest of the queue as it is. */
  lemma SeqKeeps(q: Q, seqs: set<Stage>, error: int)
    ensures var u := CompleteSeq(q, seqs, error).0;
            u == q.(orderr := u.orderr, errors := u.errors, ordseq := u.ordseq, ended := u.ended)
  {
    hide CurSeq;
  }

  /** When all stages are over, no request of the epoch is left and no proxy is about. */
  lemma AllStagesOver(q: Q)
    requires Unsettled(q) && Busy(q) && CurSeq(q.ordseq) == Done
    ensures q.driver == {}
    ensures forall i :: 0 <= i < |q.queue| ==> q.queue[i].rq.Fs? && q.queue[i].rq.epoch >= Left(q)
  {
    forall i | 0 <= i < |q.queue| ensures q.queue[i].rq.Fs? && q.queue[i].rq.epoch >= Left(q) {
      assert EntryOk(q, q.queue[i]);
    }
    forall rq: Rq ensures !HeldOk(q, rq) {}
  }

  lemma SettleInv(q: Q)
    requires Unsettled(q) && Busy(q)
    ensures Inv(Settle(q))
  {
    if CurSeq(q.ordseq) == Done {
      hide FirstError, CurSeq;
      AllStagesOver(q);
      var q' := Settle(q);
      forall i | 0 <= i < |q.queue| ensures EntryOk(q', q'.queue[i]) {
        assert EntryOk(q, q.queue[i]);
      }
      forall i, j | 0 <= i < j < |q.queue| ensures Precedes(q.queue[i].rq, q.queue[j].rq, Over(q')) {
        assert Precedes(q.queue[i].rq, q.queue[j].rq, Over(q));
      }
    }
  }

  lemma {:induction false} FirstErrorSnoc(errors: seq<int>, e: int)
    ensures FirstError(errors + [e]) == if FirstError(errors) != 0 then FirstError(errors) else e
  {
    if |errors| > 0 {
      assert (errors + [e])[1..] == errors[1..] + [e];
      FirstErrorSnoc(errors[1..], e);
    }
  }

  // ----- completion -----

  lemma PartialInv(q: Q, error: int)
    requires Inv(q)
    ensures Inv(Partial(q, error))
  {
    hide FirstError, CurSeq, InFlightSet, SequenceOk, Ordered, BarriersOk;
    var q' := Partial(q, error);
    FirstErrorSnoc(q.errors, error);
    DriverKeep(q, q');
    SequenceKeep(q, q');
    forall i | 0 <= i < |q.queue| ensures EntryOk(q', q'.queue[i]) {
      assert EntryOk(q, q.queue[i]);
    }
    SameLists(q, q');
  }

  lemma TakeBackFsInv(q: Q, rq: Rq)
    requires Inv(q) && rq in q.driver && rq.Fs?
    ensures Inv(TakeBack(q, rq))
  {
    hide FirstError, CurSeq, InFlightSet, SequenceOk, Ordered, BarriersOk;
    var q' := TakeBack(q, rq);
    InFlightRemove(q.driver, rq);
    DriverKeep(q, q');
    TakeBackSequence(q, q', rq);
    forall i | 0 <= i < |q.queue| ensures EntryOk(q', q'.queue[i]) {
      assert EntryOk(q, q.queue[i]);
    }
    assert BarriersOk(q') && Ordered(q'.queue, Over(q')) by {
      SameLists(q, q');
    }
  }

  lemma SameLists(q: Q, q': Q)
    requires BarriersOk(q) && Ordered(q.queue, Over(q))
    requires q'.queue == q.queue && q'.ended == q.ended && Busy(q') == Busy(q) && q'.barriers == q.barriers
    ensures BarriersOk(q') && Ordered(q'.queue, Over(q'))
  {}

  lemma TakeBackSequence(q: Q, q': Q, rq: Rq)
    requires SequenceOk(q) && rq.Fs? && q' == TakeBack(q, rq)
    ensures SequenceOk(q')
  {
    SequenceKeep(q, q');
  }

  /** When the head is past the drain stage, nothing on the list is left to drain. */
  lemma NothingToDrain(q: Q)
    requires Inv(q) && Busy(q)
    requires |q.queue| == 0 || Rank(ReqSeq(q, q.queue[0].rq)) > Rank(Drain)
    ensures forall i :: 0 <= i < |q.queue| && q.queue[i].rq.Fs? ==> q.queue[i].rq.epoch >= Left(q)
  {
    hide HistoryOk, ElevatorOk, FirstError, BarriersOk, InFlightSet, CurSeq, ProxyOk, DriverOk, Separate;
    forall i | 0 <= i < |q.queue| && q.queue[i].rq.Fs? ensures q.queue[i].rq.epoch >= Left(q) {
      assert EntryOk(q, q.queue[0]) && EntryOk(q, q.queue[i]);
      assert i > 0 ==> Precedes(q.queue[0].rq, q.queue[i].rq, Over(q));
    }
  }

  function DrainClosed(q: Q): Q {
    q.(errors := q.errors + [0], ordseq := q.ordseq + {Drain})
  }

  ghost predicate DrainOver(q: Q) {
    && Inv(q) && Busy(q) && CurSeq(q.ordseq) == Drain && q.inFlight == 0
    && (|q.queue| == 0 || Rank(ReqSeq(q, q.queue[0].rq)) > Rank(Drain))
  }

  lemma DrainClosedUnsettled(q: Q)
    requires DrainOver(q)
    ensures Unsettled(DrainClosed(q)) && CompleteSeq(q, {Drain}, 0).0 == Settle(DrainClosed(q))
  {
    hide FirstError, Ordered, BarriersOk, EntriesOk, SequenceOk, CompleteSeq, Settle, InFlightSet;
    var q1 := DrainClosed(q);
    NoDriver(q);
    CompleteSeqSettles(q, {Drain}, 0);
    FirstErrorSnoc(q.errors, 0);
    SameLists(q, q1);
    DrainClosedSequence(q);
    DrainClosedEntries(q);
    DrainClosedSettles(q);
  }

  lemma DrainClosedSettles(q: Q)
    requires q.orderr == FirstError(q.errors)
    ensures q.(orderr := if 0 != 0 && q.orderr == 0 then 0 else q.orderr,
               errors := q.errors + [0], ordseq := q.ordseq + {Drain}) == DrainClosed(q)
  {}

  lemma DrainClosedSequence(q: Q)
    requires SequenceOk(q) && Busy(q)
    ensures SequenceOk(DrainClosed(q))
  {
    hide InQueue;
  }

  lemma DrainClosedEntries(q: Q)
    requires DrainOver(q)
    ensures EntriesOk(DrainClosed(q))
  {
    NothingToDrain(q);
    hide Ordered, BarriersOk, ElevatorOk, DriverOk, Separate, SequenceOk, HistoryOk, InFlightSet, CurSeq;
    var q1 := DrainClosed(q);
    forall i | 0 <= i < |q.queue| ensures EntryOk(q1, q1.queue[i]) {
      assert EntryOk(q, q.queue[i]);
    }
  }

  lemma NoDriver(q: Q)
    requires Inv(q) && Busy(q) && CurSeq(q.ordseq) == Drain && q.inFlight == 0
    ensures q.driver == {}
  {
    assert InFlightSet(q.driver) == {};
    forall rq: Rq ensures HeldOk(q, rq) ==> Accounted(rq) {}
    assert forall rq :: rq in q.driver ==> rq in InFlightSet(q.driver);
  }

  lemma CompleteFsInv(q: Q, rq: Rq, error: int)
    requires Inv(q) && rq in q.driver && rq.Fs?
    ensures Inv(Complete(q, rq, error))
  {
    hide Ordered, EntriesOk, BarriersOk, ElevatorOk, DriverOk, Separate, HistoryOk, ProxyOk, InFlightSet;
    var q1 := TakeBack(q, rq);
    TakeBackFsInv(q, rq);
    if && q1.ordseq != {} && q1.inFlight == 0 && CurSeq(q1.ordseq) == Drain
       && (|q1.queue| == 0 || Rank(ReqSeq(q1, q1.queue[0].rq)) > Rank(Drain)) {
      DrainClosedUnsettled(q1);
      SettleInv(DrainClosed(q1));
    }
  }

  lemma OnlyProxy(q: Q, p: Rq)
    requires Inv(q) && p in q.driver && !p.Fs?
    ensures q.driver == {p} && !InQueue(q.queue, p)
  {
    assert HeldOk(q, p);
    forall rq | rq in q.driver ensures rq == p {
      assert HeldOk(q, rq);
    }
  }

  /** The state in which the stage of proxy `p` has just been closed. */
  function StageClosed(q: Q, p: Rq, error: int): Q
    requires !p.Fs?
  {
    TakeBack(q, p).(finished := q.finished + {StageOf(p)},
                    orderr := if error != 0 && q.orderr == 0 then error else q.orderr,
                    errors := q.errors + [error], ordseq := q.ordseq + {StageOf(p)})
  }

  lemma StageClosedSequence(q: Q, p: Rq, error: int)
    requires Inv(q) && p in q.driver && !p.Fs?
    ensures SequenceOk(StageClosed(q, p, error))
  {
    hide FirstError, HistoryOk, BarriersOk, Ordered, EntriesOk, ElevatorOk;
    assert HeldOk(q, p);
    OnlyProxy(q, p);
  }

  lemma StageClosedUnsettled(q: Q, p: Rq, error: int)
    requires Inv(q) && p in q.driver && !p.Fs?
    ensures Unsettled(StageClosed(q, p, error))
  {
    hide FirstError, Ordered, BarriersOk, SequenceOk, CurSeq;
    var q2 := StageClosed(q, p, error);
    OnlyProxy(q, p);
    InFlightRemove(q.driver, p);
    StageClosedSequence(q, p, error);
    FirstErrorSnoc(q.errors, error);
    assert HeldOk(q, p);
    SameLists(q, q2);
    forall i | 0 <= i < |q.queue| ensures EntryOk(q2, q2.queue[i]) {
      assert EntryOk(q, q.queue[i]) && q.queue[i].rq != p;
      DrainAlreadyOver(q, p);
    }
  }

  lemma DrainAlreadyOver(q: Q, p: Rq)
    requires Inv(q) && p in q.driver && !p.Fs?
    ensures Drain in q.ordseq && Busy(q) && CurSeq(q.ordseq) == StageOf(p)
  {
    assert HeldOk(q, p);
  }

  lemma CompleteProxyInv(q: Q, p: Rq, error: int)
    requires Inv(q) && p in q.driver && !p.Fs?
    ensures Inv(Complete(q, p, error)) && Complete(q, p, error) == Settle(StageClosed(q, p, error))
  {
    hide Ordered, EntriesOk, BarriersOk, ElevatorOk, DriverOk, Separate, HistoryOk, ProxyOk, InFlightSet;
    DrainAlreadyOver(q, p);
    var q1 := TakeBack(q, p).(finished := q.finished + {StageOf(p)});
    CompleteSeqSettles(q1, {StageOf(p)}, error);
    StageClosedUnsettled(q, p, error);
    SettleInv(StageClosed(q, p, error));
  }

  // ----- starting a sequence -----

  /** The state in which the head barrier has been replaced by its proxies. */
  function Opened(q: Q): Q
    requires |q.queue| > 0 && q.queue[0].rq.Fs?
  {
    var q1 := StackProxies(q);
    q1.(ordseq := q1.ordseq + Skipped(q1.doPre, q1.doBar, q1.doPost, q.inFlight == 0), errors := [0])
  }

  lemma StartOrderedSettles(q: Q)
    requires |q.queue| > 0 && q.queue[0].rq.Fs?
    ensures StartOrdered(q).0 == Settle(Opened(q))
    ensures StartOrdered(q).1 == if CurSeq(Opened(q).ordseq) == Done then Gone
                                 else if q.inFlight != 0 then Blocked else Give
  {
    hide Skipped, CurSeq;
    var q1 := StackProxies(q);
    assert q1.errors + [0] == [0];
    CompleteSeqSettles(q1, Skipped(q1.doPre, q1.doBar, q1.doPost, q.inFlight == 0), 0);
  }

  lemma OpenedStages(q: Q)
    requires |q.queue| > 0 && q.queue[0].rq.Fs? && q.ordseq == {}
    ensures var o := Opened(q);
            && Started in o.ordseq && (Drain in o.ordseq <==> q.inFlight == 0)
            && (PreFlush in o.ordseq <==> !o.doPre) && (Bar in o.ordseq <==> !o.doBar)
            && (PostFlush in o.ordseq <==> !o.doPost)
  {}

  lemma FrontOrdered(queue: seq<Entry>, yes: bool, p: Rq, k: nat)
    requires Ordered(queue, k) && !p.Fs?
    requires forall i :: 0 <= i < |queue| ==> Key(p, k) < Key(queue[i].rq, k)
    ensures Ordered(Front(queue, yes, p), k)
  {
    if yes {
      assert Front(queue, yes, p) == Insert(queue, 0, Entry(p, true));
      InsertOrdered(queue, 0, Entry(p, true), k);
    }
  }

  lemma FrontMembers(queue: seq<Entry>, yes: bool, p: Rq)
    ensures forall rq :: InQueue(Front(queue, yes, p), rq) <==> (yes && rq == p) || InQueue(queue, rq)
    ensures forall e :: HasBarrier(queue, e) ==> HasBarrier(Front(queue, yes, p), e)
    ensures forall e :: e in Front(queue, yes, p) <==> (yes && e == Entry(p, true)) || e in queue
  {
    if yes {
      InsertMembers(queue, 0, Entry(p, true));
      assert Front(queue, yes, p) == Insert(queue, 0, Entry(p, true));
    }
  }

  ghost predicate AtBarrier(q: Q) {
    Inv(q) && !Busy(q) && |q.queue| > 0 && q.queue[0].rq.Fs? && q.queue[0].rq.barrier
  }

  lemma BarrierIsNext(q: Q)
    requires AtBarrier(q)
    ensures q.queue[0].rq.epoch == Over(q) < q.barriers && q.queue[0].rq.color == Odd(Over(q))
    ensures forall i :: 0 <= i < |q.queue[1..]| ==>
              q.queue[1..][i].rq.Fs? && q.queue[1..][i].rq.epoch > Over(q) && EntryOk(q, q.queue[1..][i])
  {
    hide HistoryOk, ElevatorOk, InFlightSet;
    FirstFsEpoch(q, 0);
    assert EntryOk(q, q.queue[0]);
    forall i | 0 <= i < |q.queue[1..]|
      ensures q.queue[1..][i].rq.Fs? && q.queue[1..][i].rq.epoch > Over(q) && EntryOk(q, q.queue[1..][i])
    {
      assert EntryOk(q, q.queue[i + 1]) && Precedes(q.queue[0].rq, q.queue[i + 1].rq, Over(q));
    }
  }

  lemma OpenedMembers(q: Q)
    requires |q.queue| > 0 && q.queue[0].rq.Fs?
    ensures var o, rest := Opened(q), q.queue[1..];
            && (forall rq :: InQueue(o.queue, rq) <==>
                  (o.doPre && rq == PreRq) || (o.doBar && rq == BarRq) || (o.doPost && rq == PostRq)
                  || InQueue(rest, rq))
            && (forall e :: HasBarrier(rest, e) ==> HasBarrier(o.queue, e))
            && (forall e :: e in o.queue ==> e in rest || (!e.rq.Fs? && e.stop && Wanted(o, e.rq)))
  {
    hide InQueue, HasBarrier;
    var o, rest := Opened(q), q.queue[1..];
    var l1 := Front(rest, o.doPost, PostRq);
    var l2 := Front(l1, o.doBar, BarRq);
    FrontMembers(rest, o.doPost, PostRq);
    FrontMembers(l1, o.doBar, BarRq);
    FrontMembers(l2, o.doPre, PreRq);
  }

  lemma OpenedOrdered(q: Q)
    requires AtBarrier(q)
    ensures Ordered(Opened(q).queue, Over(q))
  {
    hide HistoryOk, ElevatorOk, InFlightSet, DriverOk, Separate, BarriersOk, InQueue, CurSeq, Skipped;
    var o, k, rest := Opened(q), Over(q), q.queue[1..];
    BarrierIsNext(q);
    assert Ordered(rest, k);
    var l1 := Front(rest, o.doPost, PostRq);
    var l2 := Front(l1, o.doBar, BarRq);
    FrontOrdered(rest, o.doPost, PostRq, k);
    FrontOrdered(l1, o.doBar, BarRq, k);
    FrontOrdered(l2, o.doPre, PreRq, k);
  }

  /** What opening a sequence leaves alone, and what it sets. */
  lemma OpenedFields(q: Q)
    requires |q.queue| > 0 && q.queue[0].rq.Fs? && q.ordseq == {}
    ensures var o := Opened(q);
            && o.sorted == q.sorted && o.driver == q.driver && o.inFlight == q.inFlight && o.ordcolor == q.ordcolor
            && o.submitted == q.submitted && o.completed == q.completed && o.ended == q.ended
            && o.barriers == q.barriers && o.nextId == q.nextId && o.orig == Some(q.queue[0].rq)
            && o.orderr == 0 && o.errors == [0] && o.finished == {} && o.ordseq != {}
  {
    hide Skipped, Front;
  }

  lemma OpenedEntries(q: Q)
    requires AtBarrier(q)
    ensures EntriesOk(Opened(q)) && BarriersOk(Opened(q))
  {
    hide HistoryOk, ElevatorOk, InFlightSet, DriverOk, Separate, SequenceOk, InQueue, CurSeq, Skipped, Ordered;
    hide Opened, EntryOk, HasBarrier;
    var o := Opened(q);
    BarrierIsNext(q);
    OpenedFields(q);
    OpenedMembers(q);
    OpenedStages(q);
    RemoveHead(q);
    forall i | 0 <= i < |o.queue| ensures EntryOk(o, o.queue[i]) {
      assert o.queue[i] in o.queue;
      OpenedEntry(q, o.queue[i]);
    }
  }

  lemma OpenedEntry(q: Q, e: Entry)
    requires AtBarrier(q) && (e in q.queue[1..] || (!e.rq.Fs? && e.stop && Wanted(Opened(q), e.rq)))
    ensures EntryOk(Opened(q), e)
  {
    BarrierIsNext(q);
    hide HistoryOk, ElevatorOk, InFlightSet, DriverOk, Separate, SequenceOk, BarriersOk, EntriesOk, InQueue, CurSeq;
    hide Ordered, Opened;
    OpenedFields(q);
    OpenedStages(q);
  }

  lemma IdleDriver(q: Q)
    requires Inv(q) && !Busy(q)
    ensures forall rq :: rq in q.driver ==> rq.Fs?
    ensures q.inFlight == 0 ==> q.driver == {}
  {
    forall rq: Rq ensures HeldOk(q, rq) ==> rq.Fs? {}
    assert q.inFlight == 0 ==> InFlightSet(q.driver) == {};
    assert forall rq :: rq in q.driver ==> rq in InFlightSet(q.driver);
  }

  lemma OpenedInv(q: Q)
    requires AtBarrier(q)
    ensures Unsettled(Opened(q)) && Inv(Settle(Opened(q)))
  {
    var o := Opened(q);
    BarrierIsNext(q);
    hide Ordered, EntriesOk, BarriersOk, ElevatorOk, DriverOk, SequenceOk, Separate, HistoryOk, InFlightSet, Skipped;
    OpenedOrdered(q);
    OpenedEntries(q);
    OpenedRest(q);
    SettleInv(o);
  }

  lemma OpenedRest(q: Q)
    requires AtBarrier(q)
    ensures var o := Opened(q);
            ElevatorOk(o) && DriverOk(o) && Separate(o) && SequenceOk(o) && HistoryOk(o)
  {
    hide Inv, Opened, ElevatorOk, DriverOk, Separate, SequenceOk, HistoryOk;
    OpenedElevator(q);
    OpenedSeparate(q);
    OpenedSequence(q);
    OpenedHistory(q);
  }

  lemma OpenedElevator(q: Q)
    requires AtBarrier(q)
    ensures ElevatorOk(Opened(q)) && DriverOk(Opened(q))
  {
    hide Ordered, EntriesOk, BarriersOk, Separate, SequenceOk, HistoryOk, InFlightSet, CurSeq, Opened;
    var o := Opened(q);
    OpenedFields(q);
    OpenedStages(q);
    IdleDriver(q);
    forall rq | rq in o.driver ensures HeldOk(o, rq) {
      assert HeldOk(q, rq);
    }
  }

  lemma OpenedSeparate(q: Q)
    requires AtBarrier(q)
    ensures Separate(Opened(q))
  {
    hide Ordered, EntriesOk, BarriersOk, ElevatorOk, DriverOk, SequenceOk, HistoryOk, InFlightSet, Opened;
    var o := Opened(q);
    OpenedFields(q);
    OpenedMembers(q);
    NoProxyAbout(q);
    forall i | 0 <= i < |o.queue| ensures o.queue[i].rq !in o.sorted && o.queue[i].rq !in o.driver {
      assert o.queue[i] in o.queue;
    }
  }

  /** While no sequence is running, only fs requests are with the elevator or the driver. */
  lemma NoProxyAbout(q: Q)
    requires Inv(q) && !Busy(q)
    ensures forall rq :: rq in q.sorted || rq in q.driver ==> rq.Fs?
  {
    hide Ordered, EntriesOk, BarriersOk, Separate, SequenceOk, HistoryOk, InFlightSet;
    forall rq: Rq ensures HeldOk(q, rq) ==> rq.Fs? {}
  }

  lemma OpenedSequence(q: Q)
    requires AtBarrier(q)
    ensures SequenceOk(Opened(q))
  {
    BarrierIsNext(q);
    hide Inv, Opened, ProxyOk;
    OpenedFields(q);
    OpenedStages(q);
    OpenedProxy(q, PreRq);
    OpenedProxy(q, BarRq);
    OpenedProxy(q, PostRq);
  }

  lemma OpenedProxy(q: Q, p: Rq)
    requires AtBarrier(q) && !p.Fs?
    ensures ProxyOk(Opened(q), p)
  {
    NoProxyAbout(q);
    NoProxyQueued(q);
    hide Inv, Opened, InQueue, HasBarrier;
    OpenedFields(q);
    OpenedMembers(q);
    OpenedStages(q);
  }

  lemma NoProxyQueued(q: Q)
    requires AtBarrier(q)
    ensures forall rq: Rq :: InQueue(q.queue[1..], rq) ==> rq.Fs?
  {
    BarrierIsNext(q);
    hide Inv;
    forall rq: Rq ensures InQueue(q.queue[1..], rq) ==> rq.Fs? {}
  }

  lemma OpenedHistory(q: Q)
    requires AtBarrier(q)
    ensures HistoryOk(Opened(q))
  {
    hide Ordered, EntriesOk, BarriersOk, ElevatorOk, DriverOk, Separate, SequenceOk, InFlightSet, Opened, InQueue;
    var o := Opened(q);
    OpenedFields(q);
    OpenedMembers(q);
    RemoveHead(q);
    assert [0][1..] == [];
    assert FirstError([0]) == 0;
    forall rq | rq in o.submitted
      ensures Plain(rq) && (rq in o.completed || rq in o.driver || rq in o.sorted || InQueue(o.queue, rq))
    {
      assert rq in q.submitted;
    }
  }
}
