/** Which requests carry a barrier out, told from the mode of the queue and from what was submitted
    alone. */
module BarrierStages {
  import opened Barrier
  import opened BarrierInvariant
  import opened BarrierSafety

  /** The stages that take a request of their own.  The barrier's data is written unless it has none;
      what the device caches is flushed before it, and after it unless the write goes through. */
  function Needed(mode: Mode, empty: bool): set<Stage> {
    match (mode, empty)
    case (DrainOnly, true) => {}
    case (DrainOnly, false) => {Bar}
    case (DrainFlush, true) => {PreFlush}
    case (DrainFlush, false) => {PreFlush, Bar, PostFlush}
    case (DrainFua, true) => {PreFlush}
    case (DrainFua, false) => {PreFlush, Bar}
  }

  // ----- the stages of a sequence -----

  /** A barrier is as it was submitted. */
  ghost predicate Genuine(q: Q, rq: Rq) {
    rq.Fs? && rq.barrier ==> rq.epoch < |q.empties| && rq.empty == q.empties[rq.epoch]
  }

  /** The flags of the sequence opened last, and the stages of it that have come back, are those its
      barrier needs. */
  ghost predicate Suits(q: Q) {
    q.orig.Some? ==>
      && q.orig.value.Fs? && q.orig.value.barrier && Genuine(q, q.orig.value)
      && var needed := Needed(q.mode, q.orig.value.empty);
         && (q.doPre <==> PreFlush in needed) && (q.doBar <==> Bar in needed)
         && (q.doPost <==> PostFlush in needed) && q.finished <= needed
  }

  ghost predicate StagesOk(q: Q) {
    && |q.empties| == q.barriers && Suits(q)
    && forall i :: 0 <= i < |q.queue| ==> Genuine(q, q.queue[i].rq)
  }

  /** Only the flags, the barriers on the list and the history of the sequence matter. */
  lemma KeepsStages(q: Q, q': Q)
    requires StagesOk(q) && (q.orig, q.doPre, q.doBar, q.doPost) == (q'.orig, q'.doPre, q'.doBar, q'.doPost)
    requires (q.mode, q.barriers, q.empties, q.finished) == (q'.mode, q'.barriers, q'.empties, q'.finished)
    requires forall e :: e in q'.queue ==> Genuine(q, e.rq) || exists i :: 0 <= i < |q.queue| && q.queue[i].rq == e.rq
    ensures StagesOk(q')
  {
    hide Needed;
    forall i | 0 <= i < |q'.queue| ensures Genuine(q', q'.queue[i].rq) {
      assert q'.queue[i] in q'.queue;
    }
  }

  lemma OpenedSuits(q: Q)
    requires |q.queue| > 0 && q.queue[0].rq.Fs? && q.queue[0].rq.barrier && StagesOk(q)
    ensures StagesOk(StackProxies(q)) && StackProxies(q).mode == q.mode
  {
    assert Genuine(q, q.queue[0].rq);
    var o := StackProxies(q);
    forall i | 0 <= i < |o.queue| ensures Genuine(o, o.queue[i].rq) {
      if o.queue[i].rq.Fs? {
        assert o.queue[i] in q.queue[1..];
      }
    }
  }

  lemma StartStages(q: Q)
    requires |q.queue| > 0 && q.queue[0].rq.Fs? && q.queue[0].rq.barrier && StagesOk(q)
    ensures StagesOk(StartOrdered(q).0) && StartOrdered(q).0.mode == q.mode
  {
    hide StackProxies, CompleteSeq, Skipped;
    OpenedSuits(q);
    var q1 := StackProxies(q);
    SeqKeeps(q1, Skipped(q1.doPre, q1.doBar, q1.doPost, q.inFlight == 0), 0);
  }

  lemma FetchStages(q: Q, start: bool)
    requires StagesOk(q) && Enabled(q, DoFetch(start))
    ensures StagesOk(Fetch(q, start)) && Fetch(q, start).mode == q.mode
  {
    hide StartOrdered, CurSeq, ReqSeq, StagesOk, HandOver, Peeked;
    if !Busy(q) && q.queue[0].rq.Fs? && q.queue[0].rq.barrier {
      StartStages(q);
    }
    var q1 := DoOrdered(q).0;
    if |q1.queue| > 0 {
      HandOverStages(q1);
    }
  }

  lemma HandOverStages(q: Q)
    requires StagesOk(q) && |q.queue| > 0
    ensures StagesOk(HandOver(q)) && HandOver(q).mode == q.mode && StagesOk(Peeked(q)) && Peeked(q).mode == q.mode
  {
    KeepsStages(q, HandOver(q));
    KeepsStages(q, Peeked(q));
  }

  /** A proxy with the driver is one that is wanted. */
  lemma HeldIsWanted(q: Q, p: Rq)
    requires Inv(q) && p in q.driver && !p.Fs?
    ensures Busy(q) && q.orig.Some? && q.orig.value.Fs? && q.orig.value.epoch == Over(q) && Wanted(q, p)
  {
    hide Ordered, EntriesOk, BarriersOk, ElevatorOk, Separate, HistoryOk, InFlightSet, InQueue;
    assert HeldOk(q, p);
  }

  lemma CompleteStages(q: Q, rq: Rq, error: int)
    requires Inv(q) && StagesOk(q) && Enabled(q, DoComplete(rq, error))
    ensures StagesOk(Complete(q, rq, error)) && Complete(q, rq, error).mode == q.mode
  {
    hide Inv, CompleteSeq, StagesOk, Completed;
    CompletedStages(q, rq);
    if !rq.Fs? {
      HeldIsWanted(q, rq);
      var q1 := Completed(q, rq);
      BackStages(q1, rq);
      var q2 := q1.(finished := q1.finished + {StageOf(rq)});
      SeqKeeps(q2, {StageOf(rq)}, error);
      KeepsStages(q2, CompleteSeq(q2, {StageOf(rq)}, error).0);
    }
  }

  lemma CompletedStages(q: Q, rq: Rq)
    requires StagesOk(q) && Enabled(q, DoComplete(rq, 0))
    ensures StagesOk(Completed(q, rq)) && Completed(q, rq).mode == q.mode && Completed(q, rq).orig == q.orig
    ensures !rq.Fs? && Wanted(q, rq) ==> Wanted(Completed(q, rq), rq)
  {
    hide CompleteSeq, Drained, StagesOk;
    SeqKeeps(TakeBack(q, rq), {Drain}, 0);
    KeepsStages(q, Completed(q, rq));
  }

  lemma BackStages(q: Q, p: Rq)
    requires StagesOk(q) && !p.Fs? && q.orig.Some? && Wanted(q, p)
    ensures StagesOk(q.(finished := q.finished + {StageOf(p)}))
  {
    hide Needed;
  }

  lemma InsertStages(q: Q, i: nat, e: Entry)
    requires i <= |q.queue| && Genuine(q, e.rq) && StagesOk(q)
    ensures StagesOk(q.(queue := Insert(q.queue, i, e)))
  {
    hide Suits, Genuine;
    KeepsStages(q, q.(queue := Insert(q.queue, i, e)));
  }

  lemma RequeueStages(q: Q, rq: Rq)
    requires Inv(q) && StagesOk(q) && Enabled(q, DoRequeue(rq))
    ensures StagesOk(Requeue(q, rq)) && Requeue(q, rq).mode == q.mode
  {
    hide Ordered, EntriesOk, BarriersOk, ElevatorOk, SequenceOk, Separate, HistoryOk, InFlightSet, Insert, ReqSeq;
    hide StagesOk;
    assert HeldOk(q, rq);
    var i := if Busy(q) then RequeueIndex(q, rq, 0) else 0;
    InsertStages(q, i, Entry(rq, true));
    KeepsStages(q.(queue := Insert(q.queue, i, Entry(rq, true))), Requeue(q, rq));
  }

  lemma DispatchStages(q: Q, rq: Rq, pos: nat)
    requires Inv(q) && StagesOk(q) && Enabled(q, DoDispatch(rq, pos))
    ensures StagesOk(Dispatch(q, rq, pos))
  {
    hide Ordered, EntriesOk, BarriersOk, DriverOk, SequenceOk, Separate, HistoryOk, InFlightSet, Insert;
    hide StagesOk;
    InsertStages(q, pos, Entry(rq, false));
    KeepsStages(q.(queue := Insert(q.queue, pos, Entry(rq, false))), Dispatch(q, rq, pos));
  }

  lemma StepStages(q: Q, a: Action)
    requires Inv(q) && StagesOk(q) && Enabled(q, a)
    ensures StagesOk(Next(q, a)) && Next(q, a).mode == q.mode
  {
    hide Inv, Fetch, Complete, Requeue;
    match a
    case DoFetch(start) => FetchStages(q, start);
    case DoComplete(rq, error) => CompleteStages(q, rq, error);
    case DoDispatch(rq, pos) => DispatchStages(q, rq, pos);
    case DoRequeue(rq) => RequeueStages(q, rq);
    case _ =>
  }

  lemma {:induction false} RunStages(run: seq<Q>, n: nat)
    requires IsRun(run) && n < |run|
    ensures Inv(run[n]) && StagesOk(run[n]) && run[n].mode == run[0].mode
  {
    hide Inv, Next, Enabled, StagesOk;
    RunInv(run, n);
    if n == 0 {
      InitStages(run[0].mode);
    } else {
      RunStages(run, n - 1);
      assert IsStep(run[n - 1], run[n]);
      var a :| StepBy(run[n - 1], run[n], a);
      StepStages(run[n - 1], a);
    }
  }

  lemma InitStages(mode: Mode)
    ensures StagesOk(Init(mode))
  {}

  /** In every state of every run a proxy is with the driver only if the queue's mode and the data of
      the barrier that is running call for it. */
  lemma ProxyIsNeeded(run: seq<Q>, n: nat, p: Rq)
    requires IsRun(run) && n < |run| && p in run[n].driver && !p.Fs?
    ensures var q := run[n];
            |q.ended| < |q.empties| && StageOf(p) in Needed(run[0].mode, q.empties[|q.ended|])
  {
    hide Inv, Next, Enabled;
    RunStages(run, n);
    HeldIsWanted(run[n], p);
  }

  /** In every run, when a barrier ends, the requests that have come back for it are exactly those that
      the mode of the queue and its data call for: the data has been written, and what had to be
      flushed before and after has been. */
  lemma BarrierIsCarriedOut(run: seq<Q>, n: nat)
    requires IsRun(run) && 0 < n < |run| && run[n].ended != run[n - 1].ended
    ensures var k := |run[n - 1].ended|;
            k < |run[n].empties| && run[n].finished == Needed(run[0].mode, run[n].empties[k])
  {
    hide Inv, Next, Enabled, FirstError, EarlierDone;
    RunStages(run, n);
    BarriersEndInOrder(run, n);
  }
}
