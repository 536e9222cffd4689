/** The barrier protocol goes on: a driver that works off what it is given ends every barrier. */
module BarrierProgress {
  import opened Barrier
  import opened BarrierInvariant
  import opened BarrierSafety

  /** While requests from before the barrier are awaited, one is with the driver or first on the list. */
  ghost predicate Draining(q: Q) {
    Busy(q) && Drain !in q.ordseq ==>
      || (exists rq :: rq in q.driver && rq.Fs?)
      || (|q.queue| > 0 && q.queue[0].rq.Fs? && q.queue[0].rq.epoch <= Over(q))
  }

  /** The driver holds an accounted request exactly while the count says so. */
  lemma InFlightHeld(q: Q)
    requires Inv(q) && q.inFlight != 0
    ensures exists rq :: rq in q.driver && Accounted(rq)
  {
    hide Ordered, EntriesOk, BarriersOk, ElevatorOk, DriverOk, SequenceOk, Separate, HistoryOk;
    var rq :| rq in InFlightSet(q.driver);
  }

  /** Until the drain is over, only fs requests are with the driver. */
  lemma DrainingFs(q: Q, rq: Rq)
    requires Inv(q) && rq in q.driver && Drain !in q.ordseq
    ensures rq.Fs?
  {
    hide Ordered, EntriesOk, BarriersOk, ElevatorOk, SequenceOk, Separate, HistoryOk, InFlightSet;
    assert HeldOk(q, rq);
  }

  /** A head that is let through while the drain goes on is from before the barrier. */
  lemma HeadFromBefore(q: Q)
    requires Inv(q) && Busy(q) && |q.queue| > 0 && Drain !in q.ordseq && ReqSeq(q, q.queue[0].rq) == Drain
    ensures q.queue[0].rq.Fs? && q.queue[0].rq.epoch <= Over(q)
  {
    hide Ordered, BarriersOk, ElevatorOk, DriverOk, ProxyOk, Separate, HistoryOk, InFlightSet;
    FirstFsEpoch(q, 0);
    assert EntryOk(q, q.queue[0]);
  }

  lemma FetchDrains(q: Q, start: bool)
    requires Inv(q) && Draining(q) && Enabled(q, DoFetch(start))
    ensures Draining(Fetch(q, start))
  {
    if Busy(q) {
      FetchBusyDrains(q, start);
    } else if AtBarrier(q) {
      OpeningDrains(q, start);
    }
  }

  lemma FetchBusyDrains(q: Q, start: bool)
    requires Inv(q) && Busy(q) && Draining(q) && |q.queue| > 0
    ensures SequenceOk(q) && Draining(Fetch(q, start))
  {
    hide Ordered, EntriesOk, BarriersOk, ElevatorOk, DriverOk, ProxyOk, Separate, HistoryOk, InFlightSet;
  }

  lemma OpeningDrains(q: Q, start: bool)
    requires AtBarrier(q)
    ensures Draining(Fetch(q, start))
  {
    hide Inv, StartOrdered, Opened, Skipped, CurSeq;
    StartOrderedSettles(q);
    OpenedStages(q);
    OpenedFields(q);
    if q.inFlight != 0 {
      IdleDriver(q);
      InFlightHeld(q);
    }
  }

  lemma CompleteFsDrains(q: Q, rq: Rq, error: int)
    requires Inv(q) && rq.Fs? && Enabled(q, DoComplete(rq, error))
    ensures Draining(Complete(q, rq, error))
  {
    hide Inv, CurSeq;
    var q1 := TakeBack(q, rq);
    TakeBackFsInv(q, rq);
    if Busy(q1) && Drain !in q1.ordseq && !Drained(q1) {
      StillDraining(q1);
    }
  }

  lemma StillDraining(q: Q)
    requires Inv(q) && Busy(q) && Drain !in q.ordseq && q.orig.Some? && q.orig.value.Fs? && !Drained(q)
    ensures Draining(q)
  {
    hide Ordered, EntriesOk, BarriersOk, ElevatorOk, DriverOk, ProxyOk, Separate, HistoryOk, InFlightSet;
    if q.inFlight != 0 {
      InFlightHeld(q);
      var held :| held in q.driver && Accounted(held);
      DrainingFs(q, held);
    } else {
      HeadFromBefore(q);
    }
  }

  lemma CompleteProxyDrains(q: Q, rq: Rq, error: int)
    requires Inv(q) && !rq.Fs? && Enabled(q, DoComplete(rq, error))
    ensures Draining(Complete(q, rq, error))
  {
    hide Ordered, EntriesOk, BarriersOk, ElevatorOk, ProxyOk, Separate, HistoryOk, InFlightSet;
    assert HeldOk(q, rq);
  }

  lemma RequeueDrains(q: Q, rq: Rq)
    requires Inv(q) && Draining(q) && Enabled(q, DoRequeue(rq))
    ensures Draining(Requeue(q, rq))
  {
    hide Ordered, EntriesOk, BarriersOk, ElevatorOk, ProxyOk, Separate, HistoryOk, InFlightSet;
    assert HeldOk(q, rq);
  }

  lemma DispatchDrains(q: Q, rq: Rq, pos: nat)
    requires Inv(q) && Draining(q) && Enabled(q, DoDispatch(rq, pos))
    ensures Draining(Dispatch(q, rq, pos))
  {
    hide Ordered, BarriersOk, ElevatorOk, DriverOk, ProxyOk, Separate, HistoryOk, InFlightSet;
    if |q.queue| > 0 {
      assert EntryOk(q, q.queue[0]);
    }
  }

  lemma StepDrains(q: Q, a: Action)
    requires Inv(q) && Draining(q) && Enabled(q, a)
    ensures Draining(Next(q, a))
  {
    hide Inv, Fetch, Complete, Requeue, Dispatch;
    match a
    case DoFetch(start) => FetchDrains(q, start);
    case DoComplete(rq, error) =>
      if rq.Fs? {
        CompleteFsDrains(q, rq, error);
      } else {
        CompleteProxyDrains(q, rq, error);
      }
    case DoDispatch(rq, pos) => DispatchDrains(q, rq, pos);
    case DoRequeue(rq) => RequeueDrains(q, rq);
    case _ =>
  }

  lemma {:induction false} RunDrains(run: seq<Q>, n: nat)
    requires IsRun(run) && n < |run|
    ensures Inv(run[n]) && Draining(run[n])
  {
    hide Inv, Next, Enabled, Draining;
    RunInv(run, n);
    if n == 0 {
      assert Draining(Init(run[0].mode)) by { NotBusy(Init(run[0].mode)); }
    } else {
      RunDrains(run, n - 1);
      assert IsStep(run[n - 1], run[n]);
      var a :| StepBy(run[n - 1], run[n], a);
      StepDrains(run[n - 1], a);
    }
  }

  lemma NotBusy(q: Q)
    requires q.ordseq == {}
    ensures Draining(q)
  {}

  // ----- nothing stands still -----

  /** What may come next on the list belongs to the running stage: nothing ahead of that is open. */
  lemma StageIsFirst(q: Q, p: Rq)
    requires Inv(q) && Busy(q) && !p.Fs? && CurSeq(q.ordseq) == StageOf(p) && InQueue(q.queue, p)
    ensures |q.queue| > 0 && q.queue[0].rq == p
  {
    hide BarriersOk, ElevatorOk, DriverOk, ProxyOk, Separate, HistoryOk, InFlightSet;
    var i :| 0 <= i < |q.queue| && q.queue[i].rq == p;
    assert EntryOk(q, q.queue[0]);
    if i > 0 {
      assert Precedes(q.queue[0].rq, q.queue[i].rq, Over(q));
    }
  }

  /** With nothing at the driver, a running sequence has something on the list, and it is due. */
  lemma HeadIsDue(q: Q)
    requires Inv(q) && Draining(q) && Busy(q) && q.driver == {}
    ensures q.orig.Some? && q.orig.value.Fs? && |q.queue| > 0
    ensures Rank(ReqSeq(q, q.queue[0].rq)) <= Rank(CurSeq(q.ordseq))
  {
    hide Ordered, BarriersOk, ElevatorOk, DriverOk, Separate, HistoryOk, InFlightSet, InQueue;
    if Drain !in q.ordseq {
      assert EntryOk(q, q.queue[0]);
    } else {
      var p := if PreFlush !in q.ordseq then PreRq else if Bar !in q.ordseq then BarRq else PostRq;
      assert ProxyOk(q, p);
      StageIsFirst(q, p);
    }
  }

  /** In every state of every run, if nothing is with the driver while something is on the list or a
      sequence is running, the next fetch hands a request over or ends a barrier. */
  lemma NeverStuck(run: seq<Q>, n: nat)
    requires IsRun(run) && n < |run| && run[n].driver == {} && (|run[n].queue| > 0 || Busy(run[n]))
    ensures Enabled(run[n], DoFetch(true))
    ensures var q' := Fetch(run[n], true); |q'.driver| == 1 || |q'.ended| == |run[n].ended| + 1
  {
    hide Inv, Next;
    RunDrains(run, n);
    MovesOn(run[n]);
  }

  lemma MovesOn(q: Q)
    requires Inv(q) && Draining(q) && q.driver == {} && (|q.queue| > 0 || Busy(q))
    ensures Enabled(q, DoFetch(true))
    ensures var q' := Fetch(q, true); |q'.driver| == 1 || |q'.ended| == |q.ended| + 1
  {
    hide Ordered, EntriesOk, BarriersOk, ElevatorOk, DriverOk, SequenceOk, Separate, HistoryOk, Draining, Fetch;
    if Busy(q) {
      HeadIsDue(q);
      DueIsHanded(q);
    } else if q.queue[0].rq.Fs? && q.queue[0].rq.barrier {
      OpeningMovesOn(q);
    } else {
      DueIsHanded(q);
    }
  }

  lemma DueIsHanded(q: Q)
    requires Enabled(q, DoFetch(true)) && q.driver == {} && DoOrdered(q) == (q, Give)
    ensures |Fetch(q, true).driver| == 1
  {
    hide DoOrdered;
    assert HandOver(q).driver == {q.queue[0].rq};
  }

  lemma OpeningMovesOn(q: Q)
    requires AtBarrier(q) && q.driver == {}
    ensures var q' := Fetch(q, true); |q'.driver| == 1 || |q'.ended| == |q.ended| + 1
  {
    hide Inv, StartOrdered, Opened, Skipped, CurSeq;
    NoneInFlight(q);
    StartOrderedSettles(q);
    OpenedFields(q);
    var (q1, v) := StartOrdered(q);
    if v == Give {
      GivenAfterStart(q);
      assert HandOver(q1).driver == {q1.queue[0].rq};
    }
  }

  lemma NoneInFlight(q: Q)
    requires Inv(q) && q.driver == {}
    ensures q.inFlight == 0
  {
    assert InFlightSet({}) == {};
  }

  // ----- the work that is left -----

  /** A barrier is worth more than the proxies that may take its place. */
  function Cost(rq: Rq): nat { if rq.Fs? && rq.barrier then 8 else 2 }

  function Load(queue: seq<Entry>): nat {
    if |queue| == 0 then 0 else Cost(queue[0].rq) + Load(queue[1..])
  }

  function Work(q: Q): nat { Load(q.queue) + |q.driver| }

  lemma FrontLoad(queue: seq<Entry>, yes: bool, p: Rq)
    requires !p.Fs?
    ensures Load(Front(queue, yes, p)) <= Load(queue) + 2
  {
    assert ([Entry(p, true)] + queue)[1..] == queue;
  }

  lemma OpeningWorks(q: Q)
    requires |q.queue| > 0 && q.queue[0].rq.Fs? && q.queue[0].rq.barrier
    ensures Work(StartOrdered(q).0) < Work(q)
  {
    hide CurSeq, Skipped, Front, Load;
    var q1, rest := StackProxies(q), q.queue[1..];
    assert Load(q.queue) == 8 + Load(rest) by { LoadFirst(q.queue); }
    FrontLoad(rest, q1.doPost, PostRq);
    FrontLoad(Front(rest, q1.doPost, PostRq), q1.doBar, BarRq);
    FrontLoad(Front(Front(rest, q1.doPost, PostRq), q1.doBar, BarRq), q1.doPre, PreRq);
  }

  lemma LoadFirst(queue: seq<Entry>)
    requires |queue| > 0
    ensures Load(queue) == Cost(queue[0].rq) + Load(queue[1..])
  {}

  lemma HandOverWorks(q: Q)
    requires |q.queue| > 0
    ensures Work(HandOver(q)) < Work(q)
  {}

  lemma FetchWorks(q: Q)
    requires Enabled(q, DoFetch(true)) && Fetch(q, true) != q
    ensures Work(Fetch(q, true)) < Work(q)
  {
    hide StartOrdered, HandOver, Work, CurSeq, ReqSeq;
    if q.ordseq == {} && q.queue[0].rq.Fs? && q.queue[0].rq.barrier {
      OpeningWorks(q);
    }
    var q1 := DoOrdered(q).0;
    if |q1.queue| > 0 {
      HandOverWorks(q1);
    }
  }

  lemma CompleteWorks(q: Q, rq: Rq, error: int)
    requires Enabled(q, DoComplete(rq, error))
    ensures Work(Complete(q, rq, error)) < Work(q)
  {
    hide CompleteSeq, Drained, Load;
    SeqKeeps(TakeBack(q, rq), {Drain}, 0);
    if !rq.Fs? {
      var q1 := Completed(q, rq);
      SeqKeeps(q1.(finished := q1.finished + {StageOf(rq)}), {StageOf(rq)}, error);
    }
    assert Complete(q, rq, error).driver == q.driver - {rq};
  }

  /** The driver completes something, or fetches with some effect. */
  ghost predicate WorkStep(q: Q, q': Q) {
    q' != q && exists a :: StepBy(q, q', a) && (a.DoComplete? || a == DoFetch(true))
  }

  lemma WorkLessens(q: Q, q': Q)
    requires WorkStep(q, q')
    ensures Work(q') < Work(q)
  {
    hide Enabled, Fetch, Complete, Work;
    var a :| StepBy(q, q', a) && (a.DoComplete? || a == DoFetch(true));
    if a.DoComplete? {
      CompleteWorks(q, a.rq, a.error);
    } else {
      FetchWorks(q);
    }
  }

  /** From every state of every run, a driver that only works off what there is does so in a bounded
      number of steps, */
  lemma {:induction false} WorkIsBounded(run: seq<Q>, n: nat)
    requires IsRun(run) && n < |run| && forall i {:trigger run[i]} :: n < i < |run| ==> WorkStep(run[i - 1], run[i])
    ensures |run| - 1 - n <= Work(run[n])
    decreases |run| - n
  {
    hide IsStep, WorkStep, Work;
    if n + 1 < |run| {
      WorkIsBounded(run, n + 1);
      assert WorkStep(run[n + 1 - 1], run[n + 1]);
      WorkLessens(run[n], run[n + 1]);
    }
  }

  /** and when it can do nothing more every barrier submitted has ended and every request that has left
      the elevator is complete. */
  lemma AllIsDone(run: seq<Q>, n: nat)
    requires IsRun(run) && n < |run| && forall q' :: !WorkStep(run[n], q')
    ensures var q := run[n];
            && q.driver == {} && q.queue == [] && !Busy(q) && |q.ended| == q.barriers
            && forall rq :: rq in q.submitted ==> rq in q.completed || rq in q.sorted
  {
    var q := run[n];
    RunDrains(run, n);
    hide Next;
    if rq :| rq in q.driver {
      CanComplete(q, rq);
    } else if |q.queue| > 0 || Busy(q) {
      CanFetch(q);
    }
    Finished(q);
  }

  lemma CanComplete(q: Q, rq: Rq)
    requires Inv(q) && rq in q.driver
    ensures exists q' :: WorkStep(q, q')
  {
    hide Ordered, EntriesOk, BarriersOk, ElevatorOk, DriverOk, ProxyOk, Separate, HistoryOk, InFlightSet;
    assert Enabled(q, DoComplete(rq, 0));
    CompleteWorks(q, rq, 0);
    hide Complete, Work;
    var q' := Complete(q, rq, 0);
    assert StepBy(q, q', DoComplete(rq, 0));
    assert WorkStep(q, q');
  }

  lemma CanFetch(q: Q)
    requires Inv(q) && Draining(q) && q.driver == {} && (|q.queue| > 0 || Busy(q))
    ensures exists q' :: WorkStep(q, q')
  {
    hide Inv, Fetch, Draining;
    MovesOn(q);
    var q' := Fetch(q, true);
    assert q' != q;
    assert StepBy(q, q', DoFetch(true));
    assert WorkStep(q, q');
  }

  lemma Finished(q: Q)
    requires Inv(q) && q.driver == {} && q.queue == [] && !Busy(q)
    ensures |q.ended| == q.barriers
    ensures forall rq :: rq in q.submitted ==> rq in q.completed || rq in q.sorted
  {
    hide Ordered, EntriesOk, ElevatorOk, DriverOk, SequenceOk, Separate, InFlightSet;
    assert !HasBarrier(q.queue, Left(q));
  }
}
