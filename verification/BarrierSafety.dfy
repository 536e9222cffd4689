/** What the barrier protocol guarantees over every interleaving of submissions,
    dispatches, fetches, completions and requeues. */
module BarrierSafety {
  import opened Barrier
  import opened BarrierInvariant

  lemma GivenAfterStart(q: Q)
    requires AtBarrier(q) && StartOrdered(q).1 == Give
    ensures var q1 := StartOrdered(q).0;
            Inv(q1) && Busy(q1) && |q1.queue| > 0 && HeldOk(q1, q1.queue[0].rq)
  {
    hide Ordered, EntriesOk, BarriersOk, ElevatorOk, DriverOk, SequenceOk, Separate, HistoryOk, InFlightSet, Skipped;
    StartOrderedSettles(q);
    OpenedInv(q);
    OpenedStages(q);
  }

  lemma FetchInv(q: Q, start: bool)
    requires Inv(q) && Enabled(q, DoFetch(start))
    ensures Inv(Fetch(q, start))
  {
    hide Ordered, EntriesOk, BarriersOk, ElevatorOk, DriverOk, SequenceOk, Separate, HistoryOk, InFlightSet;
    hide StartOrdered, HeldOk, HandOver, Peeked, Skipped, CurSeq;
    var (q1, v) := DoOrdered(q);
    if AtBarrier(q) {
      StartOrderedSettles(q);
      OpenedInv(q);
      if v == Give {
        GivenAfterStart(q);
      }
    } else if v == Give {
      GivenIsDue(q);
    }
    if v == Give {
      if start {
        HandOverInv(q1);
      } else {
        PeekInv(q1);
      }
    }
  }

  lemma StepInv(q: Q, a: Action)
    requires Inv(q) && Enabled(q, a)
    ensures Inv(Next(q, a))
  {
    hide Inv, Submit, SubmitSoft, SubmitBarrier, Dispatch, Fetch, Partial, Complete, Requeue;
    match a
    case DoSubmit(empty) => SubmitInv(q, empty);
    case DoSubmitSoft(empty) => SubmitSoftInv(q, empty);
    case DoSubmitBarrier(empty) => SubmitBarrierInv(q, empty);
    case DoDispatch(rq, pos) => DispatchInv(q, rq, pos);
    case DoFetch(start) => FetchInv(q, start);
    case DoPartial(error) => PartialInv(q, error);
    case DoComplete(rq, error) =>
      if rq.Fs? {
        CompleteFsInv(q, rq, error);
      } else {
        CompleteProxyInv(q, rq, error);
      }
    case DoRequeue(rq) => RequeueInv(q, rq);
  }

  // ----- runs -----

  ghost predicate StepBy(q: Q, q': Q, a: Action) { Enabled(q, a) && q' == Next(q, a) }

  ghost predicate IsStep(q: Q, q': Q) { exists a :: StepBy(q, q', a) }

  ghost predicate IsRun(run: seq<Q>) {
    && |run| > 0 && run[0] == Init(run[0].mode)
    && forall i {:trigger run[i]} :: 0 < i < |run| ==> IsStep(run[i - 1], run[i])
  }

  lemma {:induction false} RunInv(run: seq<Q>, n: nat)
    requires IsRun(run) && n < |run|
    ensures Inv(run[n])
  {
    hide Inv, Next, Enabled;
    if n == 0 {
      InitInv(run[0].mode);
    } else {
      RunInv(run, n - 1);
      assert IsStep(run[n - 1], run[n]);
      var a :| StepBy(run[n - 1], run[n], a);
      StepInv(run[n - 1], a);
    }
  }

  // ----- safety -----

  /** Everything submitted before the running barrier has completed. */
  ghost predicate EarlierDone(q: Q, k: nat) {
    forall rq :: rq in q.submitted && rq.Fs? && rq.epoch <= k ==> rq in q.completed
  }

  /** What the driver holds may be there: an fs request has no unfinished barrier before it;
      a proxy is alone, everything submitted before its barrier is complete, and so are the
      stages before its own. */
  ghost predicate Safe(q: Q, rq: Rq) {
    if rq.Fs? then rq.epoch == |q.ended|
    else
      && q.driver == {rq} && EarlierDone(q, |q.ended|)
      && (!rq.PreRq? && q.doPre ==> PreFlush in q.finished)
      && (rq.PostRq? && q.doBar ==> Bar in q.finished)
  }

  lemma NoneLeft(q: Q, k: nat)
    requires Unsettled(q) && Busy(q) && Drain in q.ordseq && k == Over(q)
    requires forall rq :: rq in q.driver ==> !rq.Fs?
    ensures EarlierDone(q, k)
  {
    hide Ordered, SequenceOk, FirstError, CurSeq, Separate;
    forall i | 0 <= i < |q.queue| ensures q.queue[i].rq.Fs? ==> q.queue[i].rq.epoch > k {
      assert EntryOk(q, q.queue[i]);
    }
  }

  lemma HeldIsSafe(q: Q, rq: Rq)
    requires Inv(q) && rq in q.driver
    ensures Safe(q, rq)
  {
    hide Ordered, EntriesOk, ElevatorOk, HistoryOk, InFlightSet;
    assert HeldOk(q, rq);
    if !rq.Fs? {
      OnlyProxy(q, rq);
      NoneLeft(q, Over(q));
    }
  }

  /** In every state of every run, everything with the driver is there safely: in particular
      nothing queued after a barrier reaches the driver before that barrier's sequence has
      ended, and no stage is issued before all that precedes it is over. */
  lemma DriverAlwaysSafe(run: seq<Q>, n: nat, rq: Rq)
    requires IsRun(run) && n < |run| && rq in run[n].driver
    ensures Safe(run[n], rq)
  {
    RunInv(run, n);
    HeldIsSafe(run[n], rq);
  }

  /** No proxy with the driver is of a stage that is closed, and the head of the list is never
      behind the running stage. */
  lemma StagesOnce(q: Q)
    requires Inv(q) && Busy(q)
    ensures forall p :: p in q.driver && !p.Fs? ==> StageOf(p) !in q.ordseq
    ensures |q.queue| > 0 ==> Rank(CurSeq(q.ordseq)) <= Rank(ReqSeq(q, q.queue[0].rq))
  {
    hide HistoryOk, InFlightSet;
    forall p | p in q.driver && !p.Fs? ensures StageOf(p) !in q.ordseq {
      assert HeldOk(q, p);
    }
    if |q.queue| > 0 {
      assert EntryOk(q, q.queue[0]);
      if q.queue[0].rq.Fs? {
        FirstFsEpoch(q, 0);
      }
    }
  }

  /** In every state of every run the head of the list belongs to the running stage or to a
      later one, so that a requeue or a dispatch never leaves anything behind. */
  lemma HeadNeverBehind(run: seq<Q>, n: nat)
    requires IsRun(run) && n < |run| && Busy(run[n]) && |run[n].queue| > 0
    ensures run[n].orig.Some? && run[n].orig.value.Fs?
    ensures Rank(CurSeq(run[n].ordseq)) <= Rank(ReqSeq(run[n], run[n].queue[0].rq))
  {
    hide Ordered, EntriesOk, BarriersOk, ElevatorOk, DriverOk, ProxyOk, Separate, HistoryOk, InFlightSet;
    hide Next, Enabled, CurSeq, ReqSeq;
    RunInv(run, n);
    StagesOnce(run[n]);
  }

  /** In every state of every run the queue counts as in flight what it waits for when it drains: the fs
      requests with the driver and the barrier's own write, and no flush. */
  lemma InFlightIs(run: seq<Q>, n: nat)
    requires IsRun(run) && n < |run|
    ensures run[n].inFlight == |set rq | rq in run[n].driver && !rq.PreRq? && !rq.PostRq?|
  {
    hide Ordered, EntriesOk, BarriersOk, ElevatorOk, DriverOk, SequenceOk, Separate, HistoryOk, Next, Enabled;
    RunInv(run, n);
    assert InFlightSet(run[n].driver) == set rq | rq in run[n].driver && !rq.PreRq? && !rq.PostRq?;
  }

  /** A request that the driver has been shown stays at the head: until the driver fetches it or gives one
      back, nothing the elevator dispatches comes in front of it. */
  lemma ShownStays(q: Q, a: Action)
    requires Enabled(q, DoFetch(false)) && DoOrdered(q).1 == Give && |DoOrdered(q).0.queue| > 0
    requires var q1 := Fetch(q, false); Enabled(q1, a) && !a.DoFetch? && !a.DoRequeue?
    ensures var q1 := Fetch(q, false);
            && |q1.queue| > 0 && q1.queue[0].rq == DoOrdered(q).0.queue[0].rq
            && |Next(q1, a).queue| > 0 && Next(q1, a).queue[0] == q1.queue[0]
  {
    hide DoOrdered, CompleteSeq, Drained;
    var q1 := Fetch(q, false);
    if a.DoComplete? {
      CompleteQueue(q1, a.rq, a.error);
    }
  }

  lemma CompleteQueue(q: Q, rq: Rq, error: int)
    requires Enabled(q, DoComplete(rq, error))
    ensures Complete(q, rq, error).queue == q.queue
  {
    hide CompleteSeq, Drained;
    SeqKeeps(TakeBack(q, rq), {Drain}, 0);
    if !rq.Fs? {
      var q1 := Completed(q, rq);
      SeqKeeps(q1.(finished := q1.finished + {StageOf(rq)}), {StageOf(rq)}, error);
    }
  }

  /** The calls of `CompleteSeq` a step makes: the state each is made in, and the stages it
      closes. */
  ghost function Calls(q: Q, a: Action): seq<(Q, set<Stage>)>
    requires Enabled(q, a)
  {
    match a
    case DoFetch(_) =>
      if AtBarrier(q) then
        var q1 := StackProxies(q);
        [(q1, Skipped(q1.doPre, q1.doBar, q1.doPost, q.inFlight == 0))]
      else []
    case DoComplete(rq, _) =>
      var q1 := TakeBack(q, rq);
      (if Drained(q1) then [(q1, {Drain})] else [])
      + if rq.Fs? then [] else [(Completed(q, rq), {StageOf(rq)})]
    case _ => []
  }

  ghost predicate ClosedOnce(calls: seq<(Q, set<Stage>)>) {
    forall c :: c in calls ==> c.0.ordseq !! c.1
  }

  lemma CallsOnce(q: Q, a: Action)
    requires Inv(q) && Enabled(q, a)
    ensures ClosedOnce(Calls(q, a))
  {
    hide Inv;
    if a.DoFetch? {
      if AtBarrier(q) {
        FetchOnce(q);
      }
    } else if a.DoComplete? {
      CompleteOnce(q, a.rq, a.error);
    }
  }

  /** Opening a sequence skips stages only, and it is not one of them that it has started. */
  lemma FetchOnce(q: Q)
    requires |q.queue| > 0 && q.queue[0].rq.Fs? && q.ordseq == {}
    ensures var q1 := StackProxies(q);
            q1.ordseq !! Skipped(q1.doPre, q1.doBar, q1.doPost, q.inFlight == 0)
  {
    hide Front;
  }

  lemma CompleteOnce(q: Q, rq: Rq, error: int)
    requires Inv(q) && Enabled(q, DoComplete(rq, error))
    ensures ClosedOnce(Calls(q, DoComplete(rq, error)))
  {
    hide Ordered, EntriesOk, BarriersOk, ElevatorOk, ProxyOk, HistoryOk, InFlightSet, Separate, AtBarrier;
    if !rq.Fs? {
      assert HeldOk(q, rq);
      OpenStage(q, rq);
    }
  }

  lemma OpenStage(q: Q, rq: Rq)
    requires q.ordseq != {} && q.orig.Some? && q.orig.value.Fs? && !rq.Fs? && CurSeq(q.ordseq) == StageOf(rq)
    ensures StageOf(rq) !in Completed(q, rq).ordseq
  {
    hide ReqSeq, Rank;
  }

  /** In every run no call closes a stage that is closed already, be it a proxy's, the drain
      or one that is skipped. */
  lemma StagesClosedOnce(run: seq<Q>, n: nat, a: Action)
    requires IsRun(run) && 0 < n < |run| && StepBy(run[n - 1], run[n], a)
    ensures ClosedOnce(Calls(run[n - 1], a))
  {
    hide Inv, Next, Enabled, Calls, ClosedOnce;
    RunInv(run, n - 1);
    CallsOnce(run[n - 1], a);
  }

  /** How a step may end barriers: not at all, or the running one, with the first error its
      stages reported, once all before it is complete and all its stages have come back. */
  ghost predicate EndsOk(q: Q, q': Q) {
    q'.ended != q.ended ==>
    && |q'.ended| == |q.ended| + 1 && q'.ended[..|q.ended|] == q.ended
    && q'.orig.Some? && q'.orig.value.Fs? && q'.orig.value.epoch == |q.ended|
    && q'.ended[|q.ended|] == FirstError(q'.errors)
    && EarlierDone(q', |q.ended|)
    && (q'.doPre ==> PreFlush in q'.finished) && (q'.doBar ==> Bar in q'.finished)
    && (q'.doPost ==> PostFlush in q'.finished)
  }

  lemma SettleEnds(q: Q, u: Q)
    requires Unsettled(u) && Busy(u) && u.ended == q.ended
    ensures EndsOk(q, Settle(u))
  {
    if CurSeq(u.ordseq) == Done {
      AllStagesOver(u);
      NoneLeft(u, Over(u));
      assert Settle(u).ended[..|q.ended|] == q.ended;
    }
  }

  lemma StepEnds(q: Q, a: Action)
    requires Inv(q) && Enabled(q, a)
    ensures EndsOk(q, Next(q, a))
  {
    hide Inv, Unsettled, EndsOk, Settle, StartOrdered, CompleteSeq;
    match a
    case DoFetch(start) => FetchEnds(q, start);
    case DoComplete(rq, error) => CompleteEnds(q, rq, error);
    case _ => NoEnd(q, Next(q, a));
  }

  lemma NoEnd(q: Q, q': Q)
    requires q'.ended == q.ended
    ensures EndsOk(q, q')
  {}

  lemma FetchEnds(q: Q, start: bool)
    requires Inv(q) && Enabled(q, DoFetch(start))
    ensures EndsOk(q, Fetch(q, start))
  {
    hide Ordered, EntriesOk, BarriersOk, ElevatorOk, DriverOk, SequenceOk, Separate, HistoryOk, InFlightSet;
    hide EndsOk, StartOrdered, Skipped, CurSeq;
    if AtBarrier(q) {
      var (q1, v) := DoOrdered(q);
      StartOrderedSettles(q);
      OpenedInv(q);
      SettleEnds(q, Opened(q));
      if v == Give {
        NoEnd(q, Fetch(q, start));
      }
    } else {
      NoEnd(q, Fetch(q, start));
    }
  }

  lemma CompleteEnds(q: Q, rq: Rq, error: int)
    requires Inv(q) && rq in q.driver && Enabled(q, DoComplete(rq, error))
    ensures EndsOk(q, Complete(q, rq, error))
  {
    hide Ordered, EntriesOk, BarriersOk, ElevatorOk, DriverOk, ProxyOk, Separate, HistoryOk, InFlightSet;
    hide EndsOk, Settle;
    if rq.Fs? {
      var q1 := TakeBack(q, rq);
      TakeBackFsInv(q, rq);
      if DrainOver(q1) {
        DrainClosedUnsettled(q1);
        SettleEnds(q, DrainClosed(q1));
      } else {
        NoEnd(q, Complete(q, rq, error));
      }
    } else {
      CompleteProxyInv(q, rq, error);
      StageClosedUnsettled(q, rq, error);
      DrainAlreadyOver(q, rq);
      SettleEnds(q, StageClosed(q, rq, error));
    }
  }

  /** Over every run, barriers end one at a time, in order, never twice, each with the first
      error of its sequence, after all submitted before it and all its stages. */
  lemma BarriersEndInOrder(run: seq<Q>, n: nat)
    requires IsRun(run) && 0 < n < |run|
    ensures EndsOk(run[n - 1], run[n])
  {
    hide Inv, EndsOk, Next, Enabled;
    RunInv(run, n - 1);
    assert IsStep(run[n - 1], run[n]);
    var a :| StepBy(run[n - 1], run[n], a);
    StepEnds(run[n - 1], a);
  }

  /** The error that counts after each step: none when a sequence begins, then the first that a part of the
      barrier or one of the proxies ends with; nothing else changes it. */
  lemma ErrorsReported(q: Q, a: Action)
    requires Inv(q) && Enabled(q, a)
    ensures var e := FirstError(q.errors);
            FirstError(Next(q, a).errors) ==
              match a
              case DoFetch(_) => (if AtBarrier(q) then 0 else e)
              case DoPartial(error) => (if e != 0 then e else error)
              case DoComplete(rq, error) => (if e != 0 || rq.Fs? then e else error)
              case _ => e
  {
    hide Inv, FirstError, Fetch, Complete;
    match a
    case DoFetch(start) => FetchErrors(q, start);
    case DoPartial(error) => FirstErrorSnoc(q.errors, error);
    case DoComplete(rq, error) => CompleteErrors(q, rq, error);
    case _ =>
  }

  lemma FetchErrors(q: Q, start: bool)
    requires Inv(q) && Enabled(q, DoFetch(start))
    ensures FirstError(Fetch(q, start).errors) == if AtBarrier(q) then 0 else FirstError(q.errors)
  {
    hide Inv, FirstError, CurSeq, StartOrdered, ReqSeq;
    if AtBarrier(q) {
      StartErrors(q);
    }
  }

  lemma StartErrors(q: Q)
    requires |q.queue| > 0 && q.queue[0].rq.Fs?
    ensures FirstError(StartOrdered(q).0.errors) == 0
  {
    hide FirstError, CurSeq, Skipped, Front;
    FirstErrorSnoc([], 0);
    NoErrors();
  }

  lemma CompleteErrors(q: Q, rq: Rq, error: int)
    requires Enabled(q, DoComplete(rq, error))
    ensures var e := FirstError(q.errors);
            FirstError(Complete(q, rq, error).errors) == if e != 0 || rq.Fs? then e else error
  {
    hide FirstError, CompleteSeq, Drained;
    SeqErrors(TakeBack(q, rq), {Drain}, 0);
    if !rq.Fs? {
      var q1 := Completed(q, rq);
      SeqErrors(q1.(finished := q1.finished + {StageOf(rq)}), {StageOf(rq)}, error);
    }
  }

  lemma SeqErrors(q: Q, seqs: set<Stage>, error: int)
    ensures var e := FirstError(q.errors);
            FirstError(CompleteSeq(q, seqs, error).0.errors) == if e != 0 then e else error
  {
    hide FirstError, CurSeq;
    FirstErrorSnoc(q.errors, error);
  }

  lemma NoErrors()
    ensures FirstError([]) == 0
  {}
}
