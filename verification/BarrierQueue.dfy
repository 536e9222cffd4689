/** The loops around the barrier protocol, on a queue updated in place. */
module BarrierQueue {
  import opened Barrier
  import opened BarrierInvariant
  import opened BarrierSafety

  class RequestQueue {
    var q: Q

    constructor (mode: Mode)
      ensures q == Init(mode)
    {
      q := Init(mode);
    }

    /** `__elv_next_request`: offers the head of the list to the barrier code until it is
        let through or held back, refilling an empty list from the elevator, which may
        decline to dispatch what it holds.  It comes to an end; what it does is a path of
        protocol steps; a request it returns is due, and fetching at the end of the path
        gives that request; and it returns none only when there is none, the elevator
        declined, or a running sequence holds the head back. */
    method NextRequest() returns (found: bool, declined: bool, ghost path: seq<Q>)
      requires Inv(q)
      modifies this
      ensures Inv(q)
      ensures q.driver == old(q.driver) && q.completed == old(q.completed) && q.submitted == old(q.submitted)
      ensures |path| > 0 && IsPath(path) && path[0] == old(q)
      ensures found ==> |q.queue| > 0 && HeldOk(q, q.queue[0].rq) && LetsThrough(path[|path| - 1], q)
      ensures !found ==> path[|path| - 1] == q
      ensures !found ==> (q.queue == [] && (q.sorted == {} || declined)) || Busy(q)
    {
      hide Ordered, EntriesOk, BarriersOk, ElevatorOk, DriverOk, ProxyOk, Separate, HistoryOk, InFlightSet, HeldOk;
      hide StartOrdered, LetsThrough, IsPath;
      declined := false;
      path := [q];
      NoSteps(q);
      while true
        invariant Inv(q) && |path| > 0 && IsPath(path) && path[0] == old(q) && path[|path| - 1] == q
        invariant q.driver == old(q.driver) && q.completed == old(q.completed) && q.submitted == old(q.submitted)
        decreases |q.sorted|
      {
        ghost var waiting := q.sorted;
        while |q.queue| > 0
          invariant Inv(q) && q.sorted == waiting && |path| > 0 && IsPath(path) && path[0] == old(q)
                    && path[|path| - 1] == q
          invariant q.driver == old(q.driver) && q.completed == old(q.completed) && q.submitted == old(q.submitted)
          decreases |q.queue|
        {
          var (q1, v) := DoOrdered(q);
          OfferHead(q);
          OfferIsFetch(path, q1, v);
          q := q1;
          if v == Give {
            found := true;
            return;
          }
          path := path + [q];
          if v == Blocked {
            found := false;
            return;
          }
        }
        if * {
          declined := true;
        }
        if q.sorted == {} || declined {
          found := false;
          return;
        }
        var rq :| rq in q.sorted;
        DispatchInv(q, rq, 0);
        DispatchIsStep(path, rq);
        q := Dispatch(q, rq, 0);
        path := path + [q];
        assert waiting == q.sorted + {rq};
      }
    }

    /** `elv_insert` of a requeued request, with its search through the list. */
    method RequeueRequest(rq: Rq)
      requires Inv(q) && rq in q.driver
      modifies this
      ensures q == Requeue(old(q), rq) && Inv(q)
    {
      hide Ordered, EntriesOk, BarriersOk, ElevatorOk, DriverOk, ProxyOk, Separate, HistoryOk, InFlightSet;
      RequeueInv(q, rq);
      var i := 0;
      if q.ordseq != {} {
        while i < |q.queue| && Rank(ReqSeq(q, rq)) > Rank(ReqSeq(q, q.queue[i].rq))
          invariant 0 <= i <= |q.queue| && q == old(q)
          invariant RequeueIndex(q, rq, 0) == RequeueIndex(q, rq, i)
          decreases |q.queue| - i
        {
          i := i + 1;
        }
      }
      q := q.(driver := q.driver - {rq}, inFlight := q.inFlight - if Accounted(rq) then 1 else 0,
              queue := Insert(q.queue, i, Entry(rq, true)));
    }
  }

  /** A path of protocol steps. */
  ghost predicate IsPath(path: seq<Q>) {
    forall i {:trigger path[i]} :: 0 < i < |path| ==> IsStep(path[i - 1], path[i])
  }

  /** Fetching in `q` shows the driver, or hands it, the head of `q1`. */
  ghost predicate LetsThrough(q: Q, q1: Q) {
    && |q.queue| > 0 && |q1.queue| > 0 && (q.ordseq != {} ==> q.orig.Some? && q.orig.value.Fs?)
    && Fetch(q, true) == HandOver(q1) && Fetch(q, false) == Peeked(q1)
  }

  lemma NoSteps(q: Q)
    ensures IsPath([q])
  {}

  lemma PathOn(path: seq<Q>, a: Action, q1: Q)
    requires |path| > 0 && IsPath(path) && StepBy(path[|path| - 1], q1, a)
    ensures IsPath(path + [q1])
  {
    hide Next, Enabled;
    assert IsStep(path[|path| - 1], q1);
    var p := path + [q1];
    assert forall i {:trigger p[i]} :: 0 <= i < |path| ==> p[i] == path[i];
    forall i {:trigger p[i]} | 0 < i < |p| ensures IsStep(p[i - 1], p[i]) {
      if i < |path| {
        assert p[i - 1] == path[i - 1] && p[i] == path[i];
      }
    }
  }

  lemma OfferIsFetch(path: seq<Q>, q1: Q, v: Verdict)
    requires |path| > 0 && IsPath(path) && Inv(path[|path| - 1]) && |path[|path| - 1].queue| > 0
    requires DoOrdered(path[|path| - 1]) == (q1, v) && (v == Give ==> |q1.queue| > 0)
    ensures v == Give ==> LetsThrough(path[|path| - 1], q1)
    ensures v != Give ==> IsPath(path + [q1])
  {
    hide IsPath, DoOrdered, HandOver, Peeked;
    var q := path[|path| - 1];
    if v != Give {
      assert StepBy(q, q1, DoFetch(false));
      PathOn(path, DoFetch(false), q1);
    }
  }

  lemma DispatchIsStep(path: seq<Q>, rq: Rq)
    requires |path| > 0 && IsPath(path) && Inv(path[|path| - 1]) && path[|path| - 1].queue == []
             && rq in path[|path| - 1].sorted
    ensures IsPath(path + [Dispatch(path[|path| - 1], rq, 0)])
  {
    hide IsPath, Dispatch;
    var q := path[|path| - 1];
    assert StepBy(q, Dispatch(q, rq, 0), DoDispatch(rq, 0));
    PathOn(path, DoDispatch(rq, 0), Dispatch(q, rq, 0));
  }

  /** One offer of the head to the barrier code. */
  lemma OfferHead(q: Q)
    requires Inv(q) && |q.queue| > 0
    ensures var (q1, v) := DoOrdered(q);
            && Inv(q1)
            && q1.driver == q.driver && q1.completed == q.completed && q1.submitted == q.submitted
            && q1.sorted == q.sorted
            && (v == Give ==> |q1.queue| > 0 && HeldOk(q1, q1.queue[0].rq))
            && (v == Blocked ==> Busy(q1))
            && (v == Gone ==> q1.queue == q.queue[1..])
  {
    hide Ordered, EntriesOk, BarriersOk, ElevatorOk, DriverOk, ProxyOk, Separate, HistoryOk, InFlightSet, HeldOk;
    if AtBarrier(q) {
      StartOrderedSettles(q);
      OpenedInv(q);
      OpenedStages(q);
      if DoOrdered(q).1 == Give {
        GivenAfterStart(q);
      }
    } else if DoOrdered(q).1 == Give {
      GivenIsDue(q);
    }
  }
}
