/** The arithmetic of waiting in the deadline scheduler.  When `n` requests of a direction must be
    dispatched and every batch opened in that direction takes one of them, `Delay` bounds the
    dispatch calls needed. */
module DeadlineDelay {
  import opened Common
  import opened RequestLists
  import opened Deadline
  import opened DeadlineInvariant

  /** The dispatches a new batch is entitled to. */
  function BatchLength(t: Tunables): nat { if t.fifoBatch > 0 then t.fifoBatch else 1 }

  /** What is left of the running batch. */
  function Left(d: D, t: Tunables): nat { if d.batching < t.fifoBatch then t.fifoBatch - d.batching else 0 }

  function Mul(n: nat, m: nat): nat { n * m }

  /** Dispatches between two batches of the same direction that both open with an expired head. */
  function Period(t: Tunables, dir: Dir): nat {
    if dir == Write then Mul(t.writesStarved + 1, BatchLength(t)) else 2 * BatchLength(t)
  }

  /** Dispatches that batches of the other direction may still take first. */
  function Debt(d: D, t: Tunables, dir: Dir): nat
    requires d.starved <= t.writesStarved
  {
    if dir == Write then Mul(t.writesStarved - d.starved, BatchLength(t))
    else if d.starved >= t.writesStarved then BatchLength(t) else 0
  }

  function Delay(d: D, t: Tunables, dir: Dir, n: nat): nat
    requires d.starved <= t.writesStarved
  {
    if n == 0 then 0 else Left(d, t) + 1 + Debt(d, t, dir) + Mul(n - 1, Period(t, dir))
  }

  lemma DebtFits(d: D, t: Tunables, dir: Dir)
    requires d.starved <= t.writesStarved
    ensures BatchLength(t) + Debt(d, t, dir) <= Period(t, dir)
  {
    if dir == Write {
      var f, w := BatchLength(t), t.writesStarved;
      assert (w + 1) * f == (w - d.starved) * f + f + d.starved * f;
    }
  }

  lemma DelayBound(d: D, t: Tunables, dir: Dir, n: nat)
    requires d.starved <= t.writesStarved
    ensures Delay(d, t, dir, n) <= 1 + n * Period(t, dir)
    ensures n > 0 ==> Delay(d, t, dir, n) > 0
  {
    hide Period, Debt;
    if n > 0 {
      DebtFits(d, t, dir);
      assert n * Period(t, dir) == (n - 1) * Period(t, dir) + Period(t, dir);
    }
  }

  lemma Times(n: nat, m: nat, p: nat)
    requires n <= m
    ensures n * p <= m * p
  {}

  /** Fewer waiting requests and otherwise the same state: no longer delay. */
  lemma FewerWait(d: D, d': D, t: Tunables, dir: Dir, n: nat, n': nat)
    requires d'.starved == d.starved <= t.writesStarved && d'.batching >= d.batching && n' <= n
    ensures Delay(d', t, dir, n') <= Delay(d, t, dir, n)
    ensures n > 0 && Left(d', t) < Left(d, t) ==> Delay(d', t, dir, n') < Delay(d, t, dir, n)
  {
    hide Period, BatchLength;
    if n' > 0 { Times(n' - 1, n - 1, Period(t, dir)); }
  }

  /** A batch opened in the waiting direction dispatches one of those that wait. */
  lemma OpenedHere(d: D, d': D, t: Tunables, dir: Dir, n: nat, n': nat)
    requires d.starved <= t.writesStarved && d'.starved <= t.writesStarved && d'.batching == 1 && n' < n
    ensures Delay(d', t, dir, n') < Delay(d, t, dir, n)
  {
    hide Period, Debt;
    DebtFits(d', t, dir);
    if n' > 0 {
      Times(n', n - 1, Period(t, dir));
      assert n' * Period(t, dir) == (n' - 1) * Period(t, dir) + Period(t, dir);
    }
  }

  /** A batch opened in the other direction pays off part of the debt. */
  lemma OpenedThere(d: D, d': D, t: Tunables, dir: Dir, n: nat, n': nat)
    requires d.starved <= t.writesStarved && d'.batching == 1 && 0 < n && n' <= n
    requires dir == Write ==> d.starved < t.writesStarved && d'.starved == d.starved + 1
    requires dir == Read ==> d.starved == t.writesStarved > 0 && d'.starved == 0
    ensures Delay(d', t, dir, n') < Delay(d, t, dir, n)
  {
    hide Period;
    if n' > 0 { Times(n' - 1, n - 1, Period(t, dir)); }
    if dir == Write {
      var f, w := BatchLength(t), t.writesStarved;
      assert (w - d.starved) * f == (w - d.starved - 1) * f + f;
    }
  }

  /** Every dispatch call lowers the delay of a direction that waits, if the batches opened in that
      direction dispatch what waits. */
  lemma DispatchPays(d: D, t: Tunables, dir: Dir, n: nat, n': nat)
    requires Inv(d, t) && (dir == Read ==> t.writesStarved > 0) && |d.fifo.Get(dir)| > 0
    requires n' <= n && 0 < n
    requires !Batching(d, t) && ChooseDir(d, t) == Some(dir) ==> n' < n
    ensures Dispatch(d, t).starved <= t.writesStarved
    ensures Delay(Dispatch(d, t), t, dir, n') < Delay(d, t, dir, n)
  {
    hide InvBut, Dispatch, Delay, Chosen;
    InvReady(d, t);
    CountersMoved(d, t);
    DispatchKeeps(d, t);
    InvReady(Dispatch(d, t), t);
    var d' := Dispatch(d, t);
    if Batching(d, t) {
      FewerWait(d, d', t, dir, n, n');
    } else if ChooseDir(d, t) == Some(dir) {
      OpenedHere(d, d', t, dir, n, n');
    } else {
      OpenedThere(d, d', t, dir, n, n');
    }
  }

  lemma CountersMoved(d: D, t: Tunables)
    requires Inv(d, t)
    ensures Dispatch(d, t).batching == Counted(d, t).batching && Dispatch(d, t).starved == Counted(d, t).starved
  {
    InvReady(d, t);
    hide InvBut, Without, Latter, Opening, Starved;
  }

  /** Only a dispatch call touches the batch and starvation counters. */
  lemma StepFrame(d: D, t: Tunables, a: Action)
    requires Inv(d, t) && Enabled(d, a) && !a.Pull?
    ensures var d' := Next(d, t, a); d'.batching == d.batching && d'.starved == d.starved && d'.now >= d.now
  {
    hide Ascending, ByExpiry, Distinct, Without, Latter, AtPos, InsertSorted, InsertBehind;
  }

  lemma DispatchFrame(d: D, t: Tunables)
    requires Inv(d, t)
    ensures Dispatch(d, t).now == d.now && Dispatch(d, t).info == d.info
  {
    hide Ascending, ByExpiry, Distinct, Without, Latter;
  }

  // ----- runs -----

  ghost predicate CanRun(d: D, t: Tunables, acts: seq<Action>)
    decreases |acts|
  {
    |acts| == 0 || (Ready(d) && Enabled(d, acts[0]) && CanRun(Next(d, t, acts[0]), t, acts[1..]))
  }

  ghost function Run(d: D, t: Tunables, acts: seq<Action>): D
    requires CanRun(d, t, acts)
    decreases |acts|
  {
    if |acts| == 0 then d else Run(Next(d, t, acts[0]), t, acts[1..])
  }

  function One(b: bool): nat { if b then 1 else 0 }

  function Pulls(acts: seq<Action>): nat {
    if |acts| == 0 then 0 else One(acts[0].Pull?) + Pulls(acts[1..])
  }

  lemma {:induction false} RunInv(d: D, t: Tunables, acts: seq<Action>)
    requires Inv(d, t) && CanRun(d, t, acts)
    ensures Inv(Run(d, t, acts), t)
    decreases |acts|
  {
    hide InvBut, Next, Enabled;
    if |acts| > 0 {
      StepKeeps(d, t, acts[0]);
      RunInv(Next(d, t, acts[0]), t, acts[1..]);
    }
  }
}
