/** The one-way sweep of the deadline scheduler: a batch takes requests of one direction in ascending
    order of sectors, without leaving any out, until its length is reached or none is higher; where
    the next one begins. */
module DeadlineBatch {
  import opened Common
  import opened RequestLists
  import opened Deadline
  import opened DeadlineInvariant

  // ----- lists without repetition -----

  /** The first of a list, if there is one. */
  function Head(s: seq<nat>): Option<nat> { if |s| > 0 then Some(s[0]) else None }

  lemma {:induction false} LeaveOut(lower: seq<nat>, x: nat, upper: seq<nat>)
    requires Distinct(lower + [x] + upper)
    ensures Without(lower + [x] + upper, x) == lower + upper
    ensures Latter(lower + [x] + upper, x) == Head(upper)
    ensures x !in upper
  {
    var s := lower + [x] + upper;
    if |lower| == 0 {
      assert s[1..] == upper;
      WithoutAbsent(upper, x);
      assert lower + upper == upper;
    } else {
      assert s[1..] == lower[1..] + [x] + upper && s[0] == lower[0] && x in s[1..];
      LeaveOut(lower[1..], x, upper);
      assert [lower[0]] + (lower[1..] + upper) == lower + upper;
    }
  }

  // ----- one dispatch -----

  /** Dispatching a request leaves the batch at the request that followed it. */
  lemma MoveOn(d: D, t: Tunables, x: nat, lower: seq<nat>, upper: seq<nat>)
    requires Inv(d, t) && Queued(d, x) && d.sort.Get(d.info[x].dir) == lower + [x] + upper
    ensures var dir, d' := d.info[x].dir, Move(d, x);
            && d'.sort == d.sort.Set(dir, lower + upper)
            && d'.next == Both(None, None).Set(dir, Head(upper))
            && d'.dispatched == d.dispatched + [x] && d'.info == d.info && d'.now == d.now
            && d'.batching == d.batching && d'.starved == d.starved
            && d'.lastSector == d.info[x].pos + d.info[x].len
  {
    var dir := d.info[x].dir;
    assert Distinct(d.sort.Get(dir)) by { AscendingDistinct(d.info, d.sort.Get(dir)); }
    hide InvBut, Without, Latter, Distinct;
    LeaveOut(lower, x, upper);
    assert Head(upper) != Some(x);
  }

  /** Taking a request away for good, when it has been merged into another, moves a batch that was to
      go on with it to the request that followed. */
  lemma RemoveOn(d: D, t: Tunables, x: nat, lower: seq<nat>, upper: seq<nat>)
    requires Inv(d, t) && Queued(d, x) && d.sort.Get(d.info[x].dir) == lower + [x] + upper
    ensures var dir, d' := d.info[x].dir, Remove(d, x);
            && d'.sort == d.sort.Set(dir, lower + upper)
            && d'.next == if d.next.Get(dir) == Some(x) then d.next.Set(dir, Head(upper)) else d.next
  {
    var dir := d.info[x].dir;
    assert Distinct(d.sort.Get(dir)) by { AscendingDistinct(d.info, d.sort.Get(dir)); }
    hide InvBut, Without, Latter, Distinct;
    LeaveOut(lower, x, upper);
  }

  // ----- a whole batch -----

  /** What is left after `n` dispatch calls in a row. */
  ghost function Pulled(d: D, t: Tunables, n: nat): (r: D)
    requires Inv(d, t)
    ensures Inv(r, t)
  {
    if n == 0 then d
    else
      var e := Pulled(d, t, n - 1);
      DispatchKeeps(e, t);
      InvReady(e, t);
      Dispatch(e, t)
  }

  /** The state of a batch that has dispatched `n` requests, last the one between `lower` and `upper`. */
  ghost predicate Swept(d: D, dir: Dir, lower: seq<nat>, upper: seq<nat>, n: nat) {
    && d.sort.Get(dir) == lower + upper && d.batching == n
    && d.next == Both(None, None).Set(dir, Head(upper))
  }

  lemma SortedInDir(d: D, t: Tunables, dir: Dir, x: nat)
    requires Inv(d, t) && x in d.sort.Get(dir)
    ensures x in d.info && d.info[x].dir == dir
  {
    hide Ascending, ByExpiry, Distinct;
  }

  /** The request that opens a batch. */
  lemma OpensSweep(d: D, t: Tunables, x: nat, lower: seq<nat>, upper: seq<nat>)
    requires Inv(d, t) && Ready(d) && !Batching(d, t) && Chosen(d, t) == Some(x)
    requires d.sort.Get(d.info[x].dir) == lower + [x] + upper
    ensures var d' := Dispatch(d, t);
            Swept(d', d.info[x].dir, lower, upper, 1) && d'.dispatched == d.dispatched + [x] && d'.info == d.info
  {
    hide InvBut, Move;
    ChosenIsQueued(d, t);
    MoveOn(Counted(d, t), t, x, lower, upper);
  }

  /** As long as there is a higher request and the length is not reached, the lowest such is next. */
  lemma SweepsOn(d: D, t: Tunables, dir: Dir, lower: seq<nat>, upper: seq<nat>, n: nat)
    requires Inv(d, t) && Ready(d) && Swept(d, dir, lower, upper, n) && |upper| > 0 && n < t.fifoBatch
    ensures Chosen(d, t) == Some(upper[0])
    ensures var d' := Dispatch(d, t);
            Swept(d', dir, lower, upper[1..], n + 1) && d'.dispatched == d.dispatched + [upper[0]] && d'.info == d.info
  {
    hide InvBut, Move;
    assert d.sort.Get(dir)[|lower|] == upper[0];
    SortedInDir(d, t, dir, upper[0]);
    ChosenIsQueued(d, t);
    assert lower + [upper[0]] + upper[1..] == lower + upper;
    MoveOn(Counted(d, t), t, upper[0], lower, upper[1..]);
  }

  /** A batch that opens with `x` dispatches `x` and then, in ascending order and without leaving any
      out, the requests of its direction above `x`, and goes on until it has dispatched `fifo_batch`
      or none is left above. */
  lemma {:induction false} Sweep(d: D, t: Tunables, x: nat, lower: seq<nat>, upper: seq<nat>, m: nat)
    requires Inv(d, t) && Ready(d) && !Batching(d, t) && Chosen(d, t) == Some(x)
    requires d.sort.Get(d.info[x].dir) == lower + [x] + upper && m <= |upper| && (m == 0 || m < t.fifoBatch)
    ensures var e := Pulled(d, t, m + 1);
            && e.dispatched == d.dispatched + [x] + upper[..m] && e.info == d.info
            && Swept(e, d.info[x].dir, lower, upper[m..], m + 1)
            && (Batching(e, t) <==> m < |upper| && m + 1 < t.fifoBatch)
  {
    hide Inv, Dispatch, Chosen, Swept;
    var dir := d.info[x].dir;
    if m == 0 {
      assert Pulled(d, t, 0) == d && upper[0..] == upper && upper[..0] == [];
      OpensSweep(d, t, x, lower, upper);
      assert d.dispatched + [x] + [] == d.dispatched + [x];
    } else {
      var e := Pulled(d, t, m);
      Sweep(d, t, x, lower, upper, m - 1);
      InvReady(e, t);
      SweepsOn(e, t, dir, lower, upper[m - 1..], m);
      assert upper[m - 1..][0] == upper[m - 1] && upper[m - 1..][1..] == upper[m..];
      assert upper[..m] == upper[..m - 1] + [upper[m - 1]];
      assert (d.dispatched + [x] + upper[..m - 1]) + [upper[m - 1]] == d.dispatched + [x] + upper[..m];
    }
    SweptGoesOn(Pulled(d, t, m + 1), t, dir, lower, upper[m..], m + 1);
  }

  lemma SweptGoesOn(d: D, t: Tunables, dir: Dir, lower: seq<nat>, upper: seq<nat>, n: nat)
    requires Swept(d, dir, lower, upper, n)
    ensures Batching(d, t) <==> |upper| > 0 && n < t.fifoBatch
  {}

  // ----- what a dispatch call takes next -----

  /** The queued request of a direction with the lowest sector above `pos`. */
  ghost predicate NextUp(d: D, dir: Dir, pos: nat, y: nat)
    requires Ready(d)
  {
    && y in d.sort.Get(dir) && pos < d.info[y].pos
    && forall z :: z in d.sort.Get(dir) && pos < d.info[z].pos ==> d.info[y].pos <= d.info[z].pos
  }

  /** Some request of the direction is past its deadline. */
  ghost predicate AnyLate(d: D, dir: Dir)
    requires Ready(d)
  {
    exists z :: z in d.fifo.Get(dir) && d.now > d.info[z].expiry
  }

  /** The request of a direction with the earliest deadline. */
  ghost predicate Earliest(d: D, dir: Dir, y: nat)
    requires Ready(d)
  {
    y in d.fifo.Get(dir) && forall z :: z in d.fifo.Get(dir) ==> d.info[y].expiry <= d.info[z].expiry
  }

  lemma FifoHead(d: D, t: Tunables, dir: Dir)
    requires Inv(d, t) && Ready(d) && |d.fifo.Get(dir)| > 0
    ensures Earliest(d, dir, d.fifo.Get(dir)[0])
    ensures AnyLate(d, dir) <==> d.now > d.info[d.fifo.Get(dir)[0]].expiry
  {
    hide Ascending, Distinct;
    assert d.fifo.Get(dir)[0] in d.fifo.Get(dir);
  }

  /** `next` tells where the sweep stands: at the lowest request above `pos`, if there is one. */
  ghost predicate Stands(d: D, dir: Dir, pos: nat)
    requires Ready(d)
  {
    var next := d.next.Get(dir);
    && d.next == Both(None, None).Set(dir, next)
    && (next.Some? ==> NextUp(d, dir, pos, next.value))
    && (next.None? ==> forall y: nat :: !NextUp(d, dir, pos, y))
  }

  lemma InvAscending(d: D, t: Tunables, dir: Dir)
    requires Inv(d, t)
    ensures Known(d.info, d.sort.Get(dir)) && Ascending(d.info, d.sort.Get(dir))
  {}

  lemma OnlyOneUp(d: D, t: Tunables, dir: Dir, pos: nat, y: nat)
    requires Inv(d, t) && Ready(d) && Stands(d, dir, pos) && NextUp(d, dir, pos, y)
    ensures d.next.Get(dir) == Some(y)
  {
    hide InvBut, Ascending;
    InvAscending(d, t, dir);
    AscendingInjective(d.info, d.sort.Get(dir), d.next.Get(dir).value, y);
  }

  lemma StandsAt(d: D, t: Tunables, x: nat)
    requires Inv(d, t) && Ready(d) && Chosen(d, t) == Some(x)
    ensures var d' := Dispatch(d, t);
            && Inv(d', t) && Ready(d') && d'.info == d.info && d'.now == d.now
            && Stands(d', d.info[x].dir, d.info[x].pos)
            && d'.batching == if Batching(d, t) then d.batching + 1 else 1
  {
    hide InvBut, Move, Chosen, Stands, Known;
    var d', dir := Dispatch(d, t), d.info[x].dir;
    ChosenIsQueued(d, t);
    DispatchKeeps(d, t);
    InvReady(d', t);
    var s := d.sort.Get(dir);
    var k :| 0 <= k < |s| && s[k] == x;
    assert s == s[..k] + [x] + s[k + 1..];
    MoveOn(Counted(d, t), t, x, s[..k], s[k + 1..]);
    Standing(d, d', t, dir, k);
  }

  lemma Standing(d: D, d': D, t: Tunables, dir: Dir, k: nat)
    requires Inv(d, t) && Ready(d) && Ready(d') && k < |d.sort.Get(dir)| && d'.info == d.info
    requires d'.sort.Get(dir) == d.sort.Get(dir)[..k] + d.sort.Get(dir)[k + 1..]
    requires d'.next == Both(None, None).Set(dir, Head(d.sort.Get(dir)[k + 1..]))
    ensures Stands(d', dir, d.info[d.sort.Get(dir)[k]].pos)
  {
    hide InvBut, Ascending;
    var s, s' := d.sort.Get(dir), d'.sort.Get(dir);
    InvAscending(d, t, dir);
    var pos := d.info[s[k]].pos;
    forall y: nat | y in s' && pos < d.info[y].pos
      ensures k + 1 < |s| && d.info[s[k + 1]].pos <= d.info[y].pos
    {
      Higher(d.info, s, k, y);
    }
    if k + 1 < |s| {
      AscendingAt(d.info, s, k, k + 1);
      assert s'[k] == s[k + 1];
    }
  }

  lemma Higher(info: Infos, s: seq<nat>, k: nat, y: nat)
    requires Known(info, s) && Ascending(info, s) && k < |s| && y in s && info[s[k]].pos < info[y].pos
    ensures k + 1 < |s| && info[s[k + 1]].pos <= info[y].pos
  {
    hide Ascending;
    var i :| 0 <= i < |s| && s[i] == y;
    if i < k {
      AscendingAt(info, s, i, k);
    }
    if k + 1 < i {
      AscendingAt(info, s, k + 1, i);
    }
  }

  /** How a new batch begins after one in `dir` that stands at `pos`. */
  ghost predicate TakenAnew(d: D, t: Tunables, dir: Dir, pos: nat)
    requires Ready(d)
  {
    match ChooseDir(d, t)
    case None => Chosen(d, t) == None
    case Some(to) =>
      && Chosen(d, t).Some?
      && if to == dir && !AnyLate(d, dir) && exists y: nat :: NextUp(d, dir, pos, y)
         then NextUp(d, dir, pos, Chosen(d, t).value)
         else Earliest(d, to, Chosen(d, t).value)
  }

  lemma BeginsAnew(d: D, t: Tunables, dir: Dir, pos: nat)
    requires Inv(d, t) && Ready(d) && Stands(d, dir, pos) && !Batching(d, t)
    ensures TakenAnew(d, t, dir, pos)
  {
    hide InvBut, NextUp, AnyLate, Earliest, Known;
    if ChooseDir(d, t).Some? {
      FifoHead(d, t, ChooseDir(d, t).value);
    }
  }

  /** What the next call takes, when `x` has just been dispatched and nothing has come in between.
      While the batch lasts it is the request above `x`.  When it has run out, it is still that request
      if the direction stays and nothing in it is late; otherwise it is the one with the earliest
      deadline. */
  lemma NextIsTaken(d: D, t: Tunables, x: nat)
    requires Inv(d, t) && Ready(d) && Chosen(d, t) == Some(x)
    ensures var d', dir, pos := Dispatch(d, t), d.info[x].dir, d.info[x].pos;
            && Ready(d')
            && (d'.batching < t.fifoBatch ==> forall y: nat :: NextUp(d', dir, pos, y) ==> Chosen(d', t) == Some(y))
            && (d'.batching >= t.fifoBatch || (forall y: nat :: !NextUp(d', dir, pos, y)) ==>
                  TakenAnew(d', t, dir, pos))
  {
    var d', dir, pos := Dispatch(d, t), d.info[x].dir, d.info[x].pos;
    hide InvBut, Dispatch, NextUp, AnyLate, Earliest, Known, TakenAnew;
    StandsAt(d, t, x);
    forall y: nat | NextUp(d', dir, pos, y) ensures d'.next.Get(dir) == Some(y) {
      OnlyOneUp(d', t, dir, pos, y);
    }
    if !Batching(d', t) {
      BeginsAnew(d', t, dir, pos);
    }
  }
}
