/** How long an expired request can still wait.  For a deadline `e` that has passed, the requests
    with a deadline up to `e` are counted: no step of any run raises the delay of that count, and
    every dispatch call lowers it. */
module DeadlineFairness {
  import opened Common
  import opened RequestLists
  import opened Deadline
  import opened DeadlineInvariant
  import opened DeadlineDelay

  // ----- requests with an early deadline -----

  /** How many of `s` have a deadline up to `e`. */
  function Rank(info: Infos, s: seq<nat>, e: int): nat
    requires Known(info, s)
  {
    if |s| == 0 then 0 else (if info[s[0]].expiry <= e then 1 else 0) + Rank(info, s[1..], e)
  }

  lemma {:induction false} RankSame(info: Infos, other: Infos, s: seq<nat>, e: int)
    requires Known(info, s) && Known(other, s) && SameExpiry(info, other, s)
    ensures Rank(info, s, e) == Rank(other, s, e)
  {
    if |s| > 0 { RankSame(info, other, s[1..], e); }
  }

  lemma {:induction false} RankWithout(info: Infos, s: seq<nat>, id: nat, e: int)
    requires Known(info, s) && Distinct(s) && id in s
    ensures Rank(info, s, e) == Rank(info, Without(s, id), e) + One(info[id].expiry <= e)
  {
    if s[0] == id {
      WithoutAbsent(s[1..], id);
    } else {
      RankWithout(info, s[1..], id, e);
      assert Without(s, id)[1..] == Without(s[1..], id);
    }
  }

  lemma {:induction false} RankAppend(info: Infos, s: seq<nat>, id: nat, e: int)
    requires Known(info, s) && id in info && info[id].expiry > e
    ensures Rank(info, s + [id], e) == Rank(info, s, e)
  {
    if |s| > 0 {
      RankAppend(info, s[1..], id, e);
      assert (s + [id])[1..] == s[1..] + [id];
    }
  }

  lemma {:induction false} RankBehind(info: Infos, s: seq<nat>, id: nat, anchor: nat, e: int)
    requires Known(info, s) && id in info
    ensures Rank(info, InsertBehind(s, id, anchor), e) == Rank(info, s, e) + One(anchor in s && info[id].expiry <= e)
  {
    if |s| > 0 {
      var r := InsertBehind(s, id, anchor);
      if s[0] == anchor {
        assert r[1..] == [id] + s[1..] && r[1..][1..] == s[1..];
      } else {
        RankBehind(info, s[1..], id, anchor, e);
        assert r[1..] == InsertBehind(s[1..], id, anchor);
      }
    }
  }

  /** In a FIFO ordered by deadline the head is early as soon as any request is: a late head means none is. */
  lemma {:induction false} RankHead(info: Infos, s: seq<nat>, e: int)
    requires Known(info, s) && ByExpiry(info, s) && (|s| > 0 ==> info[s[0]].expiry > e)
    ensures Rank(info, s, e) == 0
  {
    if |s| > 1 {
      assert s[1..][0] in s[1..];
      RankHead(info, s[1..], e);
    }
  }

  lemma {:induction false} RankMember(info: Infos, s: seq<nat>, id: nat, e: int)
    requires Known(info, s) && id in s && info[id].expiry <= e
    ensures Rank(info, s, e) > 0
  {
    if s[0] != id { RankMember(info, s[1..], id, e); }
  }

  /** The requests of a direction that wait past the deadline `e`. */
  ghost function Waiting(d: D, dir: Dir, e: int): nat
    requires Ready(d)
  {
    Rank(d.info, d.fifo.Get(dir), e)
  }

  // ----- no step adds to them -----

  lemma MoveWaits(d: D, t: Tunables, out: set<nat>, id: nat, dir: Dir, e: int)
    requires InvBut(d, t, out) && Queued(d, id)
    ensures Ready(d) && Ready(Move(d, id))
    ensures Waiting(d, dir, e) == Waiting(Move(d, id), dir, e) + One(dir == d.info[id].dir && d.info[id].expiry <= e)
  {
    hide Ascending, ByExpiry, Distinct, Rank, Move;
    MoveKeeps(d, t, out, id);
    if dir == d.info[id].dir { RankWithout(d.info, d.fifo.Get(dir), id, e); }
  }

  lemma MakeRoomWaits(d: D, t: Tunables, id: nat, dir: Dir, e: int)
    requires InvBut(d, t, {id}) && id in d.info
    ensures Ready(d) && Ready(MakeRoom(d, id))
    ensures Waiting(MakeRoom(d, id), dir, e) <= Waiting(d, dir, e)
  {
    hide Ascending, ByExpiry, Distinct, Rank, Move, AtPos;
    var alias := AtPos(d.info, d.sort.Get(d.info[id].dir), d.info[id].pos);
    if alias.Some? { MoveWaits(d, t, {id}, alias.value, dir, e); }
  }

  lemma SubmitWaits(d: D, t: Tunables, id: nat, to: Dir, pos: nat, len: nat, dir: Dir, e: int)
    requires Inv(d, t) && id !in d.info && e < d.now
    ensures Ready(d) && Ready(Add(d, t, id, to, pos, len))
    ensures Waiting(Add(d, t, id, to, pos, len), dir, e) <= Waiting(d, dir, e)
  {
    hide Ascending, ByExpiry, Distinct, Rank, Move, MakeRoom;
    SubmitKeeps(d, t, id, to, pos, len);
    ArriveKeeps(d, t, id, to, pos, len);
    var d0 := Arrive(d, t, id, to, pos, len);
    RankSame(d.info, d0.info, d.fifo.Get(dir), e);
    MakeRoomKeeps(d0, t, id);
    MakeRoomWaits(d0, t, id, dir, e);
    RankAppend(d0.info, MakeRoom(d0, id).fifo.Get(dir), id, e);
  }

  lemma FrontWaits(d: D, t: Tunables, id: nat, pos: nat, dir: Dir, e: int)
    requires Inv(d, t) && Queued(d, id)
    ensures Ready(d) && Ready(FrontMerged(d, id, pos))
    ensures Waiting(FrontMerged(d, id, pos), dir, e) <= Waiting(d, dir, e)
  {
    hide Ascending, ByExpiry, Distinct, Rank, Move, MakeRoom;
    FrontKeeps(d, t, id, pos);
    UnlinkKeeps(d, t, id, pos);
    var d0 := Unlink(d, id, pos);
    RankSame(d.info, d0.info, d.fifo.Get(dir), e);
    MakeRoomKeeps(d0, t, id);
    MakeRoomWaits(d0, t, id, dir, e);
  }

  lemma InheritWaits(d: D, t: Tunables, id: nat, other: nat, dir: Dir, e: int)
    requires Inv(d, t) && Enabled(d, Merge(id, other)) && d.info[other].expiry < d.info[id].expiry
    ensures Ready(d) && Ready(Inherit(d, id, other))
    ensures Waiting(Inherit(d, id, other), dir, e) <=
            Waiting(d, dir, e) + One(dir == d.info[id].dir && d.info[other].expiry <= e)
  {
    hide Ascending, ByExpiry, Distinct, Rank, Without, InsertBehind;
    var d1 := Inherit(d, id, other);
    InheritKeeps(d, t, id, other);
    var fifo := d.fifo.Get(dir);
    if dir == d.info[id].dir {
      var rest := Without(fifo, id);
      RankWithout(d.info, fifo, id, e);
      RankSame(d.info, d1.info, rest, e);
      RankBehind(d1.info, rest, id, other, e);
    } else {
      RankSame(d.info, d1.info, fifo, e);
    }
  }

  lemma DropWaits(d: D, t: Tunables, id: nat, dir: Dir, e: int)
    requires Inv(d, t) && Queued(d, id)
    ensures Ready(d) && Ready(Remove(d, id))
    ensures Waiting(d, dir, e) == Waiting(Remove(d, id), dir, e) + One(dir == d.info[id].dir && d.info[id].expiry <= e)
  {
    hide Ascending, ByExpiry, Distinct, Rank, Without, Latter;
    DropKeeps(d, t, id);
    if dir == d.info[id].dir { RankWithout(d.info, d.fifo.Get(dir), id, e); }
  }

  lemma MergeWaits(d: D, t: Tunables, id: nat, other: nat, dir: Dir, e: int)
    requires Inv(d, t) && Enabled(d, Merge(id, other))
    ensures Ready(d) && Ready(MergedRequests(d, id, other))
    ensures Waiting(MergedRequests(d, id, other), dir, e) <= Waiting(d, dir, e)
  {
    hide Ascending, ByExpiry, Distinct, Rank, Remove, Without, InsertBehind;
    InheritKeeps(d, t, id, other);
    DropWaits(Inherit(d, id, other), t, other, dir, e);
    if d.info[other].expiry < d.info[id].expiry { InheritWaits(d, t, id, other, dir, e); }
  }

  // ----- the bound -----

  lemma StepWaits(d: D, t: Tunables, a: Action, dir: Dir, e: int)
    requires Inv(d, t) && Enabled(d, a) && e < d.now && !a.Pull?
    ensures Inv(Next(d, t, a), t) && Waiting(Next(d, t, a), dir, e) <= Waiting(d, dir, e)
  {
    hide Ascending, ByExpiry, Distinct, Rank, Dispatch, Add, FrontMerged, MergedRequests;
    StepKeeps(d, t, a);
    match a
    case Tick(delta) =>
    case Submit(id, to, pos, len) => SubmitWaits(d, t, id, to, pos, len, dir, e);
    case Grow(id, len) => RankSame(d.info, Next(d, t, a).info, d.fifo.Get(dir), e);
    case Front(id, pos) => FrontWaits(d, t, id, pos, dir, e);
    case Merge(id, other) => MergeWaits(d, t, id, other, dir, e);
    case Pull =>
  }

  /** A dispatch call adds to nothing that waits, and a batch opened in the direction takes the head,
      which is one of those that wait. */
  lemma DispatchWaits(d: D, t: Tunables, dir: Dir, e: int)
    requires Inv(d, t) && e < d.now
    ensures Inv(Dispatch(d, t), t) && Waiting(Dispatch(d, t), dir, e) <= Waiting(d, dir, e)
    ensures Waiting(d, dir, e) > 0 ==> |d.fifo.Get(dir)| > 0
    ensures Waiting(d, dir, e) > 0 && !Batching(d, t) && ChooseDir(d, t) == Some(dir) ==>
              Waiting(Dispatch(d, t), dir, e) < Waiting(d, dir, e)
  {
    hide Ascending, Distinct, Rank, Move, ByExpiry;
    DispatchKeeps(d, t);
    ChosenIsQueued(d, t);
    if |d.fifo.Get(dir)| == 0 || d.info[d.fifo.Get(dir)[0]].expiry > e { RankHead(d.info, d.fifo.Get(dir), e); }
    if Chosen(d, t).Some? { MoveWaits(Counted(d, t), t, {}, Chosen(d, t).value, dir, e); }
  }

  lemma PullDelay(d: D, t: Tunables, dir: Dir, e: int)
    requires Inv(d, t) && e < d.now && (dir == Read ==> t.writesStarved > 0)
    ensures Inv(Dispatch(d, t), t) && Dispatch(d, t).now == d.now
    ensures var d' := Dispatch(d, t); var n := Waiting(d, dir, e);
            if n > 0 then Delay(d', t, dir, Waiting(d', dir, e)) < Delay(d, t, dir, n) else Waiting(d', dir, e) == 0
  {
    InvReady(d, t);
    hide Dispatchable, DirOk, Bounded, BatchOk, Gone, Waiting, Dispatch, Delay, Chosen, ChooseDir, Batching;
    DispatchFrame(d, t);
    DispatchWaits(d, t, dir, e);
    if Waiting(d, dir, e) > 0 { DispatchPays(d, t, dir, Waiting(d, dir, e), Waiting(Dispatch(d, t), dir, e)); }
  }

  /** No step of a run makes an expired request wait longer, and a dispatch call shortens the wait. */
  lemma StepDelay(d: D, t: Tunables, a: Action, dir: Dir, e: int)
    requires Inv(d, t) && Enabled(d, a) && e < d.now && (dir == Read ==> t.writesStarved > 0)
    ensures Inv(Next(d, t, a), t) && Next(d, t, a).now >= d.now
    ensures var d' := Next(d, t, a); var n := Waiting(d, dir, e);
            && Delay(d', t, dir, Waiting(d', dir, e)) <= Delay(d, t, dir, n)
            && (a.Pull? && n > 0 ==> Delay(d', t, dir, Waiting(d', dir, e)) < Delay(d, t, dir, n))
  {
    hide InvBut, Ready, Next, Enabled, Waiting, Dispatch, Left, Debt, Period, Mul;
    InvReady(d, t);
    StepKeeps(d, t, a);
    InvReady(Next(d, t, a), t);
    if a.Pull? {
      PullIsDispatch(d, t);
      PullDelay(d, t, dir, e);
    } else {
      StepFrame(d, t, a);
      StepWaits(d, t, a, dir, e);
      FewerWait(d, Next(d, t, a), t, dir, Waiting(d, dir, e), Waiting(Next(d, t, a), dir, e));
    }
  }

  lemma PullIsDispatch(d: D, t: Tunables)
    requires Ready(d)
    ensures Enabled(d, Pull) && Next(d, t, Pull) == Dispatch(d, t)
  {}

  lemma {:induction false} RunDelay(d: D, t: Tunables, acts: seq<Action>, dir: Dir, e: int)
    requires Inv(d, t) && CanRun(d, t, acts) && e < d.now && (dir == Read ==> t.writesStarved > 0)
    ensures Inv(Run(d, t, acts), t)
    ensures var d' := Run(d, t, acts); var n' := Waiting(d', dir, e);
            n' == 0 || Delay(d', t, dir, n') + Pulls(acts) <= Delay(d, t, dir, Waiting(d, dir, e))
    decreases |acts|
  {
    hide Next, Enabled, DirOk, Bounded, BatchOk, Gone, Waiting, Left, Debt, Period;
    if |acts| > 0 {
      StepDelay(d, t, acts[0], dir, e);
      RunDelay(Next(d, t, acts[0]), t, acts[1..], dir, e);
    }
  }

  // ----- following a request -----

  /** The request that holds the data of `w` after `acts`: merging passes it on. */
  function Carrier(acts: seq<Action>, w: nat): nat {
    if |acts| == 0 then w
    else Carrier(acts[1..], if acts[0].Merge? && acts[0].other == w then acts[0].id else w)
  }

  /** `w` has been handed over, or waits with a deadline up to `e`. */
  predicate Cared(d: D, dir: Dir, e: int, w: nat) {
    w in d.dispatched || (w in d.info && w in d.fifo.Get(dir) && d.info[w].expiry <= e)
  }

  lemma MoveCares(d: D, t: Tunables, out: set<nat>, id: nat, dir: Dir, e: int, w: nat)
    requires InvBut(d, t, out) && Queued(d, id) && Cared(d, dir, e, w)
    ensures Cared(Move(d, id), dir, e, w)
  {
    hide Ascending, ByExpiry, Distinct, Move;
    MoveKeeps(d, t, out, id);
  }

  lemma MakeRoomCares(d: D, t: Tunables, id: nat, dir: Dir, e: int, w: nat)
    requires InvBut(d, t, {id}) && id in d.info && Cared(d, dir, e, w)
    ensures Cared(MakeRoom(d, id), dir, e, w)
  {
    hide Ascending, ByExpiry, Distinct, Move, AtPos;
    var alias := AtPos(d.info, d.sort.Get(d.info[id].dir), d.info[id].pos);
    if alias.Some? { MoveCares(d, t, {id}, alias.value, dir, e, w); }
  }

  lemma DispatchCares(d: D, t: Tunables, dir: Dir, e: int, w: nat)
    requires Inv(d, t) && Cared(d, dir, e, w)
    ensures Cared(Dispatch(d, t), dir, e, w)
  {
    ChosenIsQueued(d, t);
    assert Cared(Counted(d, t), dir, e, w);
    hide Move, Counted, Chosen, InvBut, Cared;
    if Chosen(d, t).Some? { MoveCares(Counted(d, t), t, {}, Chosen(d, t).value, dir, e, w); }
  }

  lemma MergeCares(d: D, t: Tunables, id: nat, other: nat, dir: Dir, e: int, w: nat)
    requires Inv(d, t) && Enabled(d, Merge(id, other)) && Cared(d, dir, e, w)
    ensures Cared(MergedRequests(d, id, other), dir, e, if other == w then id else w)
  {
    hide Ascending, ByExpiry, Distinct, Without, Latter, InsertBehind;
    InheritKeeps(d, t, id, other);
  }

  lemma StepCares(d: D, t: Tunables, a: Action, dir: Dir, e: int, w: nat)
    requires Inv(d, t) && Enabled(d, a) && Cared(d, dir, e, w)
    ensures Cared(Next(d, t, a), dir, e, Carrier([a], w))
  {
    hide Ascending, ByExpiry, Distinct, Without, InsertSorted, InsertBehind, MakeRoom, Dispatch, MergedRequests;
    assert [a][1..] == [];
    match a
    case Tick(delta) =>
    case Submit(id, to, pos, len) =>
      ArriveKeeps(d, t, id, to, pos, len);
      MakeRoomCares(Arrive(d, t, id, to, pos, len), t, id, dir, e, w);
    case Grow(id, len) =>
    case Front(id, pos) =>
      UnlinkKeeps(d, t, id, pos);
      MakeRoomCares(Unlink(d, id, pos), t, id, dir, e, w);
    case Merge(id, other) => MergeCares(d, t, id, other, dir, e, w);
    case Pull => DispatchCares(d, t, dir, e, w);
  }

  lemma {:induction false} RunCares(d: D, t: Tunables, acts: seq<Action>, dir: Dir, e: int, w: nat)
    requires Inv(d, t) && CanRun(d, t, acts) && Cared(d, dir, e, w)
    ensures Cared(Run(d, t, acts), dir, e, Carrier(acts, w))
    decreases |acts|
  {
    hide Next, Enabled, InvBut, Cared;
    if |acts| > 0 {
      StepKeeps(d, t, acts[0]);
      StepCares(d, t, acts[0], dir, e, w);
      assert [acts[0]][1..] == [];
      RunCares(Next(d, t, acts[0]), t, acts[1..], dir, e, Carrier([acts[0]], w));
    }
  }

  /** Bounded wait: once the deadline of a queued request has passed, in every run that makes the
      stated number of dispatch calls the request (or the one it was merged into) is handed to the
      driver, whatever is submitted or merged meanwhile. */
  lemma ExpiredIsServed(d: D, t: Tunables, acts: seq<Action>, dir: Dir, w: nat)
    requires Inv(d, t) && CanRun(d, t, acts) && (dir == Read ==> t.writesStarved > 0)
    requires w in d.fifo.Get(dir) && d.info[w].expiry < d.now
    requires Pulls(acts) > Waiting(d, dir, d.info[w].expiry) * Period(t, dir)
    ensures Carrier(acts, w) in Run(d, t, acts).dispatched
  {
    var e := d.info[w].expiry;
    InvReady(d, t);
    hide Period, Next, Enabled, CanRun, Run, Pulls, Carrier, DirOk, Bounded, BatchOk, Gone, Waiting, Delay;
    var d1, c := Run(d, t, acts), Carrier(acts, w);
    RunDelay(d, t, acts, dir, e);
    DelayBound(d, t, dir, Waiting(d, dir, e));
    DelayBound(d1, t, dir, Waiting(d1, dir, e));
    RunCares(d, t, acts, dir, e, w);
    if c !in d1.dispatched { CaredWaits(d1, t, dir, e, c); }
  }

  lemma CaredWaits(d: D, t: Tunables, dir: Dir, e: int, w: nat)
    requires Inv(d, t) && Cared(d, dir, e, w) && w !in d.dispatched
    ensures Waiting(d, dir, e) > 0
  {
    hide Ascending, ByExpiry, Distinct, Rank;
    RankMember(d.info, d.fifo.Get(dir), w, e);
  }

  // ----- when reads may starve -----

  /** A lone expired read, no write queued, nothing to go on with; `id` is unused. */
  ghost predicate Stuck(d: D, id: nat) {
    && (forall x :: x in d.info ==> x < id)
    && d.sort == Both([0], []) && d.fifo == Both([0], []) && d.next == Both(None, None)
    && 0 in d.info && d.info[0].dir == Read && d.info[0].expiry < d.now
    && d.starved == 0 && 0 !in d.dispatched
  }

  /** One write arrives, and the dispatcher is called once. */
  function Overtake(id: nat): seq<Action> { [Submit(id, Write, 0, 8), Pull] }

  lemma TwoSteps(d: D, t: Tunables, a: Action, b: Action)
    requires Ready(d) && Enabled(d, a) && Ready(Next(d, t, a)) && Enabled(Next(d, t, a), b)
    ensures CanRun(d, t, [a, b]) && Run(d, t, [a, b]) == Next(Next(d, t, a), t, b)
  {
    hide Next, Enabled, Ready;
    var d1 := Next(d, t, a);
    var d2 := Next(d1, t, b);
    assert [a, b][0] == a && [a, b][1..] == [b] && [b][0] == b && [b][1..] == [];
    assert CanRun(d2, t, []) && Run(d2, t, []) == d2;
    assert CanRun(d1, t, [b]) && Run(d1, t, [b]) == Run(d2, t, []);
  }

  /** The write is preferred to the read, which stays where it is. */
  lemma StuckStep(d: D, t: Tunables, id: nat)
    requires Stuck(d, id) && t.writesStarved == 0
    ensures CanRun(d, t, Overtake(id)) && Stuck(Run(d, t, Overtake(id)), id + 1)
  {
    var d1 := Next(d, t, Submit(id, Write, 0, 8));
    assert d.fifo.write + [id] == [id];
    assert d1.sort == Both([0], [id]) && d1.fifo == Both([0], [id]) && d1.next == Both(None, None);
    assert Latter([id], id) == None && Without([id], id) == [];
    var d2 := Dispatch(d1, t);
    assert d2.sort == Both([0], []) && d2.fifo == Both([0], []);
    TwoSteps(d, t, Submit(id, Write, 0, 8), Pull);
  }

  lemma {:induction false} RunConcat(d: D, t: Tunables, a: seq<Action>, b: seq<Action>)
    requires CanRun(d, t, a) && CanRun(Run(d, t, a), t, b)
    ensures CanRun(d, t, a + b) && Run(d, t, a + b) == Run(Run(d, t, a), t, b)
    ensures Pulls(a + b) == Pulls(a) + Pulls(b)
    decreases |a|
  {
    hide Next, Enabled, Ready;
    if |a| == 0 {
      assert a + b == b;
    } else {
      assert (a + b)[0] == a[0] && (a + b)[1..] == a[1..] + b;
      RunConcat(Next(d, t, a[0]), t, a[1..], b);
    }
  }

  /** Without `writes_starved` a steady stream of writes holds an expired read back for as many
      dispatch calls as one likes. */
  lemma {:induction false} StuckFor(d: D, t: Tunables, id: nat, n: nat) returns (acts: seq<Action>)
    requires Stuck(d, id) && t.writesStarved == 0
    ensures CanRun(d, t, acts) && Pulls(acts) == n && Carrier(acts, 0) == 0
    ensures Stuck(Run(d, t, acts), id + n)
    decreases n
  {
    hide Next, Enabled, Ready, Stuck, Run, CanRun;
    if n == 0 {
      acts := [];
      assert CanRun(d, t, acts) && Run(d, t, acts) == d by { EmptyRun(d, t); }
    } else {
      StuckStep(d, t, id);
      var rest := StuckFor(Run(d, t, Overtake(id)), t, id + 1, n - 1);
      RunConcat(d, t, Overtake(id), rest);
      acts := Overtake(id) + rest;
      assert acts[1..] == [Pull] + rest && acts[1..][1..] == rest;
      assert Overtake(id)[1..] == [Pull] && [Pull][1..] == [];
    }
  }

  lemma EmptyRun(d: D, t: Tunables)
    ensures CanRun(d, t, []) && Run(d, t, []) == d
  {}

  /** A queue on which one read has just run out of time. */
  function Late(t: Tunables): D {
    D(map[0 := Info(Read, 8, 8, t.expire.read)], Both([0], []), Both([0], []), Both(None, None),
      0, 0, 0, [], 1, t.expire.read + 1)
  }

  lemma LateIsReached(t: Tunables)
    ensures CanRun(Init(0), t, [Submit(0, Read, 8, 8), Tick(t.expire.read + 1)])
    ensures Run(Init(0), t, [Submit(0, Read, 8, 8), Tick(t.expire.read + 1)]) == Late(t)
    ensures Inv(Late(t), t)
  {
    var d1 := Next(Init(0), t, Submit(0, Read, 8, 8));
    assert [] + [0] == [0];
    assert d1.sort == Both([0], []) && d1.fifo == Both([0], []);
    assert d1.(now := t.expire.read + 1) == Late(t);
    TwoSteps(Init(0), t, Submit(0, Read, 8, 8), Tick(t.expire.read + 1));
    InitInv(t, 0);
    StepKeeps(Init(0), t, Submit(0, Read, 8, 8));
    StepKeeps(d1, t, Tick(t.expire.read + 1));
  }

  /** A queue some run from an empty one leads to. */
  ghost predicate Reached(d: D, t: Tunables) { exists now: int, acts: seq<Action> :: ReachedBy(d, t, now, acts) }

  ghost predicate ReachedBy(d: D, t: Tunables, now: int, acts: seq<Action>) {
    CanRun(Init(now), t, acts) && d == Run(Init(now), t, acts)
  }

  /** Read `w` is queued in a reachable state and its time has run out. */
  ghost predicate LateRead(d: D, t: Tunables, w: nat) {
    Reached(d, t) && w in d.fifo.read && w in d.info && d.info[w].expiry < d.now
  }

  /** Every run from `d` with `n` dispatch calls hands over `w`, or what it was merged into. */
  ghost predicate ServedBy(d: D, t: Tunables, w: nat, n: nat) {
    forall acts :: CanRun(d, t, acts) && Pulls(acts) >= n ==> Carrier(acts, w) in Run(d, t, acts).dispatched
  }

  ghost predicate Served(d: D, t: Tunables, w: nat) { exists n: nat :: ServedBy(d, t, w, n) }

  lemma LateReadServed(d: D, t: Tunables, w: nat)
    requires LateRead(d, t, w) && t.writesStarved > 0
    ensures Served(d, t, w)
  {
    hide Next, Enabled, CanRun, Run, Pulls, Carrier, InvBut, Waiting, Period;
    var now: int, before: seq<Action> :| ReachedBy(d, t, now, before);
    InitInv(t, now);
    RunInv(Init(now), t, before);
    InvReady(d, t);
    var n := Waiting(d, Read, d.info[w].expiry) * Period(t, Read) + 1;
    forall acts | CanRun(d, t, acts) && Pulls(acts) >= n ensures Carrier(acts, w) in Run(d, t, acts).dispatched {
      ExpiredIsServed(d, t, acts, Read, w);
    }
    assert ServedBy(d, t, w, n);
  }

  lemma LateNotServed(t: Tunables)
    requires t.writesStarved == 0
    ensures LateRead(Late(t), t, 0) && !Served(Late(t), t, 0)
  {
    var before := [Submit(0, Read, 8, 8), Tick(t.expire.read + 1)];
    LateIsReached(t);
    assert ReachedBy(Late(t), t, 0, before);
    forall n: nat ensures !ServedBy(Late(t), t, 0, n) {
      var acts := StuckFor(Late(t), t, 1, n);
    }
  }

  /** Every expired read of every reachable state is served within some number of dispatch calls,
      exactly when `writes_starved` is not zero. */
  lemma ReadsServedIff(t: Tunables)
    ensures (forall d: D, w: nat :: LateRead(d, t, w) ==> Served(d, t, w)) <==> t.writesStarved > 0
  {
    hide LateRead, Served;
    if t.writesStarved > 0 {
      forall d: D, w: nat | LateRead(d, t, w) ensures Served(d, t, w) {
        LateReadServed(d, t, w);
      }
    } else {
      LateNotServed(t);
    }
  }
}
