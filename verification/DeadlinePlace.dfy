/** The wait of an expired request by its place in the FIFO: every dispatch call brings the head of
    the FIFO closer, and nothing that arrives or merges pushes a request back. */
module DeadlinePlace {
  import opened Common
  import opened RequestLists
  import opened Deadline
  import opened DeadlineInvariant
  import opened DeadlineDelay
  import opened DeadlineFairness

  // ----- places in a list -----

  /** One more than the index of `w`; zero when it is not listed. */
  function Place(s: seq<nat>, w: nat): (n: nat)
    ensures n > 0 <==> w in s
    ensures n <= |s| && (n > 0 ==> s[n - 1] == w)
  {
    if |s| == 0 then 0
    else if s[0] == w then 1
    else var n := Place(s[1..], w); if n == 0 then 0 else n + 1
  }

  lemma {:induction false} PlaceOfIndex(s: seq<nat>, k: nat)
    requires k < |s| && Distinct(s)
    ensures Place(s, s[k]) == k + 1
  {
    if k > 0 {
      assert s[k] == s[1..][k - 1];
      PlaceOfIndex(s[1..], k - 1);
    }
  }

  lemma {:induction false} PlaceWithout(s: seq<nat>, id: nat, w: nat)
    requires Distinct(s)
    ensures Place(Without(s, id), w) <= Place(s, w)
    ensures |s| > 0 && s[0] == id && w in s ==> Place(Without(s, id), w) < Place(s, w)
  {
    if |s| > 0 {
      var x, rest := s[0], s[1..];
      assert s == [x] + rest && x !in rest && Distinct(rest);
      hide Place, Without, Distinct;
      PlaceWithout(rest, id, w);
      WithoutCons(x, rest, id);
      PlaceCons(x, rest, w);
      PlaceCons(x, Without(rest, id), w);
      if x == id {
        WithoutAbsent(rest, id);
      }
    }
  }

  lemma {:induction false} PlaceAppend(s: seq<nat>, id: nat, w: nat)
    requires id != w
    ensures Place(s + [id], w) == Place(s, w)
  {
    if |s| > 0 {
      assert (s + [id])[1..] == s[1..] + [id];
      PlaceAppend(s[1..], id, w);
    }
  }

  lemma PlaceCons(x: nat, s: seq<nat>, w: nat)
    ensures Place([x] + s, w) == if x == w then 1 else if Place(s, w) == 0 then 0 else Place(s, w) + 1
  {
    assert ([x] + s)[1..] == s;
  }

  /** `id` in the place of `other`. */
  function TakenOver(s: seq<nat>, id: nat, other: nat): seq<nat> { Without(InsertBehind(s, id, other), other) }

  lemma TakenOverStep(s: seq<nat>, id: nat, other: nat)
    requires |s| > 0 && Distinct(s) && id != other
    ensures TakenOver(s, id, other) == if s[0] == other then [id] + s[1..] else [s[0]] + TakenOver(s[1..], id, other)
  {
    var rest := s[1..];
    if s[0] == other {
      assert InsertBehind(s, id, other) == [other] + ([id] + rest);
      hide InsertBehind, Without;
      WithoutCons(other, [id] + rest, other);
      WithoutCons(id, rest, other);
      WithoutAbsent(rest, other);
    } else {
      assert InsertBehind(s, id, other) == [s[0]] + InsertBehind(rest, id, other);
      hide InsertBehind, Without;
      WithoutCons(s[0], InsertBehind(rest, id, other), other);
    }
  }

  lemma WithoutCons(x: nat, s: seq<nat>, id: nat)
    ensures Without([x] + s, id) == if x == id then Without(s, id) else [x] + Without(s, id)
  {
    assert ([x] + s)[1..] == s;
  }

  /** Taking over the place of `other`: everything else stays where it was. */
  lemma {:induction false} PlaceTakenOver(s: seq<nat>, id: nat, other: nat, w: nat)
    requires Distinct(s) && id !in s && w != other && id != other
    ensures Place(TakenOver(s, id, other), w) == Place(s, if w == id then other else w)
  {
    if |s| > 0 {
      TakenOverStep(s, id, other);
      if s[0] == other {
        PlaceCons(id, s[1..], w);
      } else {
        PlaceTakenOver(s[1..], id, other, w);
        PlaceCons(s[0], TakenOver(s[1..], id, other), w);
      }
    }
  }

  /** In deadline order the earlier request comes first. */
  lemma {:induction false} PlaceByExpiry(info: Infos, s: seq<nat>, id: nat, other: nat)
    requires Known(info, s) && ByExpiry(info, s) && id in s && other in s && info[other].expiry < info[id].expiry
    ensures Place(s, other) < Place(s, id)
  {
    if s[0] != other && s[0] != id { PlaceByExpiry(info, s[1..], id, other); }
  }

  /** The place of `w` in the FIFO of its direction. */
  ghost function At(d: D, dir: Dir, w: nat): nat { Place(d.fifo.Get(dir), w) }

  // ----- no step pushes a request back -----

  lemma MovePlace(d: D, t: Tunables, out: set<nat>, id: nat, dir: Dir, w: nat)
    requires InvBut(d, t, out) && Queued(d, id)
    ensures At(Move(d, id), dir, w) <= At(d, dir, w)
    ensures At(d, dir, w) > 0 && d.fifo.Get(dir)[0] == id ==> At(Move(d, id), dir, w) < At(d, dir, w)
  {
    hide Ascending, ByExpiry, Distinct, Move, Place;
    MoveKeeps(d, t, out, id);
    PlaceWithout(d.fifo.Get(dir), id, w);
  }

  lemma MakeRoomPlace(d: D, t: Tunables, id: nat, dir: Dir, w: nat)
    requires InvBut(d, t, {id}) && id in d.info
    ensures At(MakeRoom(d, id), dir, w) <= At(d, dir, w)
  {
    hide Ascending, ByExpiry, Distinct, Move, AtPos, Place;
    var alias := AtPos(d.info, d.sort.Get(d.info[id].dir), d.info[id].pos);
    if alias.Some? { MovePlace(d, t, {id}, alias.value, dir, w); }
  }

  lemma MergePlace(d: D, t: Tunables, id: nat, other: nat, dir: Dir, w: nat)
    requires Inv(d, t) && Enabled(d, Merge(id, other))
    ensures At(MergedRequests(d, id, other), dir, w) <= At(d, dir, w)
  {
    hide Ascending, ByExpiry, Distinct, Without, Latter, InsertBehind, Place;
    var fifo := d.fifo.Get(dir);
    if dir == d.info[id].dir {
      if d.info[other].expiry < d.info[id].expiry {
        WithoutDistinct(fifo, id);
        PlaceWithout(fifo, id, if w == id then other else w);
        PlaceByExpiry(d.info, fifo, id, other);
        if w != other { PlaceTakenOver(Without(fifo, id), id, other, w); }
      } else {
        PlaceWithout(fifo, other, w);
      }
    }
  }

  lemma StepPlace(d: D, t: Tunables, a: Action, dir: Dir, w: nat)
    requires Inv(d, t) && Enabled(d, a) && !a.Pull? && w in d.info
    ensures At(Next(d, t, a), dir, w) <= At(d, dir, w) && w in Next(d, t, a).info
  {
    hide Ascending, ByExpiry, Distinct, Without, InsertSorted, InsertBehind, MakeRoom, Place, MergedRequests;
    match a
    case Tick(delta) =>
    case Submit(id, to, pos, len) =>
      ArriveKeeps(d, t, id, to, pos, len);
      var d0 := Arrive(d, t, id, to, pos, len);
      MakeRoomKeeps(d0, t, id);
      MakeRoomPlace(d0, t, id, dir, w);
      PlaceAppend(MakeRoom(d0, id).fifo.Get(dir), id, w);
    case Grow(id, len) =>
    case Front(id, pos) =>
      UnlinkKeeps(d, t, id, pos);
      MakeRoomKeeps(Unlink(d, id, pos), t, id);
      MakeRoomPlace(Unlink(d, id, pos), t, id, dir, w);
    case Merge(id, other) =>
      MergePlace(d, t, id, other, dir, w);
      MergeKnows(d, id, other, w);
  }

  lemma MergeKnows(d: D, id: nat, other: nat, w: nat)
    requires id in d.info && other in d.info && w in d.info
    ensures w in MergedRequests(d, id, other).info
  {
    hide Without, Latter, InsertBehind;
  }

  /** A batch opened in the direction takes the head once a request of it has expired. */
  lemma DispatchPlace(d: D, t: Tunables, dir: Dir, w: nat)
    requires Inv(d, t)
    ensures At(Dispatch(d, t), dir, w) <= At(d, dir, w)
    ensures At(d, dir, w) > 0 && d.info[w].expiry < d.now && !Batching(d, t) && ChooseDir(d, t) == Some(dir) ==>
              At(Dispatch(d, t), dir, w) < At(d, dir, w)
  {
    hide Ascending, Distinct, Move, Place;
    ChosenIsQueued(d, t);
    var fifo := d.fifo.Get(dir);
    if w in fifo && w != fifo[0] { assert w in fifo[1..]; }
    if Chosen(d, t).Some? { MovePlace(Counted(d, t), t, {}, Chosen(d, t).value, dir, w); }
  }

  // ----- over a run -----

  /** `w` is on the FIFO with a deadline in the past, or off it for good. */
  predicate Overdue(d: D, dir: Dir, w: nat) {
    w in d.info && (w in d.fifo.Get(dir) ==> d.info[w].expiry < d.now)
  }

  lemma StepOverdue(d: D, t: Tunables, a: Action, dir: Dir, w: nat)
    requires Inv(d, t) && Enabled(d, a) && Overdue(d, dir, w)
    ensures Overdue(Next(d, t, a), dir, w)
  {
    hide InvBut, Without, InsertSorted, InsertBehind, Dispatch, Place, MergedRequests, Add, FrontMerged;
    match a
    case Submit(id, to, pos, len) => SubmitOverdue(d, t, id, to, pos, len, dir, w);
    case Front(id, pos) => FrontOverdue(d, t, id, pos, dir, w);
    case Merge(id, other) => MergeOverdue(d, t, id, other, dir, w);
    case Pull =>
      DispatchFrame(d, t);
      DispatchPlace(d, t, dir, w);
    case _ =>
  }

  lemma SubmitOverdue(d: D, t: Tunables, id: nat, to: Dir, pos: nat, len: nat, dir: Dir, w: nat)
    requires Inv(d, t) && Enabled(d, Submit(id, to, pos, len)) && Overdue(d, dir, w)
    ensures Overdue(Add(d, t, id, to, pos, len), dir, w)
  {
    hide Ascending, ByExpiry, Distinct, InsertSorted, MakeRoom;
    ArriveKeeps(d, t, id, to, pos, len);
    MakeRoomKeeps(Arrive(d, t, id, to, pos, len), t, id);
  }

  lemma FrontOverdue(d: D, t: Tunables, id: nat, pos: nat, dir: Dir, w: nat)
    requires Inv(d, t) && Enabled(d, Front(id, pos)) && Overdue(d, dir, w)
    ensures Overdue(FrontMerged(d, id, pos), dir, w)
  {
    hide Ascending, ByExpiry, Distinct, Without, InsertSorted, MakeRoom;
    UnlinkKeeps(d, t, id, pos);
    MakeRoomKeeps(Unlink(d, id, pos), t, id);
  }

  lemma MergeOverdue(d: D, t: Tunables, id: nat, other: nat, dir: Dir, w: nat)
    requires Inv(d, t) && Enabled(d, Merge(id, other)) && Overdue(d, dir, w)
    ensures Overdue(MergedRequests(d, id, other), dir, w)
  {
    hide Ascending, ByExpiry, Distinct, Without, Latter, InsertBehind;
  }

  lemma StepPlaceDelay(d: D, t: Tunables, a: Action, dir: Dir, w: nat)
    requires Inv(d, t) && Enabled(d, a) && Overdue(d, dir, w) && (dir == Read ==> t.writesStarved > 0)
    ensures Inv(Next(d, t, a), t) && Overdue(Next(d, t, a), dir, w)
    ensures var d' := Next(d, t, a);
            && Delay(d', t, dir, At(d', dir, w)) <= Delay(d, t, dir, At(d, dir, w))
            && (a.Pull? && At(d, dir, w) > 0 ==> Delay(d', t, dir, At(d', dir, w)) < Delay(d, t, dir, At(d, dir, w)))
  {
    hide InvBut, Ready, Next, Enabled, Dispatch, Place, Left, Debt, Period, Mul;
    InvReady(d, t);
    StepKeeps(d, t, a);
    InvReady(Next(d, t, a), t);
    StepOverdue(d, t, a, dir, w);
    if a.Pull? {
      PullIsDispatch(d, t);
      DispatchPlace(d, t, dir, w);
      if At(d, dir, w) > 0 { DispatchPays(d, t, dir, At(d, dir, w), At(Dispatch(d, t), dir, w)); }
    } else {
      StepFrame(d, t, a);
      StepPlace(d, t, a, dir, w);
      FewerWait(d, Next(d, t, a), t, dir, At(d, dir, w), At(Next(d, t, a), dir, w));
    }
  }

  lemma {:induction false} RunPlaceDelay(d: D, t: Tunables, acts: seq<Action>, dir: Dir, w: nat)
    requires Inv(d, t) && CanRun(d, t, acts) && Overdue(d, dir, w) && (dir == Read ==> t.writesStarved > 0)
    ensures Inv(Run(d, t, acts), t)
    ensures var d' := Run(d, t, acts);
            At(d', dir, w) == 0 || Delay(d', t, dir, At(d', dir, w)) + Pulls(acts) <= Delay(d, t, dir, At(d, dir, w))
    decreases |acts|
  {
    hide Next, Enabled, DirOk, Bounded, BatchOk, Gone, At, Left, Debt, Period, Overdue;
    if |acts| > 0 {
      StepPlaceDelay(d, t, acts[0], dir, w);
      RunPlaceDelay(Next(d, t, acts[0]), t, acts[1..], dir, w);
    }
  }

  /** Bounded wait by index: an expired request at FIFO index `k` has left the FIFO after
      `(k + 1) * Period + 1` dispatch calls; unless it was merged away it has been dispatched. */
  lemma IndexIsServed(d: D, t: Tunables, acts: seq<Action>, dir: Dir, k: nat)
    requires Inv(d, t) && CanRun(d, t, acts) && (dir == Read ==> t.writesStarved > 0)
    requires k < |d.fifo.Get(dir)| && d.info[d.fifo.Get(dir)[k]].expiry < d.now
    requires Pulls(acts) > (k + 1) * Period(t, dir)
    ensures var w := d.fifo.Get(dir)[k]; var d' := Run(d, t, acts);
            w !in d'.fifo.Get(dir) && (Carrier(acts, w) == w ==> w in d'.dispatched)
  {
    var w := d.fifo.Get(dir)[k];
    PlaceOfIndex(d.fifo.Get(dir), k);
    assert Cared(d, dir, d.info[w].expiry, w);
    RunPlaceDelay(d, t, acts, dir, w);
    DelayBound(d, t, dir, k + 1);
    RunCares(d, t, acts, dir, d.info[w].expiry, w);
    var d' := Run(d, t, acts);
    hide Period, Next, Enabled, CanRun, Run, Pulls, Carrier, DirOk, Bounded, BatchOk, Gone, Place, Delay;
    if At(d', dir, w) > 0 { DelayBound(d', t, dir, At(d', dir, w)); }
  }
}
