/** What every operation of the deadline scheduler keeps: tree and FIFO of a direction hold the
    same requests, the tree is strictly ascending by sector, the FIFO is ordered by deadline, at
    most one direction has a batch to go on with, and `nr_sorted` counts what is queued. */
module DeadlineInvariant {
  import opened Common
  import opened RequestLists
  import opened Deadline

  // ----- the invariant -----

  /** The lists of one direction; the requests in `out` are missing from the tree. */
  ghost predicate DirOk(info: Infos, dir: Dir, sort: seq<nat>, fifo: seq<nat>, out: set<nat>) {
    && Known(info, sort) && Known(info, fifo)
    && (forall x :: x in fifo ==> info[x].dir == dir)
    && (forall x :: x in sort <==> x in fifo && x !in out)
    && Ascending(info, sort)
    && ByExpiry(info, fifo)
    && Distinct(fifo)
  }

  /** No FIFO holds a deadline further away than a new request would get. */
  predicate Bounded(info: Infos, fifo: seq<nat>, limit: int) {
    forall x :: x in fifo && x in info ==> info[x].expiry <= limit
  }

  predicate BatchOk(next: Both<Option<nat>>, fifo: Both<seq<nat>>) {
    && (next.read.None? || next.write.None?)
    && (next.read.Some? ==> next.read.value in fifo.read)
    && (next.write.Some? ==> next.write.value in fifo.write)
  }

  /** What has been dispatched is off the lists and listed once. */
  predicate Gone(info: Infos, dispatched: seq<nat>, fifo: Both<seq<nat>>) {
    && Known(info, dispatched)
    && Distinct(dispatched)
    && (forall x :: x in dispatched ==> x !in fifo.read && x !in fifo.write)
  }

  /** The invariant while the requests in `out` are off the tree. */
  ghost predicate InvBut(d: D, t: Tunables, out: set<nat>) {
    && DirOk(d.info, Read, d.sort.read, d.fifo.read, out)
    && DirOk(d.info, Write, d.sort.write, d.fifo.write, out)
    && Bounded(d.info, d.fifo.read, d.now + t.expire.read)
    && Bounded(d.info, d.fifo.write, d.now + t.expire.write)
    && BatchOk(d.next, d.fifo)
    && Gone(d.info, d.dispatched, d.fifo)
    && d.nrSorted == |d.sort.read| + |d.sort.write| + |out|
    && d.starved <= t.writesStarved
  }

  ghost predicate Inv(d: D, t: Tunables) { InvBut(d, t, {}) }

  lemma InitInv(t: Tunables, now: int)
    ensures Inv(Init(now), t)
  {}

  lemma InvReady(d: D, t: Tunables)
    requires Inv(d, t)
    ensures Ready(d) && d.starved <= t.writesStarved
  {}

  /** The invariant of one direction. */
  ghost predicate HalfOk(d: D, t: Tunables, dir: Dir, out: set<nat>) {
    && DirOk(d.info, dir, d.sort.Get(dir), d.fifo.Get(dir), out)
    && Bounded(d.info, d.fifo.Get(dir), d.now + t.expire.Get(dir))
  }

  lemma InvHalves(d: D, t: Tunables, out: set<nat>)
    ensures InvBut(d, t, out) <==>
            && HalfOk(d, t, Read, out) && HalfOk(d, t, Write, out)
            && BatchOk(d.next, d.fifo) && Gone(d.info, d.dispatched, d.fifo)
            && d.nrSorted == |d.sort.read| + |d.sort.write| + |out| && d.starved <= t.writesStarved
  {
    hide DirOk, Bounded, BatchOk, Gone;
  }

  // ----- dispatching -----

  lemma RemoveDirOk(info: Infos, dir: Dir, sort: seq<nat>, fifo: seq<nat>, out: set<nat>, id: nat)
    requires DirOk(info, dir, sort, fifo, out) && id in sort
    ensures DirOk(info, dir, Without(sort, id), Without(fifo, id), out)
    ensures |Without(sort, id)| == |sort| - 1
    ensures Latter(sort, id).Some? ==> Latter(sort, id).value in Without(sort, id)
  {
    WithoutAscending(info, sort, id);
    WithoutByExpiry(info, fifo, id);
    WithoutDistinct(fifo, id);
    AscendingDistinct(info, sort);
    WithoutDistinct(sort, id);
    LatterIsSuccessor(info, sort, id);
  }

  /** Moving a queued request keeps everything, and lists it last among the dispatched. */
  lemma MoveKeeps(d: D, t: Tunables, out: set<nat>, id: nat)
    requires InvBut(d, t, out) && Queued(d, id)
    ensures InvBut(Move(d, id), t, out)
    ensures Move(d, id).dispatched == d.dispatched + [id] && Move(d, id).info == d.info
    ensures forall dir :: Move(d, id).fifo.Get(dir) ==
              (if dir == d.info[id].dir then Without(d.fifo.Get(dir), id) else d.fifo.Get(dir))
    ensures Move(d, id).batching == d.batching && Move(d, id).starved == d.starved && Move(d, id).now == d.now
    ensures |Move(d, id).sort.read| + |Move(d, id).sort.write| == |d.sort.read| + |d.sort.write| - 1
  {
    hide InvBut, HalfOk, Without, Latter, BatchOk, Gone;
    InvHalves(d, t, out);
    MoveHalf(d, t, out, id, Read);
    MoveHalf(d, t, out, id, Write);
    MoveRest(d, t, out, id);
    InvHalves(Move(d, id), t, out);
  }

  lemma MoveHalf(d: D, t: Tunables, out: set<nat>, id: nat, dir: Dir)
    requires InvBut(d, t, out) && Queued(d, id)
    ensures HalfOk(Move(d, id), t, dir, out)
    ensures |Move(d, id).sort.Get(dir)| == |d.sort.Get(dir)| - (if dir == d.info[id].dir then 1 else 0)
  {
    hide Ascending, ByExpiry, Distinct, Without, Latter;
    if dir == d.info[id].dir {
      RemoveDirOk(d.info, dir, d.sort.Get(dir), d.fifo.Get(dir), out, id);
    }
  }

  lemma MoveRest(d: D, t: Tunables, out: set<nat>, id: nat)
    requires InvBut(d, t, out) && Queued(d, id)
    ensures BatchOk(Move(d, id).next, Move(d, id).fifo) && Gone(d.info, d.dispatched + [id], Move(d, id).fifo)
  {
    hide Ascending, ByExpiry, Distinct, Without, Latter;
    var dir := d.info[id].dir;
    MoveGone(d, t, out, id);
    hide Gone;
    RemoveDirOk(d.info, dir, d.sort.Get(dir), d.fifo.Get(dir), out, id);
  }

  lemma MoveGone(d: D, t: Tunables, out: set<nat>, id: nat)
    requires InvBut(d, t, out) && Queued(d, id)
    ensures Gone(d.info, d.dispatched + [id], Move(d, id).fifo)
  {
    hide Ascending, ByExpiry, Distinct, Without, Latter, BatchOk, Bounded;
    AppendDistinct(d.dispatched, id);
  }

  // ----- adding, merging -----

  /** A missing request that is on the FIFO goes back into the tree. */
  lemma LinkKeeps(d: D, t: Tunables, id: nat)
    requires InvBut(d, t, {id}) && id in d.info && id in d.fifo.Get(d.info[id].dir)
    requires forall x :: x in d.sort.Get(d.info[id].dir) ==> d.info[x].pos != d.info[id].pos
    ensures Inv(Link(d, id), t)
  {
    hide Ascending, ByExpiry, Distinct, InsertSorted;
    InsertAscending(d.info, d.sort.Get(d.info[id].dir), id);
  }

  /** One dispatched alias is enough: the loop of `deadline_add_rq_rb` runs its body at most once. */
  lemma MakeRoomKeeps(d: D, t: Tunables, id: nat)
    requires InvBut(d, t, {id}) && id in d.info
    ensures InvBut(MakeRoom(d, id), t, {id})
    ensures MakeRoom(d, id).info == d.info && MakeRoom(d, id).now == d.now
    ensures MakeRoom(d, id).starved == d.starved && MakeRoom(d, id).batching == d.batching
    ensures AtPos(d.info, MakeRoom(d, id).sort.Get(d.info[id].dir), d.info[id].pos).None?
    ensures forall x, dir :: x in MakeRoom(d, id).fifo.Get(dir) ==> x in d.fifo.Get(dir)
    ensures id in d.fifo.Get(d.info[id].dir) ==> id in MakeRoom(d, id).fifo.Get(d.info[id].dir)
    ensures forall x :: x in MakeRoom(d, id).dispatched && x !in d.dispatched ==> x != id
  {
    hide Ascending, ByExpiry, Distinct, AtPos;
    var dir, pos := d.info[id].dir, d.info[id].pos;
    var sort := d.sort.Get(dir);
    var alias := AtPos(d.info, sort, pos);
    if alias.Some? {
      MoveKeeps(d, t, {id}, alias.value);
      var rest := MakeRoom(d, id).sort.Get(dir);
      forall x | x in rest ensures d.info[x].pos != pos {
        if d.info[x].pos == pos { AscendingInjective(d.info, sort, x, alias.value); }
      }
    }
  }

  lemma SubmitKeeps(d: D, t: Tunables, id: nat, dir: Dir, pos: nat, len: nat)
    requires Inv(d, t) && id !in d.info
    ensures Inv(Add(d, t, id, dir, pos, len), t)
  {
    hide Ascending, ByExpiry, Distinct;
    var d0 := Arrive(d, t, id, dir, pos, len);
    ArriveKeeps(d, t, id, dir, pos, len);
    var d1 := MakeRoom(d0, id);
    MakeRoomKeeps(d0, t, id);
    AppendKeeps(d1, t, id);
    LinkKeeps(Append(d1, id), t, id);
    assert Append(Link(d1, id), id) == Link(Append(d1, id), id);
  }

  lemma ArriveKeeps(d: D, t: Tunables, id: nat, dir: Dir, pos: nat, len: nat)
    requires Inv(d, t) && id !in d.info
    ensures InvBut(Arrive(d, t, id, dir, pos, len), t, {id})
  {
    hide Ascending, ByExpiry, Distinct;
    var info := Arrive(d, t, id, dir, pos, len).info;
    AscendingSame(d.info, info, d.sort.read);
    AscendingSame(d.info, info, d.sort.write);
    ByExpirySame(d.info, info, d.fifo.read);
    ByExpirySame(d.info, info, d.fifo.write);
  }

  lemma AppendKeeps(d: D, t: Tunables, id: nat)
    requires InvBut(d, t, {id}) && id in d.info && id !in d.fifo.read && id !in d.fifo.write && id !in d.dispatched
    requires d.info[id].expiry == d.now + t.expire.Get(d.info[id].dir)
    ensures InvBut(Append(d, id), t, {id}) && id in Append(d, id).fifo.Get(d.info[id].dir)
  {
    hide Ascending, ByExpiry, Distinct;
    var fifo := d.fifo.Get(d.info[id].dir);
    AppendDistinct(fifo, id);
    AppendByExpiry(d.info, fifo, id);
  }

  lemma FrontKeeps(d: D, t: Tunables, id: nat, pos: nat)
    requires Inv(d, t) && Queued(d, id)
    ensures Inv(FrontMerged(d, id, pos), t)
  {
    hide Ascending, ByExpiry, Distinct;
    var d0 := Unlink(d, id, pos);
    UnlinkKeeps(d, t, id, pos);
    MakeRoomKeeps(d0, t, id);
    LinkKeeps(MakeRoom(d0, id), t, id);
  }

  lemma UnlinkKeeps(d: D, t: Tunables, id: nat, pos: nat)
    requires Inv(d, t) && Queued(d, id)
    ensures InvBut(Unlink(d, id, pos), t, {id})
  {
    hide InvBut, HalfOk, Without, BatchOk, Gone;
    InvHalves(d, t, {});
    UnlinkHalf(d, t, id, pos, Read);
    UnlinkHalf(d, t, id, pos, Write);
    GoneSame(d.info, Unlink(d, id, pos).info, d.dispatched, d.fifo);
    InvHalves(Unlink(d, id, pos), t, {id});
  }

  lemma GoneSame(info: Infos, other: Infos, dispatched: seq<nat>, fifo: Both<seq<nat>>)
    requires Gone(info, dispatched, fifo) && info.Keys <= other.Keys
    ensures Gone(other, dispatched, fifo)
  {}

  lemma UnlinkHalf(d: D, t: Tunables, id: nat, pos: nat, dir: Dir)
    requires Inv(d, t) && Queued(d, id)
    ensures HalfOk(Unlink(d, id, pos), t, dir, {id})
    ensures |Unlink(d, id, pos).sort.Get(dir)| == |d.sort.Get(dir)| - (if dir == d.info[id].dir then 1 else 0)
  {
    hide Ascending, ByExpiry, Distinct, Without, Gone, BatchOk;
    var info, sort := Unlink(d, id, pos).info, d.sort.Get(dir);
    ByExpirySame(d.info, info, d.fifo.Get(dir));
    if dir == d.info[id].dir {
      AscendingDistinct(d.info, sort);
      WithoutDistinct(sort, id);
      WithoutAscending(d.info, sort, id);
      AscendingSame(d.info, info, Without(sort, id));
    } else {
      AscendingSame(d.info, info, sort);
    }
  }

  lemma GrowKeeps(d: D, t: Tunables, id: nat, len: nat)
    requires Inv(d, t) && id in d.info
    ensures Inv(d.(info := d.info[id := d.info[id].(len := len)]), t)
  {
    hide Ascending, ByExpiry, Distinct;
    var info := d.info[id := d.info[id].(len := len)];
    AscendingSame(d.info, info, d.sort.read);
    AscendingSame(d.info, info, d.sort.write);
    ByExpirySame(d.info, info, d.fifo.read);
    ByExpirySame(d.info, info, d.fifo.write);
  }

  lemma InheritKeeps(d: D, t: Tunables, id: nat, other: nat)
    requires Inv(d, t) && Enabled(d, Merge(id, other))
    ensures Inv(Inherit(d, id, other), t)
    ensures Queued(Inherit(d, id, other), other) && Queued(Inherit(d, id, other), id)
  {
    hide InvBut, HalfOk, Without, InsertBehind, BatchOk, Gone;
    if d.info[other].expiry < d.info[id].expiry {
      InvHalves(d, t, {});
      InheritHalf(d, t, id, other, Read);
      InheritHalf(d, t, id, other, Write);
      InheritMembers(d, t, id, other);
      BatchSame(d.next, d.fifo, Inherit(d, id, other).fifo);
      GoneSame(d.info, Inherit(d, id, other).info, d.dispatched, d.fifo);
      GoneLists(Inherit(d, id, other).info, d.dispatched, d.fifo, Inherit(d, id, other).fifo);
      InvHalves(Inherit(d, id, other), t, {});
    }
  }

  ghost predicate SameMembers(fifo: Both<seq<nat>>, fifo': Both<seq<nat>>) {
    && (forall x :: x in fifo.read <==> x in fifo'.read)
    && (forall x :: x in fifo.write <==> x in fifo'.write)
  }

  lemma BatchSame(next: Both<Option<nat>>, fifo: Both<seq<nat>>, fifo': Both<seq<nat>>)
    requires BatchOk(next, fifo) && SameMembers(fifo, fifo')
    ensures BatchOk(next, fifo')
  {}

  lemma GoneLists(info: Infos, dispatched: seq<nat>, fifo: Both<seq<nat>>, fifo': Both<seq<nat>>)
    requires Gone(info, dispatched, fifo) && SameMembers(fifo, fifo')
    ensures Gone(info, dispatched, fifo')
  {}

  lemma InheritMembers(d: D, t: Tunables, id: nat, other: nat)
    requires Inv(d, t) && Enabled(d, Merge(id, other)) && d.info[other].expiry < d.info[id].expiry
    ensures SameMembers(d.fifo, Inherit(d, id, other).fifo)
    ensures Queued(Inherit(d, id, other), other) && Queued(Inherit(d, id, other), id)
  {
    hide Ascending, ByExpiry, Distinct, Without, InsertBehind, Gone, BatchOk;
    InheritFifo(d.info, d.fifo.Get(d.info[id].dir), id, other);
  }

  lemma InheritHalf(d: D, t: Tunables, id: nat, other: nat, dir: Dir)
    requires Inv(d, t) && Enabled(d, Merge(id, other)) && d.info[other].expiry < d.info[id].expiry
    ensures HalfOk(Inherit(d, id, other), t, dir, {})
  {
    hide Ascending, ByExpiry, Distinct, Without, InsertBehind, Gone, BatchOk;
    var info := Inherit(d, id, other).info;
    AscendingSame(d.info, info, d.sort.Get(dir));
    if dir == d.info[id].dir {
      InheritFifo(d.info, d.fifo.Get(dir), id, other);
    } else {
      ByExpirySame(d.info, info, d.fifo.Get(dir));
    }
  }

  lemma MergeKeeps(d: D, t: Tunables, id: nat, other: nat)
    requires Inv(d, t) && Enabled(d, Merge(id, other))
    ensures Inv(MergedRequests(d, id, other), t)
  {
    hide Ascending, ByExpiry, Distinct, Without, Latter, Inherit;
    InheritKeeps(d, t, id, other);
    DropKeeps(Inherit(d, id, other), t, other);
  }

  lemma DropKeeps(d: D, t: Tunables, id: nat)
    requires Inv(d, t) && Queued(d, id)
    ensures Inv(Remove(d, id).(nrSorted := d.nrSorted - 1), t)
  {
    hide Ascending, ByExpiry, Distinct, Without, Latter;
    var dir := d.info[id].dir;
    RemoveDirOk(d.info, dir, d.sort.Get(dir), d.fifo.Get(dir), {}, id);
  }

  /** A dispatch call finds a queued request exactly when one of the FIFOs holds any. */
  lemma ChosenIsQueued(d: D, t: Tunables)
    requires Inv(d, t)
    ensures Inv(Counted(d, t), t)
    ensures Chosen(d, t).None? <==> |d.fifo.read| == 0 && |d.fifo.write| == 0
    ensures Chosen(d, t).Some? ==> Queued(Counted(d, t), Chosen(d, t).value)
  {
    hide Ascending, ByExpiry, Distinct;
    if Batching(d, t) {
      assert Queued(d, Batch(d).value);
    } else if ChooseDir(d, t).Some? {
      assert Queued(d, Opening(d, ChooseDir(d, t).value));
    }
  }

  /** One dispatch moves exactly one queued request, unless nothing is queued. */
  lemma DispatchKeeps(d: D, t: Tunables)
    requires Inv(d, t)
    ensures Inv(Dispatch(d, t), t)
    ensures Chosen(d, t).Some? ==> Dispatch(d, t).dispatched == d.dispatched + [Chosen(d, t).value]
  {
    ChosenIsQueued(d, t);
    assert Counted(d, t).dispatched == d.dispatched;
    hide InvBut, Move, Counted, Chosen;
    if Chosen(d, t).Some? { MoveKeeps(Counted(d, t), t, {}, Chosen(d, t).value); }
  }

  /** Every request the scheduler holds or has handed over, with its multiplicity. */
  ghost function Holding(d: D): multiset<nat> {
    multiset(d.dispatched) + multiset(d.sort.read) + multiset(d.sort.write)
  }

  lemma MoveConserves(d: D, t: Tunables, out: set<nat>, id: nat)
    requires InvBut(d, t, out) && Queued(d, id)
    ensures Holding(Move(d, id)) == Holding(d)
  {
    hide Ascending, ByExpiry, Distinct, Without, Latter;
    var sort := d.sort.Get(d.info[id].dir);
    AscendingDistinct(d.info, sort);
    WithoutMultiset(sort, id);
  }

  /** Dispatching neither loses nor repeats a request, and empties the lists one by one. */
  lemma DispatchConserves(d: D, t: Tunables)
    requires Inv(d, t)
    ensures Holding(Dispatch(d, t)) == Holding(d)
    ensures Dispatch(d, t).nrSorted == d.nrSorted - (if Chosen(d, t).None? then 0 else 1)
    ensures Chosen(d, t).None? <==> d.nrSorted == 0
  {
    ChosenIsQueued(d, t);
    assert Counted(d, t).nrSorted == d.nrSorted && Holding(Counted(d, t)) == Holding(d);
    EmptyTogether(d.sort.read, d.fifo.read);
    EmptyTogether(d.sort.write, d.fifo.write);
    hide InvBut, Move, Counted, Chosen, Holding;
    if Chosen(d, t).Some? {
      MoveCounts(Counted(d, t), t, Chosen(d, t).value);
      MoveConserves(Counted(d, t), t, {}, Chosen(d, t).value);
    }
  }

  lemma MoveCounts(d: D, t: Tunables, id: nat)
    requires Inv(d, t) && Queued(d, id)
    ensures Move(d, id).nrSorted == d.nrSorted - 1
  {}

  /** Every step of every run keeps the invariant. */
  lemma StepKeeps(d: D, t: Tunables, a: Action)
    requires Inv(d, t) && Enabled(d, a)
    ensures Inv(Next(d, t, a), t)
  {
    hide Ascending, ByExpiry, Distinct, Add, FrontMerged, MergedRequests, Dispatch;
    match a
    case Tick(delta) =>
    case Submit(id, dir, pos, len) => SubmitKeeps(d, t, id, dir, pos, len);
    case Grow(id, len) => GrowKeeps(d, t, id, len);
    case Front(id, pos) => FrontKeeps(d, t, id, pos);
    case Merge(id, other) => MergeKeeps(d, t, id, other);
    case Pull => DispatchKeeps(d, t);
  }

  // ----- requests and their attributes -----

  function Earlier(a: int, b: int): int { if a <= b then a else b }

  /** What a step leaves on the lists: a new request with what it was submitted with, a request merged in
      front at its new start, and one that absorbed another with the earlier of the two deadlines, the
      other being gone.  No other request changes. */
  predicate Carried(d: D, d': D, t: Tunables, a: Action)
    requires Enabled(d, a)
  {
    match a
    case Submit(id, dir, pos, len) =>
      Queued(d', id) && d'.info == d.info[id := Info(dir, pos, len, d.now + t.expire.Get(dir))]
    case Grow(id, len) => Queued(d', id) && d'.info == d.info[id := d.info[id].(len := len)]
    case Front(id, pos) => Queued(d', id) && d'.info == d.info[id := d.info[id].(pos := pos)]
    case Merge(id, other) =>
      && Queued(d', id) && !Queued(d', other)
      && d'.info == d.info[id := d.info[id].(expiry := Earlier(d.info[id].expiry, d.info[other].expiry))]
    case _ => d'.info == d.info
  }

  lemma LinkedOn(d: D, id: nat)
    requires id in d.info && Known(d.info, d.sort.Get(d.info[id].dir))
    ensures Queued(Link(d, id), id) && Link(d, id).info == d.info
  {
    hide InsertSorted;
  }

  lemma RoomInfo(d: D, id: nat)
    requires id in d.info && Known(d.info, d.sort.Get(d.info[id].dir))
    ensures var d' := MakeRoom(d, id); d'.info == d.info && Known(d.info, d'.sort.Get(d.info[id].dir))
  {
    hide AtPos, Without, Latter;
  }

  lemma MergeCarried(d: D, t: Tunables, id: nat, other: nat)
    requires Enabled(d, Merge(id, other))
    ensures Carried(d, MergedRequests(d, id, other), t, Merge(id, other))
  {
    hide Without, Latter, InsertBehind;
  }

  lemma StepCarried(d: D, t: Tunables, a: Action)
    requires Inv(d, t) && Ready(d) && Enabled(d, a)
    ensures Carried(d, Next(d, t, a), t, a)
  {
    hide InvBut, MakeRoom, Link, MergedRequests, Without, Latter, Chosen, Counted;
    match a
    case Submit(id, dir, pos, len) =>
      var d0 := Arrive(d, t, id, dir, pos, len);
      RoomInfo(d0, id);
      LinkedOn(MakeRoom(d0, id), id);
    case Front(id, pos) =>
      var d0 := Unlink(d, id, pos);
      RoomInfo(d0, id);
      LinkedOn(MakeRoom(d0, id), id);
    case Merge(id, other) => MergeCarried(d, t, id, other);
    case Pull => CountedInfo(d, t);
    case _ =>
  }

  lemma CountedInfo(d: D, t: Tunables)
    ensures Counted(d, t).info == d.info
  {}
}
