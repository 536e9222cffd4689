/** The deadline scheduler as it updates `deadline_data` in place: each method is proved against
    the specification function of the same operation. */
module DeadlineObject {
  import opened Common
  import opened RequestLists
  import opened Deadline
  import opened DeadlineInvariant

  class DeadlineData {
    const t: Tunables
    var info: Infos
    var sort: Both<seq<nat>>
    var fifo: Both<seq<nat>>
    var next: Both<Option<nat>>
    var batching: nat
    var starved: nat
    var lastSector: nat
    var dispatched: seq<nat>
    var nrSorted: int
    var jiffies: int

    constructor (t: Tunables, now: int)
      ensures this.t == t && View() == Init(now) && Inv(View(), t)
    {
      this.t := t;
      info, sort, fifo := map[], Both([], []), Both([], []);
      next, batching, starved, lastSector := Both(None, None), 0, 0, 0;
      dispatched, nrSorted, jiffies := [], 0, now;
    }

    function View(): D
      reads this
    {
      D(info, sort, fifo, next, batching, starved, lastSector, dispatched, nrSorted, jiffies)
    }

    /** `elv_rb_add`: the descent ends at the alias or at the only place that keeps the order. */
    method RbAdd(id: nat) returns (alias: Option<nat>)
      requires id in info && Known(info, sort.Get(info[id].dir)) && Ascending(info, sort.Get(info[id].dir))
      modifies this`sort
      ensures alias == AtPos(info, old(sort).Get(info[id].dir), info[id].pos)
      ensures alias.Some? ==> sort == old(sort)
      ensures alias.None? ==> View() == Link(old(View()), id)
    {
      hide InsertSorted, AtPos, Ascending;
      var dir, at := info[id].dir, 0;
      var s := sort.Get(dir);
      alias, at := Descend(info, s, id, info[id].pos);
      if alias.None? {
        sort := sort.Set(dir, s[..at] + [id] + s[at..]);
      }
    }

    /** `deadline_remove_request`: off the FIFO, and off the tree with the batch moving on. */
    method RemoveRequest(id: nat)
      requires id in info
      modifies this`fifo, this`sort, this`next
      ensures View() == Remove(old(View()), id)
    {
      hide Without, Latter;
      var dir := info[id].dir;
      fifo := fifo.Set(dir, Without(fifo.Get(dir), id));
      if next.Get(dir) == Some(id) {
        next := next.Set(dir, Latter(sort.Get(dir), id));
      }
      sort := sort.Set(dir, Without(sort.Get(dir), id));
    }

    /** `deadline_move_request`, with `elv_dispatch_add_tail`. */
    method MoveRequest(id: nat)
      requires id in info
      modifies this`fifo, this`sort, this`next, this`lastSector, this`dispatched, this`nrSorted
      ensures View() == Move(old(View()), id)
    {
      hide Without, Latter;
      var dir := info[id].dir;
      next := Both(None, None);
      next := next.Set(dir, Latter(sort.Get(dir), id));
      lastSector := info[id].pos + info[id].len;
      RemoveRequest(id);
      nrSorted := nrSorted - 1;
      dispatched := dispatched + [id];
    }

    /** `deadline_add_rq_rb`: aliases are dispatched until the request finds its place. */
    method AddRqRb(id: nat)
      requires id in info && InvBut(View(), t, {id})
      modifies this`fifo, this`sort, this`next, this`lastSector, this`dispatched, this`nrSorted
      ensures View() == AddSorted(old(View()), id)
    {
      hide Ascending, ByExpiry, Distinct, AtPos, Move, Link;
      var alias := RbAdd(id);
      if alias.Some? {
        MakeRoomKeeps(old(View()), t, id);
      }
      while alias.Some?
        invariant info == old(info) && jiffies == old(jiffies) && starved == old(starved) && batching == old(batching)
        invariant alias.Some? ==> View() == old(View()) && alias == AtPos(info, sort.Get(info[id].dir), info[id].pos)
        invariant alias.None? ==> View() == AddSorted(old(View()), id)
        decreases alias.Some?
      {
        MoveRequest(alias.value);
        assert View() == MakeRoom(old(View()), id);
        alias := RbAdd(id);
      }
    }

    /** `deadline_add_request`. */
    method AddRequest(id: nat, dir: Dir, pos: nat, len: nat)
      requires Inv(View(), t) && id !in info
      modifies this
      ensures View() == Add(old(View()), t, id, dir, pos, len) && Inv(View(), t)
    {
      hide InvBut, AddSorted;
      SubmitKeeps(View(), t, id, dir, pos, len);
      ArriveKeeps(View(), t, id, dir, pos, len);
      nrSorted := nrSorted + 1;
      info := info[id := Info(dir, pos, len, jiffies + t.expire.Get(dir))];
      AddRqRb(id);
      fifo := fifo.Set(dir, fifo.Get(dir) + [id]);
    }

    /** `deadline_merged_request`: after a front merge to `pos` the request is put in its new place. */
    method MergedRequest(id: nat, pos: nat)
      requires Inv(View(), t) && Queued(View(), id)
      modifies this
      ensures View() == FrontMerged(old(View()), id, pos) && Inv(View(), t)
    {
      hide Ascending, ByExpiry, Distinct, AddSorted, Without;
      FrontKeeps(View(), t, id, pos);
      UnlinkKeeps(View(), t, id, pos);
      var dir := info[id].dir;
      info := info[id := info[id].(pos := pos)];
      sort := sort.Set(dir, Without(sort.Get(dir), id));
      AddRqRb(id);
    }

    /** `deadline_merged_requests` as called from `elv_merge_requests`. */
    method MergeRequests(id: nat, other: nat)
      requires Inv(View(), t) && Enabled(View(), Merge(id, other))
      modifies this
      ensures View() == MergedRequests(old(View()), id, other) && Inv(View(), t)
    {
      hide Ascending, ByExpiry, Distinct, Without, InsertBehind, Remove;
      MergeKeeps(View(), t, id, other);
      var dir := info[id].dir;
      if info[other].expiry < info[id].expiry {
        fifo := fifo.Set(dir, InsertBehind(Without(fifo.Get(dir), id), id, other));
        info := info[id := info[id].(expiry := info[other].expiry)];
      }
      RemoveRequest(other);
      nrSorted := nrSorted - 1;
    }

    /** `deadline_check_fifo`: the head is past its deadline exactly when some request is. */
    method CheckFifo(dir: Dir) returns (expired: bool)
      requires Inv(View(), t) && |fifo.Get(dir)| > 0
      ensures expired <==> exists x :: x in fifo.Get(dir) && info[x].expiry < jiffies
    {
      hide Ascending, Distinct;
      var head := fifo.Get(dir)[0];
      expired := jiffies > info[head].expiry;
      assert head in fifo.Get(dir);
      forall x | x in fifo.Get(dir) ensures info[head].expiry <= info[x].expiry {
        if x != head { assert x in fifo.Get(dir)[1..]; }
      }
    }

    /** The direction of a new batch, with the count of how often writes were passed over. */
    method SelectDirection() returns (dir: Option<Dir>)
      requires starved <= t.writesStarved
      modifies this`starved
      ensures dir == ChooseDir(old(View()), t)
      ensures starved == (if dir.Some? then Starved(old(View()), dir.value) else old(starved))
      ensures starved <= t.writesStarved
    {
      var rs, ws := |fifo.read| > 0, |fifo.write| > 0;
      if rs {
        var preferWrites := false;
        if ws {
          preferWrites := starved >= t.writesStarved;
          starved := starved + 1;
        }
        if !preferWrites { return Some(Read); }
      }
      if ws {
        starved := 0;
        return Some(Write);
      }
      dir := None;
    }

    /** The request that opens a batch in `dir`. */
    method FindRequest(dir: Dir) returns (rq: nat)
      requires Inv(View(), t) && |fifo.Get(dir)| > 0
      ensures rq == Opening(View(), dir) && Queued(View(), rq)
    {
      hide Ascending, ByExpiry, Distinct;
      var head := fifo.Get(dir)[0];
      if jiffies > info[head].expiry || next.Get(dir).None? {
        rq := head;
      } else {
        rq := next.Get(dir).value;
      }
    }

    /** The part of a dispatch call that starts a batch, down to its first count. */
    method OpenBatch() returns (rq: Option<nat>)
      requires Inv(View(), t) && !Batching(View(), t)
      modifies this`starved, this`batching
      ensures rq == Chosen(old(View()), t) && View() == Counted(old(View()), t)
    {
      hide Ascending, ByExpiry, Distinct;
      var dir := SelectDirection();
      if dir.None? { return None; }
      var first := FindRequest(dir.value);
      batching := 1;
      rq := Some(first);
    }

    /** The request the running batch goes on with, or that opens a new one. */
    method PickRequest() returns (rq: Option<nat>)
      requires Inv(View(), t)
      modifies this`starved, this`batching
      ensures rq == Chosen(old(View()), t) && View() == Counted(old(View()), t)
      ensures rq.None? ==> View() == old(View())
      ensures rq.Some? ==> rq.value in info
    {
      ChosenIsQueued(View(), t);
      hide InvBut, Opening;
      rq := if next.write.Some? then next.write else next.read;
      if rq.None? || batching >= t.fifoBatch {
        rq := OpenBatch();
      } else {
        batching := batching + 1;
      }
    }

    /** `deadline_dispatch_requests`. */
    method DispatchRequests() returns (some: bool)
      requires Inv(View(), t)
      modifies this`fifo, this`sort, this`next, this`lastSector, this`dispatched, this`nrSorted, this`starved,
               this`batching
      ensures View() == Dispatch(old(View()), t) && Inv(View(), t)
      ensures some == Chosen(old(View()), t).Some?
    {
      hide Move, InvBut, Chosen, Counted;
      DispatchKeeps(View(), t);
      var rq := PickRequest();
      if rq.None? { return false; }
      MoveRequest(rq.value);
      some := true;
    }

    /** `elv_drain_elevator`: forced dispatching ends, with `nr_sorted` at zero and every queued
        request on the dispatch list exactly once. */
    method Drain()
      requires Inv(View(), t)
      modifies this`fifo, this`sort, this`next, this`lastSector, this`dispatched, this`nrSorted, this`starved,
               this`batching
      ensures Inv(View(), t) && nrSorted == 0
      ensures multiset(dispatched) == old(Holding(View()))
      ensures sort == Both([], []) && fifo == Both([], [])
    {
      hide Ascending, ByExpiry, Distinct, Dispatch, Chosen;
      DispatchConserves(View(), t);
      var more := DispatchRequests();
      while more
        invariant Inv(View(), t) && Holding(View()) == old(Holding(View()))
        invariant !more ==> nrSorted == 0
        decreases if more then nrSorted + 1 else 0
      {
        DispatchConserves(View(), t);
        more := DispatchRequests();
      }
      EmptyTogether(sort.read, fifo.read);
      EmptyTogether(sort.write, fifo.write);
    }
  }
}
