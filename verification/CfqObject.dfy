/** The CFQ scheduler as it updates `cfq_data` in place: each method is proved against the
    specification function of the same operation. */
module CfqObject {
  import opened Common
  import opened RequestLists
  import opened Cfq
  import opened CfqInvariant
  import opened CfqRuns

  // ----- descending the service tree -----

  lemma {:induction false} SortedAt(queues: seq<Cfqq>, tree: seq<nat>, i: nat, j: nat)
    requires InRange(queues, tree) && TreeSorted(queues, tree) && i < j < |tree|
    ensures Exists(queues, tree[i]) && Exists(queues, tree[j])
    ensures !GoesLeft(queues[tree[j]], queues[tree[j]].key, queues[tree[i]])
  {
    assert tree[j] == tree[1..][j - 1];
    if i > 0 { SortedAt(queues, tree[1..], i - 1, j - 1); }
  }

  lemma OrderSteps(q: Cfqq, key: int, m: Cfqq, o: Cfqq)
    ensures GoesLeft(q, key, m) && !GoesLeft(o, o.key, m) ==> GoesLeft(q, key, o)
    ensures !GoesLeft(q, key, m) && !GoesLeft(m, m.key, o) ==> !GoesLeft(q, key, o)
  {}

  /** Everything before `i` stays to the left of the new queue, everything from `j` on goes right of it. */
  predicate Bounds(queues: seq<Cfqq>, tree: seq<nat>, q: Cfqq, key: int, i: nat, j: nat) {
    && i <= j <= |tree|
    && (forall k :: 0 <= k < i ==> Exists(queues, tree[k]) && !GoesLeft(q, key, queues[tree[k]]))
    && (forall k :: j <= k < |tree| ==> Exists(queues, tree[k]) && GoesLeft(q, key, queues[tree[k]]))
  }

  lemma BoundsNarrow(queues: seq<Cfqq>, tree: seq<nat>, q: Cfqq, key: int, i: nat, j: nat, mid: nat)
    requires InRange(queues, tree) && TreeSorted(queues, tree) && Bounds(queues, tree, q, key, i, j) && i <= mid < j
    ensures Exists(queues, tree[mid])
    ensures if GoesLeft(q, key, queues[tree[mid]]) then Bounds(queues, tree, q, key, i, mid)
            else Bounds(queues, tree, q, key, mid + 1, j)
  {
    hide TreeSorted, GoesLeft;
    assert tree[mid] in tree;
    forall k: nat | k < mid
      ensures Exists(queues, tree[k]) && (!GoesLeft(q, key, queues[tree[mid]]) ==> !GoesLeft(q, key, queues[tree[k]]))
    {
      SortedAt(queues, tree, k, mid);
      OrderSteps(q, key, queues[tree[mid]], queues[tree[k]]);
    }
    forall k | mid < k < |tree|
      ensures Exists(queues, tree[k]) && (GoesLeft(q, key, queues[tree[mid]]) ==> GoesLeft(q, key, queues[tree[k]]))
    {
      SortedAt(queues, tree, mid, k);
      OrderSteps(q, key, queues[tree[mid]], queues[tree[k]]);
    }
  }

  lemma {:induction false} InsertQueueAt(queues: seq<Cfqq>, tree: seq<nat>, qi: nat, key: int, i: nat)
    requires InRange(queues, tree) && qi < |queues| && Bounds(queues, tree, queues[qi], key, i, i)
    ensures InsertQueue(queues, tree, qi, key) == tree[..i] + [qi] + tree[i..]
  {
    var r := InsertQueue(queues, tree, qi, key);
    if i == 0 {
      assert r == [qi] + tree;
    } else {
      var rest := InsertQueue(queues, tree[1..], qi, key);
      assert r == [tree[0]] + rest;
      assert Bounds(queues, tree[1..], queues[qi], key, i - 1, i - 1);
      hide Bounds, InsertQueue, GoesLeft;
      InsertQueueAt(queues, tree[1..], qi, key, i - 1);
      assert [tree[0]] + (tree[1..][..i - 1] + [qi] + tree[1..][i - 1..]) == tree[..i] + [qi] + tree[i..];
    }
  }

  lemma AdvanceHere(c: C, t: Tunables, id: nat)
    requires Here(c, id)
    ensures var a := Advance(c, t, id);
            && Here(a, id) && Remove(a, t, id).attr == c.attr && |Remove(a, t, id).queues| == |c.queues|
  {
    hide FindNext, TakeOff, Without;
  }

  /** Putting `id` in at index `at` is what keeps the tree in order. */
  ghost predicate PlaceFor(info: Infos, s: seq<nat>, id: nat, at: nat) {
    && Known(info, s) && id in info && at <= |s|
    && InsertSorted(info, s, id, info[id].pos) == s[..at] + [id] + s[at..]
  }

  class CfqData {
    const t: Tunables
    var info: Infos
    var attr: Attrs
    var queues: seq<Cfqq>
    var tree: seq<nat>
    var left: Option<nat>
    var busy: int
    var rqQueued: int
    var syncFlight: int
    var lastPos: nat
    var flight: seq<nat>
    var jiffies: int

    constructor (t: Tunables, now: int)
      ensures this.t == t && View() == Init(now) && Inv(View())
    {
      this.t := t;
      info, attr, queues, tree, left := map[], map[], [], [], None;
      busy, rqQueued, syncFlight, lastPos, flight, jiffies := 0, 0, 0, 0, [], now;
    }

    function View(): C
      reads this
    {
      C(info, attr, queues, tree, left, busy, rqQueued, syncFlight, lastPos, flight, jiffies)
    }

    /** `cfq_rb_first`. */
    method RbFirst() returns (qi: Option<nat>)
      requires Inv(View())
      modifies this`left
      ensures View() == First(old(View())) && Inv(View())
      ensures qi == if |tree| > 0 then Some(tree[0]) else None
    {
      FirstKeeps(View());
      if left.None? && |tree| > 0 { left := Some(tree[0]); }
      qi := left;
    }

    /** The descent of `cfq_service_tree_add`: never turning right makes the queue the first. */
    method HangQueue(qi: nat, key: int)
      requires InRange(queues, tree) && qi < |queues| && TreeSorted(queues, tree) && qi !in tree
      modifies this`tree, this`left, this`queues
      ensures View() == Hang(old(View()), qi, key)
    {
      hide TreeSorted, GoesLeft, InsertQueue, Bounds;
      var nodes, q := tree, queues[qi];
      ghost var qs := queues;
      var lo: nat, hi: nat, leftmost := 0, |nodes|, true;
      BoundsAll(qs, nodes, q, key);
      while lo < hi
        invariant lo <= hi <= |nodes| && Bounds(qs, nodes, q, key, lo, hi) && leftmost == (lo == 0)
        invariant View() == old(View())
      {
        var mid := (lo + hi) / 2;
        BoundsNarrow(qs, nodes, q, key, lo, hi, mid);
        if GoesLeft(q, key, queues[nodes[mid]]) {
          hi := mid;
        } else {
          lo, leftmost := mid + 1, false;
        }
      }
      InsertQueueAt(qs, nodes, qi, key, lo);
      if leftmost { left := Some(qi); }
      tree := nodes[..lo] + [qi] + nodes[lo..];
      queues := queues[qi := q.(key := key)];
      assert lo > 0 ==> tree[0] == nodes[0] && nodes[0] in nodes;
    }

    /** `cfq_service_tree_add` for the key the caller computed. */
    method ServiceTreeAdd(qi: nat, key: int)
      requires InRange(queues, tree) && qi < |queues| && TreeSorted(queues, tree) && Distinct(tree)
      modifies this`tree, this`left, this`queues
      ensures View() == TreeAdd(old(View()), qi, key)
    {
      hide TreeSorted, Distinct, InsertQueue, Without;
      if qi in tree {
        if key == queues[qi].key { return; }
        SortedWithout(queues, tree, qi);
        if left == Some(qi) { left := None; }
        tree := Without(tree, qi);
      }
      HangQueue(qi, key);
    }

    /** `cfq_add_cfqq_rr`. */
    method AddCfqqRr(qi: nat, key: int)
      requires TreeOk(queues, tree, left, busy) && qi < |queues| && !queues[qi].onRr
      modifies this`tree, this`left, this`queues, this`busy
      ensures View() == AddRr(old(View()), qi, key)
    {
      hide TreeSorted, Distinct, InsertQueue, Without;
      SortedSame(queues, queues[qi := queues[qi].(onRr := true)], tree);
      queues := queues[qi := queues[qi].(onRr := true)];
      busy := busy + 1;
      ServiceTreeAdd(qi, key);
    }

    /** `cfq_del_cfqq_rr`. */
    method DelCfqqRr(qi: nat)
      requires qi < |queues|
      modifies this`tree, this`left, this`queues, this`busy
      ensures View() == DelRr(old(View()), qi)
    {
      hide Without;
      queues := queues[qi := queues[qi].(onRr := false)];
      if left == Some(qi) { left := None; }
      tree := Without(tree, qi);
      busy := busy - 1;
    }

    /** What `cfq_remove_request` does inside the queue. */
    method TakeOffRq(id: nat)
      requires Here(View(), id)
      modifies this`queues
      ensures queues == old(queues)[attr[id].queue := TakeOff(old(View()), t, old(queues)[attr[id].queue], id)]
    {
      hide Without, FindNext;
      var qi := attr[id].queue;
      var q := queues[qi];
      if q.next == Some(id) { q := q.(next := FindNext(View(), t, q.sort, id)); }
      q := q.(fifo := Without(q.fifo, id));
      q := Queued(q, attr[id].sync, -1);
      q := q.(sort := Without(q.sort, id));
      queues := queues[qi := q];
    }

    /** `cfq_remove_request` with `cfq_del_rq_rb`. */
    method RemoveRequest(id: nat)
      requires Here(View(), id)
      modifies this`tree, this`left, this`queues, this`busy, this`rqQueued
      ensures View() == Remove(old(View()), t, id)
    {
      hide TakeOff;
      var qi := attr[id].queue;
      TakeOffRq(id);
      if queues[qi].onRr && |queues[qi].sort| == 0 { DelCfqqRr(qi); }
      rqQueued := rqQueued - 1;
    }

    /** `cfq_dispatch_insert`. */
    method DispatchRq(id: nat)
      requires Here(View(), id)
      modifies this`tree, this`left, this`queues, this`busy, this`rqQueued, this`flight, this`syncFlight
      ensures View() == DispatchInsert(old(View()), t, id)
    {
      hide Advance, Remove, Send;
      AdvanceHere(View(), t, id);
      AdvanceNext(id);
      RemoveRequest(id);
      SendRq(id);
    }

    /** Looks up the next request before `id` is taken off. */
    method AdvanceNext(id: nat)
      requires Here(View(), id)
      modifies this`queues
      ensures View() == Advance(old(View()), t, id)
    {
      hide FindNext;
      var qi := attr[id].queue;
      queues := queues[qi := queues[qi].(next := FindNext(View(), t, queues[qi].sort, id))];
    }

    /** Counts a request that goes to the dispatch list. */
    method SendRq(id: nat)
      requires id in attr && attr[id].queue < |queues|
      modifies this`queues, this`flight, this`syncFlight
      ensures View() == Send(old(View()), id)
    {
      var qi := attr[id].queue;
      queues := queues[qi := queues[qi].(dispatched := queues[qi].dispatched + 1)];
      flight := flight + [id];
      if queues[qi].sync { syncFlight := syncFlight + 1; }
    }

    /** The descent of `elv_rb_add` on the tree of the request's queue. */
    method FindAlias(id: nat) returns (alias: Option<nat>, at: nat)
      requires InvBut(View(), {id})
      ensures Here(View(), id) && alias == AtPos(info, queues[attr[id].queue].sort, info[id].pos)
      ensures alias.Some? ==> OnTree(View(), alias.value) && attr[alias.value].queue == attr[id].queue
      ensures alias.None? ==> PlaceFor(info, queues[attr[id].queue].sort, id, at)
    {
      hide Ascending, Distinct, Count, TreeOk, Total, FlightOk, AtPos, InsertSorted;
      assert id in {id};
      var qi := attr[id].queue;
      assert QueueOk(info, attr, qi, queues[qi], {id});
      PairKnown(info, attr, qi, queues[qi].sort, queues[qi].fifo, {id});
      alias, at := Descend(info, queues[qi].sort, id, info[id].pos);
    }

    /** The linking half of `cfq_add_rq_rb`, at the place the descent found. */
    method LinkRq(id: nat, key: int, at: nat)
      requires Linkable(View(), id) && TreeOk(queues, tree, left, busy)
      requires PlaceFor(info, queues[attr[id].queue].sort, id, at)
      modifies this`tree, this`left, this`queues, this`busy
      ensures View() == Link(old(View()), t, id, key)
    {
      hide InsertSorted, Choose, TreeOk, InsertQueue, Without;
      var qi := attr[id].queue;
      var q := queues[qi];
      var sort := q.sort[..at] + [id] + q.sort[at..];
      var q' := Queued(q.(sort := sort, next := Choose(View(), t, q.next, Some(id))), attr[id].sync, 1);
      TreeSame(queues, tree, left, busy, qi, q');
      queues := queues[qi := q'];
      if !q.onRr { AddCfqqRr(qi, key); }
    }

    /** `cfq_add_rq_rb`: aliases are dispatched until the request finds its place, which is after one. */
    method AddRqRb(id: nat, key: int)
      requires InvBut(View(), {id})
      modifies this`tree, this`left, this`queues, this`busy, this`rqQueued, this`flight, this`syncFlight
      ensures Linkable(MakeRoom(old(View()), t, id), id)
      ensures View() == Link(MakeRoom(old(View()), t, id), t, id, key)
    {
      hide InvBut, Linkable, AtPos, Link, TreeOk, DispatchInsert, PlaceFor;
      MakeRoomKeeps(View(), t, id);
      var alias, at := FindAlias(id);
      while alias.Some?
        invariant InvBut(View(), {id}) && Here(View(), id)
        invariant alias == AtPos(info, queues[attr[id].queue].sort, info[id].pos)
        invariant alias.Some? ==> View() == old(View()) && OnTree(View(), alias.value)
        invariant alias.None? ==> View() == MakeRoom(old(View()), t, id)
        invariant alias.None? ==> PlaceFor(info, queues[attr[id].queue].sort, id, at)
        decreases alias.Some?
      {
        IsHere(View(), {id}, alias.value);
        DispatchRq(alias.value);
        assert View() == MakeRoom(old(View()), t, id);
        alias, at := FindAlias(id);
      }
      TreeIsOk(View(), {id});
      LinkRq(id, key, at);
    }

    /** `cfq_insert_request`. */
    method InsertRequest(id: nat, pos: nat, len: nat, dir: Dir, a: Attr, key: int)
      requires Inv(View()) && id !in info && id !in attr && a.queue < |queues|
      modifies this
      ensures View() == Insert(old(View()), t, id, pos, len, dir, a, key) && Inv(View())
    {
      hide InvBut, Linkable, Link, MakeRoom;
      InsertKeeps(View(), t, id, pos, len, dir, a, key);
      ArriveKeeps(View(), t, id, pos, len, dir, a);
      rqQueued := rqQueued + 1;
      info := info[id := Info(dir, pos, len, jiffies + (if a.sync then t.expireSync else t.expireAsync))];
      attr := attr[id := a];
      MakeRoomKeeps(View(), t, id);
      LinkQueues(MakeRoom(View(), t, id), t, id, key);
      AddRqRb(id, key);
      queues := queues[a.queue := queues[a.queue].(fifo := queues[a.queue].fifo + [id])];
    }

    /** `cfq_merged_request` after a front merge to `pos`. */
    method MergedRequest(id: nat, pos: nat, key: int)
      requires Inv(View()) && OnTree(View(), id)
      modifies this
      ensures View() == Reposition(old(View()), t, id, pos, key) && Inv(View())
    {
      hide InvBut, Linkable, Link, MakeRoom, Without;
      RepositionKeeps(View(), t, id, pos, key);
      UnlinkKeeps(View(), id, pos);
      var qi := attr[id].queue;
      var q := queues[qi];
      info := info[id := info[id].(pos := pos)];
      queues := queues[qi := Queued(q.(sort := Without(q.sort, id)), attr[id].sync, -1)];
      AddRqRb(id, key);
    }

    /** `cfq_merged_requests`. */
    method MergeRequests(id: nat, other: nat)
      requires Inv(View()) && Enabled(View(), Join(id, other))
      modifies this
      ensures View() == Merge(old(View()), t, id, other) && Inv(View())
    {
      hide InvBut, InvFor, Without, InsertBehind, Remove;
      MergeKeeps(View(), t, id, other);
      InheritKeeps(View(), id, other);
      LeavesFor(Inherit(View(), id, other), t, {}, other);
      var qi := attr[id].queue;
      if info[other].expiry < info[id].expiry {
        queues := queues[qi := queues[qi].(fifo := InsertBehind(Without(queues[qi].fifo, id), id, other))];
        info := info[id := info[id].(expiry := info[other].expiry)];
      }
      RemoveRequest(other);
    }

    /** `__cfq_forced_dispatch_cfqq`: the whole queue goes, until it has no next request. */
    method ForcedDispatchCfqq(qi: nat) returns (n: nat)
      requires Inv(View()) && qi < |queues|
      modifies this`tree, this`left, this`queues, this`busy, this`rqQueued, this`flight, this`syncFlight
      ensures Inv(View()) && Holding(View()) == old(Holding(View())) && |queues| == |old(queues)|
      ensures n + Total(queues) == Total(old(queues)) && (|old(queues)[qi].sort| > 0 ==> n > 0)
      ensures |queues[qi].sort| == 0 && |queues[qi].fifo| == 0
    {
      hide InvBut, DispatchInsert, Holding, Total;
      n := 0;
      QueueFacts(View(), qi);
      while queues[qi].next.Some?
        invariant Inv(View()) && Holding(View()) == old(Holding(View())) && |queues| == |old(queues)|
        invariant n + Total(queues) == Total(old(queues))
        invariant n == 0 ==> queues == old(queues)
        decreases Total(queues)
      {
        var id := queues[qi].next.value;
        QueueFacts(View(), qi);
        DispatchConserves(View(), t, id);
        DispatchKeeps(View(), t, {}, id);
        DispatchRq(id);
        n := n + 1;
      }
      QueueFacts(View(), qi);
    }

    /** `cfq_forced_dispatch`: ends with no queue busy, every counter at zero, and every request that
        was queued handed over exactly once. */
    method ForcedDispatch() returns (dispatched: nat)
      requires Inv(View())
      modifies this`tree, this`left, this`queues, this`busy, this`rqQueued, this`flight, this`syncFlight
      ensures Inv(View()) && busy == 0 && rqQueued == 0 && tree == []
      ensures multiset(flight) == old(Holding(View())) && dispatched == Total(old(queues))
      ensures forall qi :: 0 <= qi < |queues| ==> queues[qi].sort == [] && queues[qi].fifo == []
    {
      hide InvBut, Total, AllQueued;
      dispatched := 0;
      var first := RbFirst();
      while first.Some?
        invariant Inv(View()) && Holding(View()) == old(Holding(View()))
        invariant dispatched + Total(queues) == Total(old(queues))
        invariant first == if |tree| > 0 then Some(tree[0]) else None
        decreases Total(queues), first.Some?
      {
        FirstIsBusy(View());
        var n := ForcedDispatchCfqq(first.value);
        dispatched := dispatched + n;
        first := RbFirst();
      }
      AllDrained(View());
    }
  }

  lemma QueueFacts(c: C, qi: nat)
    requires Inv(c) && qi < |c.queues|
    ensures var q := c.queues[qi];
            && (q.next.Some? <==> |q.sort| > 0) && (|q.sort| == 0 <==> |q.fifo| == 0)
            && (q.next.Some? ==> OnTree(c, q.next.value))
            && (|q.sort| > 0 <==> q.onRr)
  {
    hide Ascending, Distinct, Count, TreeOk, Total, FlightOk;
    assert QueueOk(c.info, c.attr, qi, c.queues[qi], {});
    EmptyTogether(c.queues[qi].sort, c.queues[qi].fifo);
  }

  lemma FirstIsBusy(c: C)
    requires Inv(c) && |c.tree| > 0
    ensures c.tree[0] < |c.queues| && |c.queues[c.tree[0]].sort| > 0
  {
    TreeIsOk(c, {});
    assert c.tree[0] in c.tree;
    QueueFacts(c, c.tree[0]);
  }

  lemma AllDrained(c: C)
    requires Inv(c) && |c.tree| == 0
    ensures c.busy == 0 && c.rqQueued == 0 && Total(c.queues) == 0 && AllQueued(c.queues) == multiset{}
    ensures forall qi :: 0 <= qi < |c.queues| ==> c.queues[qi].sort == [] && c.queues[qi].fifo == []
  {
    hide QueueOk, FlightOk, TreeSorted;
    forall qi | 0 <= qi < |c.queues| ensures c.queues[qi].sort == [] && c.queues[qi].fifo == [] {
      QueueFacts(c, qi);
      assert qi !in c.tree;
    }
    NothingQueued(c.queues);
  }

  lemma TreeIsOk(c: C, out: set<nat>)
    requires InvBut(c, out)
    ensures TreeOk(c.queues, c.tree, c.left, c.busy)
  {}

  lemma BoundsAll(queues: seq<Cfqq>, tree: seq<nat>, q: Cfqq, key: int)
    ensures Bounds(queues, tree, q, key, 0, |tree|)
  {}
}
