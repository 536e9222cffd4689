/** The tag allocator on its arrays, and the queue it hands requests back to. */
module TagQueue {
  import opened Common
  import opened RequestLists
  import opened Tags

  class Queue {
    var bits: array<bool>
    var index: array<Option<nat>>
    var maxDepth: nat
    var busy: seq<nat>
    var tag: map<nat, nat>
    /** The dispatch list. */
    var head: seq<nat>
    var nrRequests: nat
    /** Other queues use the same map. */
    var isShared: bool

    ghost function View(): Map
      reads this, bits, index
    {
      Map(bits[..], index[..], maxDepth, busy, tag)
    }

    ghost predicate Valid()
      reads this, bits, index
    {
      bits.Length == index.Length && Inv(View())
    }

    constructor (depth: nat, nrRequests: nat)
      ensures Valid() && View() == Init(Clamped(depth, nrRequests)) && head == [] && fresh(bits) && fresh(index)
    {
      var d := Clamped(depth, nrRequests);
      bits := new bool[d](_ => false);
      index := new Option<nat>[d](_ => None);
      maxDepth, busy, tag, head, isShared := d, [], map[], [], false;
      this.nrRequests := nrRequests;
      new;
      assert bits[..] == Repeat(d, false);
      assert index[..] == Repeat(d, None);
      InitInv(d);
    }

    /** `find_first_zero_bit`. */
    method FindFirstZero(n: nat) returns (t: nat)
      requires n <= bits.Length
      ensures t == FirstZero(bits[..], n)
    {
      t := 0;
      while t < n && bits[t]
        invariant t <= n && ZeroFrom(bits[..], n, 0) == ZeroFrom(bits[..], n, t)
      {
        t := t + 1;
      }
    }

    /** The search of `blk_queue_start_tag`: the lowest free tag, with the last ones kept for sync requests. */
    method PickTag(sync: bool, asyncInFlight: nat) returns (t: Option<nat>)
      requires Valid()
      ensures t == FreeTag(View(), sync, asyncInFlight)
    {
      hide Distinct;
      var depth := maxDepth;
      if !sync && depth > 1 {
        depth := depth - 2;
        if depth == 0 { depth := 1; }
        if asyncInFlight > depth { return None; }
      }
      var first := FindFirstZero(depth);
      t := if first >= depth then None else Some(first);
    }

    /** `blk_queue_start_tag`. */
    method StartTag(rq: nat, sync: bool, asyncInFlight: nat) returns (full: bool)
      requires Valid() && rq !in tag
      modifies this`busy, this`tag, bits, index
      ensures Valid()
      ensures full == FreeTag(old(View()), sync, asyncInFlight).None?
      ensures View() == if full then old(View())
              else Take(old(View()), rq, FreeTag(old(View()), sync, asyncInFlight).value)
    {
      hide Distinct, FreeTag;
      ghost var m := View();
      var t := PickTag(sync, asyncInFlight);
      if t.None? { return true; }
      TakeKeeps(m, rq, t.value);
      bits[t.value] := true;
      tag := tag[rq := t.value];
      index[t.value] := Some(rq);
      busy := [rq] + busy;
      assert View() == Take(m, rq, t.value);
      full := false;
    }

    /** `blk_queue_end_tag`. */
    method EndTag(rq: nat)
      requires Valid() && rq in tag
      modifies this`busy, this`tag, bits, index
      ensures Valid() && View() == End(old(View()), rq)
    {
      hide Distinct, Without;
      ghost var m := View();
      EndKeeps(m, rq);
      var t := tag[rq];
      busy := Without(busy, rq);
      tag := tag - {rq};
      index[t] := None;
      bits[t] := false;
      assert View() == End(m, rq);
    }

    /** `blk_queue_resize_tags`.  `overrun` says that the old map would be copied into a smaller
        one; the model stops short of the copy. */
    method ResizeTags(depth: nat) returns (err: int, overrun: bool)
      requires Valid()
      modifies this
      ensures Valid() && head == old(head) && overrun == !Fits(old(View()), depth, old(nrRequests), old(isShared))
      ensures err == if depth > |old(View()).bits| && old(isShared) then -EBUSY else 0
      ensures !overrun ==> View() == Resized(old(View()), depth, old(nrRequests), old(isShared))
      ensures tag == old(tag)
    {
      hide Distinct;
      ghost var m := View();
      err, overrun := 0, false;
      if depth <= bits.Length {
        maxDepth := depth;
      } else if isShared {
        err := -EBUSY;
      } else {
        var d := Clamped(depth, nrRequests);
        if d < bits.Length {
          overrun := true;
          return;
        }
        GrownKeeps(m, d);
        Grow(d);
      }
    }

    /** `init_tag_map` with the old entries copied back. */
    method Grow(d: nat)
      requires bits.Length == index.Length <= d
      modifies this`bits, this`index, this`maxDepth
      ensures fresh(bits) && fresh(index) && bits.Length == index.Length == d
      ensures View() == Grown(old(View()), d)
    {
      var newBits := new bool[d](_ => false);
      var newIndex := new Option<nat>[d](_ => None);
      var oldBits, oldIndex := bits, index;
      for i := 0 to oldBits.Length
        invariant forall k :: 0 <= k < d ==> newBits[k] == (if k < i then oldBits[k] else false)
        invariant forall k :: 0 <= k < d ==> newIndex[k] == (if k < i then oldIndex[k] else None)
      {
        newBits[i] := oldBits[i];
        newIndex[i] := oldIndex[i];
      }
      assert newBits[..] == oldBits[..] + Repeat(d - oldBits.Length, false);
      assert newIndex[..] == oldIndex[..] + Repeat(d - oldIndex.Length, None);
      bits, index, maxDepth := newBits, newIndex, d;
    }

    /** `blk_queue_invalidate_tags` while no barrier is in progress: every tag is free afterwards, and
        the requests are back at the head of the queue in the order in which they were started. */
    method InvalidateTags()
      requires Valid()
      modifies this`busy, this`tag, this`head, bits, index
      ensures Valid() && busy == [] && tag == map[]
      ensures forall t :: 0 <= t < bits.Length ==> !bits[t] && index[t] == None
      ensures head == Reversed(old(busy)) + old(head)
    {
      hide Distinct, Without, Reversed;
      while |busy| > 0
        invariant Valid()
        invariant Reversed(busy) + head == Reversed(old(busy)) + old(head)
        decreases |busy|
      {
        var rq := busy[0];
        WithoutHead(busy, head);
        EndTag(rq);
        head := [rq] + head;
      }
      assert Reversed([]) == [] by { NoneReversed(); }
      assert [] + head == head;
    }
  }

  lemma NoneReversed()
    ensures Reversed([]) == []
  {}

  lemma WithoutHead(s: seq<nat>, h: seq<nat>)
    requires |s| > 0 && Distinct(s)
    ensures Without(s, s[0]) == s[1..]
    ensures Reversed(s) + h == Reversed(s[1..]) + ([s[0]] + h)
  {
    WithoutAbsent(s[1..], s[0]);
    assert Without(s, s[0]) == Without(s[1..], s[0]);
    hide Without;
    var r := Reversed(s[1..]);
    assert (r + [s[0]]) + h == r + ([s[0]] + h);
  }
}
