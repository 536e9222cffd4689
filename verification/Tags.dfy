/** Tagged command queueing: a bitmap of busy tags, an index from tags to requests, and the list of
    busy requests, newest first. */
module Tags {
  import opened Common
  import opened RequestLists

  const EBUSY := 16

  /** `tag` holds the tag of every live request. */
  datatype Map = Map(bits: seq<bool>, index: seq<Option<nat>>, maxDepth: nat, busy: seq<nat>, tag: map<nat, nat>)

  /** The map bit, the index entry and the live request agree, tag by tag. */
  ghost predicate Inv(m: Map) {
    && |m.bits| == |m.index| && m.maxDepth <= |m.bits|
    && (forall t :: 0 <= t < |m.bits| ==> (m.bits[t] <==> m.index[t].Some?))
    && (forall t :: 0 <= t < |m.bits| && m.index[t].Some? ==> m.index[t].value in m.tag && m.tag[m.index[t].value] == t)
    && (forall r :: r in m.tag ==> m.tag[r] < |m.bits| && m.index[m.tag[r]] == Some(r))
    && Distinct(m.busy) && (forall r :: r in m.busy <==> r in m.tag)
  }

  function Repeat<T>(n: nat, x: T): (s: seq<T>)
    ensures |s| == n && forall i :: 0 <= i < n ==> s[i] == x
  {
    if n == 0 then [] else [x] + Repeat(n - 1, x)
  }

  /** `init_tag_map` clamps the depth to twice the number of requests of the queue. */
  function Clamped(depth: nat, nrRequests: nat): nat { if depth > 2 * nrRequests then 2 * nrRequests else depth }

  function Init(depth: nat): Map { Map(Repeat(depth, false), Repeat(depth, None), depth, [], map[]) }

  /** `find_first_zero_bit` below `n`. */
  function FirstZero(bits: seq<bool>, n: nat): (t: nat)
    requires n <= |bits|
    ensures t <= n && (t < n ==> !bits[t]) && forall i :: 0 <= i < t ==> bits[i]
  {
    ZeroFrom(bits, n, 0)
  }

  function ZeroFrom(bits: seq<bool>, n: nat, i: nat): (t: nat)
    requires i <= n <= |bits|
    ensures i <= t <= n && (t < n ==> !bits[t]) && forall k :: i <= k < t ==> bits[k]
    decreases n - i
  {
    if i == n || !bits[i] then i else ZeroFrom(bits, n, i + 1)
  }

  /** Async requests leave the last two tags to sync ones, but may always use one. */
  function AsyncDepth(depth: nat): nat {
    if depth > 1 then (if depth == 2 then 1 else depth - 2) else depth
  }

  /** The depth a request may use; none when too many async requests are in flight already. */
  function Allowed(m: Map, sync: bool, asyncInFlight: nat): Option<nat> {
    if sync || m.maxDepth <= 1 then Some(m.maxDepth)
    else if asyncInFlight > AsyncDepth(m.maxDepth) then None
    else Some(AsyncDepth(m.maxDepth))
  }

  /** The tag `blk_queue_start_tag` would give; none when it returns 1. */
  function FreeTag(m: Map, sync: bool, asyncInFlight: nat): (r: Option<nat>)
    requires m.maxDepth <= |m.bits|
    ensures r.Some? ==> r.value < m.maxDepth && !m.bits[r.value]
  {
    var depth := Allowed(m, sync, asyncInFlight);
    if depth.None? then None
    else var t := FirstZero(m.bits, depth.value); if t < depth.value then Some(t) else None
  }

  /** `blk_queue_start_tag` once a tag is found. */
  function Take(m: Map, rq: nat, t: nat): Map
    requires t < |m.bits| == |m.index|
  {
    m.(bits := m.bits[t := true], index := m.index[t := Some(rq)], busy := [rq] + m.busy, tag := m.tag[rq := t])
  }

  /** `blk_queue_end_tag` of a live request. */
  function End(m: Map, rq: nat): Map
    requires rq in m.tag && m.tag[rq] < |m.bits| == |m.index|
  {
    m.(bits := m.bits[m.tag[rq] := false], index := m.index[m.tag[rq] := None],
       busy := Without(m.busy, rq), tag := m.tag - {rq})
  }

  /** `blk_queue_resize_tags` to a larger map: the old entries are copied in front. */
  function Grown(m: Map, depth: nat): Map
    requires |m.bits| == |m.index| <= depth
  {
    m.(bits := m.bits + Repeat(depth - |m.bits|, false), index := m.index + Repeat(depth - |m.index|, None),
       maxDepth := depth)
  }

  lemma InitInv(depth: nat)
    ensures Inv(Init(depth))
  {}

  lemma TakeKeeps(m: Map, rq: nat, t: nat)
    requires Inv(m) && rq !in m.tag && t < |m.bits| && !m.bits[t]
    ensures Inv(Take(m, rq, t))
  {
    assert ([rq] + m.busy)[1..] == m.busy;
  }

  lemma EndKeeps(m: Map, rq: nat)
    requires Inv(m) && rq in m.tag
    ensures Inv(End(m, rq))
  {
    hide Without, Distinct;
    WithoutDistinct(m.busy, rq);
  }

  lemma GrownKeeps(m: Map, depth: nat)
    requires Inv(m) && |m.bits| <= depth
    ensures Inv(Grown(m, depth)) && Grown(m, depth).tag == m.tag
  {}

  /** Live requests hold different tags. */
  lemma TagsDiffer(m: Map, a: nat, b: nat)
    requires Inv(m) && a in m.tag && b in m.tag && a != b
    ensures m.tag[a] != m.tag[b]
  {
    assert m.index[m.tag[a]] == Some(a) && m.index[m.tag[b]] == Some(b);
  }

  // ----- runs -----

  datatype Action =
    | Start(rq: nat, asyncInFlight: nat)
    | Finish(rq: nat)
    | Resize(depth: nat, nrRequests: nat, isShared: bool)

  /** A growing resize of a map that is not shared copies the old map into one of the clamped
      depth, which must hold it. */
  predicate Fits(m: Map, depth: nat, nrRequests: nat, isShared: bool) {
    depth <= |m.bits| || isShared || |m.bits| <= Clamped(depth, nrRequests)
  }

  predicate Enabled(m: Map, a: Action) {
    match a
    case Start(rq, _) => rq !in m.tag
    case Finish(rq) => rq in m.tag
    case Resize(depth, nrRequests, isShared) => Fits(m, depth, nrRequests, isShared)
  }

  /** `blk_queue_resize_tags`: shrinking only lowers the depth, a shared map cannot grow. */
  function Resized(m: Map, depth: nat, nrRequests: nat, isShared: bool): Map
    requires |m.bits| == |m.index| && Fits(m, depth, nrRequests, isShared)
  {
    if depth <= |m.bits| then m.(maxDepth := depth)
    else if isShared then m
    else Grown(m, Clamped(depth, nrRequests))
  }

  /** Number of tags the arrays have room for after a resize. */
  function RoomAfter(m: Map, depth: nat, nrRequests: nat, isShared: bool): nat {
    if depth <= |m.bits| || isShared then |m.bits| else Clamped(depth, nrRequests)
  }

  predicate HasRoom(room: nat, tag: nat) { tag < room }

  /** Every tag of the old map has room in the new one if and only if the map does not grow, is
      shared, or had no more tags than twice the number of requests the queue allows now. */
  lemma RoomIff(m: Map, depth: nat, nrRequests: nat, isShared: bool)
    ensures (forall tag: nat :: HasRoom(|m.bits|, tag) ==> HasRoom(RoomAfter(m, depth, nrRequests, isShared), tag))
            <==> depth <= |m.bits| || isShared || |m.bits| <= 2 * nrRequests
    ensures Fits(m, depth, nrRequests, isShared) <==> |m.bits| <= RoomAfter(m, depth, nrRequests, isShared)
  {
    var room := RoomAfter(m, depth, nrRequests, isShared);
    assert !HasRoom(room, room);
  }

  /** A map of three tags, the last of them live, on a queue whose number of requests was lowered
      to one: asking for four tags makes a map of two. */
  lemma GrowingShrinks() returns (m: Map, rq: nat)
    ensures Inv(m) && rq in m.tag && m.tag[rq] == 2
    ensures RoomAfter(m, 4, 1, false) == 2 && !Fits(m, 4, 1, false)
  {
    rq := 0;
    InitInv(3);
    TakeKeeps(Init(3), rq, 2);
    m := Take(Init(3), rq, 2);
  }

  ghost function Next(m: Map, isSync: nat -> bool, a: Action): Map
    requires Inv(m) && Enabled(m, a)
  {
    match a
    case Start(rq, n) => var t := FreeTag(m, isSync(rq), n); if t.Some? then Take(m, rq, t.value) else m
    case Finish(rq) => End(m, rq)
    case Resize(depth, nrRequests, isShared) => Resized(m, depth, nrRequests, isShared)
  }

  lemma StepKeeps(m: Map, isSync: nat -> bool, a: Action)
    requires Inv(m) && Enabled(m, a)
    ensures Inv(Next(m, isSync, a))
    ensures forall r :: r in m.tag && a != Finish(r) ==>
            r in Next(m, isSync, a).tag && Next(m, isSync, a).tag[r] == m.tag[r]
  {
    hide Distinct, Without;
    match a
    case Start(rq, n) =>
      var t := FreeTag(m, isSync(rq), n);
      if t.Some? { TakeKeeps(m, rq, t.value); }
    case Finish(rq) => EndKeeps(m, rq);
    case Resize(depth, nrRequests, isShared) =>
      if depth > |m.bits| && !isShared { GrownKeeps(m, Clamped(depth, nrRequests)); }
  }

  ghost predicate CanRun(m: Map, isSync: nat -> bool, acts: seq<Action>)
    requires Inv(m)
    decreases |acts|
  {
    |acts| == 0 ||
    (Enabled(m, acts[0]) && (StepKeeps(m, isSync, acts[0]); CanRun(Next(m, isSync, acts[0]), isSync, acts[1..])))
  }

  ghost function Run(m: Map, isSync: nat -> bool, acts: seq<Action>): Map
    requires Inv(m) && CanRun(m, isSync, acts)
    decreases |acts|
  {
    if |acts| == 0 then m else (StepKeeps(m, isSync, acts[0]); Run(Next(m, isSync, acts[0]), isSync, acts[1..]))
  }

  /** The requests still live, in the order they were started. */
  function Order(live: seq<nat>, m: Map, isSync: nat -> bool, a: Action): seq<nat>
    requires m.maxDepth <= |m.bits|
  {
    match a
    case Start(rq, n) => if FreeTag(m, isSync(rq), n).Some? then live + [rq] else live
    case Finish(rq) => Without(live, rq)
    case Resize(_, _, _) => live
  }

  ghost function OrderAfter(live: seq<nat>, m: Map, isSync: nat -> bool, acts: seq<Action>): seq<nat>
    requires Inv(m) && CanRun(m, isSync, acts)
    decreases |acts|
  {
    if |acts| == 0 then live
    else
      StepKeeps(m, isSync, acts[0]);
      OrderAfter(Order(live, m, isSync, acts[0]), Next(m, isSync, acts[0]), isSync, acts[1..])
  }

  function Reversed(s: seq<nat>): (r: seq<nat>)
    ensures |r| == |s| && forall x :: x in r <==> x in s
  {
    if |s| == 0 then [] else Reversed(s[1..]) + [s[0]]
  }

  lemma {:induction false} WithoutConcat(a: seq<nat>, b: seq<nat>, id: nat)
    ensures Without(a + b, id) == Without(a, id) + Without(b, id)
  {
    if |a| == 0 {
      assert a + b == b;
    } else {
      assert (a + b)[1..] == a[1..] + b;
      WithoutConcat(a[1..], b, id);
    }
  }

  lemma {:induction false} ReversedWithout(s: seq<nat>, id: nat)
    ensures Reversed(Without(s, id)) == Without(Reversed(s), id)
  {
    if |s| > 0 {
      ReversedWithout(s[1..], id);
      WithoutConcat(Reversed(s[1..]), [s[0]], id);
      if s[0] != id { assert Without(s, id)[1..] == Without(s[1..], id); }
    }
  }

  lemma StepOrder(m: Map, isSync: nat -> bool, a: Action)
    requires Inv(m) && Enabled(m, a)
    ensures Reversed(Next(m, isSync, a).busy) == Order(Reversed(m.busy), m, isSync, a)
  {
    hide Inv;
    InvDepth(m);
    match a
    case Start(rq, n) => assert ([rq] + m.busy)[1..] == m.busy;
    case Finish(rq) => ReversedWithout(m.busy, rq);
    case Resize(_, _, _) =>
  }

  lemma InvDepth(m: Map)
    requires Inv(m)
    ensures |m.bits| == |m.index| && m.maxDepth <= |m.bits|
  {}

  /** Over every run of starts, ends and resizes the invariant holds, and the busy list, read
      backwards, is the order in which the live requests were started. */
  lemma {:induction false} BusyIsStartOrder(m: Map, isSync: nat -> bool, acts: seq<Action>)
    requires Inv(m) && CanRun(m, isSync, acts)
    ensures Inv(Run(m, isSync, acts))
    ensures Reversed(Run(m, isSync, acts).busy) == OrderAfter(Reversed(m.busy), m, isSync, acts)
    decreases |acts|
  {
    hide Inv, Next, Enabled, Order, Reversed;
    if |acts| > 0 {
      StepKeeps(m, isSync, acts[0]);
      StepOrder(m, isSync, acts[0]);
      BusyIsStartOrder(Next(m, isSync, acts[0]), isSync, acts[1..]);
    }
  }

  // ----- tags kept for sync requests -----

  /** The tags of a map of this depth that only sync requests may hold: the last two, or the second of
      two, or none of one. */
  function Kept(depth: nat): (n: nat)
    ensures n <= depth
  {
    match depth
    case 0 => 0
    case 1 => 0
    case 2 => 1
    case _ => 2
  }

  lemma AllowedIs(m: Map, sync: bool, asyncInFlight: nat)
    ensures var open := m.maxDepth - Kept(m.maxDepth);
            Allowed(m, sync, asyncInFlight) == if sync then Some(m.maxDepth)
                                               else if m.maxDepth > 1 && asyncInFlight > open then None else Some(open)
  {}

  /** Which tag a request gets, and when it gets none: a sync request the lowest that is free; an async
      one the lowest that is free and not kept, unless more async requests are in flight than there are
      tags not kept. */
  lemma RefusedIff(m: Map, sync: bool, asyncInFlight: nat)
    requires Inv(m)
    ensures var below := if sync then m.maxDepth else m.maxDepth - Kept(m.maxDepth);
            var r := FreeTag(m, sync, asyncInFlight);
            && (r.None? <==>
                || (!sync && m.maxDepth > 1 && asyncInFlight > below)
                || (forall t :: 0 <= t < below ==> m.bits[t]))
            && (r.Some? ==> r.value < below && !m.bits[r.value] && forall t :: 0 <= t < r.value ==> m.bits[t])
  {
    hide Distinct, Allowed, Kept;
    AllowedIs(m, sync, asyncInFlight);
  }

  /** After a resize a sync request finds a tag exactly if one below the new depth is free: the depth asked
      for when the arrays have that room or can be made larger, as far as the queue's number of requests
      goes; a shared map that would have to grow keeps the depth it had. */
  lemma ResizedIff(m: Map, depth: nat, nrRequests: nat, isShared: bool, asyncInFlight: nat)
    requires Inv(m) && Fits(m, depth, nrRequests, isShared)
    ensures var m' := Resized(m, depth, nrRequests, isShared);
            var below := if depth <= |m.bits| then depth else if isShared then m.maxDepth
                         else if depth <= 2 * nrRequests then depth else 2 * nrRequests;
            && Inv(m') && m'.tag == m.tag
            && (FreeTag(m', true, asyncInFlight).None? <==> forall t :: 0 <= t < below ==> Busy(m, t))
  {
    hide Distinct, FreeTag, Kept;
    var m' := Resized(m, depth, nrRequests, isShared);
    if depth > |m.bits| && !isShared {
      GrownKeeps(m, Clamped(depth, nrRequests));
    }
    RefusedIff(m', true, asyncInFlight);
    SameBits(m, depth, nrRequests, isShared);
    assert forall t :: 0 <= t < m'.maxDepth ==> (m'.bits[t] <==> Busy(m, t));
  }

  predicate Busy(m: Map, t: nat) { t < |m.bits| && m.bits[t] }

  lemma SameBits(m: Map, depth: nat, nrRequests: nat, isShared: bool)
    requires Inv(m) && Fits(m, depth, nrRequests, isShared)
    ensures var m' := Resized(m, depth, nrRequests, isShared);
            forall t :: 0 <= t < |m'.bits| ==> (m'.bits[t] <==> Busy(m, t))
  {
    hide Distinct;
  }

  /** Async requests hold none of the tags kept. */
  ghost predicate Reserved(m: Map, isSync: nat -> bool) {
    forall r :: r in m.tag && !isSync(r) ==> m.tag[r] < m.maxDepth - Kept(m.maxDepth)
  }

  lemma StepReserves(m: Map, isSync: nat -> bool, a: Action)
    requires Inv(m) && Enabled(m, a) && !a.Resize? && Reserved(m, isSync)
    ensures Reserved(Next(m, isSync, a), isSync)
  {
    hide Distinct, Without, Kept, Allowed;
    if a.Start? {
      AllowedIs(m, isSync(a.rq), a.asyncInFlight);
    }
  }

  predicate NoResize(acts: seq<Action>) { forall a :: a in acts ==> !a.Resize? }

  lemma {:induction false} RunReserves(m: Map, isSync: nat -> bool, acts: seq<Action>)
    requires Inv(m) && CanRun(m, isSync, acts) && NoResize(acts) && Reserved(m, isSync)
    ensures var m' := Run(m, isSync, acts);
            Inv(m') && Reserved(m', isSync) && m'.maxDepth == m.maxDepth
    decreases |acts|
  {
    hide Inv, Next, Enabled, Reserved;
    if |acts| > 0 {
      StepKeeps(m, isSync, acts[0]);
      StepReserves(m, isSync, acts[0]);
      SameDepth(m, isSync, acts[0]);
      RunReserves(Next(m, isSync, acts[0]), isSync, acts[1..]);
    }
  }

  lemma SameDepth(m: Map, isSync: nat -> bool, a: Action)
    requires Inv(m) && Enabled(m, a) && !a.Resize?
    ensures Next(m, isSync, a).maxDepth == m.maxDepth
  {
    hide Distinct;
  }

  /** In every run from an empty map without a resize no async request holds one of the last two tags,
      or the second of two. */
  lemma AsyncStaysBelow(depth: nat, isSync: nat -> bool, acts: seq<Action>, rq: nat)
    requires Inv(Init(depth)) && CanRun(Init(depth), isSync, acts) && NoResize(acts)
    requires rq in Run(Init(depth), isSync, acts).tag && !isSync(rq)
    ensures var t := Run(Init(depth), isSync, acts).tag[rq];
            t < depth && (depth >= 3 ==> t < depth - 2) && (depth == 2 ==> t == 0)
  {
    hide Inv, CanRun, Run;
    RunReserves(Init(depth), isSync, acts);
  }

  /** The sync requests that hold a tag. */
  ghost function LiveSync(m: Map, isSync: nat -> bool): set<nat> { set r | r in m.tag && isSync(r) }

  /** In every run from an empty map without a resize, whatever its depth, a sync request finds a tag
      as long as fewer than two sync requests are live, or none if there are two tags only, however
      many async ones there are. */
  lemma SyncFindsTag(depth: nat, isSync: nat -> bool, acts: seq<Action>, asyncInFlight: nat)
    requires Inv(Init(depth)) && CanRun(Init(depth), isSync, acts) && NoResize(acts)
    requires var live := |LiveSync(Run(Init(depth), isSync, acts), isSync)|;
             (depth >= 3 && live < 2) || (depth == 2 && live < 1)
    ensures var m := Run(Init(depth), isSync, acts);
            m.maxDepth <= |m.bits| && FreeTag(m, true, asyncInFlight).Some?
  {
    hide Inv, CanRun, Run, FreeTag;
    RunReserves(Init(depth), isSync, acts);
    InvDepth(Run(Init(depth), isSync, acts));
    KeptTagFree(Run(Init(depth), isSync, acts), isSync, asyncInFlight);
  }

  lemma KeptTagFree(m: Map, isSync: nat -> bool, asyncInFlight: nat)
    requires Inv(m) && Reserved(m, isSync) && |LiveSync(m, isSync)| < Kept(m.maxDepth)
    ensures FreeTag(m, true, asyncInFlight).Some?
  {
    hide Distinct;
    var d := m.maxDepth;
    if m.bits[d - 1] {
      var a := HolderIsSync(m, isSync, d - 1);
      if d > 2 && m.bits[d - 2] {
        var b := HolderIsSync(m, isSync, d - 2);
        AtLeastTwo(LiveSync(m, isSync), a, b);
      }
    }
  }

  lemma AtLeastTwo(s: set<nat>, a: nat, b: nat)
    requires a in s && b in s && a != b
    ensures |s| >= 2
  {
    assert b in s - {a} && |s - {a}| == |s| - 1;
  }

  lemma HolderIsSync(m: Map, isSync: nat -> bool, t: nat) returns (r: nat)
    requires Inv(m) && Reserved(m, isSync) && m.maxDepth - Kept(m.maxDepth) <= t < m.maxDepth && m.bits[t]
    ensures r in LiveSync(m, isSync) && m.tag[r] == t
  {
    r := m.index[t].value;
  }
}
