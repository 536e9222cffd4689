/** The FIFO of a queue: as long as requests are put on queues of their own kind, it is in order of
    deadlines over every run, so that looking at its head is enough to serve what is late.  And what
    every step leaves of a request's sector, length and deadline. */
module CfqFifo {
  import opened Common
  import opened RequestLists
  import opened Cfq
  import opened CfqInvariant
  import opened CfqRuns

  function Expire(t: Tunables, sync: bool): nat { if sync then t.expireSync else t.expireAsync }

  /** In order, and none further away than a new request would get. */
  ghost predicate FifoOk(info: Infos, now: int, t: Tunables, q: Cfqq) {
    && Known(info, q.fifo) && ByExpiry(info, q.fifo)
    && forall x :: x in q.fifo ==> info[x].expiry <= now + Expire(t, q.sync)
  }

  ghost predicate FifosOk(c: C, t: Tunables) {
    forall qi :: 0 <= qi < |c.queues| ==> FifoOk(c.info, c.now, t, c.queues[qi])
  }

  // ----- what the operations do to the FIFOs -----

  /** Only trees, caches and counters differ. */
  ghost predicate SameFifos(c: C, c': C) {
    && c'.info == c.info && c'.attr == c.attr && c'.now == c.now && |c'.queues| == |c.queues|
    && forall qi :: 0 <= qi < |c.queues| ==>
         c'.queues[qi].fifo == c.queues[qi].fifo && c'.queues[qi].sync == c.queues[qi].sync
  }

  /** Apart from those, `id` has left its FIFO. */
  ghost predicate Taken(c: C, c': C, id: nat)
    requires id in c.attr
  {
    && c'.info == c.info && c'.attr == c.attr && c'.now == c.now && |c'.queues| == |c.queues|
    && forall qi :: 0 <= qi < |c.queues| ==>
         && c'.queues[qi].fifo == (if qi == c.attr[id].queue then Without(c.queues[qi].fifo, id) else c.queues[qi].fifo)
         && c'.queues[qi].sync == c.queues[qi].sync
  }

  lemma LinkFifos(c: C, t: Tunables, id: nat, key: int)
    requires Linkable(c, id)
    ensures SameFifos(c, Link(c, t, id, key))
  {
    hide InsertSorted, Choose, InsertQueue, Without;
  }

  lemma RemoveTakes(c: C, t: Tunables, id: nat)
    requires Here(c, id)
    ensures Taken(c, Remove(c, t, id), id)
  {
    hide FindNext, Without;
  }

  lemma DispatchTakes(c: C, t: Tunables, id: nat)
    requires Here(c, id)
    ensures Taken(c, DispatchInsert(c, t, id), id)
  {
    hide FindNext, Remove, Without;
    RemoveTakes(Advance(c, t, id), t, id);
  }

  lemma SameKeep(c: C, c': C, t: Tunables)
    requires FifosOk(c, t) && SameFifos(c, c')
    ensures FifosOk(c', t)
  {
    hide ByExpiry;
    forall qi | 0 <= qi < |c'.queues| ensures FifoOk(c'.info, c'.now, t, c'.queues[qi]) {
      assert FifoOk(c.info, c.now, t, c.queues[qi]);
    }
  }

  lemma TakenKeep(c: C, c': C, t: Tunables, id: nat)
    requires FifosOk(c, t) && id in c.attr && Taken(c, c', id)
    ensures FifosOk(c', t)
  {
    hide ByExpiry, Without;
    forall qi | 0 <= qi < |c'.queues| ensures FifoOk(c'.info, c'.now, t, c'.queues[qi]) {
      assert FifoOk(c.info, c.now, t, c.queues[qi]);
      WithoutByExpiry(c.info, c.queues[qi].fifo, id);
    }
  }

  /** Attributes that the FIFOs do not look at, and time going by. */
  lemma SameTimes(c: C, c': C, t: Tunables)
    requires FifosOk(c, t) && |c'.queues| == |c.queues| && c'.now >= c.now
    requires forall qi :: 0 <= qi < |c.queues| ==>
               c'.queues[qi].fifo == c.queues[qi].fifo && c'.queues[qi].sync == c.queues[qi].sync
    requires forall x :: x in c.info ==> x in c'.info && c'.info[x].expiry == c.info[x].expiry
    ensures FifosOk(c', t)
  {
    hide ByExpiry;
    forall qi | 0 <= qi < |c'.queues| ensures FifoOk(c'.info, c'.now, t, c'.queues[qi]) {
      assert FifoOk(c.info, c.now, t, c.queues[qi]);
      ByExpirySame(c.info, c'.info, c.queues[qi].fifo);
    }
  }

  lemma MakeRoomFifos(c: C, t: Tunables, id: nat)
    requires InvBut(c, {id}) && Here(c, id) && FifosOk(c, t)
    ensures var c' := MakeRoom(c, t, id);
            && FifosOk(c', t) && c'.info == c.info && c'.attr == c.attr && c'.now == c.now && |c'.queues| == |c.queues|
            && forall qi :: 0 <= qi < |c.queues| ==> c'.queues[qi].sync == c.queues[qi].sync
  {
    hide InvBut, FindNext, DispatchInsert, FifosOk, AtPos, Without;
    var alias := AtPos(c.info, c.queues[c.attr[id].queue].sort, c.info[id].pos);
    if alias.Some? {
      IsHere(c, {id}, alias.value);
      DispatchTakes(c, t, alias.value);
      TakenKeep(c, MakeRoom(c, t, id), t, alias.value);
    }
  }

  // ----- steps -----

  lemma InsertFifos(c: C, t: Tunables, id: nat, pos: nat, len: nat, dir: Dir, attr: Attr, key: int)
    requires Inv(c) && id !in c.info && id !in c.attr && attr.queue < |c.queues|
    requires FifosOk(c, t) && attr.sync == c.queues[attr.queue].sync
    ensures FifosOk(Insert(c, t, id, pos, len, dir, attr, key), t)
  {
    hide InvBut, Linkable, Link, MakeRoom, FifosOk, Arrive, Append;
    var c0 := Arrive(c, t, id, pos, len, dir, attr);
    ArriveFifos(c, t, id, pos, len, dir, attr);
    ArriveKeeps(c, t, id, pos, len, dir, attr);
    InsertReady(c, t, id, pos, len, dir, attr, key);
    MakeRoomFifos(c0, t, id);
    var c1 := MakeRoom(c0, t, id);
    var c2 := Link(c1, t, id, key);
    LinkFifos(c1, t, id, key);
    SameKeep(c1, c2, t);
    AppendFifos(c2, t, id);
  }

  lemma ArriveFifos(c: C, t: Tunables, id: nat, pos: nat, len: nat, dir: Dir, attr: Attr)
    requires FifosOk(c, t) && id !in c.info && attr.queue < |c.queues| && attr.sync == c.queues[attr.queue].sync
    ensures var c0 := Arrive(c, t, id, pos, len, dir, attr);
            && FifosOk(c0, t) && c0.queues == c.queues && id in c0.info && id in c0.attr && c0.attr[id] == attr
            && c0.info[id].expiry == c0.now + Expire(t, c0.queues[attr.queue].sync)
  {
    hide FifosOk;
    SameTimes(c, Arrive(c, t, id, pos, len, dir, attr), t);
  }

  lemma AppendFifos(c: C, t: Tunables, id: nat)
    requires FifosOk(c, t) && id in c.attr && id in c.info && c.attr[id].queue < |c.queues|
    requires c.info[id].expiry == c.now + Expire(t, c.queues[c.attr[id].queue].sync)
    ensures FifosOk(Append(c, id), t)
  {
    hide ByExpiry;
    var c', q := Append(c, id), c.queues[c.attr[id].queue];
    forall qi | 0 <= qi < |c'.queues| ensures FifoOk(c'.info, c'.now, t, c'.queues[qi]) {
      assert FifoOk(c.info, c.now, t, c.queues[qi]);
      if qi == c.attr[id].queue {
        AppendByExpiry(c.info, q.fifo, id);
      }
    }
  }

  lemma RepositionFifos(c: C, t: Tunables, id: nat, pos: nat, key: int)
    requires Inv(c) && OnTree(c, id) && FifosOk(c, t)
    ensures FifosOk(Reposition(c, t, id, pos, key), t)
  {
    hide InvBut, Linkable, Link, MakeRoom, FifosOk, Unlink;
    UnlinkKeeps(c, id, pos);
    UnlinkFifos(c, t, id, pos);
    var c0 := Unlink(c, id, pos);
    MakeRoomKeeps(c0, t, id);
    MakeRoomFifos(c0, t, id);
    var c1 := MakeRoom(c0, t, id);
    LinkFifos(c1, t, id, key);
    SameKeep(c1, Link(c1, t, id, key), t);
  }

  lemma UnlinkFifos(c: C, t: Tunables, id: nat, pos: nat)
    requires FifosOk(c, t) && id in c.info && id in c.attr && c.attr[id].queue < |c.queues|
    ensures FifosOk(Unlink(c, id, pos), t)
  {
    hide FifosOk, Without;
    SameTimes(c, Unlink(c, id, pos), t);
  }

  lemma MergeFifos(c: C, t: Tunables, id: nat, other: nat)
    requires Inv(c) && Enabled(c, Join(id, other)) && FifosOk(c, t)
    ensures FifosOk(Merge(c, t, id, other), t)
  {
    hide InvBut, InvFor, Remove, Inherit, FifosOk;
    InheritKeeps(c, id, other);
    InheritFifos(c, t, id, other);
    var c1 := Inherit(c, id, other);
    LeavesFor(c1, t, {}, other);
    RemoveTakes(c1, t, other);
    TakenKeep(c1, Remove(c1, t, other), t, other);
  }

  lemma InheritFifos(c: C, t: Tunables, id: nat, other: nat)
    requires Inv(c) && Enabled(c, Join(id, other)) && FifosOk(c, t) && id in c.info && other in c.info
    ensures FifosOk(Inherit(c, id, other), t)
  {
    hide InvBut, FifoOk, Inherit;
    var c' := Inherit(c, id, other);
    if c.info[other].expiry < c.info[id].expiry {
      assert |c'.queues| == |c.queues| by { InheritQueues(c, id, other); }
      forall i | 0 <= i < |c'.queues| ensures FifoOk(c'.info, c'.now, t, c'.queues[i]) {
        InheritAt(c, t, id, other, i);
      }
    } else {
      InheritQueues(c, id, other);
    }
  }

  lemma InheritQueues(c: C, id: nat, other: nat)
    requires id in c.info && other in c.info && id in c.attr && c.attr[id].queue < |c.queues|
    ensures |Inherit(c, id, other).queues| == |c.queues|
    ensures c.info[other].expiry >= c.info[id].expiry ==> Inherit(c, id, other) == c
  {
    hide Without, InsertBehind;
  }

  lemma InheritAt(c: C, t: Tunables, id: nat, other: nat, i: nat)
    requires Inv(c) && Enabled(c, Join(id, other)) && id in c.info && other in c.info && i < |c.queues|
    requires c.info[other].expiry < c.info[id].expiry && FifoOk(c.info, c.now, t, c.queues[i])
    ensures var c' := Inherit(c, id, other); i < |c'.queues| && FifoOk(c'.info, c'.now, t, c'.queues[i])
  {
    hide InvBut, ByExpiry, Distinct, Without, InsertBehind;
    IsHere(c, {}, id);
    IsHere(c, {}, other);
    if i == c.attr[id].queue {
      DistinctFifo(c, i);
      InheritFifo(c.info, c.queues[i].fifo, id, other);
    } else {
      OwnFifo(c, i, id);
      ByExpirySame(c.info, Inherit(c, id, other).info, c.queues[i].fifo);
    }
  }

  lemma DistinctFifo(c: C, qi: nat)
    requires Inv(c) && qi < |c.queues|
    ensures Distinct(c.queues[qi].fifo)
  {
    hide Distinct, Ascending, Count;
    assert QueueOk(c.info, c.attr, qi, c.queues[qi], {});
  }

  lemma OwnFifo(c: C, qi: nat, id: nat)
    requires Inv(c) && qi < |c.queues| && id in c.attr && c.attr[id].queue != qi
    ensures id !in c.queues[qi].fifo
  {
    hide Distinct, Ascending, Count;
    assert QueueOk(c.info, c.attr, qi, c.queues[qi], {});
  }

  /** A request is put on a queue of its own kind, as `cfq_set_request` chooses it. */
  predicate OwnKind(c: C, a: Action) {
    a.Submit? && a.attr.queue < |c.queues| ==> a.attr.sync == c.queues[a.attr.queue].sync
  }

  lemma StepFifos(c: C, t: Tunables, a: Action)
    requires Inv(c) && Enabled(c, a) && OwnKind(c, a) && FifosOk(c, t)
    ensures FifosOk(Next(c, t, a), t)
  {
    hide InvBut, Insert, Reposition, Merge, DispatchInsert, Served, FifosOk, TreeAdd, Without;
    match a
    case Submit(id, pos, len, dir, attr, key) => InsertFifos(c, t, id, pos, len, dir, attr, key);
    case Front(id, pos, key) => RepositionFifos(c, t, id, pos, key);
    case Join(id, other) => MergeFifos(c, t, id, other);
    case Serve(qi, check) =>
      IsHere(c, {}, Served(c, qi, check));
      DispatchTakes(c, t, Served(c, qi, check));
      TakenKeep(c, DispatchInsert(c, t, Served(c, qi, check)), t, Served(c, qi, check));
    case NewGroup(sync, rt, idle) => NewGroupFifos(c, t, sync, rt, idle);
    case Resort(qi, key) =>
      ResortKeeps(c, qi, key);
      TreeAddFifos(c, qi, key);
      SameKeep(c, TreeAdd(c, qi, key), t);
    case Grow(id, len) =>
      IsHere(c, {}, id);
      SameTimes(c, Next(c, t, a), t);
    case Finish(id) =>
      CompleteKeeps(c, id);
      SameTimes(c, Next(c, t, a), t);
    case _ => SameTimes(c, Next(c, t, a), t);
  }

  lemma NewGroupFifos(c: C, t: Tunables, sync: bool, rt: bool, idle: bool)
    requires FifosOk(c, t)
    ensures FifosOk(NewQueue(c, sync, rt, idle), t)
  {}

  lemma TreeAddFifos(c: C, qi: nat, key: int)
    requires InRange(c.queues, c.tree) && qi < |c.queues|
    ensures SameFifos(c, TreeAdd(c, qi, key))
  {
    hide InsertQueue, Without;
  }

  // ----- requests and their attributes -----

  function Earlier(a: int, b: int): int { if a <= b then a else b }

  /** What a step leaves on the trees: a new request with what it was submitted with, a request merged in
      front at its new start, and one that absorbed another with the earlier of the two deadlines, the
      other being gone.  No other request changes. */
  ghost predicate Carried(c: C, c': C, t: Tunables, a: Action)
    requires Inv(c) && Enabled(c, a)
  {
    match a
    case Submit(id, pos, len, dir, attr, _) =>
      && OnTree(c', id) && c'.attr == c.attr[id := attr]
      && c'.info == c.info[id := Info(dir, pos, len, c.now + Expire(t, attr.sync))]
    case Grow(id, len) =>
      OnTree(c', id) && c'.attr == c.attr && id in c.info && c'.info == c.info[id := c.info[id].(len := len)]
    case Front(id, pos, _) =>
      OnTree(c', id) && c'.attr == c.attr && id in c.info && c'.info == c.info[id := c.info[id].(pos := pos)]
    case Join(id, other) =>
      && OnTree(c', id) && !OnTree(c', other) && c'.attr == c.attr && id in c.info && other in c.info
      && c'.info == c.info[id := c.info[id].(expiry := Earlier(c.info[id].expiry, c.info[other].expiry))]
    case _ => c'.info == c.info && c'.attr == c.attr
  }

  lemma LinkedOn(c: C, t: Tunables, id: nat, key: int)
    requires Linkable(c, id)
    ensures OnTree(Link(c, t, id, key), id)
  {
    hide InsertSorted, Choose, InsertQueue, Without;
  }

  lemma AppendOn(c: C, id: nat)
    requires id in c.attr && c.attr[id].queue < |c.queues| && OnTree(c, id)
    ensures OnTree(Append(c, id), id) && Append(c, id).info == c.info && Append(c, id).attr == c.attr
  {}

  lemma SubmitCarried(c: C, t: Tunables, a: Action)
    requires Inv(c) && Enabled(c, a) && a.Submit?
    ensures Carried(c, Next(c, t, a), t, a)
  {
    hide InvBut, Linkable, Link, MakeRoom, OnTree;
    var c0 := Arrive(c, t, a.id, a.pos, a.len, a.dir, a.attr);
    ArriveKeeps(c, t, a.id, a.pos, a.len, a.dir, a.attr);
    InsertReady(c, t, a.id, a.pos, a.len, a.dir, a.attr, a.key);
    MakeRoomKeeps(c0, t, a.id);
    var c1 := MakeRoom(c0, t, a.id);
    LinkFifos(c1, t, a.id, a.key);
    LinkedOn(c1, t, a.id, a.key);
    AppendOn(Link(c1, t, a.id, a.key), a.id);
  }

  lemma FrontCarried(c: C, t: Tunables, a: Action)
    requires Inv(c) && Enabled(c, a) && a.Front?
    ensures Carried(c, Next(c, t, a), t, a)
  {
    hide InvBut, Linkable, Link, MakeRoom;
    UnlinkKeeps(c, a.id, a.pos);
    var c0 := Unlink(c, a.id, a.pos);
    MakeRoomKeeps(c0, t, a.id);
    var c1 := MakeRoom(c0, t, a.id);
    LinkFifos(c1, t, a.id, a.key);
    LinkedOn(c1, t, a.id, a.key);
  }

  lemma JoinCarried(c: C, t: Tunables, a: Action)
    requires Inv(c) && Enabled(c, a) && a.Join?
    ensures Carried(c, Next(c, t, a), t, a)
  {
    hide InvBut, InvFor, Remove, Without, InsertBehind;
    InheritKeeps(c, a.id, a.other);
    var c1 := Inherit(c, a.id, a.other);
    LeavesFor(c1, t, {}, a.other);
    RemoveTakes(c1, t, a.other);
    RemoveSort(c1, t, a.other);
  }

  lemma RemoveSort(c: C, t: Tunables, id: nat)
    requires Here(c, id)
    ensures var c', qi := Remove(c, t, id), c.attr[id].queue;
            |c'.queues| == |c.queues| && c'.queues[qi].sort == Without(c.queues[qi].sort, id)
  {
    hide FindNext, Without;
  }

  lemma StepCarried(c: C, t: Tunables, a: Action)
    requires Inv(c) && Enabled(c, a)
    ensures Carried(c, Next(c, t, a), t, a)
  {
    hide InvBut, Insert, Reposition, Merge, DispatchInsert, Served, TreeAdd, Without;
    match a
    case Submit(_, _, _, _, _, _) => SubmitCarried(c, t, a);
    case Front(_, _, _) => FrontCarried(c, t, a);
    case Join(_, _) => JoinCarried(c, t, a);
    case Grow(id, _) => IsHere(c, {}, id);
    case Serve(qi, check) =>
      IsHere(c, {}, Served(c, qi, check));
      DispatchTakes(c, t, Served(c, qi, check));
    case Finish(id) => CompleteKeeps(c, id);
    case Resort(qi, key) =>
      ResortKeeps(c, qi, key);
      TreeAddFifos(c, qi, key);
    case _ =>
  }

  // ----- runs -----

  ghost predicate OwnKinds(c: C, t: Tunables, acts: seq<Action>)
    requires Inv(c) && CanRun(c, t, acts)
    decreases |acts|
  {
    |acts| == 0 ||
    (OwnKind(c, acts[0]) && (StepKeeps(c, t, acts[0]); OwnKinds(Next(c, t, acts[0]), t, acts[1..])))
  }

  lemma {:induction false} RunFifos(c: C, t: Tunables, acts: seq<Action>)
    requires Inv(c) && CanRun(c, t, acts) && OwnKinds(c, t, acts) && FifosOk(c, t)
    ensures Inv(Run(c, t, acts)) && FifosOk(Run(c, t, acts), t)
    decreases |acts|
  {
    hide InvBut, Enabled, Next, FifosOk, OwnKind;
    if |acts| > 0 {
      StepKeeps(c, t, acts[0]);
      StepFifos(c, t, acts[0]);
      RunFifos(Next(c, t, acts[0]), t, acts[1..]);
    }
  }

  /** A request whose time has come. */
  predicate Late(c: C, id: nat)
    requires id in c.info
  {
    c.now >= c.info[id].expiry
  }

  /** In every run from an empty scheduler that puts requests on queues of their own kind: a dispatch
      from a queue that looks at the FIFO takes a request whose time has come if there is one, and of
      those one with the earliest deadline; otherwise, and without that look, it takes the cached one. */
  lemma LateIsServed(now: int, t: Tunables, acts: seq<Action>, qi: nat, check: bool)
    requires Inv(Init(now)) && CanRun(Init(now), t, acts) && OwnKinds(Init(now), t, acts)
    requires var c := Run(Init(now), t, acts); qi < |c.queues| && |c.queues[qi].sort| > 0
    ensures var c := Run(Init(now), t, acts);
            && Inv(c) && Known(c.info, c.queues[qi].sort)
            && var id := Served(c, qi, check);
               var late := exists x :: x in c.queues[qi].sort && Late(c, x);
               && id in c.queues[qi].sort
               && if check && late then
                    Late(c, id) && forall x :: x in c.queues[qi].sort ==> c.info[id].expiry <= c.info[x].expiry
                  else c.queues[qi].next == Some(id)
  {
    hide CanRun, Run, OwnKinds, InvBut, FifosOk, Served;
    NoFifos(now, t);
    RunFifos(Init(now), t, acts);
    HeadIsServed(Run(Init(now), t, acts), t, qi, check);
  }

  lemma NoFifos(now: int, t: Tunables)
    ensures FifosOk(Init(now), t)
  {}

  lemma HeadIsServed(c: C, t: Tunables, qi: nat, check: bool)
    requires Inv(c) && FifosOk(c, t) && qi < |c.queues| && |c.queues[qi].sort| > 0
    ensures Known(c.info, c.queues[qi].sort)
    ensures var id := Served(c, qi, check);
            var late := exists x :: x in c.queues[qi].sort && Late(c, x);
            && id in c.queues[qi].sort
            && if check && late then
                 Late(c, id) && forall x :: x in c.queues[qi].sort ==> c.info[id].expiry <= c.info[x].expiry
               else c.queues[qi].next == Some(id)
  {
    hide Ascending, Distinct, Count, TreeOk, Total, FlightOk;
    var q := c.queues[qi];
    assert QueueOk(c.info, c.attr, qi, q, {}) && FifoOk(c.info, c.now, t, q);
    assert q.sort[0] in q.fifo;
    assert q.fifo[0] in q.fifo;
  }
}
