/** The CFQ invariant over whole runs, and forced dispatch. */
module CfqRuns {
  import opened Common
  import opened RequestLists
  import opened Cfq
  import opened CfqInvariant

  /** A request in `out` belongs to the queue. */
  ghost predicate Open(attr: Attrs, out: set<nat>, qi: nat) {
    exists x :: x in out && x in attr && attr[x].queue == qi
  }

  /** Lists, next request and membership of the service tree agree: a queue is busy exactly when it
      has requests, counting one that is just off its tree. */
  ghost predicate QueueOk(info: Infos, attr: Attrs, qi: nat, q: Cfqq, out: set<nat>) {
    && ListsOk(info, attr, qi, q, out) && NextOk(q)
    && (q.onRr ==> |q.sort| > 0 || Open(attr, out, qi))
  }

  /** The requests handed over are off the lists, once each, and counted. */
  ghost predicate FlightOk(attr: Attrs, queues: seq<Cfqq>, flight: seq<nat>, syncFlight: int) {
    && Distinct(flight)
    && (forall x :: x in flight ==> x in attr && attr[x].queue < |queues| && x !in queues[attr[x].queue].fifo)
    && (forall qi :: 0 <= qi < |queues| ==> queues[qi].dispatched == CountOf(attr, flight, qi))
    && syncFlight == CountFlight(attr, queues, flight)
  }

  ghost predicate OutOk(c: C, out: set<nat>) {
    forall x :: x in out ==> x in c.info && x in c.attr && c.attr[x].queue < |c.queues| && x !in c.flight
  }

  ghost predicate InvBut(c: C, out: set<nat>) {
    && (forall qi :: 0 <= qi < |c.queues| ==> QueueOk(c.info, c.attr, qi, c.queues[qi], out))
    && TreeOk(c.queues, c.tree, c.left, c.busy)
    && c.rqQueued == Total(c.queues) + |out|
    && FlightOk(c.attr, c.queues, c.flight, c.syncFlight)
    && OutOk(c, out)
  }

  ghost predicate Inv(c: C) { InvBut(c, {}) }

  predicate OnTree(c: C, id: nat) {
    id in c.attr && c.attr[id].queue < |c.queues| && id in c.queues[c.attr[id].queue].sort
  }

  /** The invariant while `id` is about to leave its queue. */
  ghost predicate InvFor(c: C, out: set<nat>, id: nat) {
    && OnTree(c, id)
    && (forall qi :: 0 <= qi < |c.queues| && qi != c.attr[id].queue ==> QueueOk(c.info, c.attr, qi, c.queues[qi], out))
    && ListsOk(c.info, c.attr, c.attr[id].queue, c.queues[c.attr[id].queue], out)
    && NextFor(c.queues[c.attr[id].queue], id)
    && TreeOk(c.queues, c.tree, c.left, c.busy)
    && c.rqQueued == Total(c.queues) + |out|
    && FlightOk(c.attr, c.queues, c.flight, c.syncFlight)
    && OutOk(c, out)
  }

  lemma IsHere(c: C, out: set<nat>, id: nat)
    requires InvBut(c, out) && OnTree(c, id)
    ensures Here(c, id) && id in c.queues[c.attr[id].queue].fifo
  {
    hide Count, Ascending, Distinct, TreeOk, FlightOk, Total;
    assert QueueOk(c.info, c.attr, c.attr[id].queue, c.queues[c.attr[id].queue], out);
  }

  /** A queue whose tree fields and FIFO do not grow leaves the flight as it is. */
  lemma FlightSame(attr: Attrs, queues: seq<Cfqq>, flight: seq<nat>, syncFlight: int, qi: nat, q: Cfqq)
    requires FlightOk(attr, queues, flight, syncFlight) && qi < |queues|
    requires q.sync == queues[qi].sync && q.dispatched == queues[qi].dispatched
    requires forall x :: x in q.fifo && x !in queues[qi].fifo ==> x !in flight
    ensures FlightOk(attr, queues[qi := q], flight, syncFlight)
  {
    hide Distinct;
    CountFlightSame(attr, queues, attr, queues[qi := q], flight);
  }

  lemma RemoveHere(c: C, t: Tunables, out: set<nat>, id: nat)
    requires InvFor(c, out, id)
    ensures Here(c, id)
    ensures var qi := c.attr[id].queue; var q := TakeOff(c, t, c.queues[qi], id);
            && ListsOk(c.info, c.attr, qi, q, out) && NextOk(q) && |q.sort| == |c.queues[qi].sort| - 1
            && TreeOk(c.queues[qi := q], c.tree, c.left, c.busy)
            && FlightOk(c.attr, c.queues[qi := q], c.flight, c.syncFlight)
            && Total(c.queues[qi := q]) == Total(c.queues) - 1
  {
    hide Count, Ascending, Distinct, TreeOk, FlightOk, Total, NextOk, NextFor, Without, FindNext;
    var qi := c.attr[id].queue;
    TakeOffOk(c, t, qi, c.queues[qi], out, id);
    var q := TakeOff(c, t, c.queues[qi], id);
    TreeSame(c.queues, c.tree, c.left, c.busy, qi, q);
    FlightSame(c.attr, c.queues, c.flight, c.syncFlight, qi, q);
    TotalUpdate(c.queues, qi, q);
  }

  /** Removing a request keeps everything; a queue that runs empty leaves the tree. */
  lemma RemoveKeeps(c: C, t: Tunables, out: set<nat>, id: nat)
    requires InvFor(c, out, id) && id !in out
    ensures Here(c, id) && InvBut(Remove(c, t, id), out)
  {
    hide ListsOk, TreeOk, FlightOk, Total, NextOk, NextFor, TakeOff;
    RemoveHere(c, t, out, id);
    var qi := c.attr[id].queue;
    var q := TakeOff(c, t, c.queues[qi], id);
    var c1 := c.(queues := c.queues[qi := q], rqQueued := c.rqQueued - 1);
    if q.onRr && |q.sort| == 0 {
      DelRrOk(c1, qi);
      var q' := q.(onRr := false);
      OffRr(c.info, c.attr, qi, q, out);
      FlightSame(c.attr, c1.queues, c.flight, c.syncFlight, qi, q');
      TotalUpdate(c1.queues, qi, q');
    }
  }

  lemma OffRr(info: Infos, attr: Attrs, qi: nat, q: Cfqq, out: set<nat>)
    requires ListsOk(info, attr, qi, q, out) && NextOk(q) && |q.sort| == 0
    ensures QueueOk(info, attr, qi, q.(onRr := false), out)
  {
    hide Pair, Count;
  }

  // ----- dispatching -----

  lemma LeavesFor(c: C, t: Tunables, out: set<nat>, id: nat)
    requires InvBut(c, out) && OnTree(c, id)
    ensures Here(c, id) && InvFor(c, out, id) && InvFor(Advance(c, t, id), out, id)
  {
    hide Count, Ascending, Distinct, TreeOk, FlightOk, Total, FindNext;
    IsHere(c, out, id);
    var qi := c.attr[id].queue;
    var q := c.queues[qi];
    assert QueueOk(c.info, c.attr, qi, q, out);
    FindNextOk(c, t, q.sort, id);
    var q' := q.(next := FindNext(c, t, q.sort, id));
    TreeSame(c.queues, c.tree, c.left, c.busy, qi, q');
    FlightSame(c.attr, c.queues, c.flight, c.syncFlight, qi, q');
    TotalUpdate(c.queues, qi, q');
  }

  lemma SendKeeps(c: C, out: set<nat>, id: nat)
    requires InvBut(c, out) && id in c.attr && c.attr[id].queue < |c.queues| && id !in out
    requires id !in c.queues[c.attr[id].queue].fifo && id !in c.flight
    ensures InvBut(Send(c, id), out)
  {
    hide Pair, Count, Distinct, TreeOk, Total, CountOf, CountFlight;
    var c', qi := Send(c, id), c.attr[id].queue;
    var q' := c.queues[qi].(dispatched := c.queues[qi].dispatched + 1);
    TreeSame(c.queues, c.tree, c.left, c.busy, qi, q');
    TotalUpdate(c.queues, qi, q');
    SendFlight(c, id);
    forall i | 0 <= i < |c'.queues| ensures QueueOk(c.info, c.attr, i, c'.queues[i], out) {
      assert QueueOk(c.info, c.attr, i, c.queues[i], out);
    }
  }

  lemma SendFlight(c: C, id: nat)
    requires FlightOk(c.attr, c.queues, c.flight, c.syncFlight) && id in c.attr && c.attr[id].queue < |c.queues|
    requires id !in c.queues[c.attr[id].queue].fifo && id !in c.flight
    ensures var c' := Send(c, id); FlightOk(c.attr, c'.queues, c'.flight, c'.syncFlight)
  {
    hide Distinct, CountOf, CountFlight;
    var c' := Send(c, id);
    AppendDistinct(c.flight, id);
    forall i | 0 <= i < |c'.queues| ensures c'.queues[i].dispatched == CountOf(c.attr, c'.flight, i) {
      CountOfSnoc(c.attr, c.flight, id, i);
    }
    CountFlightSame(c.attr, c.queues, c.attr, c'.queues, c.flight);
    CountFlightSnoc(c.attr, c'.queues, c.flight, id);
  }

  /** What removal leaves behind: the request is on no list, and nothing else has left or come. */
  lemma RemoveLeaves(c: C, t: Tunables, id: nat)
    requires Here(c, id)
    ensures var c', qi := Remove(c, t, id), c.attr[id].queue;
            && c'.attr == c.attr && c'.info == c.info && c'.flight == c.flight && |c'.queues| == |c.queues|
            && c'.now == c.now
            && c'.queues[qi].fifo == Without(c.queues[qi].fifo, id)
            && c'.queues[qi].sort == Without(c.queues[qi].sort, id)
            && forall i :: 0 <= i < |c.queues| && i != qi ==> c'.queues[i] == c.queues[i]
  {
    hide FindNext, Without;
  }

  /** A queued request moves to the dispatch list: it is in flight, counted, and on no list. */
  lemma NotOut(c: C, out: set<nat>, id: nat)
    requires InvBut(c, out) && OnTree(c, id)
    ensures id !in out && id !in c.flight
  {
    hide Count, Ascending, Distinct, TreeOk, Total, NextOk;
    assert QueueOk(c.info, c.attr, c.attr[id].queue, c.queues[c.attr[id].queue], out);
  }

  lemma DispatchKeeps(c: C, t: Tunables, out: set<nat>, id: nat)
    requires InvBut(c, out) && OnTree(c, id)
    ensures Here(c, id) && InvBut(DispatchInsert(c, t, id), out)
    ensures var c', qi := DispatchInsert(c, t, id), c.attr[id].queue;
            && c'.attr == c.attr && c'.info == c.info && c'.flight == c.flight + [id] && |c'.queues| == |c.queues|
            && c'.now == c.now
            && c'.queues[qi].fifo == Without(c.queues[qi].fifo, id)
            && c'.queues[qi].sort == Without(c.queues[qi].sort, id)
            && forall i :: 0 <= i < |c.queues| && i != qi ==> c'.queues[i] == c.queues[i]
  {
    hide InvBut, InvFor, Remove, Without, FindNext;
    IsHere(c, out, id);
    NotOut(c, out, id);
    LeavesFor(c, t, out, id);
    var c1 := Advance(c, t, id);
    RemoveKeeps(c1, t, out, id);
    RemoveLeaves(c1, t, id);
    SendKeeps(Remove(c1, t, id), out, id);
  }

  /** One dispatched alias is enough to make room. */
  lemma MakeRoomKeeps(c: C, t: Tunables, id: nat)
    requires InvBut(c, {id})
    ensures Here(c, id) && InvBut(MakeRoom(c, t, id), {id})
    ensures var c', qi := MakeRoom(c, t, id), c.attr[id].queue;
            && c'.info == c.info && c'.attr == c.attr && |c'.queues| == |c.queues| && c'.now == c.now
            && (id in c.queues[qi].fifo ==> id in c'.queues[qi].fifo)
            && (id !in c.queues[qi].fifo ==> id !in c'.queues[qi].fifo)
            && Linkable(c', id) && AtPos(c.info, c'.queues[qi].sort, c.info[id].pos).None?
  {
    hide Ascending, Distinct, Count, AtPos, DispatchInsert, TreeOk, Total, FlightOk;
    assert id in {id};
    var qi := c.attr[id].queue;
    var q := c.queues[qi];
    assert QueueOk(c.info, c.attr, qi, q, {id});
    PairKnown(c.info, c.attr, qi, q.sort, q.fifo, {id});
    var alias := AtPos(c.info, q.sort, c.info[id].pos);
    if alias.Some? {
      DispatchKeeps(c, t, {id}, alias.value);
      var rest := MakeRoom(c, t, id).queues[qi].sort;
      forall x | x in rest ensures c.info[x].pos != c.info[id].pos {
        if c.info[x].pos == c.info[id].pos { AscendingInjective(c.info, q.sort, x, alias.value); }
      }
    }
    RoomLinkable(MakeRoom(c, t, id), id);
  }

  lemma RoomLinkable(c: C, id: nat)
    requires InvBut(c, {id})
    ensures Linkable(c, id)
  {
    hide Ascending, Distinct, Count, TreeSorted, Total, FlightOk;
    assert id in {id};
    var qi := c.attr[id].queue;
    assert QueueOk(c.info, c.attr, qi, c.queues[qi], {id});
  }

  // ----- adding -----

  /** Every queue but the one of `id` is as it would be without a gap. */
  lemma OthersClosed(c: C, id: nat, qi: nat)
    requires InvBut(c, {id}) && id in c.attr && qi < |c.queues| && qi != c.attr[id].queue
    ensures QueueOk(c.info, c.attr, qi, c.queues[qi], {})
  {
    hide Ascending, Distinct, Count, TreeOk, Total, FlightOk;
    assert QueueOk(c.info, c.attr, qi, c.queues[qi], {id});
  }

  /** Linking the missing request closes the gap; its queue is busy afterwards. */
  lemma LinkKeeps(c: C, t: Tunables, id: nat, key: int)
    requires InvBut(c, {id}) && Linkable(c, id) && id in c.queues[c.attr[id].queue].fifo
    requires AtPos(c.info, c.queues[c.attr[id].queue].sort, c.info[id].pos).None?
    ensures Inv(Link(c, t, id, key))
  {
    hide Pair, Count, TreeOk, Total, FlightOk, AtPos, Choose, InsertSorted, NextOk, Open;
    var qi := c.attr[id].queue;
    var q := c.queues[qi];
    assert QueueOk(c.info, c.attr, qi, q, {id});
    PutOnOk(c, t, qi, q, id);
    var q1 := PutOn(c, t, q, id);
    var c1 := c.(queues := c.queues[qi := q1]);
    TreeSame(c.queues, c.tree, c.left, c.busy, qi, q1);
    FlightSame(c.attr, c.queues, c.flight, c.syncFlight, qi, q1);
    TotalUpdate(c.queues, qi, q1);
    forall i | 0 <= i < |c.queues| && i != qi ensures QueueOk(c.info, c.attr, i, c.queues[i], {}) {
      OthersClosed(c, id, i);
    }
    if !q.onRr { JoinsRr(c1, qi, key); }
  }

  /** A queue with requests that was not busy joins the service tree. */
  lemma JoinsRr(c: C, qi: nat, key: int)
    requires qi < |c.queues| && !c.queues[qi].onRr
    requires forall i :: 0 <= i < |c.queues| && i != qi ==> QueueOk(c.info, c.attr, i, c.queues[i], {})
    requires var q := c.queues[qi].(onRr := true); ListsOk(c.info, c.attr, qi, q, {}) && NextOk(q) && |q.sort| > 0
    requires TreeOk(c.queues, c.tree, c.left, c.busy) && c.rqQueued == Total(c.queues)
    requires FlightOk(c.attr, c.queues, c.flight, c.syncFlight)
    ensures InRange(c.queues, c.tree) && Inv(AddRr(c, qi, key))
  {
    hide ListsOk, TreeOk, Total, FlightOk, NextOk, TreeAdd;
    TreeInRange(c);
    AddRrOk(c, qi, key);
    var q := c.queues[qi].(key := key, onRr := true);
    FlightSame(c.attr, c.queues, c.flight, c.syncFlight, qi, q);
    TotalUpdate(c.queues, qi, q);
    KeyOnly(c.info, c.attr, qi, c.queues[qi].(onRr := true), key);
    TreeAddRest(c.(queues := c.queues[qi := c.queues[qi].(onRr := true)], busy := c.busy + 1), qi, key);
  }

  lemma TreeInRange(c: C)
    requires TreeOk(c.queues, c.tree, c.left, c.busy)
    ensures InRange(c.queues, c.tree)
  {}

  lemma KeyOnly(info: Infos, attr: Attrs, qi: nat, q: Cfqq, key: int)
    requires ListsOk(info, attr, qi, q, {}) && NextOk(q)
    ensures ListsOk(info, attr, qi, q.(key := key), {}) && NextOk(q.(key := key))
  {
    hide Pair, Count;
  }

  lemma PairSame(info: Infos, attr: Attrs, info': Infos, attr': Attrs, qi: nat, sort: seq<nat>, fifo: seq<nat>,
                 out: set<nat>)
    requires Pair(info, attr, qi, sort, fifo, out)
    requires Known(info', fifo) && KnownTo(attr', fifo)
    requires forall x :: x in sort ==> info'[x].pos == info[x].pos
    requires forall x :: x in fifo ==> attr'[x] == attr[x]
    ensures Pair(info', attr', qi, sort, fifo, out)
  {
    hide Ascending, Distinct;
    AscendingSame(info, info', sort);
  }

  lemma QueueSame(info: Infos, attr: Attrs, info': Infos, attr': Attrs, qi: nat, q: Cfqq, out: set<nat>, out': set<nat>)
    requires QueueOk(info, attr, qi, q, out)
    requires Known(info', q.fifo) && KnownTo(attr', q.fifo)
    requires forall x :: x in q.sort ==> info'[x].pos == info[x].pos
    requires forall x :: x in q.fifo ==> attr'[x] == attr[x] && (x in out <==> x in out')
    requires Open(attr, out, qi) ==> Open(attr', out', qi)
    ensures QueueOk(info', attr', qi, q, out')
  {
    PairKnown(info, attr, qi, q.sort, q.fifo, out);
    PairSame(info, attr, info', attr', qi, q.sort, q.fifo, out);
    CountSame(attr, attr', q.sort, true);
    CountSame(attr, attr', q.sort, false);
    hide Ascending, Distinct, Count, Open;
  }

  lemma FlightAttrs(attr: Attrs, attr': Attrs, queues: seq<Cfqq>, flight: seq<nat>, syncFlight: int)
    requires FlightOk(attr, queues, flight, syncFlight)
    requires forall x :: x in flight ==> x in attr' && attr'[x] == attr[x]
    ensures FlightOk(attr', queues, flight, syncFlight)
  {
    hide Distinct;
    CountFlightSame(attr, queues, attr', queues, flight);
    forall qi | 0 <= qi < |queues| ensures queues[qi].dispatched == CountOf(attr', flight, qi) {
      CountOfSame(attr, attr', flight, qi);
    }
  }

  lemma ArriveKeeps(c: C, t: Tunables, id: nat, pos: nat, len: nat, dir: Dir, attr: Attr)
    requires Inv(c) && id !in c.info && id !in c.attr && attr.queue < |c.queues|
    ensures InvBut(Arrive(c, t, id, pos, len, dir, attr), {id})
    ensures id !in c.queues[attr.queue].fifo
  {
    hide Ascending, Distinct, Count, TreeOk, Total, CountOf, CountFlight, NextOk;
    var c' := Arrive(c, t, id, pos, len, dir, attr);
    forall qi | 0 <= qi < |c.queues| ensures QueueOk(c'.info, c'.attr, qi, c.queues[qi], {id}) {
      assert QueueOk(c.info, c.attr, qi, c.queues[qi], {});
      QueueSame(c.info, c.attr, c'.info, c'.attr, qi, c.queues[qi], {}, {id});
    }
    assert QueueOk(c.info, c.attr, attr.queue, c.queues[attr.queue], {});
    FlightAttrs(c.attr, c'.attr, c.queues, c.flight, c.syncFlight);
  }

  lemma AppendKeeps(c: C, id: nat)
    requires InvBut(c, {id}) && Linkable(c, id) && id !in c.queues[c.attr[id].queue].fifo
    ensures InvBut(Append(c, id), {id}) && Linkable(Append(c, id), id)
    ensures var c', qi := Append(c, id), c.attr[id].queue;
            id in c'.queues[qi].fifo && c'.queues[qi].sort == c.queues[qi].sort
  {
    hide Ascending, Distinct, Count, TreeOk, Total, FlightOk;
    var qi := c.attr[id].queue;
    var q := c.queues[qi];
    var q' := q.(fifo := q.fifo + [id]);
    assert id in {id};
    assert QueueOk(c.info, c.attr, qi, q, {id});
    AppendDistinct(q.fifo, id);
    TreeSame(c.queues, c.tree, c.left, c.busy, qi, q');
    FlightSame(c.attr, c.queues, c.flight, c.syncFlight, qi, q');
    TotalUpdate(c.queues, qi, q');
    RoomLinkable(Append(c, id), id);
  }

  /** Appending to the FIFO and linking into the tree do not see each other. */
  lemma AppendLink(c: C, t: Tunables, id: nat, key: int)
    requires Linkable(c, id) && Linkable(Append(c, id), id) && InRange(c.queues, c.tree)
    ensures Append(Link(c, t, id, key), id) == Link(Append(c, id), t, id, key)
  {
    hide PutOn, AddRr;
    var qi := c.attr[id].queue;
    var q := c.queues[qi];
    var a := Append(c, id);
    AppendPutOn(c, t, id);
    var c1 := c.(queues := c.queues[qi := PutOn(c, t, q, id)]);
    var a1 := a.(queues := a.queues[qi := PutOn(a, t, a.queues[qi], id)]);
    assert a1 == Append(c1, id);
    if !q.onRr { AppendAddRr(c1, id, key); }
  }

  lemma AppendPutOn(c: C, t: Tunables, id: nat)
    requires Linkable(c, id) && Linkable(Append(c, id), id)
    ensures var q, a := c.queues[c.attr[id].queue], Append(c, id);
            var p := PutOn(c, t, q, id);
            p.fifo == q.fifo && PutOn(a, t, a.queues[c.attr[id].queue], id) == p.(fifo := q.fifo + [id])
  {
    hide InsertSorted, Choose;
    ChooseSame(c, Append(c, id), t, c.queues[c.attr[id].queue].next, Some(id));
  }

  lemma ChooseSame(c: C, d: C, t: Tunables, a: Option<nat>, b: Option<nat>)
    requires c.info == d.info && c.attr == d.attr && c.lastPos == d.lastPos
    requires a.Some? ==> a.value in c.info && a.value in c.attr
    requires b.Some? ==> b.value in c.info && b.value in c.attr
    ensures Choose(c, t, a, b) == Choose(d, t, a, b)
  {}

  lemma {:induction false} InsertSame(queues: seq<Cfqq>, queues': seq<Cfqq>, tree: seq<nat>, qi: nat, key: int)
    requires InRange(queues, tree) && InRange(queues', tree) && qi < |queues| == |queues'|
    requires forall i :: 0 <= i < |queues| ==> SameKeys(queues[i], queues'[i])
    ensures InsertQueue(queues, tree, qi, key) == InsertQueue(queues', tree, qi, key)
  {
    if |tree| > 0 {
      assert Exists(queues, tree[0]) && SameKeys(queues[tree[0]], queues'[tree[0]])
             && SameKeys(queues[qi], queues'[qi]);
      InsertSame(queues, queues', tree[1..], qi, key);
    }
  }

  lemma AppendAddRr(c: C, id: nat, key: int)
    requires id in c.attr && c.attr[id].queue < |c.queues| && InRange(c.queues, c.tree)
    ensures InRange(Append(c, id).queues, c.tree)
    ensures Append(AddRr(c, c.attr[id].queue, key), id) == AddRr(Append(c, id), c.attr[id].queue, key)
  {
    hide TreeAdd;
    var qi, a := c.attr[id].queue, Append(c, id);
    assert InRange(a.queues, c.tree) by { assert |a.queues| == |c.queues|; }
    var c1 := c.(queues := c.queues[qi := c.queues[qi].(onRr := true)], busy := c.busy + 1);
    var a1 := a.(queues := a.queues[qi := a.queues[qi].(onRr := true)], busy := a.busy + 1);
    AppendTreeAdd(c1, a1, qi, key);
    TreeAddRest(c1, qi, key);
    TreeAddRest(a1, qi, key);
    var q := TreeAdd(c1, qi, key).queues[qi];
    assert TreeAdd(a1, qi, key).queues == TreeAdd(c1, qi, key).queues[qi := q.(fifo := q.fifo + [id])];
  }

  lemma AppendTreeAdd(c: C, a: C, qi: nat, key: int)
    requires InRange(c.queues, c.tree) && qi < |c.queues| && a.tree == c.tree && a.left == c.left
             && |a.queues| == |c.queues|
    requires forall i :: 0 <= i < |c.queues| ==> SameKeys(c.queues[i], a.queues[i])
    ensures InRange(a.queues, a.tree)
    ensures TreeAdd(a, qi, key).tree == TreeAdd(c, qi, key).tree && TreeAdd(a, qi, key).left == TreeAdd(c, qi, key).left
    ensures TreeAdd(a, qi, key).queues == a.queues[qi := a.queues[qi].(key := key)]
    ensures TreeAdd(c, qi, key).queues == c.queues[qi := c.queues[qi].(key := key)]
  {
    hide InsertQueue, Without;
    assert InRange(a.queues, a.tree);
    assert SameKeys(c.queues[qi], a.queues[qi]);
    var rest := Without(c.tree, qi);
    assert InRange(c.queues, rest) && InRange(a.queues, rest);
    if qi !in c.tree {
      InsertSame(c.queues, a.queues, c.tree, qi, key);
    } else if key != c.queues[qi].key {
      InsertSame(c.queues, a.queues, rest, qi, key);
    }
  }

  /** `cfq_insert_request`: tree first, then FIFO. */
  ghost function Insert(c: C, t: Tunables, id: nat, pos: nat, len: nat, dir: Dir, attr: Attr, key: int): C
    requires Inv(c) && id !in c.info && id !in c.attr && attr.queue < |c.queues|
  {
    var c0 := Arrive(c, t, id, pos, len, dir, attr);
    InsertReady(c, t, id, pos, len, dir, attr, key);
    Append(Link(MakeRoom(c0, t, id), t, id, key), id)
  }

  lemma LinkQueues(c: C, t: Tunables, id: nat, key: int)
    requires Linkable(c, id)
    ensures |Link(c, t, id, key).queues| == |c.queues| && Link(c, t, id, key).attr == c.attr
  {
    hide InsertSorted, Choose, InsertQueue, Without;
  }

  lemma InsertReady(c: C, t: Tunables, id: nat, pos: nat, len: nat, dir: Dir, attr: Attr, key: int)
    requires Inv(c) && id !in c.info && id !in c.attr && attr.queue < |c.queues|
    ensures var c0 := Arrive(c, t, id, pos, len, dir, attr);
            && Here(c0, id) && Linkable(MakeRoom(c0, t, id), id)
            && var c1 := Link(MakeRoom(c0, t, id), t, id, key);
               id in c1.attr && c1.attr[id].queue < |c1.queues|
  {
    hide InvBut, Linkable, Link, MakeRoom, AtPos;
    var c0 := Arrive(c, t, id, pos, len, dir, attr);
    ArriveKeeps(c, t, id, pos, len, dir, attr);
    MakeRoomKeeps(c0, t, id);
    LinkQueues(MakeRoom(c0, t, id), t, id, key);
  }

  lemma InsertKeeps(c: C, t: Tunables, id: nat, pos: nat, len: nat, dir: Dir, attr: Attr, key: int)
    requires Inv(c) && id !in c.info && id !in c.attr && attr.queue < |c.queues|
    ensures Inv(Insert(c, t, id, pos, len, dir, attr, key))
  {
    hide InvBut, Linkable, Link, MakeRoom, AtPos;
    var c0 := Arrive(c, t, id, pos, len, dir, attr);
    ArriveKeeps(c, t, id, pos, len, dir, attr);
    MakeRoomKeeps(c0, t, id);
    var c1 := MakeRoom(c0, t, id);
    AppendKeeps(c1, id);
    LinkableRange(c1, id);
    AppendLink(c1, t, id, key);
    LinkKeeps(Append(c1, id), t, id, key);
  }

  lemma LinkableRange(c: C, id: nat)
    requires Linkable(c, id)
    ensures InRange(c.queues, c.tree) && Here(c, id)
  {}

  // ----- front merges -----

  lemma UnlinkKeeps(c: C, id: nat, pos: nat)
    requires Inv(c) && OnTree(c, id)
    ensures id in c.info && InvBut(Unlink(c, id, pos), {id})
    ensures id in Unlink(c, id, pos).queues[c.attr[id].queue].fifo
  {
    hide Ascending, Distinct, Count, TreeOk, Total, FlightOk, Without, NextOk;
    IsHere(c, {}, id);
    var qi := c.attr[id].queue;
    var q := c.queues[qi];
    var c' := Unlink(c, id, pos);
    UnlinkQueue(c, id, pos);
    TreeSame(c.queues, c.tree, c.left, c.busy, qi, c'.queues[qi]);
    FlightSame(c.attr, c.queues, c.flight, c.syncFlight, qi, c'.queues[qi]);
    TotalUpdate(c.queues, qi, c'.queues[qi]);
    assert id !in c.flight by { InFlightOff(c, id); }
    forall i | 0 <= i < |c.queues| && i != qi ensures QueueOk(c'.info, c.attr, i, c.queues[i], {id}) {
      assert QueueOk(c.info, c.attr, i, c.queues[i], {});
      QueueSame(c.info, c.attr, c'.info, c.attr, i, c.queues[i], {}, {id});
    }
  }

  lemma InFlightOff(c: C, id: nat)
    requires FlightOk(c.attr, c.queues, c.flight, c.syncFlight) && id in c.attr && c.attr[id].queue < |c.queues|
    requires id in c.queues[c.attr[id].queue].fifo
    ensures id !in c.flight
  {}

  lemma UnlinkQueue(c: C, id: nat, pos: nat)
    requires Inv(c) && OnTree(c, id) && id in c.info
    ensures var c', qi := Unlink(c, id, pos), c.attr[id].queue;
            && QueueOk(c'.info, c.attr, qi, c'.queues[qi], {id})
            && |c'.queues[qi].sort| == |c.queues[qi].sort| - 1 && c'.queues[qi].fifo == c.queues[qi].fifo
  {
    hide Ascending, Distinct, Count, TreeOk, Total, FlightOk, Without;
    var qi := c.attr[id].queue;
    var q := c.queues[qi];
    assert QueueOk(c.info, c.attr, qi, q, {});
    var c' := Unlink(c, id, pos);
    PairWithout(c.info, c.attr, qi, q.sort, q.fifo, {}, id);
    AscendingSame(c.info, c'.info, Without(q.sort, id));
    CountWithout(c.attr, q.sort, id, true);
    CountWithout(c.attr, q.sort, id, false);
    assert Open(c.attr, {id}, qi) by { assert id in {id}; }
  }

  /** `cfq_merged_request` after a front merge: the request is put in its new place. */
  ghost function Reposition(c: C, t: Tunables, id: nat, pos: nat, key: int): C
    requires Inv(c) && OnTree(c, id)
  {
    UnlinkKeeps(c, id, pos);
    MakeRoomKeeps(Unlink(c, id, pos), t, id);
    Link(MakeRoom(Unlink(c, id, pos), t, id), t, id, key)
  }

  lemma RepositionKeeps(c: C, t: Tunables, id: nat, pos: nat, key: int)
    requires Inv(c) && OnTree(c, id)
    ensures Inv(Reposition(c, t, id, pos, key))
  {
    hide InvBut, Link, MakeRoom, AtPos, Linkable;
    UnlinkKeeps(c, id, pos);
    MakeRoomKeeps(Unlink(c, id, pos), t, id);
    LinkKeeps(MakeRoom(Unlink(c, id, pos), t, id), t, id, key);
  }

  // ----- merges of two requests -----

  lemma InheritKeeps(c: C, id: nat, other: nat)
    requires Inv(c) && OnTree(c, id) && OnTree(c, other) && id != other && c.attr[id].queue == c.attr[other].queue
    ensures id in c.info && other in c.info && Inv(Inherit(c, id, other)) && OnTree(Inherit(c, id, other), other)
    ensures Inherit(c, id, other).queues[c.attr[id].queue].sort == c.queues[c.attr[id].queue].sort
  {
    hide Ascending, Distinct, Count, TreeOk, Total, FlightOk, Without, NextOk, InsertBehind;
    IsHere(c, {}, id);
    IsHere(c, {}, other);
    if c.info[other].expiry < c.info[id].expiry {
      var qi := c.attr[id].queue;
      var c' := Inherit(c, id, other);
      InheritQueue(c, id, other);
      TreeSame(c.queues, c.tree, c.left, c.busy, qi, c'.queues[qi]);
      FlightSame(c.attr, c.queues, c.flight, c.syncFlight, qi, c'.queues[qi]);
      TotalUpdate(c.queues, qi, c'.queues[qi]);
      forall i | 0 <= i < |c.queues| && i != qi ensures QueueOk(c'.info, c.attr, i, c.queues[i], {}) {
        assert QueueOk(c.info, c.attr, i, c.queues[i], {});
        QueueSame(c.info, c.attr, c'.info, c.attr, i, c.queues[i], {}, {});
      }
    }
  }

  lemma InheritQueue(c: C, id: nat, other: nat)
    requires Inv(c) && OnTree(c, id) && OnTree(c, other) && id != other && c.attr[id].queue == c.attr[other].queue
    requires id in c.info && other in c.info && c.info[other].expiry < c.info[id].expiry
    ensures var c', qi := Inherit(c, id, other), c.attr[id].queue;
            && QueueOk(c'.info, c.attr, qi, c'.queues[qi], {})
            && (forall x :: x in c'.queues[qi].fifo <==> x in c.queues[qi].fifo)
  {
    hide Ascending, Distinct, Count, TreeOk, Total, FlightOk, Without, InsertBehind;
    var qi := c.attr[id].queue;
    var q := c.queues[qi];
    assert QueueOk(c.info, c.attr, qi, q, {});
    var c' := Inherit(c, id, other);
    WithoutDistinct(q.fifo, id);
    BehindDistinct(Without(q.fifo, id), id, other);
    AscendingSame(c.info, c'.info, q.sort);
  }

  /** `cfq_merged_requests`: `other` goes away into `id`. */
  ghost function Merge(c: C, t: Tunables, id: nat, other: nat): C
    requires Inv(c) && OnTree(c, id) && OnTree(c, other) && id != other && c.attr[id].queue == c.attr[other].queue
  {
    InheritKeeps(c, id, other);
    LeavesFor(Inherit(c, id, other), t, {}, other);
    Remove(Inherit(c, id, other), t, other)
  }

  lemma MergeKeeps(c: C, t: Tunables, id: nat, other: nat)
    requires Inv(c) && OnTree(c, id) && OnTree(c, other) && id != other && c.attr[id].queue == c.attr[other].queue
    ensures Inv(Merge(c, t, id, other))
  {
    hide InvBut, InvFor, Remove, Inherit;
    InheritKeeps(c, id, other);
    LeavesFor(Inherit(c, id, other), t, {}, other);
    RemoveKeeps(Inherit(c, id, other), t, {}, other);
  }

  // ----- the rest -----

  lemma NewQueueKeeps(c: C, sync: bool, rt: bool, idle: bool)
    requires Inv(c)
    ensures Inv(NewQueue(c, sync, rt, idle))
  {
    hide QueueOk, Total, TreeOk, FlightOk;
    var c' := NewQueue(c, sync, rt, idle);
    var n := |c.queues|;
    TotalSnoc(c.queues, c'.queues[n]);
    NewQueueTree(c, c'.queues[n]);
    NewQueueFlight(c, c'.queues[n]);
    forall i | 0 <= i < |c'.queues| ensures QueueOk(c.info, c.attr, i, c'.queues[i], {}) {
      if i < n {
        assert QueueOk(c.info, c.attr, i, c.queues[i], {});
      } else {
        EmptyQueueOk(c.info, c.attr, i, c'.queues[i]);
      }
    }
  }

  lemma NewQueueTree(c: C, q: Cfqq)
    requires TreeOk(c.queues, c.tree, c.left, c.busy) && !q.onRr
    ensures TreeOk(c.queues + [q], c.tree, c.left, c.busy)
  {
    hide TreeSorted, Distinct;
    SortedSame(c.queues, c.queues + [q], c.tree);
  }

  lemma NewQueueFlight(c: C, q: Cfqq)
    requires FlightOk(c.attr, c.queues, c.flight, c.syncFlight) && q.dispatched == 0
    ensures FlightOk(c.attr, c.queues + [q], c.flight, c.syncFlight)
  {
    hide Distinct, CountOf, CountFlight;
    CountFlightSame(c.attr, c.queues, c.attr, c.queues + [q], c.flight);
    NoneOf(c.attr, c.flight, |c.queues|);
  }

  lemma EmptyQueueOk(info: Infos, attr: Attrs, qi: nat, q: Cfqq)
    requires q.sort == [] && q.fifo == [] && q.next == None && !q.onRr && q.queuedSync == 0 && q.queuedAsync == 0
    ensures QueueOk(info, attr, qi, q, {})
  {}

  lemma {:induction false} NoneOf(attr: Attrs, s: seq<nat>, qi: nat)
    requires forall x :: x in s ==> x in attr && attr[x].queue != qi
    ensures CountOf(attr, s, qi) == 0
  {
    if |s| > 0 { NoneOf(attr, s[1..], qi); }
  }

  lemma CompleteKeeps(c: C, id: nat)
    requires Inv(c) && id in c.flight
    ensures id in c.attr && c.attr[id].queue < |c.queues| && Inv(Complete(c, id))
  {
    hide Pair, Count, Distinct, TreeOk, Total, CountOf, CountFlight;
    var c', qi := Complete(c, id), c.attr[id].queue;
    TreeSame(c.queues, c.tree, c.left, c.busy, qi, c'.queues[qi]);
    TotalUpdate(c.queues, qi, c'.queues[qi]);
    WithoutDistinct(c.flight, id);
    CountFlightSame(c.attr, c.queues, c.attr, c'.queues, c.flight);
    CountFlightWithout(c.attr, c'.queues, c.flight, id);
    forall i | 0 <= i < |c'.queues|
      ensures QueueOk(c.info, c.attr, i, c'.queues[i], {}) && c'.queues[i].dispatched == CountOf(c.attr, c'.flight, i)
    {
      assert QueueOk(c.info, c.attr, i, c.queues[i], {});
      CountOfWithout(c.attr, c.flight, id, i);
    }
  }

  /** A busy queue gets a new place on the service tree. */
  lemma ResortKeeps(c: C, qi: nat, key: int)
    requires Inv(c) && qi < |c.queues| && c.queues[qi].onRr
    ensures InRange(c.queues, c.tree) && Inv(TreeAdd(c, qi, key))
  {
    hide Pair, Count, TreeSorted, Distinct, Total, FlightOk, TreeAdd;
    TreeAddOk(c, qi, key);
    var q' := c.queues[qi].(key := key);
    FlightSame(c.attr, c.queues, c.flight, c.syncFlight, qi, q');
    TotalUpdate(c.queues, qi, q');
    TreeAddRest(c, qi, key);
    forall i | 0 <= i < |c.queues| ensures QueueOk(c.info, c.attr, i, TreeAdd(c, qi, key).queues[i], {}) {
      assert QueueOk(c.info, c.attr, i, c.queues[i], {});
    }
  }

  lemma TreeAddRest(c: C, qi: nat, key: int)
    requires InRange(c.queues, c.tree) && qi < |c.queues|
    ensures var c' := TreeAdd(c, qi, key);
            && c'.info == c.info && c'.attr == c.attr && c'.rqQueued == c.rqQueued
            && c'.flight == c.flight && c'.syncFlight == c.syncFlight
            && c'.busy == c.busy && c'.lastPos == c.lastPos && c'.now == c.now
  {
    hide InsertQueue, Without;
  }

  /** The queue the cache or the tree gives is the one to serve first. */
  lemma FirstKeeps(c: C)
    requires Inv(c)
    ensures Inv(First(c))
    ensures First(c).left == if |c.tree| > 0 then Some(c.tree[0]) else None
  {
    hide QueueOk, TreeSorted, Distinct, Total, FlightOk;
  }

  // ----- runs -----

  datatype Action =
    | Tick(delta: nat)
    | NewGroup(sync: bool, rt: bool, idle: bool)
    | Submit(id: nat, pos: nat, len: nat, dir: Dir, attr: Attr, key: int)
    | Grow(id: nat, len: nat)
    | Front(id: nat, pos: nat, key: int)
    | Join(id: nat, other: nat)
    | Serve(qi: nat, check: bool)
    | Finish(id: nat)
    | Resort(qi: nat, key: int)
    | Peek
    | Seek(pos: nat)

  predicate Enabled(c: C, a: Action) {
    match a
    case Submit(id, _, _, _, attr, _) => id !in c.info && id !in c.attr && attr.queue < |c.queues|
    case Grow(id, _) => OnTree(c, id)
    case Front(id, _, _) => OnTree(c, id)
    case Join(id, other) => OnTree(c, id) && OnTree(c, other) && id != other && c.attr[id].queue == c.attr[other].queue
    case Serve(qi, _) => qi < |c.queues| && |c.queues[qi].sort| > 0
    case Finish(id) => id in c.flight
    case Resort(qi, _) => qi < |c.queues| && c.queues[qi].onRr
    case _ => true
  }

  /** `cfq_dispatch_request`: the oldest request if the FIFO is looked at and its time has come, the
      cached next one otherwise. */
  ghost function Served(c: C, qi: nat, check: bool): (id: nat)
    requires Inv(c) && qi < |c.queues| && |c.queues[qi].sort| > 0
    ensures OnTree(c, id) && c.attr[id].queue == qi
  {
    assert QueueOk(c.info, c.attr, qi, c.queues[qi], {});
    assert c.queues[qi].sort[0] in c.queues[qi].fifo;
    var q := c.queues[qi];
    if check && c.now >= c.info[q.fifo[0]].expiry then q.fifo[0] else q.next.value
  }

  ghost function Next(c: C, t: Tunables, a: Action): C
    requires Inv(c) && Enabled(c, a)
  {
    match a
    case Tick(delta) => c.(now := c.now + delta)
    case NewGroup(sync, rt, idle) => NewQueue(c, sync, rt, idle)
    case Submit(id, pos, len, dir, attr, key) => Insert(c, t, id, pos, len, dir, attr, key)
    case Grow(id, len) => IsHere(c, {}, id); c.(info := c.info[id := c.info[id].(len := len)])
    case Front(id, pos, key) => Reposition(c, t, id, pos, key)
    case Join(id, other) => Merge(c, t, id, other)
    case Serve(qi, check) => IsHere(c, {}, Served(c, qi, check)); DispatchInsert(c, t, Served(c, qi, check))
    case Finish(id) => CompleteKeeps(c, id); Complete(c, id)
    case Resort(qi, key) => ResortKeeps(c, qi, key); TreeAdd(c, qi, key)
    case Peek => First(c)
    case Seek(pos) => c.(lastPos := pos)
  }

  lemma GrowKeeps(c: C, id: nat, len: nat)
    requires Inv(c) && OnTree(c, id) && id in c.info
    ensures Inv(c.(info := c.info[id := c.info[id].(len := len)]))
  {
    hide Ascending, Distinct, Count, TreeOk, Total, FlightOk, NextOk;
    var info := c.info[id := c.info[id].(len := len)];
    forall i | 0 <= i < |c.queues| ensures QueueOk(info, c.attr, i, c.queues[i], {}) {
      assert QueueOk(c.info, c.attr, i, c.queues[i], {});
      QueueSame(c.info, c.attr, info, c.attr, i, c.queues[i], {}, {});
    }
  }

  lemma StepKeeps(c: C, t: Tunables, a: Action)
    requires Inv(c) && Enabled(c, a)
    ensures Inv(Next(c, t, a))
  {
    hide InvBut, Insert, Reposition, Merge, DispatchInsert, Served, Complete, TreeAdd, First, NewQueue;
    match a
    case Tick(delta) => AsideKeeps(c, c.now + delta, c.lastPos);
    case NewGroup(sync, rt, idle) => NewQueueKeeps(c, sync, rt, idle);
    case Submit(id, pos, len, dir, attr, key) => InsertKeeps(c, t, id, pos, len, dir, attr, key);
    case Grow(id, len) =>
      IsHere(c, {}, id);
      GrowKeeps(c, id, len);
    case Front(id, pos, key) => RepositionKeeps(c, t, id, pos, key);
    case Join(id, other) => MergeKeeps(c, t, id, other);
    case Serve(qi, check) => DispatchKeeps(c, t, {}, Served(c, qi, check));
    case Finish(id) => CompleteKeeps(c, id);
    case Resort(qi, key) => ResortKeeps(c, qi, key);
    case Peek => FirstKeeps(c);
    case Seek(pos) => AsideKeeps(c, c.now, pos);
  }

  lemma AsideKeeps(c: C, now: int, pos: nat)
    requires Inv(c)
    ensures Inv(c.(now := now, lastPos := pos))
  {
    hide QueueOk, TreeOk, Total, FlightOk;
  }

  ghost predicate CanRun(c: C, t: Tunables, acts: seq<Action>)
    requires Inv(c)
    decreases |acts|
  {
    |acts| == 0 || (Enabled(c, acts[0]) && (StepKeeps(c, t, acts[0]); CanRun(Next(c, t, acts[0]), t, acts[1..])))
  }

  ghost function Run(c: C, t: Tunables, acts: seq<Action>): C
    requires Inv(c) && CanRun(c, t, acts)
    decreases |acts|
  {
    if |acts| == 0 then c else (StepKeeps(c, t, acts[0]); Run(Next(c, t, acts[0]), t, acts[1..]))
  }

  lemma InitInv(now: int)
    ensures Inv(Init(now))
  {}

  /** In every state of every run: a queue is on the service tree iff it is marked busy iff its tree
      is not empty iff it has a next request; FIFO and tree hold the same requests; the counters
      equal what they count; and the cached first queue is the first. */
  lemma {:induction false} AlwaysAgrees(c: C, t: Tunables, acts: seq<Action>)
    requires Inv(c) && CanRun(c, t, acts)
    ensures Agrees(Run(c, t, acts))
    decreases |acts|
  {
    hide InvBut, Enabled, Next, Agrees;
    if |acts| == 0 {
      InvAgrees(c);
    } else {
      StepKeeps(c, t, acts[0]);
      AlwaysAgrees(Next(c, t, acts[0]), t, acts[1..]);
    }
  }

  ghost predicate Agrees(c: C) {
    && (forall qi: nat :: qi < |c.queues| ==>
          var q := c.queues[qi];
          && (qi in c.tree <==> q.onRr) && (q.onRr <==> |q.sort| > 0) && (|q.sort| > 0 <==> q.next.Some?)
          && (q.next.Some? ==> q.next.value in q.sort)
          && (forall x :: x in q.sort <==> x in q.fifo)
          && q.queuedSync == Count(c.attr, q.sort, true) && q.queuedAsync == Count(c.attr, q.sort, false)
          && q.dispatched == CountOf(c.attr, c.flight, qi))
    && c.busy == |c.tree| && Distinct(c.tree)
    && c.rqQueued == Total(c.queues)
    && c.syncFlight == CountFlight(c.attr, c.queues, c.flight)
    && (c.left.Some? ==> |c.tree| > 0 && c.left.value == c.tree[0])
  }

  lemma InvAgrees(c: C)
    requires Inv(c)
    ensures Agrees(c)
  {
    hide Ascending, Distinct, Count, CountOf, CountFlight, Total, TreeSorted;
    forall qi: nat | qi < |c.queues|
      ensures var q := c.queues[qi];
              && (q.onRr <==> |q.sort| > 0) && (|q.sort| > 0 <==> q.next.Some?)
              && (q.next.Some? ==> q.next.value in q.sort)
              && (forall x :: x in q.sort <==> x in q.fifo)
    {
      assert QueueOk(c.info, c.attr, qi, c.queues[qi], {});
    }
  }

  // ----- order and conservation -----

  /** A preempting queue, put in front of the first key, is the next to be served, unless the first
      queue is of a better class. */
  lemma PreemptsFirst(c: C, qi: nat, ahead: nat)
    requires Inv(c) && qi < |c.queues| && c.queues[qi].onRr && |c.tree| > 0 && ahead > 0
    ensures InRange(c.queues, c.tree) && Exists(c.queues, c.tree[0])
    ensures var h, q := c.queues[c.tree[0]], c.queues[qi];
            (h.rt ==> q.rt) && (q.idle ==> h.idle || (q.rt && !h.rt)) ==>
              First(TreeAdd(c, qi, h.key - ahead)).left == Some(qi)
  {
    hide InvBut, InRange, TreeAdd, First, GoesLeft;
    FirstExists(c);
    var h, q, key := c.queues[c.tree[0]], c.queues[qi], c.queues[c.tree[0]].key - ahead;
    if (h.rt ==> q.rt) && (q.idle ==> h.idle || (q.rt && !h.rt)) {
      Overtakes(q, h, ahead);
      PreemptsTree(c, qi, key);
      ResortKeeps(c, qi, key);
      FirstKeeps(TreeAdd(c, qi, key));
    }
  }

  lemma Overtakes(q: Cfqq, h: Cfqq, ahead: nat)
    requires ahead > 0 && (h.rt ==> q.rt) && (q.idle ==> h.idle || (q.rt && !h.rt))
    ensures GoesLeft(q, h.key - ahead, h)
  {}

  lemma FirstExists(c: C)
    requires Inv(c) && |c.tree| > 0
    ensures InRange(c.queues, c.tree) && Exists(c.queues, c.tree[0])
  {
    hide QueueOk, Distinct, Total, FlightOk, TreeSorted;
    assert c.tree[0] in c.tree;
  }

  lemma PreemptsTree(c: C, qi: nat, key: int)
    requires Inv(c) && qi < |c.queues| && c.queues[qi].onRr && |c.tree| > 0
    requires Exists(c.queues, c.tree[0]) && GoesLeft(c.queues[qi], key, c.queues[c.tree[0]])
    ensures InRange(c.queues, c.tree) && |TreeAdd(c, qi, key).tree| > 0 && TreeAdd(c, qi, key).tree[0] == qi
  {
    hide QueueOk, Distinct, Total, FlightOk;
    assert qi in c.tree;
    var rest := Without(c.tree, qi);
    if c.tree[0] == qi {
      if |rest| > 0 {
        assert rest[0] in rest;
        assert rest[0] in c.tree[1..];
        LeftOfLater(c.queues[qi], key, c.queues[rest[0]]);
      }
    } else {
      assert rest[0] == c.tree[0];
    }
  }

  lemma LeftOfLater(q: Cfqq, key: int, o: Cfqq)
    requires GoesLeft(q, key, q) && !GoesLeft(o, o.key, q)
    ensures GoesLeft(q, key, o)
  {}

  /** Everything queued, queue by queue. */
  ghost function AllQueued(queues: seq<Cfqq>): multiset<nat> {
    if |queues| == 0 then multiset{} else multiset(queues[0].sort) + AllQueued(queues[1..])
  }

  ghost function Holding(c: C): multiset<nat> { multiset(c.flight) + AllQueued(c.queues) }

  lemma {:induction false} AllQueuedUpdate(queues: seq<Cfqq>, qi: nat, q: Cfqq)
    requires qi < |queues|
    ensures AllQueued(queues[qi := q]) + multiset(queues[qi].sort) == AllQueued(queues) + multiset(q.sort)
  {
    if qi == 0 {
      assert queues[qi := q][1..] == queues[1..];
      Swap(multiset(q.sort), AllQueued(queues[1..]), multiset(queues[0].sort));
    } else {
      assert queues[qi := q][1..] == queues[1..][qi - 1 := q] && queues[1..][qi - 1] == queues[qi];
      AllQueuedUpdate(queues[1..], qi - 1, q);
      var m, a, b := multiset(queues[0].sort), AllQueued(queues[1..]), AllQueued(queues[1..][qi - 1 := q]);
      assert AllQueued(queues) == m + a && AllQueued(queues[qi := q]) == m + b;
      Shift(m, a, b, multiset(queues[qi].sort), multiset(q.sort));
    }
  }

  lemma Swap(a: multiset<nat>, b: multiset<nat>, c: multiset<nat>)
    ensures (a + b) + c == (c + b) + a
  {}

  lemma Shift(m: multiset<nat>, a: multiset<nat>, b: multiset<nat>, x: multiset<nat>, y: multiset<nat>)
    requires b + x == a + y
    ensures (m + b) + x == (m + a) + y
  {
    assert (m + b) + x == m + (b + x) && (m + a) + y == m + (a + y);
  }

  /** Dispatching neither loses nor repeats a request. */
  lemma DispatchConserves(c: C, t: Tunables, id: nat)
    requires Inv(c) && OnTree(c, id)
    ensures Here(c, id) && Holding(DispatchInsert(c, t, id)) == Holding(c)
    ensures Total(DispatchInsert(c, t, id).queues) == Total(c.queues) - 1
  {
    hide Ascending, Distinct, Count, TreeOk, Total, FlightOk, Without, AllQueued, DispatchInsert;
    DispatchKeeps(c, t, {}, id);
    var qi := c.attr[id].queue;
    var q := c.queues[qi];
    assert QueueOk(c.info, c.attr, qi, q, {});
    AscendingDistinct(c.info, q.sort);
    WithoutMultiset(q.sort, id);
    WithoutDistinct(q.sort, id);
    var c' := DispatchInsert(c, t, id);
    assert c'.queues == c.queues[qi := c'.queues[qi]];
    AllQueuedUpdate(c.queues, qi, c'.queues[qi]);
    TotalUpdate(c.queues, qi, c'.queues[qi]);
    Cancel(AllQueued(c'.queues), AllQueued(c.queues), multiset(Without(q.sort, id)), id);
  }

  lemma Cancel(a: multiset<nat>, b: multiset<nat>, m: multiset<nat>, id: nat)
    requires a + (m + multiset{id}) == b + m
    ensures a + multiset{id} == b
  {
    forall x ensures (a + multiset{id})[x] == b[x] {
      assert (a + (m + multiset{id}))[x] == (b + m)[x];
    }
  }

  lemma {:induction false} NothingQueued(queues: seq<Cfqq>)
    requires forall i :: 0 <= i < |queues| ==> queues[i].sort == []
    ensures AllQueued(queues) == multiset{} && Total(queues) == 0
  {
    if |queues| > 0 { NothingQueued(queues[1..]); }
  }
}
