/** What every operation of the CFQ scheduler keeps: the lists of a queue agree with each other and
    with its place on the service tree, the cached first node is the first, and every counter equals
    what it counts. */
module CfqInvariant {
  import opened Common
  import opened RequestLists
  import opened Cfq

  // ----- counting -----

  /** How many requests of `s` are sync (or are not). */
  function Count(attr: Attrs, s: seq<nat>, sync: bool): nat {
    if |s| == 0 then 0
    else (if s[0] in attr && attr[s[0]].sync == sync then 1 else 0) + Count(attr, s[1..], sync)
  }

  /** How many requests of `s` belong to the queue `qi`. */
  function CountOf(attr: Attrs, s: seq<nat>, qi: nat): nat {
    if |s| == 0 then 0
    else (if s[0] in attr && attr[s[0]].queue == qi then 1 else 0) + CountOf(attr, s[1..], qi)
  }

  predicate FromSync(attr: Attrs, queues: seq<Cfqq>, id: nat) {
    id in attr && attr[id].queue < |queues| && queues[attr[id].queue].sync
  }

  /** How many requests of `s` come from sync queues. */
  function CountFlight(attr: Attrs, queues: seq<Cfqq>, s: seq<nat>): nat {
    if |s| == 0 then 0
    else (if FromSync(attr, queues, s[0]) then 1 else 0) + CountFlight(attr, queues, s[1..])
  }

  function Total(queues: seq<Cfqq>): nat {
    if |queues| == 0 then 0 else |queues[0].sort| + Total(queues[1..])
  }

  lemma {:induction false} CountWithout(attr: Attrs, s: seq<nat>, id: nat, sync: bool)
    requires Distinct(s) && id in s && id in attr
    ensures Count(attr, Without(s, id), sync) == Count(attr, s, sync) - (if attr[id].sync == sync then 1 else 0)
  {
    if s[0] == id {
      WithoutAbsent(s[1..], id);
    } else {
      CountWithout(attr, s[1..], id, sync);
      assert Without(s, id)[1..] == Without(s[1..], id);
    }
  }

  lemma {:induction false} CountInsert(attr: Attrs, info: Infos, s: seq<nat>, id: nat, pos: nat, sync: bool)
    requires Known(info, s) && id in attr
    ensures Count(attr, InsertSorted(info, s, id, pos), sync) ==
            Count(attr, s, sync) + (if attr[id].sync == sync then 1 else 0)
  {
    if |s| > 0 {
      var r := InsertSorted(info, s, id, pos);
      if pos < info[s[0]].pos {
        assert r[1..] == s;
      } else {
        CountInsert(attr, info, s[1..], id, pos, sync);
        assert r[1..] == InsertSorted(info, s[1..], id, pos);
      }
    }
  }

  lemma {:induction false} CountSame(attr: Attrs, other: Attrs, s: seq<nat>, sync: bool)
    requires forall x :: x in s ==> x in attr && x in other && attr[x] == other[x]
    ensures Count(attr, s, sync) == Count(other, s, sync)
  {
    if |s| > 0 { CountSame(attr, other, s[1..], sync); }
  }

  lemma {:induction false} CountOfSame(attr: Attrs, other: Attrs, s: seq<nat>, qi: nat)
    requires forall x :: x in s ==> x in attr && x in other && attr[x] == other[x]
    ensures CountOf(attr, s, qi) == CountOf(other, s, qi)
  {
    if |s| > 0 { CountOfSame(attr, other, s[1..], qi); }
  }

  lemma {:induction false} CountOfSnoc(attr: Attrs, s: seq<nat>, id: nat, qi: nat)
    requires id in attr
    ensures CountOf(attr, s + [id], qi) == CountOf(attr, s, qi) + (if attr[id].queue == qi then 1 else 0)
  {
    if |s| > 0 {
      assert (s + [id])[1..] == s[1..] + [id];
      CountOfSnoc(attr, s[1..], id, qi);
    }
  }

  lemma {:induction false} CountOfWithout(attr: Attrs, s: seq<nat>, id: nat, qi: nat)
    requires Distinct(s) && id in s && id in attr
    ensures CountOf(attr, Without(s, id), qi) == CountOf(attr, s, qi) - (if attr[id].queue == qi then 1 else 0)
  {
    if s[0] == id {
      WithoutAbsent(s[1..], id);
    } else {
      CountOfWithout(attr, s[1..], id, qi);
      assert Without(s, id)[1..] == Without(s[1..], id);
    }
  }

  predicate SameSync(attr: Attrs, queues: seq<Cfqq>, other: Attrs, queues': seq<Cfqq>, s: seq<nat>) {
    forall x :: x in s ==> FromSync(attr, queues, x) == FromSync(other, queues', x)
  }

  lemma {:induction false} CountFlightSame(attr: Attrs, queues: seq<Cfqq>, other: Attrs, queues': seq<Cfqq>,
                                           s: seq<nat>)
    requires SameSync(attr, queues, other, queues', s)
    ensures CountFlight(attr, queues, s) == CountFlight(other, queues', s)
  {
    if |s| > 0 { CountFlightSame(attr, queues, other, queues', s[1..]); }
  }

  lemma {:induction false} CountFlightSnoc(attr: Attrs, queues: seq<Cfqq>, s: seq<nat>, id: nat)
    ensures CountFlight(attr, queues, s + [id]) ==
            CountFlight(attr, queues, s) + (if FromSync(attr, queues, id) then 1 else 0)
  {
    if |s| > 0 {
      assert (s + [id])[1..] == s[1..] + [id];
      CountFlightSnoc(attr, queues, s[1..], id);
    }
  }

  lemma {:induction false} CountFlightWithout(attr: Attrs, queues: seq<Cfqq>, s: seq<nat>, id: nat)
    requires Distinct(s) && id in s
    ensures CountFlight(attr, queues, Without(s, id)) ==
            CountFlight(attr, queues, s) - (if FromSync(attr, queues, id) then 1 else 0)
  {
    if s[0] == id {
      WithoutAbsent(s[1..], id);
    } else {
      CountFlightWithout(attr, queues, s[1..], id);
      assert Without(s, id)[1..] == Without(s[1..], id);
    }
  }

  lemma {:induction false} TotalUpdate(queues: seq<Cfqq>, qi: nat, q: Cfqq)
    requires qi < |queues|
    ensures Total(queues[qi := q]) == Total(queues) - |queues[qi].sort| + |q.sort|
  {
    if qi == 0 {
      assert queues[qi := q][1..] == queues[1..];
    } else {
      assert queues[qi := q][1..] == queues[1..][qi - 1 := q];
      TotalUpdate(queues[1..], qi - 1, q);
    }
  }

  lemma {:induction false} TotalSnoc(queues: seq<Cfqq>, q: Cfqq)
    ensures Total(queues + [q]) == Total(queues) + |q.sort|
  {
    if |queues| > 0 {
      assert (queues + [q])[1..] == queues[1..] + [q];
      TotalSnoc(queues[1..], q);
    }
  }

  // ----- one queue -----

  /** Tree and FIFO of a queue; the requests in `out` are missing from the tree. */
  ghost predicate Pair(info: Infos, attr: Attrs, qi: nat, sort: seq<nat>, fifo: seq<nat>, out: set<nat>) {
    && Known(info, sort) && Known(info, fifo) && OwnedBy(attr, fifo, qi)
    && (forall x :: x in sort <==> x in fifo && x !in out)
    && Ascending(info, sort) && Distinct(fifo)
  }

  ghost predicate ListsOk(info: Infos, attr: Attrs, qi: nat, q: Cfqq, out: set<nat>) {
    && Pair(info, attr, qi, q.sort, q.fifo, out)
    && q.queuedSync == Count(attr, q.sort, true) && q.queuedAsync == Count(attr, q.sort, false)
    && (|q.sort| > 0 ==> q.onRr)
  }

  lemma PairWithout(info: Infos, attr: Attrs, qi: nat, sort: seq<nat>, fifo: seq<nat>, out: set<nat>, id: nat)
    requires Pair(info, attr, qi, sort, fifo, out) && id in sort
    ensures Pair(info, attr, qi, Without(sort, id), Without(fifo, id), out)
    ensures |Without(sort, id)| == |sort| - 1 && Distinct(sort)
  {
    hide Ascending, Distinct, Without;
    AscendingDistinct(info, sort);
    WithoutAscending(info, sort, id);
    WithoutDistinct(sort, id);
    WithoutDistinct(fifo, id);
  }

  lemma PairKnown(info: Infos, attr: Attrs, qi: nat, sort: seq<nat>, fifo: seq<nat>, out: set<nat>)
    requires Pair(info, attr, qi, sort, fifo, out)
    ensures Known(info, sort) && Known(info, fifo) && KnownTo(attr, sort) && KnownTo(attr, fifo)
    ensures OwnedBy(attr, sort, qi) && OwnedBy(attr, fifo, qi)
  {}

  lemma PairInsert(info: Infos, attr: Attrs, qi: nat, sort: seq<nat>, fifo: seq<nat>, id: nat)
    requires Pair(info, attr, qi, sort, fifo, {id}) && id in info && id in fifo
    requires forall x :: x in sort ==> info[x].pos != info[id].pos
    ensures Pair(info, attr, qi, InsertSorted(info, sort, id, info[id].pos), fifo, {})
  {
    hide Ascending, Distinct, InsertSorted;
    InsertAscending(info, sort, id);
  }

  /** The cached next request is on the FIFO, and set whenever the tree is not empty. */
  predicate NextOk(q: Cfqq) {
    (q.next.Some? ==> q.next.value in q.fifo) && (|q.sort| > 0 ==> q.next.Some?)
  }

  /** The same up to the request `id`, which is about to leave. */
  predicate NextFor(q: Cfqq, id: nat) {
    q.next == Some(id) || ((q.next.Some? ==> q.next.value in q.fifo) && (|q.sort| > 1 ==> q.next.Some?))
  }

  lemma FindNextOk(c: C, t: Tunables, s: seq<nat>, id: nat)
    requires Known(c.info, s) && KnownTo(c.attr, s) && Ascending(c.info, s) && id in s
    ensures var r := FindNext(c, t, s, id);
            (r.Some? ==> r.value in s && r.value != id) && (r.None? <==> |s| == 1)
  {
    LatterIsSuccessor(c.info, s, id);
    AscendingDistinct(c.info, s);
    if |s| > 1 { FormerOrLatter(s, id); }
  }

  lemma {:induction false} FormerOrLatter(s: seq<nat>, id: nat)
    requires id in s && |s| > 1 && Distinct(s)
    ensures Latter(s, id).Some? || Former(s, id).Some?
  {
    if s[0] != id && s[1] != id { FormerOrLatter(s[1..], id); }
  }

  lemma TakeOffNext(c: C, t: Tunables, qi: nat, q: Cfqq, out: set<nat>, id: nat)
    requires Pair(c.info, c.attr, qi, q.sort, q.fifo, out) && NextFor(q, id) && id in q.sort && id in c.attr
    ensures KnownTo(c.attr, q.sort) && NextOk(TakeOff(c, t, q, id))
  {
    hide Ascending, Distinct, Without, FindNext, Count;
    PairWithout(c.info, c.attr, qi, q.sort, q.fifo, out, id);
    FindNextOk(c, t, q.sort, id);
  }

  lemma TakeOffOk(c: C, t: Tunables, qi: nat, q: Cfqq, out: set<nat>, id: nat)
    requires ListsOk(c.info, c.attr, qi, q, out) && NextFor(q, id) && id in q.sort
    ensures KnownTo(c.attr, q.sort) && id in c.attr
    ensures ListsOk(c.info, c.attr, qi, TakeOff(c, t, q, id), out) && NextOk(TakeOff(c, t, q, id))
    ensures |TakeOff(c, t, q, id).sort| == |q.sort| - 1
  {
    hide Pair, Distinct, Without, FindNext, Count, NextOk, NextFor;
    PairKnown(c.info, c.attr, qi, q.sort, q.fifo, out);
    TakeOffNext(c, t, qi, q, out, id);
    PairWithout(c.info, c.attr, qi, q.sort, q.fifo, out, id);
    CountWithout(c.attr, q.sort, id, true);
    CountWithout(c.attr, q.sort, id, false);
  }

  /** Linking a request that is on the FIFO closes the gap. */
  lemma PutOnFields(c: C, t: Tunables, q: Cfqq, id: nat)
    requires id in c.attr && id in c.info && Known(c.info, q.sort) && KnownTo(c.attr, q.sort)
    requires q.next.Some? ==> q.next.value in c.info && q.next.value in c.attr
    ensures var p := PutOn(c, t, q, id);
            && p.sort == InsertSorted(c.info, q.sort, id, c.info[id].pos) && p.fifo == q.fifo && p.onRr == q.onRr
            && p.next == Choose(c, t, q.next, Some(id))
            && p.queuedSync == q.queuedSync + (if c.attr[id].sync then 1 else 0)
            && p.queuedAsync == q.queuedAsync + (if c.attr[id].sync then 0 else 1)
  {
    hide InsertSorted, Choose;
  }

  lemma PutOnOk(c: C, t: Tunables, qi: nat, q: Cfqq, id: nat)
    requires ListsOk(c.info, c.attr, qi, q, {id}) && NextOk(q) && id in c.info && id in q.fifo
    requires forall x :: x in q.sort ==> c.info[x].pos != c.info[id].pos
    ensures KnownTo(c.attr, q.sort) && id in c.attr
            && (q.next.Some? ==> q.next.value in c.info && q.next.value in c.attr)
    ensures var q' := PutOn(c, t, q, id).(onRr := true); ListsOk(c.info, c.attr, qi, q', {}) && NextOk(q')
    ensures |PutOn(c, t, q, id).sort| == |q.sort| + 1
  {
    hide Pair, InsertSorted, Count, Choose, PutOn;
    PairKnown(c.info, c.attr, qi, q.sort, q.fifo, {id});
    PutOnFields(c, t, q, id);
    PairInsert(c.info, c.attr, qi, q.sort, q.fifo, id);
    CountInsert(c.attr, c.info, q.sort, id, c.info[id].pos, true);
    CountInsert(c.attr, c.info, q.sort, id, c.info[id].pos, false);
  }

  // ----- the service tree -----

  /** No later queue goes to the left of an earlier one. */
  predicate TreeSorted(queues: seq<Cfqq>, tree: seq<nat>)
    requires InRange(queues, tree)
  {
    |tree| == 0 ||
    (Exists(queues, tree[0])
     && (forall i :: i in tree[1..] ==> Exists(queues, i) && !GoesLeft(queues[i], queues[i].key, queues[tree[0]]))
     && TreeSorted(queues, tree[1..]))
  }

  /** The tree holds the busy queues once each, in order, and the cache is empty or right. */
  ghost predicate TreeOk(queues: seq<Cfqq>, tree: seq<nat>, left: Option<nat>, busy: int) {
    && InRange(queues, tree)
    && Distinct(tree)
    && (forall qi: nat :: qi in tree <==> qi < |queues| && queues[qi].onRr)
    && busy == |tree|
    && (left.Some? ==> |tree| > 0 && left.value == tree[0])
    && TreeSorted(queues, tree)
  }

  /** What the tree looks at. */
  predicate SameKeys(a: Cfqq, b: Cfqq) { a.rt == b.rt && a.idle == b.idle && a.key == b.key }

  lemma {:induction false} SortedSame(queues: seq<Cfqq>, queues': seq<Cfqq>, tree: seq<nat>)
    requires InRange(queues, tree) && |queues| <= |queues'| && TreeSorted(queues, tree)
    requires forall i :: i in tree ==> Exists(queues, i) && SameKeys(queues[i], queues'[i])
    ensures InRange(queues', tree) && TreeSorted(queues', tree)
  {
    if |tree| > 0 {
      assert tree[0] in tree;
      SortedSame(queues, queues', tree[1..]);
    }
  }

  lemma {:induction false} SortedWithout(queues: seq<Cfqq>, tree: seq<nat>, qi: nat)
    requires InRange(queues, tree) && TreeSorted(queues, tree)
    ensures InRange(queues, Without(tree, qi)) && TreeSorted(queues, Without(tree, qi))
  {
    if |tree| > 0 {
      SortedWithout(queues, tree[1..], qi);
      if tree[0] != qi { assert Without(tree, qi)[1..] == Without(tree[1..], qi); }
    }
  }

  lemma LeftOfAll(q: Cfqq, key: int, h: Cfqq, i: Cfqq)
    requires GoesLeft(q, key, h) && !GoesLeft(i, i.key, h)
    ensures !GoesLeft(i, i.key, q.(key := key))
  {}

  lemma {:induction false} SortedInsert(queues: seq<Cfqq>, tree: seq<nat>, qi: nat, key: int)
    requires InRange(queues, tree) && TreeSorted(queues, tree) && qi < |queues| && qi !in tree
    ensures var queues' := queues[qi := queues[qi].(key := key)]; var r := InsertQueue(queues, tree, qi, key);
            InRange(queues', r) && TreeSorted(queues', r)
  {
    var queues' := queues[qi := queues[qi].(key := key)];
    var r := InsertQueue(queues, tree, qi, key);
    assert InRange(queues', r) by { assert forall i :: i in r ==> Exists(queues, i) || i == qi; }
    if |tree| > 0 {
      if GoesLeft(queues[qi], key, queues[tree[0]]) {
        assert r[1..] == tree;
        SortedSame(queues, queues', tree);
        forall i | i in tree ensures Exists(queues', i) && !GoesLeft(queues'[i], queues'[i].key, queues'[qi]) {
          if i != tree[0] { assert i in tree[1..]; }
          assert Exists(queues, i);
          LeftOfAll(queues[qi], key, queues[tree[0]], queues[i]);
        }
      } else {
        assert r[1..] == InsertQueue(queues, tree[1..], qi, key);
        SortedInsert(queues, tree[1..], qi, key);
        assert tree[0] in tree;
      }
    }
  }

  lemma {:induction false} InsertDistinct(queues: seq<Cfqq>, tree: seq<nat>, qi: nat, key: int)
    requires InRange(queues, tree) && Distinct(tree) && qi < |queues| && qi !in tree
    ensures Distinct(InsertQueue(queues, tree, qi, key))
    ensures var r := InsertQueue(queues, tree, qi, key); r[0] != qi ==> |tree| > 0 && r[0] == tree[0]
  {
    var r := InsertQueue(queues, tree, qi, key);
    if |tree| > 0 {
      assert tree[0] in tree;
      if GoesLeft(queues[qi], key, queues[tree[0]]) {
        assert r[1..] == tree;
      } else {
        InsertDistinct(queues, tree[1..], qi, key);
        assert r[1..] == InsertQueue(queues, tree[1..], qi, key);
      }
    }
  }

  /** Taking a queue off the tree; the cache is dropped with it, never left behind. */
  lemma EraseOk(c: C, qi: nat)
    requires InRange(c.queues, c.tree) && Distinct(c.tree) && TreeSorted(c.queues, c.tree) && qi in c.tree
    requires c.left.Some? ==> |c.tree| > 0 && c.left.value == c.tree[0]
    ensures var c' := Erase(c, qi);
            && InRange(c.queues, c'.tree) && Distinct(c'.tree) && TreeSorted(c.queues, c'.tree)
            && |c'.tree| == |c.tree| - 1 && (c'.left.Some? ==> |c'.tree| > 0 && c'.left.value == c'.tree[0])
  {
    hide TreeSorted;
    SortedWithout(c.queues, c.tree, qi);
    WithoutDistinct(c.tree, qi);
    if c.left.Some? && c.tree[0] != qi { assert Without(c.tree, qi)[0] == c.tree[0]; }
  }

  lemma HangOk(c: C, qi: nat, key: int)
    requires InRange(c.queues, c.tree) && Distinct(c.tree) && TreeSorted(c.queues, c.tree) && qi < |c.queues|
             && qi !in c.tree
    requires c.left.Some? ==> |c.tree| > 0 && c.left.value == c.tree[0]
    ensures var c' := Hang(c, qi, key);
            && InRange(c'.queues, c'.tree) && Distinct(c'.tree) && TreeSorted(c'.queues, c'.tree)
            && |c'.tree| == |c.tree| + 1 && (c'.left.Some? ==> |c'.tree| > 0 && c'.left.value == c'.tree[0])
            && (c'.tree[0] == qi ==> c'.left == Some(qi))
  {
    hide TreeSorted, Distinct, InsertQueue;
    SortedInsert(c.queues, c.tree, qi, key);
    InsertDistinct(c.queues, c.tree, qi, key);
  }

  /** A busy queue gets its place for a new key, and no other queue moves relative to the rest. */
  lemma TreeAddOk(c: C, qi: nat, key: int)
    requires TreeOk(c.queues, c.tree, c.left, c.busy) && qi < |c.queues| && c.queues[qi].onRr
    ensures var c' := TreeAdd(c, qi, key); TreeOk(c'.queues, c'.tree, c'.left, c'.busy)
    ensures TreeAdd(c, qi, key).queues == c.queues[qi := c.queues[qi].(key := key)]
    ensures var c' := TreeAdd(c, qi, key);
            key != c.queues[qi].key && First(c').left == Some(qi) ==> c'.left == Some(qi)
  {
    hide TreeSorted, Distinct, Without, InsertQueue;
    if key != c.queues[qi].key {
      EraseOk(c, qi);
      HangOk(Erase(c, qi), qi, key);
    }
  }

  lemma AddRrOk(c: C, qi: nat, key: int)
    requires TreeOk(c.queues, c.tree, c.left, c.busy) && qi < |c.queues| && !c.queues[qi].onRr
    ensures var c' := AddRr(c, qi, key); TreeOk(c'.queues, c'.tree, c'.left, c'.busy)
    ensures AddRr(c, qi, key).queues == c.queues[qi := c.queues[qi].(key := key, onRr := true)]
  {
    hide TreeSorted, Distinct, Without, InsertQueue;
    var c1 := c.(queues := c.queues[qi := c.queues[qi].(onRr := true)], busy := c.busy + 1);
    SortedSame(c.queues, c1.queues, c.tree);
    HangOk(c1, qi, key);
  }

  lemma DelRrOk(c: C, qi: nat)
    requires TreeOk(c.queues, c.tree, c.left, c.busy) && qi < |c.queues| && c.queues[qi].onRr
    ensures var c' := DelRr(c, qi); TreeOk(c'.queues, c'.tree, c'.left, c'.busy)
  {
    hide TreeSorted, Distinct, Without;
    var c1 := c.(queues := c.queues[qi := c.queues[qi].(onRr := false)], busy := c.busy - 1);
    SortedSame(c.queues, c1.queues, c.tree);
    EraseOk(c1, qi);
  }

  /** A queue changed where the tree does not look. */
  lemma TreeSame(queues: seq<Cfqq>, tree: seq<nat>, left: Option<nat>, busy: int, qi: nat, q: Cfqq)
    requires TreeOk(queues, tree, left, busy) && qi < |queues| && SameKeys(queues[qi], q) && queues[qi].onRr == q.onRr
    ensures TreeOk(queues[qi := q], tree, left, busy)
  {
    hide TreeSorted, Distinct;
    SortedSame(queues, queues[qi := q], tree);
  }
}
