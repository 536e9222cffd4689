/** `elv_dispatch_sort`: insertion into the dispatch list as a one-way elevator that starts over at
    the boundary sector. */
module DispatchSort {

  /** `stop` holds for requests nothing may pass: barriers and started ones.  `arrival` numbers the
      requests in the order they are inserted. */
  datatype Rq = Rq(pos: nat, write: bool, discard: bool, stop: bool, arrival: nat)

  predicate SameKind(a: Rq, b: Rq) { a.write == b.write && a.discard == b.discard }

  /** Sectors from the boundary on come first, each side ascending. */
  predicate Before(a: Rq, b: Rq, boundary: nat) {
    if (a.pos >= boundary) != (b.pos >= boundary) then a.pos >= boundary else a.pos < b.pos
  }

  /** The loop goes on past `x`. */
  predicate Passes(rq: Rq, x: Rq, boundary: nat) {
    && SameKind(rq, x)
    && !x.stop
    && (if rq.pos >= boundary then x.pos < boundary || rq.pos < x.pos else x.pos < boundary && rq.pos < x.pos)
  }

  /** How many requests of the first `n` stay in front of `rq`. */
  function Place(q: seq<Rq>, rq: Rq, boundary: nat, n: nat): (k: nat)
    requires n <= |q|
    ensures k <= n
    ensures forall i :: k <= i < n ==> Passes(rq, q[i], boundary)
    ensures k > 0 ==> !Passes(rq, q[k - 1], boundary)
  {
    if n == 0 || !Passes(rq, q[n - 1], boundary) then n else Place(q, rq, boundary, n - 1)
  }

  function Insert(q: seq<Rq>, rq: Rq, boundary: nat): seq<Rq> {
    var k := Place(q, rq, boundary, |q|);
    q[..k] + [rq] + q[k..]
  }

  // ----- order -----

  /** Elevator order, with equal sectors in order of arrival. */
  predicate InOrder(a: Rq, b: Rq, boundary: nat) {
    Before(a, b, boundary) || (!Before(b, a, boundary) && a.arrival < b.arrival)
  }

  /** `i` and `j` lie in one stretch of requests of the same kind without anything impassable. */
  predicate OneRun(q: seq<Rq>, i: nat, j: nat)
    requires i <= j < |q|
  {
    forall k :: i <= k <= j ==> !q[k].stop && SameKind(q[k], q[i])
  }

  /** Neighbours of one run are in order. */
  predicate Sorted(q: seq<Rq>, boundary: nat) {
    forall i :: 0 < i < |q| && SameKind(q[i - 1], q[i]) && !q[i - 1].stop && !q[i].stop ==>
      InOrder(q[i - 1], q[i], boundary)
  }

  predicate Newest(q: seq<Rq>, rq: Rq) { forall i :: 0 <= i < |q| ==> q[i].arrival < rq.arrival }

  lemma OrderTransitive(a: Rq, b: Rq, c: Rq, boundary: nat)
    requires InOrder(a, b, boundary) && InOrder(b, c, boundary)
    ensures InOrder(a, c, boundary)
  {}

  /** Neighbours in order: then any two requests of a run are. */
  lemma {:induction false} RunSorted(q: seq<Rq>, boundary: nat, i: nat, j: nat)
    requires Sorted(q, boundary) && i < j < |q| && OneRun(q, i, j)
    ensures InOrder(q[i], q[j], boundary)
    decreases j
  {
    assert SameKind(q[j - 1], q[j]);
    if i < j - 1 {
      assert OneRun(q, i, j - 1);
      RunSorted(q, boundary, i, j - 1);
      OrderTransitive(q[i], q[j - 1], q[j], boundary);
    }
  }

  /** Insertion keeps every run in order, puts equal sectors in order of arrival, and passes only
      requests of the same direction and kind that are neither barriers nor started. */
  lemma InsertKeeps(q: seq<Rq>, rq: Rq, boundary: nat)
    requires Sorted(q, boundary) && Newest(q, rq)
    ensures Sorted(Insert(q, rq, boundary), boundary)
    ensures multiset(Insert(q, rq, boundary)) == multiset(q) + multiset{rq}
    ensures var k := Place(q, rq, boundary, |q|);
            forall i :: k <= i < |q| ==> !q[i].stop && SameKind(q[i], rq) && Before(rq, q[i], boundary)
  {
    hide Before, Passes, SameKind, Sorted, Newest;
    var k := Place(q, rq, boundary, |q|);
    forall i | k <= i < |q| ensures !q[i].stop && SameKind(q[i], rq) && Before(rq, q[i], boundary) {
      PassesBefore(rq, q[i], boundary);
    }
    hide Place;
    InsertOnce(q, k, rq);
    SortedAround(q, rq, boundary, k);
  }

  lemma InsertOnce(q: seq<Rq>, k: nat, rq: Rq)
    requires k <= |q|
    ensures multiset(q[..k] + [rq] + q[k..]) == multiset(q) + multiset{rq}
  {
    assert q == q[..k] + q[k..];
  }

  lemma PassesBefore(rq: Rq, x: Rq, boundary: nat)
    ensures Passes(rq, x, boundary) <==> SameKind(x, rq) && !x.stop && Before(rq, x, boundary)
  {}

  lemma OrderAround(a: Rq, b: Rq, boundary: nat)
    requires a.arrival < b.arrival
    ensures !Before(b, a, boundary) ==> InOrder(a, b, boundary)
    ensures Before(b, a, boundary) ==> InOrder(b, a, boundary)
  {}

  lemma SortedAround(q: seq<Rq>, rq: Rq, boundary: nat, k: nat)
    requires Sorted(q, boundary) && Newest(q, rq) && k == Place(q, rq, boundary, |q|)
    ensures Sorted(q[..k] + [rq] + q[k..], boundary)
  {
    var r := q[..k] + [rq] + q[k..];
    if k > 0 {
      PassesBefore(rq, q[k - 1], boundary);
      OrderAround(q[k - 1], rq, boundary);
    }
    if k < |q| {
      PassesBefore(rq, q[k], boundary);
      OrderAround(q[k], rq, boundary);
    }
    hide Place, Before, Passes, InOrder;
    forall i | 0 < i < |r| && SameKind(r[i - 1], r[i]) && !r[i - 1].stop && !r[i].stop
      ensures InOrder(r[i - 1], r[i], boundary)
    {
      assert i < k ==> r[i - 1] == q[i - 1] && r[i] == q[i];
      assert i > k + 1 ==> r[i - 1] == q[i - 2] && r[i] == q[i - 1];
    }
  }

  // ----- any number of insertions -----

  /** The requests are numbered in the order given, from `n` on. */
  predicate Numbered(rqs: seq<Rq>, n: nat) { forall i :: 0 <= i < |rqs| ==> rqs[i].arrival == n + i }

  predicate Older(q: seq<Rq>, n: nat) { forall i :: 0 <= i < |q| ==> q[i].arrival < n }

  function InsertAll(q: seq<Rq>, rqs: seq<Rq>, boundary: nat): seq<Rq>
    decreases |rqs|
  {
    if |rqs| == 0 then q else InsertAll(Insert(q, rqs[0], boundary), rqs[1..], boundary)
  }

  /** At a fixed boundary any sequence of insertions gives a list in which every two requests of a run
      are in elevator order, equal sectors in order of arrival, and loses and repeats nothing. */
  lemma {:induction false} InsertAllSorts(q: seq<Rq>, rqs: seq<Rq>, boundary: nat, n: nat)
    requires Sorted(q, boundary) && Older(q, n) && Numbered(rqs, n)
    ensures Sorted(InsertAll(q, rqs, boundary), boundary)
    ensures multiset(InsertAll(q, rqs, boundary)) == multiset(q) + multiset(rqs)
    ensures forall i: nat, j: nat | i < j < |InsertAll(q, rqs, boundary)|
                                    && OneRun(InsertAll(q, rqs, boundary), i, j) ::
              InOrder(InsertAll(q, rqs, boundary)[i], InsertAll(q, rqs, boundary)[j], boundary)
    decreases |rqs|
  {
    if |rqs| > 0 {
      var r := Insert(q, rqs[0], boundary);
      assert Newest(q, rqs[0]);
      InsertKeeps(q, rqs[0], boundary);
      assert Older(r, n + 1);
      assert rqs == [rqs[0]] + rqs[1..];
      InsertAllSorts(r, rqs[1..], boundary, n + 1);
    } else {
      forall i: nat, j: nat | i < j < |q| && OneRun(q, i, j) ensures InOrder(q[i], q[j], boundary) {
        RunSorted(q, boundary, i, j);
      }
    }
  }

  // ----- adding at the tail -----

  /** Every run goes upwards and in order of arrival. */
  predicate Upward(q: seq<Rq>) {
    forall i :: 0 < i < |q| && SameKind(q[i - 1], q[i]) && !q[i - 1].stop && !q[i].stop ==>
      q[i - 1].pos <= q[i].pos && q[i - 1].arrival < q[i].arrival
  }

  predicate NoneAbove(q: seq<Rq>, pos: nat) { forall i :: 0 <= i < |q| ==> q[i].pos <= pos }

  /** A request added at the tail of an upward list moves the boundary behind everything in it:
      the list is in elevator order at the boundary reached, whatever the boundary was before,
      so that sorted insertions may follow. */
  lemma TailSorted(q: seq<Rq>, rq: Rq, sectors: nat)
    requires Upward(q) && NoneAbove(q, rq.pos) && Newest(q, rq) && sectors > 0
    ensures Upward(q + [rq]) && NoneAbove(q + [rq], rq.pos) && Sorted(q + [rq], rq.pos + sectors)
  {
    hide SameKind;
    var r, end := q + [rq], rq.pos + sectors;
    assert forall i :: 0 <= i < |r| ==> r[i].pos < end;
    assert forall i :: 0 <= i < |q| ==> r[i] == q[i];
  }

  /** In general the tail is in order at the new boundary, if the list was, exactly if the last
      request of its run does not start inside it. */
  lemma TailSortedIff(q: seq<Rq>, rq: Rq, sectors: nat)
    requires Sorted(q, rq.pos + sectors) && Newest(q, rq) && sectors > 0
    ensures Sorted(q + [rq], rq.pos + sectors) <==>
            |q| == 0 || rq.stop || var last := q[|q| - 1];
            last.stop || !SameKind(last, rq) || !(rq.pos < last.pos < rq.pos + sectors)
  {
    hide SameKind;
    var r, n, end := q + [rq], |q|, rq.pos + sectors;
    assert forall i :: 0 <= i < n ==> r[i] == q[i];
    if n > 0 {
      assert r[n - 1] == q[n - 1] && r[n] == rq;
      if SameKind(r[n - 1], r[n]) && !r[n - 1].stop && !r[n].stop {
        assert Sorted(r, end) ==> InOrder(r[n - 1], r[n], end);
      }
    }
  }

  class DispatchList {
    var head: seq<Rq>
    var endSector: nat
    var nrSorted: int

    /** `elv_dispatch_sort`: the list is searched from its tail. */
    method Sort(rq: Rq)
      modifies this`head, this`nrSorted
      ensures head == Insert(old(head), rq, endSector) && nrSorted == old(nrSorted) - 1
    {
      nrSorted := nrSorted - 1;
      var list, boundary := head, endSector;
      var k := |list|;
      while k > 0 && Passes(rq, list[k - 1], boundary)
        invariant 0 <= k <= |list| && Place(list, rq, boundary, |list|) == Place(list, rq, boundary, k)
      {
        k := k - 1;
      }
      head := list[..k] + [rq] + list[k..];
    }

    /** `elv_dispatch_add_tail`: the boundary moves behind the request.  An upward batch leaves a
        list in elevator order at the boundary it reaches. */
    method AddTail(rq: Rq, sectors: nat)
      modifies this
      ensures head == old(head) + [rq] && endSector == rq.pos + sectors && nrSorted == old(nrSorted) - 1
      ensures old(Upward(head) && NoneAbove(head, rq.pos) && Newest(head, rq)) && sectors > 0 ==>
                Upward(head) && Sorted(head, endSector)
    {
      ghost var upward := Upward(head) && NoneAbove(head, rq.pos) && Newest(head, rq) && sectors > 0;
      if upward {
        TailSorted(head, rq, sectors);
      }
      nrSorted := nrSorted - 1;
      endSector := rq.pos + sectors;
      head := head + [rq];
    }
  }
}
