/** Submitting bios to stacked devices.  A driver may submit further bios while it handles one; these
    are not handled recursively but queued on a per-task list through a tail pointer. */
module Submission {

  /** A bio and the bios its driver submits, in order, while handling it. */
  datatype Work = Work(id: nat, kids: seq<Work>)

  function Size(w: Work): (n: nat)
    ensures n > 0
  {
    1 + Sizes(w.kids)
  }

  function Sizes(ws: seq<Work>): nat {
    if |ws| == 0 then 0 else Size(ws[0]) + Sizes(ws[1..])
  }

  lemma {:induction false} SizesConcat(a: seq<Work>, b: seq<Work>)
    ensures Sizes(a + b) == Sizes(a) + Sizes(b)
  {
    if |a| == 0 {
      assert a + b == b;
    } else {
      assert (a + b)[1..] == a[1..] + b;
      SizesConcat(a[1..], b);
    }
  }

  /** Handling one bio leaves one less to handle in all. */
  lemma SizesPop(ws: seq<Work>)
    requires |ws| > 0
    ensures Sizes(ws[1..] + ws[0].kids) == Sizes(ws) - 1
  {
    SizesConcat(ws[1..], ws[0].kids);
    assert Size(ws[0]) == 1 + Sizes(ws[0].kids);
  }

  // ----- the order in which bios are handled -----

  /** First in, first out: what a bio's driver submits goes to the end of the queue. */
  function Handled(queue: seq<Work>): seq<nat>
    decreases Sizes(queue)
  {
    if |queue| == 0 then []
    else
      SizesPop(queue);
      [queue[0].id] + Handled(queue[1..] + queue[0].kids)
  }

  function Ids(ws: seq<Work>): seq<nat> { if |ws| == 0 then [] else [ws[0].id] + Ids(ws[1..]) }

  function Kids(ws: seq<Work>): seq<Work> { if |ws| == 0 then [] else ws[0].kids + Kids(ws[1..]) }

  lemma {:induction false} KidsSmaller(ws: seq<Work>)
    ensures |ws| > 0 ==> Sizes(Kids(ws)) < Sizes(ws)
    ensures |ws| == 0 ==> Kids(ws) == []
  {
    if |ws| > 0 {
      KidsSmaller(ws[1..]);
      SizesConcat(ws[0].kids, Kids(ws[1..]));
    }
  }

  /** Level by level: all bios submitted at one depth before any of the next. */
  function ByLevel(ws: seq<Work>): seq<nat>
    decreases Sizes(ws)
  {
    if |ws| == 0 then []
    else
      KidsSmaller(ws);
      Ids(ws) + ByLevel(Kids(ws))
  }

  lemma {:induction false} HandledFront(a: seq<Work>, b: seq<Work>)
    ensures Handled(a + b) == Ids(a) + Handled(b + Kids(a))
    decreases |a|
  {
    if |a| == 0 {
      assert a + b == b && b + Kids(a) == b;
      assert Ids(a) + Handled(b) == Handled(b);
    } else {
      var rest, kids := a[1..], a[0].kids;
      HandledPop(a + b);
      IdsKidsFirst(a);
      hide Handled, Ids, Kids;
      HandledFront(rest, b + kids);
      assert (a + b)[0] == a[0] && (a + b)[1..] == rest + b;
      Associate(rest, b, kids);
      Associate(b, kids, Kids(rest));
      Associate([a[0].id], Ids(rest), Handled(b + Kids(a)));
    }
  }

  lemma {:induction false} IdsKidsFirst(ws: seq<Work>)
    requires |ws| > 0
    ensures Ids(ws) == [ws[0].id] + Ids(ws[1..]) && Kids(ws) == ws[0].kids + Kids(ws[1..])
  {}

  lemma Associate<T>(x: seq<T>, y: seq<T>, z: seq<T>)
    ensures (x + y) + z == x + (y + z)
  {}

  /** Flattened recursion handles a whole device stack level by level. */
  lemma {:induction false} HandledIsByLevel(ws: seq<Work>)
    ensures Handled(ws) == ByLevel(ws)
    decreases Sizes(ws)
  {
    if |ws| > 0 {
      KidsSmaller(ws);
      HandledIsByLevel(Kids(ws));
      HandledFront(ws, []);
      assert ws + [] == ws && [] + Kids(ws) == Kids(ws);
    }
  }

  /** Every bio of a stack, in the order a recursive driver would reach them. */
  function Nested(ws: seq<Work>): seq<nat>
  {
    if |ws| == 0 then [] else [ws[0].id] + Nested(ws[0].kids) + Nested(ws[1..])
  }

  lemma {:induction false} NestedConcat(a: seq<Work>, b: seq<Work>)
    ensures multiset(Nested(a + b)) == multiset(Nested(a)) + multiset(Nested(b))
  {
    if |a| == 0 {
      assert a + b == b;
    } else {
      assert (a + b)[0] == a[0] && (a + b)[1..] == a[1..] + b;
      NestedConcat(a[1..], b);
    }
  }

  /** Each bio is handled exactly once: the same bios as in the recursive order, none twice. */
  lemma {:induction false} HandledOnce(ws: seq<Work>)
    ensures multiset(Handled(ws)) == multiset(Nested(ws))
    decreases Sizes(ws)
  {
    if |ws| > 0 {
      var rest := ws[1..] + ws[0].kids;
      SizesPop(ws);
      HandledOnce(rest);
      NestedConcat(ws[1..], ws[0].kids);
    }
  }

  // ----- the per-task list -----

  /** A bio; `next` is its `bi_next`. */
  class Bio {
    const work: Work
    var next: Bio?

    constructor (work: Work)
      ensures this.work == work && next == null
    {
      this.work := work;
      next := null;
    }
  }

  /** `bio_tail`: null, or a pointer to the field the next bio is to be stored in. */
  datatype Tail = Inactive | AtList | AtNext(bio: Bio)

  function Works(bios: seq<Bio>): (ws: seq<Work>)
    ensures |ws| == |bios| && forall i :: 0 <= i < |ws| ==> ws[i] == bios[i].work
  {
    if |bios| == 0 then [] else [bios[0].work] + Works(bios[1..])
  }

  /** What follows the bio at index `i`. */
  function After(bios: seq<Bio>, i: nat): Bio? {
    if i + 1 < |bios| then bios[i + 1] else null
  }

  class Task {
    var list: Bio?
    var tail: Tail
    /** The bios handed to their drivers, in order. */
    var handled: seq<nat>
    /** The bios on the list. */
    ghost var pending: seq<Bio>

    /** The list holds `pending`, linked in order, and the tail pointer is at its end. */
    ghost predicate Linked()
      reads this`list, this`tail, this`pending, pending
    {
      && (forall i, j :: 0 <= i < j < |pending| ==> pending[i] != pending[j])
      && list == (if |pending| == 0 then null else pending[0])
      && (forall i :: 0 <= i < |pending| ==> pending[i].next == After(pending, i))
      && (tail.AtNext? ==> |pending| > 0 && tail.bio == pending[|pending| - 1])
      && (!tail.AtNext? ==> |pending| == 0)
    }

    lemma EmptyIsLinked()
      requires pending == [] && list == null && tail == AtList
      ensures Linked()
    {}

    lemma ListOrEmpty()
      requires Linked()
      ensures list == null <==> |pending| == 0
    {}

    /** The active half of `generic_make_request`: the bio is stored where the tail points. */
    method Enqueue(bio: Bio)
      requires Linked() && tail != Inactive && bio !in pending
      modifies this`list, this`tail, this`pending, pending, bio
      ensures Linked() && tail != Inactive && pending == old(pending) + [bio]
    {
      match tail {
        case AtList => list := bio;
        case AtNext(last) => last.next := bio;
      }
      bio.next := null;
      tail := AtNext(bio);
      pending := pending + [bio];
      forall i | 0 <= i < |pending| ensures pending[i].next == After(pending, i) {
        if i < |old(pending)| { assert pending[i] == old(pending)[i] && pending[i] in old(pending); }
      }
    }

    /** A driver submits a bio of its own: `generic_make_request` finds itself active. */
    method SubmitNested(work: Work)
      requires Linked() && tail != Inactive
      modifies this`list, this`tail, this`pending, pending
      ensures Linked() && tail != Inactive
      ensures |pending| == |old(pending)| + 1 && old(pending) <= pending && fresh(pending[|old(pending)|])
      ensures Works(pending) == Works(old(pending)) + [work]
    {
      var bio := new Bio(work);
      WorksSnoc(pending, bio);
      Enqueue(bio);
    }

    /** `__generic_make_request`: the driver handles the bio and submits others meanwhile. */
    method Handle(bio: Bio)
      requires Linked() && tail != Inactive && bio !in pending
      modifies this, pending
      ensures Linked() && tail != Inactive && handled == old(handled) + [bio.work.id]
      ensures Works(pending) == Works(old(pending)) + bio.work.kids
      ensures old(pending) <= pending && forall k :: |old(pending)| <= k < |pending| ==> fresh(pending[k])
    {
      hide Works, Linked;
      handled := handled + [bio.work.id];
      var kids := bio.work.kids;
      ghost var was, done := Works(pending), [];
      assert was + done == was;
      for i := 0 to |kids|
        invariant Linked() && tail != Inactive && handled == old(handled) + [bio.work.id]
        invariant old(pending) <= pending
        invariant forall k :: |old(pending)| <= k < |pending| ==> fresh(pending[k])
        invariant done == kids[..i] && Works(pending) == was + done
      {
        assert (was + done) + [kids[i]] == was + (done + [kids[i]]);
        SubmitNested(kids[i]);
        done := done + [kids[i]];
      }
      assert kids[..|kids|] == kids;
    }

    /** The bio at the head of the list is taken off it. */
    method Dequeue() returns (bio: Bio)
      requires Linked() && |pending| > 0
      modifies this`list, this`tail, this`pending, pending
      ensures Linked() && tail != Inactive && bio == old(pending)[0] && pending == old(pending)[1..] && bio.next == null
      ensures bio !in pending
    {
      bio := list;
      list := bio.next;
      if bio.next == null { tail := AtList; } else { bio.next := null; }
      pending := pending[1..];
      assert forall i :: 0 <= i < |pending| ==>
          pending[i] == old(pending)[i + 1] && After(pending, i) == After(old(pending), i + 1);
    }

    /** One turn of the loop of `generic_make_request`. */
    method HandleNext()
      requires Linked() && |pending| > 0
      modifies this, pending
      ensures Linked() && tail != Inactive && (list == null <==> |pending| == 0)
      ensures handled + Handled(Works(pending)) == old(handled) + Handled(Works(old(pending)))
      ensures Sizes(Works(pending)) < Sizes(Works(old(pending)))
      ensures forall b :: b in pending ==> b in old(pending) || fresh(b)
    {
      hide Works, Handled, Sizes, Linked;
      HandledPop(Works(pending));
      WorksFirst(pending);
      var b := Dequeue();
      Handle(b);
      ListOrEmpty();
    }

    /** The loop of `generic_make_request`: until the list is empty. */
    method HandleAll()
      requires Linked() && tail != Inactive
      modifies this, pending
      ensures Linked() && tail != Inactive && list == null && pending == []
      ensures handled == old(handled) + Handled(Works(old(pending)))
    {
      hide Works, Handled, Sizes, Linked;
      ghost var all := handled + Handled(Works(pending));
      ListOrEmpty();
      while list != null
        invariant (list == null <==> |pending| == 0) && Linked() && tail != Inactive
        invariant handled + Handled(Works(pending)) == all
        invariant forall b :: b in pending ==> b in old(pending) || fresh(b)
        decreases Sizes(Works(pending))
      {
        assert forall k :: 0 <= k < |pending| ==> pending[k] in pending;
        HandleNext();
      }
      NothingLeft(pending);
    }

    /** `generic_make_request` when no request is being made: handles the bio and everything submitted
        meanwhile, one after the other in order of submission, and ends with an empty list, inactive. */
    method Submit(bio: Bio)
      requires tail == Inactive && pending == [] && bio.next == null
      modifies this
      ensures tail == Inactive && list == null && pending == []
      ensures handled == old(handled) + Handled([bio.work])
    {
      hide Works, Handled, Sizes, Linked;
      list, tail := bio.next, AtList;
      EmptyIsLinked();
      NothingLeft(pending);
      FirstWork(bio.work);
      Associate(handled, [bio.work.id], Handled(bio.work.kids));
      Handle(bio);
      HandleAll();
      tail := Inactive;
    }
  }

  lemma HandledPop(ws: seq<Work>)
    requires |ws| > 0
    ensures Handled(ws) == [ws[0].id] + Handled(ws[1..] + ws[0].kids)
    ensures Sizes(ws[1..] + ws[0].kids) < Sizes(ws)
  {
    SizesPop(ws);
  }

  lemma FirstWork(work: Work)
    ensures Handled([work]) == [work.id] + Handled(work.kids) && [] + work.kids == work.kids
  {
    hide Handled;
    HandledPop([work]);
    assert [work][1..] + work.kids == work.kids;
  }

  lemma NothingLeft(bios: seq<Bio>)
    requires |bios| == 0
    ensures Works(bios) == [] && Handled(Works(bios)) == []
  {}

  lemma WorksFirst(bios: seq<Bio>)
    requires |bios| > 0
    ensures Works(bios)[1..] == Works(bios[1..])
  {}

  lemma {:induction false} WorksSnoc(bios: seq<Bio>, bio: Bio)
    ensures Works(bios + [bio]) == Works(bios) + [bio.work]
  {
    if |bios| > 0 {
      assert (bios + [bio])[1..] == bios[1..] + [bio];
      WorksSnoc(bios[1..], bio);
    }
  }
}
