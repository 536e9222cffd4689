/** The elevator's back-merge hash and one-hit cache: requests are hashed by the sector behind their
    last, and entries that may no longer be merged are dropped when a lookup meets them. */
module MergeHash {
  import opened Common
  import opened RequestLists

  const ENTRIES := 64

  datatype Rq = Rq(pos: nat, len: nat, mergeable: bool)

  function End(rq: Rq): nat { rq.pos + rq.len }

  /** `queued` are the requests held by the scheduler; `hash` maps a sector to its bucket. */
  datatype H = H(rqs: map<nat, Rq>, queued: set<nat>, buckets: seq<seq<nat>>, lastMerge: Option<nat>)

  ghost predicate Hash(hash: nat -> nat) { forall s :: hash(s) < ENTRIES }

  /** Unlinks a request from whatever bucket it is in. */
  function Del(buckets: seq<seq<nat>>, id: nat): (r: seq<seq<nat>>)
    ensures |r| == |buckets| && forall b :: 0 <= b < |r| ==> r[b] == Without(buckets[b], id)
  {
    seq(|buckets|, b requires 0 <= b < |buckets| => Without(buckets[b], id))
  }

  function Add(buckets: seq<seq<nat>>, b: nat, id: nat): seq<seq<nat>>
    requires b < |buckets|
  {
    buckets[b := [id] + buckets[b]]
  }

  /** The entries of one bucket: known, queued, once each, and where their end sector puts them. */
  ghost predicate BucketOk(h: H, hash: nat -> nat, b: nat, s: seq<nat>) {
    && Distinct(s)
    && (forall x :: x in s ==> x in h.rqs && x in h.queued && hash(End(h.rqs[x])) == b)
  }

  /** Every queued request that may be merged is in the bucket of its end sector. */
  ghost predicate Inv(h: H, hash: nat -> nat) {
    && Hash(hash) && |h.buckets| == ENTRIES
    && (forall b :: 0 <= b < ENTRIES ==> BucketOk(h, hash, b, h.buckets[b]))
    && (forall x :: x in h.queued ==> x in h.rqs)
    && (forall x :: x in h.queued && h.rqs[x].mergeable ==> x in h.buckets[hash(End(h.rqs[x]))])
    && (h.lastMerge.Some? ==> h.lastMerge.value in h.queued)
  }

  function Init(): H { H(map[], {}, seq(ENTRIES, _ => []), None) }

  // ----- operations -----

  /** The sorting insert of `elv_insert`. */
  function Insert(h: H, hash: nat -> nat, id: nat, rq: Rq): H
    requires hash(End(rq)) < |h.buckets|
  {
    var h1 := h.(rqs := h.rqs[id := rq], queued := h.queued + {id});
    if !rq.mergeable then h1
    else h1.(buckets := Add(h.buckets, hash(End(rq)), id),
             lastMerge := if h.lastMerge.None? then Some(id) else h.lastMerge)
  }

  /** `elv_rqhash_reposition` of a request whose attributes have become `rq`. */
  function Reposition(h: H, hash: nat -> nat, id: nat, rq: Rq): H
    requires hash(End(rq)) < |h.buckets|
  {
    h.(rqs := h.rqs[id := rq], buckets := Add(Del(h.buckets, id), hash(End(rq)), id))
  }

  /** A back merge of `n` sectors. */
  function BackMerged(h: H, hash: nat -> nat, id: nat, n: nat): H
    requires id in h.rqs && hash(End(h.rqs[id]) + n) < |h.buckets|
  {
    Reposition(h, hash, id, h.rqs[id].(len := h.rqs[id].len + n)).(lastMerge := Some(id))
  }

  /** A front merge of `n` sectors: the end sector, and so the key, stays. */
  function FrontMerged(h: H, id: nat, n: nat): H
    requires id in h.rqs && n <= h.rqs[id].pos
  {
    h.(rqs := h.rqs[id := h.rqs[id].(pos := h.rqs[id].pos - n, len := h.rqs[id].len + n)], lastMerge := Some(id))
  }

  /** Forgets a request the scheduler no longer holds. */
  function Drop(h: H, id: nat): H {
    h.(queued := h.queued - {id}, buckets := Del(h.buckets, id),
       lastMerge := if h.lastMerge == Some(id) then None else h.lastMerge)
  }

  /** `elv_merge_requests`: `next` is appended to `id` and goes away. */
  function MergeRequests(h: H, hash: nat -> nat, id: nat, next: nat): H
    requires id in h.rqs && next in h.rqs && hash(End(h.rqs[id]) + h.rqs[next].len) < |h.buckets|
  {
    Drop(Reposition(h, hash, id, h.rqs[id].(len := h.rqs[id].len + h.rqs[next].len)), next).(lastMerge := Some(id))
  }

  /** REQ_NOMERGE is set: the one-hit cache forgets the request, its entry in the table stays until
      a lookup meets it. */
  function NoMerge(h: H, id: nat): H
    requires id in h.rqs
  {
    h.(rqs := h.rqs[id := h.rqs[id].(mergeable := false)],
       lastMerge := if h.lastMerge == Some(id) then None else h.lastMerge)
  }

  predicate Wanted(h: H, id: nat, sector: nat) { id in h.rqs && h.rqs[id].mergeable && End(h.rqs[id]) == sector }

  /** A lookup: what it returns, and the bucket as it leaves it. */
  function Search(h: H, s: seq<nat>, sector: nat): (Option<nat>, seq<nat>)
    requires forall x :: x in s ==> x in h.rqs
  {
    if |s| == 0 then (None, [])
    else if Wanted(h, s[0], sector) then (Some(s[0]), s)
    else
      var (r, rest) := Search(h, s[1..], sector);
      (r, if h.rqs[s[0]].mergeable then [s[0]] + rest else rest)
  }

  // ----- what the operations keep -----

  lemma InitInv(hash: nat -> nat)
    requires Hash(hash)
    ensures Inv(Init(), hash)
  {}

  lemma AddDistinct(s: seq<nat>, id: nat)
    requires Distinct(s) && id !in s
    ensures Distinct([id] + s)
  {
    assert ([id] + s)[1..] == s;
  }

  lemma InsertKeeps(h: H, hash: nat -> nat, id: nat, rq: Rq)
    requires Inv(h, hash) && id !in h.rqs
    ensures Inv(Insert(h, hash, id, rq), hash)
  {
    hide Distinct;
    var h', b := Insert(h, hash, id, rq), hash(End(rq));
    assert BucketOk(h, hash, b, h.buckets[b]);
    AddDistinct(h.buckets[b], id);
    forall k | 0 <= k < ENTRIES ensures BucketOk(h', hash, k, h'.buckets[k]) {
      assert BucketOk(h, hash, k, h.buckets[k]);
    }
  }

  lemma RepositionKeeps(h: H, hash: nat -> nat, id: nat, rq: Rq)
    requires Inv(h, hash) && id in h.queued
    ensures Inv(Reposition(h, hash, id, rq), hash)
  {
    hide Distinct, Without, Del;
    var h', b := Reposition(h, hash, id, rq), hash(End(rq));
    forall k | 0 <= k < ENTRIES ensures BucketOk(h', hash, k, h'.buckets[k]) {
      assert BucketOk(h, hash, k, h.buckets[k]);
      WithoutDistinct(h.buckets[k], id);
      AddDistinct(Without(h.buckets[k], id), id);
    }
  }

  lemma DropKeeps(h: H, hash: nat -> nat, id: nat)
    requires Inv(h, hash)
    ensures Inv(Drop(h, id), hash)
  {
    hide Distinct, Without, Del;
    var h' := Drop(h, id);
    forall k | 0 <= k < ENTRIES ensures BucketOk(h', hash, k, h'.buckets[k]) {
      assert BucketOk(h, hash, k, h.buckets[k]);
      WithoutDistinct(h.buckets[k], id);
    }
  }

  /** Same end sector and merging not allowed where it was not: the hash stays right. */
  lemma SameEndKeeps(h: H, hash: nat -> nat, id: nat, rq: Rq)
    requires Inv(h, hash) && id in h.queued && End(rq) == End(h.rqs[id]) && (rq.mergeable ==> h.rqs[id].mergeable)
    ensures Inv(h.(rqs := h.rqs[id := rq]), hash)
  {
    hide Distinct;
    var h' := h.(rqs := h.rqs[id := rq]);
    forall k | 0 <= k < ENTRIES ensures BucketOk(h', hash, k, h'.buckets[k]) {
      assert BucketOk(h, hash, k, h.buckets[k]);
    }
  }

  lemma LastMergeKeeps(h: H, hash: nat -> nat, id: nat)
    requires Inv(h, hash) && id in h.queued
    ensures Inv(h.(lastMerge := Some(id)), hash)
  {
    hide Distinct;
    var h' := h.(lastMerge := Some(id));
    forall k | 0 <= k < ENTRIES ensures BucketOk(h', hash, k, h'.buckets[k]) {
      assert BucketOk(h, hash, k, h.buckets[k]);
    }
  }

  /** A lookup drops entries that may not be merged, and nothing else. */
  lemma {:induction false} SearchKeeps(h: H, s: seq<nat>, sector: nat)
    requires (forall x :: x in s ==> x in h.rqs) && Distinct(s)
    ensures var (r, rest) := Search(h, s, sector);
            && Distinct(rest) && (forall x :: x in rest ==> x in s)
            && (forall x :: x in s && x !in rest ==> !h.rqs[x].mergeable)
  {
    if |s| > 0 && !Wanted(h, s[0], sector) {
      SearchKeeps(h, s[1..], sector);
      var (r, rest) := Search(h, s[1..], sector);
      assert ([s[0]] + rest)[1..] == rest;
    }
  }

  lemma {:induction false} SearchFinds(h: H, s: seq<nat>, sector: nat)
    requires forall x :: x in s ==> x in h.rqs
    ensures var (r, rest) := Search(h, s, sector);
            && (r.Some? ==> r.value in s && Wanted(h, r.value, sector))
            && (r.None? <==> forall x :: x in s ==> !Wanted(h, x, sector))
  {
    if |s| > 0 && !Wanted(h, s[0], sector) { SearchFinds(h, s[1..], sector); }
  }

  /** The bucket of a sector, with the lookup's clean-up done. */
  ghost function Found(h: H, hash: nat -> nat, sector: nat): (Option<nat>, H)
    requires Inv(h, hash)
  {
    var b := hash(sector);
    assert BucketOk(h, hash, b, h.buckets[b]);
    var (r, rest) := Search(h, h.buckets[b], sector);
    (r, h.(buckets := h.buckets[b := rest]))
  }

  /** The hash agrees with a linear scan: a lookup succeeds exactly when some queued request that may
      be merged ends at the sector, returns such a request, and keeps the invariant. */
  lemma FindAgrees(h: H, hash: nat -> nat, sector: nat)
    requires Inv(h, hash)
    ensures var (r, h') := Found(h, hash, sector);
            && Inv(h', hash)
            && (r.Some? ==> r.value in h.queued && Wanted(h, r.value, sector))
            && (r.Some? <==> exists x :: x in h.queued && Wanted(h, x, sector))
  {
    hide Distinct;
    var b := hash(sector);
    var s := h.buckets[b];
    assert BucketOk(h, hash, b, s);
    var (r, rest) := Search(h, s, sector);
    var h' := h.(buckets := h.buckets[b := rest]);
    SearchKeeps(h, s, sector);
    SearchFinds(h, s, sector);
    forall k | 0 <= k < ENTRIES ensures BucketOk(h', hash, k, h'.buckets[k]) {
      assert BucketOk(h, hash, k, h.buckets[k]);
    }
  }

  // ----- runs -----

  datatype Action =
    | Enter(id: nat, rq: Rq)
    | Back(id: nat, n: nat)
    | Front(id: nat, n: nat)
    | Join(id: nat, next: nat)
    | Dispatch(id: nat)
    | Forbid(id: nat)
    | Lookup(sector: nat)

  predicate Mergeable(h: H, id: nat) { id in h.queued && id in h.rqs && h.rqs[id].mergeable }

  predicate Enabled(h: H, a: Action) {
    match a
    case Enter(id, _) => id !in h.rqs
    case Back(id, _) => Mergeable(h, id)
    case Front(id, n) => Mergeable(h, id) && n <= h.rqs[id].pos
    case Join(id, next) => Mergeable(h, id) && Mergeable(h, next) && id != next
    case Dispatch(id) => id in h.queued
    case Forbid(id) => id in h.queued
    case Lookup(_) => true
  }

  ghost function Next(h: H, hash: nat -> nat, a: Action): H
    requires Inv(h, hash) && Enabled(h, a)
  {
    match a
    case Enter(id, rq) => Insert(h, hash, id, rq)
    case Back(id, n) => BackMerged(h, hash, id, n)
    case Front(id, n) => FrontMerged(h, id, n)
    case Join(id, next) => MergeRequests(h, hash, id, next)
    case Dispatch(id) => Drop(h, id)
    case Forbid(id) => NoMerge(h, id)
    case Lookup(sector) => Found(h, hash, sector).1
  }

  lemma BackKeeps(h: H, hash: nat -> nat, id: nat, n: nat)
    requires Inv(h, hash) && Enabled(h, Back(id, n))
    ensures Inv(BackMerged(h, hash, id, n), hash)
  {
    hide BucketOk, Del, Add;
    var rq := h.rqs[id].(len := h.rqs[id].len + n);
    RepositionKeeps(h, hash, id, rq);
    LastMergeKeeps(Reposition(h, hash, id, rq), hash, id);
  }

  lemma FrontKeeps(h: H, hash: nat -> nat, id: nat, n: nat)
    requires Inv(h, hash) && Enabled(h, Front(id, n))
    ensures Inv(FrontMerged(h, id, n), hash)
  {
    hide BucketOk;
    var rq := h.rqs[id].(pos := h.rqs[id].pos - n, len := h.rqs[id].len + n);
    SameEndKeeps(h, hash, id, rq);
    LastMergeKeeps(h.(rqs := h.rqs[id := rq]), hash, id);
  }

  lemma JoinQueued(h: H, hash: nat -> nat, id: nat, next: nat) returns (rq: Rq)
    requires Inv(h, hash) && Enabled(h, Join(id, next))
    ensures id in h.queued && hash(End(rq)) < |h.buckets| && id in Drop(Reposition(h, hash, id, rq), next).queued
    ensures MergeRequests(h, hash, id, next) == Drop(Reposition(h, hash, id, rq), next).(lastMerge := Some(id))
  {
    hide BucketOk, Del, Add;
    rq := h.rqs[id].(len := h.rqs[id].len + h.rqs[next].len);
  }

  lemma JoinKeeps(h: H, hash: nat -> nat, id: nat, next: nat)
    requires Inv(h, hash) && Enabled(h, Join(id, next))
    ensures Inv(MergeRequests(h, hash, id, next), hash)
  {
    hide Inv, Reposition, Drop, MergeRequests;
    var rq := JoinQueued(h, hash, id, next);
    var moved := Reposition(h, hash, id, rq);
    RepositionKeeps(h, hash, id, rq);
    DropKeeps(moved, hash, next);
    LastMergeKeeps(Drop(moved, next), hash, id);
  }

  lemma ForbidKeeps(h: H, hash: nat -> nat, id: nat)
    requires Inv(h, hash) && Enabled(h, Forbid(id))
    ensures Inv(NoMerge(h, id), hash)
  {
    hide Distinct;
    var h' := NoMerge(h, id);
    forall k | 0 <= k < ENTRIES ensures BucketOk(h', hash, k, h'.buckets[k]) {
      assert BucketOk(h, hash, k, h.buckets[k]);
    }
  }

  lemma StepKeeps(h: H, hash: nat -> nat, a: Action)
    requires Inv(h, hash) && Enabled(h, a)
    ensures Inv(Next(h, hash, a), hash)
  {
    hide BucketOk, Del, Add, Search, BackMerged, FrontMerged, MergeRequests;
    match a
    case Enter(id, rq) => InsertKeeps(h, hash, id, rq);
    case Back(id, n) => BackKeeps(h, hash, id, n);
    case Front(id, n) => FrontKeeps(h, hash, id, n);
    case Join(id, next) => JoinKeeps(h, hash, id, next);
    case Dispatch(id) => DropKeeps(h, hash, id);
    case Forbid(id) => ForbidKeeps(h, hash, id);
    case Lookup(sector) => FindAgrees(h, hash, sector);
  }

  ghost predicate CanRun(h: H, hash: nat -> nat, acts: seq<Action>)
    requires Inv(h, hash)
    decreases |acts|
  {
    |acts| == 0 || (Enabled(h, acts[0])
                    && (StepKeeps(h, hash, acts[0]); CanRun(Next(h, hash, acts[0]), hash, acts[1..])))
  }

  ghost function Run(h: H, hash: nat -> nat, acts: seq<Action>): H
    requires Inv(h, hash) && CanRun(h, hash, acts)
    decreases |acts|
  {
    if |acts| == 0 then h else (StepKeeps(h, hash, acts[0]); Run(Next(h, hash, acts[0]), hash, acts[1..]))
  }

  lemma {:induction false} RunKeeps(h: H, hash: nat -> nat, acts: seq<Action>)
    requires Inv(h, hash) && CanRun(h, hash, acts)
    ensures Inv(Run(h, hash, acts), hash)
    decreases |acts|
  {
    hide Inv, Next, Enabled;
    if |acts| > 0 {
      StepKeeps(h, hash, acts[0]);
      RunKeeps(Next(h, hash, acts[0]), hash, acts[1..]);
    }
  }

  lemma NoElements(s: seq<nat>)
    ensures (forall x :: x !in s) ==> s == []
  {
    if |s| > 0 { assert s[0] in s; }
  }

  lemma EmptyOffersNothing(h: H, hash: nat -> nat, sector: nat)
    requires Inv(h, hash) && h.queued == {}
    ensures h.lastMerge == None && Found(h, hash, sector).0 == None
    ensures forall b :: 0 <= b < ENTRIES ==> h.buckets[b] == []
  {
    forall b | 0 <= b < ENTRIES ensures h.buckets[b] == [] {
      assert BucketOk(h, hash, b, h.buckets[b]);
      NoElements(h.buckets[b]);
    }
    FindAgrees(h, hash, sector);
  }

  /** `elv_drain_elevator`: the scheduler hands over what it holds, one request after the other. */
  function Drain(h: H, order: seq<nat>): H
    decreases |order|
  {
    if |order| == 0 then h else Drain(Drop(h, order[0]), order[1..])
  }

  lemma {:induction false} DrainEmpties(h: H, hash: nat -> nat, order: seq<nat>)
    requires Inv(h, hash) && forall x :: x in h.queued ==> x in order
    ensures var d := Drain(h, order);
            Inv(d, hash) && d.queued == {} && d.rqs == h.rqs
    decreases |order|
  {
    hide BucketOk, Del;
    if |order| > 0 {
      DropKeeps(h, hash, order[0]);
      DrainEmpties(Drop(h, order[0]), hash, order[1..]);
    }
  }

  /** A barrier insert drains the scheduler, in whatever order it hands its requests over: after
      that neither the hash nor the one-hit cache holds anything. */
  lemma DrainedOffersNothing(h: H, hash: nat -> nat, order: seq<nat>, sector: nat)
    requires Inv(h, hash) && forall x :: x in h.queued ==> x in order
    ensures var d := Drain(h, order);
            && Inv(d, hash) && d.lastMerge == None && Found(d, hash, sector).0 == None
            && forall b :: 0 <= b < ENTRIES ==> d.buckets[b] == []
  {
    hide BucketOk, Del, Drain, Search;
    DrainEmpties(h, hash, order);
    EmptyOffersNothing(Drain(h, order), hash, sector);
  }

  lemma StepQueues(h: H, hash: nat -> nat, a: Action, past: set<nat>)
    requires Inv(h, hash) && Enabled(h, a) && past <= h.rqs.Keys && h.queued !! past
    ensures past <= Next(h, hash, a).rqs.Keys && Next(h, hash, a).queued !! past
  {
    hide BucketOk, Del, Add, Search;
  }

  /** After a barrier insert neither the hash nor the one-hit cache offers a request from before it. */
  lemma {:induction false} NoneFromBefore(h: H, hash: nat -> nat, acts: seq<Action>, past: set<nat>, sector: nat)
    requires Inv(h, hash) && CanRun(h, hash, acts) && past <= h.rqs.Keys && h.queued !! past
    ensures Inv(Run(h, hash, acts), hash)
    ensures var h' := Run(h, hash, acts); var (r, _) := Found(h', hash, sector);
            (h'.lastMerge.Some? ==> h'.lastMerge.value !in past) && (r.Some? ==> r.value !in past)
    decreases |acts|
  {
    hide BucketOk, Next, Enabled, Search;
    if |acts| == 0 {
      FindAgrees(h, hash, sector);
    } else {
      StepKeeps(h, hash, acts[0]);
      StepQueues(h, hash, acts[0], past);
      NoneFromBefore(Next(h, hash, acts[0]), hash, acts[1..], past, sector);
    }
  }

  /** In no run behind a barrier insert is a request offered that was known before it. */
  lemma NoneAcrossBarrier(h: H, hash: nat -> nat, order: seq<nat>, acts: seq<Action>, sector: nat)
    requires Inv(h, hash) && (forall x :: x in h.queued ==> x in order)
    requires Inv(Drain(h, order), hash) && CanRun(Drain(h, order), hash, acts)
    ensures var h' := Run(Drain(h, order), hash, acts);
            && Inv(h', hash) && (h'.lastMerge.Some? ==> h'.lastMerge.value !in h.rqs)
            && (Found(h', hash, sector).0.Some? ==> Found(h', hash, sector).0.value !in h.rqs)
  {
    hide BucketOk, Drain, CanRun, Run, Search;
    DrainEmpties(h, hash, order);
    NoneFromBefore(Drain(h, order), hash, acts, h.rqs.Keys, sector);
  }

  // ----- requests that may not be merged, and the one-hit cache -----

  lemma StepForbids(h: H, hash: nat -> nat, a: Action, id: nat)
    requires Inv(h, hash) && Enabled(h, a) && id in h.rqs && !h.rqs[id].mergeable
    ensures id in Next(h, hash, a).rqs && !Next(h, hash, a).rqs[id].mergeable
  {
    hide BucketOk, Del, Add, Search;
  }

  lemma {:induction false} RunForbids(h: H, hash: nat -> nat, acts: seq<Action>, id: nat, sector: nat)
    requires Inv(h, hash) && CanRun(h, hash, acts) && id in h.rqs && !h.rqs[id].mergeable
    ensures Inv(Run(h, hash, acts), hash) && Found(Run(h, hash, acts), hash, sector).0 != Some(id)
    decreases |acts|
  {
    hide BucketOk, Next, Enabled, Search;
    if |acts| == 0 {
      FindAgrees(h, hash, sector);
    } else {
      StepKeeps(h, hash, acts[0]);
      StepForbids(h, hash, acts[0], id);
      RunForbids(Next(h, hash, acts[0]), hash, acts[1..], id, sector);
    }
  }

  /** A request that was marked not to be merged is never found again, whatever happens afterwards. */
  lemma ForbiddenNeverFound(h: H, hash: nat -> nat, id: nat, acts: seq<Action>, sector: nat)
    requires Inv(h, hash) && Enabled(h, Forbid(id)) && Inv(Next(h, hash, Forbid(id)), hash)
    requires CanRun(Next(h, hash, Forbid(id)), hash, acts)
    ensures var h' := Run(Next(h, hash, Forbid(id)), hash, acts);
            Inv(h', hash) && Found(h', hash, sector).0 != Some(id)
  {
    hide Inv, CanRun, Run, Found;
    RunForbids(Next(h, hash, Forbid(id)), hash, acts, id, sector);
  }

  /** The request that an action merges into. */
  function Into(a: Action): Option<nat> {
    match a
    case Back(id, _) => Some(id)
    case Front(id, _) => Some(id)
    case Join(id, _) => Some(id)
    case _ => None
  }

  /** The request that an action takes out of merging. */
  function OutOf(a: Action): Option<nat> {
    match a
    case Dispatch(id) => Some(id)
    case Forbid(id) => Some(id)
    case _ => None
  }

  /** What the last action that matters makes of the one-hit cache: the request merged into last, unless it
      has gone since; an empty cache takes the next mergeable request inserted. */
  function Latest(acts: seq<Action>): Option<nat> {
    if |acts| == 0 then None
    else
      var a, before := acts[|acts| - 1], Latest(acts[..|acts| - 1]);
      if Into(a).Some? then Into(a)
      else if a.Enter? && before.None? && a.rq.mergeable then Some(a.id)
      else if before.Some? && OutOf(a) == before then None
      else before
  }

  lemma StepLatest(h: H, hash: nat -> nat, a: Action)
    requires Inv(h, hash) && Enabled(h, a)
    ensures Next(h, hash, a).lastMerge ==
            if Into(a).Some? then Into(a)
            else if a.Enter? && h.lastMerge.None? && a.rq.mergeable then Some(a.id)
            else if h.lastMerge.Some? && OutOf(a) == h.lastMerge then None
            else h.lastMerge
  {
    hide BucketOk, Del, Add, Search;
  }

  lemma {:induction false} CacheFollows(hash: nat -> nat, done: seq<Action>, h: H, acts: seq<Action>)
    requires Inv(h, hash) && h.lastMerge == Latest(done) && CanRun(h, hash, acts)
    ensures Run(h, hash, acts).lastMerge == Latest(done + acts)
    decreases |acts|
  {
    hide Inv, Next, Enabled;
    if |acts| == 0 {
      assert done + acts == done;
    } else {
      StepKeeps(h, hash, acts[0]);
      StepLatest(h, hash, acts[0]);
      assert (done + [acts[0]])[..|done|] == done;
      assert (done + [acts[0]]) + acts[1..] == done + acts;
      CacheFollows(hash, done + [acts[0]], Next(h, hash, acts[0]), acts[1..]);
    }
  }

  /** In every run from an empty scheduler the one-hit cache holds the request merged into last. */
  lemma CacheIsLatest(hash: nat -> nat, acts: seq<Action>)
    requires Inv(Init(), hash) && CanRun(Init(), hash, acts)
    ensures Run(Init(), hash, acts).lastMerge == Latest(acts)
  {
    hide Inv, CanRun, Run;
    assert [] + acts == acts;
    CacheFollows(hash, [], Init(), acts);
  }

  // ----- in place -----

  class Table {
    var rqs: map<nat, Rq>
    var buckets: seq<seq<nat>>

    /** `elv_rqhash_find`: walks one bucket and unlinks what may no longer be merged on the way. */
    method Find(hash: nat -> nat, sector: nat) returns (r: Option<nat>)
      requires hash(sector) < |buckets| && forall x :: x in buckets[hash(sector)] ==> x in rqs
      requires Distinct(buckets[hash(sector)])
      modifies this`buckets
      ensures var (found, rest) := Search(H(rqs, {}, old(buckets), None), old(buckets)[hash(sector)], sector);
              r == found && buckets == old(buckets)[hash(sector) := rest]
    {
      var b := hash(sector);
      ghost var h := H(rqs, {}, buckets, None);
      var kept, todo := [], buckets[b];
      ghost var all := todo;
      ghost var whole := Search(h, all, sector);
      while |todo| > 0
        invariant forall x :: x in todo ==> x in rqs
        invariant whole.0 == Search(h, todo, sector).0 && whole.1 == kept + Search(h, todo, sector).1
        invariant buckets == old(buckets)
        decreases |todo|
      {
        var id := todo[0];
        if !rqs[id].mergeable {
          todo := todo[1..];
        } else if End(rqs[id]) == sector {
          buckets := buckets[b := kept + todo];
          return Some(id);
        } else {
          assert kept + ([id] + Search(h, todo[1..], sector).1) == (kept + [id]) + Search(h, todo[1..], sector).1;
          kept, todo := kept + [id], todo[1..];
        }
      }
      assert whole.1 == kept;
      buckets := buckets[b := kept];
      r := None;
    }
  }
}
