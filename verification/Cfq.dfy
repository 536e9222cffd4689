/** The completely fair queueing scheduler.  Each process group has a queue with a sector-sorted tree,
    a FIFO and a cached next request; queues with requests are on a service tree whose first node is
    cached, and several counters cache what the lists hold. */
module Cfq {
  import opened Common
  import opened RequestLists

  /** The queue a request belongs to, and the two flags the choice of the next request looks at. */
  datatype Attr = Attr(queue: nat, sync: bool, meta: bool)

  type Attrs = map<nat, Attr>

  datatype Cfqq = Cfqq(
    sync: bool,
    rt: bool,
    idle: bool,
    key: int,
    sort: seq<nat>,
    fifo: seq<nat>,
    next: Option<nat>,
    onRr: bool,
    queuedSync: int,
    queuedAsync: int,
    dispatched: int)

  datatype Tunables = Tunables(backMax: nat, backPenalty: nat, expireSync: nat, expireAsync: nat)

  /** `cfq_data`; `flight` lists what is on the dispatch list or in the driver. */
  datatype C = C(
    info: Infos,
    attr: Attrs,
    queues: seq<Cfqq>,
    tree: seq<nat>,
    left: Option<nat>,
    busy: int,
    rqQueued: int,
    syncFlight: int,
    lastPos: nat,
    flight: seq<nat>,
    now: int)

  function Init(now: int): C { C(map[], map[], [], [], None, 0, 0, 0, 0, [], now) }

  // ----- the next request -----

  /** Distance of a request from the head, or none when it lies too far behind and would wrap. */
  function Distance(c: C, t: Tunables, pos: nat): Option<nat> {
    if pos >= c.lastPos then Some(pos - c.lastPos)
    else if pos + 2 * t.backMax >= c.lastPos then Some((c.lastPos - pos) * t.backPenalty)
    else None
  }

  /** The position part of `cfq_choose_req`: is the first the better one? */
  predicate Closer(c: C, t: Tunables, p1: nat, p2: nat) {
    match (Distance(c, t, p1), Distance(c, t, p2))
    case (Some(d1), Some(d2)) => if d1 != d2 then d1 < d2 else p1 >= p2
    case (Some(_), None) => true
    case (None, Some(_)) => false
    case (None, None) => p1 <= p2
  }

  /** `cfq_choose_req`. */
  function Choose(c: C, t: Tunables, a: Option<nat>, b: Option<nat>): (r: Option<nat>)
    requires a.Some? ==> a.value in c.info && a.value in c.attr
    requires b.Some? ==> b.value in c.info && b.value in c.attr
    ensures r == a || r == b
    ensures r.None? <==> a.None? && b.None?
  {
    if a.None? || a == b then b
    else if b.None? then a
    else
      var x, y := c.attr[a.value], c.attr[b.value];
      if x.sync != y.sync then (if x.sync then a else b)
      else if x.meta != y.meta then (if x.meta then a else b)
      else if Closer(c, t, c.info[a.value].pos, c.info[b.value].pos) then a else b
  }

  /** The request in front of `id` in sector order. */
  function Former(s: seq<nat>, id: nat): (r: Option<nat>)
    ensures r.Some? ==> r.value in s && r.value != id
  {
    if |s| < 2 || s[0] == id then None
    else if s[1] == id then Some(s[0])
    else Former(s[1..], id)
  }

  /** The request behind `id`, going round to the first one. */
  function NextOrFirst(s: seq<nat>, id: nat): (r: Option<nat>)
    ensures r.Some? ==> r.value in s
  {
    if Latter(s, id).Some? then Latter(s, id)
    else if |s| > 0 && s[0] != id then Some(s[0])
    else None
  }

  predicate KnownTo(attr: Attrs, s: seq<nat>) { forall x :: x in s ==> x in attr }

  /** `cfq_find_next_rq`. */
  function FindNext(c: C, t: Tunables, s: seq<nat>, id: nat): Option<nat>
    requires Known(c.info, s) && KnownTo(c.attr, s)
  {
    Choose(c, t, NextOrFirst(s, id), Former(s, id))
  }

  // ----- the service tree -----

  /** Does a queue with this class and key go to the left of `o`? */
  predicate GoesLeft(q: Cfqq, key: int, o: Cfqq) {
    if q.rt != o.rt then q.rt
    else if q.idle != o.idle then o.idle
    else key < o.key
  }

  predicate Exists(queues: seq<Cfqq>, qi: nat) { qi < |queues| }

  predicate InRange(queues: seq<Cfqq>, tree: seq<nat>) { forall i :: i in tree ==> Exists(queues, i) }

  /** Insertion into the service tree, behind equals. */
  function InsertQueue(queues: seq<Cfqq>, tree: seq<nat>, qi: nat, key: int): (r: seq<nat>)
    requires InRange(queues, tree) && qi < |queues|
    ensures |r| == |tree| + 1
    ensures forall i :: i in r <==> i in tree || i == qi
  {
    if |tree| == 0 then [qi]
    else if Exists(queues, tree[0]) && GoesLeft(queues[qi], key, queues[tree[0]]) then [qi] + tree
    else [tree[0]] + InsertQueue(queues, tree[1..], qi, key)
  }

  /** `cfq_rb_erase`. */
  function Erase(c: C, qi: nat): C {
    c.(left := if c.left == Some(qi) then None else c.left, tree := Without(c.tree, qi))
  }

  /** The linking half of `cfq_service_tree_add`: a new leftmost node is cached. */
  function Hang(c: C, qi: nat, key: int): C
    requires InRange(c.queues, c.tree) && qi < |c.queues|
  {
    var tree := InsertQueue(c.queues, c.tree, qi, key);
    c.(tree := tree, left := if tree[0] == qi then Some(qi) else c.left,
       queues := c.queues[qi := c.queues[qi].(key := key)])
  }

  /** `cfq_service_tree_add` once the key is known. */
  function TreeAdd(c: C, qi: nat, key: int): C
    requires InRange(c.queues, c.tree) && qi < |c.queues|
  {
    if qi !in c.tree then Hang(c, qi, key)
    else if key == c.queues[qi].key then c
    else Hang(Erase(c, qi), qi, key)
  }

  /** `cfq_rb_first`: fills the cache when it is empty. */
  function First(c: C): C { c.(left := if c.left.None? && |c.tree| > 0 then Some(c.tree[0]) else c.left) }

  /** `cfq_add_cfqq_rr`. */
  function AddRr(c: C, qi: nat, key: int): C
    requires InRange(c.queues, c.tree) && qi < |c.queues|
  {
    TreeAdd(c.(queues := c.queues[qi := c.queues[qi].(onRr := true)], busy := c.busy + 1), qi, key)
  }

  /** `cfq_del_cfqq_rr`. */
  function DelRr(c: C, qi: nat): C
    requires qi < |c.queues|
  {
    Erase(c.(queues := c.queues[qi := c.queues[qi].(onRr := false)], busy := c.busy - 1), qi)
  }

  // ----- requests -----

  function Queued(q: Cfqq, sync: bool, n: int): Cfqq {
    if sync then q.(queuedSync := q.queuedSync + n) else q.(queuedAsync := q.queuedAsync + n)
  }

  /** What removing `id` does inside its queue. */
  function TakeOff(c: C, t: Tunables, q: Cfqq, id: nat): Cfqq
    requires id in c.attr && Known(c.info, q.sort) && KnownTo(c.attr, q.sort)
  {
    var next := if q.next == Some(id) then FindNext(c, t, q.sort, id) else q.next;
    Queued(q.(next := next, fifo := Without(q.fifo, id), sort := Without(q.sort, id)), c.attr[id].sync, -1)
  }

  predicate OwnedBy(attr: Attrs, s: seq<nat>, qi: nat) { forall x :: x in s ==> x in attr && attr[x].queue == qi }

  predicate Here(c: C, id: nat) {
    && id in c.attr && id in c.info && c.attr[id].queue < |c.queues|
    && Known(c.info, c.queues[c.attr[id].queue].sort)
    && OwnedBy(c.attr, c.queues[c.attr[id].queue].sort, c.attr[id].queue)
  }

  /** `cfq_remove_request`; a queue that runs empty leaves the service tree. */
  function Remove(c: C, t: Tunables, id: nat): C
    requires Here(c, id)
  {
    var qi := c.attr[id].queue;
    var q := TakeOff(c, t, c.queues[qi], id);
    var c1 := c.(queues := c.queues[qi := q], rqQueued := c.rqQueued - 1);
    if q.onRr && |q.sort| == 0 then DelRr(c1, qi) else c1
  }

  /** The counting half of `cfq_dispatch_insert`. */
  function Send(c: C, id: nat): C
    requires id in c.attr && c.attr[id].queue < |c.queues|
  {
    var qi := c.attr[id].queue;
    c.(queues := c.queues[qi := c.queues[qi].(dispatched := c.queues[qi].dispatched + 1)],
       flight := c.flight + [id],
       syncFlight := c.syncFlight + (if c.queues[qi].sync then 1 else 0))
  }

  /** The caching half: the next request is looked up before `id` is taken off. */
  function Advance(c: C, t: Tunables, id: nat): C
    requires Here(c, id)
  {
    var qi := c.attr[id].queue;
    c.(queues := c.queues[qi := c.queues[qi].(next := FindNext(c, t, c.queues[qi].sort, id))])
  }

  /** `cfq_dispatch_insert`. */
  function DispatchInsert(c: C, t: Tunables, id: nat): C
    requires Here(c, id)
  {
    Send(Remove(Advance(c, t, id), t, id), id)
  }

  /** A request at the sector of `id` is dispatched to make room for it. */
  function MakeRoom(c: C, t: Tunables, id: nat): C
    requires Here(c, id)
  {
    var alias := AtPos(c.info, c.queues[c.attr[id].queue].sort, c.info[id].pos);
    if alias.Some? then DispatchInsert(c, t, alias.value) else c
  }

  /** What linking `id` does inside its queue; it may become the next request. */
  function PutOn(c: C, t: Tunables, q: Cfqq, id: nat): Cfqq
    requires id in c.attr && id in c.info && Known(c.info, q.sort) && KnownTo(c.attr, q.sort)
    requires q.next.Some? ==> q.next.value in c.info && q.next.value in c.attr
  {
    Queued(q.(sort := InsertSorted(c.info, q.sort, id, c.info[id].pos), next := Choose(c, t, q.next, Some(id))),
           c.attr[id].sync, 1)
  }

  predicate Linkable(c: C, id: nat) {
    && Here(c, id) && InRange(c.queues, c.tree)
    && var next := c.queues[c.attr[id].queue].next; next.Some? ==> next.value in c.info && next.value in c.attr
  }

  /** Links `id`; a queue that was not busy joins the service tree with `key`. */
  function Link(c: C, t: Tunables, id: nat, key: int): C
    requires Linkable(c, id)
  {
    var qi := c.attr[id].queue;
    var q := c.queues[qi];
    var c1 := c.(queues := c.queues[qi := PutOn(c, t, q, id)]);
    if q.onRr then c1 else AddRr(c1, qi, key)
  }

  /** A new request before it is put on any list. */
  function Arrive(c: C, t: Tunables, id: nat, pos: nat, len: nat, dir: Dir, attr: Attr): C {
    var expiry := c.now + (if attr.sync then t.expireSync else t.expireAsync);
    c.(info := c.info[id := Info(dir, pos, len, expiry)], attr := c.attr[id := attr], rqQueued := c.rqQueued + 1)
  }

  function Append(c: C, id: nat): C
    requires id in c.attr && c.attr[id].queue < |c.queues|
  {
    var qi := c.attr[id].queue;
    c.(queues := c.queues[qi := c.queues[qi].(fifo := c.queues[qi].fifo + [id])])
  }

  /** The tree half of `cfq_reposition_rq_rb`. */
  function Unlink(c: C, id: nat, pos: nat): C
    requires id in c.info && id in c.attr && c.attr[id].queue < |c.queues|
  {
    var qi := c.attr[id].queue;
    var q := c.queues[qi];
    c.(info := c.info[id := c.info[id].(pos := pos)],
       queues := c.queues[qi := Queued(q.(sort := Without(q.sort, id)), c.attr[id].sync, -1)])
  }

  /** The FIFO half of `cfq_merged_requests`. */
  function Inherit(c: C, id: nat, other: nat): C
    requires id in c.info && other in c.info && id in c.attr && c.attr[id].queue < |c.queues|
  {
    var qi := c.attr[id].queue;
    var q := c.queues[qi];
    if c.info[other].expiry < c.info[id].expiry then
      c.(info := c.info[id := c.info[id].(expiry := c.info[other].expiry)],
         queues := c.queues[qi := q.(fifo := InsertBehind(Without(q.fifo, id), id, other))])
    else c
  }

  /** A queue for a process group that had none. */
  function NewQueue(c: C, sync: bool, rt: bool, idle: bool): C {
    c.(queues := c.queues + [Cfqq(sync, rt, idle, 0, [], [], None, false, 0, 0, 0)])
  }

  /** `cfq_completed_request`, as far as the counters go. */
  function Complete(c: C, id: nat): C
    requires id in c.attr && c.attr[id].queue < |c.queues|
  {
    var qi := c.attr[id].queue;
    c.(queues := c.queues[qi := c.queues[qi].(dispatched := c.queues[qi].dispatched - 1)],
       flight := Without(c.flight, id),
       syncFlight := c.syncFlight - (if c.queues[qi].sync then 1 else 0))
  }
}
