/** The deadline I/O scheduler.  Every queued request sits in the sector-sorted list of its
    direction (the rb-tree, abstracted to its in-order sequence) and in the FIFO of that
    direction; `next` caches where the running batch goes on.  Requests are named by ids and
    their changing attributes are kept in `info`. */
module Deadline {
  import opened Common
  import opened RequestLists

  /** One value per direction. */
  datatype Both<T> = Both(read: T, write: T) {
    function Get(dir: Dir): T { if dir == Read then read else write }

    function Set(dir: Dir, v: T): Both<T> { if dir == Read then this.(read := v) else this.(write := v) }
  }

  datatype Tunables = Tunables(expire: Both<nat>, fifoBatch: nat, writesStarved: nat)

  datatype D = D(
    info: Infos,
    sort: Both<seq<nat>>,
    fifo: Both<seq<nat>>,
    next: Both<Option<nat>>,
    batching: nat,
    starved: nat,
    lastSector: nat,
    dispatched: seq<nat>,
    nrSorted: int,
    now: int)

  function Init(now: int): D {
    D(map[], Both([], []), Both([], []), Both(None, None), 0, 0, 0, [], 0, now)
  }

  // ----- operations -----

  /** `deadline_remove_request`. */
  function Remove(d: D, id: nat): D
    requires id in d.info
  {
    var dir := d.info[id].dir;
    var next := if d.next.Get(dir) == Some(id) then d.next.Set(dir, Latter(d.sort.Get(dir), id)) else d.next;
    d.(fifo := d.fifo.Set(dir, Without(d.fifo.Get(dir), id)),
       sort := d.sort.Set(dir, Without(d.sort.Get(dir), id)),
       next := next)
  }

  /** `deadline_move_request`: on to the dispatch list, with the batch going on behind it. */
  function Move(d: D, id: nat): D
    requires id in d.info
  {
    var dir := d.info[id].dir;
    var d1 := d.(next := Both(None, None).Set(dir, Latter(d.sort.Get(dir), id)),
                 lastSector := d.info[id].pos + d.info[id].len);
    var d2 := Remove(d1, id);
    d2.(dispatched := d2.dispatched + [id], nrSorted := d2.nrSorted - 1)
  }

  /** Links `id` into the sorted list once no alias is in the way. */
  function Link(d: D, id: nat): D
    requires id in d.info && Known(d.info, d.sort.Get(d.info[id].dir))
  {
    var dir := d.info[id].dir;
    d.(sort := d.sort.Set(dir, InsertSorted(d.info, d.sort.Get(dir), id, d.info[id].pos)))
  }

  /** A request already at the sector of `id` is dispatched to make room for it. */
  function MakeRoom(d: D, id: nat): D
    requires id in d.info && Known(d.info, d.sort.Get(d.info[id].dir))
  {
    var alias := AtPos(d.info, d.sort.Get(d.info[id].dir), d.info[id].pos);
    if alias.Some? then Move(d, alias.value) else d
  }

  /** `deadline_add_rq_rb`. */
  function AddSorted(d: D, id: nat): D
    requires id in d.info && Known(d.info, d.sort.Get(d.info[id].dir))
  {
    Link(MakeRoom(d, id), id)
  }

  /** A new request before it is put on any list. */
  function Arrive(d: D, t: Tunables, id: nat, dir: Dir, pos: nat, len: nat): D {
    d.(info := d.info[id := Info(dir, pos, len, d.now + t.expire.Get(dir))], nrSorted := d.nrSorted + 1)
  }

  /** `list_add_tail` on the FIFO. */
  function Append(d: D, id: nat): D
    requires id in d.info
  {
    var dir := d.info[id].dir;
    d.(fifo := d.fifo.Set(dir, d.fifo.Get(dir) + [id]))
  }

  /** `elv_insert` with ELEVATOR_INSERT_SORT and `deadline_add_request`. */
  function Add(d: D, t: Tunables, id: nat, dir: Dir, pos: nat, len: nat): D
    requires id !in d.info && Known(d.info, d.sort.Get(dir))
  {
    Append(AddSorted(Arrive(d, t, id, dir, pos, len), id), id)
  }

  /** Takes the request off the tree alone, leaving `next` as it is, and gives it its new start. */
  function Unlink(d: D, id: nat, pos: nat): D
    requires id in d.info
  {
    var dir := d.info[id].dir;
    d.(sort := d.sort.Set(dir, Without(d.sort.Get(dir), id)), info := d.info[id := d.info[id].(pos := pos)])
  }

  /** `deadline_merged_request` after a front merge that moved the request to `pos`. */
  function FrontMerged(d: D, id: nat, pos: nat): D
    requires id in d.info && Known(d.info, d.sort.Get(d.info[id].dir))
  {
    AddSorted(Unlink(d, id, pos), id)
  }

  /** The deadline of `other` and its place in the FIFO go to `id` when it is the earlier one. */
  function Inherit(d: D, id: nat, other: nat): D
    requires id in d.info && other in d.info
  {
    var dir := d.info[id].dir;
    if d.info[other].expiry < d.info[id].expiry then
      d.(fifo := d.fifo.Set(dir, InsertBehind(Without(d.fifo.Get(dir), id), id, other)),
         info := d.info[id := d.info[id].(expiry := d.info[other].expiry)])
    else d
  }

  /** `elv_merge_requests` with `deadline_merged_requests`: `other` goes away into `id`. */
  function MergedRequests(d: D, id: nat, other: nat): D
    requires id in d.info && other in d.info
  {
    var d1 := Remove(Inherit(d, id, other), other);
    d1.(nrSorted := d1.nrSorted - 1)
  }

  predicate Dispatchable(d: D) {
    && Known(d.info, d.fifo.read) && Known(d.info, d.fifo.write)
    && (d.next.read.Some? ==> d.next.read.value in d.info)
    && (d.next.write.Some? ==> d.next.write.value in d.info)
  }

  /** The direction chosen once no batch runs; none when nothing is queued. */
  function ChooseDir(d: D, t: Tunables): Option<Dir> {
    if |d.fifo.read| > 0 then
      if |d.fifo.write| > 0 && d.starved >= t.writesStarved then Some(Write) else Some(Read)
    else if |d.fifo.write| > 0 then Some(Write)
    else None
  }

  /** `starved` after that choice: counted up while reads go first, cleared by a write. */
  function Starved(d: D, dir: Dir): nat {
    if dir == Write then 0 else if |d.fifo.write| > 0 then d.starved + 1 else d.starved
  }

  /** The request a running batch would go on with. */
  function Batch(d: D): Option<nat> { if d.next.write.Some? then d.next.write else d.next.read }

  /** The request that opens a new batch in `dir`. */
  function Opening(d: D, dir: Dir): (rq: nat)
    requires Dispatchable(d) && |d.fifo.Get(dir)| > 0
    ensures rq in d.info
  {
    var head := d.fifo.Get(dir)[0];
    if d.now > d.info[head].expiry || d.next.Get(dir).None? then head else d.next.Get(dir).value
  }

  /** The running batch still has a request and is entitled to it. */
  predicate Batching(d: D, t: Tunables) { Batch(d).Some? && d.batching < t.fifoBatch }

  /** The request a dispatch call moves; none when it returns 0. */
  function Chosen(d: D, t: Tunables): (rq: Option<nat>)
    requires Dispatchable(d)
    ensures rq.Some? ==> rq.value in d.info
  {
    if Batching(d, t) then Batch(d)
    else match ChooseDir(d, t) case None => None case Some(dir) => Some(Opening(d, dir))
  }

  /** The counters as that call leaves them. */
  function Counted(d: D, t: Tunables): D {
    if Batching(d, t) then d.(batching := d.batching + 1)
    else match ChooseDir(d, t) case None => d case Some(dir) => d.(starved := Starved(d, dir), batching := 1)
  }

  /** `deadline_dispatch_requests`. */
  function Dispatch(d: D, t: Tunables): D
    requires Dispatchable(d)
  {
    match Chosen(d, t) case None => d case Some(rq) => Move(Counted(d, t), rq)
  }

  // ----- runs -----

  datatype Action =
    | Tick(delta: nat)
    | Submit(id: nat, dir: Dir, pos: nat, len: nat)
    | Grow(id: nat, len: nat)
    | Front(id: nat, pos: nat)
    | Merge(id: nat, other: nat)
    | Pull

  /** A request sits on the lists. */
  predicate Queued(d: D, id: nat) {
    id in d.info && id in d.sort.Get(d.info[id].dir)
  }

  predicate Enabled(d: D, a: Action) {
    match a
    case Submit(id, dir, pos, len) => id !in d.info
    case Grow(id, len) => Queued(d, id)
    case Front(id, pos) => Queued(d, id)
    case Merge(id, other) => Queued(d, id) && Queued(d, other) && id != other && d.info[id].dir == d.info[other].dir
    case _ => true
  }

  predicate Ready(d: D) {
    Dispatchable(d) && Known(d.info, d.sort.read) && Known(d.info, d.sort.write)
  }

  function Next(d: D, t: Tunables, a: Action): D
    requires Ready(d) && Enabled(d, a)
  {
    match a
    case Tick(delta) => d.(now := d.now + delta)
    case Submit(id, dir, pos, len) => Add(d, t, id, dir, pos, len)
    case Grow(id, len) => d.(info := d.info[id := d.info[id].(len := len)])
    case Front(id, pos) => FrontMerged(d, id, pos)
    case Merge(id, other) => MergedRequests(d, id, other)
    case Pull => Dispatch(d, t)
  }
}
