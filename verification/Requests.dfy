/** Building requests out of bios: preparation, back merge, front merge and the merge of two
    requests, over whole runs of submissions.  Every operation is a function on values, used
    to speak about runs; the class in `RequestObject` performs the same operations in place. */
module Requests {
  import opened Common
  import opened Segments

  datatype FailBit = Dev | Transport | Driver

  const FAILFAST_MASK: set<FailBit> := {Dev, Transport, Driver}

  const SECTOR := 512

  /** `asked` is history, read by the statements of properties only: the failfast bits that the bio was
      submitted with, while `failfast` holds those it carries now. */
  datatype Bio = Bio(
    id: nat,
    sector: nat,
    size: nat,
    dir: Dir,
    failfast: set<FailBit>,
    asked: set<FailBit>,
    ahead: bool,
    discard: bool,
    barrier: bool,
    disk: nat,
    integrity: bool,
    bvecs: seq<Bvec>,
    segFront: nat,
    segBack: nat,
    physSegments: nat,
    segValid: bool)

  datatype Rq = Rq(
    sector: nat,
    dataLen: nat,
    dir: Dir,
    bios: seq<Bio>,
    nrPhysSegments: int,
    failfast: set<FailBit>,
    mixed: bool,
    noMerge: bool,
    started: bool,
    hardBarrier: bool,
    softBarrier: bool,
    disk: nat,
    special: bool,
    integrity: bool)

  predicate HasData(bio: Bio) { |bio.bvecs| > 0 }

  function BioSectors(bio: Bio): nat { bio.size / SECTOR }

  function RqSectors(rq: Rq): nat { rq.dataLen / SECTOR }

  function Max(a: nat, b: nat): nat { if a < b then b else a }

  function First<T>(s: seq<T>): T requires |s| > 0 { s[0] }

  function Last<T>(s: seq<T>): T requires |s| > 0 { s[|s| - 1] }

  /** All pieces of a chain of bios, in order. */
  function Bvecs(bios: seq<Bio>): seq<Bvec> {
    if |bios| == 0 then [] else Bvecs(bios[..|bios| - 1]) + Last(bios).bvecs
  }

  function TotalSize(bios: seq<Bio>): nat {
    if |bios| == 0 then 0 else TotalSize(bios[..|bios| - 1]) + Last(bios).size
  }

  function Ids(bios: seq<Bio>): multiset<nat> {
    if |bios| == 0 then multiset{} else Ids(bios[..|bios| - 1]) + multiset{Last(bios).id}
  }

  lemma {:induction false} BvecsConcat(x: seq<Bio>, y: seq<Bio>)
    ensures Bvecs(x + y) == Bvecs(x) + Bvecs(y)
  {
    if |y| == 0 {
      assert x + y == x;
    } else {
      assert (x + y)[..|x + y| - 1] == x + y[..|y| - 1];
      BvecsConcat(x, y[..|y| - 1]);
    }
  }

  lemma {:induction false} SizeConcat(x: seq<Bio>, y: seq<Bio>)
    ensures TotalSize(x + y) == TotalSize(x) + TotalSize(y)
  {
    if |y| == 0 {
      assert x + y == x;
    } else {
      assert (x + y)[..|x + y| - 1] == x + y[..|y| - 1];
      SizeConcat(x, y[..|y| - 1]);
    }
  }

  lemma {:induction false} IdsConcat(x: seq<Bio>, y: seq<Bio>)
    ensures Ids(x + y) == Ids(x) + Ids(y)
  {
    if |y| == 0 {
      assert x + y == x;
    } else {
      assert (x + y)[..|x + y| - 1] == x + y[..|y| - 1];
      IdsConcat(x, y[..|y| - 1]);
    }
  }

  lemma ChainOne(bio: Bio)
    ensures Bvecs([bio]) == bio.bvecs && TotalSize([bio]) == bio.size && Ids([bio]) == multiset{bio.id}
  {
    assert [bio][..0] == [];
  }

  // ----- counting segments -----

  /** The first bio learns the size of the first segment, the last bio that of the last one;
      neither size ever shrinks. */
  function Noted(bios: seq<Bio>, front: nat, back: nat): (r: seq<Bio>)
    requires |bios| > 0
    ensures |r| == |bios|
  {
    var f := bios[0 := bios[0].(segFront := Max(bios[0].segFront, front))];
    f[|f| - 1 := Last(f).(segBack := Max(Last(f).segBack, back))]
  }

  /** What the counting loop leaves in a chain. */
  function RecalcChain(q: Limits, bios: seq<Bio>): (r: seq<Bio>)
    ensures |r| == |bios|
  {
    if |bios| == 0 then [] else
    var b := Bvecs(bios);
    var c := CountCuts(q, b);
    Noted(bios, FirstSize(b, c), LastSize(b, c))
  }

  function RecalcCount(q: Limits, bios: seq<Bio>): nat {
    Count(CountCuts(q, Bvecs(bios)))
  }

  /** `blk_recount_segments` on a bio whose cached count is stale. */
  function Recounted(q: Limits, bio: Bio): Bio {
    if bio.segValid then bio
    else RecalcChain(q, [bio])[0].(physSegments := RecalcCount(q, [bio]), segValid := true)
  }

  // ----- the merge functions -----

  function Mergeable(rq: Rq): bool {
    !(rq.noMerge || rq.started || rq.hardBarrier || rq.softBarrier)
  }

  predicate MergeOk(rq: Rq, bio: Bio)
    requires |rq.bios| > 0
  {
    && Mergeable(rq)
    && bio.discard == First(rq.bios).discard
    && bio.dir == rq.dir
    && rq.disk == bio.disk && !rq.special
    && bio.integrity == rq.integrity
  }

  datatype MergeKind = NoMerge | BackMerge | FrontMerge

  function TryMerge(rq: Rq, bio: Bio): MergeKind
    requires |rq.bios| > 0
  {
    if !MergeOk(rq, bio) then NoMerge
    else if rq.sector + RqSectors(rq) == bio.sector then BackMerge
    else if bio.sector + BioSectors(bio) == rq.sector then FrontMerge
    else NoMerge
  }

  /** `max_sectors` is kept in an unsigned short while a bio is merged. */
  function BioMergeSectors(q: Limits): nat { q.maxSectors % 0x1_0000 }

  datatype LlResult = LlResult(ok: bool, rq: Rq, bio: Bio)

  function NewHwSegment(q: Limits, rq: Rq, bio: Bio): LlResult {
    var b := Recounted(q, bio);
    var n := rq.nrPhysSegments + b.physSegments;
    if n > q.maxHwSegments || n > q.maxPhysSegments then LlResult(false, rq.(noMerge := true), b)
    else LlResult(true, rq.(nrPhysSegments := n), b)
  }

  /** The test before a bio joins the end of the chain at index `at`. */
  function LlMergeAt(q: Limits, rq: Rq, bio: Bio, at: nat): LlResult
    requires at < |rq.bios|
  {
    if RqSectors(rq) + BioSectors(bio) > BioMergeSectors(q) then LlResult(false, rq.(noMerge := true), bio)
    else NewHwSegment(q, rq.(bios := rq.bios[at := Recounted(q, rq.bios[at])]), bio)
  }

  function LlBackMerge(q: Limits, rq: Rq, bio: Bio): LlResult
    requires |rq.bios| > 0
  {
    LlMergeAt(q, rq, bio, |rq.bios| - 1)
  }

  function LlFrontMerge(q: Limits, rq: Rq, bio: Bio): LlResult
    requires |rq.bios| > 0
  {
    LlMergeAt(q, rq, bio, 0)
  }

  /** Whether the last segment of `bio` runs on into `nxt`.  A bio without data counts as
      contiguous; the source then never looks at `nxt`, which it otherwise takes to have data. */
  function PhysContig(q: Limits, bio: Bio, nxt: Bio): bool {
    && q.cluster
    && bio.segBack + nxt.segFront <= q.maxSegmentSize
    && (!HasData(bio) || (HasData(nxt) && Joinable(q, Last(bio.bvecs), First(nxt.bvecs))))
  }

  /** A chain of one segment learns the size it will have as the front of a merged request. */
  function WithFront(bios: seq<Bio>, nr: int, size: nat): seq<Bio>
    requires |bios| > 0
  {
    if nr == 1 then bios[0 := First(bios).(segFront := size)] else bios
  }

  function WithBack(bios: seq<Bio>, nr: int, size: nat): seq<Bio>
    requires |bios| > 0
  {
    if nr == 1 then bios[|bios| - 1 := Last(bios).(segBack := size)] else bios
  }

  /** The verdict on two requests: both chains, with the sizes noted on the way, and the
      segment count of the whole. */
  datatype LlMerge = LlMerge(ok: bool, bios: seq<Bio>, nextBios: seq<Bio>, nr: int)

  function LlMergeRequests(q: Limits, rq: Rq, next: Rq): LlMerge
    requires |rq.bios| > 0 && |next.bios| > 0
  {
    var size := Last(rq.bios).segBack + First(next.bios).segFront;
    var sum := rq.nrPhysSegments + next.nrPhysSegments;
    if rq.special || next.special || RqSectors(rq) + RqSectors(next) > q.maxSectors
    then LlMerge(false, rq.bios, next.bios, rq.nrPhysSegments)
    else if PhysContig(q, Last(rq.bios), First(next.bios))
    then LlMerge(sum - 1 <= q.maxPhysSegments && sum - 1 <= q.maxHwSegments,
                 WithFront(rq.bios, rq.nrPhysSegments, size), WithBack(next.bios, next.nrPhysSegments, size), sum - 1)
    else LlMerge(sum <= q.maxPhysSegments && sum <= q.maxHwSegments, rq.bios, next.bios, sum)
  }

  function AddFailfast(bios: seq<Bio>, ff: set<FailBit>): (r: seq<Bio>)
    ensures |r| == |bios|
    ensures forall i :: 0 <= i < |bios| ==> r[i] == bios[i].(failfast := bios[i].failfast + ff)
  {
    seq(|bios|, i requires 0 <= i < |bios| => bios[i].(failfast := bios[i].failfast + ff))
  }

  function SetMixedMerge(rq: Rq): (r: Rq) {
    if rq.mixed then rq else rq.(bios := AddFailfast(rq.bios, rq.failfast), mixed := true)
  }

  /** Both requests after an attempt to merge them; on success `next` has lost its bios. */
  datatype Merged = Merged(ok: bool, rq: Rq, next: Rq)

  predicate Neighbours(rq: Rq, next: Rq) {
    && Mergeable(rq) && Mergeable(next)
    && rq.sector + RqSectors(rq) == next.sector
    && rq.dir == next.dir && rq.disk == next.disk && !next.special
    && rq.integrity == next.integrity
  }

  function AttemptMerge(q: Limits, rq: Rq, next: Rq): Merged
    requires |rq.bios| > 0 && |next.bios| > 0
  {
    if Neighbours(rq, next) then MergeNeighbours(q, rq, next) else Merged(false, rq, next)
  }

  function MergeNeighbours(q: Limits, rq: Rq, next: Rq): Merged
    requires |rq.bios| > 0 && |next.bios| > 0
  {
    var m := LlMergeRequests(q, rq, next);
    var r, n := rq.(bios := m.bios), next.(bios := m.nextBios);
    if m.ok then JoinMixed(r, n, m.nr) else Merged(false, r, n)
  }

  /** Joins two requests, marking both mixed first when their failfast settings disagree. */
  function JoinMixed(r: Rq, n: Rq, nr: int): Merged {
    if r.mixed || n.mixed || r.failfast != n.failfast
    then Merged(true, JoinRequests(SetMixedMerge(r), SetMixedMerge(n), nr), SetMixedMerge(n).(bios := []))
    else Merged(true, JoinRequests(r, n, nr), n.(bios := []))
  }

  function JoinRequests(rq: Rq, next: Rq, nr: int): Rq {
    rq.(bios := rq.bios + next.bios, dataLen := rq.dataLen + next.dataLen, nrPhysSegments := nr)
  }

  // ----- __make_request -----

  function InitFromBio(q: Limits, bio0: Bio): Rq {
    var bio := if HasData(bio0) then Recounted(q, bio0) else bio0;
    Rq(bio.sector, bio.size, bio.dir, [bio],
       if HasData(bio) then bio.physSegments else 0,
       if bio.ahead then FAILFAST_MASK else bio.failfast,
       false, false, false,
       bio.barrier && !bio.discard, bio.barrier && bio.discard,
       bio.disk, false, bio.integrity)
  }

  /** Appends a bio that the low-level test admitted. */
  function AppendBio(m: LlResult): Rq {
    var rq := if m.rq.failfast != m.bio.failfast then SetMixedMerge(m.rq) else m.rq;
    rq.(bios := rq.bios + [m.bio], dataLen := rq.dataLen + m.bio.size)
  }

  /** The failfast bits of a new first bio become those of the request. */
  function TakeFailfast(rq: Rq, ff: set<FailBit>): Rq {
    if rq.failfast != ff then SetMixedMerge(rq).(failfast := ff) else rq
  }

  function PrependBio(m: LlResult): Rq {
    var rq := TakeFailfast(m.rq, m.bio.failfast);
    rq.(bios := [m.bio] + rq.bios, sector := m.bio.sector, dataLen := rq.dataLen + m.bio.size)
  }
}
