/** Runs of `__make_request` on one queue: any number of submissions, each finding no
    partner, a back merge or a front merge, possibly followed by the merge of two
    requests, interleaved with requests being started. */
module RequestPool {
  import opened Common
  import opened Segments
  import opened Requests
  import opened RequestRuns

  /** The requests still open to merging, those handed on, and the ids of all bios submitted. */
  datatype Pool = Pool(queued: seq<Rq>, handed: seq<Rq>, submitted: multiset<nat>)

  /** `partner` is the neighbour the elevator offers after a merge, if any. */
  datatype Action =
    | Fresh(bio: Bio)
    | Back(bio: Bio, i: nat, partner: Option<nat>)
    | Front(bio: Bio, i: nat, partner: Option<nat>)
    | Start(i: nat)

  function Drop<T>(s: seq<T>, i: nat): seq<T>
    requires i < |s|
  {
    s[..i] + s[i + 1..]
  }

  /** Tries to merge the request at `y` into the one at `x`. */
  function MergePair(q: Limits, rqs: seq<Rq>, x: nat, y: nat): seq<Rq>
    requires x < |rqs| && y < |rqs| && x != y
    requires |rqs[x].bios| > 0 && |rqs[y].bios| > 0
  {
    var m := AttemptMerge(q, rqs[x], rqs[y]);
    if m.ok then Drop(rqs[x := m.rq], y) else rqs[x := m.rq][y := m.next]
  }

  ghost predicate Enabled(q: Limits, s: Pool, a: Action) {
    match a
    case Fresh(bio) => BioOk(q, bio)
    case Back(bio, i, p) => i < |s.queued| && Matched(q, s.queued[i], bio, BackMerge) && PartnerOk(s, i, p)
    case Front(bio, i, p) => i < |s.queued| && Matched(q, s.queued[i], bio, FrontMerge) && PartnerOk(s, i, p)
    case Start(i) => i < |s.queued|
  }

  predicate PartnerOk(s: Pool, i: nat, p: Option<nat>) {
    p.Some? ==> p.value < |s.queued| && p.value != i && |s.queued[p.value].bios| > 0
  }

  ghost function Next(q: Limits, s: Pool, a: Action): Pool
    requires Enabled(q, s, a)
  {
    match a
    case Fresh(bio) =>
      Pool(s.queued + [InitFromBio(q, bio)], s.handed, s.submitted + multiset{bio.id})
    case Back(bio, i, p) =>
      var m := LlBackMerge(q, s.queued[i], bio);
      var rqs := if !m.ok then s.queued[i := m.rq] + [InitFromBio(q, m.bio)]
                 else if p.None? then s.queued[i := AppendBio(m)]
                 else MergePair(q, s.queued[i := AppendBio(m)], i, p.value);
      Pool(rqs, s.handed, s.submitted + multiset{bio.id})
    case Front(bio, i, p) =>
      var m := LlFrontMerge(q, s.queued[i], bio);
      var rqs := if !m.ok then s.queued[i := m.rq] + [InitFromBio(q, m.bio)]
                 else if p.None? then s.queued[i := PrependBio(m)]
                 else MergePair(q, s.queued[i := PrependBio(m)], p.value, i);
      Pool(rqs, s.handed, s.submitted + multiset{bio.id})
    case Start(i) =>
      Pool(Drop(s.queued, i), s.handed + [s.queued[i].(started := true)], s.submitted)
  }

  // ----- the invariant -----

  function AllIds(rqs: seq<Rq>): multiset<nat> {
    if |rqs| == 0 then multiset{} else AllIds(rqs[..|rqs| - 1]) + Ids(Last(rqs).bios)
  }

  ghost predicate AllGood(q: Limits, rqs: seq<Rq>) {
    forall i :: 0 <= i < |rqs| ==> Good(q, rqs[i])
  }

  ghost predicate Inv(q: Limits, s: Pool) {
    && AllGood(q, s.queued) && AllGood(q, s.handed)
    && AllIds(s.queued) + AllIds(s.handed) == s.submitted
  }

  lemma {:induction false} AllIdsDrop(rqs: seq<Rq>, i: nat)
    requires i < |rqs|
    ensures AllIds(Drop(rqs, i)) + Ids(rqs[i].bios) == AllIds(rqs)
  {
    hide Ids;
    var n := |rqs| - 1;
    if i == n {
      assert Drop(rqs, i) == rqs[..n];
    } else {
      assert Drop(rqs, i) == Drop(rqs[..n], i) + [rqs[n]];
      AllIdsSnoc(Drop(rqs[..n], i), rqs[n]);
      AllIdsDrop(rqs[..n], i);
    }
  }

  lemma AllIdsUpdate(rqs: seq<Rq>, i: nat, rq: Rq)
    requires i < |rqs|
    ensures AllIds(rqs) == AllIds(Drop(rqs, i)) + Ids(rqs[i].bios)
    ensures AllIds(rqs[i := rq]) == AllIds(Drop(rqs, i)) + Ids(rq.bios)
  {
    hide Ids, AllIds;
    AllIdsDrop(rqs, i);
    AllIdsDrop(rqs[i := rq], i);
    assert Drop(rqs[i := rq], i) == Drop(rqs, i);
  }

  lemma Cancel(a: multiset<nat>, b: multiset<nat>, x: multiset<nat>)
    requires a + x == b + x
    ensures a == b
  {
    forall id: nat ensures a[id] == b[id] {
      assert (a + x)[id] == (b + x)[id];
    }
  }

  lemma AllIdsSnoc(rqs: seq<Rq>, rq: Rq)
    ensures AllIds(rqs + [rq]) == AllIds(rqs) + Ids(rq.bios)
  {
    assert (rqs + [rq])[..|rqs|] == rqs;
  }

  lemma GoodUpdate(q: Limits, rqs: seq<Rq>, i: nat, rq: Rq)
    requires AllGood(q, rqs) && i < |rqs| && Good(q, rq)
    ensures AllGood(q, rqs[i := rq])
  {}

  lemma GoodDrop(q: Limits, rqs: seq<Rq>, i: nat)
    requires AllGood(q, rqs) && i < |rqs|
    ensures AllGood(q, Drop(rqs, i))
  {}

  lemma MergePairKeeps(q: Limits, rqs: seq<Rq>, x: nat, y: nat)
    requires x < |rqs| && y < |rqs| && x != y && AllGood(q, rqs)
    ensures AllGood(q, MergePair(q, rqs, x, y))
    ensures AllIds(MergePair(q, rqs, x, y)) == AllIds(rqs)
  {
    hide SegOk, FailOk, DataOk, Contiguous, TotalSize, AllIds, Ids, AttemptMerge;
    var m := AttemptMerge(q, rqs[x], rqs[y]);
    AttemptMergeGood(q, rqs[x], rqs[y]);
    GoodUpdate(q, rqs, x, m.rq);
    AllIdsUpdate(rqs, x, m.rq);
    if m.ok {
      GoodDrop(q, rqs[x := m.rq], y);
      AllIdsDrop(rqs[x := m.rq], y);
      Cancel(AllIds(Drop(rqs[x := m.rq], y)), AllIds(rqs), Ids(rqs[y].bios));
    } else {
      GoodUpdate(q, rqs[x := m.rq], y, m.next);
      AllIdsUpdate(rqs[x := m.rq], y, m.next);
    }
  }

  /** A refused bio starts a request of its own. */
  lemma RefusedKeeps(q: Limits, rqs: seq<Rq>, i: nat, rq: Rq, bio: Bio)
    requires i < |rqs| && AllGood(q, rqs) && Good(q, rq) && Ids(rq.bios) == Ids(rqs[i].bios) && BioOk(q, bio)
    ensures AllGood(q, rqs[i := rq] + [InitFromBio(q, bio)])
    ensures AllIds(rqs[i := rq] + [InitFromBio(q, bio)]) == AllIds(rqs) + multiset{bio.id}
  {
    hide SegOk, FailOk, DataOk, Contiguous, TotalSize, AllIds, Ids, InitFromBio;
    InitGood(q, bio);
    AllIdsUpdate(rqs, i, rq);
    AllIdsSnoc(rqs[i := rq], InitFromBio(q, bio));
  }

  lemma BackKeepsInv(q: Limits, s: Pool, bio: Bio, i: nat, p: Option<nat>)
    requires Inv(q, s) && Enabled(q, s, Back(bio, i, p))
    ensures Inv(q, Next(q, s, Back(bio, i, p)))
  {
    hide SegOk, FailOk, DataOk, Contiguous, TotalSize, AllIds, Ids, InitFromBio, TryMerge;
    hide LlBackMerge, LlFrontMerge, AppendBio, PrependBio, AttemptMerge, MergePair;
    var m := LlBackMerge(q, s.queued[i], bio);
    BackMergeGood(q, s.queued[i], bio);
    if !m.ok {
      RefusedKeeps(q, s.queued, i, m.rq, m.bio);
    } else {
      AllIdsUpdate(s.queued, i, AppendBio(m));
      if p.Some? {
        MergePairKeeps(q, s.queued[i := AppendBio(m)], i, p.value);
      }
    }
  }

  lemma FrontKeepsInv(q: Limits, s: Pool, bio: Bio, i: nat, p: Option<nat>)
    requires Inv(q, s) && Enabled(q, s, Front(bio, i, p))
    ensures Inv(q, Next(q, s, Front(bio, i, p)))
  {
    hide SegOk, FailOk, DataOk, Contiguous, TotalSize, AllIds, Ids, InitFromBio, TryMerge;
    hide LlBackMerge, LlFrontMerge, AppendBio, PrependBio, AttemptMerge, MergePair;
    var m := LlFrontMerge(q, s.queued[i], bio);
    FrontMergeGood(q, s.queued[i], bio);
    if !m.ok {
      RefusedKeeps(q, s.queued, i, m.rq, m.bio);
    } else {
      AllIdsUpdate(s.queued, i, PrependBio(m));
      if p.Some? {
        MergePairKeeps(q, s.queued[i := PrependBio(m)], p.value, i);
      }
    }
  }

  lemma StepKeepsInv(q: Limits, s: Pool, a: Action)
    requires Inv(q, s) && Enabled(q, s, a)
    ensures Inv(q, Next(q, s, a))
  {
    hide SegOk, FailOk, DataOk, Contiguous, TotalSize, AllIds, Ids, InitFromBio, TryMerge;
    hide LlBackMerge, LlFrontMerge, AppendBio, PrependBio, AttemptMerge, MergePair;
    match a
    case Fresh(bio) =>
      InitGood(q, bio);
      AllIdsSnoc(s.queued, InitFromBio(q, bio));
    case Back(bio, i, p) => BackKeepsInv(q, s, bio, i, p);
    case Front(bio, i, p) => FrontKeepsInv(q, s, bio, i, p);
    case Start(i) =>
      StartGood(q, s.queued[i]);
      GoodDrop(q, s.queued, i);
      AllIdsDrop(s.queued, i);
      AllIdsSnoc(s.handed, s.queued[i].(started := true));
  }

  lemma StartGood(q: Limits, rq: Rq)
    requires Good(q, rq)
    ensures Good(q, rq.(started := true))
  {}

  // ----- whole runs -----

  ghost predicate Step(q: Limits, s: Pool, s': Pool) {
    exists a :: Enabled(q, s, a) && s' == Next(q, s, a)
  }

  /** A run from the empty queue. */
  ghost predicate IsRun(q: Limits, run: seq<Pool>) {
    && |run| > 0 && run[0] == Pool([], [], multiset{})
    && forall i {:trigger run[i]} :: 0 < i < |run| ==> Step(q, run[i - 1], run[i])
  }

  lemma {:induction false} RunKeepsInv(q: Limits, run: seq<Pool>, n: nat)
    requires IsRun(q, run) && n < |run|
    ensures Inv(q, run[n])
  {
    if n > 0 {
      RunKeepsInv(q, run, n - 1);
      assert Step(q, run[n - 1], run[n]);
      var a :| Enabled(q, run[n - 1], a) && run[n] == Next(q, run[n - 1], a);
      StepKeepsInv(q, run[n - 1], a);
    }
  }

  /** In every state of every run the cached count of a request bounds the list the driver
      will map, and that list names exactly the bytes of the request's bios, in order. */
  lemma SegmentCountBoundsList(q: Limits, run: seq<Pool>, n: nat, rq: Rq)
    requires IsRun(q, run) && n < |run| && (rq in run[n].queued || rq in run[n].handed)
    ensures var b := Bvecs(rq.bios);
            var sg := Entries(b, MapCuts(q, b));
            |sg| <= rq.nrPhysSegments && SgBytes(sg) == BvecBytes(b)
  {
    RunKeepsInv(q, run, n);
    GoodBoundsList(q, rq);
  }

  lemma GoodBoundsList(q: Limits, rq: Rq)
    requires Good(q, rq)
    ensures var b := Bvecs(rq.bios);
            var sg := Entries(b, MapCuts(q, b));
            |sg| == Count(MapCuts(q, b)) <= rq.nrPhysSegments && SgBytes(sg) == BvecBytes(b)
  {
    hide SegOk, MapCuts, SgBytes, BvecBytes, Entries, Bvecs, Count;
    BoundsList(q, rq.bios, rq.nrPhysSegments);
  }

  /** A justified count bounds the list of any chain. */
  lemma BoundsList(q: Limits, bios: seq<Bio>, nr: int)
    requires SegOk(q, bios, nr)
    ensures var b := Bvecs(bios);
            var sg := Entries(b, MapCuts(q, b));
            |sg| == Count(MapCuts(q, b)) <= nr && SgBytes(sg) == BvecBytes(b)
  {
    var b := Bvecs(bios);
    var c :| Witness(q, bios, nr, c);
    GreedyStaysAhead(q, b, c);
    MapCutsValid(q, b);
    EntriesCover(q, b, MapCuts(q, b));
  }

  /** In every state of every run the bios submitted so far are spread over the requests
      without loss or doubling, and each request is one contiguous extent of its bios. */
  lemma BiosAreKept(q: Limits, run: seq<Pool>, n: nat)
    requires IsRun(q, run) && n < |run|
    ensures AllIds(run[n].queued) + AllIds(run[n].handed) == run[n].submitted
    ensures forall rq :: rq in run[n].queued || rq in run[n].handed ==> Extent(rq) && FailOk(rq)
  {
    RunKeepsInv(q, run, n);
  }
}
