/** Exactly when bios and requests are merged, told from the bios themselves, and that no run of merges
    makes a request larger than the queue allows. */
module RequestMerges {
  import opened Common
  import opened Segments
  import opened Requests
  import opened RequestRuns
  import opened RequestPool

  // ----- a bio and a request -----

  /** The sector behind the last bio. */
  function EndOf(bios: seq<Bio>): nat
    requires |bios| > 0
  {
    Last(bios).sector + BioSectors(Last(bios))
  }

  /** Nobody has started the request, marked it or put a barrier or a command of a driver's own into it. */
  predicate Open(rq: Rq) {
    !rq.started && !rq.noMerge && !rq.hardBarrier && !rq.softBarrier && !rq.special
  }

  /** A bio of the same kind, direction, device and integrity setting as those of the request. */
  predicate Alike(bios: seq<Bio>, bio: Bio)
    requires |bios| > 0
  {
    && bio.discard == bios[0].discard
    && forall b :: b in bios ==> b.dir == bio.dir && b.disk == bio.disk && b.integrity == bio.integrity
  }

  lemma EndSector(rq: Rq)
    requires Extent(rq)
    ensures rq.sector + RqSectors(rq) == EndOf(rq.bios) && rq.dataLen % SECTOR == 0
  {
    hide Contiguous, TotalSize;
    ChainEnd(rq.bios);
  }

  /** The elevator matches a bio to the end of a request exactly if it begins where the last bio of the
      request ends, and to the front exactly if it ends where the first begins, and both are open to it. */
  lemma MatchedIff(q: Limits, rq: Rq, bio: Bio)
    requires Good(q, rq)
    ensures var fits := Open(rq) && Alike(rq.bios, bio);
            && (TryMerge(rq, bio) == BackMerge <==> fits && bio.sector == EndOf(rq.bios))
            && (TryMerge(rq, bio) == FrontMerge <==>
                fits && bio.sector + BioSectors(bio) == rq.bios[0].sector && bio.sector != EndOf(rq.bios))
  {
    hide SegOk, Contiguous, TotalSize, RqSectors, BioSectors;
    EndSector(rq);
    assert rq.bios[0] in rq.bios && BioFor(rq, rq.bios[0]);
    forall b | b in rq.bios ensures BioFor(rq, b) {}
  }

  /** A matched bio is let in exactly if sectors and segments stay within the limits.  The limit on sectors
      is cut off to 16 bits here. */
  lemma AdmittedIff(q: Limits, rq: Rq, bio: Bio, at: nat)
    requires at < |rq.bios| && BioOk(q, bio)
    ensures var segments := rq.nrPhysSegments + Count(CountCuts(q, bio.bvecs));
            LlMergeAt(q, rq, bio, at).ok <==>
            && RqSectors(rq) + BioSectors(bio) <= q.maxSectors % 0x1_0000
            && segments <= q.maxHwSegments && segments <= q.maxPhysSegments
  {
    hide Count, CountCuts, FirstSize, LastSize, Recounted, RqSectors, BioSectors;
    RecountedBio(q, bio);
    RecountedOk(q, bio);
  }

  /** With a limit of 65536 sectors no bio is ever let in. */
  lemma CutOffRefuses(q: Limits, rq: Rq, bio: Bio, at: nat)
    requires at < |rq.bios| && BioOk(q, bio) && q.maxSectors == 0x1_0000 && bio.size > 0
    ensures !LlMergeAt(q, rq, bio, at).ok
  {
    hide LlMergeAt, Count, CountCuts, BioOk;
    AdmittedIff(q, rq, bio, at);
    assert BioSectors(bio) > 0 by { SomeSectors(q, bio); }
  }

  lemma SomeSectors(q: Limits, bio: Bio)
    requires BioOk(q, bio) && bio.size > 0
    ensures BioSectors(bio) > 0
  {}

  /** Two requests are merged exactly if both are open, of the same direction, device and integrity setting,
      one begins where the last bio of the other ends, and their sectors and segments, one less when the
      segments at the seam are taken to run together, are within the limits. */
  lemma JoinedIff(q: Limits, rq: Rq, next: Rq)
    requires Good(q, rq) && Good(q, next)
    ensures var one := if PhysContig(q, Last(rq.bios), First(next.bios)) then 1 else 0;
            var segments := rq.nrPhysSegments + next.nrPhysSegments - one;
            AttemptMerge(q, rq, next).ok <==>
            && Open(rq) && Open(next)
            && EndOf(rq.bios) == next.bios[0].sector
            && (forall b, c :: b in rq.bios && c in next.bios ==>
                  b.dir == c.dir && b.disk == c.disk && b.integrity == c.integrity)
            && RqSectors(rq) + RqSectors(next) <= q.maxSectors
            && segments <= q.maxHwSegments && segments <= q.maxPhysSegments
  {
    hide SegOk, Contiguous, TotalSize, RqSectors, BioSectors, PhysContig, WithFront, WithBack, SetMixedMerge;
    EndSector(rq);
    assert rq.bios[0] in rq.bios && BioFor(rq, rq.bios[0]) && next.bios[0] in next.bios && BioFor(next, next.bios[0]);
    forall b | b in rq.bios ensures BioFor(rq, b) {}
    forall b | b in next.bios ensures BioFor(next, b) {}
  }

  // ----- runs -----

  /** What was merged is within the limits; a request of one bio is as large as that. */
  ghost predicate Within(q: Limits, rq: Rq) {
    |rq.bios| > 1 ==>
      && rq.dataLen / SECTOR <= q.maxSectors
      && rq.nrPhysSegments <= q.maxHwSegments && rq.nrPhysSegments <= q.maxPhysSegments
  }

  ghost predicate AllWithin(q: Limits, rqs: seq<Rq>) {
    forall i :: 0 <= i < |rqs| ==> Within(q, rqs[i])
  }

  lemma WholeSum(a: nat, b: nat)
    requires a % SECTOR == 0 && b % SECTOR == 0
    ensures (a + b) / SECTOR == a / SECTOR + b / SECTOR
  {}

  lemma LlFields(q: Limits, rq: Rq, bio: Bio, at: nat)
    requires at < |rq.bios|
    ensures var m := LlMergeAt(q, rq, bio, at);
            && |m.rq.bios| == |rq.bios| && m.rq.dataLen == rq.dataLen && m.bio.size == bio.size
            && (!m.ok ==> m.rq.nrPhysSegments == rq.nrPhysSegments)
            && (m.ok ==> && RqSectors(rq) + BioSectors(bio) <= q.maxSectors
                         && m.rq.nrPhysSegments <= q.maxHwSegments && m.rq.nrPhysSegments <= q.maxPhysSegments)
  {
    hide Recounted, RqSectors, BioSectors, NewHwSegment, BioMergeSectors;
    CutOff(q);
    var x := rq.(bios := rq.bios[at := Recounted(q, rq.bios[at])]);
    assert |x.bios| == |rq.bios| && x.dataLen == rq.dataLen && x.nrPhysSegments == rq.nrPhysSegments;
    NewFields(q, x, bio);
  }

  lemma NewFields(q: Limits, rq: Rq, bio: Bio)
    ensures var m := NewHwSegment(q, rq, bio);
            && |m.rq.bios| == |rq.bios| && m.rq.dataLen == rq.dataLen && m.bio.size == bio.size
            && (!m.ok ==> m.rq.nrPhysSegments == rq.nrPhysSegments)
            && (m.ok ==> m.rq.nrPhysSegments <= q.maxHwSegments && m.rq.nrPhysSegments <= q.maxPhysSegments)
  {
    hide Recounted;
    RecountedSize(q, bio);
  }

  lemma CutOff(q: Limits)
    ensures BioMergeSectors(q) <= q.maxSectors
  {}

  lemma RecountedSize(q: Limits, bio: Bio)
    ensures Recounted(q, bio).size == bio.size
  {
    hide Recounted, Counted;
    RecountedOk(q, bio);
  }

  lemma BioWithin(q: Limits, rq: Rq, bio: Bio, at: nat)
    requires at < |rq.bios| && Within(q, rq) && rq.dataLen % SECTOR == 0 && bio.size % SECTOR == 0
    ensures var m := LlMergeAt(q, rq, bio, at);
            && (!m.ok ==> Within(q, m.rq)) && (m.ok ==> Within(q, AppendBio(m)) && Within(q, PrependBio(m)))
  {
    hide LlMergeAt;
    LlFields(q, rq, bio, at);
    WholeSum(rq.dataLen, bio.size);
    var m := LlMergeAt(q, rq, bio, at);
    AddedFields(m);
  }

  lemma AddedFields(m: LlResult)
    ensures AppendBio(m).dataLen == PrependBio(m).dataLen == m.rq.dataLen + m.bio.size
    ensures AppendBio(m).nrPhysSegments == PrependBio(m).nrPhysSegments == m.rq.nrPhysSegments
  {
    hide AddFailfast;
  }

  lemma PairWithin(q: Limits, rq: Rq, next: Rq)
    requires |rq.bios| > 0 && |next.bios| > 0 && Within(q, rq) && Within(q, next)
    requires rq.dataLen % SECTOR == 0 && next.dataLen % SECTOR == 0
    ensures var m := AttemptMerge(q, rq, next);
            Within(q, m.rq) && (!m.ok ==> Within(q, m.next))
  {
    hide RqSectors, LlMergeRequests, JoinMixed;
    WholeSum(rq.dataLen, next.dataLen);
    VerdictFields(q, rq, next);
    var m := LlMergeRequests(q, rq, next);
    JoinedFields(rq.(bios := m.bios), next.(bios := m.nextBios), m.nr);
    SectorsOf(rq);
    SectorsOf(next);
  }

  lemma SectorsOf(rq: Rq)
    ensures RqSectors(rq) == rq.dataLen / SECTOR
  {}

  lemma VerdictFields(q: Limits, rq: Rq, next: Rq)
    requires |rq.bios| > 0 && |next.bios| > 0
    ensures var m := LlMergeRequests(q, rq, next);
            && |m.bios| == |rq.bios| && |m.nextBios| == |next.bios|
            && (m.ok ==> && RqSectors(rq) + RqSectors(next) <= q.maxSectors
                         && m.nr <= q.maxHwSegments && m.nr <= q.maxPhysSegments)
  {
    hide PhysContig, RqSectors;
  }

  lemma JoinedFields(r: Rq, n: Rq, nr: int)
    ensures var j := JoinMixed(r, n, nr);
            j.ok && j.rq.dataLen == r.dataLen + n.dataLen && j.rq.nrPhysSegments == nr
  {
    hide SetMixedMerge;
    MixedLen(r);
    MixedLen(n);
  }

  lemma MixedLen(rq: Rq)
    ensures SetMixedMerge(rq).dataLen == rq.dataLen
  {
    hide AddFailfast;
  }

  lemma MergePairWithin(q: Limits, rqs: seq<Rq>, x: nat, y: nat)
    requires x < |rqs| && y < |rqs| && x != y && AllGood(q, rqs) && AllWithin(q, rqs)
    ensures |rqs[x].bios| > 0 && |rqs[y].bios| > 0 && AllWithin(q, MergePair(q, rqs, x, y))
  {
    hide SegOk, FailOk, DataOk, Contiguous, TotalSize, AttemptMerge, Within;
    assert Good(q, rqs[x]) && Good(q, rqs[y]);
    EndSector(rqs[x]);
    EndSector(rqs[y]);
    PairWithin(q, rqs[x], rqs[y]);
  }

  lemma GoodWhole(q: Limits, rqs: seq<Rq>, i: nat)
    requires AllGood(q, rqs) && i < |rqs|
    ensures |rqs[i].bios| > 0 && rqs[i].dataLen % SECTOR == 0
  {
    hide SegOk, FailOk, DataOk, Contiguous, TotalSize;
    assert Good(q, rqs[i]);
    EndSector(rqs[i]);
  }

  /** The pool right after a bio was merged or refused, before a partner is tried. */
  lemma BackWithin(q: Limits, rqs: seq<Rq>, i: nat, bio: Bio, p: Option<nat>)
    requires AllGood(q, rqs) && AllWithin(q, rqs) && i < |rqs| && Matched(q, rqs[i], bio, BackMerge)
    requires p.Some? ==> p.value < |rqs| && p.value != i
    ensures var m := LlBackMerge(q, rqs[i], bio);
            && (!m.ok ==> AllWithin(q, rqs[i := m.rq] + [InitFromBio(q, m.bio)]))
            && (m.ok ==> AllWithin(q, rqs[i := AppendBio(m)]) && AllGood(q, rqs[i := AppendBio(m)]))
  {
    hide Good, LlMergeAt, Ids, AppendBio, BioOk, InitFromBio, Within;
    GoodWhole(q, rqs, i);
    MatchedSize(q, rqs[i], bio, BackMerge);
    BioWithin(q, rqs[i], bio, |rqs[i].bios| - 1);
    BackMergeGood(q, rqs[i], bio);
    OneWithin(q, LlBackMerge(q, rqs[i], bio).bio);
  }

  lemma FrontWithin(q: Limits, rqs: seq<Rq>, i: nat, bio: Bio, p: Option<nat>)
    requires AllGood(q, rqs) && AllWithin(q, rqs) && i < |rqs| && Matched(q, rqs[i], bio, FrontMerge)
    requires p.Some? ==> p.value < |rqs| && p.value != i
    ensures var m := LlFrontMerge(q, rqs[i], bio);
            && (!m.ok ==> AllWithin(q, rqs[i := m.rq] + [InitFromBio(q, m.bio)]))
            && (m.ok ==> AllWithin(q, rqs[i := PrependBio(m)]) && AllGood(q, rqs[i := PrependBio(m)]))
  {
    hide Good, LlMergeAt, Ids, PrependBio, BioOk, InitFromBio, Within;
    GoodWhole(q, rqs, i);
    MatchedSize(q, rqs[i], bio, FrontMerge);
    BioWithin(q, rqs[i], bio, 0);
    FrontMergeGood(q, rqs[i], bio);
    OneWithin(q, LlFrontMerge(q, rqs[i], bio).bio);
  }

  lemma MatchedSize(q: Limits, rq: Rq, bio: Bio, kind: MergeKind)
    requires Matched(q, rq, bio, kind)
    ensures bio.size % SECTOR == 0
  {
    hide TryMerge;
  }

  lemma OneWithin(q: Limits, bio: Bio)
    ensures Within(q, InitFromBio(q, bio))
  {
    hide Recounted;
  }

  lemma StepWithin(q: Limits, s: Pool, a: Action)
    requires Inv(q, s) && Enabled(q, s, a) && AllWithin(q, s.queued) && AllWithin(q, s.handed)
    ensures var s' := Next(q, s, a); AllWithin(q, s'.queued) && AllWithin(q, s'.handed)
  {
    hide Good, Within, LlMergeAt, AppendBio, PrependBio, InitFromBio, MergePair, AllIds, Matched;
    match a
    case Fresh(bio) => OneWithin(q, bio);
    case Back(bio, i, p) =>
      GoodWhole(q, s.queued, i);
      BackWithin(q, s.queued, i, bio, p);
      var m := LlBackMerge(q, s.queued[i], bio);
      if m.ok && p.Some? {
        MergePairWithin(q, s.queued[i := AppendBio(m)], i, p.value);
      }
    case Front(bio, i, p) =>
      GoodWhole(q, s.queued, i);
      FrontWithin(q, s.queued, i, bio, p);
      var m := LlFrontMerge(q, s.queued[i], bio);
      if m.ok && p.Some? {
        MergePairWithin(q, s.queued[i := PrependBio(m)], p.value, i);
      }
    case Start(i) => StartWithin(q, s.queued[i]);
  }

  lemma StartWithin(q: Limits, rq: Rq)
    requires Within(q, rq)
    ensures Within(q, rq.(started := true))
  {}

  lemma {:induction false} RunWithin(q: Limits, run: seq<Pool>, n: nat)
    requires IsRun(q, run) && n < |run|
    ensures Inv(q, run[n]) && AllWithin(q, run[n].queued) && AllWithin(q, run[n].handed)
  {
    hide Inv, Enabled, Next;
    RunKeepsInv(q, run, n);
    if n > 0 {
      RunWithin(q, run, n - 1);
      assert Step(q, run[n - 1], run[n]);
      var a :| Enabled(q, run[n - 1], a) && run[n] == Next(q, run[n - 1], a);
      StepWithin(q, run[n - 1], a);
    }
  }

  /** In every state of every run a request made by merging has no more sectors and no more segments than
      the queue allows, and neither has the list that the driver maps. */
  lemma LimitsHold(q: Limits, run: seq<Pool>, n: nat, rq: Rq)
    requires IsRun(q, run) && n < |run| && (rq in run[n].queued || rq in run[n].handed) && |rq.bios| > 1
    ensures rq.dataLen / SECTOR <= q.maxSectors
    ensures var list := Entries(Bvecs(rq.bios), MapCuts(q, Bvecs(rq.bios)));
            |list| <= rq.nrPhysSegments <= q.maxPhysSegments && rq.nrPhysSegments <= q.maxHwSegments
  {
    hide Inv, Entries, MapCuts, Bvecs, SgBytes, BvecBytes;
    RunWithin(q, run, n);
    SegmentCountBoundsList(q, run, n, rq);
  }
}
