/** What every run of submissions keeps: the segment count of each request bounds its
    scatter-gather list, each request is one contiguous extent of its bios, no bio is lost
    or doubled, and mixed requests stay failable from the front. */
module RequestRuns {
  import opened Segments
  import opened Requests

  // ----- chains that differ only in cached attributes -----

  ghost predicate SameBio(a: Bio, b: Bio) {
    && a.id == b.id && a.sector == b.sector && a.size == b.size && a.dir == b.dir
    && a.discard == b.discard && a.disk == b.disk && a.bvecs == b.bvecs
    && a.ahead == b.ahead && a.asked == b.asked && a.integrity == b.integrity
  }

  ghost predicate SameChain(x: seq<Bio>, y: seq<Bio>) {
    |x| == |y| && forall i :: 0 <= i < |x| ==> SameBio(x[i], y[i])
  }

  /** Chains that agree on everything but the cached segment sizes. */
  ghost predicate SameIo(x: seq<Bio>, y: seq<Bio>) {
    SameChain(x, y) && forall i :: 0 <= i < |x| ==> x[i].failfast == y[i].failfast
  }

  lemma SameIoSelf(x: seq<Bio>)
    ensures SameIo(x, x)
  {}

  lemma {:induction false} SameChainTotals(x: seq<Bio>, y: seq<Bio>)
    requires SameChain(x, y)
    ensures Bvecs(x) == Bvecs(y)
    ensures TotalSize(x) == TotalSize(y)
    ensures Ids(x) == Ids(y)
  {
    if |x| > 0 {
      SameChainTotals(x[..|x| - 1], y[..|y| - 1]);
    }
  }

  // ----- invariants of one request -----

  /** A grouping that justifies the cached count and the cached outer segment sizes. */
  ghost predicate Witness(q: Limits, bios: seq<Bio>, nr: int, c: seq<bool>) {
    && Valid(q, Bvecs(bios), c)
    && Count(c) == nr
    && (|bios| > 0 ==> FirstSize(Bvecs(bios), c) <= First(bios).segFront
                       && LastSize(Bvecs(bios), c) <= Last(bios).segBack)
  }

  ghost predicate SegOk(q: Limits, bios: seq<Bio>, nr: int) {
    exists c :: Witness(q, bios, nr, c)
  }

  predicate Contiguous(bios: seq<Bio>) {
    && (forall i :: 0 <= i < |bios| ==> bios[i].size % SECTOR == 0)
    && (forall i {:trigger bios[i]} :: 0 < i < |bios| ==>
          bios[i].sector == bios[i - 1].sector + BioSectors(bios[i - 1]))
  }

  /** The same direction, device and integrity setting. */
  predicate BioFor(rq: Rq, bio: Bio) { bio.dir == rq.dir && bio.disk == rq.disk && bio.integrity == rq.integrity }

  predicate RqFor(x: Rq, y: Rq) { x.dir == y.dir && x.disk == y.disk && x.integrity == y.integrity }

  predicate Extent(rq: Rq) {
    && |rq.bios| > 0
    && Contiguous(rq.bios)
    && rq.sector == First(rq.bios).sector
    && rq.dataLen == TotalSize(rq.bios)
    && (forall i :: 0 <= i < |rq.bios| ==> BioFor(rq, rq.bios[i]))
  }

  /** A bio carries the failfast bits it was submitted with, and so does a request of which it is part
      unless that is mixed.  Only a bio that reads ahead may be taken to be as eager as can be. */
  predicate BitsOk(mixed: bool, ff: set<FailBit>, bio: Bio) {
    && (bio.failfast == bio.asked || bio.ahead)
    && (mixed || bio.failfast == ff || (bio.ahead && ff == FAILFAST_MASK))
  }

  /** A mixed request can be failed from its front, and any other as a whole. */
  predicate FailOk(rq: Rq) {
    && (rq.mixed ==> |rq.bios| > 0 && rq.failfast <= First(rq.bios).failfast)
    && forall i :: 0 <= i < |rq.bios| ==> BitsOk(rq.mixed, rq.failfast, rq.bios[i])
  }

  /** Only barriers may come without data. */
  predicate DataOk(rq: Rq) {
    rq.hardBarrier || rq.softBarrier || forall b :: b in rq.bios ==> HasData(b)
  }

  ghost predicate Good(q: Limits, rq: Rq) {
    Extent(rq) && SegOk(q, rq.bios, rq.nrPhysSegments) && FailOk(rq) && DataOk(rq)
  }

  /** What a submitter owes: whole sectors, data unless it is a barrier, and a cached
      segment count only if it was computed for this queue. */
  ghost predicate BioOk(q: Limits, bio: Bio) {
    && bio.size % SECTOR == 0 && bio.failfast == bio.asked
    && (HasData(bio) || bio.barrier)
    && (bio.segValid ==> Counted(q, bio))
  }

  ghost predicate Counted(q: Limits, bio: Bio) {
    var c := CountCuts(q, bio.bvecs);
    && bio.physSegments == Count(c)
    && FirstSize(bio.bvecs, c) <= bio.segFront
    && LastSize(bio.bvecs, c) <= bio.segBack
  }

  lemma RecountedOk(q: Limits, bio: Bio)
    ensures SameBio(bio, Recounted(q, bio))
    ensures Recounted(q, bio).segFront >= bio.segFront && Recounted(q, bio).segBack >= bio.segBack
    ensures Recounted(q, bio).failfast == bio.failfast && Recounted(q, bio).barrier == bio.barrier
    ensures (bio.segValid ==> Counted(q, bio)) ==> Counted(q, Recounted(q, bio))
  {
    hide CountCuts, Count, FirstSize, LastSize, Bvecs;
    ChainOne(bio);
  }

  // ----- failfast bits -----

  lemma SameFail(rq: Rq, bios: seq<Bio>)
    requires FailOk(rq) && SameIo(rq.bios, bios)
    ensures FailOk(rq.(bios := bios))
  {
    forall i | 0 <= i < |bios| ensures BitsOk(rq.mixed, rq.failfast, bios[i]) {
      assert SameBio(rq.bios[i], bios[i]) && BitsOk(rq.mixed, rq.failfast, rq.bios[i]);
    }
  }

  /** Spreading the bits of a request over its bios changes those that read ahead at most. */
  lemma MixedFail(rq: Rq)
    requires FailOk(rq) && |rq.bios| > 0
    ensures FailOk(SetMixedMerge(rq)) && SetMixedMerge(rq).mixed
  {
    var r := SetMixedMerge(rq);
    forall i | 0 <= i < |r.bios| ensures BitsOk(r.mixed, r.failfast, r.bios[i]) {
      assert BitsOk(rq.mixed, rq.failfast, rq.bios[i]);
    }
  }

  /** Laying the bios of two requests end to end that are both mixed, or both of the same bits. */
  lemma ConcatFail(x: Rq, y: Rq, rq: Rq)
    requires FailOk(x) && FailOk(y) && |x.bios| > 0 && rq.bios == x.bios + y.bios
    requires if rq.mixed then rq.failfast <= First(x.bios).failfast
             else !x.mixed && !y.mixed && x.failfast == y.failfast == rq.failfast
    ensures FailOk(rq)
  {
    forall i | 0 <= i < |rq.bios| ensures BitsOk(rq.mixed, rq.failfast, rq.bios[i]) {
      if i < |x.bios| {
        assert BitsOk(x.mixed, x.failfast, x.bios[i]);
      } else {
        assert BitsOk(y.mixed, y.failfast, y.bios[i - |x.bios|]);
      }
    }
  }

  // ----- segments -----

  lemma LargerSizesKeepWitness(q: Limits, x: seq<Bio>, y: seq<Bio>, nr: int)
    requires SegOk(q, x, nr) && SameChain(x, y)
    requires |x| > 0 ==> First(y).segFront >= First(x).segFront && Last(y).segBack >= Last(x).segBack
    ensures SegOk(q, y, nr)
  {
    var c :| Witness(q, x, nr, c);
    SameChainTotals(x, y);
    assert Witness(q, y, nr, c);
  }

  lemma CountedSegOk(q: Limits, bio: Bio)
    requires Counted(q, bio)
    ensures SegOk(q, [bio], bio.physSegments)
  {
    ChainOne(bio);
    CountCutsValid(q, bio.bvecs);
    assert Witness(q, [bio], bio.physSegments, CountCuts(q, bio.bvecs));
  }

  lemma EmptySegOk(q: Limits, bio: Bio)
    requires !HasData(bio)
    ensures SegOk(q, [bio], 0)
  {
    ChainOne(bio);
    assert Witness(q, [bio], 0, []);
  }

  /** Every recount of a chain is justified by the grouping it found. */
  lemma RecalcSegOk(q: Limits, bios: seq<Bio>)
    ensures SegOk(q, RecalcChain(q, bios), RecalcCount(q, bios))
  {
    var c := CountCuts(q, Bvecs(bios));
    CountCutsValid(q, Bvecs(bios));
    SameChainTotals(bios, RecalcChain(q, bios));
    assert Witness(q, RecalcChain(q, bios), RecalcCount(q, bios), c);
  }

  /** Two justified chains laid end to end, counts added. */
  lemma ConcatSegOk(q: Limits, x: seq<Bio>, n: int, y: seq<Bio>, m: int)
    requires SegOk(q, x, n) && SegOk(q, y, m)
    requires |Bvecs(x)| > 0 && |Bvecs(y)| > 0
    ensures SegOk(q, x + y, n + m)
  {
    hide Witness, Bvecs;
    var c :| Witness(q, x, n, c);
    var d :| Witness(q, y, m, d);
    ConcatWitness(q, x, n, c, y, m, d);
  }

  lemma ConcatWitness(q: Limits, x: seq<Bio>, n: int, c: seq<bool>, y: seq<Bio>, m: int, d: seq<bool>)
    requires Witness(q, x, n, c) && Witness(q, y, m, d)
    requires |Bvecs(x)| > 0 && |Bvecs(y)| > 0
    ensures Witness(q, x + y, n + m, c + d)
  {
    NoPieces();
    hide Valid, Count, FirstSize, LastSize, Bvecs;
    BvecsConcat(x, y);
    Concat(q, Bvecs(x), c, Bvecs(y), d);
    assert Last(x + y) == Last(y) && First(x + y) == First(x);
  }

  lemma NoPieces()
    ensures Bvecs([]) == []
  {}

  ghost predicate AllData(bios: seq<Bio>) {
    forall b :: b in bios ==> HasData(b)
  }

  lemma {:induction false} BvecsEnds(bios: seq<Bio>)
    requires |bios| > 0 && AllData(bios)
    ensures |Bvecs(bios)| > 0 && HasData(First(bios)) && HasData(Last(bios))
    ensures Bvecs(bios)[0] == First(bios).bvecs[0]
    ensures Last(Bvecs(bios)) == Last(Last(bios).bvecs)
  {
    assert HasData(Last(bios));
    if |bios| == 1 {
      assert bios == [bios[0]];
      ChainOne(bios[0]);
    } else {
      BvecsEnds(bios[..|bios| - 1]);
      assert First(bios[..|bios| - 1]) == First(bios);
    }
  }

  lemma OneNoted(bios: seq<Bio>, i: nat, bio: Bio)
    requires i < |bios| && SameBio(bios[i], bio) && bios[i].failfast == bio.failfast
    ensures SameIo(bios, bios[i := bio]) && Bvecs(bios[i := bio]) == Bvecs(bios)
  {
    hide Bvecs, TotalSize, Ids;
    SameChainTotals(bios, bios[i := bio]);
  }

  lemma WithFrontSame(bios: seq<Bio>, nr: int, size: nat)
    requires |bios| > 0
    ensures var w := WithFront(bios, nr, size);
            && SameIo(bios, w) && Bvecs(w) == Bvecs(bios)
            && First(w).segFront == (if nr == 1 then size else First(bios).segFront)
            && Last(w).segBack == Last(bios).segBack
  {
    hide SameIo, Bvecs;
    SameIoSelf(bios);
    OneNoted(bios, 0, First(bios).(segFront := size));
  }

  lemma WithBackSame(bios: seq<Bio>, nr: int, size: nat)
    requires |bios| > 0
    ensures var w := WithBack(bios, nr, size);
            && SameIo(bios, w) && Bvecs(w) == Bvecs(bios)
            && Last(w).segBack == (if nr == 1 then size else Last(bios).segBack)
            && First(w).segFront == First(bios).segFront
  {
    hide SameIo, Bvecs;
    SameIoSelf(bios);
    OneNoted(bios, |bios| - 1, Last(bios).(segBack := size));
  }

  /** Two justified chains whose middle segments run together, one segment saved.  The
      sizes recorded along the way stay justified even when the merge is then refused. */
  lemma JoinSegOk(q: Limits, x: seq<Bio>, n: int, y: seq<Bio>, m: int)
    requires |x| > 0 && |y| > 0 && AllData(x) && AllData(y)
    requires SegOk(q, x, n) && SegOk(q, y, m)
    requires PhysContig(q, Last(x), First(y))
    ensures var size := Last(x).segBack + First(y).segFront;
            var x1, y1 := WithFront(x, n, size), WithBack(y, m, size);
            SegOk(q, x1, n) && SegOk(q, y1, m) && SegOk(q, x1 + y1, n + m - 1)
  {
    hide Count, Bvecs, FirstSize, LastSize, Joinable, WithFront, WithBack;
    var size := Last(x).segBack + First(y).segFront;
    var x1, y1 := WithFront(x, n, size), WithBack(y, m, size);
    var c :| Witness(q, x, n, c);
    var d :| Witness(q, y, m, d);
    BvecsEnds(x);
    BvecsEnds(y);
    Join(q, Bvecs(x), c, Bvecs(y), d);
    SingleSegment(q, Bvecs(x), c);
    SingleSegment(q, Bvecs(y), d);
    WithFrontSame(x, n, size);
    WithBackSame(y, m, size);
    BvecsConcat(x1, y1);
    assert Witness(q, x1, n, c) && Witness(q, y1, m, d);
    assert First(x1 + y1) == First(x1) && Last(x1 + y1) == Last(y1);
    assert Witness(q, x1 + y1, n + m - 1, c + d[0 := false]);
  }

  // ----- extents -----

  lemma {:induction false} ChainEnd(bios: seq<Bio>)
    requires |bios| > 0 && Contiguous(bios)
    ensures TotalSize(bios) % SECTOR == 0
    ensures Last(bios).sector + BioSectors(Last(bios)) == First(bios).sector + TotalSize(bios) / SECTOR
  {
    if |bios| == 1 {
      assert bios == [bios[0]];
      ChainOne(bios[0]);
    } else {
      ChainEnd(bios[..|bios| - 1]);
      assert bios[..|bios| - 1][|bios| - 2] == bios[|bios| - 2];
    }
  }

  lemma ContiguousConcat(x: seq<Bio>, y: seq<Bio>)
    requires |x| > 0 && |y| > 0 && Contiguous(x) && Contiguous(y)
    requires First(x).sector + TotalSize(x) / SECTOR == First(y).sector
    ensures Contiguous(x + y)
    ensures TotalSize(x + y) == TotalSize(x) + TotalSize(y)
  {
    ChainEnd(x);
    SizeConcat(x, y);
    var z := x + y;
    forall i {:trigger z[i]} | 0 < i < |z| ensures z[i].sector == z[i - 1].sector + BioSectors(z[i - 1]) {
      if i < |x| {
        assert z[i] == x[i] && z[i - 1] == x[i - 1];
      } else if i == |x| {
        assert z[i] == First(y) && z[i - 1] == Last(x);
      } else {
        assert z[i] == y[i - |x|] && z[i - 1] == y[i - 1 - |x|];
      }
    }
  }

  lemma SameChainContiguous(x: seq<Bio>, y: seq<Bio>)
    requires Contiguous(x) && SameChain(x, y)
    ensures Contiguous(y)
  {
    forall i {:trigger y[i]} | 0 < i < |y| ensures y[i].sector == y[i - 1].sector + BioSectors(y[i - 1]) {
      assert SameBio(x[i], y[i]) && SameBio(x[i - 1], y[i - 1]);
    }
    forall i | 0 <= i < |y| ensures y[i].size % SECTOR == 0 {
      assert SameBio(x[i], y[i]);
    }
  }

  lemma SameChainExtent(rq: Rq, bios: seq<Bio>)
    requires Extent(rq) && SameChain(rq.bios, bios)
    ensures Extent(rq.(bios := bios))
  {
    hide Bvecs, Ids, Contiguous;
    SameChainTotals(rq.bios, bios);
    SameChainContiguous(rq.bios, bios);
  }

  // ----- single operations -----

  /** A request made from a bio.  Reading ahead is given up at the first error; a barrier orders the whole
      queue unless it is a discard, and neither kind is ever merged. */
  lemma InitGood(q: Limits, bio: Bio)
    requires BioOk(q, bio)
    ensures Good(q, InitFromBio(q, bio))
    ensures Ids(InitFromBio(q, bio).bios) == multiset{bio.id}
    ensures var rq := InitFromBio(q, bio);
            && rq.failfast == (if bio.ahead then {Dev, Transport, Driver} else bio.asked)
            && (rq.hardBarrier <==> bio.barrier && !bio.discard) && (rq.softBarrier <==> bio.barrier && bio.discard)
            && (Mergeable(rq) <==> !bio.barrier)
  {
    hide Valid, Count, CountCuts, FirstSize, LastSize, Counted, Recounted, SegOk, Bvecs;
    var rq := InitFromBio(q, bio);
    RecountedOk(q, bio);
    ChainOne(First(rq.bios));
    if HasData(bio) {
      CountedSegOk(q, Recounted(q, bio));
    } else {
      EmptySegOk(q, bio);
    }
  }

  /** A request whose cached sizes grew is as good as before. */
  lemma UpdatedGood(q: Limits, rq: Rq, rq': Rq)
    requires Good(q, rq)
    requires SameChain(rq.bios, rq'.bios)
    requires First(rq'.bios).segFront >= First(rq.bios).segFront && Last(rq'.bios).segBack >= Last(rq.bios).segBack
    requires rq' == rq.(bios := rq'.bios, mixed := rq'.mixed, noMerge := rq'.noMerge)
    requires FailOk(rq')
    ensures Good(q, rq') && Ids(rq'.bios) == Ids(rq.bios)
  {
    hide Valid, Witness, SegOk, Contiguous;
    LargerSizesKeepWitness(q, rq.bios, rq'.bios, rq.nrPhysSegments);
    SameChainExtent(rq, rq'.bios);
    SameChainTotals(rq.bios, rq'.bios);
    if AllData(rq.bios) {
      forall b | b in rq'.bios ensures HasData(b) {
        var i :| 0 <= i < |rq'.bios| && b == rq'.bios[i];
        assert SameBio(rq.bios[i], rq'.bios[i]) && rq.bios[i] in rq.bios;
      }
    }
  }

  lemma SetMixedGood(q: Limits, rq: Rq)
    requires Good(q, rq)
    ensures Good(q, SetMixedMerge(rq)) && Ids(SetMixedMerge(rq).bios) == Ids(rq.bios)
    ensures SetMixedMerge(rq).mixed
  {
    MixedFail(rq);
    if !rq.mixed {
      UpdatedGood(q, rq, SetMixedMerge(rq));
    }
  }

  /** Laying two extents end to end, given that the segments of the whole are justified. */
  lemma ConcatGood(q: Limits, x: Rq, y: Rq, rq: Rq)
    requires Good(q, x) && Good(q, y) && AllData(x.bios) && AllData(y.bios)
    requires RqFor(x, y) && RqFor(rq, x)
    requires x.sector + RqSectors(x) == y.sector
    requires rq.bios == x.bios + y.bios && rq.sector == x.sector && rq.dataLen == x.dataLen + y.dataLen
    requires SegOk(q, rq.bios, rq.nrPhysSegments) && FailOk(rq)
    ensures Good(q, rq) && Ids(rq.bios) == Ids(x.bios) + Ids(y.bios)
  {
    hide SegOk, FailOk, Contiguous, TotalSize, Ids, Bvecs;
    ContiguousConcat(x.bios, y.bios);
    IdsConcat(x.bios, y.bios);
    assert First(rq.bios) == First(x.bios);
  }

  /** A bio the elevator matched to a request, whether or not the limits then allow it. */
  ghost predicate Matched(q: Limits, rq: Rq, bio: Bio, kind: MergeKind) {
    |rq.bios| > 0 && BioOk(q, bio) && !bio.barrier && kind != NoMerge && TryMerge(rq, bio) == kind
  }

  /** A single counted bio, seen as a request of its own. */
  lemma CountedGood(q: Limits, bio: Bio, x: Rq)
    requires Counted(q, bio) && HasData(bio) && bio.size % SECTOR == 0
    requires x.bios == [bio] && x.sector == bio.sector && x.dataLen == bio.size
    requires BioFor(x, bio) && x.nrPhysSegments == bio.physSegments
    requires !x.mixed && BitsOk(false, x.failfast, bio)
    ensures Good(q, x) && Ids(x.bios) == multiset{bio.id} && |Bvecs(x.bios)| > 0
  {
    ChainOne(bio);
    CountedSegOk(q, bio);
  }

  lemma AppendGood(q: Limits, rq: Rq, bio: Bio)
    requires Good(q, rq) && AllData(rq.bios)
    requires Counted(q, bio) && HasData(bio) && bio.size % SECTOR == 0
    requires BioFor(rq, bio) && rq.sector + RqSectors(rq) == bio.sector
    requires BitsOk(false, bio.failfast, bio) && (rq.mixed || rq.failfast == bio.failfast)
    ensures var r := rq.(bios := rq.bios + [bio], dataLen := rq.dataLen + bio.size,
                         nrPhysSegments := rq.nrPhysSegments + bio.physSegments);
            Good(q, r) && Ids(r.bios) == Ids(rq.bios) + multiset{bio.id}
  {
    hide Valid, Count, CountCuts, FirstSize, LastSize, Bvecs, TotalSize, Ids;
    var r := rq.(bios := rq.bios + [bio], dataLen := rq.dataLen + bio.size,
                 nrPhysSegments := rq.nrPhysSegments + bio.physSegments);
    var y := rq.(bios := [bio], sector := bio.sector, dataLen := bio.size,
                 nrPhysSegments := bio.physSegments, failfast := bio.failfast, mixed := false);
    CountedGood(q, bio, y);
    BvecsEnds(rq.bios);
    ConcatSegOk(q, rq.bios, rq.nrPhysSegments, y.bios, bio.physSegments);
    ConcatFail(rq, y, r);
    ConcatGood(q, rq, y, r);
  }

  lemma PrependGood(q: Limits, rq: Rq, bio: Bio, ff: set<FailBit>)
    requires Good(q, rq) && AllData(rq.bios)
    requires Counted(q, bio) && HasData(bio) && bio.size % SECTOR == 0
    requires BioFor(rq, bio) && bio.sector + BioSectors(bio) == rq.sector
    requires BitsOk(false, bio.failfast, bio) && ff == bio.failfast && (rq.mixed || rq.failfast == ff)
    ensures var r := rq.(bios := [bio] + rq.bios, sector := bio.sector, dataLen := rq.dataLen + bio.size,
                         nrPhysSegments := rq.nrPhysSegments + bio.physSegments, failfast := ff);
            Good(q, r) && Ids(r.bios) == Ids(rq.bios) + multiset{bio.id}
  {
    hide Valid, Count, CountCuts, FirstSize, LastSize, Bvecs, TotalSize, Ids;
    var r := rq.(bios := [bio] + rq.bios, sector := bio.sector, dataLen := rq.dataLen + bio.size,
                 nrPhysSegments := rq.nrPhysSegments + bio.physSegments, failfast := ff);
    var x := rq.(bios := [bio], sector := bio.sector, dataLen := bio.size,
                 nrPhysSegments := bio.physSegments, failfast := ff, mixed := false);
    CountedGood(q, bio, x);
    BvecsEnds(rq.bios);
    ConcatSegOk(q, x.bios, bio.physSegments, rq.bios, rq.nrPhysSegments);
    ConcatFail(x, rq, r);
    ConcatGood(q, x, rq, r);
  }

  lemma SetMixedData(q: Limits, rq: Rq)
    requires Good(q, rq) && AllData(rq.bios)
    ensures AllData(SetMixedMerge(rq).bios)
  {
    var r := SetMixedMerge(rq);
    forall b | b in r.bios ensures HasData(b) {
      var i :| 0 <= i < |r.bios| && b == r.bios[i];
      assert rq.bios[i] in rq.bios;
    }
  }

  /** Recounting one bio of a chain only raises its cached sizes. */
  lemma RecountInChain(q: Limits, rq: Rq, i: nat, flag: bool)
    requires Good(q, rq) && i < |rq.bios| && AllData(rq.bios)
    ensures var r := rq.(bios := rq.bios[i := Recounted(q, rq.bios[i])], noMerge := flag);
            Good(q, r) && Ids(r.bios) == Ids(rq.bios) && AllData(r.bios)
  {
    hide SegOk, Contiguous, Recounted, Counted, TotalSize, Ids;
    var r := rq.(bios := rq.bios[i := Recounted(q, rq.bios[i])], noMerge := flag);
    RecountedOk(q, rq.bios[i]);
    SameFail(rq, r.bios);
    UpdatedGood(q, rq, r);
    forall b | b in r.bios ensures HasData(b) {
      var k :| 0 <= k < |r.bios| && b == r.bios[k];
      assert rq.bios[k] in rq.bios;
    }
  }

  /** The request a low-level test was asked about, before the count was raised. */
  ghost predicate Admitted(q: Limits, m: LlResult) {
    && Good(q, m.rq.(nrPhysSegments := m.rq.nrPhysSegments - m.bio.physSegments)) && AllData(m.rq.bios)
    && Counted(q, m.bio) && HasData(m.bio) && m.bio.size % SECTOR == 0
    && BioFor(m.rq, m.bio) && m.bio.failfast == m.bio.asked
  }

  /** Marking a request mixed touches its bios' failfast bits only. */
  lemma SetMixedKeeps(rq: Rq, nr: int)
    ensures var r := SetMixedMerge(rq);
            && r == rq.(bios := r.bios, mixed := true)
            && SetMixedMerge(rq.(nrPhysSegments := nr)) == r.(nrPhysSegments := nr)
  {}

  lemma AppendedGood(q: Limits, m: LlResult)
    requires Admitted(q, m) && m.rq.sector + RqSectors(m.rq) == m.bio.sector
    ensures Good(q, AppendBio(m)) && Ids(AppendBio(m).bios) == Ids(m.rq.bios) + multiset{m.bio.id}
  {
    hide Good, Counted, Ids, AllData, SetMixedMerge;
    var nr := m.rq.nrPhysSegments - m.bio.physSegments;
    var r1 := m.rq.(nrPhysSegments := nr);
    if r1.failfast != m.bio.failfast {
      SetMixedKeeps(m.rq, nr);
      SetMixedGood(q, r1);
      SetMixedData(q, r1);
      AppendGood(q, SetMixedMerge(r1), m.bio);
    } else {
      AppendGood(q, r1, m.bio);
    }
  }

  lemma PrependedGood(q: Limits, m: LlResult)
    requires Admitted(q, m) && m.bio.sector + BioSectors(m.bio) == m.rq.sector
    ensures Good(q, PrependBio(m)) && Ids(PrependBio(m).bios) == Ids(m.rq.bios) + multiset{m.bio.id}
  {
    hide Good, Counted, Ids, AllData, SetMixedMerge;
    var nr := m.rq.nrPhysSegments - m.bio.physSegments;
    var r1 := m.rq.(nrPhysSegments := nr);
    if r1.failfast != m.bio.failfast {
      SetMixedKeeps(m.rq, nr);
      SetMixedGood(q, r1);
      SetMixedData(q, r1);
      PrependGood(q, SetMixedMerge(r1), m.bio, m.bio.failfast);
    } else {
      PrependGood(q, r1, m.bio, m.bio.failfast);
    }
  }

  lemma NoMergeGood(q: Limits, rq: Rq)
    requires Good(q, rq)
    ensures Good(q, rq.(noMerge := true))
  {
    hide Extent, SegOk;
    ExtentOnly(rq, rq.(noMerge := true));
  }

  lemma ExtentOnly(rq: Rq, r: Rq)
    requires Extent(rq) && r == rq.(noMerge := r.noMerge)
    ensures Extent(r)
  {
    hide Contiguous, TotalSize;
  }

  /** What the low-level test leaves, at either end. */
  lemma LlMergeGood(q: Limits, rq: Rq, bio: Bio, at: nat)
    requires Good(q, rq) && at < |rq.bios| && AllData(rq.bios) && BioOk(q, bio) && !bio.barrier
    requires BioFor(rq, bio)
    ensures var m := LlMergeAt(q, rq, bio, at);
            && BioOk(q, m.bio) && SameBio(bio, m.bio)
            && (!m.ok ==> Good(q, m.rq) && Ids(m.rq.bios) == Ids(rq.bios))
            && (m.ok ==> Admitted(q, m) && Ids(m.rq.bios) == Ids(rq.bios)
                         && m.rq.sector == rq.sector && m.rq.dataLen == rq.dataLen
                         && m.rq.nrPhysSegments <= q.maxHwSegments && m.rq.nrPhysSegments <= q.maxPhysSegments)
  {
    hide Good, Counted, Ids, AllData, Recounted, RqSectors, BioSectors, BioMergeSectors, NewHwSegment;
    NoMergeGood(q, rq);
    RecountedBio(q, bio);
    RecountInChain(q, rq, at, rq.noMerge);
    RecountInChain(q, rq, at, true);
    NewSegmentIs(q, rq.(bios := rq.bios[at := Recounted(q, rq.bios[at])]), bio);
  }

  lemma NewSegmentIs(q: Limits, rq: Rq, bio: Bio)
    ensures var m := NewHwSegment(q, rq, bio);
            && m.bio == Recounted(q, bio)
            && (!m.ok ==> m.rq == rq.(noMerge := true))
            && (m.ok ==> && m.rq.(nrPhysSegments := m.rq.nrPhysSegments - m.bio.physSegments) == rq
                         && m.rq.bios == rq.bios && m.rq.sector == rq.sector && m.rq.dataLen == rq.dataLen
                         && RqFor(m.rq, rq)
                         && m.rq.nrPhysSegments <= q.maxHwSegments && m.rq.nrPhysSegments <= q.maxPhysSegments)
  {
    hide Recounted;
  }

  lemma RecountedBio(q: Limits, bio: Bio)
    requires BioOk(q, bio)
    ensures BioOk(q, Recounted(q, bio)) && SameBio(bio, Recounted(q, bio)) && Counted(q, Recounted(q, bio))
    ensures HasData(Recounted(q, bio)) == HasData(bio)
  {
    hide Counted, Recounted;
    RecountedOk(q, bio);
  }

  lemma BackMergeGood(q: Limits, rq: Rq, bio: Bio)
    requires Good(q, rq) && Matched(q, rq, bio, BackMerge)
    ensures var m := LlBackMerge(q, rq, bio);
            && BioOk(q, m.bio) && SameBio(bio, m.bio)
            && (!m.ok ==> Good(q, m.rq) && Ids(m.rq.bios) == Ids(rq.bios))
            && (m.ok ==> Good(q, AppendBio(m)) && Ids(AppendBio(m).bios) == Ids(rq.bios) + multiset{bio.id}
                         && AppendBio(m).nrPhysSegments <= q.maxHwSegments
                         && AppendBio(m).nrPhysSegments <= q.maxPhysSegments)
  {
    hide Good, Counted, Ids, AllData, LlMergeAt, Admitted, SetMixedMerge, BioOk, SameBio;
    MatchedOk(q, rq, bio, BackMerge);
    LlMergeGood(q, rq, bio, |rq.bios| - 1);
    var m := LlBackMerge(q, rq, bio);
    SetMixedKeeps(m.rq, 0);
    SameFields(bio, m.bio);
    if m.ok {
      AppendedGood(q, m);
    }
  }

  lemma SameFields(a: Bio, b: Bio)
    requires SameBio(a, b)
    ensures a.id == b.id && a.sector == b.sector && a.size == b.size
  {}

  lemma MatchedOk(q: Limits, rq: Rq, bio: Bio, kind: MergeKind)
    requires Good(q, rq) && Matched(q, rq, bio, kind)
    ensures |rq.bios| > 0 && AllData(rq.bios) && BioOk(q, bio) && !bio.barrier
    ensures BioFor(rq, bio)
    ensures kind == BackMerge ==> rq.sector + RqSectors(rq) == bio.sector
    ensures kind == FrontMerge ==> bio.sector + BioSectors(bio) == rq.sector
  {
    hide Extent, SegOk, Counted;
  }

  lemma FrontMergeGood(q: Limits, rq: Rq, bio: Bio)
    requires Good(q, rq) && Matched(q, rq, bio, FrontMerge)
    ensures var m := LlFrontMerge(q, rq, bio);
            && BioOk(q, m.bio) && SameBio(bio, m.bio)
            && (!m.ok ==> Good(q, m.rq) && Ids(m.rq.bios) == Ids(rq.bios))
            && (m.ok ==> Good(q, PrependBio(m)) && Ids(PrependBio(m).bios) == Ids(rq.bios) + multiset{bio.id}
                         && PrependBio(m).nrPhysSegments <= q.maxHwSegments
                         && PrependBio(m).nrPhysSegments <= q.maxPhysSegments)
  {
    hide Good, Counted, Ids, AllData, LlMergeAt, Admitted, SetMixedMerge, BioOk, SameBio;
    MatchedOk(q, rq, bio, FrontMerge);
    LlMergeGood(q, rq, bio, 0);
    var m := LlFrontMerge(q, rq, bio);
    SetMixedKeeps(m.rq, 0);
    SameFields(bio, m.bio);
    if m.ok {
      PrependedGood(q, m);
    }
  }

  // ----- merging two requests -----

  /** The segment half of a request merge. */
  lemma LlMergeSegOk(q: Limits, rq: Rq, next: Rq)
    requires |rq.bios| > 0 && |next.bios| > 0 && AllData(rq.bios) && AllData(next.bios)
    requires SegOk(q, rq.bios, rq.nrPhysSegments) && SegOk(q, next.bios, next.nrPhysSegments)
    ensures var m := LlMergeRequests(q, rq, next);
            && SegOk(q, m.bios, rq.nrPhysSegments) && SegOk(q, m.nextBios, next.nrPhysSegments)
            && (m.ok ==> SegOk(q, m.bios + m.nextBios, m.nr) && m.nr <= q.maxHwSegments && m.nr <= q.maxPhysSegments)
  {
    hide SegOk, Bvecs, AllData, PhysContig;
    if PhysContig(q, Last(rq.bios), First(next.bios)) {
      JoinSegOk(q, rq.bios, rq.nrPhysSegments, next.bios, next.nrPhysSegments);
    } else {
      BvecsEnds(rq.bios);
      BvecsEnds(next.bios);
      ConcatSegOk(q, rq.bios, rq.nrPhysSegments, next.bios, next.nrPhysSegments);
    }
  }

  lemma LlMergeSame(q: Limits, rq: Rq, next: Rq)
    requires |rq.bios| > 0 && |next.bios| > 0
    ensures var m := LlMergeRequests(q, rq, next);
            SameIo(rq.bios, m.bios) && SameIo(next.bios, m.nextBios)
  {
    hide SameIo, WithFront, WithBack, PhysContig, Bvecs, RqSectors;
    SameIoSelf(rq.bios);
    SameIoSelf(next.bios);
    var size := Last(rq.bios).segBack + First(next.bios).segFront;
    WithFrontSame(rq.bios, rq.nrPhysSegments, size);
    WithBackSame(next.bios, next.nrPhysSegments, size);
  }

  lemma DataSame(x: seq<Bio>, y: seq<Bio>)
    requires SameChain(x, y) && AllData(x)
    ensures AllData(y)
  {
    forall b | b in y ensures HasData(b) {
      var i :| 0 <= i < |y| && b == y[i];
      assert SameBio(x[i], y[i]) && x[i] in x;
    }
  }

  /** Replacing a chain by one that differs only in cached attributes. */
  lemma RebuiltGood(q: Limits, rq: Rq, bios: seq<Bio>)
    requires Good(q, rq) && AllData(rq.bios) && SameIo(rq.bios, bios) && SegOk(q, bios, rq.nrPhysSegments)
    ensures Good(q, rq.(bios := bios)) && AllData(bios) && Ids(bios) == Ids(rq.bios)
  {
    hide SegOk, SameChain, Contiguous, Bvecs, Ids, TotalSize, FailOk;
    SameFail(rq, bios);
    SameChainExtent(rq, bios);
    SameChainTotals(rq.bios, bios);
    DataSame(rq.bios, bios);
  }

  /** Spreading the failfast bits does not disturb the segments of a joined chain. */
  lemma MixedSegOk(q: Limits, r: Rq, n: Rq, nr: int)
    requires |r.bios| > 0 && |n.bios| > 0 && SegOk(q, r.bios + n.bios, nr)
    ensures SegOk(q, SetMixedMerge(r).bios + SetMixedMerge(n).bios, nr)
  {
    hide SegOk, SetMixedMerge, SameBio;
    var x, y := r.bios + n.bios, SetMixedMerge(r).bios + SetMixedMerge(n).bios;
    MixedSame(r);
    MixedSame(n);
    assert First(x) == First(r.bios) && Last(x) == Last(n.bios);
    LargerSizesKeepWitness(q, x, y, nr);
  }

  lemma MixedSame(rq: Rq)
    requires |rq.bios| > 0
    ensures var b := SetMixedMerge(rq).bios;
            && SameChain(rq.bios, b) && First(b).segFront == First(rq.bios).segFront
            && Last(b).segBack == Last(rq.bios).segBack
  {}

  lemma JoinedGood(q: Limits, r: Rq, n: Rq, nr: int)
    requires Good(q, r) && Good(q, n) && AllData(r.bios) && AllData(n.bios)
    requires r.sector + RqSectors(r) == n.sector && RqFor(r, n)
    requires SegOk(q, r.bios + n.bios, nr) && r.mixed == n.mixed && (r.mixed || r.failfast == n.failfast)
    ensures Good(q, JoinRequests(r, n, nr)) && Ids(JoinRequests(r, n, nr).bios) == Ids(r.bios) + Ids(n.bios)
  {
    hide SegOk, Contiguous, Ids, TotalSize;
    ConcatFail(r, n, JoinRequests(r, n, nr));
    ConcatGood(q, r, n, JoinRequests(r, n, nr));
  }

  /** A request merge keeps both requests good when refused, and on success leaves one
      good request with the bios of both, within the segment limits. */
  lemma AttemptMergeGood(q: Limits, rq: Rq, next: Rq)
    requires Good(q, rq) && Good(q, next)
    ensures var m := AttemptMerge(q, rq, next);
            && (!m.ok ==> Good(q, m.rq) && Good(q, m.next)
                          && Ids(m.rq.bios) == Ids(rq.bios) && Ids(m.next.bios) == Ids(next.bios))
            && (m.ok ==> Good(q, m.rq) && Ids(m.rq.bios) == Ids(rq.bios) + Ids(next.bios)
                         && m.rq.nrPhysSegments <= q.maxHwSegments && m.rq.nrPhysSegments <= q.maxPhysSegments)
  {
    hide SegOk, Contiguous, Ids, TotalSize, LlMergeRequests, SameIo, FailOk;
    if Neighbours(rq, next) {
      var m := LlMergeRequests(q, rq, next);
      LlMergeSegOk(q, rq, next);
      LlMergeSame(q, rq, next);
      RebuiltGood(q, rq, m.bios);
      RebuiltGood(q, next, m.nextBios);
      if m.ok {
        AttemptMergeOk(q, rq, next);
      }
    }
  }

  lemma AttemptMergeOk(q: Limits, rq: Rq, next: Rq)
    requires Neighbours(rq, next) && |rq.bios| > 0 && |next.bios| > 0
    requires var m := LlMergeRequests(q, rq, next);
             && m.ok && SegOk(q, m.bios + m.nextBios, m.nr) && AllData(m.bios) && AllData(m.nextBios)
             && Good(q, rq.(bios := m.bios)) && Good(q, next.(bios := m.nextBios))
    ensures var m := LlMergeRequests(q, rq, next);
            var r := AttemptMerge(q, rq, next).rq;
            Good(q, r) && Ids(r.bios) == Ids(m.bios) + Ids(m.nextBios) && r.nrPhysSegments == m.nr
  {
    hide SegOk, Contiguous, Ids, TotalSize, LlMergeRequests;
    var m := LlMergeRequests(q, rq, next);
    var r, n := rq.(bios := m.bios), next.(bios := m.nextBios);
    if rq.mixed || next.mixed || rq.failfast != next.failfast {
      SetMixedGood(q, r);
      SetMixedGood(q, n);
      SetMixedData(q, r);
      SetMixedData(q, n);
      MixedSegOk(q, r, n, m.nr);
      JoinedGood(q, SetMixedMerge(r), SetMixedMerge(n), m.nr);
    } else {
      JoinedGood(q, r, n, m.nr);
    }
  }
}
