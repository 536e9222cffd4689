/** Where the request-building code needs more from its callers than it checks: two properties that
    hold of merged requests only under a condition, stated exactly. */
module RequestLimits {
  import opened Common
  import opened Segments
  import opened Requests
  import opened RequestRuns
  import opened RequestPool

  // ----- segment counts and bios without data -----

  /** The verdict on two requests looks at their segments at all. */
  predicate Weighed(q: Limits, rq: Rq, next: Rq) {
    !rq.special && !next.special && RqSectors(rq) + RqSectors(next) <= q.maxSectors
  }

  /** The contiguity test says yes without having looked at any piece. */
  predicate Guessed(q: Limits, x: seq<Bio>, y: seq<Bio>)
    requires |x| > 0 && |y| > 0
  {
    q.cluster && Last(x).segBack + First(y).segFront <= q.maxSegmentSize && !HasData(Last(x))
  }

  /** The last piece of one chain runs on into the first piece of the other. */
  predicate Seam(q: Limits, x: seq<Bio>, y: seq<Bio>) {
    |Bvecs(x)| > 0 && |Bvecs(y)| > 0 && Joinable(q, Last(Bvecs(x)), First(Bvecs(y)))
  }

  lemma MappedLast(q: Limits, b1: seq<Bvec>, b2: seq<Bvec>)
    requires |b1| > 0 && |b2| > 0
    ensures var c1, c2 := MapCuts(q, b1), MapCuts(q, b2);
            LastSize(b1 + b2, c1 + c2) == LastSize(b2, c2) && Count(c1 + c2) == Count(c1) + Count(c2)
  {
    hide MapCuts, LastSize, Count, FirstSize;
    MapCutsValid(q, b1);
    MapCutsValid(q, b2);
    Concat(q, b1, MapCuts(q, b1), b2, MapCuts(q, b2));
  }

  /** Pieces that do not run on are mapped on each side as if alone. */
  lemma {:induction false} MapSeam(q: Limits, b1: seq<Bvec>, b2: seq<Bvec>)
    requires |b1| > 0 && |b2| > 0 && !Joinable(q, b1[|b1| - 1], b2[0])
    ensures MapCuts(q, b1 + b2) == MapCuts(q, b1) + MapCuts(q, b2)
  {
    hide Joinable, MapCuts, LastSize;
    var n := |b2| - 1;
    var front, x := b2[..n], b2[n];
    assert b2 == front + [x] && b1 + b2 == (b1 + front) + [x];
    MapSnoc(q, b1 + front, x);
    MapSnoc(q, front, x);
    if n == 0 {
      assert b1 + front == b1;
      assert MapCuts(q, front) == [];
    } else {
      MapSeam(q, b1, front);
      MappedLast(q, b1, front);
    }
  }

  lemma Empty(q: Limits, bios: seq<Bio>, nr: int)
    requires SegOk(q, bios, nr) && Bvecs(bios) == []
    ensures nr == 0
  {
    var c :| Witness(q, bios, nr, c);
    assert c == [];
  }

  /** Two justified counts together bound the list of both chains. */
  lemma SumBounds(q: Limits, x: seq<Bio>, n: int, y: seq<Bio>, m: int)
    requires SegOk(q, x, n) && SegOk(q, y, m)
    ensures Count(MapCuts(q, Bvecs(x + y))) <= n + m
  {
    hide SegOk, Count, MapCuts, Bvecs;
    BvecsConcat(x, y);
    BoundsList(q, x, n);
    BoundsList(q, y, m);
    if Bvecs(x) == [] {
      Empty(q, x, n);
      assert [] + Bvecs(y) == Bvecs(y);
    } else if Bvecs(y) == [] {
      Empty(q, y, m);
      assert Bvecs(x) + [] == Bvecs(x);
    } else {
      ConcatSegOk(q, x, n, y, m);
      BoundsList(q, x + y, n + m);
    }
  }

  /** If the chains run on into each other and their outer sizes fit, one segment is saved. */
  lemma SeamSaves(q: Limits, x: seq<Bio>, n: int, y: seq<Bio>, m: int)
    requires |x| > 0 && |y| > 0 && SegOk(q, x, n) && SegOk(q, y, m)
    requires Seam(q, x, y) && Last(x).segBack + First(y).segFront <= q.maxSegmentSize
    ensures Count(MapCuts(q, Bvecs(x + y))) <= n + m - 1
  {
    hide Count, MapCuts, Bvecs, FirstSize, LastSize, Joinable;
    var c :| Witness(q, x, n, c);
    var d :| Witness(q, y, m, d);
    BvecsConcat(x, y);
    Join(q, Bvecs(x), c, Bvecs(y), d);
    GreedyStaysAhead(q, Bvecs(x + y), c + d[0 := false]);
  }

  /** If they do not, none is. */
  lemma NoSeam(q: Limits, x: seq<Bio>, y: seq<Bio>)
    requires !Seam(q, x, y)
    ensures Count(MapCuts(q, Bvecs(x + y))) == Count(MapCuts(q, Bvecs(x))) + Count(MapCuts(q, Bvecs(y)))
  {
    hide MapCuts, Bvecs, Joinable;
    BvecsConcat(x, y);
    var b1, b2 := Bvecs(x), Bvecs(y);
    assert MapCuts(q, []) == [];
    if b1 == [] {
      assert [] + b2 == b2;
    } else if b2 == [] {
      assert b1 + [] == b1;
    } else {
      MapSeam(q, b1, b2);
      MappedLast(q, b1, b2);
    }
  }

  lemma {:induction false} LastPiece(bios: seq<Bio>)
    requires |bios| > 0
    ensures HasData(Last(bios)) ==> |Bvecs(bios)| > 0 && Last(Bvecs(bios)) == Last(Last(bios).bvecs)
  {}

  lemma FirstPiece(bios: seq<Bio>)
    requires |bios| > 0
    ensures HasData(First(bios)) ==> |Bvecs(bios)| > 0 && First(Bvecs(bios)) == First(First(bios).bvecs)
  {
    hide Bvecs;
    assert bios == [bios[0]] + bios[1..];
    BvecsConcat([bios[0]], bios[1..]);
    ChainOne(bios[0]);
  }

  lemma VerdictBvecs(q: Limits, rq: Rq, next: Rq)
    requires |rq.bios| > 0 && |next.bios| > 0
    ensures var m := LlMergeRequests(q, rq, next);
            Bvecs(m.bios + m.nextBios) == Bvecs(rq.bios + next.bios)
  {
    hide Bvecs, PhysContig, RqSectors;
    var m := LlMergeRequests(q, rq, next);
    SameBvecs(m.bios, rq.bios);
    SameBvecs(m.nextBios, next.bios);
    BvecsConcat(m.bios, m.nextBios);
    BvecsConcat(rq.bios, next.bios);
  }

  lemma VerdictCount(q: Limits, rq: Rq, next: Rq)
    requires |rq.bios| > 0 && |next.bios| > 0 && Weighed(q, rq, next)
    ensures var m := LlMergeRequests(q, rq, next);
            && (Guessed(q, rq.bios, next.bios) ==> m.nr == rq.nrPhysSegments + next.nrPhysSegments - 1)
            && (m.nr == rq.nrPhysSegments + next.nrPhysSegments
                || (m.nr == rq.nrPhysSegments + next.nrPhysSegments - 1
                    && Last(rq.bios).segBack + First(next.bios).segFront <= q.maxSegmentSize
                    && (Guessed(q, rq.bios, next.bios) || Seam(q, rq.bios, next.bios))))
  {
    hide Bvecs, Joinable, RqSectors;
    LastPiece(rq.bios);
    FirstPiece(next.bios);
  }

  /** Two requests with justified counts, whichever of their bios come without data: the joint
      count bounds the list, unless contiguity was guessed and there is no seam. */
  lemma JointCountBounds(q: Limits, rq: Rq, next: Rq)
    requires |rq.bios| > 0 && |next.bios| > 0 && Weighed(q, rq, next)
    requires SegOk(q, rq.bios, rq.nrPhysSegments) && SegOk(q, next.bios, next.nrPhysSegments)
    requires !Guessed(q, rq.bios, next.bios) || Seam(q, rq.bios, next.bios)
    ensures var m := LlMergeRequests(q, rq, next);
            Count(MapCuts(q, Bvecs(m.bios + m.nextBios))) <= m.nr
  {
    hide LlMergeRequests, Weighed, SegOk, Guessed, Seam, Bvecs, MapCuts, Count;
    var m := LlMergeRequests(q, rq, next);
    VerdictBvecs(q, rq, next);
    VerdictCount(q, rq, next);
    SumBounds(q, rq.bios, rq.nrPhysSegments, next.bios, next.nrPhysSegments);
    if Seam(q, rq.bios, next.bios) {
      if m.nr != rq.nrPhysSegments + next.nrPhysSegments {
        SeamSaves(q, rq.bios, rq.nrPhysSegments, next.bios, next.nrPhysSegments);
      }
    }
  }

  /** If both counts are those of the lists, the joint count bounds the list if and only if
      contiguity was not guessed or there is a seam. */
  lemma JointCountIff(q: Limits, rq: Rq, next: Rq)
    requires |rq.bios| > 0 && |next.bios| > 0 && Weighed(q, rq, next)
    requires SegOk(q, rq.bios, rq.nrPhysSegments) && SegOk(q, next.bios, next.nrPhysSegments)
    requires rq.nrPhysSegments == Count(MapCuts(q, Bvecs(rq.bios)))
    requires next.nrPhysSegments == Count(MapCuts(q, Bvecs(next.bios)))
    ensures var m := LlMergeRequests(q, rq, next);
            Count(MapCuts(q, Bvecs(m.bios + m.nextBios))) <= m.nr <==>
            !Guessed(q, rq.bios, next.bios) || Seam(q, rq.bios, next.bios)
  {
    hide LlMergeRequests, Weighed, SegOk, Guessed, Seam, Bvecs, MapCuts, Count;
    if !Guessed(q, rq.bios, next.bios) || Seam(q, rq.bios, next.bios) {
      JointCountBounds(q, rq, next);
    } else {
      VerdictBvecs(q, rq, next);
      VerdictCount(q, rq, next);
      NoSeam(q, rq.bios, next.bios);
    }
  }

  /** A bio without data between two pieces that run on: contiguity is guessed, rightly. */
  lemma GuessedRightly() returns (q: Limits, rq: Rq, next: Rq)
    ensures |rq.bios| == 2 && |next.bios| == 1 && Guessed(q, rq.bios, next.bios) && Seam(q, rq.bios, next.bios)
    ensures Neighbours(rq, next) && LlMergeRequests(q, rq, next).ok && LlMergeRequests(q, rq, next).nr == 1
  {
    q := Limits(true, 65536, 65536, 128, 128, 255);
    var a := Bio(0, 0, 512, Write, {}, {}, false, false, false, 0, false, [Bvec(4096, 512, false)], 512, 512, 1, true);
    var e := Bio(1, 1, 512, Write, {}, {}, false, false, false, 0, false, [], 0, 512, 0, true);
    var b := Bio(2, 2, 512, Write, {}, {}, false, false, false, 0, false, [Bvec(4608, 512, false)], 512, 512, 1, true);
    rq := Rq(0, 1024, Write, [a, e], 1, {}, false, false, false, false, false, 0, false, false);
    next := Rq(2, 512, Write, [b], 1, {}, false, false, false, false, false, 0, false, false);
    ChainOne(a);
    ChainOne(b);
    assert [a, e][..1] == [a];
  }

  predicate Dataless(bios: seq<Bio>) { forall b :: b in bios ==> !HasData(b) }

  lemma {:induction false} DatalessBvecs(bios: seq<Bio>)
    requires Dataless(bios)
    ensures Bvecs(bios) == []
  {
    if |bios| > 0 {
      assert Last(bios) in bios;
      DatalessBvecs(bios[..|bios| - 1]);
    }
  }

  lemma {:induction false} SameBvecs(a: seq<Bio>, b: seq<Bio>)
    requires |a| == |b| && forall i :: 0 <= i < |a| ==> a[i].bvecs == b[i].bvecs
    ensures Bvecs(a) == Bvecs(b)
  {
    if |a| > 0 { SameBvecs(a[..|a| - 1], b[..|b| - 1]); }
  }

  /** A request without data in front of one whose count is exact: the joint count bounds the list that
      is mapped exactly when the queue does not cluster or the two end segments are together too long.
      Otherwise the bio without data is taken to be contiguous and the count is one too low. */
  lemma DatalessCountIff(q: Limits, rq: Rq, next: Rq)
    requires |rq.bios| > 0 && |next.bios| > 0 && Dataless(rq.bios) && rq.nrPhysSegments == 0
    requires next.nrPhysSegments == Count(MapCuts(q, Bvecs(next.bios)))
    requires !rq.special && !next.special && RqSectors(rq) + RqSectors(next) <= q.maxSectors
    ensures var m := LlMergeRequests(q, rq, next);
            Count(MapCuts(q, Bvecs(m.bios + m.nextBios))) <= m.nr <==>
            !(q.cluster && Last(rq.bios).segBack + First(next.bios).segFront <= q.maxSegmentSize)
  {
    var m := LlMergeRequests(q, rq, next);
    assert Last(rq.bios) in rq.bios;
    SameBvecs(m.bios, rq.bios);
    SameBvecs(m.nextBios, next.bios);
    DatalessBvecs(rq.bios);
    BvecsConcat(m.bios, m.nextBios);
    assert [] + Bvecs(next.bios) == Bvecs(next.bios);
  }

  /** A request without data in front of a one-segment request: the joint count is zero. */
  lemma DatalessUndercounts() returns (q: Limits, rq: Rq, next: Rq)
    ensures |rq.bios| > 0 && |next.bios| > 0 && Dataless(rq.bios) && Neighbours(rq, next)
    ensures LlMergeRequests(q, rq, next).ok && LlMergeRequests(q, rq, next).nr == 0
    ensures Count(MapCuts(q, Bvecs(next.bios))) == 1
  {
    q := Limits(true, 65536, 65536, 128, 128, 255);
    var a := Bio(0, 0, 512, Write, {}, {}, false, false, false, 0, false, [], 0, 0, 0, true);
    var b := Bio(1, 1, 512, Write, {}, {}, false, false, false, 0, false, [Bvec(4096, 512, false)], 512, 512, 1, true);
    rq := Rq(0, 512, Write, [a], 0, {}, false, false, false, false, false, 0, false, false);
    next := Rq(1, 512, Write, [b], 1, {}, false, false, false, false, false, 0, false, false);
    OneSegment(q, b);
  }

  lemma OneSegment(q: Limits, bio: Bio)
    requires |bio.bvecs| == 1
    ensures Count(MapCuts(q, Bvecs([bio]))) == 1
  {
    hide MapCuts, Count, Bvecs;
    ChainOne(bio);
    OneCut(q, bio.bvecs);
  }

  lemma OneCut(q: Limits, b: seq<Bvec>)
    requires |b| == 1
    ensures Count(MapCuts(q, b)) == 1
  {
    hide LastSize, Joinable;
    assert b[..0] == [];
    assert MapCuts(q, b) == [true];
    assert [true][..0] == [];
    assert Count([true]) == 1;
  }

  // ----- discards and ordinary requests -----

  function Kinds(bios: seq<Bio>): (k: seq<bool>)
    ensures |k| == |bios| && forall i :: 0 <= i < |k| ==> k[i] == bios[i].discard
  {
    seq(|bios|, i requires 0 <= i < |bios| => bios[i].discard)
  }

  /** All bios of a request are discards, or none is. */
  predicate OneKind(rq: Rq) {
    |rq.bios| > 0 && forall i :: 0 <= i < |rq.bios| ==> Kinds(rq.bios)[i] == Kinds(rq.bios)[0]
  }

  lemma VerdictKinds(q: Limits, rq: Rq, next: Rq)
    requires |rq.bios| > 0 && |next.bios| > 0
    ensures var m := LlMergeRequests(q, rq, next);
            Kinds(m.bios) == Kinds(rq.bios) && Kinds(m.nextBios) == Kinds(next.bios)
  {
    hide PhysContig;
  }

  lemma MixedKinds(rq: Rq)
    ensures Kinds(SetMixedMerge(rq).bios) == Kinds(rq.bios)
  {}

  lemma KindsConcat(a: seq<Bio>, b: seq<Bio>)
    ensures Kinds(a + b) == Kinds(a) + Kinds(b)
  {}

  lemma JoinedKinds(r: Rq, n: Rq, nr: int)
    ensures Kinds(JoinMixed(r, n, nr).rq.bios) == Kinds(r.bios) + Kinds(n.bios)
  {
    hide SetMixedMerge, Kinds;
    MixedKinds(r);
    MixedKinds(n);
    KindsConcat(r.bios, n.bios);
    KindsConcat(SetMixedMerge(r).bios, SetMixedMerge(n).bios);
  }

  /** Merging two neighbouring requests does not compare their kinds: the result is of one kind exactly
      when they agree already. */
  lemma KindKeptIff(q: Limits, rq: Rq, next: Rq)
    requires OneKind(rq) && OneKind(next) && AttemptMerge(q, rq, next).ok
    ensures OneKind(AttemptMerge(q, rq, next).rq) <==> rq.bios[0].discard == next.bios[0].discard
  {
    hide LlMergeRequests, JoinMixed;
    var m := LlMergeRequests(q, rq, next);
    var r := AttemptMerge(q, rq, next).rq;
    VerdictKinds(q, rq, next);
    JoinedKinds(rq.(bios := m.bios), next.(bios := m.nextBios), m.nr);
    var k, n := Kinds(rq.bios), Kinds(next.bios);
    assert Kinds(r.bios) == k + n && (k + n)[0] == k[0] && (k + n)[|k|] == n[0];
  }

  /** Back and front merges of bios do compare the kinds, and keep a request of one kind. */
  lemma BioMergesKeepKind(q: Limits, rq: Rq, bio: Bio)
    requires OneKind(rq) && TryMerge(rq, bio) != NoMerge
    ensures OneKind(AppendBio(LlBackMerge(q, rq, bio))) && OneKind(PrependBio(LlFrontMerge(q, rq, bio)))
  {
    hide LlMergeAt, SetMixedMerge;
    EndKinds(q, rq, bio, |rq.bios| - 1);
    EndKinds(q, rq, bio, 0);
    AppendKinds(LlBackMerge(q, rq, bio));
    PrependKinds(LlFrontMerge(q, rq, bio));
  }

  lemma AppendKinds(m: LlResult)
    ensures Kinds(AppendBio(m).bios) == Kinds(m.rq.bios) + [m.bio.discard]
  {
    hide SetMixedMerge, Kinds;
    MixedKinds(m.rq);
    KindsConcat(m.rq.bios, [m.bio]);
    KindsConcat(SetMixedMerge(m.rq).bios, [m.bio]);
  }

  lemma PrependKinds(m: LlResult)
    ensures Kinds(PrependBio(m).bios) == [m.bio.discard] + Kinds(m.rq.bios)
  {
    hide SetMixedMerge, Kinds;
    MixedKinds(m.rq);
    KindsConcat([m.bio], m.rq.bios);
    KindsConcat([m.bio], SetMixedMerge(m.rq).bios);
  }

  lemma EndKinds(q: Limits, rq: Rq, bio: Bio, at: nat)
    requires at < |rq.bios|
    ensures var m := LlMergeAt(q, rq, bio, at); Kinds(m.rq.bios) == Kinds(rq.bios) && m.bio.discard == bio.discard
  {
    hide Recounted, RqSectors, BioSectors, BioMergeSectors, NewHwSegment;
    RecountedKind(q, rq.bios[at]);
    ReplacedKinds(rq.bios, at, Recounted(q, rq.bios[at]));
    SegmentKinds(q, rq.(bios := rq.bios[at := Recounted(q, rq.bios[at])]), bio);
  }

  lemma ReplacedKinds(bios: seq<Bio>, at: nat, bio: Bio)
    requires at < |bios| && bio.discard == bios[at].discard
    ensures Kinds(bios[at := bio]) == Kinds(bios)
  {}

  lemma SegmentKinds(q: Limits, rq: Rq, bio: Bio)
    ensures NewHwSegment(q, rq, bio).rq.bios == rq.bios && NewHwSegment(q, rq, bio).bio.discard == bio.discard
  {
    hide Recounted;
    RecountedKind(q, bio);
  }

  lemma RecountedKind(q: Limits, bio: Bio)
    ensures Recounted(q, bio).discard == bio.discard
  {
    hide RecalcCount, CountCuts, FirstSize, LastSize, Bvecs;
  }

  /** A discard followed by an ordinary write of the next sectors: the elevator joins them. */
  lemma DiscardMeetsWrite() returns (q: Limits, rq: Rq, next: Rq)
    ensures OneKind(rq) && OneKind(next) && AttemptMerge(q, rq, next).ok && !OneKind(AttemptMerge(q, rq, next).rq)
  {
    q := Limits(false, 65536, 65536, 128, 128, 255);
    var v := Bvec(4096, 512, false);
    var a := Bio(0, 0, 512, Write, {}, {}, false, true, false, 0, false, [v], 512, 512, 1, true);
    var b := Bio(1, 1, 512, Write, {}, {}, false, false, false, 0, false, [v], 512, 512, 1, true);
    rq := Rq(0, 512, Write, [a], 1, {}, false, false, false, false, false, 0, false, false);
    next := Rq(1, 512, Write, [b], 1, {}, false, false, false, false, false, 0, false, false);
    assert rq.bios[0].discard && !next.bios[0].discard;
    KindKeptIff(q, rq, next);
  }
}
