/** The whole life of bios: submitted, merged into requests, handed to the driver and
    completed piece by piece, by any numbers of bytes. */
module RequestLife {
  import opened Common
  import opened Segments
  import opened Requests
  import opened RequestRuns
  import opened RequestPool
  import opened Completion

  /** The requests open to merging, those the driver works on, and the ids of all bios
      submitted and ended so far. */
  datatype Life = Life(queued: seq<Rq>, handed: seq<Rq>, submitted: multiset<nat>, ended: multiset<nat>)

  datatype Event =
    | Queue(a: Action)
    | Complete(i: nat, n: nat)

  function PoolOf(s: Life): Pool { Pool(s.queued, [], AllIds(s.queued)) }

  predicate SizedAction(a: Action) { a.Start? || Sized(a.bio) }

  function NewIds(a: Action): multiset<nat> { if a.Start? then multiset{} else multiset{a.bio.id} }

  ghost predicate Happens(q: Limits, s: Life, e: Event) {
    match e
    case Queue(a) => Enabled(q, PoolOf(s), a) && SizedAction(a)
    case Complete(i, n) => i < |s.handed| && CutOk(s.handed[i].bios, n)
  }

  ghost function After(q: Limits, s: Life, e: Event): Life
    requires Happens(q, s, e)
  {
    match e
    case Queue(a) =>
      var p := Next(q, PoolOf(s), a);
      s.(queued := p.queued, handed := s.handed + p.handed, submitted := s.submitted + NewIds(a))
    case Complete(i, n) =>
      var u := UpdateRequest(q, s.handed[i], n);
      s.(handed := if u.more then s.handed[i := u.rq] else Drop(s.handed, i), ended := s.ended + Ids(u.ended))
  }

  ghost predicate AllSized(rqs: seq<Rq>) {
    forall i :: 0 <= i < |rqs| ==> SizedChain(rqs[i].bios)
  }

  ghost predicate AllServable(q: Limits, rqs: seq<Rq>) {
    forall i :: 0 <= i < |rqs| ==> Servable(q, rqs[i]) && |rqs[i].bios| > 0
  }

  ghost predicate LifeInv(q: Limits, s: Life) {
    && AllGood(q, s.queued) && AllSized(s.queued) && AllServable(q, s.handed)
    && AllIds(s.queued) + AllIds(s.handed) + s.ended == s.submitted
  }

  // ----- submissions keep bios sized -----

  lemma SizedUpdate(bios: seq<Bio>, at: nat, bio: Bio)
    requires SizedChain(bios) && at < |bios| && SameBio(bios[at], bio)
    ensures SizedChain(bios[at := bio])
  {
    hide Sized;
    SameSized(bios[at], bio);
  }

  lemma SizedFail(rq: Rq)
    requires SizedChain(rq.bios)
    ensures SizedChain(SetMixedMerge(rq).bios)
  {
    hide Sized;
    var r := SetMixedMerge(rq).bios;
    forall i | 0 <= i < |r| ensures Sized(r[i]) {
      SameSized(rq.bios[i], r[i]);
    }
  }

  lemma LlMergeSized(q: Limits, rq: Rq, bio: Bio, at: nat)
    requires SizedChain(rq.bios) && at < |rq.bios| && Sized(bio)
    ensures var m := LlMergeAt(q, rq, bio, at);
            SizedChain(m.rq.bios) && Sized(m.bio)
  {
    hide SizedChain, Sized, Recounted, NewHwSegment, RqSectors, BioSectors, BioMergeSectors;
    RecountedSame(q, rq.bios[at]);
    var edge := Recounted(q, rq.bios[at]);
    SizedUpdate(rq.bios, at, edge);
    NewSegmentSized(q, rq.(bios := rq.bios[at := edge]), bio);
  }

  lemma RecountedSame(q: Limits, bio: Bio)
    ensures SameBio(bio, Recounted(q, bio))
  {
    hide Recounted;
    RecountedOk(q, bio);
  }

  lemma NewSegmentSized(q: Limits, rq: Rq, bio: Bio)
    requires SizedChain(rq.bios) && Sized(bio)
    ensures var m := NewHwSegment(q, rq, bio);
            SizedChain(m.rq.bios) && Sized(m.bio)
  {
    hide SizedChain, Sized, Recounted, NewHwSegment;
    RecountedSame(q, bio);
    SameSized(bio, Recounted(q, bio));
    NewSegmentIs(q, rq, bio);
  }

  lemma JoinSized(m: LlResult)
    requires SizedChain(m.rq.bios) && Sized(m.bio)
    ensures SizedChain(AppendBio(m).bios) && SizedChain(PrependBio(m).bios)
  {
    hide Sized, SetMixedMerge;
    SizedFail(m.rq);
  }

  lemma InitSized(q: Limits, bio: Bio)
    requires Sized(bio)
    ensures SizedChain(InitFromBio(q, bio).bios)
  {
    hide Sized, Recounted;
    RecountedSame(q, bio);
    SameSized(bio, Recounted(q, bio));
  }

  lemma LlRequestsSized(q: Limits, rq: Rq, next: Rq)
    requires SizedChain(rq.bios) && SizedChain(next.bios) && |rq.bios| > 0 && |next.bios| > 0
    ensures var m := LlMergeRequests(q, rq, next);
            SizedChain(m.bios) && SizedChain(m.nextBios)
  {
    hide Sized, PhysContig, RqSectors;
    var size, last := Last(rq.bios).segBack + First(next.bios).segFront, |next.bios| - 1;
    SizedUpdate(rq.bios, 0, First(rq.bios).(segFront := size));
    SizedUpdate(next.bios, last, Last(next.bios).(segBack := size));
  }

  lemma JoinRequestsSized(r: Rq, n: Rq, nr: int)
    requires SizedChain(r.bios) && SizedChain(n.bios)
    ensures var m := JoinMixed(r, n, nr);
            SizedChain(m.rq.bios) && SizedChain(m.next.bios)
  {
    hide Sized, SetMixedMerge;
    SizedFail(r);
    SizedFail(n);
  }

  lemma AttemptSized(q: Limits, rq: Rq, next: Rq)
    requires SizedChain(rq.bios) && SizedChain(next.bios) && |rq.bios| > 0 && |next.bios| > 0
    ensures var m := AttemptMerge(q, rq, next);
            SizedChain(m.rq.bios) && SizedChain(m.next.bios)
  {
    hide Sized, LlMergeRequests, JoinMixed, Neighbours;
    LlRequestsSized(q, rq, next);
    var m := LlMergeRequests(q, rq, next);
    JoinRequestsSized(rq.(bios := m.bios), next.(bios := m.nextBios), m.nr);
  }

  lemma MergePairSized(q: Limits, rqs: seq<Rq>, x: nat, y: nat)
    requires x < |rqs| && y < |rqs| && x != y && AllSized(rqs)
    requires |rqs[x].bios| > 0 && |rqs[y].bios| > 0
    ensures AllSized(MergePair(q, rqs, x, y))
  {
    hide SizedChain, AttemptMerge;
    AttemptSized(q, rqs[x], rqs[y]);
  }

  lemma MergedSized(q: Limits, s: Pool, bio: Bio, i: nat, p: Option<nat>, m: LlResult, rq: Rq, back: bool)
    requires AllSized(s.queued) && i < |s.queued| && PartnerOk(s, i, p)
    requires SizedChain(m.rq.bios) && Sized(m.bio) && SizedChain(rq.bios) && |rq.bios| > 0
    ensures AllSized(s.queued[i := m.rq] + [InitFromBio(q, m.bio)]) && AllSized(s.queued[i := rq])
    ensures p.Some? && back ==> AllSized(MergePair(q, s.queued[i := rq], i, p.value))
    ensures p.Some? && !back ==> AllSized(MergePair(q, s.queued[i := rq], p.value, i))
  {
    hide SizedChain, Sized, InitFromBio, MergePair;
    InitSized(q, m.bio);
    if p.Some? {
      if back {
        MergePairSized(q, s.queued[i := rq], i, p.value);
      } else {
        MergePairSized(q, s.queued[i := rq], p.value, i);
      }
    }
  }

  lemma QueueSized(q: Limits, s: Pool, a: Action)
    requires Enabled(q, s, a) && SizedAction(a) && AllSized(s.queued)
    ensures AllSized(Next(q, s, a).queued)
  {
    hide SizedChain, Sized, InitFromBio, LlMergeAt, AppendBio, PrependBio, MergePair, TryMerge, BioOk;
    match a {
      case Fresh(bio) =>
        InitSized(q, bio);
      case Back(bio, i, p) =>
        var m := LlBackMerge(q, s.queued[i], bio);
        LlMergeSized(q, s.queued[i], bio, |s.queued[i].bios| - 1);
        JoinSized(m);
        Longer(m);
        MergedSized(q, s, bio, i, p, m, AppendBio(m), true);
      case Front(bio, i, p) =>
        var m := LlFrontMerge(q, s.queued[i], bio);
        LlMergeSized(q, s.queued[i], bio, 0);
        JoinSized(m);
        Longer(m);
        MergedSized(q, s, bio, i, p, m, PrependBio(m), false);
      case Start(i) =>
    }
  }

  lemma Longer(m: LlResult)
    ensures |AppendBio(m).bios| > 0 && |PrependBio(m).bios| > 0
  {}

  // ----- completions end bios once -----

  /** What completes and what is left of a chain are the chain. */
  lemma AdvanceIds(bios: seq<Bio>, n: nat)
    requires SizedChain(bios)
    ensures var p := Advance(bios, n);
            Ids(p.ended) + Ids(p.rest) == Ids(bios)
  {
    hide Sized, Advance, Trimmed, Ids, TotalSize;
    var p := Advance(bios, n);
    AdvanceSplits(bios, n);
    var k := |p.ended|;
    if k == |bios| {
      assert bios[..k] == bios;
      NoneIds();
    } else {
      var cut := Trimmed(bios[k], n - TotalSize(p.ended));
      TrimmedFields(bios[k], n - TotalSize(p.ended));
      assert bios == bios[..k] + ([bios[k]] + bios[k + 1..]);
      IdsConcat(bios[..k], [bios[k]] + bios[k + 1..]);
      IdsConcat([bios[k]], bios[k + 1..]);
      IdsConcat([cut], bios[k + 1..]);
      ChainOne(bios[k]);
      ChainOne(cut);
    }
  }

  lemma NoneIds()
    ensures Ids([]) == multiset{}
  {}

  lemma UpdateIds(q: Limits, rq: Rq, n: nat)
    requires SizedChain(rq.bios)
    ensures var u := UpdateRequest(q, rq, n);
            Ids(u.ended) + Ids(u.rq.bios) == Ids(rq.bios) && (!u.more ==> Ids(u.rq.bios) == multiset{})
  {
    hide Sized, Advance, Ids, UpdateRequest, RecalcChain;
    UpdateIs(q, rq, n);
    AdvanceIds(rq.bios, n);
    var p := Advance(rq.bios, n);
    RecalcSame(q, p.rest);
    SameChainTotals(p.rest, RecalcChain(q, p.rest));
    NoneIds();
  }

  lemma CompleteKeeps(q: Limits, s: Life, i: nat, n: nat)
    requires LifeInv(q, s) && Happens(q, s, Complete(i, n))
    ensures LifeInv(q, After(q, s, Complete(i, n)))
  {
    hide Good, AllSized, Servable, CutOk, UpdateRequest, AllIds, Ids;
    var rq := s.handed[i];
    var u := UpdateRequest(q, rq, n);
    ServableSized(q, rq);
    UpdateServable(q, rq, n);
    SomeLeft(q, rq, n);
    UpdateIds(q, rq, n);
    AllIdsUpdate(s.handed, i, u.rq);
  }

  lemma SomeLeft(q: Limits, rq: Rq, n: nat)
    ensures UpdateRequest(q, rq, n).more ==> |UpdateRequest(q, rq, n).rq.bios| > 0
  {
    hide Advance, RecalcChain, UpdateRequest;
    UpdateIs(q, rq, n);
  }

  // ----- runs -----

  lemma QueueKeeps(q: Limits, s: Life, a: Action)
    requires LifeInv(q, s) && Happens(q, s, Queue(a))
    ensures LifeInv(q, After(q, s, Queue(a)))
  {
    hide Good, SizedChain, Sized, Servable, AllIds, Ids, InitFromBio, LlBackMerge, LlFrontMerge, AppendBio;
    hide PrependBio, MergePair, TryMerge, BioOk, Enabled;
    var p := Next(q, PoolOf(s), a);
    NoRequests(q);
    StepKeepsInv(q, PoolOf(s), a);
    QueueSized(q, PoolOf(s), a);
    HandedOn(q, s, a);
    Regroup(AllIds(s.queued), AllIds(s.handed), s.ended, NewIds(a), AllIds(p.queued), AllIds(p.handed));
  }

  lemma Regroup(a: multiset<nat>, b: multiset<nat>, c: multiset<nat>, d: multiset<nat>, x: multiset<nat>,
                y: multiset<nat>)
    requires x + y == a + d
    ensures x + (b + y) + c == (a + b + c) + d
  {
    assert x + (b + y) + c == (x + y) + b + c;
  }

  lemma NoRequests(q: Limits)
    ensures AllIds([]) == multiset{} && AllGood(q, [])
  {}

  /** Only starting a request hands one on, and a good request is servable. */
  lemma HandedOn(q: Limits, s: Life, a: Action)
    requires AllGood(q, s.queued) && AllSized(s.queued) && AllServable(q, s.handed) && Enabled(q, PoolOf(s), a)
    ensures var p := Next(q, PoolOf(s), a);
            && AllServable(q, s.handed + p.handed) && p.submitted == AllIds(s.queued) + NewIds(a)
            && AllIds(s.handed + p.handed) == AllIds(s.handed) + AllIds(p.handed)
  {
    hide Good, SizedChain, Sized, Servable, Ids, AllIds, InitFromBio, LlBackMerge, LlFrontMerge, AppendBio;
    hide PrependBio, MergePair, TryMerge, BioOk;
    NoRequests(q);
    if a.Start? {
      var rq := s.queued[a.i].(started := true);
      StartGood(q, s.queued[a.i]);
      ConsistentLength(q, rq);
      GoodHasBios(q, rq);
      AllIdsSnoc(s.handed, rq);
      AllIdsSnoc([], rq);
      assert [] + [rq] == [rq];
    } else {
      assert s.handed + [] == s.handed;
    }
  }

  lemma GoodHasBios(q: Limits, rq: Rq)
    requires Good(q, rq)
    ensures |rq.bios| > 0
  {}

  ghost predicate StepBy(q: Limits, s: Life, e: Event, s': Life) {
    Happens(q, s, e) && s' == After(q, s, e)
  }

  ghost predicate LifeStep(q: Limits, s: Life, s': Life) { exists e :: StepBy(q, s, e, s') }

  /** A run from the empty queue. */
  ghost predicate IsLife(q: Limits, run: seq<Life>) {
    && |run| > 0 && run[0] == Life([], [], multiset{}, multiset{})
    && forall i {:trigger run[i]} :: 0 < i < |run| ==> LifeStep(q, run[i - 1], run[i])
  }

  lemma {:induction false} LifeKeepsInv(q: Limits, run: seq<Life>, n: nat)
    requires IsLife(q, run) && n < |run|
    ensures LifeInv(q, run[n])
  {
    hide Happens, After, AllGood, AllSized, AllServable;
    if n == 0 {
      LifeBegins(q);
    } else {
      LifeKeepsInv(q, run, n - 1);
      assert LifeStep(q, run[n - 1], run[n]);
      var e :| StepBy(q, run[n - 1], e, run[n]);
      match e {
        case Queue(a) => QueueKeeps(q, run[n - 1], a);
        case Complete(i, k) => CompleteKeeps(q, run[n - 1], i, k);
      }
    }
  }

  lemma LifeBegins(q: Limits)
    ensures LifeInv(q, Life([], [], multiset{}, multiset{}))
  {}

  /** In every run, whatever is submitted, merged and completed: bios end as often as they were
      submitted at most, and as often once no request is left. */
  lemma EndedAreSubmitted(q: Limits, run: seq<Life>, n: nat)
    requires IsLife(q, run) && n < |run|
    ensures run[n].ended <= run[n].submitted
    ensures run[n].queued == [] && run[n].handed == [] ==> run[n].ended == run[n].submitted
  {
    hide AllGood, AllSized, AllServable, Happens, After;
    LifeKeepsInv(q, run, n);
    NoRequests(q);
  }

  /** If bios are submitted once each, no bio ends twice, and none that has ended is in a request
      or is in two places. */
  lemma EveryBioEndsOnce(q: Limits, run: seq<Life>, n: nat, id: nat)
    requires IsLife(q, run) && n < |run| && run[n].submitted[id] <= 1
    ensures var s := run[n];
            AllIds(s.queued)[id] + AllIds(s.handed)[id] + s.ended[id] == s.submitted[id] <= 1
    ensures run[n].queued == [] && run[n].handed == [] ==> run[n].ended[id] == run[n].submitted[id]
  {
    hide AllGood, AllSized, AllServable, Happens, After, AllIds;
    LifeKeepsInv(q, run, n);
    NoRequests(q);
    var s := run[n];
    assert (AllIds(s.queued) + AllIds(s.handed) + s.ended)[id] == s.submitted[id];
  }

  /** In every run a request the driver works on, however much of it is done, can be failed up to
      its next boundary: the bytes to fail are some but not too many and end between two bios,
      failing them ends at least one bio, and the others stay in order and can be failed on. */
  lemma FailingProgresses(q: Limits, run: seq<Life>, n: nat, rq: Rq)
    requires IsLife(q, run) && n < |run| && rq in run[n].handed
    ensures 0 < ErrBytes(rq) <= rq.dataLen && CutOk(rq.bios, ErrBytes(rq))
    ensures var u := UpdateRequest(q, rq, ErrBytes(rq));
            && |u.ended| > 0 && IdSeq(u.ended) + IdSeq(u.rq.bios) == IdSeq(rq.bios)
            && (forall b :: b in u.ended ==> b.ahead || rq.failfast <= b.asked == b.failfast)
            && (u.more ==> Servable(q, u.rq) && u.rq.dataLen < rq.dataLen) && (!u.more ==> u.rq.bios == [])
  {
    hide AllGood, AllSized, Happens, After, Servable, ErrBytes, UpdateRequest, IdSeq, CutOk, Advance;
    LifeKeepsInv(q, run, n);
    var i :| 0 <= i < |run[n].handed| && run[n].handed[i] == rq;
    assert Servable(q, rq);
    ErrBytesProgress(q, rq);
    FailStep(q, rq);
  }

  /** In every run a request that the driver works on, however much of it is done, has a
      segment count that bounds its list, and a length that is that of its bios. */
  lemma ServedListFits(q: Limits, run: seq<Life>, n: nat, rq: Rq)
    requires IsLife(q, run) && n < |run| && rq in run[n].handed
    ensures var b := Bvecs(rq.bios);
            var sg := Entries(b, MapCuts(q, b));
            |sg| <= rq.nrPhysSegments && SgBytes(sg) == BvecBytes(b) && rq.dataLen == TotalSize(rq.bios)
  {
    hide AllGood, AllSized, Happens, After, MapCuts, SgBytes, BvecBytes, Entries, Bvecs;
    LifeKeepsInv(q, run, n);
    var i :| 0 <= i < |run[n].handed| && run[n].handed[i] == rq;
    assert Servable(q, rq);
    BoundsList(q, rq.bios, rq.nrPhysSegments);
  }
}
