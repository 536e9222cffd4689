/** The request as the block layer updates it in place.  Each method is proved to leave
    exactly what the value-level operation of the same name denotes. */
module RequestObject {
  import opened Common
  import opened Segments
  import opened Requests
  import opened RequestRuns
  import opened RequestPool
  import opened Completion

  class Request {
    var sector: nat
    var dataLen: nat
    var bios: seq<Bio>
    var nrPhysSegments: int
    var failfast: set<FailBit>
    var mixed: bool
    var noMerge: bool
    var started: bool
    var hardBarrier: bool
    var softBarrier: bool
    var dir: Dir
    var disk: nat
    var special: bool
    var integrity: bool

    function View(): Rq
      reads this
    {
      Rq(sector, dataLen, dir, bios, nrPhysSegments, failfast, mixed, noMerge, started,
         hardBarrier, softBarrier, disk, special, integrity)
    }

    /** `init_request_from_bio` on a freshly allocated request.  A bio that meets its
        submitter's obligations makes a request whose count bounds its list and which is one
        extent of that bio. */
    constructor (q: Limits, bio: Bio)
      ensures View() == InitFromBio(q, bio)
      ensures BioOk(q, bio) ==> Good(q, View()) && Ids(bios) == multiset{bio.id}
    {
      hide Recounted, Good, Ids, BioOk;
      var b, nr: nat := bio, 0;
      if HasData(bio) {
        b := RecountSegments(q, bio);
        nr := b.physSegments;
      }
      RecountedData(q, bio);
      sector, dataLen, bios, nrPhysSegments := b.sector, b.size, [b], nr;
      failfast := if b.ahead then FAILFAST_MASK else b.failfast;
      hardBarrier, softBarrier := b.barrier && !b.discard, b.barrier && b.discard;
      mixed, noMerge, started, special := false, false, false, false;
      dir, disk, integrity := b.dir, b.disk, b.integrity;
      new;
      if BioOk(q, bio) {
        InitGood(q, bio);
      }
    }

    /** `blk_recalc_rq_segments`. */
    method RecalcSegments(q: Limits)
      modifies this`bios, this`nrPhysSegments
      ensures bios == RecalcChain(q, old(bios)) && nrPhysSegments == RecalcCount(q, old(bios))
    {
      nrPhysSegments, bios := CountSegments(q, bios);
    }

    /** `blk_rq_set_mixed_merge`: spreads the request's failfast bits over its bios. */
    method SetMixedMerge()
      modifies this`bios, this`mixed
      ensures View() == Requests.SetMixedMerge(old(View()))
    {
      if mixed {
        return;
      }
      var i := 0;
      while i < |bios|
        invariant 0 <= i <= |bios| == |old(bios)| && !mixed
        invariant forall k :: 0 <= k < i ==>
                    bios[k] == old(bios)[k].(failfast := old(bios)[k].failfast + failfast)
        invariant bios[i..] == old(bios)[i..]
      {
        assert bios[i] == bios[i..][0] == old(bios)[i..][0] == old(bios)[i];
        bios := bios[i := bios[i].(failfast := bios[i].failfast + failfast)];
        assert forall k :: i < k < |bios| ==> bios[k] == old(bios)[i..][k - i];
        i := i + 1;
      }
      mixed := true;
      assert bios == AddFailfast(old(bios), failfast);
    }

    /** A back merge as `__make_request` performs it. */
    method BackMerge(q: Limits, bio: Bio) returns (ok: bool, bio': Bio)
      requires |bios| > 0
      modifies this`bios, this`mixed, this`nrPhysSegments, this`noMerge, this`dataLen
      ensures var m := LlBackMerge(q, old(View()), bio);
              ok == m.ok && bio' == m.bio && View() == if ok then AppendBio(m) else m.rq
    {
      hide LlMergeAt, Requests.SetMixedMerge;
      ok, bio' := LlMerge(q, bio, |bios| - 1);
      if ok {
        if failfast != bio'.failfast {
          SetMixedMerge();
        }
        bios := bios + [bio'];
        dataLen := dataLen + bio'.size;
      }
    }

    /** A front merge as `__make_request` performs it. */
    method FrontMerge(q: Limits, bio: Bio) returns (ok: bool, bio': Bio)
      requires |bios| > 0
      modifies this`bios, this`mixed, this`nrPhysSegments, this`noMerge, this`dataLen, this`sector, this`failfast
      ensures var m := LlFrontMerge(q, old(View()), bio);
              ok == m.ok && bio' == m.bio && View() == if ok then PrependBio(m) else m.rq
    {
      hide LlMergeAt, PrependBio;
      ok, bio' := LlMerge(q, bio, 0);
      if ok { Prepend(bio'); }
    }

    /** The bio becomes the front of the chain, the sector and the failfast bits those of the request. */
    method Prepend(bio: Bio)
      modifies this`bios, this`mixed, this`dataLen, this`sector, this`failfast
      ensures View() == PrependBio(LlResult(true, old(View()), bio))
    {
      hide Requests.TakeFailfast;
      TakeFailfast(bio.failfast);
      bios := [bio] + bios;
      sector := bio.sector;
      dataLen := dataLen + bio.size;
    }

    method TakeFailfast(ff: set<FailBit>)
      modifies this`bios, this`mixed, this`failfast
      ensures View() == Requests.TakeFailfast(old(View()), ff)
    {
      hide Requests.SetMixedMerge;
      if failfast != ff {
        SetMixedMerge();
        failfast := ff;
      }
    }

    /** `ll_back_merge_fn` and `ll_front_merge_fn`, which differ in the end they recount. */
    method LlMerge(q: Limits, bio: Bio, at: nat) returns (ok: bool, bio': Bio)
      requires at < |bios|
      modifies this`bios, this`nrPhysSegments, this`noMerge
      ensures LlResult(ok, View(), bio') == LlMergeAt(q, old(View()), bio, at)
    {
      hide Recounted, RqSectors, BioSectors, BioMergeSectors, Requests.NewHwSegment;
      if RqSectors(View()) + BioSectors(bio) > BioMergeSectors(q) {
        noMerge := true;
        ok, bio' := false, bio;
      } else {
        var edge := RecountSegments(q, bios[at]);
        bios := bios[at := edge];
        ok, bio' := NewHwSegment(q, bio);
      }
    }

    /** `ll_new_hw_segment`. */
    method NewHwSegment(q: Limits, bio: Bio) returns (ok: bool, bio': Bio)
      modifies this`nrPhysSegments, this`noMerge
      ensures LlResult(ok, View(), bio') == Requests.NewHwSegment(q, old(View()), bio)
    {
      hide Recounted;
      bio' := RecountSegments(q, bio);
      var n := nrPhysSegments + bio'.physSegments;
      ok := n <= q.maxHwSegments && n <= q.maxPhysSegments;
      if ok {
        nrPhysSegments := n;
      } else {
        noMerge := true;
      }
    }

    /** `attempt_merge`. */
    method AttemptMerge(q: Limits, next: Request) returns (ok: bool)
      requires this != next && |bios| > 0 && |next.bios| > 0
      modifies this, next
      ensures Merged(ok, View(), next.View()) == Requests.AttemptMerge(q, old(View()), old(next.View()))
    {
      hide Requests.MergeNeighbours;
      ok := false;
      if Neighbours(View(), next.View()) {
        ok := MergeNeighbours(q, next);
      }
    }

    /** The part of `attempt_merge` behind its tests. */
    method MergeNeighbours(q: Limits, next: Request) returns (ok: bool)
      requires this != next && |bios| > 0 && |next.bios| > 0
      modifies this`bios, this`mixed, this`dataLen, this`nrPhysSegments, next`bios, next`mixed
      ensures Merged(ok, View(), next.View()) == Requests.MergeNeighbours(q, old(View()), old(next.View()))
    {
      hide Requests.LlMergeRequests, Requests.JoinMixed;
      var nr;
      ok, nr := LlMergeRequests(q, next);
      if ok {
        JoinMixed(next, nr);
      }
    }

    /** `ll_merge_requests_fn`. */
    method LlMergeRequests(q: Limits, next: Request) returns (ok: bool, nr: int)
      requires this != next && |bios| > 0 && |next.bios| > 0
      modifies this`bios, next`bios
      ensures var m := Requests.LlMergeRequests(q, old(View()), old(next.View()));
              ok == m.ok && bios == m.bios && next.bios == m.nextBios && nr == m.nr
    {
      hide PhysContig, RqSectors;
      var segSize := bios[|bios| - 1].segBack + next.bios[0].segFront;
      nr := nrPhysSegments;
      if special || next.special || RqSectors(View()) + RqSectors(next.View()) > q.maxSectors {
        return false, nr;
      }
      nr := nrPhysSegments + next.nrPhysSegments;
      if PhysContig(q, bios[|bios| - 1], next.bios[0]) {
        if nrPhysSegments == 1 {
          bios := bios[0 := bios[0].(segFront := segSize)];
        }
        if next.nrPhysSegments == 1 {
          var last := |next.bios| - 1;
          next.bios := next.bios[last := next.bios[last].(segBack := segSize)];
        }
        nr := nr - 1;
      }
      ok := nr <= q.maxPhysSegments && nr <= q.maxHwSegments;
    }

    method JoinMixed(next: Request, nr: int)
      requires this != next
      modifies this`bios, this`mixed, this`dataLen, this`nrPhysSegments, next`bios, next`mixed
      ensures Merged(true, View(), next.View()) == Requests.JoinMixed(old(View()), old(next.View()), nr)
    {
      hide Requests.SetMixedMerge, JoinRequests;
      MixFailfast(next);
      Absorb(next, nr);
    }

    /** Marks both requests mixed when their failfast settings disagree or one already is. */
    method MixFailfast(next: Request)
      requires this != next
      modifies this`bios, this`mixed, next`bios, next`mixed
      ensures var r, n := old(View()), old(next.View());
              if r.mixed || n.mixed || r.failfast != n.failfast
              then View() == Requests.SetMixedMerge(r) && next.View() == Requests.SetMixedMerge(n)
              else View() == r && next.View() == n
    {
      hide Requests.SetMixedMerge;
      if mixed || next.mixed || failfast != next.failfast {
        SetMixedMerge();
        next.SetMixedMerge();
      }
    }

    /** Takes over the bios of `next`. */
    method Absorb(next: Request, nr: int)
      requires this != next
      modifies this`bios, this`dataLen, this`nrPhysSegments, next`bios
      ensures View() == JoinRequests(old(View()), old(next.View()), nr)
      ensures next.View() == old(next.View()).(bios := [])
    {
      bios := bios + next.bios;
      dataLen := dataLen + next.dataLen;
      nrPhysSegments := nr;
      next.bios := [];
    }

    /** `blk_rq_map_sg`.  A table with room for the cached number of segments is never
        overrun, and the entries written denote the request's bytes in order. */
    method MapSg(q: Limits, sglist: array<SgEntry>) returns (nsegs: nat)
      requires SegOk(q, bios, nrPhysSegments) && nrPhysSegments <= sglist.Length
      modifies sglist
      ensures nsegs <= nrPhysSegments
      ensures sglist[..nsegs] == Entries(Bvecs(bios), MapCuts(q, Bvecs(bios)))
      ensures SgBytes(sglist[..nsegs]) == BvecBytes(Bvecs(bios))
    {
      hide SegOk, MapCuts, Entries, BvecBytes, SgBytes, Count, Mapped;
      MapNothing(q, sglist);
      nsegs := 0;
      ghost var p: seq<Bvec> := [];
      var prev := Bvec(0, 0, false);
      for i := 0 to |bios|
        invariant p == Bvecs(bios[..i])
        invariant Mapped(q, p, prev, nsegs, sglist)
      {
        for j := 0 to |bios[i].bvecs|
          invariant p == Bvecs(bios[..i]) + bios[i].bvecs[..j]
          invariant Mapped(q, p, prev, nsegs, sglist)
        {
          var bv := bios[i].bvecs[j];
          RoomForNext(q, bios, nrPhysSegments, i, j);
          nsegs := MapPiece(q, bv, prev, nsegs, sglist, p);
          prev := bv;
          p := p + [bv];
          assert Bvecs(bios[..i]) + bios[i].bvecs[..j + 1] == Bvecs(bios[..i]) + bios[i].bvecs[..j] + [bv];
        }
        assert bios[i].bvecs[..|bios[i].bvecs|] == bios[i].bvecs;
        assert bios[..i + 1][..i] == bios[..i];
      }
      assert bios[..|bios|] == bios;
      MapEnds(q, p, prev, nsegs, sglist);
      BoundsList(q, bios, nrPhysSegments);
    }

    /** The loop of `blk_update_request`: takes ended bios off the chain and finds how far
        into the next one the bytes reach. */
    method Consume(nrBytes: nat) returns (ended: seq<Bio>, total: nat, bioBytes: nat, nextIdx: nat, left: nat)
      requires SizedChain(bios) && CutOk(bios, nrBytes)
      modifies this`bios
      ensures Arrived(old(bios), nrBytes, bios, ended, total, left, bioBytes, nextIdx)
    {
      hide Walking, Arrived, SizedChain, CutOk;
      ended, total, bioBytes, nextIdx := [], 0, 0, 0;
      left := nrBytes;
      ghost var all := bios;
      WalkStarts(bios, nrBytes);
      while |bios| > 0
        invariant Walking(all, nrBytes, bios, ended, total, left, bioBytes, nextIdx)
        decreases |bios|, if |bios| > 0 then |bios[0].bvecs| - nextIdx else 0
      {
        var bio := bios[0];
        if left >= bio.size {
          WalkWhole(all, nrBytes, bios, ended, total, left, bioBytes, nextIdx);
          ended, bios := ended + [bio], bios[1..];
          total, left, nextIdx, bioBytes := total + bio.size, left - bio.size, 0, 0;
          if |bios| > 0 && left == 0 {
            break;
          }
        } else {
          WalkPiece(all, nrBytes, bios, ended, total, left, bioBytes, nextIdx);
          if nextIdx >= |bio.bvecs| {
            break;
          }
          var nbytes := bio.bvecs[nextIdx].len;
          if nbytes > left {
            bioBytes, total := bioBytes + left, total + left;
            break;
          }
          nextIdx, bioBytes := nextIdx + 1, bioBytes + nbytes;
          total, left := total + nbytes, left - nbytes;
          if left == 0 {
            break;
          }
        }
      }
      if |bios| == 0 {
        WalkEnds(all, nrBytes, ended, total, left, bioBytes, nextIdx);
      }
    }

    /** The end of `blk_update_request`, once the finished bytes are off the chain. */
    method Finish(q: Limits, total: nat)
      requires |bios| > 0 && total <= dataLen
      modifies this`bios, this`nrPhysSegments, this`dataLen, this`sector, this`failfast
      ensures View() == Remaining(q, old(View()), old(bios), total)
    {
      hide RecalcChain, RecalcCount;
      dataLen := dataLen - total;
      sector := sector + total / SECTOR;
      if mixed {
        failfast := bios[0].failfast;
      }
      RecalcSegments(q);
    }

    /** `blk_rq_err_bytes`. */
    method ErrBytes() returns (bytes: nat)
      ensures bytes == Completion.ErrBytes(View())
    {
      if !mixed {
        return dataLen;
      }
      bytes := 0;
      var i := 0;
      while i < |bios| && failfast <= bios[i].failfast
        invariant 0 <= i <= |bios| && bytes == TotalSize(bios[..i])
        invariant forall k :: 0 <= k < i ==> failfast <= bios[k].failfast
        decreases |bios| - i
      {
        bytes := bytes + bios[i].size;
        i := i + 1;
        assert bios[..i][..i - 1] == bios[..i - 1];
      }
      assert i == EagerPrefix(bios, failfast);
    }

    /** Failing a request boundary by boundary comes to an end, however much of it completed
        before, having ended every bio once and in order. */
    method FailToEnd(q: Limits) returns (ended: seq<nat>)
      requires Servable(q, View())
      modifies this`bios, this`nrPhysSegments, this`dataLen, this`sector, this`failfast
      ensures bios == [] && ended == IdSeq(old(bios))
    {
      hide Servable, SizedChain, CutOk, IdSeq, Completion.UpdateRequest, Completion.ErrBytes, Advance;
      ended := [];
      var more := |bios| > 0;
      while more
        invariant more ==> Servable(q, View()) && |bios| > 0
        invariant ended + IdSeq(bios) == IdSeq(old(bios)) && (!more ==> bios == [])
        decreases more, dataLen
      {
        FailStep(q, View());
        ErrBytesProgress(q, View());
        ServableSized(q, View());
        var bytes := ErrBytes();
        var done;
        more, done := UpdateRequest(q, bytes);
        Assoc(ended, IdSeq(done), IdSeq(bios));
        ended := ended + IdSeq(done);
      }
      NoIds();
    }

    /** The first bio moves on to the piece the bytes reach into, unless none of it is done. */
    method TrimFirst(bioBytes: nat, nextIdx: nat, left: nat)
      requires |bios| > 0 && Sized(bios[0]) && bioBytes < bios[0].size
      requires bioBytes > 0 ==> Reached(bios[0], bioBytes, nextIdx, left)
      modifies this`bios
      ensures bios == [Trimmed(old(bios)[0], bioBytes)] + old(bios)[1..]
    {
      hide Trimmed, Sized, Len;
      if bioBytes > 0 {
        var rest := bios[0].bvecs[nextIdx..];
        var head := rest[0].(addr := rest[0].addr + left, len := rest[0].len - left);
        TrimmedBio(bios[0], bioBytes, nextIdx, left);
        bios := bios[0 := bios[0].(bvecs := rest[0 := head], size := bios[0].size - bioBytes,
                                   sector := bios[0].sector + bioBytes / SECTOR)];
      } else {
        TrimmedByNothing(bios[0]);
      }
    }

    /** `blk_update_request`. */
    method UpdateRequest(q: Limits, nrBytes: nat) returns (more: bool, ended: seq<Bio>)
      requires SizedChain(bios) && CutOk(bios, nrBytes) && dataLen == TotalSize(bios)
      modifies this`bios, this`nrPhysSegments, this`dataLen, this`sector, this`failfast
      ensures Update(more, View(), ended) == Completion.UpdateRequest(q, old(View()), nrBytes)
    {
      hide Advance, Trimmed, Sized, Exact, CutOk, TotalSize, RecalcChain, RecalcCount, Bytes;
      if |bios| == 0 {
        AdvanceNothing(nrBytes);
        return false, [];
      }
      AdvanceExact(bios, nrBytes);
      var total, bioBytes, nextIdx, left;
      ended, total, bioBytes, nextIdx, left := Consume(nrBytes);
      if |bios| == 0 {
        dataLen := 0;
        return false, ended;
      }
      TrimFirst(bioBytes, nextIdx, left);
      Finish(q, total);
      more := true;
    }
  }

  // ----- the completion loop -----

  ghost predicate Within(bio: Bio, bytes: nat, idx: nat) {
    idx <= |bio.bvecs| && bytes == Len(bio.bvecs[..idx])
  }

  /** `bytes` bytes of the bio end `left` bytes into its piece `idx`. */
  ghost predicate Reached(bio: Bio, bytes: nat, idx: nat, left: nat) {
    bytes < bio.size && idx < |bio.bvecs| && left < bio.bvecs[idx].len && bytes == Len(bio.bvecs[..idx]) + left
  }

  lemma {:induction false} LenSnoc(b: seq<Bvec>, k: nat)
    requires k < |b|
    ensures Len(b[..k + 1]) == Len(b[..k]) + b[k].len
  {
    assert b[..k + 1][0] == b[0];
    if k > 0 {
      assert b[..k + 1][1..] == b[1..][..k] && b[..k][1..] == b[1..][..k - 1];
      LenSnoc(b[1..], k - 1);
    }
  }

  lemma NothingWithin(bio: Bio)
    ensures Within(bio, 0, 0)
  {}

  /** One step of the walk over the pieces of the first bio: it stays inside the payload
      unless there was nothing to do. */
  lemma ConsumePart(bios: seq<Bio>, bytes: nat, idx: nat, left: nat)
    requires |bios| > 0 && Sized(bios[0]) && Within(bios[0], bytes, idx) && left < bios[0].size
    requires idx > 0 ==> bytes + left < bios[0].size
    requires CutOk(bios, bytes + left)
    ensures var bio := bios[0];
            && bytes + left < bio.size
            && (idx >= |bio.bvecs| ==> bytes == 0 && left == 0)
            && (idx < |bio.bvecs| && left < bio.bvecs[idx].len ==> Reached(bio, bytes + left, idx, left))
            && (idx < |bio.bvecs| && left >= bio.bvecs[idx].len ==>
                  var b := bytes + bio.bvecs[idx].len;
                  Within(bio, b, idx + 1) && (left == bio.bvecs[idx].len ==> Reached(bio, b, idx + 1, 0)))
  {
    var bio := bios[0];
    assert bio.bvecs[..|bio.bvecs|] == bio.bvecs && bio.bvecs[..0] == [];
    if idx < |bio.bvecs| {
      LenSnoc(bio.bvecs, idx);
    }
  }

  /** How far the loop has come: the bios that ended, and a walk over the pieces of the next
      one, from which the rest of the bytes lead where they lead from the start. */
  ghost predicate Walking(all: seq<Bio>, n: nat, bios: seq<Bio>, ended: seq<Bio>, total: nat, left: nat,
                          bytes: nat, idx: nat)
  {
    && ended + bios == all && SizedChain(bios) && total + left == n && CutOk(bios, bytes + left)
    && (|bios| == 0 ==> Advance(all, n) == Progress(ended, []))
    && (|bios| > 0 ==>
          && Within(bios[0], bytes, idx) && (idx > 0 ==> bytes + left < bios[0].size)
          && Advance(all, n).ended == ended + Advance(bios, bytes + left).ended
          && Advance(all, n).rest == Advance(bios, bytes + left).rest)
  }

  /** Where the loop stops: `bytes` bytes into the first bio that is left, if any. */
  ghost predicate Arrived(all: seq<Bio>, n: nat, bios: seq<Bio>, ended: seq<Bio>, total: nat, left: nat,
                          bytes: nat, idx: nat)
  {
    && ended + bios == all && SizedChain(bios) && ended == Advance(all, n).ended
    && (|bios| == 0 ==> Advance(all, n).rest == [])
    && (|bios| > 0 ==>
          && (bytes > 0 ==> Reached(bios[0], bytes, idx, left)) && total == n && bytes < bios[0].size
          && Advance(all, n).rest == [Trimmed(bios[0], bytes)] + bios[1..])
  }

  lemma WalkStarts(bios: seq<Bio>, n: nat)
    requires SizedChain(bios) && CutOk(bios, n)
    ensures Walking(bios, n, bios, [], 0, n, 0, 0)
  {
    hide SizedChain, CutOk, Advance;
    assert [] + bios == bios && [] + Advance(bios, n).ended == Advance(bios, n).ended;
    AdvanceNothing(n);
  }

  lemma WalkEnds(all: seq<Bio>, n: nat, ended: seq<Bio>, total: nat, left: nat, bytes: nat, idx: nat)
    requires Walking(all, n, [], ended, total, left, bytes, idx)
    ensures Arrived(all, n, [], ended, total, left, bytes, idx)
  {}

  lemma WalkWhole(all: seq<Bio>, n: nat, bios: seq<Bio>, ended: seq<Bio>, total: nat, left: nat, bytes: nat, idx: nat)
    requires Walking(all, n, bios, ended, total, left, bytes, idx) && |bios| > 0 && left >= bios[0].size
    ensures var e, s := ended + [bios[0]], bios[0].size;
            && Walking(all, n, bios[1..], e, total + s, left - s, 0, 0)
            && (|bios| > 1 && left == s ==> Arrived(all, n, bios[1..], e, total + s, 0, 0, 0))
  {
    hide Advance, Trimmed, Sized, Len, CutOk, Within;
    var bio, tail := bios[0], bios[1..];
    var t := Advance(tail, left - bio.size);
    StillFirst(bio, bytes, idx);
    AdvanceTail(bios, left);
    CutTail(bios, left);
    AdvanceNothing(left - bio.size);
    assert bios == [bio] + tail && ended + [] == ended;
    Assoc(ended, [bio], tail);
    Assoc(ended, [bio], t.ended);
    if |tail| > 0 {
      NothingWithin(tail[0]);
      TrimmedByNothing(tail[0]);
      AdvanceNone(tail);
      assert tail == [tail[0]] + tail[1..] && (ended + [bio]) + [] == ended + [bio];
    }
  }

  lemma CutTail(bios: seq<Bio>, n: nat)
    requires |bios| > 0 && n >= bios[0].size && CutOk(bios, n)
    ensures CutOk(bios[1..], n - bios[0].size)
  {}

  lemma StillFirst(bio: Bio, bytes: nat, idx: nat)
    requires Within(bio, bytes, idx)
    ensures idx == 0 ==> bytes == 0
  {}

  lemma WalkPiece(all: seq<Bio>, n: nat, bios: seq<Bio>, ended: seq<Bio>, total: nat, left: nat, bytes: nat, idx: nat)
    requires Walking(all, n, bios, ended, total, left, bytes, idx) && |bios| > 0 && left < bios[0].size
    ensures idx >= |bios[0].bvecs| ==> Arrived(all, n, bios, ended, total, left, bytes, idx)
    ensures idx < |bios[0].bvecs| ==>
              var s := bios[0].bvecs[idx].len;
              && (left < s ==> Arrived(all, n, bios, ended, total + left, left, bytes + left, idx))
              && (left >= s ==> Walking(all, n, bios, ended, total + s, left - s, bytes + s, idx + 1))
              && (left == s ==> Arrived(all, n, bios, ended, total + s, 0, bytes + s, idx + 1))
  {
    hide Advance, Trimmed, Sized, Len, CutOk, Reached, Within;
    ConsumePart(bios, bytes, idx, left);
    AdvanceInside(bios, bytes + left);
    assert ended + [] == ended;
  }

  lemma AdvanceInside(bios: seq<Bio>, m: nat)
    requires |bios| > 0 && m < bios[0].size
    ensures Advance(bios, m) == Progress([], [Trimmed(bios[0], m)] + bios[1..])
  {}

  lemma AdvanceNothing(n: nat)
    ensures Advance([], n) == Progress([], [])
  {}

  lemma {:induction false} DropAt(b: seq<Bvec>, idx: nat, left: nat)
    requires idx < |b| && left < b[idx].len && forall i :: 0 <= i < |b| ==> b[i].len > 0
    ensures DropBytes(b, Len(b[..idx]) + left)
            == [b[idx].(addr := b[idx].addr + left, len := b[idx].len - left)] + b[idx + 1..]
  {
    if idx > 0 {
      assert b[..idx][1..] == b[1..][..idx - 1];
      DropAt(b[1..], idx - 1, left);
    }
  }

  lemma TrimmedBio(bio: Bio, bytes: nat, idx: nat, left: nat)
    requires Sized(bio) && bytes > 0 && Reached(bio, bytes, idx, left)
    ensures var rest := bio.bvecs[idx..];
            Trimmed(bio, bytes) == bio.(
              bvecs := rest[0 := rest[0].(addr := rest[0].addr + left, len := rest[0].len - left)],
              size := bio.size - bytes, sector := bio.sector + bytes / SECTOR)
  {
    DropAt(bio.bvecs, idx, left);
  }

  lemma RecountedData(q: Limits, bio: Bio)
    ensures HasData(Recounted(q, bio)) == HasData(bio)
  {
    RecountedOk(q, bio);
  }

  lemma NoIds()
    ensures IdSeq([]) == []
  {}

  /** The state of the mapping loop after the pieces `p`. */
  ghost predicate Mapped(q: Limits, p: seq<Bvec>, prev: Bvec, nsegs: nat, sglist: array<SgEntry>)
    reads sglist
  {
    && nsegs <= sglist.Length
    && sglist[..nsegs] == Entries(p, MapCuts(q, p))
    && (|p| > 0 ==> prev == p[|p| - 1])
  }

  lemma MapNothing(q: Limits, sglist: array<SgEntry>)
    ensures Mapped(q, [], Bvec(0, 0, false), 0, sglist) && Bvecs([]) == []
  {
    EmptyFacts(q);
  }

  lemma MapEnds(q: Limits, p: seq<Bvec>, prev: Bvec, nsegs: nat, sglist: array<SgEntry>)
    requires Mapped(q, p, prev, nsegs, sglist)
    ensures nsegs <= sglist.Length && sglist[..nsegs] == Entries(p, MapCuts(q, p))
  {}

  /** One turn of the mapping loop: the piece extends the last entry or opens the next. */
  method MapPiece(q: Limits, bv: Bvec, prev: Bvec, n: nat, sglist: array<SgEntry>, ghost p: seq<Bvec>)
    returns (nsegs: nat)
    requires Mapped(q, p, prev, n, sglist) && Count(MapCuts(q, p + [bv])) <= sglist.Length
    modifies sglist
    ensures Mapped(q, p + [bv], bv, nsegs, sglist)
  {
    hide MapCuts, Entries, Count;
    MapStep(q, p, bv);
    nsegs := n;
    if nsegs > 0 && q.cluster
       && sglist[nsegs - 1].length + bv.len <= q.maxSegmentSize
       && PhysMergeable(prev, bv) && SegBoundary(q, prev, bv) {
      sglist[nsegs - 1] := sglist[nsegs - 1].(length := sglist[nsegs - 1].length + bv.len);
    } else {
      sglist[nsegs] := SgEntry(bv.addr, bv.len);
      nsegs := nsegs + 1;
    }
  }

  lemma EmptyFacts(q: Limits)
    ensures MapCuts(q, []) == [] == CountCuts(q, []) && Entries([], []) == []
    ensures Count([]) == 0 && FirstSize([], []) == 0 && LastSize([], []) == 0
  {}

  lemma MapStep(q: Limits, p: seq<Bvec>, bv: Bvec)
    ensures var c := MapCuts(q, p);
            var sg := Entries(p, c);
            var sg' := Entries(p + [bv], MapCuts(q, p + [bv]));
            && (|sg| > 0 <==> |p| > 0)
            && |sg'| == Count(MapCuts(q, p + [bv]))
            && (if |p| > 0 && Extends(q, sg[|sg| - 1].length, p[|p| - 1], bv)
                then sg' == sg[|sg| - 1 := sg[|sg| - 1].(length := sg[|sg| - 1].length + bv.len)]
                else sg' == sg + [SgEntry(bv.addr, bv.len)])
  {
    hide MapCuts, Entries, Count, LastSize, Valid, Extends, SgBytes, BvecBytes;
    var c := MapCuts(q, p);
    MapSnoc(q, p, bv);
    MapCutsValid(q, p);
    EntriesCover(q, p, c);
    MapCutsValid(q, p + [bv]);
    EntriesCover(q, p + [bv], MapCuts(q, p + [bv]));
    EntriesSnoc(p, c, bv, MapCuts(q, p + [bv])[|p|]);
    if |p| > 0 {
      CountPositive(q, p, c);
    } else {
      EmptyFacts(q);
    }
  }

  lemma {:induction false} MapCountGrows(q: Limits, b: seq<Bvec>, k: nat)
    requires k <= |b|
    ensures Count(MapCuts(q, b[..k])) <= Count(MapCuts(q, b))
  {
    hide MapCuts, Count, Extends, Valid, FirstSize, LastSize;
    if k == |b| {
      assert b[..k] == b;
    } else {
      var n := |b| - 1;
      var f, x := b[..n], b[n];
      assert b == f + [x] && f[..k] == b[..k];
      MapCountGrows(q, f, k);
      MapSnoc(q, f, x);
      Snoc(q, f, MapCuts(q, f), x, MapCuts(q, b)[n]);
    }
  }

  lemma {:induction false} BvecsPrefix(bios: seq<Bio>, i: nat, j: nat)
    requires i < |bios| && j < |bios[i].bvecs|
    ensures var p := Bvecs(bios[..i]) + bios[i].bvecs[..j] + [bios[i].bvecs[j]];
            |p| <= |Bvecs(bios)| && p == Bvecs(bios)[..|p|]
  {
    var n := |bios| - 1;
    if i < n {
      BvecsPrefix(bios[..n], i, j);
      assert bios[..n][..i] == bios[..i];
    } else {
      assert bios[..i] == bios[..n];
    }
  }

  /** The table has an entry for every segment opened so far and by the next piece. */
  lemma RoomForNext(q: Limits, bios: seq<Bio>, nr: int, i: nat, j: nat)
    requires SegOk(q, bios, nr) && i < |bios| && j < |bios[i].bvecs|
    ensures Count(MapCuts(q, Bvecs(bios[..i]) + bios[i].bvecs[..j] + [bios[i].bvecs[j]])) <= nr
  {
    hide SegOk, MapCuts, Count, Bvecs, Entries, SgBytes, BvecBytes;
    BoundsList(q, bios, nr);
    BvecsPrefix(bios, i, j);
    MapCountGrows(q, Bvecs(bios), |Bvecs(bios[..i]) + bios[i].bvecs[..j] + [bios[i].bvecs[j]]|);
  }

  lemma CountStep(q: Limits, p: seq<Bvec>, bv: Bvec)
    ensures var c, c' := CountCuts(q, p), CountCuts(q, p + [bv]);
            var open := !(|p| > 0 && !bv.high && !p[|p| - 1].high && Extends(q, LastSize(p, c), p[|p| - 1], bv));
            && Count(c') == Count(c) + (if open then 1 else 0)
            && LastSize(p + [bv], c') == (if open then 0 else LastSize(p, c)) + bv.len
            && (Count(c) >= 1 && open ==> FirstSize(p + [bv], c') == FirstSize(p, c))
            && (Count(c) >= 2 ==> FirstSize(p + [bv], c') == FirstSize(p, c))
            && (|p| > 0 ==> Count(c) >= 1)
            && (Count(c) == 1 ==> FirstSize(p, c) == LastSize(p, c))
            && (Count(c') == 1 ==> FirstSize(p + [bv], c') == LastSize(p + [bv], c'))
  {
    assert (p + [bv])[..|p|] == p;
    assert CountCuts(q, p + [bv])[..|p|] == CountCuts(q, p);
    CountCutsValid(q, p);
    CountCutsValid(q, p + [bv]);
    if |p| > 0 {
      CountPositive(q, p, CountCuts(q, p));
      SingleSegment(q, p, CountCuts(q, p));
    }
    SingleSegment(q, p + [bv], CountCuts(q, p + [bv]));
  }

  /** The state of the counting loop after the pieces `p`. */
  ghost predicate Counting(q: Limits, p: seq<Bvec>, prev: Bvec, highPrev: bool, nr: nat, segSize: nat, was: nat,
                           front: nat)
  {
    var c := CountCuts(q, p);
    && nr == Count(c) && segSize == LastSize(p, c)
    && (if |p| > 0 then prev == p[|p| - 1] && highPrev == prev.high else highPrev)
    && front == (if nr >= 2 then Max(was, FirstSize(p, c)) else was)
  }

  /** `__blk_recalc_rq_segments` over a chain of bios. */
  method CountSegments(q: Limits, bios: seq<Bio>) returns (nr: nat, r: seq<Bio>)
    ensures nr == RecalcCount(q, bios) && r == RecalcChain(q, bios)
  {
    hide CountCuts, Count, FirstSize, LastSize, Counting;
    nr, r := 0, bios;
    if |bios| == 0 {
      EmptyFacts(q);
      return;
    }
    CountNothing(q, bios[0].segFront);
    ghost var p: seq<Bvec> := [];
    var segSize: nat, front: nat := 0, bios[0].segFront;
    var highPrev, prev := true, Bvec(0, 0, false);
    for i := 0 to |bios|
      invariant p == Bvecs(bios[..i])
      invariant Counting(q, p, prev, highPrev, nr, segSize, bios[0].segFront, front)
    {
      for j := 0 to |bios[i].bvecs|
        invariant p == Bvecs(bios[..i]) + bios[i].bvecs[..j]
        invariant Counting(q, p, prev, highPrev, nr, segSize, bios[0].segFront, front)
      {
        var bv := bios[i].bvecs[j];
        nr, segSize, front, highPrev := CountPiece(q, bv, prev, highPrev, nr, segSize, front, bios[0].segFront, p);
        prev := bv;
        p := p + [bv];
        assert Bvecs(bios[..i]) + bios[i].bvecs[..j + 1] == Bvecs(bios[..i]) + bios[i].bvecs[..j] + [bv];
      }
      assert bios[i].bvecs[..|bios[i].bvecs|] == bios[i].bvecs;
      assert bios[..i + 1][..i] == bios[..i];
    }
    assert bios[..|bios|] == bios;
    CountEnds(q, p, prev, highPrev, nr, segSize, bios[0].segFront, front);
    if nr == 1 && segSize > front {
      front := segSize;
    }
    r := NoteSizes(q, bios, front, segSize);
  }

  /** The sizes of the first and the last segment go to the ends of the chain. */
  method NoteSizes(q: Limits, bios: seq<Bio>, front: nat, segSize: nat) returns (r: seq<Bio>)
    requires |bios| > 0
    requires var b := Bvecs(bios); var c := CountCuts(q, b);
             front == Max(bios[0].segFront, FirstSize(b, c)) && segSize == LastSize(b, c)
    ensures r == RecalcChain(q, bios)
  {
    hide CountCuts, FirstSize, LastSize, Bvecs;
    r := bios[0 := bios[0].(segFront := front)];
    if segSize > r[|r| - 1].segBack {
      r := r[|r| - 1 := r[|r| - 1].(segBack := segSize)];
    }
    assert r == RecalcChain(q, bios);
  }

  lemma CountNothing(q: Limits, was: nat)
    ensures Counting(q, [], Bvec(0, 0, false), true, 0, 0, was, was) && Bvecs([]) == []
  {
    EmptyFacts(q);
  }

  lemma CountEnds(q: Limits, p: seq<Bvec>, prev: Bvec, highPrev: bool, nr: nat, segSize: nat, was: nat, front: nat)
    requires Counting(q, p, prev, highPrev, nr, segSize, was, front)
    ensures nr == Count(CountCuts(q, p)) && segSize == LastSize(p, CountCuts(q, p))
    ensures (if nr == 1 && segSize > front then segSize else front) == Max(was, FirstSize(p, CountCuts(q, p)))
  {
    hide CountCuts, Count, FirstSize, LastSize;
    CountCutsValid(q, p);
    if |p| > 0 {
      SingleSegment(q, p, CountCuts(q, p));
      CountPositive(q, p, CountCuts(q, p));
    } else {
      EmptyFacts(q);
    }
  }

  /** One turn of the counting loop. */
  method CountPiece(q: Limits, bv: Bvec, prev: Bvec, highPrev: bool, nr: nat, segSize: nat, front: nat,
                    ghost was: nat, ghost p: seq<Bvec>)
    returns (nr': nat, segSize': nat, front': nat, highPrev': bool)
    requires Counting(q, p, prev, highPrev, nr, segSize, was, front)
    ensures Counting(q, p + [bv], bv, highPrev', nr', segSize', was, front')
  {
    hide CountCuts, Count, FirstSize, LastSize;
    CountStep(q, p, bv);
    nr', segSize', front', highPrev' := nr, segSize, front, highPrev;
    if !bv.high && !highPrev && q.cluster && segSize + bv.len <= q.maxSegmentSize
       && PhysMergeable(prev, bv) && SegBoundary(q, prev, bv) {
      segSize' := segSize + bv.len;
    } else {
      if nr == 1 && segSize > front {
        front' := segSize;
      }
      nr', segSize', highPrev' := nr + 1, bv.len, bv.high;
    }
  }

  /** `blk_recount_segments`, behind the test for a stale count. */
  method RecountSegments(q: Limits, bio: Bio) returns (r: Bio)
    ensures r == Recounted(q, bio)
  {
    if bio.segValid {
      return bio;
    }
    var nr, chain := CountSegments(q, [bio]);
    r := chain[0].(physSegments := nr, segValid := true);
  }
}
