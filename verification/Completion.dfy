/** Partial completion of requests. */
module Completion {
  import opened Common
  import opened Segments
  import opened Requests
  import opened RequestRuns

  // ----- pieces and bytes -----

  function Len(b: seq<Bvec>): nat {
    if |b| == 0 then 0 else b[0].len + Len(b[1..])
  }

  /** Some bytes to do, in non-empty pieces that hold no more than the size says.  A discard
      may cover more than its payload. */
  predicate Sized(bio: Bio) {
    && bio.size > 0
    && (forall i :: 0 <= i < |bio.bvecs| ==> bio.bvecs[i].len > 0)
    && Len(bio.bvecs) <= bio.size
  }

  predicate SizedChain(bios: seq<Bio>) {
    forall i :: 0 <= i < |bios| ==> Sized(bios[i])
  }

  /** The bio's size is that of its pieces. */
  predicate Exact(bio: Bio) {
    Sized(bio) && bio.size == Len(bio.bvecs)
  }

  predicate ExactChain(bios: seq<Bio>) {
    forall i :: 0 <= i < |bios| ==> Exact(bios[i])
  }

  /** Forgets the first `n` bytes of a sequence of pieces. */
  function DropBytes(b: seq<Bvec>, n: nat): (r: seq<Bvec>)
    decreases |b|
  {
    if |b| == 0 then []
    else if n < b[0].len then [b[0].(addr := b[0].addr + n, len := b[0].len - n)] + b[1..]
    else DropBytes(b[1..], n - b[0].len)
  }

  /** A bio of which `n` bytes, but not all, are done. */
  function Trimmed(bio: Bio, n: nat): Bio
    requires n < bio.size
  {
    if n == 0 then bio
    else bio.(bvecs := DropBytes(bio.bvecs, n), size := bio.size - n, sector := bio.sector + n / SECTOR)
  }

  /** The bios that end, and the chain that is left, when `n` bytes complete. */
  datatype Progress = Progress(ended: seq<Bio>, rest: seq<Bio>)

  function Advance(bios: seq<Bio>, n: nat): Progress
    decreases |bios|
  {
    if |bios| == 0 then Progress([], [])
    else if n < bios[0].size then Progress([], [Trimmed(bios[0], n)] + bios[1..])
    else if n == bios[0].size && |bios| > 1 then Progress([bios[0]], bios[1..])
    else
      var p := Advance(bios[1..], n - bios[0].size);
      Progress([bios[0]] + p.ended, p.rest)
  }

  /** `n` bytes end between two bios or inside the payload of one, so that the walk over the
      pieces of a bio finds a piece for each of them. */
  predicate CutOk(bios: seq<Bio>, n: nat) {
    if |bios| == 0 then true
    else if n < bios[0].size then n == 0 || n < Len(bios[0].bvecs)
    else CutOk(bios[1..], n - bios[0].size)
  }

  datatype Update = Update(more: bool, rq: Rq, ended: seq<Bio>)

  /** `blk_update_request`. */
  function UpdateRequest(q: Limits, rq: Rq, n: nat): Update
  {
    var p := Advance(rq.bios, n);
    if |p.rest| == 0 then Update(false, rq.(bios := [], dataLen := if |rq.bios| == 0 then rq.dataLen else 0), p.ended)
    else Update(true, Remaining(q, rq, p.rest, n), p.ended)
  }

  function Remaining(q: Limits, rq: Rq, rest: seq<Bio>, n: nat): Rq
    requires |rest| > 0
  {
    rq.(bios := RecalcChain(q, rest),
        nrPhysSegments := RecalcCount(q, rest),
        dataLen := if n <= rq.dataLen then rq.dataLen - n else 0,
        sector := rq.sector + n / SECTOR,
        failfast := if rq.mixed then First(rest).failfast else rq.failfast)
  }

  // ----- exactness -----

  lemma Assoc<T>(x: seq<T>, y: seq<T>, z: seq<T>)
    ensures (x + y) + z == x + (y + z)
  {}

  lemma {:induction false} BytesConcat(x: seq<Bvec>, y: seq<Bvec>)
    ensures BvecBytes(x + y) == BvecBytes(x) + BvecBytes(y)
  {
    hide Run;
    if |y| == 0 {
      assert x + y == x;
    } else {
      var last := y[|y| - 1];
      assert (x + y)[..|x + y| - 1] == x + y[..|y| - 1];
      BytesConcat(x, y[..|y| - 1]);
      Assoc(BvecBytes(x), BvecBytes(y[..|y| - 1]), Run(last.addr, last.len));
    }
  }

  lemma BytesOne(b: Bvec)
    ensures BvecBytes([b]) == Run(b.addr, b.len)
  {
    assert [b][..0] == [];
  }

  lemma {:induction false} BytesLen(b: seq<Bvec>)
    ensures |BvecBytes(b)| == Len(b)
  {
    if |b| > 0 {
      assert b == [b[0]] + b[1..];
      BytesConcat([b[0]], b[1..]);
      BytesOne(b[0]);
      BytesLen(b[1..]);
    }
  }

  lemma DropConcat<T>(x: seq<T>, y: seq<T>, n: nat)
    requires n <= |x| + |y|
    ensures (x + y)[n..] == if n < |x| then x[n..] + y else y[n - |x|..]
  {}

  /** Dropping bytes leaves exactly the suffix. */
  lemma {:induction false} DropBytesExact(b: seq<Bvec>, n: nat)
    requires n <= Len(b)
    ensures |BvecBytes(b)| == Len(b) && BvecBytes(DropBytes(b, n)) == BvecBytes(b)[n..]
  {
    hide BvecBytes;
    BytesLen(b);
    if |b| == 0 {
      BytesLen(DropBytes(b, n));
    } else {
      var head, tail := b[0], b[1..];
      assert b == [head] + tail;
      BytesConcat([head], tail);
      BytesOne(head);
      BytesLen(tail);
      DropConcat(Run(head.addr, head.len), BvecBytes(tail), n);
      if n < head.len {
        var c := head.(addr := head.addr + n, len := head.len - n);
        BytesConcat([c], tail);
        BytesOne(c);
        assert Run(c.addr, c.len) == Run(head.addr, head.len)[n..];
      } else {
        DropBytesExact(tail, n - head.len);
      }
    }
  }

  lemma {:induction false} DropBytesLen(b: seq<Bvec>, n: nat)
    requires forall i :: 0 <= i < |b| ==> b[i].len > 0
    ensures var d := DropBytes(b, n);
            && Len(d) == (if n < Len(b) then Len(b) - n else 0)
            && (n < Len(b) ==> |d| > 0)
            && forall i :: 0 <= i < |d| ==> d[i].len > 0
  {
    if |b| > 0 {
      if n < b[0].len {
        assert DropBytes(b, n)[1..] == b[1..];
      } else {
        DropBytesLen(b[1..], n - b[0].len);
      }
    }
  }

  lemma {:induction false} DropBytesTwice(b: seq<Bvec>, m: nat, n: nat)
    ensures DropBytes(DropBytes(b, m), n) == DropBytes(b, m + n)
  {
    if |b| > 0 {
      if m < b[0].len {
        assert DropBytes(b, m)[1..] == b[1..];
      } else {
        DropBytesTwice(b[1..], m - b[0].len, n);
      }
    }
  }

  lemma TrimmedSized(bio: Bio, n: nat)
    requires Sized(bio) && n < bio.size
    ensures Sized(Trimmed(bio, n)) && (Exact(bio) ==> Exact(Trimmed(bio, n)))
    ensures HasData(bio) && (n == 0 || n < Len(bio.bvecs)) ==> HasData(Trimmed(bio, n))
  {
    hide Trimmed, DropBytes;
    TrimmedIs(bio, n);
    DropBytesLen(bio.bvecs, n);
  }

  function Bytes(bios: seq<Bio>): seq<nat> {
    BvecBytes(Bvecs(bios))
  }

  lemma BytesCons(bio: Bio, bios: seq<Bio>)
    ensures Bytes([bio] + bios) == BvecBytes(bio.bvecs) + Bytes(bios)
    ensures TotalSize([bio] + bios) == bio.size + TotalSize(bios)
  {
    BvecsConcat([bio], bios);
    SizeConcat([bio], bios);
    ChainOne(bio);
    BytesConcat(bio.bvecs, Bvecs(bios));
  }

  lemma TrimmedByNothing(bio: Bio)
    requires Sized(bio)
    ensures 0 < bio.size && Trimmed(bio, 0) == bio
  {}

  /** `p` ends the longest prefix of bios that fits into `n` bytes and trims the next bio by
      what is over; it leaves nothing exactly when no bio is left. */
  ghost predicate Splits(bios: seq<Bio>, n: nat, p: Progress) {
    var k := |p.ended|;
    && k <= |bios| && p.ended == bios[..k] && TotalSize(p.ended) <= n
    && (if k == |bios| then p.rest == []
        else n - TotalSize(p.ended) < bios[k].size
             && p.rest == [Trimmed(bios[k], n - TotalSize(p.ended))] + bios[k + 1..])
  }

  lemma SplitsCons(bio: Bio, tail: seq<Bio>, n: nat, t: Progress)
    requires Splits(tail, n, t)
    ensures Splits([bio] + tail, n + bio.size, Progress([bio] + t.ended, t.rest))
  {
    hide TotalSize, Trimmed;
    var bios, k := [bio] + tail, |t.ended|;
    BytesCons(bio, t.ended);
    assert bios[..k + 1] == [bio] + tail[..k];
    if k < |tail| {
      assert bios[k + 1] == tail[k] && bios[k + 2..] == tail[k + 1..];
    }
  }

  lemma {:induction false} AdvanceSplits(bios: seq<Bio>, n: nat)
    requires SizedChain(bios)
    ensures Splits(bios, n, Advance(bios, n))
  {
    hide Trimmed, Sized;
    if |bios| > 0 {
      var bio, tail := bios[0], bios[1..];
      if n < bio.size {
        assert bios[..0] == [];
      } else {
        hide Splits;
        AdvanceSplits(tail, n - bio.size);
        SplitsCons(bio, tail, n - bio.size, Advance(tail, n - bio.size));
        assert bios == [bio] + tail;
        AdvanceTail(bios, n);
      }
    }
  }

  /** Past the first bio nothing depends on how the walk gets there. */
  lemma AdvanceTail(bios: seq<Bio>, n: nat)
    requires SizedChain(bios) && |bios| > 0 && n >= bios[0].size
    ensures var t := Advance(bios[1..], n - bios[0].size);
            Advance(bios, n) == Progress([bios[0]] + t.ended, t.rest)
  {
    hide Trimmed, Sized;
    var tail := bios[1..];
    if n == bios[0].size && |bios| > 1 {
      TrimmedByNothing(tail[0]);
      assert tail == [tail[0]] + tail[1..] && [bios[0]] + [] == [bios[0]];
    }
  }

  /** The sizes left add up, and what is left of a chain of exact bios is the suffix of its
      bytes. */
  lemma AdvanceExact(bios: seq<Bio>, n: nat)
    requires SizedChain(bios)
    ensures var p := Advance(bios, n);
            && SizedChain(p.rest)
            && (|p.rest| > 0 <==> n < TotalSize(bios))
            && (|p.rest| > 0 ==> TotalSize(p.rest) == TotalSize(bios) - n)
            && (ExactChain(bios) ==> ExactChain(p.rest))
            && (ExactChain(bios) && |p.rest| > 0 ==> n < |Bytes(bios)| && Bytes(p.rest) == Bytes(bios)[n..])
  {
    hide Advance, Trimmed, Exact, Sized, TotalSize, Bvecs;
    var p := Advance(bios, n);
    AdvanceSplits(bios, n);
    var k := |p.ended|;
    if |p.rest| == 0 {
      assert bios[..k] == bios;
    } else {
      SuffixSized(p.ended, bios[k], bios[k + 1..], n - TotalSize(p.ended));
      assert bios == p.ended + ([bios[k]] + bios[k + 1..]);
      if ExactChain(bios) {
        SuffixExact(p.ended, bios[k], bios[k + 1..], n - TotalSize(p.ended));
      }
    }
  }

  lemma SuffixSized(x: seq<Bio>, bio: Bio, y: seq<Bio>, m: nat)
    requires Sized(bio) && SizedChain(y) && m < bio.size
    ensures var all, rest := x + ([bio] + y), [Trimmed(bio, m)] + y;
            && SizedChain(rest) && TotalSize(all) == TotalSize(x) + bio.size + TotalSize(y)
            && TotalSize(rest) == TotalSize(all) - TotalSize(x) - m
  {
    hide TotalSize, Bvecs, BvecBytes, Sized;
    BytesCons(bio, y);
    BytesCons(Trimmed(bio, m), y);
    SizeConcat(x, [bio] + y);
    TrimmedSized(bio, m);
  }

  lemma SuffixExact(x: seq<Bio>, bio: Bio, y: seq<Bio>, m: nat)
    requires ExactChain(x) && Exact(bio) && ExactChain(y) && m < bio.size
    ensures var all, rest := x + ([bio] + y), [Trimmed(bio, m)] + y;
            && ExactChain(rest) && |Bytes(all)| > TotalSize(x) + m
            && Bytes(rest) == Bytes(all)[TotalSize(x) + m..]
  {
    hide TotalSize, Bytes, BvecBytes, Sized, Trimmed, DropBytes;
    TrimmedIs(bio, m);
    BytesCons(bio, y);
    BytesCons(Trimmed(bio, m), y);
    ChainConcat(x, [bio] + y);
    ChainBytes(x);
    DropBytesExact(bio.bvecs, m);
    TrimmedSized(bio, m);
    DropInner(Bytes(x), BvecBytes(bio.bvecs), Bytes(y), m);
  }

  lemma ChainConcat(x: seq<Bio>, y: seq<Bio>)
    ensures Bytes(x + y) == Bytes(x) + Bytes(y)
  {
    hide Bvecs, BvecBytes;
    BvecsConcat(x, y);
    BytesConcat(Bvecs(x), Bvecs(y));
  }

  lemma DropInner<T>(x: seq<T>, b: seq<T>, y: seq<T>, m: nat)
    requires m < |b|
    ensures (x + (b + y))[|x| + m..] == b[m..] + y
  {
    DropConcat(x, b + y, |x| + m);
    DropConcat(b, y, m);
  }

  lemma {:induction false} ChainBytes(bios: seq<Bio>)
    requires ExactChain(bios)
    ensures |Bytes(bios)| == TotalSize(bios)
  {
    if |bios| > 0 {
      assert bios == [bios[0]] + bios[1..];
      BytesCons(bios[0], bios[1..]);
      BytesLen(bios[0].bvecs);
      ChainBytes(bios[1..]);
    }
  }

  // ----- completing in chunks -----

  function IdSeq(bios: seq<Bio>): seq<nat> {
    if |bios| == 0 then [] else [bios[0].id] + IdSeq(bios[1..])
  }

  /** Chains that agree on everything but the first bio's sector. */
  ghost predicate SameButSector(x: seq<Bio>, y: seq<Bio>) {
    |x| == |y| && (|x| > 0 ==> x[0] == y[0].(sector := x[0].sector) && x[1..] == y[1..])
  }

  /** Two cuts of one bio lose no sector, or the second cut is past the bio the first one
      falls into. */
  predicate SectorsAgree(bios: seq<Bio>, a: nat, b: nat) {
    if |bios| == 0 then true
    else if a < bios[0].size then a + b >= bios[0].size || a % SECTOR + b % SECTOR < SECTOR
    else SectorsAgree(bios[1..], a - bios[0].size, b)
  }

  lemma TrimmedTwice(bio: Bio, a: nat, b: nat)
    requires Sized(bio) && a + b < bio.size
    ensures var x, y := Trimmed(Trimmed(bio, a), b), Trimmed(bio, a + b);
            x == y.(sector := x.sector) && (x == y <==> a % SECTOR + b % SECTOR < SECTOR)
  {
    hide Sized, Trimmed, DropBytes;
    TrimmedSized(bio, a);
    TrimmedIs(bio, a);
    TrimmedIs(bio, a + b);
    TrimmedIs(Trimmed(bio, a), b);
    DropBytesTwice(bio.bvecs, a, b);
    SectorSum(a, b);
  }

  lemma TrimmedIs(bio: Bio, n: nat)
    requires Sized(bio) && n < bio.size
    ensures Trimmed(bio, n) ==
            bio.(bvecs := DropBytes(bio.bvecs, n), size := bio.size - n, sector := bio.sector + n / SECTOR)
  {
    if n == 0 && |bio.bvecs| > 0 {
      assert bio.bvecs == [bio.bvecs[0]] + bio.bvecs[1..];
    }
  }

  lemma SectorSum(a: nat, b: nat)
    ensures a / SECTOR + b / SECTOR == (a + b) / SECTOR <==> a % SECTOR + b % SECTOR < SECTOR
  {}

  lemma AdvancePast(bios: seq<Bio>, n: nat)
    requires SizedChain(bios) && |bios| > 0 && n >= bios[0].size
    ensures var p, t := Advance(bios, n), Advance(bios[1..], n - bios[0].size);
            p.rest == t.rest && IdSeq(p.ended) == [bios[0].id] + IdSeq(t.ended)
  {
    hide Advance, Sized;
    AdvanceTail(bios, n);
    var t := Advance(bios[1..], n - bios[0].size);
    assert ([bios[0]] + t.ended)[1..] == t.ended;
  }

  /** What completing `a` and then `b` bytes of a chain comes to, against `a + b` at once. */
  ghost predicate Composes(bios: seq<Bio>, a: nat, b: nat) {
    var p := Advance(bios, a);
    var r, t := Advance(p.rest, b), Advance(bios, a + b);
    && IdSeq(p.ended) + IdSeq(r.ended) == IdSeq(t.ended)
    && SameButSector(r.rest, t.rest)
    && (r.rest == t.rest <==> SectorsAgree(bios, a, b))
  }

  /** Completing `a` bytes and then `b` bytes ends the same bios, in the same order, as
      completing them together, and leaves the same chain but for the first bio's sector,
      which is the same exactly if the two cuts of one bio lose no sector. */
  lemma {:induction false} AdvanceComposes(bios: seq<Bio>, a: nat, b: nat)
    requires SizedChain(bios)
    ensures Composes(bios, a, b)
    decreases |bios|, 1
  {
    hide Sized;
    if |bios| > 0 {
      if a < bios[0].size {
        ComposeInFirst(bios, a, b);
      } else {
        ComposePast(bios, a, b);
      }
    }
  }

  lemma {:induction false} ComposePast(bios: seq<Bio>, a: nat, b: nat)
    requires SizedChain(bios) && |bios| > 0 && a >= bios[0].size
    ensures Composes(bios, a, b)
    decreases |bios|, 0
  {
    hide Advance, IdSeq, Sized, SameButSector;
    var tail, c := bios[1..], a - bios[0].size;
    AdvancePast(bios, a);
    AdvancePast(bios, a + b);
    AdvanceComposes(tail, c, b);
    var t := Advance(tail, c);
    Assoc([bios[0].id], IdSeq(t.ended), IdSeq(Advance(t.rest, b).ended));
  }

  lemma ComposeInFirst(bios: seq<Bio>, a: nat, b: nat)
    requires SizedChain(bios) && |bios| > 0 && a < bios[0].size
    ensures Composes(bios, a, b)
  {
    hide Sized, Trimmed;
    var bio, tail := bios[0], bios[1..];
    var cut := [Trimmed(bio, a)] + tail;
    assert cut[1..] == tail;
    TrimmedFields(bio, a);
    TrimmedSized(bio, a);
    if a + b < bio.size {
      TrimmedTwice(bio, a, b);
    } else {
      AdvancePast(bios, a + b);
      AdvancePast(cut, b);
    }
  }

  lemma TrimmedFields(bio: Bio, n: nat)
    requires n < bio.size
    ensures var t := Trimmed(bio, n);
            && t.size == bio.size - n && t.sector == bio.sector + n / SECTOR && t.id == bio.id
            && t.dir == bio.dir && t.disk == bio.disk && t.integrity == bio.integrity && t.failfast == bio.failfast
            && t.asked == bio.asked && t.ahead == bio.ahead
  {}

  /** Two cuts of 256 bytes in one bio lose the sector that one cut of 512 bytes counts. */
  lemma SectorLost(bio: Bio)
    requires Sized(bio) && bio.size == 1024
    ensures var r, t := Advance(Advance([bio], 256).rest, 256).rest, Advance([bio], 512).rest;
            r != t && r[0].sector == bio.sector && t[0].sector == bio.sector + 1
  {
    hide Sized, Trimmed;
    var cut := Trimmed(bio, 256);
    assert [bio][1..] == [] && [cut][1..] == [];
    TrimmedFields(bio, 256);
    TrimmedFields(bio, 512);
    assert Advance([bio], 256).rest == [cut];
    assert Advance([bio], 512).rest == [Trimmed(bio, 512)];
    assert Advance([cut], 256).rest == [Trimmed(cut, 256)];
    TrimmedFields(cut, 256);
  }

  /** If sizes are whole sectors, a first completion of whole sectors never loses one. */
  lemma {:induction false} WholeSectorsAgree(bios: seq<Bio>, a: nat, b: nat)
    requires a % SECTOR == 0 && forall i :: 0 <= i < |bios| ==> bios[i].size % SECTOR == 0
    ensures SectorsAgree(bios, a, b)
  {
    if |bios| > 0 && a >= bios[0].size {
      WholeSectorsAgree(bios[1..], a - bios[0].size, b);
    }
  }

  // ----- the request -----

  lemma RestContiguous(bios: seq<Bio>, k: nat, m: nat)
    requires Contiguous(bios) && k < |bios| && m < bios[k].size && m % SECTOR == 0
    ensures Contiguous([Trimmed(bios[k], m)] + bios[k + 1..])
    ensures Trimmed(bios[k], m).sector == First(bios).sector + (TotalSize(bios[..k]) + m) / SECTOR
  {
    hide Trimmed, TotalSize;
    TrimmedFields(bios[k], m);
    WholeDifference(bios[k].size, m);
    var rest := [Trimmed(bios[k], m)] + bios[k + 1..];
    forall i {:trigger rest[i]} | 0 < i < |rest|
      ensures rest[i].sector == rest[i - 1].sector + BioSectors(rest[i - 1])
    {
      assert rest[i] == bios[k + i] && bios[k + i].sector == bios[k + i - 1].sector + BioSectors(bios[k + i - 1]);
    }
    forall i | 0 <= i < |rest| ensures rest[i].size % SECTOR == 0 {
      assert i > 0 ==> rest[i] == bios[k + i];
    }
    StartSector(bios, k);
    hide Contiguous;
    SectorSum(TotalSize(bios[..k]), m);
  }

  lemma StartSector(bios: seq<Bio>, k: nat)
    requires Contiguous(bios) && k < |bios|
    ensures bios[k].sector == First(bios).sector + TotalSize(bios[..k]) / SECTOR
    ensures TotalSize(bios[..k]) % SECTOR == 0
  {
    hide TotalSize;
    if k == 0 {
      EmptySize(bios);
    } else {
      assert Contiguous(bios[..k]);
      ChainEnd(bios[..k]);
      assert bios[k].sector == bios[k - 1].sector + BioSectors(bios[k - 1]);
    }
  }

  lemma WholeDifference(a: nat, b: nat)
    requires a % SECTOR == 0 && b % SECTOR == 0 && b < a
    ensures (a - b) % SECTOR == 0 && (a - b) / SECTOR == a / SECTOR - b / SECTOR
  {
    var x, y := a / 512, b / 512;
    assert a == 512 * x && b == 512 * y && a - b == 512 * (x - y);
  }

  lemma {:induction false} ContiguousWhole(bios: seq<Bio>, k: nat)
    requires Contiguous(bios) && k <= |bios|
    ensures TotalSize(bios[..k]) % SECTOR == 0
  {
    if k > 0 {
      ContiguousWhole(bios, k - 1);
      assert bios[..k][..k - 1] == bios[..k - 1] && bios[k - 1].size % SECTOR == 0;
      hide Contiguous;
      WholeSum(TotalSize(bios[..k - 1]), bios[k - 1].size);
    }
  }

  lemma WholeSum(a: nat, b: nat)
    requires a % SECTOR == 0 && b % SECTOR == 0
    ensures (a + b) % SECTOR == 0
  {
    var x, y := a / 512, b / 512;
    assert a == 512 * x && b == 512 * y && a + b == 512 * (x + y);
  }

  ghost predicate SameTarget(rq: Rq, bios: seq<Bio>) {
    forall i :: 0 <= i < |bios| ==> BioFor(rq, bios[i])
  }

  lemma AdvanceContiguous(rq: Rq, bios: seq<Bio>, n: nat)
    requires SizedChain(bios) && Contiguous(bios) && |Advance(bios, n).rest| > 0
    requires SameTarget(rq, bios)
    ensures var rest := Advance(bios, n).rest;
            && |bios| > 0 && (n % SECTOR == 0 <==> Contiguous(rest)) && SameTarget(rq, rest)
            && (n % SECTOR == 0 ==> First(rest).sector == First(bios).sector + n / SECTOR)
  {
    hide Sized, Advance, TotalSize, Contiguous;
    AdvanceSplits(bios, n);
    var p := Advance(bios, n);
    var k, m := |p.ended|, n - TotalSize(p.ended);
    ContiguousWhole(bios, k);
    if n % SECTOR == 0 {
      RestContiguous(bios, k, m);
    } else {
      RestRagged(bios, k, m);
    }
    TrimmedFields(bios[k], m);
  }

  lemma RestRagged(bios: seq<Bio>, k: nat, m: nat)
    requires Contiguous(bios) && k < |bios| && m < bios[k].size && m % SECTOR != 0
    ensures !Contiguous([Trimmed(bios[k], m)] + bios[k + 1..])
  {
    TrimmedFields(bios[k], m);
    var rest := [Trimmed(bios[k], m)] + bios[k + 1..];
    assert rest[0].size % SECTOR != 0;
  }

  /** Where the cut falls. */
  lemma {:induction false} CutAt(bios: seq<Bio>, n: nat)
    requires SizedChain(bios) && CutOk(bios, n)
    ensures var p := Advance(bios, n);
            var k := |p.ended|;
            k < |bios| && TotalSize(p.ended) < n ==> n - TotalSize(p.ended) < Len(bios[k].bvecs)
  {
    hide Trimmed, Sized, TotalSize, Len;
    if |bios| > 0 {
      var bio, tail := bios[0], bios[1..];
      EmptySize(bios);
      if n < bio.size {
        assert bios[..0] == [];
      } else {
        var t := Advance(tail, n - bio.size);
        BytesCons(bio, t.ended);
        ChainOne(bio);
        CutAt(tail, n - bio.size);
      }
    }
  }

  lemma AdvanceData(bios: seq<Bio>, n: nat)
    requires SizedChain(bios) && CutOk(bios, n) && AllData(bios)
    ensures AllData(Advance(bios, n).rest)
  {
    hide Advance, Trimmed, Sized, TotalSize, Len, HasData;
    var p := Advance(bios, n);
    AdvanceSplits(bios, n);
    CutAt(bios, n);
    var k := |p.ended|;
    if k < |bios| {
      TrimmedSized(bios[k], n - TotalSize(p.ended));
    }
  }

  /** What a driver needs of a request it is working on: the segment count bounds the list,
      the length is that of the bios, and the request can be failed from its front. */
  ghost predicate Servable(q: Limits, rq: Rq) {
    && SegOk(q, rq.bios, rq.nrPhysSegments) && FailOk(rq) && DataOk(rq)
    && rq.dataLen == TotalSize(rq.bios) && SizedChain(rq.bios)
  }

  /** A request stays servable through any completion, and as long as bytes are left. */
  lemma UpdateServable(q: Limits, rq: Rq, n: nat)
    requires Servable(q, rq) && CutOk(rq.bios, n)
    ensures var u := UpdateRequest(q, rq, n);
            && u.more == (n < rq.dataLen)
            && (u.more ==> && Servable(q, u.rq) && u.rq.dataLen == rq.dataLen - n
                           && (ExactChain(rq.bios) ==> ExactChain(u.rq.bios)))
  {
    hide SegOk, Sized, Exact, Advance, TotalSize, Remaining, FailOk, DataOk, Bytes, CutOk, UpdateRequest;
    UpdateIs(q, rq, n);
    AdvanceExact(rq.bios, n);
    var p := Advance(rq.bios, n);
    if |p.rest| > 0 {
      RestData(rq, n);
      RestFail(rq, n);
      RestOk(q, rq, p.rest, n);
      RecalcSame(q, p.rest);
      SameChainTotals(p.rest, RecalcChain(q, p.rest));
    }
  }

  /** A completed part leaves one extent of whole sectors exactly if it was whole sectors. */
  lemma UpdateGood(q: Limits, rq: Rq, n: nat)
    requires Good(q, rq) && SizedChain(rq.bios) && CutOk(rq.bios, n) && n < rq.dataLen
    ensures var u := UpdateRequest(q, rq, n);
            u.more && (Good(q, u.rq) <==> n % SECTOR == 0)
  {
    hide SegOk, Sized, Exact, Advance, TotalSize, Contiguous, Remaining, FailOk, DataOk, Bytes, CutOk, UpdateRequest;
    UpdateServable(q, rq, n);
    UpdateIs(q, rq, n);
    AdvanceExact(rq.bios, n);
    var p := Advance(rq.bios, n);
    AdvanceContiguous(rq, rq.bios, n);
    RestExtent(q, rq, p.rest, n);
  }

  lemma RestData(rq: Rq, n: nat)
    requires DataOk(rq) && SizedChain(rq.bios) && CutOk(rq.bios, n)
    ensures DataOk(rq.(bios := Advance(rq.bios, n).rest))
  {
    hide Advance, Sized, CutOk;
    if AllData(rq.bios) {
      AdvanceData(rq.bios, n);
    }
  }

  lemma RestExtent(q: Limits, rq: Rq, rest: seq<Bio>, n: nat)
    requires |rest| > 0 && SameTarget(rq, rest)
    requires Contiguous(rest) ==> First(rest).sector == rq.sector + n / SECTOR
    requires n <= rq.dataLen && TotalSize(rest) == rq.dataLen - n
    ensures Extent(Remaining(q, rq, rest, n)) <==> Contiguous(rest)
  {
    hide TotalSize, Contiguous, RecalcChain, RecalcCount;
    var chain := RecalcChain(q, rest);
    RecalcSame(q, rest);
    SameChainTotals(rest, chain);
    SameContiguousIff(rest, chain);
    assert SameBio(rest[0], chain[0]);
    forall i | 0 <= i < |chain| ensures BioFor(rq, chain[i]) {
      assert SameBio(rest[i], chain[i]);
    }
  }

  lemma SameContiguousIff(x: seq<Bio>, y: seq<Bio>)
    requires SameChain(x, y)
    ensures Contiguous(x) <==> Contiguous(y)
  {
    hide Contiguous;
    assert SameChain(y, x);
    if Contiguous(x) {
      SameChainContiguous(x, y);
    } else if Contiguous(y) {
      SameChainContiguous(y, x);
    }
  }

  /** The bios that are left carry the bits they had. */
  lemma RestFail(rq: Rq, n: nat)
    requires FailOk(rq) && SizedChain(rq.bios)
    ensures forall i :: 0 <= i < |Advance(rq.bios, n).rest| ==>
              BitsOk(rq.mixed, rq.failfast, Advance(rq.bios, n).rest[i])
  {
    hide Advance, Sized, Trimmed, TotalSize;
    AdvanceSplits(rq.bios, n);
    var p := Advance(rq.bios, n);
    var k := |p.ended|;
    if k < |rq.bios| {
      TrimmedFields(rq.bios[k], n - TotalSize(p.ended));
      forall i | 0 <= i < |p.rest| ensures BitsOk(rq.mixed, rq.failfast, p.rest[i]) {
        assert BitsOk(rq.mixed, rq.failfast, rq.bios[k + i]);
      }
    }
  }

  lemma RestOk(q: Limits, rq: Rq, rest: seq<Bio>, n: nat)
    requires SizedChain(rest) && |rest| > 0 && n <= rq.dataLen && DataOk(rq.(bios := rest))
    requires forall i :: 0 <= i < |rest| ==> BitsOk(rq.mixed, rq.failfast, rest[i])
    ensures var r := Remaining(q, rq, rest, n);
            && SegOk(q, r.bios, r.nrPhysSegments) && FailOk(r) && DataOk(r) && r.dataLen == rq.dataLen - n
            && SizedChain(r.bios) && (ExactChain(rest) ==> ExactChain(r.bios))
  {
    hide SegOk, Sized, Exact, HasData, RecalcChain, RecalcCount, FailOk;
    var chain := RecalcChain(q, rest);
    RecalcSame(q, rest);
    RecalcSegOk(q, rest);
    forall i | 0 <= i < |chain|
      ensures Sized(chain[i]) && (Exact(rest[i]) ==> Exact(chain[i])) && (HasData(rest[i]) ==> HasData(chain[i]))
    {
      SameSized(rest[i], chain[i]);
    }
    assert forall i :: 0 <= i < |rest| ==> rest[i] in rest;
    RestFailOk(q, rq, rest, n);
  }

  lemma RestFailOk(q: Limits, rq: Rq, rest: seq<Bio>, n: nat)
    requires |rest| > 0 && forall i :: 0 <= i < |rest| ==> BitsOk(rq.mixed, rq.failfast, rest[i])
    ensures FailOk(Remaining(q, rq, rest, n))
  {
    hide RecalcChain, RecalcCount;
    var r := Remaining(q, rq, rest, n);
    RecalcSame(q, rest);
    forall i | 0 <= i < |r.bios| ensures BitsOk(r.mixed, r.failfast, r.bios[i]) {
      assert SameBio(rest[i], r.bios[i]) && BitsOk(rq.mixed, rq.failfast, rest[i]);
    }
  }

  lemma SameSized(a: Bio, b: Bio)
    requires SameBio(a, b)
    ensures Sized(a) == Sized(b) && Exact(a) == Exact(b) && HasData(a) == HasData(b)
  {}

  lemma RecalcSame(q: Limits, bios: seq<Bio>)
    ensures SameChain(bios, RecalcChain(q, bios)) && SameIo(RecalcChain(q, bios), bios)
    ensures forall i :: 0 <= i < |bios| ==> RecalcChain(q, bios)[i].failfast == bios[i].failfast
  {
    hide CountCuts, FirstSize, LastSize, Bvecs, Noted;
    if |bios| > 0 {
      var c := CountCuts(q, Bvecs(bios));
      NotedSame(bios, FirstSize(Bvecs(bios), c), LastSize(Bvecs(bios), c));
    }
  }

  lemma NotedAt(bios: seq<Bio>, front: nat, back: nat, i: nat)
    requires i < |bios|
    ensures Noted(bios, front, back)[i] == bios[i].(
              segFront := if i == 0 then Max(bios[i].segFront, front) else bios[i].segFront,
              segBack := if i == |bios| - 1 then Max(bios[i].segBack, back) else bios[i].segBack)
  {}

  lemma NotedSame(bios: seq<Bio>, front: nat, back: nat)
    requires |bios| > 0
    ensures var r := Noted(bios, front, back);
            SameChain(bios, r) && SameIo(r, bios) && forall i :: 0 <= i < |bios| ==> r[i].failfast == bios[i].failfast
  {
    hide Noted;
    var r := Noted(bios, front, back);
    forall i | 0 <= i < |bios|
      ensures SameBio(bios[i], r[i]) && SameBio(r[i], bios[i]) && r[i].failfast == bios[i].failfast
    {
      NotedAt(bios, front, back, i);
    }
  }

  lemma NotedMoved(z: seq<Bio>, front: nat, back: nat, s: nat)
    requires |z| > 0
    ensures var y, r := z[0 := z[0].(sector := s)], Noted(z, front, back);
            && Noted(y, front, back) == r[0 := r[0].(sector := s)] && r[0].sector == z[0].sector
  {
    hide Noted, Max;
    var y, r := z[0 := z[0].(sector := s)], Noted(z, front, back);
    forall i: nat | i < |z| ensures Noted(y, front, back)[i] == r[0 := r[0].(sector := s)][i] {
      NotedAt(y, front, back, i);
      NotedAt(z, front, back, i);
    }
    NotedAt(z, front, back, 0);
  }

  // ----- completing a request in chunks -----

  lemma {:induction false} AdvanceSame(x: seq<Bio>, y: seq<Bio>, n: nat)
    requires SameIo(x, y)
    ensures SameIo(Advance(x, n).rest, Advance(y, n).rest)
    ensures IdSeq(Advance(x, n).ended) == IdSeq(Advance(y, n).ended)
  {
    hide DropBytes;
    if |x| > 0 {
      assert SameBio(x[0], y[0]);
      assert SameIo(x[1..], y[1..]);
      if n < x[0].size {
      } else if n == x[0].size && |x| > 1 {
      } else {
        AdvanceSame(x[1..], y[1..], n - x[0].size);
        var s, t := Advance(x[1..], n - x[0].size).ended, Advance(y[1..], n - x[0].size).ended;
        assert ([x[0]] + s)[1..] == s && ([y[0]] + t)[1..] == t;
      }
    }
  }

  /** Chains that agree on everything but the cached segment sizes and the first sector. */
  ghost predicate SameIoButSector(x: seq<Bio>, y: seq<Bio>) {
    |x| == |y| && (|x| > 0 ==> SameIo(x, y[0 := y[0].(sector := x[0].sector)]))
  }

  /** Completing `a` bytes and then `b` bytes of a request equals completing `a + b`: the same
      bios end in the same order, and the same request is left, apart from the cached sizes
      of its outer segments and from the sector at which it and its first bio start.  The
      start of the request is the same exactly if the two counts lose no sector between them,
      that of its first bio exactly if the two cuts of one bio lose none. */
  lemma UpdateComposes(q: Limits, rq: Rq, a: nat, b: nat)
    requires SizedChain(rq.bios) && rq.dataLen == TotalSize(rq.bios)
    ensures var u := UpdateRequest(q, rq, a);
            var v, w := UpdateRequest(q, u.rq, b), UpdateRequest(q, rq, a + b);
            && v.more == w.more == (a + b < rq.dataLen)
            && IdSeq(u.ended) + IdSeq(v.ended) == IdSeq(w.ended)
            && SameIoButSector(v.rq.bios, w.rq.bios)
            && (w.more ==>
                  && v.rq == w.rq.(bios := v.rq.bios, sector := v.rq.sector)
                  && (v.rq.sector == w.rq.sector <==> a % SECTOR + b % SECTOR < SECTOR)
                  && (SameIo(v.rq.bios, w.rq.bios) <==> SectorsAgree(rq.bios, a, b)))
  {
    hide Sized, Advance, IdSeq, RecalcCount, RecalcChain, SameIo, SameIoButSector, SameButSector, Remaining;
    hide Bytes, SectorsAgree, TotalSize, UpdateRequest;
    var p := Advance(rq.bios, a);
    UpdateIs(q, rq, a);
    UpdateIs(q, rq, a + b);
    UpdateIs(q, UpdateRequest(q, rq, a).rq, b);
    AdvanceComposes(rq.bios, a, b);
    AdvanceExact(rq.bios, a);
    AdvanceExact(rq.bios, a + b);
    if |p.rest| == 0 {
      NothingAfter(b);
    } else {
      var chain := RecalcChain(q, p.rest);
      RecalcSame(q, p.rest);
      AdvanceSame(chain, p.rest, b);
      var x, y, z := Advance(chain, b).rest, Advance(p.rest, b).rest, Advance(rq.bios, a + b).rest;
      RecalcSimilar(q, x, y, z);
      if |x| > 0 {
        RemainingComposes(q, rq, p.rest, a, x, z, b);
      }
    }
  }

  lemma NothingAfter(n: nat)
    ensures Advance([], n) == Progress([], []) && IdSeq([]) == [] && SameIoButSector([], [])
  {}

  lemma UpdateIs(q: Limits, rq: Rq, n: nat)
    ensures var u, p := UpdateRequest(q, rq, n), Advance(rq.bios, n);
            && u.more == (|p.rest| > 0) && u.ended == p.ended
            && (!u.more ==> u.rq.bios == [])
            && (u.more ==> u.rq == Remaining(q, rq, p.rest, n) && u.rq.bios == RecalcChain(q, p.rest))
  {
    hide Advance, RecalcChain, RecalcCount;
  }

  lemma RemainingComposes(q: Limits, rq: Rq, rest: seq<Bio>, a: nat, x: seq<Bio>, y: seq<Bio>, b: nat)
    requires |rest| > 0 && |x| == |y| > 0 && a + b <= rq.dataLen
    requires RecalcCount(q, x) == RecalcCount(q, y) && First(x).failfast == First(y).failfast
    ensures var v, w := Remaining(q, Remaining(q, rq, rest, a), x, b), Remaining(q, rq, y, a + b);
            && v == w.(bios := v.bios, sector := v.sector)
            && (v.sector == w.sector <==> a % SECTOR + b % SECTOR < SECTOR)
            && v.bios == RecalcChain(q, x) && w.bios == RecalcChain(q, y)
  {
    hide RecalcCount, RecalcChain;
  }

  lemma AdvanceSameRecalc(q: Limits, x: seq<Bio>, y: seq<Bio>)
    requires SameIo(x, y)
    ensures SameIo(RecalcChain(q, x), RecalcChain(q, y)) && RecalcCount(q, x) == RecalcCount(q, y)
    ensures |x| == |y| && (|x| > 0 ==> First(x).failfast == First(y).failfast)
  {
    hide RecalcChain;
    RecalcSame(q, x);
    RecalcSame(q, y);
    SameChainTotals(x, y);
  }

  /** Recounting `x`, which differs from `y` in cached sizes only, and `z`, which differs from
      `y` in the first sector only. */
  lemma RecalcSimilar(q: Limits, x: seq<Bio>, y: seq<Bio>, z: seq<Bio>)
    requires SameIo(x, y) && SameButSector(y, z)
    ensures var v, w := RecalcChain(q, x), RecalcChain(q, z);
            && |x| == |z| && SameIoButSector(v, w) && (SameIo(v, w) <==> y == z)
            && RecalcCount(q, x) == RecalcCount(q, z)
            && (|x| > 0 ==> First(x).failfast == First(z).failfast)
            && (|x| == 0 ==> v == [] && w == [])
  {
    hide RecalcChain, RecalcCount, SameIo, SameIoButSector;
    AdvanceSameRecalc(q, x, y);
    if |y| > 0 {
      var v, w := RecalcChain(q, y), RecalcChain(q, z);
      MovedRecalc(q, z, y[0].sector);
      assert y == z[0 := z[0].(sector := y[0].sector)];
      SameIoSector(RecalcChain(q, x), v, w);
    } else {
      SameIoNone();
    }
  }

  lemma SameIoNone()
    ensures SameIo([], []) && SameIoButSector([], [])
  {}

  /** Recounting does not look at the first sector. */
  lemma MovedRecalc(q: Limits, z: seq<Bio>, s: nat)
    requires |z| > 0
    ensures var y := z[0 := z[0].(sector := s)];
            && RecalcCount(q, y) == RecalcCount(q, z)
            && RecalcChain(q, y) == RecalcChain(q, z)[0 := RecalcChain(q, z)[0].(sector := s)]
            && RecalcChain(q, z)[0].sector == z[0].sector && RecalcChain(q, y)[0].sector == s
  {
    hide CountCuts, Count, FirstSize, LastSize, Bvecs, Noted;
    var b := Bvecs(z);
    MovedBvecs(z, s);
    NotedMoved(z, FirstSize(b, CountCuts(q, b)), LastSize(b, CountCuts(q, b)), s);
  }

  lemma MovedBvecs(z: seq<Bio>, s: nat)
    requires |z| > 0
    ensures Bvecs(z[0 := z[0].(sector := s)]) == Bvecs(z)
  {
    hide Bvecs;
    var y := z[0 := z[0].(sector := s)];
    assert y == [y[0]] + z[1..] && z == [z[0]] + z[1..];
    BvecsConcat([y[0]], z[1..]);
    BvecsConcat([z[0]], z[1..]);
    ChainOne(y[0]);
    ChainOne(z[0]);
  }

  lemma SameIoSector(x: seq<Bio>, y: seq<Bio>, z: seq<Bio>)
    requires SameIo(x, y) && |y| == |z| > 0 && y == z[0 := z[0].(sector := y[0].sector)]
    ensures SameIoButSector(x, z) && (SameIo(x, z) <==> y[0].sector == z[0].sector)
  {
    assert SameBio(x[0], y[0]);
  }

  lemma ContiguousSizes(q: Limits, rq: Rq)
    requires Good(q, rq)
    ensures forall i :: 0 <= i < |rq.bios| ==> rq.bios[i].size % SECTOR == 0
    ensures rq.dataLen == TotalSize(rq.bios)
  {}

  lemma ConsistentLength(q: Limits, rq: Rq)
    requires Good(q, rq)
    ensures rq.dataLen == TotalSize(rq.bios)
    ensures SizedChain(rq.bios) ==> Servable(q, rq)
  {}

  /** A good request completed by whole sectors first: completing in two steps is the same
      as completing at once, starts included. */
  lemma WholeSectorsCompose(q: Limits, rq: Rq, a: nat, b: nat)
    requires Good(q, rq) && SizedChain(rq.bios) && a % SECTOR == 0
    ensures var u := UpdateRequest(q, rq, a);
            var v, w := UpdateRequest(q, u.rq, b), UpdateRequest(q, rq, a + b);
            && v.more == w.more && IdSeq(u.ended) + IdSeq(v.ended) == IdSeq(w.ended)
            && (w.more ==> v.rq == w.rq.(bios := v.rq.bios) && SameIo(v.rq.bios, w.rq.bios))
  {
    hide Good, Sized, Advance, IdSeq, RecalcCount, RecalcChain, SameIo, SameIoButSector, Remaining;
    hide SectorsAgree, TotalSize, UpdateRequest;
    ContiguousSizes(q, rq);
    UpdateComposes(q, rq, a, b);
    WholeSectorsAgree(rq.bios, a, b);
  }

  // ----- failing up to the next boundary -----

  /** Number of leading bios that carry all the bits in `ff`. */
  function EagerPrefix(bios: seq<Bio>, ff: set<FailBit>): (k: nat)
    ensures k <= |bios|
    ensures forall i :: 0 <= i < k ==> ff <= bios[i].failfast
    ensures k < |bios| ==> !(ff <= bios[k].failfast)
  {
    if |bios| == 0 || !(ff <= bios[0].failfast) then 0 else 1 + EagerPrefix(bios[1..], ff)
  }

  /** `blk_rq_err_bytes`. */
  function ErrBytes(rq: Rq): nat {
    if rq.mixed then TotalSize(rq.bios[..EagerPrefix(rq.bios, rq.failfast)]) else rq.dataLen
  }

  lemma {:induction false} PrefixSizes(bios: seq<Bio>, i: nat, j: nat)
    requires i <= j <= |bios| && SizedChain(bios)
    ensures TotalSize(bios[..i]) <= TotalSize(bios[..j])
    ensures i < j ==> TotalSize(bios[..i]) + bios[i].size <= TotalSize(bios[..j])
  {
    if i < j {
      assert bios[..j][..j - 1] == bios[..j - 1];
      PrefixSizes(bios, i, j - 1);
    }
  }

  /** A first bio that completes whole. */
  lemma AdvanceFull(bio: Bio, tail: seq<Bio>, m: nat)
    ensures var t := Advance(tail, m);
            Advance([bio] + tail, bio.size + m) ==
            if m == 0 && |tail| > 0 then Progress([bio], tail) else Progress([bio] + t.ended, t.rest)
  {
    hide Trimmed;
    assert ([bio] + tail)[1..] == tail;
  }

  lemma AdvanceNone(bios: seq<Bio>)
    requires SizedChain(bios)
    ensures Advance(bios, 0) == Progress([], bios)
  {
    hide Trimmed, Sized;
    if |bios| > 0 {
      TrimmedByNothing(bios[0]);
      assert bios == [bios[0]] + bios[1..];
    }
  }

  lemma PrefixCons<T>(s: seq<T>, k: nat)
    requires 0 < k <= |s|
    ensures s == [s[0]] + s[1..] && s[..k] == [s[0]] + s[1..][..k - 1] && s[k..] == s[1..][k - 1..]
  {}

  /** Completing the bytes of a prefix ends that prefix and trims nothing. */
  lemma {:induction false} AdvancePrefix(bios: seq<Bio>, k: nat)
    requires SizedChain(bios) && k <= |bios|
    ensures Advance(bios, TotalSize(bios[..k])) == Progress(bios[..k], bios[k..])
    decreases |bios|
  {
    hide TotalSize, Sized, Advance, Bytes;
    if k == 0 {
      EmptySize(bios);
      AdvanceNone(bios);
    } else {
      var bio, tail := bios[0], bios[1..];
      PrefixCons(bios, k);
      BytesCons(bio, tail[..k - 1]);
      AdvanceFull(bio, tail, TotalSize(tail[..k - 1]));
      EmptySize(tail);
      LongerPrefix(tail, k - 1, 0);
      AdvancePrefix(tail, k - 1);
    }
  }

  lemma {:induction false} PrefixCutOk(bios: seq<Bio>, k: nat)
    requires SizedChain(bios) && k <= |bios|
    ensures CutOk(bios, TotalSize(bios[..k]))
    decreases |bios|
  {
    hide TotalSize, Sized, Len;
    EmptySize(bios);
    if |bios| > 0 {
      TrimmedByNothing(bios[0]);
    }
    if k > 0 {
      var bio, tail := bios[0], bios[1..];
      PrefixCons(bios, k);
      BytesCons(bio, tail[..k - 1]);
      PrefixCutOk(tail, k - 1);
    }
  }

  lemma LongerPrefix(bios: seq<Bio>, j: nat, k: nat)
    requires SizedChain(bios) && j <= |bios| && k <= |bios|
    ensures k < j ==> TotalSize(bios[..k]) < TotalSize(bios[..j])
  {
    if k < j {
      PrefixSizes(bios, k, j);
    }
  }

  /** As long as bytes remain, whatever completed before, the bytes to fail are some but not
      too many, they are those of whole bios that all asked to fail as readily as the request says or
      read ahead, and the next bio is not as eager. */
  lemma ErrBytesProgress(q: Limits, rq: Rq)
    requires Servable(q, rq) && |rq.bios| > 0
    ensures 0 < ErrBytes(rq) <= rq.dataLen && CutOk(rq.bios, ErrBytes(rq))
    ensures var u := Advance(rq.bios, ErrBytes(rq));
            && 0 < |u.ended| && u.ended + u.rest == rq.bios
            && (!rq.mixed ==> u.rest == [])
            && (rq.mixed ==> forall b :: b in u.ended ==> rq.failfast <= b.failfast)
            && (forall b :: b in u.ended ==> b.ahead || rq.failfast <= b.asked == b.failfast)
            && (|u.rest| > 0 ==> !(rq.failfast <= First(u.rest).failfast))
  {
    hide Advance, TotalSize, SegOk, DataOk, Sized, EagerPrefix, CutOk;
    var bios := rq.bios;
    var k := if rq.mixed then EagerPrefix(bios, rq.failfast) else |bios|;
    assert bios[..|bios|] == bios;
    PrefixSizes(bios, k, |bios|);
    LongerPrefix(bios, k, 0);
    EmptySize(bios);
    PrefixCutOk(bios, k);
    AdvancePrefix(bios, k);
    forall b | b in bios[..k] ensures b.ahead || rq.failfast <= b.asked == b.failfast {
      var i :| 0 <= i < k && b == bios[i];
      assert BitsOk(rq.mixed, rq.failfast, bios[i]);
    }
  }

  /** A good request fails by whole sectors. */
  lemma ErrBytesWhole(q: Limits, rq: Rq)
    requires Good(q, rq)
    ensures ErrBytes(rq) % SECTOR == 0
  {
    hide TotalSize, SegOk, DataOk, EagerPrefix, Contiguous;
    var bios := rq.bios;
    assert bios[..|bios|] == bios;
    ContiguousWhole(bios, if rq.mixed then EagerPrefix(bios, rq.failfast) else |bios|);
  }

  lemma EmptySize(bios: seq<Bio>)
    ensures TotalSize(bios[..0]) == 0
  {}

  lemma IdSeqConcat(x: seq<Bio>, y: seq<Bio>)
    ensures IdSeq(x + y) == IdSeq(x) + IdSeq(y)
  {
    if |x| == 0 {
      assert x + y == y;
    } else {
      assert (x + y)[1..] == x[1..] + y;
    }
  }

  lemma {:induction false} IdSeqSame(x: seq<Bio>, y: seq<Bio>)
    requires SameChain(x, y)
    ensures IdSeq(x) == IdSeq(y)
  {
    if |x| > 0 {
      assert SameBio(x[0], y[0]);
      IdSeqSame(x[1..], y[1..]);
    }
  }

  /** One error completion ends some bios and keeps the order of the rest, and leaves a
      request that can be failed on.  A good request stays good. */
  lemma FailStep(q: Limits, rq: Rq)
    requires Servable(q, rq) && |rq.bios| > 0
    ensures var u := UpdateRequest(q, rq, ErrBytes(rq));
            && |u.ended| > 0 && IdSeq(u.ended) + IdSeq(u.rq.bios) == IdSeq(rq.bios)
            && (forall b :: b in u.ended ==> b.ahead || rq.failfast <= b.asked == b.failfast)
            && (u.more ==> Servable(q, u.rq) && |u.rq.bios| > 0 && u.rq.dataLen < rq.dataLen)
            && (u.more && Good(q, rq) ==> Good(q, u.rq))
            && (!u.more ==> u.rq.bios == [])
  {
    hide Good, Servable, Advance, ErrBytes, RecalcChain, CutOk, UpdateRequest, SizedChain, Remaining;
    var n := ErrBytes(rq);
    ErrBytesProgress(q, rq);
    UpdateIs(q, rq, n);
    UpdateServable(q, rq, n);
    FailedIds(q, rq, n);
    if Good(q, rq) {
      ErrBytesWhole(q, rq);
      if n < rq.dataLen {
        ServableSized(q, rq);
        UpdateGood(q, rq, n);
      }
    }
  }

  lemma ServableSized(q: Limits, rq: Rq)
    requires Servable(q, rq)
    ensures SizedChain(rq.bios) && rq.dataLen == TotalSize(rq.bios)
  {}

  lemma FailedIds(q: Limits, rq: Rq, n: nat)
    requires var p := Advance(rq.bios, n);
             |p.ended| > 0 && p.ended + p.rest == rq.bios
    ensures var u := UpdateRequest(q, rq, n);
            && |u.ended| > 0 && IdSeq(u.ended) + IdSeq(u.rq.bios) == IdSeq(rq.bios)
            && (u.more <==> u.rq.bios != [])
  {
    hide Advance, RecalcChain, UpdateRequest, IdSeq;
    UpdateIs(q, rq, n);
    var p := Advance(rq.bios, n);
    IdSeqConcat(p.ended, p.rest);
    RecalcSame(q, p.rest);
    IdSeqSame(p.rest, RecalcChain(q, p.rest));
  }
}
