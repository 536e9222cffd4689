/** Physical segments of a request.

    A bio carries a sequence of memory pieces (bvecs).  Adjacent pieces may share one
    hardware segment when they touch in memory, stay inside one boundary window and
    together do not exceed the queue's segment size.  A way of grouping a sequence of
    pieces is written as a sequence of booleans, `true` at each piece that opens a segment.
 */
module Segments {

  type Pos = n: nat | 0 < n witness 1

  /** A piece of memory; `high` says its page lies above the queue's bounce limit. */
  datatype Bvec = Bvec(addr: nat, len: nat, high: bool)

  /** The queue limits that the segment code reads.  `window` is the boundary mask plus one. */
  datatype Limits = Limits(
    cluster: bool,
    maxSegmentSize: nat,
    window: Pos,
    maxHwSegments: nat,
    maxPhysSegments: nat,
    maxSectors: nat)

  datatype SgEntry = SgEntry(addr: nat, length: nat)

  // ----- the pairwise tests -----

  predicate PhysMergeable(a: Bvec, b: Bvec) {
    a.addr + a.len == b.addr
  }

  predicate SegBoundary(q: Limits, a: Bvec, b: Bvec) {
    a.addr / q.window == (b.addr + b.len - 1) / q.window
  }

  predicate Joinable(q: Limits, a: Bvec, b: Bvec) {
    q.cluster && PhysMergeable(a, b) && SegBoundary(q, a, b)
  }

  // ----- groupings -----

  /** Number of segments of a grouping. */
  function Count(c: seq<bool>): nat {
    if |c| == 0 then 0 else Count(c[..|c| - 1]) + if c[|c| - 1] then 1 else 0
  }

  /** Bytes in the last segment. */
  function LastSize(b: seq<Bvec>, c: seq<bool>): nat
    requires |b| == |c|
  {
    if |b| == 0 then 0 else
    var n := |b| - 1;
    if c[n] then b[n].len else LastSize(b[..n], c[..n]) + b[n].len
  }

  /** Bytes in the first segment. */
  function FirstSize(b: seq<Bvec>, c: seq<bool>): nat
    requires |b| == |c|
  {
    if |b| == 0 then 0 else
    var n := |b| - 1;
    FirstSize(b[..n], c[..n]) + if n == 0 || Count(c) == 1 then b[n].len else 0
  }

  /** Every segment of the grouping is one the hardware accepts. */
  ghost predicate Valid(q: Limits, b: seq<Bvec>, c: seq<bool>) {
    && |b| == |c|
    && (|b| > 0 ==>
          var n := |b| - 1;
          && Valid(q, b[..n], c[..n])
          && (!c[n] ==> n > 0 && Joinable(q, b[n - 1], b[n]) && LastSize(b, c) <= q.maxSegmentSize))
  }

  /** Whether the mapping loop puts piece `next` into the segment that ends in `prev`. */
  predicate Extends(q: Limits, size: nat, prev: Bvec, next: Bvec) {
    Joinable(q, prev, next) && size + next.len <= q.maxSegmentSize
  }

  /** The grouping chosen by the mapping loop. */
  function MapCuts(q: Limits, b: seq<Bvec>): (c: seq<bool>)
    ensures |c| == |b|
  {
    if |b| == 0 then [] else
    var n := |b| - 1;
    var p := MapCuts(q, b[..n]);
    p + [!(n > 0 && Extends(q, LastSize(b[..n], p), b[n - 1], b[n]))]
  }

  /** The grouping chosen by the counting loop, which never joins a high page. */
  function CountCuts(q: Limits, b: seq<Bvec>): (c: seq<bool>)
    ensures |c| == |b|
  {
    if |b| == 0 then [] else
    var n := |b| - 1;
    var p := CountCuts(q, b[..n]);
    p + [!(n > 0 && !b[n].high && !b[n - 1].high && Extends(q, LastSize(b[..n], p), b[n - 1], b[n]))]
  }

  lemma {:induction false} CountCutsValid(q: Limits, b: seq<Bvec>)
    ensures Valid(q, b, CountCuts(q, b))
  {
    if |b| > 0 {
      var n := |b| - 1;
      CountCutsValid(q, b[..n]);
      assert CountCuts(q, b)[..n] == CountCuts(q, b[..n]);
    }
  }

  /** A queue that does not cluster gets a segment for every piece, and the counting loop one for every
      piece in or behind a high page. */
  lemma {:induction false} OneEach(q: Limits, b: seq<Bvec>, i: nat)
    requires i < |b|
    ensures !q.cluster ==> MapCuts(q, b)[i]
    ensures !q.cluster || b[i].high || (i > 0 && b[i - 1].high) ==> CountCuts(q, b)[i]
  {
    if i < |b| - 1 {
      OneEach(q, b[..|b| - 1], i);
    }
  }

  /** Without high pages the counting loop finds the segments that the mapping loop makes. */
  lemma {:induction false} CountAgrees(q: Limits, b: seq<Bvec>)
    requires forall i :: 0 <= i < |b| ==> !b[i].high
    ensures CountCuts(q, b) == MapCuts(q, b)
  {
    if |b| > 0 {
      CountAgrees(q, b[..|b| - 1]);
    }
  }

  lemma {:induction false} MapCutsValid(q: Limits, b: seq<Bvec>)
    ensures Valid(q, b, MapCuts(q, b))
  {
    if |b| > 0 {
      var n := |b| - 1;
      MapCutsValid(q, b[..n]);
      assert MapCuts(q, b)[..n] == MapCuts(q, b[..n]);
    }
  }

  /** The greedy mapping is never behind another valid grouping: it has used fewer
      segments, or as many with an emptier last one. */
  lemma {:induction false} GreedyStaysAhead(q: Limits, b: seq<Bvec>, c: seq<bool>)
    requires Valid(q, b, c)
    ensures var g := MapCuts(q, b);
            || Count(g) < Count(c)
            || (Count(g) == Count(c) && LastSize(b, g) <= LastSize(b, c))
  {
    if |b| > 0 {
      var n := |b| - 1;
      GreedyStaysAhead(q, b[..n], c[..n]);
      assert MapCuts(q, b)[..n] == MapCuts(q, b[..n]);
    }
  }

  /** One more piece, for the mapping loop. */
  lemma {:induction false} MapSnoc(q: Limits, b: seq<Bvec>, x: Bvec)
    ensures var p := MapCuts(q, b);
            MapCuts(q, b + [x]) == p + [!(|b| > 0 && Extends(q, LastSize(b, p), b[|b| - 1], x))]
  {
    hide Extends, LastSize;
    assert (b + [x])[..|b|] == b;
  }

  // ----- putting two groupings side by side -----

  lemma {:induction false} CountPositive(q: Limits, b: seq<Bvec>, c: seq<bool>)
    requires Valid(q, b, c) && |b| > 0
    ensures Count(c) > 0
  {
    if |b| > 1 {
      CountPositive(q, b[..|b| - 1], c[..|b| - 1]);
    }
  }

  lemma {:induction false} SingleSegment(q: Limits, b: seq<Bvec>, c: seq<bool>)
    requires Valid(q, b, c) && |b| > 0
    ensures Count(c) == 1 ==> FirstSize(b, c) == LastSize(b, c)
  {
    if |b| > 1 {
      var n := |b| - 1;
      SingleSegment(q, b[..n], c[..n]);
      CountPositive(q, b[..n], c[..n]);
    }
  }

  lemma {:induction false} Concat(q: Limits, b1: seq<Bvec>, c1: seq<bool>, b2: seq<Bvec>, c2: seq<bool>)
    requires Valid(q, b1, c1) && Valid(q, b2, c2)
    requires |b1| > 0 && |b2| > 0
    ensures Valid(q, b1 + b2, c1 + c2)
    ensures Count(c1 + c2) == Count(c1) + Count(c2)
    ensures LastSize(b1 + b2, c1 + c2) == LastSize(b2, c2)
    ensures FirstSize(b1 + b2, c1 + c2) == FirstSize(b1, c1)
  {
    var n := |b2| - 1;
    assert (b1 + b2)[..|b1| + n] == b1 + b2[..n];
    assert (c1 + c2)[..|b1| + n] == c1 + c2[..n];
    CountPositive(q, b1, c1);
    CountPositive(q, b2, c2);
    if n == 0 {
      assert b1 + b2[..n] == b1 && c1 + c2[..n] == c1;
    } else {
      Concat(q, b1, c1, b2[..n], c2[..n]);
    }
  }

  /** One more piece. */
  lemma {:induction false} Snoc(q: Limits, b: seq<Bvec>, c: seq<bool>, x: Bvec, k: bool)
    requires |b| == |c|
    ensures Count(c + [k]) == Count(c) + (if k then 1 else 0)
    ensures LastSize(b + [x], c + [k]) == (if k then 0 else LastSize(b, c)) + x.len
    ensures FirstSize(b + [x], c + [k]) == FirstSize(b, c) + if |b| == 0 || Count(c + [k]) == 1 then x.len else 0
    ensures Valid(q, b + [x], c + [k]) <==>
            && Valid(q, b, c)
            && (!k ==> && |b| > 0 && Joinable(q, b[|b| - 1], x) && LastSize(b, c) + x.len <= q.maxSegmentSize)
  {
    hide Joinable;
    assert (b + [x])[..|b|] == b && (c + [k])[..|c|] == c;
  }

  lemma Nothing(q: Limits)
    ensures Valid(q, [], []) && Count([]) == 0 && FirstSize([], []) == 0 && LastSize([], []) == 0
  {}

  lemma Regroup<T>(x: seq<T>, y: seq<T>, z: T)
    ensures x + (y + [z]) == (x + y) + [z]
  {}

  /** The grouping `c` of `b` is that of `b1` followed by that of `b2` but for one cut between them. */
  ghost predicate OneFewer(q: Limits, b1: seq<Bvec>, c1: seq<bool>, b2: seq<Bvec>, c2: seq<bool>,
                           b: seq<Bvec>, c: seq<bool>)
    requires |b1| == |c1| && |b2| == |c2|
  {
    && |b| == |c|
    && Valid(q, b, c)
    && Count(c) == Count(c1) + Count(c2) - 1
    && LastSize(b, c) == LastSize(b2, c2) + (if Count(c2) == 1 then LastSize(b1, c1) else 0)
    && FirstSize(b, c) == FirstSize(b1, c1) + (if Count(c1) == 1 then FirstSize(b2, c2) else 0)
  }

  /** What joining the last segment of one grouping with the first of the next comes to. */
  ghost predicate Joins(q: Limits, b1: seq<Bvec>, c1: seq<bool>, b2: seq<Bvec>, c2: seq<bool>)
    requires |b1| == |c1| && |b2| == |c2| > 0
  {
    OneFewer(q, b1, c1, b2, c2, b1 + b2, c1 + c2[0 := false])
  }

  /** Joining the last segment of one grouping with the first of the next. */
  lemma {:induction false} Join(q: Limits, b1: seq<Bvec>, c1: seq<bool>, b2: seq<Bvec>, c2: seq<bool>)
    requires Valid(q, b1, c1) && Valid(q, b2, c2)
    requires |b1| > 0 && |b2| > 0
    requires Joinable(q, b1[|b1| - 1], b2[0])
    requires LastSize(b1, c1) + FirstSize(b2, c2) <= q.maxSegmentSize
    ensures |b1| == |c1| && |b2| == |c2| && Joins(q, b1, c1, b2, c2)
  {
    SameLengths(q, b1, c1);
    SameLengths(q, b2, c2);
    hide Valid, Count, LastSize, FirstSize, Joinable, Joins;
    var n := |b2| - 1;
    var f, g, x, k := b2[..n], c2[..n], b2[n], c2[n];
    assert b2 == f + [x] && c2 == g + [k];
    Snoc(q, f, g, x, k);
    if n == 0 {
      assert f == [] && g == [];
      JoinOne(q, b1, c1, x);
    } else {
      Join(q, b1, c1, f, g);
      JoinSnoc(q, b1, c1, f, g, x, k);
    }
  }

  lemma SameLengths(q: Limits, b: seq<Bvec>, c: seq<bool>)
    requires Valid(q, b, c)
    ensures |b| == |c|
  {}

  lemma JoinOne(q: Limits, b1: seq<Bvec>, c1: seq<bool>, x: Bvec)
    requires Valid(q, b1, c1) && |b1| == |c1| > 0 && Joinable(q, b1[|b1| - 1], x)
    requires LastSize(b1, c1) + FirstSize([x], [true]) <= q.maxSegmentSize
    ensures Joins(q, b1, c1, [x], [true])
  {
    hide Valid, Count, LastSize, FirstSize, Joinable;
    CountPositive(q, b1, c1);
    Nothing(q);
    Snoc(q, [], [], x, true);
    assert [] + [x] == [x] && [] + [true] == [true] && [true][0 := false] == [false];
    Snoc(q, b1, c1, x, false);
  }

  lemma JoinSnoc(q: Limits, b1: seq<Bvec>, c1: seq<bool>, f: seq<Bvec>, g: seq<bool>, x: Bvec, k: bool)
    requires Valid(q, b1, c1) && Valid(q, f, g) && |b1| == |c1| > 0 && |f| == |g| > 0
    requires Joins(q, b1, c1, f, g) && Valid(q, f + [x], g + [k])
    requires LastSize(b1, c1) + FirstSize(f + [x], g + [k]) <= q.maxSegmentSize
    ensures Joins(q, b1, c1, f + [x], g + [k])
  {
    hide Valid, Count, LastSize, FirstSize, OneFewer;
    var d := g[0 := false];
    OneFewerSnoc(q, b1, c1, f, g, b1 + f, c1 + d, x, k);
    Regroup(b1, f, x);
    Regroup(c1, d, k);
    assert (g + [k])[0 := false] == d + [k];
  }

  lemma OneFewerSnoc(q: Limits, b1: seq<Bvec>, c1: seq<bool>, f: seq<Bvec>, g: seq<bool>,
                     b: seq<Bvec>, c: seq<bool>, x: Bvec, k: bool)
    requires Valid(q, b1, c1) && Valid(q, f, g) && |b1| == |c1| > 0 && |f| == |g| > 0
    requires OneFewer(q, b1, c1, f, g, b, c) && |b| > 0 && b[|b| - 1] == f[|f| - 1]
    requires Valid(q, f + [x], g + [k])
    requires LastSize(b1, c1) + FirstSize(f + [x], g + [k]) <= q.maxSegmentSize
    ensures OneFewer(q, b1, c1, f + [x], g + [k], b + [x], c + [k])
  {
    hide Valid, Count, LastSize, FirstSize, Joinable;
    CountPositive(q, b1, c1);
    CountPositive(q, f, g);
    SingleSegment(q, f, g);
    Snoc(q, f, g, x, k);
    Snoc(q, b, c, x, k);
  }

  // ----- the scatter-gather list -----

  /** The entries that a grouping denotes. */
  function Entries(b: seq<Bvec>, c: seq<bool>): (sg: seq<SgEntry>)
    requires |b| == |c|
  {
    if |b| == 0 then [] else
    var n := |b| - 1;
    var p := Entries(b[..n], c[..n]);
    if c[n] || |p| == 0 then p + [SgEntry(b[n].addr, b[n].len)]
    else p[|p| - 1 := p[|p| - 1].(length := p[|p| - 1].length + b[n].len)]
  }

  /** Addresses of `len` bytes from `addr` on. */
  function Run(addr: nat, len: nat): (r: seq<nat>)
    ensures |r| == len && forall i :: 0 <= i < len ==> r[i] == addr + i
  {
    seq(len, i requires 0 <= i => addr + i)
  }

  function BvecBytes(b: seq<Bvec>): seq<nat> {
    if |b| == 0 then [] else BvecBytes(b[..|b| - 1]) + Run(b[|b| - 1].addr, b[|b| - 1].len)
  }

  function SgBytes(sg: seq<SgEntry>): seq<nat> {
    if |sg| == 0 then [] else SgBytes(sg[..|sg| - 1]) + Run(sg[|sg| - 1].addr, sg[|sg| - 1].length)
  }

  /** The entries are as many as the segments, the last one ends where the last piece ends, and
      together they name exactly the bytes of the pieces, in order. */
  ghost predicate Covers(b: seq<Bvec>, c: seq<bool>)
    requires |b| == |c|
  {
    var sg := Entries(b, c);
    && |sg| == Count(c)
    && (|b| > 0 ==> |sg| > 0 && sg[|sg| - 1].length == LastSize(b, c)
                    && sg[|sg| - 1].addr + sg[|sg| - 1].length == b[|b| - 1].addr + b[|b| - 1].len)
    && SgBytes(sg) == BvecBytes(b)
  }

  lemma {:induction false} EntriesCover(q: Limits, b: seq<Bvec>, c: seq<bool>)
    requires Valid(q, b, c)
    ensures |b| == |c| && Covers(b, c)
  {
    SameLengths(q, b, c);
    hide Valid, Covers;
    if |b| == 0 {
      assert b == [] && c == [];
      NothingCovers();
    } else {
      var n := |b| - 1;
      var f, g, x, k := b[..n], c[..n], b[n], c[n];
      assert b == f + [x] && c == g + [k];
      Snoc(q, f, g, x, k);
      EntriesCover(q, f, g);
      CoverSnoc(q, f, g, x, k);
    }
  }

  lemma NothingCovers()
    ensures Covers([], [])
  {}

  lemma {:induction false} EntriesSnoc(b: seq<Bvec>, c: seq<bool>, x: Bvec, k: bool)
    requires |b| == |c|
    ensures var p := Entries(b, c);
            Entries(b + [x], c + [k]) ==
            if k || |p| == 0 then p + [SgEntry(x.addr, x.len)]
            else p[|p| - 1 := p[|p| - 1].(length := p[|p| - 1].length + x.len)]
  {
    var n, p := |b|, Entries(b, c);
    assert (b + [x])[..n] == b && (b + [x])[n] == x && (c + [k])[..n] == c && (c + [k])[n] == k;
  }

  lemma {:induction false} BytesSnoc(b: seq<Bvec>, x: Bvec)
    ensures BvecBytes(b + [x]) == BvecBytes(b) + Run(x.addr, x.len)
  {
    hide Run;
    assert (b + [x])[..|b|] == b;
  }

  lemma {:induction false} SgSnoc(sg: seq<SgEntry>, e: SgEntry)
    ensures SgBytes(sg + [e]) == SgBytes(sg) + Run(e.addr, e.length)
  {
    hide Run;
    assert (sg + [e])[..|sg|] == sg;
  }

  /** Growing the last entry by bytes that follow it in memory. */
  lemma SgGrow(sg: seq<SgEntry>, len: nat)
    requires |sg| > 0
    ensures var n := |sg| - 1;
            SgBytes(sg[n := sg[n].(length := sg[n].length + len)]) ==
            SgBytes(sg) + Run(sg[n].addr + sg[n].length, len)
  {
    var n := |sg| - 1;
    var f, e := sg[..n], sg[n];
    var grown := e.(length := e.length + len);
    assert sg == f + [e] && sg[n := grown] == f + [grown];
    hide SgBytes;
    SgSnoc(f, e);
    SgSnoc(f, grown);
    assert Run(e.addr, e.length + len) == Run(e.addr, e.length) + Run(e.addr + e.length, len);
    hide Run;
    Associate(SgBytes(f), Run(e.addr, e.length), Run(e.addr + e.length, len));
  }

  lemma Associate<T>(x: seq<T>, y: seq<T>, z: seq<T>)
    ensures (x + y) + z == x + (y + z)
  {}

  lemma CoverSnoc(q: Limits, b: seq<Bvec>, c: seq<bool>, x: Bvec, k: bool)
    requires |b| == |c| && Covers(b, c) && Valid(q, b + [x], c + [k])
    ensures Covers(b + [x], c + [k])
  {
    hide Valid, Count, LastSize, FirstSize, Entries, SgBytes, BvecBytes, Run;
    var p := Entries(b, c);
    Snoc(q, b, c, x, k);
    EntriesSnoc(b, c, x, k);
    BytesSnoc(b, x);
    if k {
      SgSnoc(p, SgEntry(x.addr, x.len));
    } else {
      SgGrow(p, x.len);
    }
  }

  /** One window holds the whole entry. */
  predicate InWindow(q: Limits, e: SgEntry) {
    e.addr / q.window == (e.addr + e.length - 1) / q.window
  }

  predicate Piece(b: seq<Bvec>, e: SgEntry) {
    exists i :: 0 <= i < |b| && e == SgEntry(b[i].addr, b[i].len)
  }

  lemma DivMonotone(a: nat, b: nat, w: Pos)
    requires a <= b
    ensures a / w <= b / w
  {
    var d := a / w - b / w;
    assert d * w == (a / w) * w - (b / w) * w;
    FactorAtLeast(d, w);
  }

  lemma FactorAtLeast(d: int, w: Pos)
    ensures d >= 1 ==> d * w >= w
  {
    if d >= 1 {
      assert (d - 1) * w >= 0;
    }
  }

  /** Growing an entry by a joinable piece keeps it inside its window. */
  lemma WindowGrows(q: Limits, e: SgEntry, prev: Bvec, next: Bvec)
    requires Joinable(q, prev, next) && prev.len > 0 && next.len > 0
    requires prev.len <= e.length && e.addr + e.length == prev.addr + prev.len
    requires e.addr == prev.addr || InWindow(q, e)
    ensures InWindow(q, e.(length := e.length + next.len))
  {
    if e.addr != prev.addr {
      var w, last := q.window, e.addr + e.length - 1;
      DivMonotone(e.addr, prev.addr, w);
      DivMonotone(prev.addr, last, w);
    }
  }

  /** Every entry is a single piece, or obeys the size limit and stays in one window. */
  ghost predicate Fits(q: Limits, b: seq<Bvec>, e: SgEntry) {
    Piece(b, e) || (e.length <= q.maxSegmentSize && InWindow(q, e))
  }

  lemma FitsLonger(q: Limits, b: seq<Bvec>, n: nat, e: SgEntry)
    requires n <= |b| && Fits(q, b[..n], e)
    ensures Fits(q, b, e)
  {
    if Piece(b[..n], e) {
      var i :| 0 <= i < n && e == SgEntry(b[..n][i].addr, b[..n][i].len);
      assert e == SgEntry(b[i].addr, b[i].len);
    }
  }

  /** Every entry fits, and the last one starts with the last piece or is in one window. */
  ghost predicate AllFit(q: Limits, b: seq<Bvec>, c: seq<bool>)
    requires |b| == |c|
  {
    var sg := Entries(b, c);
    && (forall e :: e in sg ==> Fits(q, b, e))
    && (|b| > 0 ==> |sg| > 0 && (sg[|sg| - 1].addr == b[|b| - 1].addr || InWindow(q, sg[|sg| - 1])))
  }

  lemma {:induction false} EntriesFit(q: Limits, b: seq<Bvec>, c: seq<bool>)
    requires Valid(q, b, c)
    requires forall i :: 0 <= i < |b| ==> b[i].len > 0
    ensures |b| == |c| && AllFit(q, b, c)
  {
    SameLengths(q, b, c);
    if |b| > 0 {
      hide Valid, AllFit;
      var n := |b| - 1;
      var f, g, x, k := b[..n], c[..n], b[n], c[n];
      assert b == f + [x] && c == g + [k];
      Snoc(q, f, g, x, k);
      EntriesFit(q, f, g);
      FitSnoc(q, f, g, x, k);
    }
  }

  lemma {:induction false} LastAtLeast(q: Limits, b: seq<Bvec>, c: seq<bool>)
    requires |b| == |c| > 0
    ensures LastSize(b, c) >= b[|b| - 1].len
  {}

  lemma FitSnoc(q: Limits, b: seq<Bvec>, c: seq<bool>, x: Bvec, k: bool)
    requires |b| == |c| && AllFit(q, b, c) && Valid(q, b, c) && Valid(q, b + [x], c + [k])
    requires x.len > 0 && (|b| > 0 ==> b[|b| - 1].len > 0)
    ensures AllFit(q, b + [x], c + [k])
  {
    hide Valid, Count, LastSize, FirstSize, Entries, InWindow, Fits, Joinable, SgBytes, BvecBytes;
    var p, all := Entries(b, c), b + [x];
    Snoc(q, b, c, x, k);
    EntriesSnoc(b, c, x, k);
    EntriesCover(q, b, c);
    assert all[..|b|] == b;
    forall e | e in p ensures Fits(q, all, e) {
      FitsLonger(q, all, |b|, e);
    }
    if k {
      PieceFits(q, all, |b|);
    } else {
      LastAtLeast(q, b, c);
      WindowGrows(q, p[|p| - 1], b[|b| - 1], x);
      WindowFits(q, all, p[|p| - 1].(length := p[|p| - 1].length + x.len));
    }
  }

  lemma PieceFits(q: Limits, b: seq<Bvec>, i: nat)
    requires i < |b|
    ensures Fits(q, b, SgEntry(b[i].addr, b[i].len))
  {}

  lemma WindowFits(q: Limits, b: seq<Bvec>, e: SgEntry)
    requires e.length <= q.maxSegmentSize && InWindow(q, e)
    ensures Fits(q, b, e)
  {}
}
