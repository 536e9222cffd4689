/** Lists of requests as the elevators keep them: a sector-sorted tree, abstracted to its in-order
    sequence, and a FIFO.  Requests are named by ids; their changing attributes are in a map. */
module RequestLists {
  import opened Common

  /** Sector, length and FIFO time of a request. */
  datatype Info = Info(dir: Dir, pos: nat, len: nat, expiry: int)

  type Infos = map<nat, Info>

  // ----- lists of ids -----

  function Without(s: seq<nat>, id: nat): (r: seq<nat>)
    ensures forall x :: x in r <==> x in s && x != id
  {
    if |s| == 0 then [] else if s[0] == id then Without(s[1..], id) else [s[0]] + Without(s[1..], id)
  }

  /** The element behind `id`, `deadline_latter_request`. */
  function Latter(s: seq<nat>, id: nat): (r: Option<nat>)
    ensures r.Some? ==> r.value in s
  {
    if |s| == 0 then None
    else if s[0] == id then (if |s| > 1 then Some(s[1]) else None)
    else Latter(s[1..], id)
  }

  predicate Known(info: Infos, s: seq<nat>) { forall x :: x in s ==> x in info }

  /** `elv_rb_add` when it meets a request at the same sector. */
  function AtPos(info: Infos, s: seq<nat>, pos: nat): (r: Option<nat>)
    requires Known(info, s)
    ensures r.Some? ==> r.value in s && info[r.value].pos == pos
    ensures r.None? ==> forall x :: x in s ==> info[x].pos != pos
  {
    if |s| == 0 then None
    else if info[s[0]].pos == pos then Some(s[0])
    else AtPos(info, s[1..], pos)
  }

  /** `elv_rb_add` without an alias: in front of the first request with a higher sector. */
  function InsertSorted(info: Infos, s: seq<nat>, id: nat, pos: nat): (r: seq<nat>)
    requires Known(info, s)
    ensures |r| == |s| + 1
    ensures forall x :: x in r <==> x in s || x == id
  {
    if |s| == 0 then [id]
    else if pos < info[s[0]].pos then [id] + s
    else [s[0]] + InsertSorted(info, s[1..], id, pos)
  }

  /** `list_add` of `id` right behind `anchor`. */
  function InsertBehind(s: seq<nat>, id: nat, anchor: nat): (r: seq<nat>)
    ensures forall x :: x in r <==> x in s || (x == id && anchor in s)
  {
    if |s| == 0 then []
    else if s[0] == anchor then [anchor, id] + s[1..]
    else [s[0]] + InsertBehind(s[1..], id, anchor)
  }

  // ----- ordered lists -----

  predicate Ascending(info: Infos, s: seq<nat>)
    requires Known(info, s)
  {
    |s| == 0 || ((forall x :: x in s[1..] ==> info[s[0]].pos < info[x].pos) && Ascending(info, s[1..]))
  }

  predicate ByExpiry(info: Infos, s: seq<nat>)
    requires Known(info, s)
  {
    |s| == 0 || ((forall x :: x in s[1..] ==> info[s[0]].expiry <= info[x].expiry) && ByExpiry(info, s[1..]))
  }

  /** `info` and `other` agree on the sectors of `s`. */
  predicate SamePos(info: Infos, other: Infos, s: seq<nat>)
    requires Known(info, s) && Known(other, s)
  {
    forall x :: x in s ==> info[x].pos == other[x].pos
  }

  predicate SameExpiry(info: Infos, other: Infos, s: seq<nat>)
    requires Known(info, s) && Known(other, s)
  {
    forall x :: x in s ==> info[x].expiry == other[x].expiry
  }

  lemma {:induction false} AscendingSame(info: Infos, other: Infos, s: seq<nat>)
    requires Known(info, s) && Known(other, s) && SamePos(info, other, s) && Ascending(info, s)
    ensures Ascending(other, s)
  {
    if |s| > 0 { AscendingSame(info, other, s[1..]); }
  }

  lemma {:induction false} ByExpirySame(info: Infos, other: Infos, s: seq<nat>)
    requires Known(info, s) && Known(other, s) && SameExpiry(info, other, s) && ByExpiry(info, s)
    ensures ByExpiry(other, s)
  {
    if |s| > 0 { ByExpirySame(info, other, s[1..]); }
  }

  lemma {:induction false} AscendingDistinct(info: Infos, s: seq<nat>)
    requires Known(info, s) && Ascending(info, s)
    ensures Distinct(s)
  {
    if |s| > 0 { AscendingDistinct(info, s[1..]); }
  }

  lemma {:induction false} WithoutAscending(info: Infos, s: seq<nat>, id: nat)
    requires Known(info, s) && Ascending(info, s)
    ensures Ascending(info, Without(s, id))
  {
    if |s| > 0 {
      WithoutAscending(info, s[1..], id);
      if s[0] != id {
        assert Without(s, id)[1..] == Without(s[1..], id);
      }
    }
  }

  lemma {:induction false} WithoutByExpiry(info: Infos, s: seq<nat>, id: nat)
    requires Known(info, s) && ByExpiry(info, s)
    ensures ByExpiry(info, Without(s, id))
  {
    if |s| > 0 {
      WithoutByExpiry(info, s[1..], id);
      if s[0] != id {
        assert Without(s, id)[1..] == Without(s[1..], id);
      }
    }
  }

  lemma {:induction false} WithoutAbsent(s: seq<nat>, id: nat)
    requires id !in s
    ensures Without(s, id) == s
  {
    if |s| > 0 { WithoutAbsent(s[1..], id); }
  }

  lemma {:induction false} WithoutDistinct(s: seq<nat>, id: nat)
    requires Distinct(s)
    ensures Distinct(Without(s, id))
    ensures id in s ==> |Without(s, id)| == |s| - 1
  {
    if |s| > 0 {
      WithoutDistinct(s[1..], id);
      if s[0] == id {
        WithoutAbsent(s[1..], id);
      } else {
        assert Without(s, id)[1..] == Without(s[1..], id);
      }
    }
  }

  lemma {:induction false} WithoutMultiset(s: seq<nat>, id: nat)
    requires Distinct(s) && id in s
    ensures multiset(s) == multiset(Without(s, id)) + multiset{id}
  {
    assert s == [s[0]] + s[1..];
    if s[0] == id {
      WithoutAbsent(s[1..], id);
    } else {
      WithoutMultiset(s[1..], id);
    }
  }

  lemma {:induction false} InsertAscending(info: Infos, s: seq<nat>, id: nat)
    requires Known(info, s) && Ascending(info, s) && id in info
    requires forall x :: x in s ==> info[x].pos != info[id].pos
    ensures Ascending(info, InsertSorted(info, s, id, info[id].pos))
  {
    var r := InsertSorted(info, s, id, info[id].pos);
    if |s| > 0 {
      if info[id].pos < info[s[0]].pos {
        assert r[1..] == s;
      } else {
        InsertAscending(info, s[1..], id);
        assert r[1..] == InsertSorted(info, s[1..], id, info[id].pos);
      }
    }
  }

  lemma {:induction false} AppendDistinct(s: seq<nat>, id: nat)
    requires Distinct(s) && id !in s
    ensures Distinct(s + [id])
  {
    if |s| > 0 {
      AppendDistinct(s[1..], id);
      assert (s + [id])[1..] == s[1..] + [id];
    }
  }

  lemma {:induction false} AppendByExpiry(info: Infos, s: seq<nat>, id: nat)
    requires Known(info, s) && ByExpiry(info, s) && id in info
    requires forall x :: x in s ==> info[x].expiry <= info[id].expiry
    ensures ByExpiry(info, s + [id])
  {
    if |s| > 0 {
      AppendByExpiry(info, s[1..], id);
      assert (s + [id])[1..] == s[1..] + [id];
    }
  }

  lemma {:induction false} BehindDistinct(s: seq<nat>, id: nat, anchor: nat)
    requires Distinct(s) && id !in s
    ensures Distinct(InsertBehind(s, id, anchor))
  {
    if |s| > 0 {
      var r := InsertBehind(s, id, anchor);
      if s[0] == anchor {
        assert r[1..] == [id] + s[1..] && r[1..][1..] == s[1..];
      } else {
        BehindDistinct(s[1..], id, anchor);
        assert r[1..] == InsertBehind(s[1..], id, anchor);
      }
    }
  }

  /** A request with the anchor's deadline fits right behind it. */
  lemma {:induction false} BehindByExpiry(info: Infos, s: seq<nat>, id: nat, anchor: nat)
    requires Known(info, s) && ByExpiry(info, s) && id in info
    requires anchor in s ==> info[anchor].expiry == info[id].expiry
    ensures ByExpiry(info, InsertBehind(s, id, anchor))
  {
    if |s| > 0 {
      var r := InsertBehind(s, id, anchor);
      if s[0] == anchor {
        assert r[1..] == [id] + s[1..] && r[1..][1..] == s[1..];
      } else {
        BehindByExpiry(info, s[1..], id, anchor);
        assert r[1..] == InsertBehind(s[1..], id, anchor);
      }
    }
  }

  /** The batch goes on with the lowest sector above the one just left. */
  lemma {:induction false} LatterIsSuccessor(info: Infos, s: seq<nat>, id: nat)
    requires Known(info, s) && Ascending(info, s) && id in s
    ensures Latter(s, id).None? ==> forall x :: x in s ==> info[x].pos <= info[id].pos
    ensures Latter(s, id).Some? ==> Latter(s, id).value != id && info[id].pos < info[Latter(s, id).value].pos
    ensures Latter(s, id).Some? ==>
              forall x :: x in s && info[x].pos > info[id].pos ==> info[Latter(s, id).value].pos <= info[x].pos
  {
    if s[0] == id {
      if |s| > 1 { assert s[1] == s[1..][0]; assert s[1] in s[1..]; }
    } else {
      LatterIsSuccessor(info, s[1..], id);
    }
  }

  lemma AscendingInjective(info: Infos, s: seq<nat>, x: nat, y: nat)
    requires Known(info, s) && Ascending(info, s) && x in s && y in s && info[x].pos == info[y].pos
    ensures x == y
  {
    if s[0] != x && s[0] != y { AscendingInjective(info, s[1..], x, y); }
  }

  lemma EmptyTogether(s: seq<nat>, r: seq<nat>)
    requires forall x :: x in s <==> x in r
    ensures |s| == 0 <==> |r| == 0
  {
    if |s| > 0 { assert s[0] in r; }
    if |r| > 0 { assert r[0] in s; }
  }

  /** The FIFO when `id` takes over the deadline and the place of `other`. */
  lemma InheritFifo(info: Infos, fifo: seq<nat>, id: nat, other: nat)
    requires Known(info, fifo) && ByExpiry(info, fifo) && Distinct(fifo) && id in fifo && other in fifo && id != other
    ensures var info' := info[id := info[id].(expiry := info[other].expiry)];
            var fifo' := InsertBehind(Without(fifo, id), id, other);
            && Known(info', fifo') && ByExpiry(info', fifo') && Distinct(fifo')
            && forall x :: x in fifo' <==> x in fifo
  {
    hide ByExpiry, Distinct, Without, InsertBehind;
    var info' := info[id := info[id].(expiry := info[other].expiry)];
    var rest := Without(fifo, id);
    WithoutByExpiry(info, fifo, id);
    WithoutDistinct(fifo, id);
    ByExpirySame(info, info', rest);
    BehindByExpiry(info', rest, id, other);
    BehindDistinct(rest, id, other);
  }

  // ----- descending the tree -----

  /** Everything before `i` is below `pos`, everything from `j` on above it. */
  predicate Brackets(info: Infos, s: seq<nat>, pos: nat, i: nat, j: nat)
    requires Known(info, s)
  {
    && i <= j <= |s|
    && (forall k :: 0 <= k < i ==> info[s[k]].pos < pos)
    && (forall k :: j <= k < |s| ==> pos < info[s[k]].pos)
  }

  lemma {:induction false} AscendingAt(info: Infos, s: seq<nat>, i: nat, j: nat)
    requires Known(info, s) && Ascending(info, s) && i < j < |s|
    ensures info[s[i]].pos < info[s[j]].pos
  {
    assert s[j] == s[1..][j - 1];
    if i > 0 { AscendingAt(info, s[1..], i - 1, j - 1); }
  }

  lemma {:induction false} InsertSortedAt(info: Infos, s: seq<nat>, id: nat, pos: nat, i: nat)
    requires Known(info, s) && Brackets(info, s, pos, i, i)
    ensures InsertSorted(info, s, id, pos) == s[..i] + [id] + s[i..]
  {
    var r := InsertSorted(info, s, id, pos);
    if i == 0 {
      assert |s| == 0 || pos < info[s[0]].pos;
      assert r == [id] + s;
    } else {
      BracketsTail(info, s, pos, i);
      var rest := InsertSorted(info, s[1..], id, pos);
      assert r == [s[0]] + rest;
      hide Brackets, InsertSorted;
      InsertSortedAt(info, s[1..], id, pos, i - 1);
      TailAround(s, id, i);
    }
  }

  lemma BracketsTail(info: Infos, s: seq<nat>, pos: nat, i: nat)
    requires Known(info, s) && Brackets(info, s, pos, i, i) && i > 0
    ensures info[s[0]].pos < pos && Brackets(info, s[1..], pos, i - 1, i - 1)
  {}

  lemma TailAround(s: seq<nat>, id: nat, i: nat)
    requires 0 < i <= |s|
    ensures [s[0]] + (s[1..][..i - 1] + [id] + s[1..][i - 1..]) == s[..i] + [id] + s[i..]
  {}

  /** The descent of `elv_rb_add`: it ends at the alias or at the only place that keeps the order. */
  method Descend(info: Infos, s: seq<nat>, id: nat, pos: nat) returns (alias: Option<nat>, at: nat)
    requires Known(info, s) && Ascending(info, s)
    ensures alias == AtPos(info, s, pos)
    ensures alias.None? ==> at <= |s| && InsertSorted(info, s, id, pos) == s[..at] + [id] + s[at..]
  {
    hide InsertSorted, AtPos, Ascending;
    var lo: nat, hi: nat := 0, |s|;
    while lo < hi
      invariant Brackets(info, s, pos, lo, hi)
    {
      var mid := (lo + hi) / 2;
      if info[s[mid]].pos == pos {
        OnlyAt(info, s, mid);
        return Some(s[mid]), mid;
      }
      Around(info, s, mid);
      if pos < info[s[mid]].pos { hi := mid; } else { lo := mid + 1; }
    }
    InsertSortedAt(info, s, id, pos, lo);
    alias, at := None, lo;
  }

  lemma OnlyAt(info: Infos, s: seq<nat>, mid: nat)
    requires Known(info, s) && Ascending(info, s) && mid < |s|
    ensures forall x :: x in s && info[x].pos == info[s[mid]].pos ==> x == s[mid]
  {
    forall x | x in s && info[x].pos == info[s[mid]].pos ensures x == s[mid] {
      AscendingInjective(info, s, x, s[mid]);
    }
  }

  lemma Around(info: Infos, s: seq<nat>, mid: nat)
    requires Known(info, s) && Ascending(info, s) && mid < |s|
    ensures forall k :: 0 <= k < mid ==> info[s[k]].pos < info[s[mid]].pos
    ensures forall k :: mid < k < |s| ==> info[s[mid]].pos < info[s[k]].pos
  {
    hide Ascending;
    forall k: nat | k < mid ensures info[s[k]].pos < info[s[mid]].pos { AscendingAt(info, s, k, mid); }
    forall k | mid < k < |s| ensures info[s[mid]].pos < info[s[k]].pos { AscendingAt(info, s, mid, k); }
  }
}
