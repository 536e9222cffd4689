/** The order behind `cfq_choose_req`, told by flags and sectors alone, and why looking at the two
    neighbours of the request just taken is enough to find the best one of those left. */
module CfqChoice {
  import opened Common
  import opened RequestLists
  import opened Cfq

  // ----- positions -----

  predicate Wrapped(c: C, t: Tunables, p: nat) { p + 2 * t.backMax < c.lastPos }

  /** Ahead of the head the nearest comes first. */
  lemma CloserAhead(c: C, t: Tunables, p: nat, y: nat)
    requires c.lastPos <= p <= y
    ensures Closer(c, t, p, y)
  {}

  /** Behind the head, within reach, the nearest comes before all that is further behind. */
  lemma CloserBehind(c: C, t: Tunables, p: nat, y: nat)
    requires y <= p < c.lastPos && !Wrapped(c, t, p)
    ensures Closer(c, t, p, y)
  {
    Farther(c.lastPos - p, c.lastPos - y, t.backPenalty);
  }

  lemma Farther(near: nat, far: nat, penalty: nat)
    requires near <= far
    ensures near * penalty <= far * penalty && (near == far || near * penalty < far * penalty || penalty == 0)
  {}

  /** Beyond reach the lowest comes first, after all that is not. */
  lemma CloserWrapped(c: C, t: Tunables, p: nat, y: nat)
    requires Wrapped(c, t, y) && (Wrapped(c, t, p) ==> p <= y)
    ensures Closer(c, t, p, y)
  {}

  /** Above the best position `p`, its successor is the best. */
  lemma AboveBest(c: C, t: Tunables, p: nat, n: nat, y: nat)
    requires p < n <= y && !Closer(c, t, n, p) && !Closer(c, t, y, p)
    ensures Closer(c, t, n, y)
  {
    hide Closer;
    if n >= c.lastPos {
      CloserAhead(c, t, n, y);
    } else if Wrapped(c, t, n) {
      if Wrapped(c, t, y) {
        CloserWrapped(c, t, n, y);
      } else {
        CloserWrapped(c, t, y, p);
      }
    } else {
      CloserBehind(c, t, n, p);
    }
  }

  /** Below it, its predecessor `f` or else `n`, its successor or the lowest one, is. */
  lemma BelowBest(c: C, t: Tunables, p: nat, f: nat, y: nat, n: nat)
    requires y <= f < p && !Closer(c, t, f, p) && (n > p || n <= y)
    ensures Closer(c, t, f, y) || Closer(c, t, n, y)
  {
    hide Closer;
    if f >= c.lastPos {
      CloserAhead(c, t, f, p);
    } else if Wrapped(c, t, f) {
      if Wrapped(c, t, p) {
        CloserWrapped(c, t, f, p);
      } else {
        CloserWrapped(c, t, n, y);
      }
    } else {
      CloserBehind(c, t, f, y);
    }
  }

  /** The order of positions.  What is out of reach behind the head comes last, from the lowest sector
      up.  Ahead of the head the lowest comes first, behind it the highest, and the nearest of those
      ahead comes before the nearest of those behind unless it is more than the penalty times as far. */
  predicate Nearer(c: C, t: Tunables, p1: nat, p2: nat) {
    if Wrapped(c, t, p1) then Wrapped(c, t, p2) && p1 <= p2
    else if Wrapped(c, t, p2) then true
    else if c.lastPos <= p1 && c.lastPos <= p2 then p1 <= p2
    else if p1 < c.lastPos && p2 < c.lastPos then p2 <= p1
    else if c.lastPos <= p1 then p1 - c.lastPos <= (c.lastPos - p2) * t.backPenalty
    else (c.lastPos - p1) * t.backPenalty < p2 - c.lastPos
  }

  lemma CloserIsNearer(c: C, t: Tunables, p1: nat, p2: nat)
    ensures Closer(c, t, p1, p2) <==> Nearer(c, t, p1, p2)
  {
    if p1 <= p2 < c.lastPos {
      Farther(c.lastPos - p2, c.lastPos - p1, t.backPenalty);
    } else if p2 <= p1 < c.lastPos {
      Farther(c.lastPos - p1, c.lastPos - p2, t.backPenalty);
    }
  }

  // ----- requests -----

  predicate Candidate(c: C, id: nat) { id in c.info && id in c.attr }

  /** `a` is to be served before `b`, or is `b`: sync before async, then metadata before data, then
      by position. */
  predicate Beats(c: C, t: Tunables, a: nat, b: nat)
    requires Candidate(c, a) && Candidate(c, b)
  {
    var x, y := c.attr[a], c.attr[b];
    || a == b
    || (x.sync && !y.sync)
    || (x.sync == y.sync && x.meta && !y.meta)
    || (x.sync == y.sync && x.meta == y.meta && Nearer(c, t, c.info[a].pos, c.info[b].pos))
  }

  /** `cfq_choose_req` returns the one to be served first. */
  lemma ChooseIsFirst(c: C, t: Tunables, a: nat, b: nat)
    requires Candidate(c, a) && Candidate(c, b)
    ensures Choose(c, t, Some(a), Some(b)) == Some(a) <==> Beats(c, t, a, b)
    ensures Choose(c, t, None, Some(a)) == Choose(c, t, Some(a), None) == Some(a)
  {
    hide Closer, Nearer;
    CloserIsNearer(c, t, c.info[a].pos, c.info[b].pos);
  }

  /** The flags of the request chosen: sync if one of the two is, and metadata if one of those is that
      it had to choose from then. */
  lemma ChooseFlags(c: C, t: Tunables, a: nat, b: nat)
    requires Candidate(c, a) && Candidate(c, b)
    ensures var r := Choose(c, t, Some(a), Some(b)).value;
            && Candidate(c, r) && (c.attr[r].sync <==> c.attr[a].sync || c.attr[b].sync)
            && (c.attr[r].meta <==>
                || (c.attr[a].meta && c.attr[a].sync == c.attr[r].sync)
                || (c.attr[b].meta && c.attr[b].sync == c.attr[r].sync))
  {
    hide Closer, Nearer;
    ChooseIsFirst(c, t, a, b);
  }

  /** Different requests are at different sectors. */
  predicate Apart(c: C, a: nat, b: nat)
    requires Candidate(c, a) && Candidate(c, b)
  {
    a == b || c.info[a].pos != c.info[b].pos
  }

  /** The choice does not depend on the order of its arguments: one of two requests beats the other. */
  lemma ChooseCommutes(c: C, t: Tunables, a: nat, b: nat)
    requires Candidate(c, a) && Candidate(c, b) && Apart(c, a, b)
    ensures Choose(c, t, Some(a), Some(b)) == Choose(c, t, Some(b), Some(a))
    ensures a != b ==> (Beats(c, t, a, b) <==> !Beats(c, t, b, a))
  {
    hide Distance, Nearer;
    ChooseIsFirst(c, t, a, b);
    ChooseIsFirst(c, t, b, a);
  }

  lemma ChooseTransitive(c: C, t: Tunables, a: nat, b: nat, d: nat)
    requires Candidate(c, a) && Candidate(c, b) && Candidate(c, d)
    requires Apart(c, a, b) && Apart(c, b, d) && Apart(c, a, d) && Beats(c, t, a, b) && Beats(c, t, b, d)
    ensures Beats(c, t, a, d)
  {
    hide Distance, Nearer;
    CloserIsNearer(c, t, c.info[a].pos, c.info[b].pos);
    CloserIsNearer(c, t, c.info[b].pos, c.info[d].pos);
    CloserIsNearer(c, t, c.info[a].pos, c.info[d].pos);
  }

  /** Requests the choice tells apart by their sector only. */
  predicate Alike(attr: Attrs, s: seq<nat>)
    requires KnownTo(attr, s)
  {
    forall x, y :: x in s && y in s ==> attr[x].sync == attr[y].sync && attr[x].meta == attr[y].meta
  }

  /** `r` is the best request of `s`, or there is none. */
  predicate IsBest(c: C, t: Tunables, s: seq<nat>, r: Option<nat>)
    requires Known(c.info, s) && KnownTo(c.attr, s)
  {
    match r
    case None => s == []
    case Some(b) => b in s && forall x :: x in s ==> Beats(c, t, b, x)
  }

  /** A tree holds each sector once. */
  predicate Spread(c: C, s: seq<nat>)
    requires Known(c.info, s) && KnownTo(c.attr, s)
  {
    forall x, y :: x in s && y in s ==> Apart(c, x, y)
  }

  lemma {:induction false} AscendingSpread(c: C, s: seq<nat>)
    requires Known(c.info, s) && KnownTo(c.attr, s) && Ascending(c.info, s)
    ensures Spread(c, s)
  {
    forall x, y | x in s && y in s ensures Apart(c, x, y) {
      if c.info[x].pos == c.info[y].pos {
        AscendingInjective(c.info, s, x, y);
      }
    }
  }

  // ----- a new request -----

  /** Choosing between the best request and a new one gives the best of both together, whatever
      their attributes. */
  lemma AddKeepsBest(c: C, t: Tunables, s: seq<nat>, next: Option<nat>, id: nat, s': seq<nat>)
    requires Known(c.info, s') && KnownTo(c.attr, s') && Spread(c, s')
    requires (forall x :: x in s' <==> x in s || x == id) && IsBest(c, t, s, next)
    ensures IsBest(c, t, s', Choose(c, t, next, Some(id)))
  {
    hide Choose;
    if next.Some? {
      var b := next.value;
      ChooseCommutes(c, t, b, id);
      ChooseIsFirst(c, t, b, id);
      forall x | x in s' ensures Beats(c, t, Choose(c, t, next, Some(id)).value, x) {
        if Choose(c, t, next, Some(id)) == Some(id) {
          if x != id {
            ChooseTransitive(c, t, id, b, x);
          } else {
            BeatsSelf(c, t, id);
          }
        }
      }
    } else {
      assert forall x :: x in s' ==> x == id;
      BeatsSelf(c, t, id);
    }
  }

  lemma BeatsSelf(c: C, t: Tunables, id: nat)
    requires Candidate(c, id)
    ensures Beats(c, t, id, id) && Choose(c, t, None, Some(id)) == Some(id)
  {}

  // ----- the request taken -----

  lemma {:induction false} FormerIsPredecessor(info: Infos, s: seq<nat>, id: nat)
    requires Known(info, s) && Ascending(info, s) && id in s
    ensures Former(s, id).None? ==> forall x :: x in s ==> info[x].pos >= info[id].pos
    ensures Former(s, id).Some? ==>
              && info[Former(s, id).value].pos < info[id].pos
              && forall x :: x in s && info[x].pos < info[id].pos ==> info[x].pos <= info[Former(s, id).value].pos
  {
    if |s| >= 2 && s[0] != id {
      assert s[1] == s[1..][0];
      if s[1] != id {
        FormerIsPredecessor(info, s[1..], id);
      }
    }
  }

  lemma FirstIsLowest(info: Infos, s: seq<nat>, x: nat)
    requires Known(info, s) && Ascending(info, s) && x in s
    ensures |s| > 0 && info[s[0]].pos <= info[x].pos
  {}

  lemma AlikeBeats(c: C, t: Tunables, s: seq<nat>, a: nat, b: nat)
    requires Known(c.info, s) && KnownTo(c.attr, s) && Alike(c.attr, s) && a in s && b in s
    ensures Beats(c, t, a, b) <==> a == b || Closer(c, t, c.info[a].pos, c.info[b].pos)
  {
    hide Closer, Nearer;
    CloserIsNearer(c, t, c.info[a].pos, c.info[b].pos);
  }

  lemma SuccessorBeats(c: C, t: Tunables, s: seq<nat>, id: nat, n: nat, y: nat)
    requires Known(c.info, s) && KnownTo(c.attr, s) && Spread(c, s) && Alike(c.attr, s)
    requires id in s && n in s && y in s && c.info[id].pos < c.info[n].pos <= c.info[y].pos
    requires IsBest(c, t, s, Some(id))
    ensures Beats(c, t, n, y)
  {
    hide Closer, Beats, Spread, Alike, IsBest, Choose;
    StrictlyBest(c, t, s, id, n);
    StrictlyBest(c, t, s, id, y);
    AboveBest(c, t, c.info[id].pos, c.info[n].pos, c.info[y].pos);
    AlikeBeats(c, t, s, n, y);
  }

  lemma PredecessorBeats(c: C, t: Tunables, s: seq<nat>, id: nat, f: nat, y: nat, n: nat)
    requires Known(c.info, s) && KnownTo(c.attr, s) && Spread(c, s) && Alike(c.attr, s)
    requires id in s && f in s && y in s && n in s && c.info[y].pos <= c.info[f].pos < c.info[id].pos
    requires c.info[n].pos > c.info[id].pos || c.info[n].pos <= c.info[y].pos
    requires IsBest(c, t, s, Some(id))
    ensures Beats(c, t, f, y) || Beats(c, t, n, y)
  {
    hide Closer, Beats, Spread, Alike, IsBest, Choose;
    StrictlyBest(c, t, s, id, f);
    BelowBest(c, t, c.info[id].pos, c.info[f].pos, c.info[y].pos, c.info[n].pos);
    AlikeBeats(c, t, s, f, y);
    AlikeBeats(c, t, s, n, y);
  }

  /** Any other request is beaten by the neighbour behind the best one (going round) or by the one
      in front of it. */
  lemma NeighbourBeats(c: C, t: Tunables, s: seq<nat>, id: nat, y: nat)
    requires Known(c.info, s) && KnownTo(c.attr, s) && Ascending(c.info, s) && Alike(c.attr, s)
    requires id in s && y in s && y != id && IsBest(c, t, s, Some(id))
    ensures var n, f := NextOrFirst(s, id), Former(s, id);
            || (n.Some? && n.value != id && Beats(c, t, n.value, y))
            || (f.Some? && Beats(c, t, f.value, y))
  {
    hide Closer, Choose, Beats, Alike, IsBest, Ascending, Latter, Former;
    LatterIsSuccessor(c.info, s, id);
    FormerIsPredecessor(c.info, s, id);
    FirstIsLowest(c.info, s, y);
    AscendingSpread(c, s);
    assert Apart(c, y, id);
    if c.info[y].pos > c.info[id].pos {
      SuccessorBeats(c, t, s, id, Latter(s, id).value, y);
    } else {
      PredecessorBeats(c, t, s, id, Former(s, id).value, y, NextOrFirst(s, id).value);
    }
  }

  lemma StrictlyBest(c: C, t: Tunables, s: seq<nat>, id: nat, x: nat)
    requires Known(c.info, s) && KnownTo(c.attr, s) && Spread(c, s) && Alike(c.attr, s)
    requires id in s && x in s && x != id && IsBest(c, t, s, Some(id))
    ensures !Closer(c, t, c.info[x].pos, c.info[id].pos)
  {
    hide Closer;
    ChooseCommutes(c, t, id, x);
    AlikeBeats(c, t, s, x, id);
    assert Beats(c, t, id, x);
  }

  /** While the head stays where it is: when the best request is taken, `cfq_find_next_rq` finds the
      best of all that are left, though it looks at two of them only. */
  lemma NextOfBest(c: C, t: Tunables, s: seq<nat>, id: nat)
    requires Known(c.info, s) && KnownTo(c.attr, s) && Ascending(c.info, s) && Alike(c.attr, s)
    requires id in s && IsBest(c, t, s, Some(id))
    ensures IsBest(c, t, Without(s, id), FindNext(c, t, s, id))
  {
    hide Closer, Choose, Beats;
    var n, f, r, rest := NextOrFirst(s, id), Former(s, id), FindNext(c, t, s, id), Without(s, id);
    AscendingSpread(c, s);
    LatterIsSuccessor(c.info, s, id);
    if |rest| == 0 {
      NoneLeft(s, id);
    } else {
      assert rest[0] in rest;
      NeighbourBeats(c, t, s, id, rest[0]);
      forall y | y in rest ensures Beats(c, t, r.value, y) {
        NeighbourBeats(c, t, s, id, y);
        ChosenBeats(c, t, s, n, f, y);
      }
    }
  }

  lemma NoneLeft(s: seq<nat>, id: nat)
    requires Without(s, id) == []
    ensures NextOrFirst(s, id) == Some(id) || NextOrFirst(s, id) == None
    ensures Former(s, id) == None
  {}

  /** The better of two requests beats whatever one of them beats. */
  lemma ChosenBeats(c: C, t: Tunables, s: seq<nat>, n: Option<nat>, f: Option<nat>, y: nat)
    requires Known(c.info, s) && KnownTo(c.attr, s) && Spread(c, s) && y in s
    requires (n.Some? ==> n.value in s) && (f.Some? ==> f.value in s)
    requires (n.Some? && Beats(c, t, n.value, y)) || (f.Some? && Beats(c, t, f.value, y))
    ensures var r := Choose(c, t, n, f);
            r.Some? && Beats(c, t, r.value, y)
  {
    hide Closer;
    if n.Some? && f.Some? {
      ChooseCommutes(c, t, n.value, f.value);
      ChooseIsFirst(c, t, n.value, f.value);
      if Beats(c, t, n.value, f.value) {
        if Beats(c, t, f.value, y) {
          ChooseTransitive(c, t, n.value, f.value, y);
        }
      } else {
        if Beats(c, t, n.value, y) {
          ChooseTransitive(c, t, f.value, n.value, y);
        }
      }
    }
  }
}
