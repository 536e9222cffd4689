/** The graph of crypto algorithms and the spawns through which instances use them.  A spawn sits
    on the user list of the algorithm it uses and belongs to an instance, which is an algorithm
    with users of its own. */
module Spawns {
  import opened Common

  type Alg = nat
  type Spawn = nat

  /** The user lists, and the instance each spawn belongs to. */
  datatype Graph = Graph(users: map<Alg, seq<Spawn>>, inst: map<Spawn, Alg>)

  /** Every spawn on a list belongs to a known instance and is on the list of `home` only, once. */
  ghost predicate WellFormed(g: Graph, home: map<Spawn, Option<Alg>>) {
    && (forall a :: a in g.users ==> Distinct(g.users[a]))
    && (forall a, s :: a in g.users && s in g.users[a] ==>
          s in g.inst && g.inst[s] in g.users && s in home && home[s] == Some(a))
  }

  // ----- reachability -----

  /** A chain of spawns, the first a user of `alg`, each next a user of the instance before. */
  ghost predicate Path(g: Graph, alg: Alg, p: seq<Spawn>) {
    && |p| > 0
    && alg in g.users && p[0] in g.users[alg]
    && (forall i :: 0 <= i < |p| ==> p[i] in g.inst && g.inst[p[i]] in g.users)
    && (forall i :: 0 < i < |p| ==> p[i] in g.users[g.inst[p[i - 1]]])
  }

  ghost predicate Reachable(g: Graph, alg: Alg, s: Spawn) {
    exists p :: Path(g, alg, p) && p[|p| - 1] == s
  }

  /** The instance `a` uses `alg`, directly or through other instances. */
  ghost predicate Depends(g: Graph, alg: Alg, a: Alg) {
    exists s :: Reachable(g, alg, s) && s in g.inst && g.inst[s] == a
  }

  lemma FirstReachable(g: Graph, home: map<Spawn, Option<Alg>>, alg: Alg, s: Spawn)
    requires WellFormed(g, home) && alg in g.users && s in g.users[alg]
    ensures Reachable(g, alg, s)
  {
    assert Path(g, alg, [s]);
  }

  lemma NextReachable(g: Graph, home: map<Spawn, Option<Alg>>, alg: Alg, s: Spawn, n: Spawn)
    requires WellFormed(g, home) && Reachable(g, alg, s) && s in g.inst && g.inst[s] in g.users
             && n in g.users[g.inst[s]]
    ensures Reachable(g, alg, n)
  {
    var p :| Path(g, alg, p) && p[|p| - 1] == s;
    var q := p + [n];
    assert Path(g, alg, q) && q[|q| - 1] == n;
  }

  /** `seen` holds the users of `alg` and the users of every instance in it. */
  ghost predicate Closed(g: Graph, alg: Alg, seen: set<Spawn>) {
    && (forall s :: alg in g.users && s in g.users[alg] ==> s in seen)
    && (forall s, n :: s in seen && s in g.inst && g.inst[s] in g.users && n in g.users[g.inst[s]] ==> n in seen)
  }

  lemma {:induction false} PathInClosed(g: Graph, alg: Alg, seen: set<Spawn>, p: seq<Spawn>, k: nat)
    requires Closed(g, alg, seen) && Path(g, alg, p) && k < |p|
    ensures p[k] in seen
  {
    if k > 0 { PathInClosed(g, alg, seen, p, k - 1); }
  }

  /** A closed set of reachable spawns is the set of all reachable spawns. */
  lemma ClosedIsReachable(g: Graph, alg: Alg, seen: set<Spawn>)
    requires Closed(g, alg, seen) && forall s :: s in seen ==> Reachable(g, alg, s)
    ensures forall s :: s in seen <==> Reachable(g, alg, s)
  {
    hide Closed, Reachable;
    forall s | Reachable(g, alg, s) ensures s in seen {
      ReachableInClosed(g, alg, seen, s);
    }
  }

  lemma ReachableInClosed(g: Graph, alg: Alg, seen: set<Spawn>, s: Spawn)
    requires Closed(g, alg, seen) && Reachable(g, alg, s)
    ensures s in seen
  {
    hide Closed;
    var p :| Path(g, alg, p) && p[|p| - 1] == s;
    PathInClosed(g, alg, seen, p, |p| - 1);
  }

  // ----- the walk -----

  /** The lists the walk moves spawns between; `users` lists shrink from the front. */
  datatype Walk = Walk(
    users: map<Alg, seq<Spawn>>,
    top: seq<Spawn>,
    stack: seq<Spawn>,
    secondary: seq<Spawn>)

  /** What is still to visit of the users of `a`. */
  function Rest(w: Walk, alg: Alg, a: Alg): seq<Spawn>
    requires a in w.users
  {
    if a == alg then w.top else w.users[a]
  }

  ghost function Seen(w: Walk): set<Spawn> { set s | s in w.stack + w.secondary }

  /** `rest` lists, once each, what of `all` has not been seen. */
  ghost predicate Remains(rest: seq<Spawn>, all: seq<Spawn>, seen: set<Spawn>) {
    && Distinct(rest)
    && (forall s :: s in rest <==> s in all && s !in seen)
  }

  lemma RemainsAfter(rest: seq<Spawn>, all: seq<Spawn>, seen: set<Spawn>)
    requires Remains(rest, all, seen) && |rest| > 0
    ensures Remains(rest[1..], all, seen + {rest[0]})
  {
    assert rest == [rest[0]] + rest[1..];
  }

  /** Every user of every algorithm is seen or, once, on the list of what is left. */
  ghost predicate Split(g: Graph, alg: Alg, w: Walk) {
    && w.users.Keys == g.users.Keys
    && alg in g.users && w.users[alg] == []
    && (forall a :: a in g.users ==> Remains(Rest(w, alg, a), g.users[a], Seen(w)))
  }

  /** What has been visited is reachable and does not lead back to `alg`; each spawn is listed once. */
  ghost predicate Sound(g: Graph, alg: Alg, w: Walk) {
    && (forall s :: s in Seen(w) ==> Reachable(g, alg, s) && s in g.inst && g.inst[s] in g.users && g.inst[s] != alg)
    && Distinct(w.stack) && Distinct(w.secondary) && (forall s :: s in w.stack ==> s !in w.secondary)
  }

  /** Spawns that left the stack have no unvisited users. */
  ghost predicate Finished(g: Graph, w: Walk) {
    forall s :: s in w.secondary && s in g.inst && g.inst[s] in w.users ==> w.users[g.inst[s]] == []
  }

  /** The walk has taken nothing from algorithms it has not come to. */
  ghost predicate Untouched(g: Graph, alg: Alg, w: Walk) {
    forall a :: a in g.users && a in w.users && a != alg && w.users[a] != g.users[a] ==>
      exists s :: s in Seen(w) && s in g.inst && g.inst[s] == a
  }

  ghost predicate WalkInv(g: Graph, alg: Alg, w: Walk) {
    Split(g, alg, w) && Sound(g, alg, w) && Finished(g, w) && Untouched(g, alg, w)
  }

  /** Push: the first spawn of the current list goes on the stack. */
  function Push(w: Walk, from: Option<Alg>): Walk
    requires match from case None => |w.top| > 0 case Some(a) => a in w.users && |w.users[a]| > 0
  {
    match from
    case None => w.(stack := [w.top[0]] + w.stack, top := w.top[1..])
    case Some(a) => w.(stack := [w.users[a][0]] + w.stack, users := w.users[a := w.users[a][1..]])
  }

  /** Pop: the spawn on top of the stack is done. */
  function Pop(w: Walk): Walk
    requires |w.stack| > 0
  {
    w.(stack := w.stack[1..], secondary := [w.stack[0]] + w.secondary)
  }

  lemma PushKeeps(g: Graph, home: map<Spawn, Option<Alg>>, alg: Alg, w: Walk, from: Alg, s: Spawn)
    requires WellFormed(g, home) && WalkInv(g, alg, w)
    requires from in g.users && |Rest(w, alg, from)| > 0 && s == Rest(w, alg, from)[0]
    requires from == alg || (|w.stack| > 0 && w.stack[0] in g.inst && from == g.inst[w.stack[0]])
    requires s in g.inst && g.inst[s] != alg
    ensures WalkInv(g, alg, Push(w, if from == alg then None else Some(from)))
  {
    PushSplit(g, home, alg, w, from, s);
    PushSound(g, home, alg, w, from, s);
    PushFinished(g, alg, w, from);
    PushUntouched(g, alg, w, from, s);
  }

  lemma PushUntouched(g: Graph, alg: Alg, w: Walk, from: Alg, s: Spawn)
    requires Split(g, alg, w) && Untouched(g, alg, w)
    requires from in g.users && |Rest(w, alg, from)| > 0 && s == Rest(w, alg, from)[0]
    requires from == alg || (|w.stack| > 0 && w.stack[0] in g.inst && from == g.inst[w.stack[0]])
    ensures Untouched(g, alg, Push(w, if from == alg then None else Some(from)))
  {
    hide Remains;
    var w' := Push(w, if from == alg then None else Some(from));
    SeenPush(w, w', s);
    if from != alg { assert w.stack[0] in w.stack + w.secondary; }
  }

  lemma PushSound(g: Graph, home: map<Spawn, Option<Alg>>, alg: Alg, w: Walk, from: Alg, s: Spawn)
    requires WellFormed(g, home) && Sound(g, alg, w) && Split(g, alg, w)
    requires from in g.users && |Rest(w, alg, from)| > 0 && s == Rest(w, alg, from)[0]
    requires from == alg || (|w.stack| > 0 && w.stack[0] in g.inst && from == g.inst[w.stack[0]])
    requires s in g.inst && g.inst[s] != alg
    ensures Sound(g, alg, Push(w, if from == alg then None else Some(from)))
  {
    hide Reachable, Sound, WellFormed;
    HeadReachable(g, home, alg, w, from);
    SoundPush(g, alg, w, Push(w, if from == alg then None else Some(from)), s);
  }

  lemma SoundPush(g: Graph, alg: Alg, w: Walk, w': Walk, s: Spawn)
    requires Sound(g, alg, w) && w'.stack == [s] + w.stack && w'.secondary == w.secondary && s !in Seen(w)
    requires Reachable(g, alg, s) && s in g.inst && g.inst[s] in g.users && g.inst[s] != alg
    ensures Sound(g, alg, w')
  {
    hide Reachable, Seen;
    assert w'.stack[1..] == w.stack;
    SeenPush(w, w', s);
  }

  /** The spawn the walk turns to next is reachable and new. */
  lemma HeadReachable(g: Graph, home: map<Spawn, Option<Alg>>, alg: Alg, w: Walk, from: Alg)
    requires WellFormed(g, home) && Sound(g, alg, w) && Split(g, alg, w)
    requires from in g.users && |Rest(w, alg, from)| > 0
    requires from == alg || (|w.stack| > 0 && w.stack[0] in g.inst && from == g.inst[w.stack[0]])
    ensures var s := Rest(w, alg, from)[0];
            s !in Seen(w) && s in g.inst && g.inst[s] in g.users && Reachable(g, alg, s)
  {
    hide Reachable;
    var s := Rest(w, alg, from)[0];
    assert s in Rest(w, alg, from);
    assert s in g.users[from] && s !in Seen(w) && g.inst[s] in g.users;
    if from == alg {
      FirstReachable(g, home, alg, s);
    } else {
      assert w.stack[0] in w.stack + w.secondary;
      NextReachable(g, home, alg, w.stack[0], s);
    }
  }

  lemma SeenPush(w: Walk, w': Walk, s: Spawn)
    requires w'.stack == [s] + w.stack && w'.secondary == w.secondary
    ensures Seen(w') == Seen(w) + {s}
    ensures s !in Seen(w) ==> s !in w.stack && s !in w.secondary
  {
    assert w'.stack + w'.secondary == [s] + (w.stack + w.secondary);
  }

  lemma PushFinished(g: Graph, alg: Alg, w: Walk, from: Alg)
    requires Split(g, alg, w) && Finished(g, w)
    requires from in g.users && |Rest(w, alg, from)| > 0
    ensures Finished(g, Push(w, if from == alg then None else Some(from)))
  {}

  lemma PushSplit(g: Graph, home: map<Spawn, Option<Alg>>, alg: Alg, w: Walk, from: Alg, s: Spawn)
    requires WellFormed(g, home) && Split(g, alg, w)
    requires from in g.users && |Rest(w, alg, from)| > 0 && s == Rest(w, alg, from)[0]
    ensures Split(g, alg, Push(w, if from == alg then None else Some(from)))
  {
    hide WellFormed, Remains, Seen;
    var w' := Push(w, if from == alg then None else Some(from));
    var rest := Rest(w, alg, from);
    HeadOf(rest, g.users[from], Seen(w));
    SeenPush(w, w', s);
    RemainsAfter(rest, g.users[from], Seen(w));
    forall a | a in g.users ensures Remains(Rest(w', alg, a), g.users[a], Seen(w')) {
      if a != from {
        OnOneList(g, home, from, a, s);
        RemainsOther(Rest(w, alg, a), g.users[a], Seen(w), s);
      }
    }
  }

  lemma HeadOf(rest: seq<Spawn>, all: seq<Spawn>, seen: set<Spawn>)
    requires Remains(rest, all, seen) && |rest| > 0
    ensures rest[0] in all
  {
    assert rest[0] in rest;
  }

  lemma OnOneList(g: Graph, home: map<Spawn, Option<Alg>>, a: Alg, b: Alg, s: Spawn)
    requires WellFormed(g, home) && a in g.users && b in g.users && a != b && s in g.users[a]
    ensures s !in g.users[b]
  {
    assert home[s] == Some(a);
  }

  lemma RemainsOther(rest: seq<Spawn>, all: seq<Spawn>, seen: set<Spawn>, s: Spawn)
    requires Remains(rest, all, seen) && s !in all
    ensures Remains(rest, all, seen + {s})
  {}

  lemma PopKeeps(g: Graph, alg: Alg, w: Walk)
    requires WalkInv(g, alg, w) && |w.stack| > 0
    requires w.stack[0] in g.inst && g.inst[w.stack[0]] in w.users && w.users[g.inst[w.stack[0]]] == []
    ensures WalkInv(g, alg, Pop(w)) && Seen(Pop(w)) == Seen(w)
  {
    hide Reachable, Remains;
    var w', x := Pop(w), w.stack[0];
    SeenPop(w);
    assert Split(g, alg, w') by {
      assert forall a :: a in g.users ==> Rest(w', alg, a) == Rest(w, alg, a);
    }
    hide Split, Seen;
    assert w.stack == [x] + w.stack[1..];
    assert w'.secondary[1..] == w.secondary;
  }

  lemma SeenPop(w: Walk)
    requires |w.stack| > 0
    ensures Seen(Pop(w)) == Seen(w)
  {
    assert w.stack == [w.stack[0]] + w.stack[1..];
  }

  lemma StackKnown(g: Graph, alg: Alg, w: Walk)
    requires WalkInv(g, alg, w)
    ensures Seen(w) <= g.inst.Keys && w.users.Keys == g.users.Keys && alg in g.users
    ensures |w.stack| > 0 ==> w.stack[0] in g.inst && g.inst[w.stack[0]] in g.users && g.inst[w.stack[0]] != alg
  {
    hide Reachable, Remains;
    if |w.stack| > 0 { assert w.stack[0] in w.stack + w.secondary; }
  }

  /** When nothing is left the visited spawns are the reachable ones. */
  lemma WalkEnds(g: Graph, home: map<Spawn, Option<Alg>>, alg: Alg, w: Walk)
    requires WellFormed(g, home) && WalkInv(g, alg, w) && w.stack == [] && w.top == []
    ensures forall s :: s in w.secondary <==> Reachable(g, alg, s)
    ensures forall s :: s in w.secondary ==> s in g.inst && g.inst[s] in w.users && w.users[g.inst[s]] == []
    ensures !Depends(g, alg, alg)
  {
    var seen := set s | s in w.secondary;
    hide Reachable;
    forall s, n | s in seen && s in g.inst && g.inst[s] in g.users && n in g.users[g.inst[s]] ensures n in seen {
      assert s in Seen(w);
      assert Remains(Rest(w, alg, g.inst[s]), g.users[g.inst[s]], Seen(w)) && Rest(w, alg, g.inst[s]) == [];
    }
    assert Remains(Rest(w, alg, alg), g.users[alg], Seen(w));
    ClosedIsReachable(g, alg, seen);
  }

  /** The finished walk has emptied the lists of `alg` and of what depends on it, and no other. */
  lemma WalkEmpties(g: Graph, home: map<Spawn, Option<Alg>>, alg: Alg, w: Walk)
    requires WellFormed(g, home) && WalkInv(g, alg, w) && w.stack == [] && w.top == []
    ensures w.users.Keys == g.users.Keys
    ensures forall a :: a in g.users ==> w.users[a] == if a == alg || Depends(g, alg, a) then [] else g.users[a]
    ensures forall a :: Depends(g, alg, a) <==> exists s :: s in w.secondary && s in g.inst && g.inst[s] == a
    ensures forall s :: s in Seen(w) <==> Reachable(g, alg, s)
  {
    hide Reachable, Remains, WellFormed, Depends;
    WalkEnds(g, home, alg, w);
    assert w.stack + w.secondary == w.secondary;
    DependsVia(g, alg, w.secondary);
    forall a | a in g.users ensures w.users[a] == if a == alg || Depends(g, alg, a) then [] else g.users[a] {
      ListAfter(g, alg, w, a);
    }
  }

  /** The dependents are the instances of the reachable spawns. */
  lemma DependsVia(g: Graph, alg: Alg, secondary: seq<Spawn>)
    requires forall s :: s in secondary <==> Reachable(g, alg, s)
    ensures forall a :: Depends(g, alg, a) <==> exists s :: s in secondary && s in g.inst && g.inst[s] == a
  {
    hide Reachable;
  }

  lemma ListAfter(g: Graph, alg: Alg, w: Walk, a: Alg)
    requires WalkInv(g, alg, w) && w.stack == [] && a in g.users
    requires forall b :: Depends(g, alg, b) <==> exists s :: s in w.secondary && s in g.inst && g.inst[s] == b
    ensures a in w.users && w.users[a] == if a == alg || Depends(g, alg, a) then [] else g.users[a]
  {
    hide Reachable, Remains, Depends, Sound;
    assert w.stack + w.secondary == w.secondary;
    if a != alg && Depends(g, alg, a) {
      var s :| s in w.secondary && s in g.inst && g.inst[s] == a;
    }
  }

  lemma WalkStarts(g: Graph, alg: Alg, w: Walk)
    requires alg in g.users && w.users == g.users[alg := []] && w.stack == [] && w.secondary == []
    requires forall a :: a in g.users ==> Distinct(g.users[a])
    requires Distinct(w.top) && forall s :: s in w.top <==> s in g.users[alg]
    ensures WalkInv(g, alg, w)
  {}
}
