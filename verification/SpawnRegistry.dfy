/** Unregistering an algorithm: every instance that depends on it is found by an iterative walk over
    the spawn lists and killed.  The lists are moved in place. */
module SpawnRegistry {
  import opened Common
  import opened Spawns

  const ENOENT := 2

  lemma SameFlags(f: bv32, m: bv32)
    ensures (f ^ f) & m == 0
  {}

  /** Exactly the spawns in `seen` have lost their target. */
  ghost predicate Cleared(home: map<Spawn, Option<Alg>>, target: map<Spawn, Option<Alg>>, seen: set<Spawn>) {
    && target.Keys == home.Keys
    && forall s :: s in home ==> target[s] == if s in seen then None else home[s]
  }

  lemma ClearedPush(home: map<Spawn, Option<Alg>>, target: map<Spawn, Option<Alg>>, seen: set<Spawn>, s: Spawn)
    requires Cleared(home, target, seen) && s in home
    ensures Cleared(home, target[s := None], seen + {s})
  {}

  lemma Shrinks(all: set<Spawn>, seen: set<Spawn>, more: set<Spawn>)
    requires seen <= more <= all && seen != more
    ensures all - more < all - seen
  {
    var s :| s in more && s !in seen;
    assert s in all - seen;
  }

  /** The list the walk is at has been emptied. */
  ghost predicate Drained(g: Graph, w: Walk) {
    if |w.stack| == 0 then w.top == []
    else w.stack[0] in g.inst && g.inst[w.stack[0]] in w.users && w.users[g.inst[w.stack[0]]] == []
  }

  lemma HeadFound(g: Graph, home: map<Spawn, Option<Alg>>, alg: Alg, w: Walk, from: Alg)
    requires WellFormed(g, home) && WalkInv(g, alg, w) && home.Keys == g.inst.Keys
    requires from in g.users && from in w.users && |Rest(w, alg, from)| > 0
    requires from == alg || (|w.stack| > 0 && w.stack[0] in g.inst && from == g.inst[w.stack[0]])
    ensures var s := Rest(w, alg, from)[0];
            s !in Seen(w) && s in g.inst && s in home && (g.inst[s] == alg ==> Depends(g, alg, alg))
  {
    HeadReachable(g, home, alg, w, from);
  }

  /** Everything the walk keeps when it turns to `s`. */
  lemma PushStep(g: Graph, home: map<Spawn, Option<Alg>>, alg: Alg, w: Walk, from: Alg, s: Spawn,
                 target: map<Spawn, Option<Alg>>)
    requires WellFormed(g, home) && WalkInv(g, alg, w) && Cleared(home, target, Seen(w)) && s in home && s !in Seen(w)
    requires from in g.users && from in w.users && |Rest(w, alg, from)| > 0 && s == Rest(w, alg, from)[0]
    requires from == alg || (|w.stack| > 0 && w.stack[0] in g.inst && from == g.inst[w.stack[0]])
    requires s in g.inst && g.inst[s] != alg
    ensures var w' := Push(w, if from == alg then None else Some(from));
            && WalkInv(g, alg, w') && Cleared(home, target[s := None], Seen(w'))
            && Seen(w) <= Seen(w') <= g.inst.Keys && Seen(w) != Seen(w')
            && g.inst.Keys - Seen(w') < g.inst.Keys - Seen(w)
            && w'.users.Keys == g.users.Keys && g.inst[s] in g.users
  {
    hide WalkInv, WellFormed, Cleared, Seen;
    var w' := Push(w, if from == alg then None else Some(from));
    PushKeeps(g, home, alg, w, from, s);
    ClearedPush(home, target, Seen(w), s);
    SeenPush(w, w', s);
    StackKnown(g, alg, w');
    Shrinks(g.inst.Keys, Seen(w), Seen(w'));
  }

  /** Where the descent stands that began at `first`. */
  ghost predicate Going(g: Graph, home: map<Spawn, Option<Alg>>, alg: Alg, w: Walk, target: map<Spawn, Option<Alg>>,
                        first: Walk)
  {
    && WalkInv(g, alg, w) && Cleared(home, target, Seen(w))
    && Seen(first) <= Seen(w) && (Seen(first) == Seen(w) ==> w.stack == first.stack)
  }

  lemma GoingStarts(g: Graph, home: map<Spawn, Option<Alg>>, alg: Alg, w: Walk, target: map<Spawn, Option<Alg>>)
    requires WalkInv(g, alg, w) && Cleared(home, target, Seen(w))
    ensures Going(g, home, alg, w, target, w)
  {
    hide WalkInv, Cleared, Seen;
  }

  lemma GoingKnown(g: Graph, home: map<Spawn, Option<Alg>>, alg: Alg, w: Walk, target: map<Spawn, Option<Alg>>,
                   first: Walk)
    requires Going(g, home, alg, w, target, first)
    ensures WalkInv(g, alg, w) && Cleared(home, target, Seen(w)) && w.users.Keys == g.users.Keys
    ensures Seen(first) <= Seen(w) && (Seen(first) == Seen(w) ==> w.stack == first.stack)
    ensures |w.stack| > 0 ==> w.stack[0] in g.inst && g.inst[w.stack[0]] in w.users && g.inst[w.stack[0]] != alg
  {
    hide WalkInv, Cleared, Seen;
    StackKnown(g, alg, w);
  }

  /** The head of the list the walk is at: it leads back to `alg`, or the walk goes on with it. */
  lemma GoingOn(g: Graph, home: map<Spawn, Option<Alg>>, alg: Alg, w: Walk, target: map<Spawn, Option<Alg>>,
                first: Walk)
    requires WellFormed(g, home) && home.Keys == g.inst.Keys && Going(g, home, alg, w, target, first)
    requires |w.stack| > 0 ==> w.stack[0] in g.inst && g.inst[w.stack[0]] in w.users && g.inst[w.stack[0]] != alg
    requires if |w.stack| == 0 then |w.top| > 0 else |w.users[g.inst[w.stack[0]]]| > 0
    ensures var s := if |w.stack| == 0 then w.top[0] else w.users[g.inst[w.stack[0]]][0];
            var w' := Push(w, if |w.stack| == 0 then None else Some(g.inst[w.stack[0]]));
            && s in g.inst && w'.stack == [s] + w.stack
            && (g.inst[s] == alg ==> Depends(g, alg, alg))
            && (g.inst[s] != alg ==>
                  && Going(g, home, alg, w', target[s := None], first)
                  && g.inst.Keys - Seen(w') < g.inst.Keys - Seen(w))
  {
    hide WalkInv, WellFormed, Cleared, Seen, Depends;
    StackKnown(g, alg, w);
    var from := if |w.stack| == 0 then alg else g.inst[w.stack[0]];
    HeadFound(g, home, alg, w, from);
    var s := Rest(w, alg, from)[0];
    if g.inst[s] != alg {
      PushStep(g, home, alg, w, from, s, target);
    }
  }

  /** `top` and `rest` list what was on a list, once each. */
  ghost predicate Moved(all: seq<Spawn>, top: seq<Spawn>, rest: seq<Spawn>) {
    && Distinct(rest) && Distinct(top)
    && (forall s :: s in all <==> s in top || s in rest)
    && (forall s :: s in top ==> s !in rest)
  }

  lemma MovedHead(all: seq<Spawn>, top: seq<Spawn>, rest: seq<Spawn>)
    requires Moved(all, top, rest) && |rest| > 0
    ensures Moved(all, [rest[0]] + top, rest[1..]) && rest[0] in all
  {
    assert rest == [rest[0]] + rest[1..];
    assert ([rest[0]] + top)[1..] == top;
  }

  ghost function Set(list: seq<Alg>): set<Alg> { set a | a in list }

  /** The user lists of `alg` and its dependents are empty, all others as they were. */
  ghost predicate Released(g: Graph, alg: Alg, users: map<Alg, seq<Spawn>>) {
    && users.Keys == g.users.Keys
    && forall a :: a in g.users ==> users[a] == if a == alg || Depends(g, alg, a) then [] else g.users[a]
  }

  /** The spawns through which something depends on `alg` point nowhere, all others as before. */
  ghost predicate TargetsLost(g: Graph, alg: Alg, home: map<Spawn, Option<Alg>>, target: map<Spawn, Option<Alg>>) {
    && target.Keys == home.Keys
    && forall s :: s in home ==> target[s] == if Reachable(g, alg, s) then None else home[s]
  }

  lemma StillValid(g: Graph, home: map<Spawn, Option<Alg>>, alg: Alg, w: Walk, target: map<Spawn, Option<Alg>>)
    requires WellFormed(g, home) && WalkInv(g, alg, w) && w.stack == [] && w.top == []
    requires Cleared(home, target, Seen(w))
    ensures WellFormed(Graph(w.users, g.inst), target)
    ensures Released(g, alg, w.users) && TargetsLost(g, alg, home, target)
  {
    hide WellFormed, WalkInv, Reachable, Depends, Seen, Distinct;
    WalkEmpties(g, home, alg, w);
    StackKnown(g, alg, w);
    forall a | a in w.users ensures Distinct(w.users[a]) {
      StillDistinct(g, alg, w, a);
    }
    forall a, s | a in w.users && s in w.users[a]
      ensures s in g.inst && g.inst[s] in w.users && s in target && target[s] == Some(a)
    {
      StillOn(g, home, alg, w, a, s);
    }
    WellFormedIs(Graph(w.users, g.inst), target);
  }

  lemma WellFormedIs(g: Graph, home: map<Spawn, Option<Alg>>)
    requires forall a :: a in g.users ==> Distinct(g.users[a])
    requires forall a, s :: a in g.users && s in g.users[a] ==>
               s in g.inst && g.inst[s] in g.users && s in home && home[s] == Some(a)
    ensures WellFormed(g, home)
  {}

  lemma StillDistinct(g: Graph, alg: Alg, w: Walk, a: Alg)
    requires WalkInv(g, alg, w) && a in w.users
    ensures Distinct(w.users[a])
  {
    hide Seen, Sound, Finished, Untouched;
    assert Remains(Rest(w, alg, a), g.users[a], Seen(w));
  }

  /** What is still on a list was on it before and has not been visited. */
  lemma StillOn(g: Graph, home: map<Spawn, Option<Alg>>, alg: Alg, w: Walk, a: Alg, s: Spawn)
    requires WellFormed(g, home) && WalkInv(g, alg, w) && a in w.users && s in w.users[a]
    ensures s in g.inst && g.inst[s] in w.users && s in home && home[s] == Some(a) && s !in Seen(w)
  {
    hide Seen, Sound, Finished, Untouched, Distinct;
    assert Remains(Rest(w, alg, a), g.users[a], Seen(w));
    assert s in g.users[a];
  }

  /** What the finished walk leaves, in terms of the graph it started from. */
  lemma WalkDone(g: Graph, home: map<Spawn, Option<Alg>>, alg: Alg, w: Walk, target: map<Spawn, Option<Alg>>)
    requires WellFormed(g, home) && WalkInv(g, alg, w) && w.stack == [] && w.top == []
    requires Cleared(home, target, Seen(w))
    ensures WellFormed(Graph(w.users, g.inst), target)
    ensures Released(g, alg, w.users) && TargetsLost(g, alg, home, target)
    ensures w.users.Keys == g.users.Keys && target.Keys == home.Keys
    ensures forall s :: s in w.secondary ==> s in g.inst && g.inst[s] in w.users && w.users[g.inst[s]] == []
    ensures forall a :: Depends(g, alg, a) <==> exists s :: s in w.secondary && s in g.inst && g.inst[s] == a
  {
    hide WalkInv, Reachable, Depends, Seen, WellFormed;
    WalkEnds(g, home, alg, w);
    WalkEmpties(g, home, alg, w);
    StillValid(g, home, alg, w, target);
  }

  lemma DistinctCons(a: Alg, list: seq<Alg>)
    requires Distinct(list)
    ensures a !in list ==> Distinct([a] + list)
  {
    assert ([a] + list)[1..] == list;
  }

  lemma DependsListed(g: Graph, alg: Alg, secondary: seq<Spawn>, inst: map<Spawn, Alg>)
    requires g.inst == inst && forall s :: s in secondary ==> s in inst
    requires forall a :: Depends(g, alg, a) <==> exists s :: s in secondary && s in inst && inst[s] == a
    ensures forall a :: Depends(g, alg, a) <==> a in (set s | s in secondary :: inst[s])
  {
    hide Depends;
  }

  class Registry {
    const inst: map<Spawn, Alg>
    const mask: map<Spawn, bv32>
    const flags: map<Alg, bv32>
    /** The instances whose template can be pinned. */
    const pinnable: set<Alg>
    var users: map<Alg, seq<Spawn>>
    var target: map<Spawn, Option<Alg>>
    var dead: set<Alg>
    /** The instances on their template's list. */
    var hashed: set<Alg>
    /** The algorithms on the global list. */
    var listed: set<Alg>

    ghost function G(): Graph
      reads this
    {
      Graph(users, inst)
    }

    ghost predicate Valid()
      reads this
    {
      && WellFormed(G(), target)
      && mask.Keys == inst.Keys == target.Keys && flags.Keys == users.Keys
    }

    ghost function At(top: seq<Spawn>, stack: seq<Spawn>, secondary: seq<Spawn>): Walk
      reads this
    {
      Walk(users, top, stack, secondary)
    }

    /** The users of `alg` move to a list of their own; the mask never holds one back here. */
    method TakeUsers(alg: Alg) returns (top: seq<Spawn>)
      requires Valid() && alg in users
      modifies this`users
      ensures users == old(users)[alg := []]
      ensures Distinct(top) && forall s :: s in top <==> s in old(users)[alg]
    {
      top := [];
      ghost var all := users[alg];
      while |users[alg]| > 0
        invariant users.Keys == old(users).Keys && users == old(users)[alg := users[alg]]
        invariant Moved(all, top, users[alg])
        decreases |users[alg]|
      {
        var spawn := users[alg][0];
        MovedHead(all, top, users[alg]);
        MaskPasses(alg, spawn);
        top := [spawn] + top;
        users := users[alg := users[alg][1..]];
      }
    }

    /** A spawn on the list of `alg` has `alg` as its target, so no flag differs. */
    lemma MaskPasses(alg: Alg, spawn: Spawn)
      requires mask.Keys == inst.Keys == target.Keys && flags.Keys == users.Keys && alg in users
      requires spawn in inst && target[spawn] == Some(alg)
      ensures (flags[target[spawn].value] ^ flags[alg]) & mask[spawn] == 0
    {
      SameFlags(flags[alg], mask[spawn]);
    }

    /** The walk of `crypto_remove_spawns` and `crypto_more_spawns`.  It stops with `bug` exactly when
        `alg` depends on itself; otherwise it has moved the reachable spawns, each once. */
    method WalkUsers(alg: Alg) returns (bug: bool, secondary: seq<Spawn>)
      requires Valid() && alg in users
      modifies this`users, this`target
      ensures bug <==> Depends(old(G()), alg, alg)
      ensures !bug ==> WalkInv(old(G()), alg, At([], [], secondary))
      ensures !bug ==> Cleared(old(target), target, Seen(At([], [], secondary)))
    {
      ghost var g, home := G(), target;
      var top := TakeUsers(alg);
      var stack: seq<Spawn>, more := [], true;
      secondary, bug := [], false;
      WalkStarts(g, alg, At(top, stack, secondary));
      hide WalkInv, Depends, WellFormed, Cleared, Seen, Distinct;
      while more
        invariant !bug && WalkInv(g, alg, At(top, stack, secondary))
        invariant Cleared(home, target, Seen(At(top, stack, secondary)))
        invariant !more ==> stack == [] && top == []
        decreases g.inst.Keys - Seen(At(top, stack, secondary)), |stack|, more
      {
        ghost var before := Seen(At(top, stack, secondary));
        bug, top, stack := Descend(alg, g, home, top, stack, secondary);
        if bug { return; }
        ghost var w := At(top, stack, secondary);
        StackKnown(g, alg, w);
        if before != Seen(w) { Shrinks(g.inst.Keys, before, Seen(w)); }
        if |stack| == 0 {
          more := false;
        } else {
          PopKeeps(g, alg, w);
          secondary, stack := [stack[0]] + secondary, stack[1..];
        }
      }
      WalkEnds(g, home, alg, At(top, stack, secondary));
    }

    /** The first spawn of the list the walk is at goes on the stack and loses its target. */
    method MoveFirst(top0: seq<Spawn>, stack0: seq<Spawn>, ghost secondary: seq<Spawn>)
      returns (top: seq<Spawn>, stack: seq<Spawn>)
      requires if |stack0| == 0 then |top0| > 0
               else stack0[0] in inst && inst[stack0[0]] in users && |users[inst[stack0[0]]]| > 0
      modifies this`users, this`target
      ensures At(top, stack, secondary) ==
              Push(old(At(top0, stack0, secondary)), if |stack0| == 0 then None else Some(inst[stack0[0]]))
      ensures |stack| > 0 && target == old(target)[stack[0] := None]
    {
      if |stack0| == 0 {
        top, stack := top0[1..], [top0[0]] + stack0;
      } else {
        var a := inst[stack0[0]];
        top, stack := top0, [users[a][0]] + stack0;
        users := users[a := users[a][1..]];
      }
      target := target[stack[0] := None];
    }

    /** The inner loop: first users are followed down until an instance has none left. */
    method Descend(alg: Alg, ghost g: Graph, ghost home: map<Spawn, Option<Alg>>,
                   top0: seq<Spawn>, stack0: seq<Spawn>, secondary: seq<Spawn>)
      returns (bug: bool, top: seq<Spawn>, stack: seq<Spawn>)
      requires g.inst == inst && WellFormed(g, home) && inst.Keys == home.Keys
      requires WalkInv(g, alg, At(top0, stack0, secondary))
      requires Cleared(home, target, Seen(At(top0, stack0, secondary)))
      modifies this`users, this`target
      ensures bug ==> Depends(g, alg, alg)
      ensures !bug ==> WalkInv(g, alg, At(top, stack, secondary))
      ensures !bug ==> Cleared(home, target, Seen(At(top, stack, secondary)))
      ensures !bug ==> Drained(g, At(top, stack, secondary))
      ensures Seen(old(At(top0, stack0, secondary))) <= Seen(At(top, stack, secondary))
      ensures Seen(old(At(top0, stack0, secondary))) == Seen(At(top, stack, secondary)) ==> stack == stack0
    {
      hide WellFormed, WalkInv, Cleared, Seen, Depends, Going, Push;
      top, stack, bug := top0, stack0, false;
      ghost var first := At(top, stack, secondary);
      GoingStarts(g, home, alg, first, target);
      GoingKnown(g, home, alg, first, target, first);
      while if |stack| == 0 then |top| > 0 else |users[inst[stack[0]]]| > 0
        invariant Going(g, home, alg, At(top, stack, secondary), target, first)
        invariant |stack| > 0 ==> stack[0] in inst && inst[stack[0]] in users && inst[stack[0]] != alg
        decreases g.inst.Keys - Seen(At(top, stack, secondary))
      {
        ghost var w := At(top, stack, secondary);
        GoingOn(g, home, alg, w, target, first);
        var spawn := if |stack| == 0 then top[0] else users[inst[stack[0]]][0];
        if inst[spawn] == alg {
          bug := true;
          GoingKnown(g, home, alg, w, target, first);
          return;
        }
        top, stack := MoveFirst(top, stack, secondary);
        GoingKnown(g, home, alg, At(top, stack, secondary), target, first);
      }
      GoingKnown(g, home, alg, At(top, stack, secondary), target, first);
    }

    /** `crypto_remove_spawn`: the instance of a cleared spawn dies; if it is registered and its
        template can be pinned it moves to the list of what is to be destroyed. */
    method RemoveSpawn(spawn: Spawn, list0: seq<Alg>) returns (list: seq<Alg>)
      requires spawn in inst && inst[spawn] in users && users[inst[spawn]] == []
      modifies this`dead, this`hashed, this`listed
      ensures dead == old(dead) + {inst[spawn]}
      ensures var a := inst[spawn];
              var killed := a !in old(dead) && a in old(hashed) && a in pinnable;
              && list == (if killed then [a] + list0 else list0)
              && hashed == (if killed then old(hashed) - {a} else old(hashed))
              && listed == (if killed then old(listed) - {a} else old(listed))
    {
      var a := inst[spawn];
      list := list0;
      if a in dead { return; }
      dead := dead + {a};
      if a !in hashed { return; }
      if a !in pinnable { return; }
      list := [a] + list;
      listed := listed - {a};
      hashed := hashed - {a};
      assert users[a] == [];
    }

    /** The instances of the given spawns that were alive, registered and pinnable. */
    ghost function Killed(secondary: seq<Spawn>, dead: set<Alg>, hashed: set<Alg>): set<Alg>
      requires forall s :: s in secondary ==> s in inst
    {
      set s | s in secondary && inst[s] !in dead && inst[s] in hashed && inst[s] in pinnable :: inst[s]
    }

    ghost function Instances(secondary: seq<Spawn>): set<Alg>
      requires forall s :: s in secondary ==> s in inst
    {
      set s | s in secondary :: inst[s]
    }

    lemma NoneKilled(dead: set<Alg>, hashed: set<Alg>)
      ensures Instances([]) == {} && Killed([], dead, hashed) == {}
    {}

    /** One more spawn: its instance is killed unless an earlier one of its spawns did that. */
    lemma KillStep(done: seq<Spawn>, s: Spawn, dead: set<Alg>, hashed: set<Alg>)
      requires (forall x :: x in done ==> x in inst) && s in inst
      ensures var a, all := inst[s], done + [s];
              var i, k := Instances(done), Killed(done, dead, hashed);
              var now := a !in dead + i && a in hashed - k && a in pinnable;
              && Instances(all) == i + {a} && (now ==> a !in k)
              && Killed(all, dead, hashed) == if now then k + {a} else k
    {
      var all := done + [s];
      assert forall x :: x in all <==> x in done || x == s;
    }

    /** The last loop of `crypto_remove_spawns`: an instance with several spawns dies once. */
    method KillInstances(secondary: seq<Spawn>) returns (list: seq<Alg>)
      requires forall s :: s in secondary ==> s in inst && inst[s] in users && users[inst[s]] == []
      modifies this`dead, this`hashed, this`listed
      ensures dead == old(dead) + Instances(secondary)
      ensures hashed == old(hashed) - Killed(secondary, old(dead), old(hashed))
      ensures listed == old(listed) - Killed(secondary, old(dead), old(hashed))
      ensures Distinct(list) && forall a :: a in list <==> a in Killed(secondary, old(dead), old(hashed))
    {
      hide Killed, Instances;
      NoneKilled(dead, hashed);
      list := [];
      for i := 0 to |secondary|
        invariant dead == old(dead) + Instances(secondary[..i])
        invariant hashed == old(hashed) - Killed(secondary[..i], old(dead), old(hashed))
        invariant listed == old(listed) - Killed(secondary[..i], old(dead), old(hashed))
        invariant Distinct(list) && forall a :: a in list <==> a in Killed(secondary[..i], old(dead), old(hashed))
      {
        assert secondary[i] in secondary;
        assert secondary[..i + 1] == secondary[..i] + [secondary[i]];
        KillStep(secondary[..i], secondary[i], old(dead), old(hashed));
        DistinctCons(inst[secondary[i]], list);
        list := RemoveSpawn(secondary[i], list);
      }
      assert secondary[..|secondary|] == secondary;
    }

    /** `crypto_remove_spawns` without a replacement. */
    method RemoveSpawns(alg: Alg) returns (bug: bool, list: seq<Alg>)
      requires Valid() && alg in users
      modifies this
      ensures bug <==> Depends(old(G()), alg, alg)
      ensures !bug ==> Valid() && Released(old(G()), alg, users) && TargetsLost(old(G()), alg, old(target), target)
      ensures !bug ==> forall a :: a in dead <==> a in old(dead) || Depends(old(G()), alg, a)
      ensures !bug ==> Distinct(list) && forall a :: a in list <==>
                Depends(old(G()), alg, a) && a !in old(dead) && a in old(hashed) && a in pinnable
      ensures !bug ==> hashed == old(hashed) - Set(list) && listed == old(listed) - Set(list)
    {
      hide WalkInv, Reachable, Depends, Seen, Distinct, WellFormed, Released, TargetsLost, Cleared;
      ghost var g, home := G(), target;
      list := [];
      var secondary: seq<Spawn>;
      bug, secondary := WalkUsers(alg);
      if bug { return; }
      WalkDone(g, home, alg, At([], [], secondary), target);
      list := KillInstances(secondary);
      DependsListed(g, alg, secondary, inst);
    }

    /** `crypto_remove_alg`: an algorithm that is not registered is refused and nothing changes;
        otherwise exactly the algorithm and the instances that depend on it die, their user lists
        are empty, and every other list, spawn and algorithm is as before. */
    method RemoveAlg(alg: Alg) returns (err: int, bug: bool, list: seq<Alg>)
      requires Valid() && alg in users
      modifies this
      ensures alg !in old(listed) ==> err == -ENOENT && !bug && list == [] && unchanged(this)
      ensures alg in old(listed) ==> err == 0 && (bug <==> Depends(old(G()), alg, alg))
      ensures err == 0 && !bug ==>
                Valid() && Released(old(G()), alg, users) && TargetsLost(old(G()), alg, old(target), target)
      ensures err == 0 && !bug ==> forall a :: a in dead <==> a in old(dead) || a == alg || Depends(old(G()), alg, a)
      ensures err == 0 && !bug ==> Distinct(list) && forall a :: a in list <==>
                Depends(old(G()), alg, a) && a !in old(dead) && a in old(hashed) && a in pinnable
      ensures err == 0 && !bug ==> hashed == old(hashed) - Set(list) && listed == old(listed) - {alg} - Set(list)
    {
      hide Depends, Distinct, WellFormed, Released, TargetsLost;
      if alg !in listed { return -ENOENT, false, []; }
      dead := dead + {alg};
      listed := listed - {alg};
      err := 0;
      bug, list := RemoveSpawns(alg);
    }
  }
}
