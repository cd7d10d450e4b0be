/** propagate_umount() as a whole: the mounts it takes out are the non-revealing
    part of the non-shifting part of the tree and its cognates, which is the
    greatest set of them that is both. */
module PropVictims {
  import opened Finite
  import opened MountTree
  import opened PropUmount
  import opened PropGather
  import opened PropTrim
  import opened PropLocked

  // ---- the declarative set is the greatest of its kind ------------------------------------------

  ghost predicate NonShifting(W: World, T: set<Mnt>)
    requires W.Tree()
  {
    forall x {:trigger Forbidden(W, T, x)} :: x in T ==> !Forbidden(W, T, x)
  }

  lemma {:induction false} LeakMore(W: World, S: set<Mnt>, T: set<Mnt>, c: Mnt)
    requires W.Tree() && S <= T && Leaky(W, T, c)
    ensures Leaky(W, S, c)
  {
    hide World.Tree, Subtree;
    var z :| z in Subtree(W, c) - T;
    assert z in Subtree(W, c) - S;
  }

  lemma {:induction false} ForbiddenMore(W: World, S: set<Mnt>, T: set<Mnt>, x: Mnt)
    requires W.Tree() && S <= T && Forbidden(W, T, x)
    ensures Forbidden(W, S, x)
  {
    hide World.Tree, Leaky;
    var c :| StrictKid(W.mt, x, c) && Leaky(W, T, c);
    LeakMore(W, S, T, c);
  }

  lemma {:induction false} ShiftingGreatest(W: World, T: set<Mnt>, S: set<Mnt>)
    requires W.Tree() && T <= W.mt.Keys
    ensures var M := MaxNonShifting(W, T); M <= T && NonShifting(W, M) && (S <= T && NonShifting(W, S) ==> S <= M)
  {
    hide World.Tree, Forbidden;
    OneRound(W, T);
    forall x | x in T - Bad(W, T) ensures !Forbidden(W, T - Bad(W, T), x) { StillAllowed(W, T, x); }
    if S <= T && NonShifting(W, S) {
      forall x | x in S ensures !Forbidden(W, T, x) { if Forbidden(W, T, x) { ForbiddenMore(W, S, T, x); } }
    }
  }

  /** Strictly inside an element of a non-shifting set every parent is in it. */
  lemma {:induction false} ParentStays(W: World, T: set<Mnt>, x: Mnt, c: Mnt, y: Mnt)
    requires W.Tree() && x in T && StrictKid(W.mt, x, c) && !Leaky(W, T, c) && y in Subtree(W, c)
    ensures y in T && W.mt[y].parent in T
  {
    hide TreeDepth;
    assert y in Subtree(W, c) - T || y in T;
    if x in W.mt { assert ChildrenOK(W.mt, x); }
    if y != c { assert W.mt[y].parent in Subtree(W, c) - T || W.mt[y].parent in T by { ParentInside(W, y, c); } }
    else { assert IsChild(W.mt, x, c); }
  }

  lemma {:induction false} ParentInside(W: World, y: Mnt, c: Mnt)
    requires W.Tree() && y in Subtree(W, c) && y != c
    ensures W.mt[y].parent in Subtree(W, c)
  {
    hide TreeOK;
  }

  /** Dropping the revealing elements of a non-shifting set leaves it non-shifting. */
  lemma {:induction false} OneDropKeeps(W: World, T: set<Mnt>, N: set<Mnt>)
    requires W.Tree() && NonShifting(W, T) && N == T - (set x | x in T && Revealing(W.mt, T, x))
    ensures NonShifting(W, N)
  {
    hide World.Tree, Leaky;
    forall x | x in N ensures !Forbidden(W, N, x) {
      assert !Forbidden(W, T, x);
      forall c | StrictKid(W.mt, x, c) ensures !Leaky(W, N, c) { StaysTight(W, T, N, x, c); }
    }
  }

  lemma {:induction false} StaysTight(W: World, T: set<Mnt>, N: set<Mnt>, x: Mnt, c: Mnt)
    requires W.Tree() && N == T - (set y | y in T && Revealing(W.mt, T, y))
    requires x in T && StrictKid(W.mt, x, c) && !Leaky(W, T, c)
    ensures !Leaky(W, N, c)
  {
    hide World.Tree, Inside;
    forall y | y in Subtree(W, c) ensures y in N { ParentStays(W, T, x, c, y); }
  }

  lemma {:induction false} RevealingKeeps(W: World, T: set<Mnt>)
    requires W.Tree() && NonShifting(W, T)
    ensures NonShifting(W, MaxNonRevealing(W.mt, T))
    decreases |T|
  {
    hide World.Tree, NonShifting;
    var F := set x | x in T && Revealing(W.mt, T, x);
    if F != {} {
      CardSplit(T, F);
      OneDropKeeps(W, T, T - F);
      RevealingKeeps(W, T - F);
    }
  }

  /** The non-revealing part of the non-shifting part of T is a subset of T of both
      kinds, and the greatest. */
  lemma {:induction false} VictimsGreatest(W: World, T: set<Mnt>, S: set<Mnt>)
    requires W.Tree() && T <= W.mt.Keys
    ensures var V := MaxNonRevealing(W.mt, MaxNonShifting(W, T));
      && V <= T && NonShifting(W, V) && NonRevealing(W.mt, V)
      && (S <= T && NonShifting(W, S) && NonRevealing(W.mt, S) ==> S <= V)
  {
    hide World.Tree, NonShifting, NonRevealing;
    var M := MaxNonShifting(W, T);
    ShiftingGreatest(W, T, S);
    MaxRevealsNone(W.mt, M);
    RevealingKeeps(W, M);
    if S <= T && NonShifting(W, S) && NonRevealing(W.mt, S) { RevealingLeast(W.mt, M, S); }
  }

  // ---- propagate_umount() ------------------------------------------------------------------------

  /** s lists the set U: whole hashed subtrees, none of whose locked mounts is revealed. */
  ghost predicate Doomed(W: World, U: set<Mnt>, s: seq<Mnt>) {
    && (forall x :: x in s <==> x in U)
    && (forall i {:trigger s[i]} :: 0 <= i < |s| ==> s[i] in W.mt && W.mt[s[i]].hashed)
    && (forall x {:trigger W.mt[x].parent} :: x in W.mt && W.mt[x].hashed && W.mt[x].parent in U ==> x in U)
    && NonRevealing(W.mt, U)
  }

  lemma {:induction false} CognatesSetup(W: World, U: set<Mnt>, s: seq<Mnt>)
    requires W.Valid() && Doomed(W, U, s)
    ensures Setup(W, U, Cognates(W.mt, U))
  {
    hide GraphOK, MasterDepth, RecvSet, TreeOK, TreeDepth;
    forall c | c in Cognates(W.mt, U) ensures c in W.mt && W.mt[c].hashed {
      var m :| m in U && Cognate(W.mt, m, c);
      var q :| q in RecvSet(W.mt, W.mt[m].parent) && Lookup(W.mt, q, W.mt[m].mp) == c;
      assert At(W.mt, q, W.mt[m].mp, c);
    }
    forall x | x in U ensures x in W.mt { assert x in s; }
  }

  lemma {:induction false} TrimmedLocking(W: World, U: set<Mnt>, C: set<Mnt>, st: Run)
    requires Trimming(W, U, C, C, st)
    ensures (forall x :: x in st.cands ==> x in W.mt) && Locking(W, U, Alive(st), st)
  {
    hide World.Tree, Done, Forbidden, Looked, IsChild, Free;
    assert Alive(st) <= C;
    forall x | x in st.tou ensures x in FreeSet(W, U, Alive(st)) { UnlockedFree(W, U, Alive(st), x); }
  }

  lemma {:induction false} UnlockedFree(W: World, U: set<Mnt>, C: set<Mnt>, x: Mnt)
    requires W.Tree() && x in W.mt && x in C && !W.mt[x].locked
    ensures x in FreeSet(W, U, C)
  {
    hide World.Tree;
  }

  /** gather_candidates(), trim_one() over the list, handle_locked() until it is empty. */
  ghost function PropagateUmount(W: World, U: set<Mnt>, s: seq<Mnt>): (z: Run)
    requires W.Valid() && Doomed(W, U, s)
  {
    GathersCognates(W, U, s);
    CognatesSetup(W, U, s);
    var g := GatherCandidates(W, Started(U), s);
    TrimsShifting(W, U, Cognates(W.mt, U), g);
    var t := TrimLoop(W, g, g.cands);
    TrimmedLocking(W, U, Cognates(W.mt, U), t);
    LockedLoop(W, t)
  }

  /** What propagate_umount() commits besides U, each once: with U, exactly the
      declarative victim set. */
  lemma {:induction false} CommitsVictims(W: World, U: set<Mnt>, s: seq<Mnt>)
    requires W.Valid() && Doomed(W, U, s)
    ensures var z := PropagateUmount(W, U, s);
      && Distinct(z.tou) && (forall x :: x in z.tou ==> x !in U) && z.cand == {} && z.cands == []
      && z.umount == U + (set x | x in z.tou) == MaxNonRevealing(W.mt, MaxNonShifting(W, U + Cognates(W.mt, U)))
  {
    hide Trimming, GatherCandidates, TrimLoop, LockedLoop, Locking, ReadyToTrim, Setup, Cognates;
    hide MaxNonShifting, MaxNonRevealing, World.Tree;
    var C := Cognates(W.mt, U);
    CognatesSetup(W, U, s);
    ValidTree(W);
    var g := GatherCandidates(W, Started(U), s);
    GatherReady(W, U, s);
    TrimsShifting(W, U, C, g);
    var t := TrimLoop(W, g, g.cands);
    TrimmedLocking(W, U, C, t);
    LockedKeeps(W, U, Alive(t), t);
    LockingEnds(W, U, Alive(t), LockedLoop(W, t));
    RevealingIsFree(W, U, Alive(t));
  }

  lemma {:induction false} ValidTree(W: World)
    requires W.Valid()
    ensures W.Tree()
  {
  }

  lemma {:induction false} GatherReady(W: World, U: set<Mnt>, s: seq<Mnt>)
    requires W.Valid() && Doomed(W, U, s)
    ensures ReadyToTrim(U, Cognates(W.mt, U), GatherCandidates(W, Started(U), s))
  {
    hide World.Valid, World.Tree, GatherCandidates, Cognates;
    GathersCognates(W, U, s);
  }

  lemma {:induction false} LockingEnds(W: World, U: set<Mnt>, C: set<Mnt>, z: Run)
    requires Locking(W, U, C, z) && z.cands == []
    ensures z.cand == {} && z.umount == U + (set x | x in z.tou) == FreeSet(W, U, C)
    ensures Distinct(z.tou) && (forall x :: x in z.tou ==> x !in U) && U + C <= W.mt.Keys
  {
    hide World.Tree;
    assert U <= W.mt.Keys;
    FreeParts(W, U, C);
    hide FreeSet;
  }

  /** The tree below a hashed unlocked mount can be unmounted as a whole, and all
      of it is in its own victim set. */
  lemma {:induction false} SubtreeDoomed(W: World, m: Mnt, s: seq<Mnt>)
    requires W.Valid() && m in W.mt && W.mt[m].hashed && !W.mt[m].locked && forall x :: x in s <==> x in Subtree(W, m)
    ensures Doomed(W, Subtree(W, m), s)
    ensures Subtree(W, m) <= MaxNonRevealing(W.mt, MaxNonShifting(W, Subtree(W, m) + Cognates(W.mt, Subtree(W, m))))
  {
    hide World.Tree, GatherCandidates, PropagateUmount, Doomed, Subtree;
    var U := Subtree(W, m);
    SubtreeDoomedOnly(W, m, s);
    CommitsVictims(W, U, s);
    assert U <= PropagateUmount(W, U, s).umount;
  }

  lemma {:induction false} SubtreeShape(W: World, m: Mnt)
    requires W.Tree() && m in W.mt && W.mt[m].hashed && !W.mt[m].locked
    ensures forall x ::
      x in Subtree(W, m) ==> x in W.mt && W.mt[x].hashed && (x == m || W.mt[x].parent in Subtree(W, m))
    ensures forall x {:trigger W.mt[x].parent} ::
      x in W.mt && W.mt[x].hashed && W.mt[x].parent in Subtree(W, m) ==> x in Subtree(W, m)
  {
    hide TreeOK;
  }

  lemma {:induction false} SubtreeDoomedOnly(W: World, m: Mnt, s: seq<Mnt>)
    requires W.Valid() && m in W.mt && W.mt[m].hashed && !W.mt[m].locked && forall x :: x in s <==> x in Subtree(W, m)
    ensures Doomed(W, Subtree(W, m), s)
  {
    hide World.Tree, SendersInNs, Subtree;
    SubtreeShape(W, m);
    forall i | 0 <= i < |s| ensures s[i] in W.mt && W.mt[s[i]].hashed { assert s[i] in s; }
  }
}
