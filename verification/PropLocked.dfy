/** handle_locked() commits exactly the candidates whose unmounting reveals
    nothing: those with an unlocked candidate, or an unmounted mount, above them
    and nothing but candidates between. */
module PropLocked {
  import opened Finite
  import opened MountTree
  import opened PropUmount
  import opened PropTrim

  // ---- the non-revealing subset --------------------------------------------------------------

  /** x can go with what is above it. */
  ghost predicate Free(W: World, U: set<Mnt>, C: set<Mnt>, x: Mnt)
    requires W.Tree() && x in W.mt
    decreases W.td[x]
  {
    x in U || (x in C && (!W.mt[x].locked || (W.mt[x].parent in W.mt && Free(W, U, C, W.mt[x].parent))))
  }

  ghost function FreeSet(W: World, U: set<Mnt>, C: set<Mnt>): (r: set<Mnt>)
    requires W.Tree()
  {
    set x | x in W.mt && Free(W, U, C, x)
  }

  ghost predicate NonRevealing(mt: Table, T: set<Mnt>) {
    forall x {:trigger Revealing(mt, T, x)} :: x in T ==> !Revealing(mt, T, x)
  }

  /** Any non-revealing subset survives the dropping. */
  lemma {:induction false} RevealingLeast(mt: Table, T: set<Mnt>, S: set<Mnt>)
    requires S <= T && NonRevealing(mt, S)
    ensures S <= MaxNonRevealing(mt, T)
    decreases |T|
  {
    var F := set x | x in T && Revealing(mt, T, x);
    if F != {} {
      CardSplit(T, F);
      forall x | x in S ensures x !in F { assert !Revealing(mt, S, x); }
      RevealingLeast(mt, T - F, S);
    }
  }

  lemma {:induction false} MaxRevealsNone(mt: Table, T: set<Mnt>)
    ensures MaxNonRevealing(mt, T) <= T && NonRevealing(mt, MaxNonRevealing(mt, T))
    decreases |T|
  {
    var F := set x | x in T && Revealing(mt, T, x);
    if F != {} {
      CardSplit(T, F);
      MaxRevealsNone(mt, T - F);
    } else {
      forall x | x in T ensures !Revealing(mt, T, x) { assert x !in F; }
    }
  }

  lemma {:induction false} MaxIsFree(W: World, U: set<Mnt>, C: set<Mnt>, S: set<Mnt>, x: Mnt)
    requires W.Tree() && S <= U + C && NonRevealing(W.mt, S) && x in S && U + C <= W.mt.Keys
    ensures Free(W, U, C, x)
    decreases W.td[x]
  {
    hide TreeOK;
    assert !Revealing(W.mt, S, x);
    if W.mt[x].locked { MaxIsFree(W, U, C, S, W.mt[x].parent); }
  }

  /** The maximal non-revealing subset is the free part. */
  lemma {:induction false} RevealingIsFree(W: World, U: set<Mnt>, C: set<Mnt>)
    requires W.Tree() && U + C <= W.mt.Keys && NonRevealing(W.mt, U)
    ensures MaxNonRevealing(W.mt, U + C) == FreeSet(W, U, C)
  {
    hide TreeOK;
    var M, F := MaxNonRevealing(W.mt, U + C), FreeSet(W, U, C);
    MaxRevealsNone(W.mt, U + C);
    forall x | x in M ensures x in F { MaxIsFree(W, U, C, M, x); }
    forall x | x in F ensures !Revealing(W.mt, F, x) {
      if x in U { assert !Revealing(W.mt, U, x); }
    }
    RevealingLeast(W.mt, U + C, F);
  }

  // ---- the chain handle_locked() climbs ---------------------------------------------------------

  /** From p up while in S. */
  ghost function Chain(W: World, S: set<Mnt>, p: Mnt): (r: set<Mnt>)
    requires W.Tree()
    ensures r <= S && r <= W.mt.Keys
    decreases if p in W.mt then W.td[p] + 1 else 0
  {
    if p in S && p in W.mt then {p} + Chain(W, S, W.mt[p].parent) else {}
  }

  /** The first mount above, out of S. */
  ghost function Top(W: World, S: set<Mnt>, p: Mnt): (t: Mnt)
    requires W.Tree()
    ensures t !in S || t !in W.mt
    decreases if p in W.mt then W.td[p] + 1 else 0
  {
    if p in S && p in W.mt then Top(W, S, W.mt[p].parent) else p
  }

  /** Some mount of the chain is not locked. */
  ghost predicate Open(W: World, S: set<Mnt>, p: Mnt)
    requires W.Tree()
    decreases if p in W.mt then W.td[p] + 1 else 0
  {
    p in S && p in W.mt && (!W.mt[p].locked || Open(W, S, W.mt[p].parent))
  }

  /** The parent of the highest such. */
  ghost function Cut(W: World, S: set<Mnt>, p: Mnt): (t: Mnt)
    requires W.Tree() && Open(W, S, p)
    ensures t in W.mt ==> W.td[t] < W.td[p]
    decreases W.td[p]
  {
    if Open(W, S, W.mt[p].parent) then Cut(W, S, W.mt[p].parent) else W.mt[p].parent
  }

  /** From m up to, not including, t. */
  ghost function Path(W: World, m: Mnt, t: Mnt): (r: set<Mnt>)
    requires W.Tree()
    ensures forall x :: x in r ==> x in W.mt && m in W.mt && W.td[x] <= W.td[m]
    decreases if m in W.mt then W.td[m] + 1 else 0
  {
    if m == t || m !in W.mt then {} else {m} + Path(W, W.mt[m].parent, t)
  }

  lemma {:induction false} PathToTop(W: World, S: set<Mnt>, p: Mnt)
    requires W.Tree()
    ensures Path(W, p, Top(W, S, p)) == Chain(W, S, p)
    decreases if p in W.mt then W.td[p] + 1 else 0
  {
    hide TreeOK;
    if p in S && p in W.mt { PathToTop(W, S, W.mt[p].parent); }
  }

  /** Below a free mount the whole chain is free. */
  lemma {:induction false} ChainFree(W: World, U: set<Mnt>, C: set<Mnt>, S: set<Mnt>, p: Mnt)
    requires W.Tree() && S <= C && U !! C && Top(W, S, p) in FreeSet(W, U, C)
    ensures Chain(W, S, p) <= FreeSet(W, U, C)
    ensures p in FreeSet(W, U, C)
    decreases if p in W.mt then W.td[p] + 1 else 0
  {
    hide TreeOK;
    if p in S && p in W.mt { ChainFree(W, U, C, S, W.mt[p].parent); }
  }

  /** Otherwise the free part of the chain is what hangs off its highest unlocked mount. */
  lemma {:induction false} ChainCut(W: World, U: set<Mnt>, C: set<Mnt>, S: set<Mnt>, p: Mnt)
    requires W.Tree() && S <= C && U !! C && Top(W, S, p) !in FreeSet(W, U, C)
    ensures p in FreeSet(W, U, C) <==> Open(W, S, p)
    ensures Open(W, S, p) ==> Path(W, p, Cut(W, S, p)) == Chain(W, S, p) * FreeSet(W, U, C)
    ensures !Open(W, S, p) ==> Chain(W, S, p) * FreeSet(W, U, C) == {}
    decreases if p in W.mt then W.td[p] + 1 else 0
  {
    hide TreeOK;
    if p in S && p in W.mt {
      ChainCut(W, U, C, S, W.mt[p].parent);
    }
  }

  // ---- climbing and committing --------------------------------------------------------------------

  /** HlAscend() drops the chain and finds its top and its cut. */
  lemma {:induction false} Ascends(W: World, S: set<Mnt>, st: Run, p: Mnt, cutoff: Mnt)
    requires W.Tree()
    requires forall x :: x in W.mt && p in W.mt && W.td[x] <= W.td[p] ==> (x in st.cand <==> x in S)
    ensures var a := HlAscend(W, st, p, cutoff);
      && a.st.cand == st.cand - Chain(W, S, p) && a.st.umount == st.umount && a.st.tou == st.tou
      && (forall x :: x in a.st.cands <==> x in st.cands && x !in Chain(W, S, p))
      && a.p == Top(W, S, p) && a.cutoff == if Open(W, S, p) then Cut(W, S, p) else cutoff
    decreases if p in W.mt then W.td[p] + 1 else 0
  {
    hide TreeOK;
    if p in S && p in W.mt {
      Ascends(W, S, Drop(st, p), W.mt[p].parent, if !W.mt[p].locked then W.mt[p].parent else cutoff);
    }
  }

  /** HlCommit() commits the path. */
  lemma {:induction false} Commits(W: World, st: Run, m: Mnt, t: Mnt)
    requires W.Tree() && Distinct(st.tou) && Path(W, m, t) !! (set x | x in st.tou)
    ensures var z := HlCommit(W, st, m, t);
      && z.cand == st.cand && z.cands == st.cands && z.umount == st.umount + Path(W, m, t) && Distinct(z.tou)
      && (forall x :: x in z.tou <==> x in st.tou || x in Path(W, m, t))
    decreases if m in W.mt then W.td[m] + 1 else 0
  {
    hide TreeOK;
    if m != t && m in W.mt {
      var st1 := UmountOne(st, m);
      assert m in Path(W, m, t);
      assert m !in Path(W, W.mt[m].parent, t);
      assert m !in st.tou by { assert m !in (set x | x in st.tou); }
      assert (set x | x in st1.tou) == (set x | x in st.tou) + {m};
      assert Distinct(st1.tou);
      Commits(W, st1, W.mt[m].parent, t);
    }
  }

  // ---- the loop -------------------------------------------------------------------------------------

  ghost predicate Locking(W: World, U: set<Mnt>, C: set<Mnt>, st: Run) {
    && W.Tree() && U !! C && U + C <= W.mt.Keys && st.cand <= C && Distinct(st.tou)
    && (forall x :: x in st.tou ==> x in C && x !in st.cand && x in FreeSet(W, U, C))
    && st.umount == U + (set x | x in st.tou)
    && (forall x :: x in C && x in FreeSet(W, U, C) ==> x in st.cand || x in st.tou)
    && (forall x :: x in st.cand ==> x in st.cands) && (forall x :: x in st.cands ==> x in W.mt)
  }

  lemma {:induction false} DropLocking(W: World, U: set<Mnt>, C: set<Mnt>, st: Run, m: Mnt)
    requires Locking(W, U, C, st) && m !in st.cand
    ensures Locking(W, U, C, Drop(st, m))
  {
    hide World.Tree, FreeSet;
  }

  /** Dropping the chain K and committing its free part. */
  lemma {:induction false} ChainLocking(W: World, U: set<Mnt>, C: set<Mnt>, st: Run, z: Run, K: set<Mnt>, Q: set<Mnt>)
    requires Locking(W, U, C, st) && K <= st.cand && Q == K * FreeSet(W, U, C)
    requires z.cand == st.cand - K && z.umount == st.umount + Q && Distinct(z.tou)
    requires forall x :: x in z.tou <==> x in st.tou || x in Q
    requires forall x :: x in z.cands <==> x in st.cands && x !in K
    ensures Locking(W, U, C, z)
  {
    hide World.Tree, FreeSet;
  }

  lemma {:induction false} HandleKeeps(W: World, U: set<Mnt>, C: set<Mnt>, st: Run, m: Mnt)
    requires Locking(W, U, C, st) && m in st.cands
    ensures Locking(W, U, C, HandleLocked(W, st, m))
  {
    hide World.Tree, FreeSet, HlAscend, HlCommit, Chain, Top, Open, Cut, Path;
    if m !in st.cand {
      DropLocking(W, U, C, st, m);
    } else {
      var S := st.cand;
      TreeKeys(W);
      Ascends(W, S, st, m, m);
      var a := HlAscend(W, st, m, m);
      var t := if a.p in a.st.umount then a.p else a.cutoff;
      var F := FreeSet(W, U, C);
      FreeParts(W, U, C);
      if a.p in a.st.umount {
        PathToTop(W, S, m);
        ChainFree(W, U, C, S, m);
      } else {
        assert a.p !in F;
        ChainCut(W, U, C, S, m);
        PathEmpty(W, m);
      }
      assert Path(W, m, t) == Chain(W, S, m) * F;
      Commits(W, a.st, m, t);
      ChainLocking(W, U, C, st, HlCommit(W, a.st, m, t), Chain(W, S, m), Path(W, m, t));
    }
  }

  lemma {:induction false} PathEmpty(W: World, m: Mnt)
    requires W.Tree()
    ensures Path(W, m, m) == {}
  {
  }

  lemma {:induction false} FreeParts(W: World, U: set<Mnt>, C: set<Mnt>)
    requires W.Tree() && U <= W.mt.Keys
    ensures U <= FreeSet(W, U, C) <= U + C && FreeSet(W, U, C) <= W.mt.Keys
  {
    hide TreeOK;
  }

  lemma {:induction false} LockedKeeps(W: World, U: set<Mnt>, C: set<Mnt>, st: Run)
    requires Locking(W, U, C, st)
    ensures var z := LockedLoop(W, st); Locking(W, U, C, z) && z.cands == []
    decreases |st.cands|
  {
    hide World.Tree, FreeSet, HandleLocked;
    if st.cands != [] {
      HandleKeeps(W, U, C, st, st.cands[0]);
      LockedKeeps(W, U, C, HandleLocked(W, st, st.cands[0]));
    }
  }

}
