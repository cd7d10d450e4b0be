/** trim_one() and trim_ancestors() leave exactly the non-shifting candidates,
    whatever the order of the candidate list, and the maximal non-shifting
    subset is reached in one round. */
module PropTrim {
  import opened Finite
  import opened MountTree
  import opened PropUmount

  /** U is being unmounted with everything below it, C are the candidates. */
  ghost predicate Setup(W: World, U: set<Mnt>, C: set<Mnt>) {
    && W.Tree() && U !! C && U + C <= W.mt.Keys
    && (forall x {:trigger x in C} :: x in C ==> W.mt[x].hashed)
    && (forall x {:trigger W.mt[x].parent} :: x in W.mt && W.mt[x].hashed && W.mt[x].parent in U ==> x in U)
  }

  // ---- leaks go up ---------------------------------------------------------------------------

  lemma {:induction false} InsideUp(W: World, z: Mnt, c: Mnt)
    requires W.Tree() && z in W.mt && c in W.mt && W.mt[c].hashed && Inside(W, z, c)
    ensures Inside(W, z, W.mt[c].parent)
    decreases W.td[z]
  {
    hide TreeOK;
    if z == c {
      assert Inside(W, W.mt[c].parent, W.mt[c].parent);
    } else {
      InsideUp(W, W.mt[z].parent, c);
    }
  }

  lemma {:induction false} LeakUp(W: World, T: set<Mnt>, c: Mnt)
    requires W.Tree() && c in W.mt && W.mt[c].hashed && Leaky(W, T, c)
    ensures Leaky(W, T, W.mt[c].parent)
  {
    hide TreeOK, Inside;
    var z :| z in Subtree(W, c) - T;
    InsideUp(W, z, c);
    assert z in Subtree(W, W.mt[c].parent) - T;
  }

  lemma {:induction false} LeakSelf(W: World, T: set<Mnt>, c: Mnt)
    requires W.Tree() && c in W.mt && c !in T
    ensures Leaky(W, T, c)
  {
    hide TreeOK;
    assert c in Subtree(W, c) - T;
  }

  lemma {:induction false} ForbiddenLeaks(W: World, T: set<Mnt>, x: Mnt)
    requires W.Tree() && x in W.mt && Forbidden(W, T, x)
    ensures Leaky(W, T, x)
  {
    hide Leaky;
    var c :| StrictKid(W.mt, x, c) && Leaky(W, T, c);
    assert ChildrenOK(W.mt, x);
    assert IsChild(W.mt, x, c);
    LeakUp(W, T, c);
  }

  /** A hashed child off the overmount field is strictly inside. */
  lemma {:induction false} StrictIs(W: World, x: Mnt, c: Mnt)
    requires W.Tree() && x in W.mt && c in W.mt && W.mt[c].hashed && W.mt[c].parent == x
    ensures c in W.mt[x].children && (StrictKid(W.mt, x, c) <==> c != W.mt[x].over)
  {
    hide TreeDepth;
    assert ChildrenOK(W.mt, x);
    assert IsChild(W.mt, x, c);
    assert At(W.mt, x, W.mt[c].mp, c);
  }

  // ---- what trim_ancestors() has been through --------------------------------------------------

  /** Still in: a candidate, or committed. */
  ghost function Alive(st: Run): (r: set<Mnt>) { st.cand + (set x | x in st.tou) }

  /** Every candidate above a that a survivor inside a shifts is out. */
  ghost predicate Done(W: World, C: set<Mnt>, A: set<Mnt>, a: Mnt)
    requires W.Tree() && a in W.mt
    decreases W.td[a]
  {
    var p := W.mt[a].parent;
    p in C && p in W.mt ==> (a != W.mt[p].over ==> p !in A) && Done(W, C, A, p)
  }

  lemma {:induction false} DoneFewer(W: World, C: set<Mnt>, A: set<Mnt>, B: set<Mnt>, a: Mnt)
    requires W.Tree() && a in W.mt && Done(W, C, A, a) && B <= A
    ensures Done(W, C, B, a)
    decreases W.td[a]
  {
    hide TreeOK;
    var p := W.mt[a].parent;
    if p in C && p in W.mt { DoneFewer(W, C, A, B, p); }
  }

  /** Flagged by trim_ancestors() at a mount no deeper than k (strictly, for removals). */
  ghost predicate DoneAbove(W: World, C: set<Mnt>, st: Run, k: nat)
    requires W.Tree()
  {
    && (forall a {:trigger a in st.marked} :: a in st.marked && a in W.mt && W.td[a] <= k ==> Done(W, C, Alive(st), a))
    && (forall a {:trigger a in Alive(st)} ::
          a in C && a !in Alive(st) && a in W.mt && W.td[a] < k ==> Done(W, C, Alive(st), a))
  }

  /** What one call of trim_ancestors() does to the flags. */
  ghost predicate Trims(W: World, U: set<Mnt>, C: set<Mnt>, st: Run, z: Run)
    requires W.Tree()
  {
    && z.umount == st.umount && z.tou == st.tou && z.cands == st.cands && z.cand <= st.cand
    && (forall a {:trigger a in z.cand} :: a in st.cand && a !in z.cand ==> Forbidden(W, U + C, a))
    && (forall a {:trigger a in z.marked} :: a in z.marked && a !in st.marked ==> a in W.mt && Done(W, C, Alive(z), a))
    && (forall a {:trigger a in z.cand} :: a in st.cand && a !in z.cand ==> a in W.mt && Done(W, C, Alive(z), a))
  }

  ghost predicate Sound(W: World, U: set<Mnt>, C: set<Mnt>, st: Run) {
    && W.Tree() && Setup(W, U, C) && st.cand <= C && Distinct(st.tou)
    && (forall x :: x in st.tou ==> x in C && x !in st.cand && x in W.mt && !W.mt[x].locked)
    && st.umount == U + (set x | x in st.tou)
    && (forall t, c {:trigger IsChild(W.mt, t, c)} :: t in st.tou && IsChild(W.mt, t, c) ==> c in st.umount)
  }

  lemma {:induction false} ParentNotGone(W: World, U: set<Mnt>, C: set<Mnt>, st: Run, m: Mnt)
    requires Sound(W, U, C, st) && m in C && m !in st.umount
    ensures W.mt[m].parent !in st.umount
  {
    hide World.Tree;
    assert IsChild(W.mt, W.mt[m].parent, m);
  }

  lemma {:induction false} AncestorsTrim(W: World, U: set<Mnt>, C: set<Mnt>, st: Run, m: Mnt)
    requires Sound(W, U, C, st) && m in C && m !in st.umount && Leaky(W, U + C, m) && DoneAbove(W, C, st, W.td[m])
    ensures var z := TrimAncestors(W, st, m); Trims(W, U, C, st, z) && Done(W, C, Alive(z), m)
    decreases W.td[m]
  {
    hide TreeOK, Leaky, Forbidden;
    var p := W.mt[m].parent;
    ParentNotGone(W, U, C, st, m);
    if p in st.cand && m !in st.marked {
      LeakUp(W, U + C, m);
      var st1 := st.(marked := st.marked + {m});
      var st2 := if m != W.mt[p].over then st1.(cand := st1.cand - {p}) else st1;
      AncestorStep(W, U, C, st, st2, m);
      AncestorsTrim(W, U, C, st2, p);
      ParentForbidden(W, U + C, m);
      hide DoneAbove, Setup;
      var z := TrimAncestors(W, st2, p);
      assert Done(W, C, Alive(z), m);
    }
  }

  lemma {:induction false} ParentForbidden(W: World, T: set<Mnt>, m: Mnt)
    requires W.Tree() && m in W.mt && W.mt[m].hashed && Leaky(W, T, m) && W.mt[m].parent in W.mt
    ensures m != W.mt[W.mt[m].parent].over ==> Forbidden(W, T, W.mt[m].parent)
  {
    hide Leaky, World.Tree;
    StrictIs(W, W.mt[m].parent, m);
  }

  lemma {:induction false} AncestorStep(W: World, U: set<Mnt>, C: set<Mnt>, st: Run, z: Run, m: Mnt)
    requires Sound(W, U, C, st) && m in C && m !in st.umount && DoneAbove(W, C, st, W.td[m])
    requires W.mt[m].parent in st.cand
    requires z == st.(marked := st.marked + {m}, cand := if m != W.mt[W.mt[m].parent].over
        then st.cand - {W.mt[m].parent} else st.cand)
    ensures Sound(W, U, C, z) && DoneAbove(W, C, z, W.td[W.mt[m].parent])
  {
    hide TreeOK, Done;
    assert Alive(z) <= Alive(st);
    var k := W.td[W.mt[m].parent];
    forall a | a in z.marked && a in W.mt && W.td[a] <= k ensures Done(W, C, Alive(z), a) {
      assert a in st.marked;
      DoneFewer(W, C, Alive(st), Alive(z), a);
    }
    forall a | a in C && a !in Alive(z) && a in W.mt && W.td[a] < k ensures Done(W, C, Alive(z), a) {
      assert a !in Alive(st);
      DoneFewer(W, C, Alive(st), Alive(z), a);
    }
  }

  // ---- the loop -------------------------------------------------------------------------------

  /** A child that is no candidate and not unmounted. */
  ghost predicate KidOut(W: World, T: set<Mnt>, y: Mnt) {
    exists c {:trigger IsChild(W.mt, y, c)} :: IsChild(W.mt, y, c) && c !in T
  }

  ghost predicate StrictOut(W: World, T: set<Mnt>, y: Mnt) {
    exists c {:trigger StrictKid(W.mt, y, c)} :: StrictKid(W.mt, y, c) && c !in T
  }

  /** What holds of y once trim_one() has looked at it. */
  ghost predicate Looked(W: World, U: set<Mnt>, C: set<Mnt>, A: set<Mnt>, y: Mnt)
    requires W.Tree()
  {
    y in C && y in W.mt && (KidOut(W, U + C, y) ==> Done(W, C, A, y)) && (StrictOut(W, U + C, y) ==> y !in A)
  }

  /** A candidate that is out: forbidden, and its ancestors have been done. */
  ghost predicate Out(W: World, U: set<Mnt>, C: set<Mnt>, A: set<Mnt>, a: Mnt)
    requires W.Tree()
  {
    a in W.mt && Forbidden(W, U + C, a) && Done(W, C, A, a)
  }

  /** The loop's invariant; P has been looked at. */
  ghost predicate Trimming(W: World, U: set<Mnt>, C: set<Mnt>, P: set<Mnt>, st: Run) {
    && Sound(W, U, C, st)
    && (forall a {:trigger a in st.marked} :: a in st.marked ==> a in W.mt && Done(W, C, Alive(st), a))
    && (forall a {:trigger Out(W, U, C, Alive(st), a)} :: a in C && a !in Alive(st) ==> Out(W, U, C, Alive(st), a))
    && (forall y {:trigger Looked(W, U, C, Alive(st), y)} :: y in P ==> Looked(W, U, C, Alive(st), y))
    && (forall x :: x in st.tou ==> x in P)
    && (forall x :: x in st.cand ==> x in st.cands) && (forall x :: x in st.cands ==> x in C)
  }

  lemma {:induction false} OutFewer(W: World, U: set<Mnt>, C: set<Mnt>, A: set<Mnt>, B: set<Mnt>, a: Mnt)
    requires W.Tree() && Out(W, U, C, A, a) && B <= A
    ensures Out(W, U, C, B, a)
  {
    hide World.Tree, Forbidden, Done;
    DoneFewer(W, C, A, B, a);
  }

  lemma {:induction false} LookedFewer(W: World, U: set<Mnt>, C: set<Mnt>, A: set<Mnt>, B: set<Mnt>, y: Mnt)
    requires W.Tree() && Looked(W, U, C, A, y) && B <= A
    ensures Looked(W, U, C, B, y)
  {
    hide World.Tree, Done, KidOut, StrictOut;
    if KidOut(W, U + C, y) { DoneFewer(W, C, A, B, y); }
  }

  /** Fewer alive: what was established stays. */
  lemma {:induction false} FewerKeeps(W: World, U: set<Mnt>, C: set<Mnt>, P: set<Mnt>, st: Run, A: set<Mnt>)
    requires Trimming(W, U, C, P, st) && A <= Alive(st)
    ensures forall a :: a in st.marked ==> a in W.mt && Done(W, C, A, a)
    ensures forall a {:trigger Out(W, U, C, A, a)} :: a in C && a !in Alive(st) ==> Out(W, U, C, A, a)
    ensures forall y {:trigger Looked(W, U, C, A, y)} :: y in P ==> Looked(W, U, C, A, y)
  {
    hide World.Tree, Done, Looked, Out, Alive;
    var B := Alive(st);
    forall a | a in st.marked ensures a in W.mt && Done(W, C, A, a) { DoneFewer(W, C, B, A, a); }
    forall a | a in C && a !in B ensures Out(W, U, C, A, a) { assert Out(W, U, C, B, a); OutFewer(W, U, C, B, A, a); }
    forall y | y in P ensures Looked(W, U, C, A, y) { assert Looked(W, U, C, B, y); LookedFewer(W, U, C, B, A, y); }
  }

  lemma {:induction false} TrimsKeeps(W: World, U: set<Mnt>, C: set<Mnt>, P: set<Mnt>, st: Run, z: Run)
    requires Trimming(W, U, C, P, st) && Trims(W, U, C, st, z)
    ensures Trimming(W, U, C, P, z)
  {
    hide World.Tree, Done, Looked, Forbidden, IsChild, Setup;
    FewerKeeps(W, U, C, P, st, Alive(z));
    forall a | a in C && a !in Alive(z) ensures Out(W, U, C, Alive(z), a) {
      if a in Alive(st) { assert a in st.cand && a !in z.cand; }
    }
  }

  lemma {:induction false} DropAlive(st: Run, m: Mnt)
    requires m !in st.tou
    ensures Alive(Drop(st, m)) == Alive(st) - {m}
  {
  }

  /** Taking out m, forbidden and done with. */
  lemma {:induction false} DropKeeps(W: World, U: set<Mnt>, C: set<Mnt>, P: set<Mnt>, st: Run, m: Mnt)
    requires Trimming(W, U, C, P, st) && m in C && m !in st.tou && Out(W, U, C, Alive(st), m)
    ensures Trimming(W, U, C, P + {m}, Drop(st, m)) && m !in Alive(Drop(st, m))
  {
    hide World.Tree, Done, Forbidden, IsChild, Setup, SeqDel, Looked;
    var z := Drop(st, m);
    DropAlive(st, m);
    FewerKeeps(W, U, C, P, st, Alive(z));
    OutFewer(W, U, C, Alive(st), Alive(z), m);
    OutLooked(W, U, C, Alive(z), m);
    DropSound(W, U, C, st, m);
    hide Alive;
  }

  lemma {:induction false} OutLooked(W: World, U: set<Mnt>, C: set<Mnt>, A: set<Mnt>, m: Mnt)
    requires W.Tree() && Out(W, U, C, A, m) && m !in A && m in C
    ensures Looked(W, U, C, A, m)
  {
    hide World.Tree, Done, Forbidden, KidOut, StrictOut;
  }

  lemma {:induction false} DropSound(W: World, U: set<Mnt>, C: set<Mnt>, st: Run, m: Mnt)
    requires Sound(W, U, C, st)
    ensures Sound(W, U, C, Drop(st, m))
  {
    hide Setup, IsChild;
  }

  /** Committing a leaf. */
  lemma {:induction false} LeafKeeps(W: World, U: set<Mnt>, C: set<Mnt>, P: set<Mnt>, st: Run, m: Mnt)
    requires Trimming(W, U, C, P, st) && m in st.cand && m in W.mt && !W.mt[m].locked
    requires forall c {:trigger IsChild(W.mt, m, c)} :: IsChild(W.mt, m, c) ==> c in st.umount
    ensures Trimming(W, U, C, P + {m}, UmountOne(Drop(st, m), m))
  {
    hide World.Tree, Done, Forbidden, IsChild, SeqDel, Looked, Out;
    var z := UmountOne(Drop(st, m), m);
    assert Alive(z) == Alive(st);
    LeafLooked(W, U, C, st, m);
    LeafSound(W, U, C, st, m);
    hide Alive;
  }

  lemma {:induction false} LeafLooked(W: World, U: set<Mnt>, C: set<Mnt>, st: Run, m: Mnt)
    requires Sound(W, U, C, st) && m in st.cand
    requires forall c {:trigger IsChild(W.mt, m, c)} :: IsChild(W.mt, m, c) ==> c in st.umount
    ensures Looked(W, U, C, Alive(st), m)
  {
    hide TreeDepth;
    assert ChildrenOK(W.mt, m);
    hide Setup, IsChild, World.Tree, Done;
    assert forall c :: c in st.umount ==> c in U + C;
    assert !KidOut(W, U + C, m);
    assert !StrictOut(W, U + C, m) by {
      forall c | StrictKid(W.mt, m, c) ensures c in U + C { assert IsChild(W.mt, m, c); }
    }
  }

  lemma {:induction false} LeafSound(W: World, U: set<Mnt>, C: set<Mnt>, st: Run, m: Mnt)
    requires Sound(W, U, C, st) && m in st.cand && m in W.mt && !W.mt[m].locked
    requires forall c {:trigger IsChild(W.mt, m, c)} :: IsChild(W.mt, m, c) ==> c in st.umount
    ensures Sound(W, U, C, UmountOne(Drop(st, m), m))
  {
    hide Setup, IsChild;
    var z := UmountOne(Drop(st, m), m);
    assert z.umount == U + (set x | x in z.tou);
  }

  /** A child that is neither a candidate nor going leaks. */
  lemma {:induction false} KidLeaks(W: World, U: set<Mnt>, C: set<Mnt>, P: set<Mnt>, st: Run, k: Mnt)
    requires Trimming(W, U, C, P, st) && k in W.mt && k !in st.umount && k !in st.cand
    ensures Leaky(W, U + C, k)
  {
    hide World.Tree, Done, Forbidden, IsChild, Looked, Leaky;
    if k in C {
      assert k !in Alive(st);
      assert Out(W, U, C, Alive(st), k);
      ForbiddenLeaks(W, U + C, k);
    } else {
      LeakSelf(W, U + C, k);
    }
  }

  /** A candidate with a child out of the set: its ancestors are done. */
  lemma {:induction false} KidTrims(W: World, U: set<Mnt>, C: set<Mnt>, P: set<Mnt>, st: Run, m: Mnt, k: Mnt)
    requires Trimming(W, U, C, P, st) && m in st.cand && k in W.mt && IsChild(W.mt, m, k) && k !in st.umount
    requires k !in st.cand
    ensures var z := TrimAncestors(W, st, m);
      && Trimming(W, U, C, P, z) && Done(W, C, Alive(z), m) && z.tou == st.tou
      && (k != W.mt[m].over ==> Forbidden(W, U + C, m))
  {
    hide World.Tree, Done, Forbidden, Leaky, Looked, Setup, TrimAncestors;
    CandNotGone(W, U, C, st, m);
    TreeKeys(W);
    KidLeaks(W, U, C, P, st, k);
    LeakUp(W, U + C, k);
    ParentForbidden(W, U + C, k);
    AboveAll(W, U, C, P, st, W.td[m]);
    AncestorsTrim(W, U, C, st, m);
    TrimsKeeps(W, U, C, P, st, TrimAncestors(W, st, m));
  }

  lemma {:induction false} AboveAll(W: World, U: set<Mnt>, C: set<Mnt>, P: set<Mnt>, st: Run, k: nat)
    requires Trimming(W, U, C, P, st)
    ensures DoneAbove(W, C, st, k)
  {
    hide World.Tree, Done, Forbidden, Looked, Setup, Alive, IsChild;
    TreeKeys(W);
    var A := Alive(st);
    forall a | a in C && a !in A && a in W.mt ensures Done(W, C, A, a) { assert Out(W, U, C, A, a); }
  }

  lemma {:induction false} TreeKeys(W: World)
    requires W.Tree()
    ensures W.td.Keys == W.mt.Keys
  {
  }

  lemma {:induction false} CandNotGone(W: World, U: set<Mnt>, C: set<Mnt>, st: Run, m: Mnt)
    requires Sound(W, U, C, st) && m in st.cand
    ensures m !in st.umount && m in W.mt
  {
    hide World.Tree;
  }

  /** trim_one(). */
  lemma {:induction false} TrimOneKeeps(W: World, U: set<Mnt>, C: set<Mnt>, P: set<Mnt>, st: Run, m: Mnt)
    requires Trimming(W, U, C, P, st) && m in C && m in W.mt && m !in P
    ensures Trimming(W, U, C, P + {m}, TrimOne(W, st, m))
  {
    hide World.Tree, Done, Forbidden, Leaky, Looked, Setup, TrimAncestors, IsChild, Drop, UmountOne;
    KidsAre(W, st, m);
    hide Kids;
    assert m !in st.tou;
    if m !in st.cand {
      assert Out(W, U, C, Alive(st), m);
      DropKeeps(W, U, C, P, st, m);
    } else {
      var kids := Kids(W.mt, st, m);
      var nonc := kids - st.cand;
      if nonc == {} {
        assert forall c :: c in kids ==> c !in nonc;
        if kids == {} && !W.mt[m].locked { LeafKeeps(W, U, C, P, st, m); }
        else { NoneLooked(W, U, C, P, st, m, kids); }
      } else {
        var st1 := TrimAncestors(W, st, m);
        if nonc - {W.mt[m].over} != {} {
          var k := Pick(nonc - {W.mt[m].over});
          KidTrims(W, U, C, P, st, m, k);
          DropKeeps(W, U, C, P, st1, m);
        } else {
          var k := Pick(nonc);
          assert forall c :: c in kids && c !in st.cand ==> c !in nonc - {W.mt[m].over} ==> c == W.mt[m].over;
          KidTrims(W, U, C, P, st, m, k);
          OverLooked(W, U, C, P, st, st1, m, kids);
        }
      }
    }
  }

  lemma {:induction false} KidsAre(W: World, st: Run, m: Mnt)
    requires W.Tree() && m in W.mt
    ensures forall c {:trigger IsChild(W.mt, m, c)} ::
      IsChild(W.mt, m, c) <==> c in Kids(W.mt, st, m) || (c in st.umount && IsChild(W.mt, m, c))
    ensures forall c :: c in Kids(W.mt, st, m) ==> IsChild(W.mt, m, c) && c in W.mt && c !in st.umount
  {
    hide TreeDepth;
    assert ChildrenOK(W.mt, m);
  }

  ghost predicate KidsIn(W: World, S: set<Mnt>, m: Mnt) {
    forall c {:trigger IsChild(W.mt, m, c)} :: IsChild(W.mt, m, c) ==> c in S
  }

  /** Nothing below m's root stays. */
  lemma {:induction false} NoStrictOut(W: World, U: set<Mnt>, C: set<Mnt>, A: set<Mnt>, m: Mnt)
    requires W.Tree() && m in C && m in W.mt
    requires KidsIn(W, U + C + {W.mt[m].over}, m)
    requires Done(W, C, A, m) || KidsIn(W, U + C, m)
    ensures Looked(W, U, C, A, m)
  {
    hide TreeDepth, Done;
    assert ChildrenOK(W.mt, m);
    assert !StrictOut(W, U + C, m) by {
      forall c | StrictKid(W.mt, m, c) ensures c in U + C { assert IsChild(W.mt, m, c); StrictIs(W, m, c); }
    }
  }

  lemma {:induction false} NoneLooked(W: World, U: set<Mnt>, C: set<Mnt>, P: set<Mnt>, st: Run, m: Mnt, kids: set<Mnt>)
    requires Trimming(W, U, C, P, st) && m in C && m in W.mt && kids <= st.cand
    requires forall c {:trigger IsChild(W.mt, m, c)} :: IsChild(W.mt, m, c) ==> c in kids || c in st.umount
    ensures Trimming(W, U, C, P + {m}, st)
  {
    hide World.Tree, Done, Forbidden, Looked, Setup, IsChild, Out, Alive;
    assert forall c :: c in st.umount || c in st.cand ==> c in U + C;
    NoStrictOut(W, U, C, Alive(st), m);
  }

  lemma {:induction false} OverLooked(W: World, U: set<Mnt>, C: set<Mnt>, P: set<Mnt>, st: Run, z: Run, m: Mnt,
      kids: set<Mnt>)
    requires Trimming(W, U, C, P, st) && Trimming(W, U, C, P, z) && m in C && m in W.mt
    requires kids <= st.cand + {W.mt[m].over} && Done(W, C, Alive(z), m)
    requires forall c {:trigger IsChild(W.mt, m, c)} :: IsChild(W.mt, m, c) ==> c in kids || c in st.umount
    ensures Trimming(W, U, C, P + {m}, z)
  {
    hide World.Tree, Done, Forbidden, Looked, Setup, IsChild, Out, Alive;
    assert forall c :: c in st.umount || c in st.cand ==> c in U + C;
    NoStrictOut(W, U, C, Alive(z), m);
  }

  lemma {:induction false} TrimLoopKeeps(W: World, U: set<Mnt>, C: set<Mnt>, P: set<Mnt>, st: Run, s: seq<Mnt>)
    requires Trimming(W, U, C, P, st) && Distinct(s)
    requires forall i :: 0 <= i < |s| ==> s[i] in W.mt && s[i] in C && s[i] !in P
    ensures Trimming(W, U, C, P + (set x | x in s), TrimLoop(W, st, s))
    decreases |s|
  {
    hide Trimming, TrimOne, World.Tree;
    TrimmingTree(W, U, C, P, st);
    if s == [] {
      assert P + (set x | x in s) == P;
    } else {
      TrimOneKeeps(W, U, C, P, st, s[0]);
      TrimLoopKeeps(W, U, C, P + {s[0]}, TrimOne(W, st, s[0]), s[1..]);
      assert P + (set x | x in s) == P + {s[0]} + (set x | x in s[1..]) by { assert s == [s[0]] + s[1..]; }
    }
  }

  lemma {:induction false} TrimmingTree(W: World, U: set<Mnt>, C: set<Mnt>, P: set<Mnt>, st: Run)
    requires Trimming(W, U, C, P, st)
    ensures W.Tree()
  {
  }

  // ---- what is left ------------------------------------------------------------------------------

  /** From something that stays up to the child c of a candidate: c stays, or its
      ancestors have been done. */
  lemma {:induction false} Climbs(W: World, U: set<Mnt>, C: set<Mnt>, st: Run, a: Mnt, c: Mnt)
    requires Trimming(W, U, C, C, st) && a in W.mt && c in W.mt && Inside(W, a, c)
    requires a !in U + C || (a in C && Done(W, C, Alive(st), a))
    ensures c !in U + C || (c in C && Done(W, C, Alive(st), c))
    decreases W.td[a]
  {
    hide TreeOK, Out, Alive, Forbidden;
    if a != c {
      var p := W.mt[a].parent;
      assert p !in U;
      if p in C {
        assert IsChild(W.mt, p, a);
        assert Looked(W, U, C, Alive(st), p);
      }
      Climbs(W, U, C, st, p, c);
    }
  }

  lemma {:induction false} ForbiddenGone(W: World, U: set<Mnt>, C: set<Mnt>, st: Run, x: Mnt)
    requires Trimming(W, U, C, C, st) && x in C && Forbidden(W, U + C, x)
    ensures x !in Alive(st)
  {
    hide TreeDepth, Out, Alive, Inside;
    var c :| StrictKid(W.mt, x, c) && Leaky(W, U + C, c);
    var z :| z in Subtree(W, c) - (U + C);
    assert ChildrenOK(W.mt, x) && IsChild(W.mt, x, c);
    hide World.Tree;
    Climbs(W, U, C, st, z, c);
    StrictIs(W, x, c);
    assert Looked(W, U, C, Alive(st), x);
  }

  /** The forbidden elements of T. */
  ghost function Bad(W: World, T: set<Mnt>): (r: set<Mnt>)
    requires W.Tree()
  {
    set x | x in T && Forbidden(W, T, x)
  }

  /** Taking out the forbidden elements forbids no others. */
  lemma {:induction false} StillAllowed(W: World, T: set<Mnt>, x: Mnt)
    requires W.Tree() && T <= W.mt.Keys && x in T && !Forbidden(W, T, x)
    ensures !Forbidden(W, T - Bad(W, T), x)
  {
    hide World.Tree, Leaky;
    forall c | StrictKid(W.mt, x, c) ensures !Leaky(W, T - Bad(W, T), c) {
      if Leaky(W, T - Bad(W, T), c) { LeakFew(W, T, c); }
    }
  }

  lemma {:induction false} InsideTrans(W: World, z: Mnt, b: Mnt, c: Mnt)
    requires W.Tree() && z in W.mt && b in W.mt && Inside(W, z, b) && Inside(W, b, c)
    ensures Inside(W, z, c)
    decreases W.td[z]
  {
    hide TreeOK;
    if z != b { InsideTrans(W, W.mt[z].parent, b, c); }
  }

  lemma {:induction false} LeakFew(W: World, T: set<Mnt>, c: Mnt)
    requires W.Tree() && T <= W.mt.Keys && Leaky(W, T - Bad(W, T), c)
    ensures Leaky(W, T, c)
  {
    hide World.Tree, Inside, Forbidden;
    var z :| z in Subtree(W, c) - (T - Bad(W, T));
    if z in T {
      ForbiddenLeaks(W, T, z);
      var y :| y in Subtree(W, z) - T;
      InsideTrans(W, y, z, c);
      assert y in Subtree(W, c) - T;
    } else {
      assert z in Subtree(W, c) - T;
    }
  }

  /** One round reaches the maximal non-shifting subset. */
  lemma {:induction false} OneRound(W: World, T: set<Mnt>)
    requires W.Tree() && T <= W.mt.Keys
    ensures MaxNonShifting(W, T) == T - Bad(W, T)
  {
    hide World.Tree, Forbidden;
    var N := T - Bad(W, T);
    assert Bad(W, T) == set x | x in T && Forbidden(W, T, x);
    if Bad(W, T) != {} {
      forall x | x in N ensures !Forbidden(W, N, x) { StillAllowed(W, T, x); }
      assert (set x | x in N && Forbidden(W, N, x)) == {};
      assert MaxNonShifting(W, N) == N;
    }
  }

  /** The mounts being unmounted are not forbidden: all they hold goes. */
  lemma {:induction false} TreeAllowed(W: World, U: set<Mnt>, C: set<Mnt>, x: Mnt)
    requires Setup(W, U, C) && x in U
    ensures !Forbidden(W, U + C, x)
  {
    hide TreeDepth;
    forall c | StrictKid(W.mt, x, c) ensures !Leaky(W, U + C, c) {
      assert ChildrenOK(W.mt, x) && IsChild(W.mt, x, c);
      AllInside(W, U, C, c);
    }
  }

  lemma {:induction false} AllInside(W: World, U: set<Mnt>, C: set<Mnt>, c: Mnt)
    requires Setup(W, U, C) && c in U
    ensures !Leaky(W, U + C, c)
  {
    hide World.Tree, Inside;
    forall z | z in Subtree(W, c) ensures z in U + C { InsideClosed(W, U, C, z, c); }
  }

  lemma {:induction false} InsideClosed(W: World, U: set<Mnt>, C: set<Mnt>, z: Mnt, c: Mnt)
    requires Setup(W, U, C) && c in U && z in W.mt && Inside(W, z, c)
    ensures z in U
    decreases W.td[z]
  {
    hide TreeOK;
    if z != c { InsideClosed(W, U, C, W.mt[z].parent, c); }
  }

  /** The state trimming starts from: the candidates, each listed once. */
  ghost predicate ReadyToTrim(U: set<Mnt>, C: set<Mnt>, st: Run) {
    && st.cand == C && st.marked == {} && st.umount == U && st.tou == [] && Distinct(st.cands)
    && forall x :: x in st.cands <==> x in C
  }

  /** Trimming the candidates, in whatever order they are listed, keeps those of
      the maximal non-shifting subset and no other. */
  lemma {:induction false} TrimsShifting(W: World, U: set<Mnt>, C: set<Mnt>, st: Run)
    requires Setup(W, U, C) && ReadyToTrim(U, C, st)
    ensures forall i :: 0 <= i < |st.cands| ==> st.cands[i] in W.mt
    ensures var z := TrimLoop(W, st, st.cands); Trimming(W, U, C, C, z) && U + Alive(z) == MaxNonShifting(W, U + C)
  {
    hide World.Tree, Forbidden, IsChild, TrimLoop, Done, Looked, Setup;
    SetupIn(W, U, C);
    assert Alive(st) == C;
    TrimLoopKeeps(W, U, C, {}, st, st.cands);
    assert {} + (set x | x in st.cands) == C;
    var z := TrimLoop(W, st, st.cands);
    forall x | x in C && Forbidden(W, U + C, x) ensures x !in Alive(z) { ForbiddenGone(W, U, C, z, x); }
    forall x | x in C && x !in Alive(z) ensures Forbidden(W, U + C, x) { assert Out(W, U, C, Alive(z), x); }
    forall x | x in U ensures !Forbidden(W, U + C, x) { TreeAllowed(W, U, C, x); }
    OneRound(W, U + C);
    AliveIn(W, U, C, z);
  }

  lemma {:induction false} SetupIn(W: World, U: set<Mnt>, C: set<Mnt>)
    requires Setup(W, U, C)
    ensures W.Tree() && U + C <= W.mt.Keys
  {
  }

  lemma {:induction false} AliveIn(W: World, U: set<Mnt>, C: set<Mnt>, z: Run)
    requires Sound(W, U, C, z)
    ensures Alive(z) <= C
  {
  }
}
