/** reparent() and the overmount field: what covers the root of a surviving mount
    afterwards is what its mnt overmount field says. */
module PropOver {
  import opened MountTree
  import opened PropUmount
  import opened PropTrim
  import opened PropVictims
  import opened PropReparent

  /** o has slid, the victims in P having been gone through, onto the root of p. */
  ghost predicate SlidOnto(W: World, T: set<Mnt>, P: set<Mnt>, o: Mnt, p: Mnt)
    requires W.Deep() && p in W.mt
  {
    && Slides(W, T, o) && W.mt[o].parent in P
    && SurvivorTarget(W, T, W.mt[o].parent, W.mt[o].mp) == Place(p, W.mt[p].root)
  }

  ghost predicate AnySlid(W: World, T: set<Mnt>, P: set<Mnt>, p: Mnt)
    requires W.Deep() && p in W.mt
  {
    exists o {:trigger SlidOnto(W, T, P, o, p)} :: SlidOnto(W, T, P, o, p)
  }

  /** The overmount of p is what slid onto its root, or what it was. */
  ghost predicate OverIs(W: World, T: set<Mnt>, P: set<Mnt>, mt: Table, p: Mnt)
    requires W.Deep() && p in W.mt && p in mt
  {
    && (forall o {:trigger SlidOnto(W, T, P, o, p)} :: SlidOnto(W, T, P, o, p) ==> mt[p].over == o)
    && (!AnySlid(W, T, P, p) ==> mt[p].over == W.mt[p].over)
  }

  /** Going through m adds its overmount, if that slides, and nothing else. */
  lemma {:induction false} SlidMore(W: World, T: set<Mnt>, P: set<Mnt>, m: Mnt, o: Mnt, p: Mnt)
    requires Victims(W, T) && m in T && p in W.mt
    ensures SlidOnto(W, T, P + {m}, o, p)
        <==> SlidOnto(W, T, P, o, p) || (o == W.mt[m].over && SlidOnto(W, T, {m}, o, p))
  {
    hide TreeOK, NonShifting, SurvivorTarget;
    OverSlides(W, T, m);
  }

  lemma {:induction false} OverAt(mt: Table, p: Mnt, d: Dentry, o: Mnt, x: Mnt)
    requires o in mt && p in mt && mt[o].parent in mt && mt[o].hashed && p != o && x in mt
    ensures var z := ChangeMountpoint(mt, p, d, o);
      z[x].over == if x == p && d == mt[p].root then o else mt[x].over
  {
  }

  /** The overmount of p after the step for m. */
  lemma {:induction false} StepOver(W: World, T: set<Mnt>, P: set<Mnt>, mt: Table, m: Mnt, p: Mnt)
    requires Victims(W, T) && Placed(W, T, P, mt) && m in T && m !in P && p in W.mt && p !in T
    ensures p in mt && p in ReparentOne(W, T, P, mt, m)
    ensures var o := W.mt[m].over;
      ReparentOne(W, T, P, mt, m)[p].over == if SlidOnto(W, T, {m}, o, p) then o else mt[p].over
  {
    hide TreeDepth, TreeOK, NonShifting, SurvivorTarget, ReparentTarget, ChangeMountpoint;
    MoveReady(W, T, P, mt, m);
    OverSlides(W, T, m);
    var o := mt[m].over;
    assert mt[p].root == W.mt[p].root by { assert PlaceOf(mt, p) == Due(W, T, P, p); }
    if o != NO_MNT && o !in T {
      var t := ReparentTarget(W, T, mt, mt[o].parent, mt[o].mp);
      OverAt(mt, t.parent, t.mp, o, p);
    }
  }

  lemma {:induction false} OneOver(W: World, T: set<Mnt>, P: set<Mnt>, mt: Table, m: Mnt, p: Mnt)
    requires Victims(W, T) && Placed(W, T, P, mt) && m in T && m !in P && p in W.mt && p !in T
    requires OverIs(W, T, P, mt, p)
    ensures p in ReparentOne(W, T, P, mt, m) && OverIs(W, T, P + {m}, ReparentOne(W, T, P, mt, m), p)
  {
    StepOver(W, T, P, mt, m, p);
    hide World.Tree, World.Deep, Victims, Placed, ReparentOne, SlidOnto, OverIs;
    forall x
      ensures SlidOnto(W, T, P + {m}, x, p)
          <==> SlidOnto(W, T, P, x, p) || (x == W.mt[m].over && SlidOnto(W, T, {m}, x, p))
    { SlidMore(W, T, P, m, x, p); }
    forall x, y | SlidOnto(W, T, P + {m}, x, p) && SlidOnto(W, T, P + {m}, y, p) ensures x == y {
      SlidOnce(W, T, P + {m}, x, y, p);
    }
    OverMore(W, T, P, mt, ReparentOne(W, T, P, mt, m), m, p);
  }

  lemma {:induction false} OverMore(W: World, T: set<Mnt>, P: set<Mnt>, mt: Table, z: Table, m: Mnt, p: Mnt)
    requires W.Deep() && p in W.mt && m in W.mt && p in mt && p in z && OverIs(W, T, P, mt, p)
    requires z[p].over == if SlidOnto(W, T, {m}, W.mt[m].over, p) then W.mt[m].over else mt[p].over
    requires forall x {:trigger SlidOnto(W, T, P + {m}, x, p)} {:trigger SlidOnto(W, T, P, x, p)} ::
      SlidOnto(W, T, P + {m}, x, p) <==> SlidOnto(W, T, P, x, p) || (x == W.mt[m].over && SlidOnto(W, T, {m}, x, p))
    requires forall x, y {:trigger SlidOnto(W, T, P + {m}, x, p), SlidOnto(W, T, P + {m}, y, p)} ::
      SlidOnto(W, T, P + {m}, x, p) && SlidOnto(W, T, P + {m}, y, p) ==> x == y
    ensures OverIs(W, T, P + {m}, z, p)
  {
    hide World.Deep, SlidOnto;
    if SlidOnto(W, T, {m}, W.mt[m].over, p) { assert SlidOnto(W, T, P + {m}, W.mt[m].over, p); }
  }

  lemma {:induction false} SlidOnce(W: World, T: set<Mnt>, P: set<Mnt>, x: Mnt, y: Mnt, p: Mnt)
    requires Victims(W, T) && p in W.mt && SlidOnto(W, T, P, x, p) && SlidOnto(W, T, P, y, p)
    ensures x == y
  {
    hide World.Tree, NonShifting, SurvivorTarget;
    TargetsDistinct(W, T, x, y);
  }

  lemma {:induction false} LoopKeys(W: World, T: set<Mnt>, P: set<Mnt>, mt: Table, s: seq<Mnt>)
    requires Victims(W, T) && Placed(W, T, P, mt) && Distinct(s)
    requires forall i {:trigger s[i]} :: 0 <= i < |s| ==> s[i] in T && s[i] !in P
    ensures ReparentLoop(W, T, P, mt, s).Keys == W.mt.Keys
    decreases |s|
  {
    hide World.Deep, TreeOK, NonShifting, ReparentOne, Due;
    if s != [] {
      LoopReady(W, T, P, mt, s);
      LoopKeys(W, T, P + {s[0]}, ReparentOne(W, T, P, mt, s[0]), s[1..]);
    }
  }

  lemma {:induction false} LoopOver(W: World, T: set<Mnt>, P: set<Mnt>, mt: Table, s: seq<Mnt>, p: Mnt)
    requires Victims(W, T) && Placed(W, T, P, mt) && Distinct(s) && p in W.mt && p !in T
    requires forall i {:trigger s[i]} :: 0 <= i < |s| ==> s[i] in T && s[i] !in P
    requires p in mt && OverIs(W, T, P, mt, p)
    ensures p in ReparentLoop(W, T, P, mt, s)
    ensures OverIs(W, T, P + (set x | x in s), ReparentLoop(W, T, P, mt, s), p)
    decreases |s|
  {
    LoopKeys(W, T, P, mt, s);
    SetCons(P, s);
    if s != [] {
      LoopReady(W, T, P, mt, s);
      hide World.Tree, World.Deep, Victims, Placed, ReparentOne, OverIs;
      OneOver(W, T, P, mt, s[0], p);
      LoopOver(W, T, P + {s[0]}, ReparentOne(W, T, P, mt, s[0]), s[1..], p);
    }
  }

  lemma {:induction false} SetCons(P: set<Mnt>, s: seq<Mnt>)
    ensures s == [] ==> P + (set x | x in s) == P
    ensures s != [] ==> P + (set x | x in s) == P + {s[0]} + (set x | x in s[1..])
  {
    if s != [] { assert s == [s[0]] + s[1..]; }
  }

  // ---- what else stays -----------------------------------------------------------------------

  /** Nothing but the place, the children list and the overmount field differs. */
  ghost predicate Framed(mt: Table, nt: Table) {
    && nt.Keys == mt.Keys
    && forall x {:trigger nt[x]} :: x in mt ==>
         nt[x] == mt[x].(parent := nt[x].parent, mp := nt[x].mp, children := nt[x].children, over := nt[x].over)
  }

  lemma {:induction false} LoopFramed(W: World, T: set<Mnt>, P: set<Mnt>, mt: Table, s: seq<Mnt>)
    requires Victims(W, T) && Placed(W, T, P, mt) && Distinct(s)
    requires forall i {:trigger s[i]} :: 0 <= i < |s| ==> s[i] in T && s[i] !in P
    ensures Framed(mt, ReparentLoop(W, T, P, mt, s))
    decreases |s|
  {
    hide World.Deep, TreeOK, NonShifting, Placed, ReparentOne;
    if s != [] {
      LoopReady(W, T, P, mt, s);
      OneFramed(W, T, P, mt, s[0]);
      LoopFramed(W, T, P + {s[0]}, ReparentOne(W, T, P, mt, s[0]), s[1..]);
    }
  }

  lemma {:induction false} OneFramed(W: World, T: set<Mnt>, P: set<Mnt>, mt: Table, m: Mnt)
    requires Victims(W, T) && Placed(W, T, P, mt) && m in T && m !in P
    ensures Framed(mt, ReparentOne(W, T, P, mt, m))
  {
    hide TreeDepth, TreeOK, NonShifting, SurvivorTarget, ReparentTarget, ChangeMountpoint;
    MoveReady(W, T, P, mt, m);
    var o := mt[m].over;
    if o != NO_MNT && o !in T {
      var t := ReparentTarget(W, T, mt, mt[o].parent, mt[o].mp);
      MoveFramed(mt, t.parent, t.mp, o);
    }
  }

  lemma {:induction false} MoveFramed(mt: Table, p: Mnt, d: Dentry, o: Mnt)
    requires o in mt && p in mt && mt[o].parent in mt && mt[o].hashed
    ensures Framed(mt, ChangeMountpoint(mt, p, d, o))
  {
    var z := ChangeMountpoint(mt, p, d, o);
    forall x | x in mt
      ensures z[x] == mt[x].(parent := z[x].parent, mp := z[x].mp, children := z[x].children, over := z[x].over)
    { MoveFrame(mt, p, d, o, x); }
    hide ChangeMountpoint;
  }

  lemma {:induction false} MoveFrame(mt: Table, p: Mnt, d: Dentry, o: Mnt, x: Mnt)
    requires o in mt && p in mt && mt[o].parent in mt && mt[o].hashed && x in mt
    ensures var z := ChangeMountpoint(mt, p, d, o);
      z[x] == mt[x].(parent := z[x].parent, mp := z[x].mp, children := z[x].children, over := z[x].over)
  {
  }

  lemma {:induction false} HiddenFramed(mt: Table, T: set<Mnt>)
    ensures Framed(mt, Hidden(mt, T)) && forall x :: x in mt ==> Hidden(mt, T)[x].over == mt[x].over
  {
  }

  // ---- in the end ---------------------------------------------------------------------------------

  /** The overmount field of p is the survivor on its root, or as it was if there is none. */
  ghost predicate CoverOK(W: World, T: set<Mnt>, mt: Table, p: Mnt)
    requires p in W.mt && p in mt
  {
    && (forall o {:trigger OnRoot(T, mt, p, o)} :: OnRoot(T, mt, p, o) ==> mt[p].over == o)
    && (!Covered(T, mt, p) ==> mt[p].over == W.mt[p].over)
  }

  ghost predicate OnRoot(T: set<Mnt>, mt: Table, p: Mnt, o: Mnt)
    requires p in mt
  {
    o !in T && IsChild(mt, p, o) && mt[o].mp == mt[p].root
  }

  ghost predicate Covered(T: set<Mnt>, mt: Table, p: Mnt)
    requires p in mt
  {
    exists o {:trigger OnRoot(T, mt, p, o)} :: OnRoot(T, mt, p, o)
  }

  lemma {:induction false} WasOver(W: World, p: Mnt, o: Mnt)
    requires W.Tree() && p in W.mt && IsChild(W.mt, p, o) && W.mt[o].mp == W.mt[p].root
    ensures W.mt[p].over == o
  {
    assert ChildrenOK(W.mt, p);
    assert At(W.mt, p, W.mt[p].root, o);
  }

  /** Once all victims have been gone through the overmount fields of the survivors are
      right. */
  lemma {:induction false} CoverAll(W: World, T: set<Mnt>, mt: Table, p: Mnt)
    requires Victims(W, T) && Reparented(W, T, mt) && p in W.mt && p !in T && OverIs(W, T, T, mt, p)
    ensures CoverOK(W, T, mt, p)
  {
    hide World.Deep, TreeOK, NonShifting, SurvivorTarget;
    assert PlaceOf(mt, p) == Due(W, T, T, p);
    forall o | OnRoot(T, mt, p, o) ensures mt[p].over == o {
      assert PlaceOf(mt, o) == Due(W, T, T, o);
      if Slides(W, T, o) { assert SlidOnto(W, T, T, o, p); }
      else {
        forall x | SlidOnto(W, T, T, x, p) ensures x == o { SlidThere(W, T, mt, x, p); NoCollision(W, T, mt, x, o); }
        WasOver(W, p, o);
      }
    }
    if AnySlid(W, T, T, p) {
      var x :| SlidOnto(W, T, T, x, p);
      SlidThere(W, T, mt, x, p);
    }
  }

  lemma {:induction false} SlidThere(W: World, T: set<Mnt>, mt: Table, x: Mnt, p: Mnt)
    requires W.Tree() && Reparented(W, T, mt) && p in W.mt && SlidOnto(W, T, T, x, p)
    ensures x in mt && x !in T && mt[x].hashed && PlaceOf(mt, x) == Place(p, W.mt[p].root) && OnRoot(T, mt, p, x)
  {
    hide TreeOK, SurvivorTarget;
    assert PlaceOf(mt, x) == Due(W, T, T, x);
    assert PlaceOf(mt, p) == Due(W, T, T, p);
  }

  ghost predicate CoversOK(W: World, T: set<Mnt>, mt: Table) {
    mt.Keys == W.mt.Keys && forall p {:trigger CoverOK(W, T, mt, p)} :: p in W.mt && p !in T ==> CoverOK(W, T, mt, p)
  }

  lemma {:induction false} FramedOn(a: Table, b: Table, c: Table)
    requires Framed(a, b) && Framed(b, c)
    ensures Framed(a, c)
  {
  }

  /** Nothing attached to a mount of U stays: that those are not gone through makes no
      difference. */
  lemma {:induction false} OverAll(W: World, U: set<Mnt>, T: set<Mnt>, P: set<Mnt>, mt: Table, p: Mnt)
    requires W.Tree() && p in W.mt && p in mt && T == U + P && OverIs(W, T, P, mt, p)
    requires forall x {:trigger W.mt[x].parent} :: x in W.mt && W.mt[x].hashed && W.mt[x].parent in U ==> x in U
    ensures OverIs(W, T, T, mt, p)
  {
    hide World.Deep, TreeOK, SurvivorTarget;
    forall o ensures SlidOnto(W, T, T, o, p) <==> SlidOnto(W, T, P, o, p) {}
    hide SlidOnto;
  }

  lemma {:induction false} LoopCovers(W: World, U: set<Mnt>, T: set<Mnt>, mt: Table, s: seq<Mnt>)
    requires Victims(W, T) && Distinct(s) && T == U + (set x | x in s) && Placed(W, T, {}, Hidden(W.mt, T))
    requires forall i {:trigger s[i]} :: 0 <= i < |s| ==> s[i] in T
    requires forall x {:trigger W.mt[x].parent} :: x in W.mt && W.mt[x].hashed && W.mt[x].parent in U ==> x in U
    requires mt == ReparentLoop(W, T, {}, Hidden(W.mt, T), s) && Reparented(W, T, mt)
    ensures CoversOK(W, T, mt) && Framed(W.mt, mt)
  {
    var h := Hidden(W.mt, T);
    HiddenFramed(W.mt, T);
    LoopFramed(W, T, {}, h, s);
    FramedOn(W.mt, h, mt);
    var P := set x | x in s;
    assert {} + P == P;
    assert h.Keys == W.mt.Keys;
    hide World.Tree, World.Deep, Victims, Placed, ReparentLoop, Hidden, Reparented, Framed, CoverOK;
    forall p | p in W.mt && p !in T ensures p in mt && CoverOK(W, T, mt, p) {
      StartOver(W, T, p);
      LoopOver(W, T, {}, h, s, p);
      OverAll(W, U, T, P, mt, p);
      CoverAll(W, T, mt, p);
    }
    FramedKeys(W.mt, mt);
  }

  lemma {:induction false} FramedKeys(mt: Table, nt: Table)
    requires Framed(mt, nt)
    ensures nt.Keys == mt.Keys
  {
  }

  lemma {:induction false} StartOver(W: World, T: set<Mnt>, p: Mnt)
    requires W.Deep() && p in W.mt
    ensures p in Hidden(W.mt, T) && OverIs(W, T, {}, Hidden(W.mt, T), p)
  {
    hide World.Deep, SurvivorTarget;
  }

  /** propagate_umount() to its end: commit, then slide the survivors down.  In the
      table it leaves, every survivor has moved to its declared target, or not at
      all, the children lists are exact, what covers the root of a survivor is its
      overmount, and nothing else differs. */
  lemma {:induction false} ReparentsSurvivors(W: World, U: set<Mnt>, s: seq<Mnt>) returns (z: Run, mt: Table)
    requires W.Valid() && Doomed(W, U, s)
    ensures z == PropagateUmount(W, U, s) && Victims(W, z.umount)
    ensures Distinct(z.tou) && (forall i {:trigger z.tou[i]} :: 0 <= i < |z.tou| ==> z.tou[i] in z.umount)
    ensures Placed(W, z.umount, {}, Hidden(W.mt, z.umount))
    ensures mt == ReparentLoop(W, z.umount, {}, Hidden(W.mt, z.umount), z.tou)
    ensures Reparented(W, z.umount, mt) && ListsOK(z.umount, mt)
    ensures CoversOK(W, z.umount, mt) && Framed(W.mt, mt)
  {
    hide World.Deep, TreeOK, NonShifting, PropagateUmount, Hidden, Placed, Reparented, ListsOK, ReparentLoop;
    hide CoversOK, Framed;
    z := CommittedVictims(W, U, s);
    var T := z.umount;
    assert forall i {:trigger z.tou[i]} :: 0 <= i < |z.tou| ==> z.tou[i] in (set x | x in z.tou);
    StartPlaced(W, T);
    HiddenLists(W, T);
    LoopPlaced(W, T, {}, Hidden(W.mt, T), z.tou);
    mt := ReparentLoop(W, T, {}, Hidden(W.mt, T), z.tou);
    var P := set x | x in z.tou;
    assert {} + P == P;
    assert Placed(W, T, P, mt);
    assert T == U + P;
    AllPlaced(W, U, T, P, mt);
    LoopCovers(W, U, T, mt, z.tou);
  }
}
