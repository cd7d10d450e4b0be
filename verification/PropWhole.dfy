/** umount_tree() as a whole (kernel/mount/tla/Propagation.tla): unlock, propagate,
    slide the survivors, take the victims out of the propagation graph; and what
    UmountVictimsOK asks of the table that is left. */
module PropWhole {
  import opened MountTree
  import opened PropIterator
  import opened PropUmount
  import opened PropTrim
  import opened PropVictims
  import opened PropExpected
  import opened PropReparent
  import opened PropOver
  import opened PropPrivate
  import opened PropSegments

  // ---- moving mounts about leaves the propagation graph alone --------------------------------------

  ghost predicate SameEnds(a: Mount, b: Mount) {
    && b.ns == a.ns && b.gid == a.gid && b.shared == a.shared && b.master == a.master && b.npeer == a.npeer
    && b.slaves == a.slaves
  }

  ghost predicate SameGraph(mt: Table, nt: Table) {
    nt.Keys == mt.Keys && forall x {:trigger nt[x]} :: x in mt ==> SameEnds(mt[x], nt[x])
  }

  lemma {:induction false} SameTrans(a: Table, b: Table, c: Table)
    requires SameGraph(a, b) && SameGraph(b, c)
    ensures SameGraph(a, c)
  {
    forall x | x in a ensures SameEnds(a[x], c[x]) { assert SameEnds(a[x], b[x]) && SameEnds(b[x], c[x]); }
  }

  lemma {:induction false} MoveSame(mt: Table, p: Mnt, d: Dentry, o: Mnt)
    requires o in mt && p in mt && mt[o].parent in mt
    ensures SameGraph(mt, ChangeMountpoint(mt, p, d, o))
  {
  }

  lemma {:induction false} OneSame(W: World, T: set<Mnt>, P: set<Mnt>, mt: Table, m: Mnt)
    requires Victims(W, T) && Placed(W, T, P, mt) && m in T && m !in P
    ensures SameGraph(mt, ReparentOne(W, T, P, mt, m))
  {
    hide TreeOK, TreeDepth, NonShifting, Placed, ReparentTarget, ChangeMountpoint, SameGraph, SurvivorTarget;
    MoveReady(W, T, P, mt, m);
    var o := mt[m].over;
    if o == NO_MNT || o in T { NoMove(mt); } else {
      var t := ReparentTarget(W, T, mt, mt[o].parent, mt[o].mp);
      MoveSame(mt, t.parent, t.mp, o);
    }
  }

  lemma {:induction false} NoMove(mt: Table)
    ensures SameGraph(mt, mt)
  {
  }

  lemma {:induction false} LoopSame(W: World, T: set<Mnt>, P: set<Mnt>, mt: Table, s: seq<Mnt>)
    requires Victims(W, T) && Placed(W, T, P, mt) && Distinct(s)
    requires forall i {:trigger s[i]} :: 0 <= i < |s| ==> s[i] in T && s[i] !in P
    ensures SameGraph(mt, ReparentLoop(W, T, P, mt, s))
    decreases |s|
  {
    hide World.Tree, NonShifting, Placed, ReparentOne, SameGraph, Distinct;
    if s == [] { NoMove(mt); } else {
      LoopReady(W, T, P, mt, s);
      var z := ReparentOne(W, T, P, mt, s[0]);
      OneSame(W, T, P, mt, s[0]);
      LoopSame(W, T, P + {s[0]}, z, s[1..]);
      SameTrans(mt, z, ReparentLoop(W, T, P, mt, s));
    }
  }

  lemma {:induction false} HiddenSame(mt: Table, T: set<Mnt>)
    ensures SameGraph(mt, Hidden(mt, T))
  {
    hide Without;
  }

  lemma {:induction false} GroupSame(mt: Table, nt: Table, x: Mnt)
    requires SameGraph(mt, nt) && x in mt
    ensures PeerGroup(nt, x) == PeerGroup(mt, x)
  {
    assert SameEnds(mt[x], nt[x]);
    forall y | y in mt ensures nt[y].gid == mt[y].gid { assert SameEnds(mt[y], nt[y]); }
  }

  lemma {:induction false} SlavesSame(mt: Table, nt: Table, x: Mnt)
    requires SameGraph(mt, nt) && x in mt && SlavesOK(mt, x)
    ensures SlavesOK(nt, x)
  {
    forall y | y in mt
      ensures nt[y].master == mt[y].master && nt[y].slaves == mt[y].slaves
    { assert SameEnds(mt[y], nt[y]); }
  }

  lemma {:induction false} PeersSame(mt: Table, nt: Table, x: Mnt)
    requires SameGraph(mt, nt) && x in mt && PeersOK(mt, x)
    ensures PeersOK(nt, x)
  {
    GroupSame(mt, nt, x);
    forall y | y in mt
      ensures nt[y].master == mt[y].master && nt[y].npeer == mt[y].npeer
    { assert SameEnds(mt[y], nt[y]); }
    hide PeerGroup;
    var r :| IsRing(mt, r) && r[0] == x && forall y :: y in r <==> y in PeerGroup(mt, x);
    assert IsRing(nt, r);
  }

  /** T_SHARED goes with a group id. */
  ghost predicate SharedOK(mt: Table) {
    forall x {:trigger mt[x].shared} :: x in mt ==> (mt[x].shared <==> mt[x].gid != 0)
  }

  lemma {:induction false} ValidSame(mt: Table, nt: Table, depth: map<Mnt, nat>, T: set<Mnt>)
    requires SameGraph(mt, nt) && MasterDepth(mt, depth) && GraphOK(mt) && SharedOK(mt) && T <= mt.Keys
    ensures Graph(nt, depth, T).Valid()
  {
    hide SlavesOK, PeersOK;
    forall x | x in nt ensures SlavesOK(nt, x) { SlavesSame(mt, nt, x); }
    forall x | x in nt ensures PeersOK(nt, x) { PeersSame(mt, nt, x); }
    forall x | x in mt
      ensures nt[x].master == mt[x].master && nt[x].shared == mt[x].shared && nt[x].gid == mt[x].gid
    { assert SameEnds(mt[x], nt[x]); }
  }

  lemma {:induction false} DestSame(mt: Table, nt: Table, depth: map<Mnt, nat>, T: set<Mnt>, v: Mnt)
    requires SameGraph(mt, nt) && MasterDepth(mt, depth) && MasterDepth(nt, depth) && v in mt
    ensures v in nt && Dest(Graph(nt, depth, T), v) == Dest(Graph(mt, depth, T), v)
    decreases depth[v]
  {
    hide PeerGroup;
    GroupSame(mt, nt, v);
    assert SameEnds(mt[v], nt[v]);
    if mt[v].master != NO_MNT { DestSame(mt, nt, depth, T, mt[v].master); }
  }

  lemma {:induction false} SegmentsSame(mt: Table, nt: Table)
    requires SameGraph(mt, nt) && Segments(mt) && GraphOK(mt)
    ensures Segments(nt)
  {
    hide SlavesOK, PeersOK, Blocks;
    forall m | m in nt ensures Blocks(nt, nt[m].slaves) {
      assert SameEnds(mt[m], nt[m]);
      BlocksSame(mt, nt, mt[m].slaves);
    }
  }

  lemma {:induction false} BlocksSame(mt: Table, nt: Table, s: seq<Mnt>)
    requires SameGraph(mt, nt) && Blocks(mt, s)
    ensures Blocks(nt, s)
  {
    forall x, y ensures InGroup(nt, x, y) <==> InGroup(mt, x, y) {
      assert x in mt ==> SameEnds(mt[x], nt[x]);
      assert y in mt ==> SameEnds(mt[y], nt[y]);
    }
    hide InGroup, SameGraph;
  }

  // ---- what is left ---------------------------------------------------------------------------------

  /** One mount before and after an umount that took out T: a victim is private; a
      survivor is where it was, or at its target, with its group, and with a master
      among the destinations of the one it lost. */
  ghost predicate UmountOK(W: World, T: set<Mnt>, mt: Table, x: Mnt)
    requires W.Tree() && MasterDepth(W.mt, W.depth) && x in W.mt && x in mt
  {
    var a, b := W.mt[x], mt[x];
    if x in T then b.gid == 0 && !b.shared && b.master == NO_MNT && b.slaves == [] && b.npeer == x
    else
      && b.hashed == a.hashed && b.root == a.root
      && PlaceOf(mt, x) == (if Slides(W, T, x) then SurvivorTarget(W, T, a.parent, a.mp) else PlaceOf(W.mt, x))
      && b.gid == a.gid && b.shared == a.shared
      && (if a.master in T && a.master in W.mt then b.master in Dest(Graph(W.mt, W.depth, T), a.master)
            else b.master == a.master)
  }

  /** All of them; and the children lists of survivors and the propagation graph are in
      order again. */
  ghost predicate UmountVictimsOK(W: World, T: set<Mnt>, mt: Table)
    requires W.Tree() && MasterDepth(W.mt, W.depth)
  {
    && mt.Keys == W.mt.Keys && ListsOK(T, mt) && GraphOK(mt)
    && forall x {:trigger UmountOK(W, T, mt, x)} :: x in W.mt ==> UmountOK(W, T, mt, x)
  }

  lemma {:induction false} WholeMount(W: World, T: set<Mnt>, nt: Table, mt: Table, x: Mnt)
    requires W.Tree() && MasterDepth(W.mt, W.depth) && MasterDepth(nt, W.depth) && T <= W.mt.Keys && SameGraph(W.mt, nt)
    requires x in W.mt && x in mt
    requires PrivateOK(Graph(nt, W.depth, T), mt, x)
    requires PlaceOf(nt, x) == Due(W, T, T, x) && nt[x].hashed == W.mt[x].hashed && nt[x].root == W.mt[x].root
    ensures UmountOK(W, T, mt, x)
  {
    hide World.Tree, MasterDepth, Dest, SurvivorTarget;
    assert SameEnds(W.mt[x], nt[x]);
    if W.mt[x].master in W.mt { DestSame(W.mt, nt, W.depth, T, W.mt[x].master); }
  }

  /** Only the graph changes in bulk_make_private(). */
  lemma {:induction false} ListsSame(T: set<Mnt>, nt: Table, mt: Table)
    requires ListsOK(T, nt) && mt.Keys == nt.Keys
    requires forall x {:trigger mt[x]} :: x in nt ==> SamePlace(nt[x], mt[x])
    ensures ListsOK(T, mt)
  {
    forall p | p in mt ensures ListOK(T, mt, p) {
      assert ListOK(T, nt, p);
      forall c: Mnt ensures IsChild(mt, p, c) <==> IsChild(nt, p, c) {}
    }
  }

  /** All but the propagation graph. */
  ghost predicate SamePlace(a: Mount, b: Mount) {
    b == a.(gid := b.gid, shared := b.shared, master := b.master, npeer := b.npeer, slaves := b.slaves)
  }

  lemma {:induction false} PrivateRest(G: Graph, mt: Table, x: Mnt)
    requires MasterDepth(G.mt, G.depth) && x in G.mt && x in mt && G.T <= G.mt.Keys && PrivateOK(G, mt, x)
    ensures SamePlace(G.mt[x], mt[x])
  {
    hide Dest;
  }

  /** ... so the overmounts stay right. */
  lemma {:induction false} CoversSame(W: World, T: set<Mnt>, nt: Table, mt: Table)
    requires CoversOK(W, T, nt) && mt.Keys == nt.Keys
    requires forall x {:trigger mt[x]} :: x in nt ==> SamePlace(nt[x], mt[x])
    ensures CoversOK(W, T, mt)
  {
    forall p | p in W.mt && p !in T ensures CoverOK(W, T, mt, p) {
      assert CoverOK(W, T, nt, p);
      forall o: Mnt ensures OnRoot(T, mt, p, o) <==> OnRoot(T, nt, p, o) {}
      hide OnRoot;
    }
  }

  /** What no part of umount_tree() writes up to there: the namespace, the lock, the
      root, and that a mount is hashed. */
  ghost predicate Untouched(mt: Table, nt: Table) {
    && nt.Keys == mt.Keys
    && forall x {:trigger nt[x]} :: x in mt ==>
         && nt[x].ns == mt[x].ns && nt[x].locked == mt[x].locked && nt[x].root == mt[x].root
         && nt[x].hashed == mt[x].hashed
  }

  lemma {:induction false} UntouchedWhole(mt: Table, nt: Table, zt: Table)
    requires Framed(mt, nt) && zt.Keys == nt.Keys && forall x {:trigger zt[x]} :: x in nt ==> SamePlace(nt[x], zt[x])
    ensures Untouched(mt, zt)
  {
  }

  lemma {:induction false} WholeOK(W: World, T: set<Mnt>, nt: Table, s: seq<Mnt>)
    requires W.Valid() && T <= W.mt.Keys && SameGraph(W.mt, nt) && Reparented(W, T, nt) && ListsOK(T, nt)
    requires Graph(nt, W.depth, T).Valid() && Lists(Graph(nt, W.depth, T), s)
    requires CoversOK(W, T, nt) && Framed(W.mt, nt)
    ensures var mt := BulkMakePrivate(Graph(nt, W.depth, T), s);
            UmountVictimsOK(W, T, mt) && CoversOK(W, T, mt) && Untouched(W.mt, mt)
  {
    hide CoversOK, Framed, Untouched, SamePlace;
    hide World.Tree, SameGraph, GraphOK, MasterDepth, ListsOK, BulkMakePrivate, PrivateOK, UmountOK;
    hide Lists, SendersInNs, Due;
    var G := Graph(nt, W.depth, T);
    MakesPrivate(G, s);
    var mt := BulkMakePrivate(G, s);
    forall x | x in nt ensures SamePlace(nt[x], mt[x]) {
      assert PrivateOK(G, mt, x);
      PrivateRest(G, mt, x);
    }
    CoversSame(W, T, nt, mt);
    UntouchedWhole(W.mt, nt, mt);
    ListsSame(T, nt, mt);
    forall x | x in W.mt ensures UmountOK(W, T, mt, x) {
      assert PrivateOK(G, mt, x);
      assert PlaceOf(nt, x) == Due(W, T, T, x);
      WholeMount(W, T, nt, mt, x);
    }
  }

  lemma {:induction false} VictimList(U: set<Mnt>, s: seq<Mnt>, z: Run, G: Graph)
    requires Distinct(s) && (forall x :: x in s <==> x in U) && Distinct(z.tou) && (forall x :: x in z.tou ==> x !in U)
    requires G.T == U + (set x | x in z.tou)
    ensures Lists(G, s + z.tou)
  {
    var t := s + z.tou;
    forall i, j | 0 <= i < j < |t| ensures t[i] != t[j] {
      if i < |s| <= j { assert t[i] in s && t[j] in z.tou; }
    }
    forall x ensures x in t <==> x in G.T {}
    forall i | 0 <= i < |t| ensures t[i] in G.T { assert t[i] in t; }
  }

  /** propagate_umount() of a set that can go, then bulk_make_private() of everything it
      took out: exactly the declared victims go, and the table left is as
      UmountVictimsOK says. */
  lemma {:induction false} TakesVictims(W: World, U: set<Mnt>, s: seq<Mnt>) returns (z: Run, nt: Table, mt: Table)
    requires W.Valid() && Doomed(W, U, s) && Distinct(s) && SharedOK(W.mt)
    ensures z == PropagateUmount(W, U, s) && z.umount == MaxNonRevealing(W.mt, MaxNonShifting(W, U + Cognates(W.mt, U)))
    ensures Victims(W, z.umount) && Distinct(z.tou)
    ensures forall i {:trigger z.tou[i]} :: 0 <= i < |z.tou| ==> z.tou[i] in z.umount
    ensures Placed(W, z.umount, {}, Hidden(W.mt, z.umount))
    ensures nt == ReparentLoop(W, z.umount, {}, Hidden(W.mt, z.umount), z.tou)
    ensures var G := Graph(nt, W.depth, z.umount);
            G.Valid() && Lists(G, s + z.tou) && mt == BulkMakePrivate(G, s + z.tou)
    ensures UmountVictimsOK(W, z.umount, mt) && (Segments(W.mt) ==> Segments(mt))
    ensures CoversOK(W, z.umount, mt) && Untouched(W.mt, mt)
  {
    hide Segments, World.Tree, NonShifting, PropagateUmount, Hidden, Placed, Reparented, ListsOK, ReparentLoop,
        BulkMakePrivate, MaxNonRevealing, MaxNonShifting, Cognates,
      GraphOK, MasterDepth, SameGraph, UmountVictimsOK, Lists, SharedOK, SendersInNs;
    z, nt := ReparentsSurvivors(W, U, s);
    CommitsVictims(W, U, s);
    var T := z.umount;
    HiddenSame(W.mt, T);
    LoopSame(W, T, {}, Hidden(W.mt, T), z.tou);
    SameTrans(W.mt, Hidden(W.mt, T), nt);
    ValidSame(W.mt, nt, W.depth, T);
    var G := Graph(nt, W.depth, T);
    VictimList(U, s, z, G);
    mt := BulkMakePrivate(G, s + z.tou);
    WholeOK(W, T, nt, s + z.tou);
    if Segments(W.mt) {
      SegmentsSame(W.mt, nt);
      KeepsSegments(G, s + z.tou);
    }
  }

  lemma {:induction false} UnlockShared(W: World, m: Mnt)
    requires SharedOK(W.mt)
    ensures SharedOK(MountUnlock(W, m).mt) && SameGraph(W.mt, MountUnlock(W, m).mt)
  {
    hide CognatesOf;
  }

  /** umount_tree() of the tree below a hashed mount that is not locked: its cognates are
      unlocked, propagation takes exactly ExpectedVictims, the survivors among them are
      reparented, everything taken out is made private, and the table this leaves is as
      UmountVictimsOK says, with peers still together on their master's list. */
  lemma {:induction false} UmountTreeOK(W: World, m: Mnt, s: seq<Mnt>) returns (z: Run, nt: Table, mt: Table)
    requires W.Valid() && SharedOK(W.mt) && m in W.mt && W.mt[m].hashed && !W.mt[m].locked
    requires MountUnlock(W, m).Tree() && Distinct(s) && forall x :: x in s <==> x in Subtree(MountUnlock(W, m), m)
    ensures var Z, T := MountUnlock(W, m), ExpectedVictims(W, m);
            && Z.Valid() && Doomed(Z, Subtree(Z, m), s)
            && z == PropagateUmount(Z, Subtree(Z, m), s) && z.umount == T && Victims(Z, T)
            && Distinct(z.tou) && (forall i {:trigger z.tou[i]} :: 0 <= i < |z.tou| ==> z.tou[i] in T)
    ensures var Z, T := MountUnlock(W, m), ExpectedVictims(W, m);
            && Placed(Z, T, {}, Hidden(Z.mt, T))
            && nt == ReparentLoop(Z, T, {}, Hidden(Z.mt, T), z.tou)
    ensures var Z, T := MountUnlock(W, m), ExpectedVictims(W, m);
            var G := Graph(nt, Z.depth, T);
            && G.Valid() && Lists(G, s + z.tou)
            && mt == BulkMakePrivate(G, s + z.tou)
            && UmountVictimsOK(Z, T, mt) && CoversOK(Z, T, mt) && Untouched(Z.mt, mt)
    ensures Segments(W.mt) ==> Segments(mt)
  {
    hide Segments, GraphOK, SameGraph, World.Tree, Bounded, PropagateUmount, Subtree, MaxNonRevealing, MaxNonShifting;
    hide Cognates, Victims, Placed, ReparentLoop, Hidden, BulkMakePrivate, Lists, UmountVictimsOK, SharedOK;
    hide MountUnlock, Doomed, CoversOK, Untouched;
    UmountTakesExpected(W, m, s);
    UnlockShared(W, m);
    var Z := MountUnlock(W, m);
    z, nt, mt := TakesVictims(Z, Subtree(Z, m), s);
    if Segments(W.mt) {
      assert GraphOK(W.mt) by { ValidGraph(W); }
      SegmentsSame(W.mt, Z.mt);
    }
  }

  lemma {:induction false} ValidGraph(W: World)
    requires W.Valid()
    ensures GraphOK(W.mt)
  {
    hide GraphOK, World.Tree;
  }
}
