/** umount(2) of a tree: propagate_mount_unlock() first, then propagate_umount().
    Unlocking changes nothing the propagation graph or the tree is made of. */
module PropExpected {
  import opened Finite
  import opened MountTree
  import opened PropIterator
  import opened PropUmount
  import opened PropGather
  import opened PropVictims

  /** The cognates of one mount. */
  ghost function CognatesOf(mt: Table, m: Mnt): (r: set<Mnt>) { set c | c in mt && Cognate(mt, m, c) }

  /** propagate_mount_unlock(): the cognates of m lose MNT_LOCKED. */
  ghost function MountUnlock(W: World, m: Mnt): (Z: World) {
    var S := CognatesOf(W.mt, m);
    W.(mt := map x | x in W.mt :: if x in S then W.mt[x].(locked := false) else W.mt[x])
  }

  /** The same mounts but for the locks. */
  ghost predicate Alike(mt: Table, nt: Table) {
    nt.Keys == mt.Keys && forall x {:trigger nt[x]} :: x in mt ==> nt[x] == mt[x].(locked := nt[x].locked)
  }

  lemma {:induction false} UnlockAlike(W: World, m: Mnt)
    ensures Alike(W.mt, MountUnlock(W, m).mt)
  {
  }

  lemma {:induction false} SlavesAlike(mt: Table, nt: Table, x: Mnt)
    requires Alike(mt, nt) && x in mt && SlavesOK(mt, x)
    ensures SlavesOK(nt, x)
  {
  }

  lemma {:induction false} PeersAlike(mt: Table, nt: Table, x: Mnt)
    requires Alike(mt, nt) && x in mt && PeersOK(mt, x)
    ensures PeersOK(nt, x)
  {
    var r :| IsRing(mt, r) && r[0] == x && forall y :: y in r <==> y in PeerGroup(mt, x);
    assert PeerGroup(nt, x) == PeerGroup(mt, x);
    assert IsRing(nt, r);
  }

  lemma {:induction false} GraphAlike(mt: Table, nt: Table)
    requires Alike(mt, nt) && GraphOK(mt)
    ensures GraphOK(nt)
  {
    hide SlavesOK, PeersOK;
    forall x | x in nt ensures SlavesOK(nt, x) { SlavesAlike(mt, nt, x); }
    forall x | x in nt ensures PeersOK(nt, x) { PeersAlike(mt, nt, x); }
  }

  lemma {:induction false} LookupAlike(mt: Table, nt: Table, q: Mnt, d: Dentry)
    requires Alike(mt, nt) && OnePerPlace(mt)
    ensures Lookup(nt, q, d) == Lookup(mt, q, d)
  {
    var x, y := Lookup(mt, q, d), Lookup(nt, q, d);
    assert x != NO_MNT ==> At(mt, q, d, x) && At(nt, q, d, x);
    assert y != NO_MNT ==> At(nt, q, d, y) && At(mt, q, d, y);
  }

  lemma {:induction false} ChildrenAlike(mt: Table, nt: Table, p: Mnt)
    requires Alike(mt, nt) && OnePerPlace(mt) && p in mt && ChildrenOK(mt, p)
    ensures ChildrenOK(nt, p)
  {
    hide Lookup;
    LookupAlike(mt, nt, p, mt[p].root);
    forall c: Mnt
      ensures c in nt[p].children <==> IsChild(nt, p, c)
    { assert c in mt[p].children <==> IsChild(mt, p, c); }
  }

  lemma {:induction false} TreeAlike(mt: Table, nt: Table)
    requires Alike(mt, nt) && TreeOK(mt)
    ensures TreeOK(nt)
  {
    hide ChildrenOK;
    forall p | p in nt ensures ChildrenOK(nt, p) { assert ChildrenOK(mt, p); ChildrenAlike(mt, nt, p); }
  }

  lemma {:induction false} UnlockValid(W: World, m: Mnt)
    requires W.Valid()
    ensures MountUnlock(W, m).Valid()
  {
    hide GraphOK, TreeOK, TreeDepth, MasterDepth;
    var Z := MountUnlock(W, m);
    UnlockAlike(W, m);
    GraphAlike(W.mt, Z.mt);
    TreeAlike(W.mt, Z.mt);
    DepthAlike(W.mt, Z.mt, W.depth, W.td);
  }

  lemma {:induction false} DepthAlike(mt: Table, nt: Table, depth: map<Mnt, nat>, td: map<Mnt, nat>)
    requires Alike(mt, nt) && MasterDepth(mt, depth) && TreeDepth(mt, td)
    ensures MasterDepth(nt, depth) && TreeDepth(nt, td)
  {
  }

  /** What has to go when the tree at m is unmounted. */
  ghost function ExpectedVictims(W: World, m: Mnt): (T: set<Mnt>)
    requires MountUnlock(W, m).Tree()
  {
    var Z := MountUnlock(W, m);
    MaxNonRevealing(Z.mt, MaxNonShifting(Z, Subtree(Z, m) + Cognates(Z.mt, Subtree(Z, m))))
  }

  /** umount_tree() of the tree below a hashed mount that is not locked: unlock the
      cognates, hide the tree, propagate.  Exactly the expected victims go, the
      tree itself among them. */
  lemma {:induction false} UmountTakesExpected(W: World, m: Mnt, s: seq<Mnt>)
    requires W.Valid() && m in W.mt && W.mt[m].hashed && !W.mt[m].locked
    requires MountUnlock(W, m).Tree() && forall x :: x in s <==> x in Subtree(MountUnlock(W, m), m)
    ensures var Z := MountUnlock(W, m);
      && Z.Valid() && Doomed(Z, Subtree(Z, m), s)
      && PropagateUmount(Z, Subtree(Z, m), s).umount == ExpectedVictims(W, m) && Subtree(Z, m) <= ExpectedVictims(W, m)
  {
    hide World.Tree, Bounded, PropagateUmount, Subtree, MaxNonRevealing, MaxNonShifting, Cognates, CognatesOf;
    UnlockValid(W, m);
    UnlockAlike(W, m);
    var Z := MountUnlock(W, m);
    assert Z.mt[m].hashed && !Z.mt[m].locked;
    hide MountUnlock;
    SubtreeDoomed(Z, m, s);
    CommitsVictims(Z, Subtree(Z, m), s);
  }

  /** propagate_mount_unlock() walks the receivers, so what it unlocks are the cognates. */
  lemma {:induction false} UnlockedByWalk(W: World, m: Mnt, c: Mnt) returns (w: seq<Mnt>)
    requires W.Valid() && m in W.mt && W.mt[m].parent in W.mt && c in W.mt
    ensures IsWalk(W.mt, W.depth, W.mt[m].parent, PropagationNext(W.mt, W.depth, W.mt[m].parent, W.mt[m].parent), w)
    ensures c in CognatesOf(W.mt, m) <==> exists q :: q in w && Lookup(W.mt, q, W.mt[m].mp) == c
  {
    hide GraphOK, World.Tree, Lookup, RecvSet, MasterDepth;
    var p := W.mt[m].parent;
    w := IteratesReceivers(W.mt, W.depth, p);
    WalkIn(W.mt, W.depth, p, PropagationNext(W.mt, W.depth, p, p), w);
    hide IsWalk, PropagationNext;
    RecvIn(W.mt, p);
    forall q ensures q in w <==> q in RecvSet(W.mt, p) { assert q in w <==> multiset(w)[q] > 0; }
  }

  lemma {:induction false} RecvIn(mt: Table, p: Mnt)
    requires p in mt
    ensures RecvSet(mt, p) <= mt.Keys
  {
    hide RecvClosure;
  }

  lemma {:induction false} WalkIn(mt: Table, depth: map<Mnt, nat>, o: Mnt, q: Mnt, w: seq<Mnt>)
    requires MasterDepth(mt, depth) && o in mt && IsWalk(mt, depth, o, q, w)
    ensures forall x :: x in w ==> x in mt
    decreases |w|
  {
    hide PropagationNext, MasterDepth;
    if q != NO_MNT {
      WalkIn(mt, depth, o, PropagationNext(mt, depth, q, o), w[1..]);
      assert w == [w[0]] + w[1..];
    }
  }

  /** Field by field, what propagate_mount_unlock() does: it unlocks the hashed mounts
      that are, on a mount that receives from m's parent, where m is on its own, and
      writes nothing else. */
  lemma {:induction false} UnlockClears(W: World, m: Mnt, x: Mnt)
    requires W.Tree() && m in W.mt && W.mt[m].parent in W.mt && x in W.mt
    ensures MountUnlock(W, m).mt.Keys == W.mt.Keys && MountUnlock(W, m) == W.(mt := MountUnlock(W, m).mt)
    ensures MountUnlock(W, m).mt[x] == W.mt[x].(locked := MountUnlock(W, m).mt[x].locked)
    ensures MountUnlock(W, m).mt[x].locked
        <==> && W.mt[x].locked
             && !(W.mt[x].hashed && W.mt[x].mp == W.mt[m].mp && W.mt[x].parent in RecvSet(W.mt, W.mt[m].parent))
  {
    hide RecvSet, TreeDepth, ChildrenOK;
    if W.mt[x].hashed {
      var y := Lookup(W.mt, W.mt[x].parent, W.mt[x].mp);
      assert At(W.mt, W.mt[x].parent, W.mt[x].mp, x);
      assert y == x;
    }
    if Cognate(W.mt, m, x) {
      var q :| q in RecvSet(W.mt, W.mt[m].parent) && Lookup(W.mt, q, W.mt[m].mp) == x;
    }
  }
}
