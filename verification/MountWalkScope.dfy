/** Where a walk can get to: never above its root, whatever the program; and one name
    down and ".." is back where one was. */
module MountWalkScope {
  import opened MountWalk
  import opened MountWalkProof
  import opened MountWalkUnchecked

  // ---- up in one filesystem ---------------------------------------------------------------

  lemma {:induction false} UpByLevel(sys: Sys, d: Dentry, n: nat)
    requires sys.Forest()
    ensures sys.level(UpBy(sys, d, n)) <= sys.level(d)
    ensures sys.level(UpBy(sys, d, n)) == sys.level(d) ==> UpBy(sys, d, n) == d
    decreases n
  {
    if n > 0 {
      UpByLevel(sys, sys.up(d), n - 1);
      if sys.up(d) == d { UpBySame(sys, d, n); }
    }
  }

  lemma {:induction false} UpBySame(sys: Sys, d: Dentry, n: nat)
    requires sys.up(d) == d
    ensures UpBy(sys, d, n) == d
    decreases n
  {
    if n > 0 { UpBySame(sys, d, n - 1); }
  }

  /** Neither of two dentries can be strictly above the other. */
  lemma {:induction false} UnderBoth(sys: Sys, d: Dentry, a: Dentry)
    requires sys.Forest() && UnderD(sys, d, a) && UnderD(sys, a, d)
    ensures d == a
  {
    var n: nat :| UpBy(sys, d, n) == a;
    var m: nat :| UpBy(sys, a, m) == d;
    UpByLevel(sys, d, n);
    UpByLevel(sys, a, m);
  }

  lemma {:induction false} UnderStep(sys: Sys, d: Dentry, a: Dentry)
    requires UnderD(sys, d, a)
    ensures d == a || UnderD(sys, sys.up(d), a)
  {
    var n: nat :| UpBy(sys, d, n) == a;
    if d != a { assert UpBy(sys, sys.up(d), n - 1) == a; }
  }

  lemma {:induction false} UnderChild(sys: Sys, d: Dentry, a: Dentry)
    requires UnderD(sys, sys.up(d), a)
    ensures UnderD(sys, d, a)
  {
    var n: nat :| UpBy(sys, sys.up(d), n) == a;
    assert UpBy(sys, d, n + 1) == a;
  }

  lemma {:induction false} UnderSelf(sys: Sys, d: Dentry)
    ensures UnderD(sys, d, d)
  {
    assert UpBy(sys, d, 0) == d;
  }

  // ---- up over mounts -------------------------------------------------------------------------

  /** Which dentry it is matters in the root's own mount only. */
  lemma {:induction false} UnderAnyD(sys: Sys, mt: Table, pos: Pos, d: Dentry, root: Pos)
    requires Under(sys, mt, pos, root) && pos.mnt != root.mnt
    ensures Under(sys, mt, Pos(pos.mnt, d), root)
  {
    var n: nat :| UnderIn(sys, mt, pos, root, n);
    assert UnderIn(sys, mt, Pos(pos.mnt, d), root, n);
  }

  lemma {:induction false} UnderHere(sys: Sys, mt: Table, pos: Pos, root: Pos)
    requires pos.mnt == root.mnt
    ensures Under(sys, mt, pos, root) <==> UnderD(sys, pos.d, root.d)
  {
    hide UnderD;
    if UnderD(sys, pos.d, root.d) { assert UnderIn(sys, mt, pos, root, 0); }
  }

  /** From a mount that is not the root's one goes on at its mountpoint. */
  lemma {:induction false} UnderParent(sys: Sys, mt: Table, pos: Pos, root: Pos)
    requires pos.mnt != root.mnt
    ensures Under(sys, mt, pos, root)
        <==> && pos.mnt in mt && mt[pos.mnt].parent != pos.mnt
             && Under(sys, mt, Pos(mt[pos.mnt].parent, mt[pos.mnt].mp), root)
  {
    hide UnderD;
    if Under(sys, mt, pos, root) {
      var n: nat :| UnderIn(sys, mt, pos, root, n);
      assert UnderIn(sys, mt, Pos(mt[pos.mnt].parent, mt[pos.mnt].mp), root, n - 1);
    }
    if pos.mnt in mt && mt[pos.mnt].parent != pos.mnt && Under(sys, mt, Pos(mt[pos.mnt].parent, mt[pos.mnt].mp), root) {
      var n: nat :| UnderIn(sys, mt, Pos(mt[pos.mnt].parent, mt[pos.mnt].mp), root, n);
      assert UnderIn(sys, mt, pos, root, n + 1);
    }
  }

  /** Up in a mount, but not past the root. */
  lemma {:induction false} UnderUp(sys: Sys, mt: Table, pos: Pos, root: Pos)
    requires Under(sys, mt, pos, root) && pos != root
    ensures Under(sys, mt, Pos(pos.mnt, sys.up(pos.d)), root)
  {
    hide Under, UnderD;
    if pos.mnt == root.mnt {
      UnderHere(sys, mt, pos, root);
      UnderStep(sys, pos.d, root.d);
      UnderHere(sys, mt, Pos(pos.mnt, sys.up(pos.d)), root);
    } else {
      UnderAnyD(sys, mt, pos, sys.up(pos.d), root);
    }
  }

  lemma {:induction false} UnderDown(sys: Sys, mt: Table, pos: Pos, c: Dentry, root: Pos)
    requires Under(sys, mt, pos, root) && sys.up(c) == pos.d
    ensures Under(sys, mt, Pos(pos.mnt, c), root)
  {
    hide Under, UnderD;
    if pos.mnt == root.mnt {
      UnderHere(sys, mt, pos, root);
      UnderChild(sys, c, root.d);
      UnderHere(sys, mt, Pos(pos.mnt, c), root);
    } else {
      UnderAnyD(sys, mt, pos, c, root);
    }
  }

  /** At its mount's root the walk's root is met. */
  lemma {:induction false} RootMet(sys: Sys, mt: Table, d: Dentry, root: Pos)
    requires sys.Forest() && RootIn(sys, mt, root) && Under(sys, mt, Pos(root.mnt, d), root) && d == mt[root.mnt].root
    ensures d == root.d
  {
    hide Under, UnderD;
    UnderHere(sys, mt, Pos(root.mnt, d), root);
    UnderBoth(sys, d, root.d);
  }

  lemma {:induction false} ClimbUnder(sys: Sys, mt: Table, m: Mnt, root: Pos, c: Climbed, n: nat)
    requires sys.Forest() && RootIn(sys, mt, root) && m != root.mnt && ClimbIn(mt, m, root, c, n)
    requires Under(sys, mt, Pos(m, mt[m].root), root)
    ensures c.found ==> Under(sys, mt, Pos(c.mnt, sys.up(c.d)), root)
    decreases n
  {
    hide Under, UnderD;
    var p, mp := mt[m].parent, mt[m].mp;
    UnderParent(sys, mt, Pos(m, mt[m].root), root);
    if p == m || (p == root.mnt && mp == root.d) {
    } else if mp != mt[p].root {
      UnderUp(sys, mt, Pos(p, mp), root);
    } else {
      if p == root.mnt { RootMet(sys, mt, mp, root); }
      ClimbUnder(sys, mt, p, root, c, n - 1);
    }
  }

  /** ".." does not leave the walk's root. */
  lemma {:induction false} DotDotUnder(sys: Sys, mt: Table, pos: Pos, root: Pos, q: Pos)
    requires sys.Forest() && RootIn(sys, mt, root) && Under(sys, mt, pos, root) && DotDot(sys, mt, pos, root, q)
    ensures Under(sys, mt, q, root)
  {
    hide Under, UnderD, RootIn, ClimbIn;
    if pos != root {
      if AtRoot(mt, pos) {
        if pos.mnt == root.mnt { RootMet(sys, mt, pos.d, root); }
        var c :| Climb(mt, pos.mnt, root, c) && q == if c.found then Pos(c.mnt, sys.up(c.d)) else pos;
        var n: nat :| ClimbIn(mt, pos.mnt, root, c, n);
        ClimbUnder(sys, mt, pos.mnt, root, c, n);
      } else {
        UnderUp(sys, mt, pos, root);
      }
    }
  }

  // ---- no mount above itself --------------------------------------------------------------------

  /** How many mounts up x is from one that is its own parent. */
  ghost function Height(mt: Table, x: Mnt, n: nat): (h: nat)
    requires Rooted(mt, x, n)
    decreases n
  {
    if mt[x].parent == x then 0 else 1 + Height(mt, mt[x].parent, n - 1)
  }

  lemma {:induction false} HeightOnce(mt: Table, x: Mnt, n: nat, m: nat)
    requires Rooted(mt, x, n) && Rooted(mt, x, m)
    ensures Height(mt, x, n) == Height(mt, x, m)
    decreases n
  {
    if mt[x].parent != x { HeightOnce(mt, mt[x].parent, n - 1, m - 1); }
  }

  lemma {:induction false} RootedMore(mt: Table, x: Mnt, n: nat, m: nat)
    requires Rooted(mt, x, n) && n <= m
    ensures Rooted(mt, x, m)
    decreases n
  {
    if mt[x].parent != x { RootedMore(mt, mt[x].parent, n - 1, m - 1); }
  }

  /** Going up to the root's mount one does not get higher than one was. */
  lemma {:induction false} UnderHigher(sys: Sys, mt: Table, pos: Pos, root: Pos, k: nat, n: nat)
    requires UnderIn(sys, mt, pos, root, k) && Rooted(mt, pos.mnt, n)
    ensures Rooted(mt, root.mnt, n) && Height(mt, root.mnt, n) <= Height(mt, pos.mnt, n)
    decreases k
  {
    hide UnderD;
    if pos.mnt != root.mnt {
      var p := mt[pos.mnt].parent;
      UnderHigher(sys, mt, Pos(p, mt[pos.mnt].mp), root, k - 1, n - 1);
      RootedMore(mt, root.mnt, n - 1, n);
      HeightOnce(mt, root.mnt, n - 1, n);
    }
  }

  /** Crossing what is mounted does not leave the root either. */
  lemma {:induction false} CrossUnder(sys: Sys, mt: Table, m: Mnt, d: Dentry, root: Pos, q: Pos, n: nat)
    requires Under(sys, mt, Pos(m, d), root) && CrossIn(mt, m, d, q, n)
    requires forall x {:trigger Attached(mt, x)} :: x in mt ==> Attached(mt, x)
    ensures Under(sys, mt, q, root)
    decreases n
  {
    hide Under, UnderD, LookupMnt, Attached, Rooted;
    var o := LookupMnt(mt, m, d);
    if o != NO_MNT {
      HopUnder(sys, mt, m, d, root, o);
      CrossUnder(sys, mt, o, mt[o].root, root, q, n - 1);
    }
  }

  lemma {:induction false} HopUnder(sys: Sys, mt: Table, m: Mnt, d: Dentry, root: Pos, o: Mnt)
    requires Under(sys, mt, Pos(m, d), root) && On(mt, m, d, o) && Attached(mt, o)
    ensures o != root.mnt && Under(sys, mt, Pos(o, mt[o].root), root)
  {
    hide UnderD;
    var n: nat :| Rooted(mt, o, n);
    var k: nat :| UnderIn(sys, mt, Pos(m, d), root, k);
    UnderHigher(sys, mt, Pos(m, d), root, k, n - 1);
    if o == root.mnt {
      HeightOnce(mt, o, n - 1, n);
    }
    hide Under;
    UnderParent(sys, mt, Pos(o, mt[o].root), root);
  }

  // ---- the locked walk stays below its root --------------------------------------------------------

  ghost predicate AllAttached(mt: Table) { forall x {:trigger Attached(mt, x)} :: x in mt ==> Attached(mt, x) }

  /** What the tree must be for a walk's root to hold it. */
  ghost predicate Scoped(sys: Sys, mt: Table, root: Pos) { sys.Forest() && RootIn(sys, mt, root) && AllAttached(mt) }

  /** Every position the locked walk of any program ends at is below the walk's root. */
  lemma {:induction false} ResolveUnder(sys: Sys, mt: Table, prog: seq<Comp>, pos: Pos, root: Pos, q: Pos)
    requires Scoped(sys, mt, root) && Under(sys, mt, pos, root) && Resolve(sys, mt, prog, pos, root, Got(q))
    ensures Under(sys, mt, q, root)
    decreases |prog|
  {
    hide Under, UnderD, DotDot, Cross, RootIn, Attached;
    if prog != [] {
      match prog[0]
      case Up =>
        var p :| DotDot(sys, mt, pos, root, p) && Resolve(sys, mt, prog[1..], p, root, Got(q));
        DotDotUnder(sys, mt, pos, root, p);
        ResolveUnder(sys, mt, prog[1..], p, root, q);
      case Name(n) =>
        var c := sys.child(pos.d, n).d;
        var p :| Cross(mt, pos.mnt, c, p) && Resolve(sys, mt, prog[1..], p, root, Got(q));
        UnderDown(sys, mt, pos, c, root);
        CrossesUnder(sys, mt, pos.mnt, c, root, p);
        ResolveUnder(sys, mt, prog[1..], p, root, q);
    }
  }

  lemma {:induction false} CrossesUnder(sys: Sys, mt: Table, m: Mnt, d: Dentry, root: Pos, q: Pos)
    requires Scoped(sys, mt, root) && Under(sys, mt, Pos(m, d), root) && Cross(mt, m, d, q)
    ensures Under(sys, mt, q, root)
  {
    hide Under, CrossIn, RootIn, Attached;
    var n: nat :| CrossIn(mt, m, d, q, n);
    CrossUnder(sys, mt, m, d, root, q, n);
  }

  // ---- one name down and up again --------------------------------------------------------------------

  /** A child of a place in a mount is not the mount's root, nor the walk's. */
  lemma {:induction false} ChildIsNoRoot(sys: Sys, mt: Table, pos: Pos, n: nat, root: Pos)
    requires sys.Forest() && RootIn(sys, mt, pos) && Under(sys, mt, pos, root) && sys.child(pos.d, n).D?
    ensures sys.child(pos.d, n).d != mt[pos.mnt].root && Pos(pos.mnt, sys.child(pos.d, n).d) != root
  {
    hide Under, UnderD;
    var c := sys.child(pos.d, n).d;
    UnderSelf(sys, pos.d);
    UnderChild(sys, c, pos.d);
    if c == mt[pos.mnt].root { UnderBoth(sys, pos.d, c); }
    if Pos(pos.mnt, c) == root {
      UnderHere(sys, mt, pos, root);
      UnderBoth(sys, pos.d, c);
    }
  }

  /** Climbing from the top of a stack of mounts goes over all of them. */
  lemma {:induction false} ClimbBack(sys: Sys, mt: Table, o: Mnt, root: Pos, q: Pos, c: Climbed, j: nat)
    requires AllAttached(mt) && o in mt && o != root.mnt && Under(sys, mt, Pos(o, mt[o].root), root)
    requires CrossIn(mt, o, mt[o].root, q, j) && Climb(mt, o, root, c)
    ensures q.mnt in mt && q.d == mt[q.mnt].root && q.mnt != root.mnt && Climb(mt, q.mnt, root, c)
    decreases j
  {
    hide Under, LookupMnt, Attached;
    var x := LookupMnt(mt, o, mt[o].root);
    if x != NO_MNT {
      HopUnder(sys, mt, o, mt[o].root, root, x);
      var n: nat :| ClimbIn(mt, o, root, c, n);
      assert ClimbIn(mt, x, root, c, n + 1);
      ClimbBack(sys, mt, x, root, q, c, j - 1);
    }
  }

  lemma {:induction false} BackTo(sys: Sys, mt: Table, pos: Pos, n: nat, root: Pos, q: Pos)
    requires Scoped(sys, mt, root) && RootIn(sys, mt, pos) && Under(sys, mt, pos, root)
    requires sys.child(pos.d, n).D? && Cross(mt, pos.mnt, sys.child(pos.d, n).d, q)
    ensures DotDot(sys, mt, q, root, pos)
  {
    ChildIsNoRoot(sys, mt, pos, n, root);
    hide Under, UnderD, LookupMnt, Attached;
    var m, c := pos.mnt, sys.child(pos.d, n).d;
    UnderDown(sys, mt, pos, c, root);
    var j: nat :| CrossIn(mt, m, c, q, j);
    var o := LookupMnt(mt, m, c);
    if o != NO_MNT {
      HopUnder(sys, mt, m, c, root, o);
      assert ClimbIn(mt, o, root, Climbed(true, m, c), 0);
      ClimbBack(sys, mt, o, root, q, Climbed(true, m, c), j - 1);
    }
  }

  /** On any tree, from any place below the walk's root: a name and then ".." comes back
      to that place, over however many mounts the name leads. */
  lemma {:induction false} DownUp(sys: Sys, mt: Table, pos: Pos, n: nat, root: Pos, q: Pos, r: Res)
    requires Scoped(sys, mt, root) && RootIn(sys, mt, pos) && Under(sys, mt, pos, root)
    requires sys.child(pos.d, n).D? && sys.child(pos.d, n).d !in sys.negative
    requires Cross(mt, pos.mnt, sys.child(pos.d, n).d, q)
    ensures Resolve(sys, mt, [Name(n), Up], pos, root, r) <==> r == Got(pos)
  {
    BackTo(sys, mt, pos, n, root, q);
    hide Under, RootIn, Attached, DotDot, Cross;
    assert [Name(n), Up][1..] == [Up] && [Up][1..] == [];
    assert Resolve(sys, mt, [], pos, root, Got(pos));
    assert Resolve(sys, mt, [Up], q, root, Got(pos));
    assert Resolve(sys, mt, [Name(n), Up], pos, root, Got(pos));
    if Resolve(sys, mt, [Name(n), Up], pos, root, r) { ResolveUnique(sys, mt, [Name(n), Up], pos, root, r, Got(pos)); }
  }

  // ---- the mounts stay a tree --------------------------------------------------------------------------

  /** Up from x one comes to an end and not to v. */
  ghost predicate AvoidsIn(mt: Table, x: Mnt, v: Mnt, n: nat)
    decreases n
  {
    x in mt && x != v && (mt[x].parent == x || (n > 0 && AvoidsIn(mt, mt[x].parent, v, n - 1)))
  }

  ghost predicate Avoids(mt: Table, x: Mnt, v: Mnt) { exists n: nat :: AvoidsIn(mt, x, v, n) }

  ghost predicate Moving(l: CPc) { l == CMvLock || l == CMvUnhash || l == CMvSet }

  ghost predicate TreeInv(st: State) {
    && AllAttached(st.mt)
    && (forall x {:trigger st.mt[x]} :: x in st.mt && !st.mt[x].alive ==> st.mt[x].parent == x)
    && (forall x {:trigger x in st.todo} :: x in st.todo ==> x in st.mt && st.mt[x].parent == x)
    && (st.todo != {} ==> st.cpc == CUmUnlock || st.cpc == CPut)
    && (Moving(st.cpc) ==> st.victim in st.mt && st.mt[st.victim].alive && Avoids(st.mt, st.ctgt.mnt, st.victim))
    && (st.mpc == MLock || st.mpc == MAttach ==> st.tgt.mnt in st.mt)
  }

  /** No mount gets another parent. */
  ghost predicate SameUp(mt: Table, nt: Table) {
    forall x {:trigger nt[x]} {:trigger x in nt} :: x in mt ==> x in nt && nt[x].parent == mt[x].parent
  }

  lemma {:induction false} RootedSame(mt: Table, nt: Table, x: Mnt, n: nat)
    requires SameUp(mt, nt) && Rooted(mt, x, n)
    ensures Rooted(nt, x, n)
    decreases n
  {
    if mt[x].parent != x { RootedSame(mt, nt, mt[x].parent, n - 1); }
  }

  lemma {:induction false} AvoidsSame(mt: Table, nt: Table, x: Mnt, v: Mnt, n: nat)
    requires SameUp(mt, nt) && AvoidsIn(mt, x, v, n)
    ensures AvoidsIn(nt, x, v, n)
    decreases n
  {
    if mt[x].parent != x { AvoidsSame(mt, nt, mt[x].parent, v, n - 1); }
  }

  lemma {:induction false} AttachedSame(mt: Table, nt: Table, x: Mnt)
    requires SameUp(mt, nt) && Attached(mt, x)
    ensures Attached(nt, x)
  {
    hide SameUp, Rooted;
    var n: nat :| Rooted(mt, x, n);
    RootedSame(mt, nt, x, n);
  }

  lemma {:induction false} AvoidSame(mt: Table, nt: Table, x: Mnt, v: Mnt)
    requires SameUp(mt, nt) && Avoids(mt, x, v)
    ensures Avoids(nt, x, v)
  {
    hide SameUp, AvoidsIn;
    var n: nat :| AvoidsIn(mt, x, v, n);
    AvoidsSame(mt, nt, x, v, n);
  }

  /** A new mount. */
  lemma {:induction false} AttachKeeps(sys: Sys, st: State, x: Mnt, r: Dentry, z: State)
    requires TreeInv(st) && st.mpc == MAttach && Attach(sys, st, x, r, z)
    ensures TreeInv(z)
  {
    hide Rooted, AvoidsIn;
    assert SameUp(st.mt, z.mt);
    hide SameUp, Attached;
    forall y | y in z.mt ensures Attached(z.mt, y) {
      if y == x {
        AttachedSame(st.mt, z.mt, st.tgt.mnt);
        AttachedChild(z.mt, x);
      } else {
        AttachedSame(st.mt, z.mt, y);
      }
    }
    if Moving(z.cpc) { AvoidSame(st.mt, z.mt, st.ctgt.mnt, st.victim); }
  }

  lemma {:induction false} AttachedChild(mt: Table, x: Mnt)
    requires x in mt && Attached(mt, mt[x].parent)
    ensures Attached(mt, x)
  {
    var n: nat :| Rooted(mt, mt[x].parent, n);
    assert Rooted(mt, x, n + 1);
  }

  lemma {:induction false} MounterTree(sys: Sys, st: State, z: State)
    requires TreeInv(st) && MountStep(sys, st, z)
    ensures TreeInv(z)
  {
    hide Attached, Avoids;
    if st.mpc == MAttach {
      var x: Mnt, r: Dentry :| Attach(sys, st, x, r, z);
      AttachKeeps(sys, st, x, r, z);
    }
  }

  // ---- the changer ------------------------------------------------------------------------------

  /** A live mount not below v is not attached below it. */
  lemma {:induction false} PickedAvoids(st: State, v: Mnt, x: Mnt, n: nat)
    requires Rooted(st.mt, x, n) && forall m: nat :: !Below(st.mt, v, x, m)
    requires forall y {:trigger st.mt[y]} :: y in st.mt && !st.mt[y].alive ==> st.mt[y].parent == y
    ensures AvoidsIn(st.mt, x, v, n)
    decreases n
  {
    assert !Below(st.mt, v, x, 0);
    var p := st.mt[x].parent;
    if p != x {
      forall m: nat ensures !Below(st.mt, v, p, m) { assert !Below(st.mt, v, x, m + 1); }
      PickedAvoids(st, v, p, n - 1);
    }
  }

  lemma {:induction false} PickTree(sys: Sys, st: State, v: Mnt, w: Pos, z: State)
    requires TreeInv(st) && st.cpc == CPick && PickMove(sys, st, v, w, z)
    ensures TreeInv(z)
  {
    hide Rooted, Below, AvoidsIn;
    assert Attached(st.mt, w.mnt);
    var n: nat :| Rooted(st.mt, w.mnt, n);
    PickedAvoids(st, v, w.mnt, n);
  }

  lemma {:induction false} UnhashedRooted(mt: Table, tree: set<Mnt>, x: Mnt, n: nat)
    requires Rooted(mt, x, n)
    ensures Rooted(Unhashed(mt, tree), x, n)
    decreases n
  {
    if x !in tree && mt[x].parent != x { UnhashedRooted(mt, tree, mt[x].parent, n - 1); }
  }

  lemma {:induction false} UnhashTree(sys: Sys, st: State, z: State)
    requires TreeInv(st) && st.cpc == CUnhash && ChangeStep(sys, st, z)
    ensures TreeInv(z)
  {
    var tree := Subtree(st.mt, st.victim);
    SubtreeIn(st.mt, st.victim);
    hide Rooted, Subtree, Flags, Avoids;
    forall x | x in z.mt ensures Attached(z.mt, x) {
      assert Attached(st.mt, x);
      var n: nat :| Rooted(st.mt, x, n);
      UnhashedRooted(st.mt, tree, x, n);
    }
  }

  /** The victim below a place that is not below it. */
  lemma {:induction false} MovedRooted(mt: Table, nt: Table, v: Mnt, x: Mnt, n: nat, k: nat)
    requires nt.Keys == mt.Keys && v in mt && Rooted(mt, x, n) && AvoidsIn(mt, nt[v].parent, v, k)
    requires forall y {:trigger nt[y]} :: y in mt && y != v ==> nt[y].parent == mt[y].parent
    ensures Rooted(nt, x, n + k + 1)
    decreases n
  {
    if x == v {
      AvoidsRooted(mt, nt, v, nt[v].parent, k);
      RootedMore(nt, nt[v].parent, k, n + k);
    } else if mt[x].parent != x {
      MovedRooted(mt, nt, v, mt[x].parent, n - 1, k);
    }
  }

  lemma {:induction false} AvoidsRooted(mt: Table, nt: Table, v: Mnt, x: Mnt, k: nat)
    requires AvoidsIn(mt, x, v, k) && nt.Keys == mt.Keys
    requires forall y {:trigger nt[y]} :: y in mt && y != v ==> nt[y].parent == mt[y].parent
    ensures Rooted(nt, x, k)
    decreases k
  {
    if mt[x].parent != x { AvoidsRooted(mt, nt, v, mt[x].parent, k - 1); }
  }

  lemma {:induction false} SetTree(sys: Sys, st: State, z: State)
    requires TreeInv(st) && st.cpc == CMvSet && ChangeStep(sys, st, z)
    ensures TreeInv(z)
  {
    hide Rooted, AvoidsIn;
    var k: nat :| AvoidsIn(st.mt, st.ctgt.mnt, st.victim, k);
    forall x | x in z.mt ensures Attached(z.mt, x) {
      assert Attached(st.mt, x);
      var n: nat :| Rooted(st.mt, x, n);
      MovedRooted(st.mt, z.mt, st.victim, x, n, k);
    }
  }

  /** The other steps leave all parents alone. */
  ghost predicate Plain(st: State, z: State) {
    && SameUp(st.mt, z.mt) && z.mt.Keys == st.mt.Keys && z.mpc == st.mpc && z.tgt == st.tgt
    && z.victim == st.victim && z.ctgt == st.ctgt && (Moving(z.cpc) ==> Moving(st.cpc)) && z.todo <= st.todo
    && (st.cpc == CUmUnlock ==> z.cpc == CPut) && (st.cpc == CPut ==> z.todo == {})
    && (forall x {:trigger z.mt[x]} :: x in st.mt ==> z.mt[x].alive == st.mt[x].alive || x in st.todo)
    && (Moving(z.cpc) ==> forall x {:trigger z.mt[x]} :: x in st.mt ==> z.mt[x].alive == st.mt[x].alive)
  }

  lemma {:induction false} RestPlain(sys: Sys, st: State, z: State)
    requires ChangeStep(sys, st, z) && st.cpc != CPick && st.cpc != CUnhash && st.cpc != CMvSet
    ensures Plain(st, z)
  {
    hide Flags, Subtree;
  }

  lemma {:induction false} RestTree(sys: Sys, st: State, z: State)
    requires TreeInv(st) && Plain(st, z)
    ensures TreeInv(z)
  {
    hide SameUp, Attached, Avoids;
    forall x | x in z.mt ensures Attached(z.mt, x) { AttachedSame(st.mt, z.mt, x); }
    if Moving(z.cpc) { AvoidSame(st.mt, z.mt, st.ctgt.mnt, st.victim); }
    assert forall x :: x in z.mt ==> z.mt[x].parent == st.mt[x].parent by { SameUpAt(st.mt, z.mt); }
  }

  lemma {:induction false} SameUpAt(mt: Table, nt: Table)
    requires SameUp(mt, nt) && nt.Keys == mt.Keys
    ensures forall x :: x in nt ==> nt[x].parent == mt[x].parent
  {
  }

  lemma {:induction false} ChangerTree(sys: Sys, st: State, z: State)
    requires TreeInv(st) && ChangeStep(sys, st, z)
    ensures TreeInv(z)
  {
    hide TreeInv, Subtree, Flags;
    match st.cpc {
      case CPick =>
        var v: Mnt :| PickUmount(st, v, z) || Moves(sys, st, v, z);
        if PickUmount(st, v, z) { PickedTreeInv(st, v, z); }
        else {
          var w: Pos :| PickMove(sys, st, v, w, z);
          PickTree(sys, st, v, w, z);
        }
      case CUnhash => UnhashTree(sys, st, z);
      case CMvSet => SetTree(sys, st, z);
      case _ =>
        RestPlain(sys, st, z);
        RestTree(sys, st, z);
    }
  }

  lemma {:induction false} PickedTreeInv(st: State, v: Mnt, z: State)
    requires TreeInv(st) && st.cpc == CPick && PickUmount(st, v, z)
    ensures TreeInv(z)
  {
    hide Attached, Avoids;
  }

  // ---- every run ------------------------------------------------------------------------------------------

  /** Roots stay where they are: no mount goes and none gets another root dentry. */
  ghost predicate RootsIn(sys: Sys, mt: Table) {
    forall w {:trigger sys.root[w]} :: w in sys.root ==> RootIn(sys, mt, sys.root[w])
  }

  lemma {:induction false} RootsGrow(sys: Sys, mt: Table, nt: Table)
    requires RootsIn(sys, mt) && Grows(mt, nt)
    ensures RootsIn(sys, nt)
  {
    hide UnderD;
  }

  lemma {:induction false} NextTree(sys: Sys, st: State, z: State)
    requires Next(sys, st, z) && TreeInv(st) && RootsIn(sys, st.mt)
    ensures TreeInv(z) && RootsIn(sys, z.mt)
  {
    NextGrows(sys, st, z);
    RootsGrow(sys, st.mt, z.mt);
    hide TreeInv, RootsIn, MountStep, ChangeStep, WalkStep;
    if MountStep(sys, st, z) { MounterTree(sys, st, z); }
    else if ChangeStep(sys, st, z) { ChangerTree(sys, st, z); }
    else {
      var w :| WalkStep(sys, st, w, z);
      WalkerThere(sys, st, w, z);
      WalkForm(sys, st, w, z);
      OwnTree(st, w, z);
    }
  }

  lemma {:induction false} OwnTree(st: State, w: Wid, z: State)
    requires TreeInv(st) && w in st.ws && OneStep(st, w, z)
    ensures TreeInv(z)
  {
    hide Attached, Avoids;
  }

  lemma {:induction false} RunTree(sys: Sys, b: seq<State>, i: nat)
    requires Run(sys, b) && i < |b|
    ensures sys.Forest() && TreeInv(b[i]) && RootsIn(sys, b[i].mt)
    decreases i
  {
    hide Next, TreeInv, RootsIn;
    if i == 0 { StartTree(sys, b[0]); }
    else {
      RunTree(sys, b, i - 1);
      NextTree(sys, b[i - 1], b[i]);
    }
  }

  lemma {:induction false} StartTree(sys: Sys, st: State)
    requires Init(sys, st)
    ensures TreeInv(st) && RootsIn(sys, st.mt)
  {
    hide Attached, Avoids, RootIn;
    assert forall x :: x in st.mt ==> Attached(st.mt, x) && st.mt[x].alive;
  }

  /** At every moment of every run, a locked walk of any program from a walker's root
      ends, if at a position, at one below that root. */
  lemma {:induction false} LockedStaysUnder(sys: Sys, b: seq<State>, i: nat, w: Wid, prog: seq<Comp>, q: Pos)
    requires Run(sys, b) && i < |b| && w in sys.root
    requires Resolve(sys, b[i].mt, prog, sys.root[w], sys.root[w], Got(q))
    ensures Under(sys, b[i].mt, q, sys.root[w])
  {
    hide Run, UnderD, Under, Resolve, Attached;
    RunTree(sys, b, i);
    hide RootIn;
    RootUnder(sys, b[i].mt, sys.root[w]);
    ResolveUnder(sys, b[i].mt, prog, sys.root[w], sys.root[w], q);
  }

  lemma {:induction false} RootUnder(sys: Sys, mt: Table, root: Pos)
    ensures Under(sys, mt, root, root)
  {
    UnderSelf(sys, root.d);
    assert UnderIn(sys, mt, root, root, 0);
  }

  // ---- the walker ------------------------------------------------------------------------------------------

  /** A walker's position, and the dentry it is entering, are below its root. */
  ghost predicate PathUnder(sys: Sys, mt: Table, k: Walker, root: Pos) {
    && Under(sys, mt, k.path, root)
    && (k.pc == WMounts || k.pc == WStep ==> Under(sys, mt, Pos(k.path.mnt, k.nxt), root))
  }

  ghost predicate ScopeOK(sys: Sys, mt: Table) { sys.Forest() && AllAttached(mt) && RootsIn(sys, mt) }

  lemma {:induction false} CompUnder(sys: Sys, mt: Table, st: State, w: Wid, z: State)
    requires ScopeOK(sys, mt) && w in st.ws && w in sys.root && w in sys.prog && StepComp(sys, st, w, z)
    requires PathUnder(sys, mt, st.ws[w], sys.root[w])
    ensures w in z.ws && PathUnder(sys, mt, z.ws[w], sys.root[w])
  {
    hide Under, RootsIn, AllAttached;
    var k, prog := st.ws[w], sys.prog[w];
    if k.ip < |prog| && prog[k.ip].Name? && sys.child(k.path.d, prog[k.ip].n).D? {
      UnderDown(sys, mt, k.path, sys.child(k.path.d, prog[k.ip].n).d, sys.root[w]);
    }
  }

  lemma {:induction false} MountsUnder(sys: Sys, st: State, w: Wid, z: State)
    requires ScopeOK(sys, st.mt) && w in st.ws && w in sys.root && StepMounts(sys, st, w, z) && w in z.ws
    requires PathUnder(sys, st.mt, st.ws[w], sys.root[w]) && Walking(z.ws[w])
    ensures PathUnder(sys, st.mt, z.ws[w], sys.root[w])
  {
    hide Under, RootsIn, Attached, LookupMnt;
    var k := st.ws[w];
    var o := LookupMnt(st.mt, k.path.mnt, k.nxt);
    if o != NO_MNT { HopUnder(sys, st.mt, k.path.mnt, k.nxt, sys.root[w], o); }
  }

  lemma {:induction false} StepUnder(sys: Sys, mt: Table, st: State, w: Wid, z: State)
    requires w in st.ws && w in sys.root && StepStep(sys, st, w, z) && w in z.ws
    requires PathUnder(sys, mt, st.ws[w], sys.root[w])
    ensures Walking(z.ws[w]) ==> PathUnder(sys, mt, z.ws[w], sys.root[w])
  {
    hide Under;
  }

  lemma {:induction false} UpUnder(sys: Sys, st: State, w: Wid, z: State)
    requires ScopeOK(sys, st.mt) && w in st.ws && w in sys.root && StepDotDot(sys, st, w, z) && w in z.ws
    requires PathUnder(sys, st.mt, st.ws[w], sys.root[w]) && Walking(z.ws[w])
    ensures PathUnder(sys, st.mt, z.ws[w], sys.root[w])
  {
    hide Under, Attached, DotDot, RootIn;
    var q :| DotDot(sys, st.mt, st.ws[w].path, sys.root[w], q) && GoUp(sys, st, w, q, z);
    DotDotUnder(sys, st.mt, st.ws[w].path, sys.root[w], q);
  }

  /** A step in RCU mode with the count unchanged. */
  lemma {:induction false} FreshStep(sys: Sys, st: State, w: Wid, z: State)
    requires ScopeOK(sys, st.mt) && WalkStep(sys, st, w, z) && w in st.ws && w in sys.root && w in sys.prog && w in z.ws
    requires Walking(st.ws[w]) ==> PathUnder(sys, st.mt, st.ws[w], sys.root[w])
    requires st.ws[w].pc == WInit ==> st.ws[w].path == sys.root[w]
    ensures Walking(z.ws[w]) ==> PathUnder(sys, st.mt, z.ws[w], sys.root[w])
  {
    WalkForm(sys, st, w, z);
    hide PathUnder, ScopeOK, StepComp, StepSlow, StepMounts, StepStep, StepDotDot, StepComplete;
    if Walking(z.ws[w]) {
      if StepComp(sys, st, w, z) { CompUnder(sys, st.mt, st, w, z); }
      else if StepMounts(sys, st, w, z) { MountsUnder(sys, st, w, z); }
      else if StepStep(sys, st, w, z) { StepUnder(sys, st.mt, st, w, z); }
      else if StepDotDot(sys, st, w, z) { UpUnder(sys, st, w, z); }
      else if StepInit(st, w, z) { InitUnder(sys, st, w, z); }
      else { EndsWalk(sys, st, w, z); }
    }
  }

  lemma {:induction false} InitUnder(sys: Sys, st: State, w: Wid, z: State)
    requires w in st.ws && w in sys.root && StepInit(st, w, z) && st.ws[w].path == sys.root[w]
    ensures w in z.ws && PathUnder(sys, st.mt, z.ws[w], sys.root[w])
  {
    RootUnder(sys, st.mt, sys.root[w]);
    hide Under;
  }

  /** Tables alike but for what is alive. */
  lemma {:induction false} UnderAlike(sys: Sys, mt: Table, nt: Table, pos: Pos, root: Pos, n: nat)
    requires MountWalkProof.Alike(mt, nt) && UnderIn(sys, mt, pos, root, n)
    ensures UnderIn(sys, nt, pos, root, n)
    decreases n
  {
    hide UnderD;
    if pos.mnt != root.mnt { UnderAlike(sys, mt, nt, Pos(mt[pos.mnt].parent, mt[pos.mnt].mp), root, n - 1); }
  }

  lemma {:induction false} PathAlike(sys: Sys, mt: Table, nt: Table, k: Walker, root: Pos)
    requires MountWalkProof.Alike(mt, nt) && PathUnder(sys, mt, k, root)
    ensures PathUnder(sys, nt, k, root)
  {
    hide UnderIn, MountWalkProof.Alike;
    var n: nat :| UnderIn(sys, mt, k.path, root, n);
    UnderAlike(sys, mt, nt, k.path, root, n);
    if k.pc == WMounts || k.pc == WStep {
      var m: nat :| UnderIn(sys, mt, Pos(k.path.mnt, k.nxt), root, m);
      UnderAlike(sys, mt, nt, Pos(k.path.mnt, k.nxt), root, m);
    }
  }

  /** ... and as long as the count is unchanged in any step. */
  ghost predicate PathInv(sys: Sys, st: State, w: Wid) {
    w in st.ws && w in sys.root ==>
      && (st.ws[w].pc == WInit ==> st.ws[w].path == sys.root[w])
      && (Walking(st.ws[w]) && st.ws[w].mseq == st.seqv ==> PathUnder(sys, st.mt, st.ws[w], sys.root[w]))
  }

  lemma {:induction false} WriterPath(sys: Sys, st: State, z: State, w: Wid)
    requires Inv(sys, st) && PathInv(sys, st, w) && WriterStep(st, z)
    ensures PathInv(sys, z, w)
  {
    hide PathUnder, TreeOK, OnTrack, MountWalkProof.Alike, Sections;
    if w in z.ws && w in sys.root && Walking(z.ws[w]) && z.ws[w].mseq == z.seqv {
      assert WalkerOK(sys, st, w);
      PathAlike(sys, st.mt, z.mt, st.ws[w], sys.root[w]);
    }
  }

  lemma {:induction false} OwnPath(sys: Sys, st: State, w: Wid, z: State)
    requires ScopeOK(sys, st.mt) && PathInv(sys, st, w) && WalkStep(sys, st, w, z)
    ensures PathInv(sys, z, w)
  {
    WalkerThere(sys, st, w, z);
    WalkForm(sys, st, w, z);
    hide ScopeOK, PathUnder, WalkStep;
    if Walking(z.ws[w]) && z.ws[w].mseq == z.seqv {
      if Walking(st.ws[w]) && st.ws[w].mseq != st.seqv { StaleStays(sys, st, w, z); }
      FreshStep(sys, st, w, z);
    }
  }

  lemma {:induction false} StaleStays(sys: Sys, st: State, w: Wid, z: State)
    requires WalkStep(sys, st, w, z) && w in st.ws && w in z.ws && Walking(st.ws[w])
    ensures z.ws[w].mseq == st.ws[w].mseq && z.seqv == st.seqv
  {
    WalkForm(sys, st, w, z);
  }

  lemma {:induction false} NextPath(sys: Sys, st: State, w: Wid, z: State)
    requires Inv(sys, st) && ScopeOK(sys, st.mt) && PathInv(sys, st, w) && Next(sys, st, z)
    ensures PathInv(sys, z, w)
  {
    hide Inv, ScopeOK, PathInv, MountStep, ChangeStep, WalkStep;
    if MountStep(sys, st, z) {
      MountKeeps(sys, st, z);
      WriterPath(sys, st, z, w);
    } else if ChangeStep(sys, st, z) {
      ChangeKeeps(sys, st, z);
      WriterPath(sys, st, z, w);
    } else {
      var v :| WalkStep(sys, st, v, z);
      if v == w { OwnPath(sys, st, w, z); } else { OtherPath(sys, st, v, w, z); }
    }
  }

  lemma {:induction false} OtherPath(sys: Sys, st: State, v: Wid, w: Wid, z: State)
    requires WalkStep(sys, st, v, z) && v != w && PathInv(sys, st, w)
    ensures PathInv(sys, z, w)
  {
    WalkerThere(sys, st, v, z);
    WalkForm(sys, st, v, z);
    hide PathUnder, WalkStep;
  }

  lemma {:induction false} RunScope(sys: Sys, b: seq<State>, i: nat)
    requires Run(sys, b) && i < |b|
    ensures ScopeOK(sys, b[i].mt) && Inv(sys, b[i])
  {
    RunInv(sys, b, i);
    RunTree(sys, b, i);
    hide Run, Inv, RootsIn, AllAttached;
    assert AllAttached(b[i].mt) by { TreeAttached(b[i]); }
  }

  lemma {:induction false} TreeAttached(st: State)
    requires TreeInv(st)
    ensures AllAttached(st.mt)
  {
    hide Attached, Avoids;
  }

  lemma {:induction false} RunPath(sys: Sys, b: seq<State>, i: nat, w: Wid)
    requires Run(sys, b) && i < |b|
    ensures PathInv(sys, b[i], w)
    decreases i
  {
    hide Next, PathUnder, ScopeOK, Inv;
    if i > 0 {
      RunPath(sys, b, i - 1, w);
      RunScope(sys, b, i - 1);
      hide PathInv;
      NextPath(sys, b[i - 1], w, b[i]);
    } else {
      assert Init(sys, b[0]);
    }
  }

  /** The path of a walker whose count is unchanged is below its root on the tree of that
      moment, and so is every position any walk returns. */
  lemma {:induction false} WalksStayUnder(sys: Sys, b: seq<State>, i: nat, w: Wid)
    requires Run(sys, b) && i < |b| && w in b[i].ws && w in sys.root
    ensures Walking(b[i].ws[w]) && b[i].ws[w].mseq == b[i].seqv ==> Under(sys, b[i].mt, b[i].ws[w].path, sys.root[w])
    ensures i + 1 < |b| && WalkStep(sys, b[i], w, b[i + 1]) && w in b[i + 1].ws && b[i + 1].ws[w].pc == Finished
        && b[i + 1].ws[w].res.Got?
        ==> Under(sys, b[i].mt, b[i + 1].ws[w].res.pos, sys.root[w])
  {
    hide Run, Under, WalkStep;
    RunPath(sys, b, i, w);
    if i + 1 < |b| && WalkStep(sys, b[i], w, b[i + 1]) && w in b[i + 1].ws && b[i + 1].ws[w].pc == Finished
       && b[i + 1].ws[w].res.Got?
    {
      WalkerThere(sys, b[i], w, b[i + 1]);
      ExitForm(sys, b[i], w, b[i + 1]);
      GotPath(sys, b[i], w, b[i + 1]);
    }
  }

  lemma {:induction false} GotPath(sys: Sys, st: State, w: Wid, z: State)
    requires WalkStep(sys, st, w, z) && w in st.ws && w in z.ws && z.ws[w].pc == Finished && z.ws[w].res.Got?
    ensures Walking(st.ws[w]) && z.ws[w].res.pos == st.ws[w].path
  {
    hide DotDot, LookupMnt;
  }

  // ---- the scoped walker ------------------------------------------------------------------------------------

  /** k was below its root on this table, which is the one it sampled if it still walks. */
  ghost predicate WasUnder(sys: Sys, st: State, k: Walker, root: Pos) {
    Under(sys, st.mt, k.path, root) && (Walking(k) ==> st.seqv == k.mseq && PathUnder(sys, st.mt, k, root))
  }

  ghost predicate OnceUnder(sys: Sys, b: seq<State>, i: nat, w: Wid)
    requires i < |b| && w in b[i].ws && w in sys.root
  {
    exists j {:trigger b[j]} :: 0 <= j <= i && WasUnder(sys, b[j], b[i].ws[w], sys.root[w])
  }

  /** A step of a scoped walker whose count has changed: down, or out. */
  lemma {:induction false} StaleStep(sys: Sys, mt: Table, st: State, w: Wid, z: State)
    requires ScopeOK(sys, mt) && WalkStep(sys, st, w, z) && w in st.ws && w in sys.root && w in sys.prog && w in z.ws
    requires w in sys.scoped && Walking(st.ws[w]) && st.ws[w].mseq != st.seqv
    requires PathUnder(sys, mt, st.ws[w], sys.root[w])
    ensures Walking(z.ws[w]) ==> PathUnder(sys, mt, z.ws[w], sys.root[w])
    ensures !Walking(z.ws[w]) ==> z.ws[w].path == st.ws[w].path || z.ws[w].path == sys.root[w]
  {
    if StepComp(sys, st, w, z) { CompUnder(sys, mt, st, w, z); }
    else if StepStep(sys, st, w, z) { StepUnder(sys, mt, st, w, z); StepOut(sys, st, w, z); }
    else { StaleRest(sys, st, w, z); }
    hide PathUnder, StepComp, StepStep;
  }

  lemma {:induction false} StepOut(sys: Sys, st: State, w: Wid, z: State)
    requires w in st.ws && w in z.ws && StepStep(sys, st, w, z)
    ensures !Walking(z.ws[w]) ==> z.ws[w].path == st.ws[w].path
  {
  }

  lemma {:induction false} StaleRest(sys: Sys, st: State, w: Wid, z: State)
    requires w in st.ws && w in sys.root && w in sys.prog && w in z.ws && w in sys.scoped
    requires Walking(st.ws[w]) && st.ws[w].mseq != st.seqv
    requires StepInit(st, w, z) || StepSlow(sys, st, w, z) || StepMounts(sys, st, w, z) || StepDotDot(sys, st, w, z)
        || StepComplete(sys, st, w, z)
    ensures Walking(z.ws[w]) ==> z.ws[w] == st.ws[w].(pc := WStep) && st.ws[w].pc == WMounts
    ensures !Walking(z.ws[w]) ==> z.ws[w].path == st.ws[w].path || z.ws[w].path == sys.root[w]
  {
    hide DotDot, LookupMnt, AtRoot;
  }

  lemma {:induction false} OnceStep(sys: Sys, b: seq<State>, i: nat, w: Wid)
    requires Run(sys, b) && i + 1 < |b| && w in sys.scoped && w in sys.root && w in b[i].ws && w in b[i + 1].ws
    requires WalkStep(sys, b[i], w, b[i + 1]) && OnceUnder(sys, b, i, w)
    ensures OnceUnder(sys, b, i + 1, w)
  {
    hide Run, WalkStep, ScopeOK, PathUnder, Under, Inv;
    var st, z, root := b[i], b[i + 1], sys.root[w];
    WalkerThere(sys, st, w, z);
    if Walking(st.ws[w]) && st.ws[w].mseq != st.seqv {
      var j :| 0 <= j <= i && WasUnder(sys, b[j], st.ws[w], root);
      RunScope(sys, b, j);
      StaleStep(sys, b[j].mt, st, w, z);
      StaleStays(sys, st, w, z);
      PathPos(sys, b[j].mt, z.ws[w], root);
      RootUnder(sys, b[j].mt, root);
      assert WasUnder(sys, b[j], z.ws[w], root);
    } else {
      RunScope(sys, b, i);
      RunPath(sys, b, i, w);
      FreshOut(sys, st, w, z);
      RootUnder(sys, st.mt, root);
      assert st.ws[w].pc == WInit || Walking(st.ws[w]) by { FreshLabel(sys, st, w, z); }
      FreshStep(sys, st, w, z);
      PathPos(sys, st.mt, z.ws[w], root);
      PathPos(sys, st.mt, st.ws[w], root);
      assert WasUnder(sys, b[i], z.ws[w], root);
    }
  }

  lemma {:induction false} PathPos(sys: Sys, mt: Table, k: Walker, root: Pos)
    ensures PathUnder(sys, mt, k, root) ==> Under(sys, mt, k.path, root)
  {
    hide Under;
  }

  lemma {:induction false} FreshLabel(sys: Sys, st: State, w: Wid, z: State)
    requires WalkStep(sys, st, w, z) && w in st.ws
    ensures st.ws[w].pc == WInit || Walking(st.ws[w])
  {
    WalkForm(sys, st, w, z);
  }

  lemma {:induction false} FreshOut(sys: Sys, st: State, w: Wid, z: State)
    requires WalkStep(sys, st, w, z) && w in st.ws && w in z.ws && w in sys.root
    requires Walking(st.ws[w]) ==> st.ws[w].mseq == st.seqv
    ensures !Walking(z.ws[w]) ==> z.ws[w].path == st.ws[w].path || z.ws[w].path == sys.root[w]
    ensures Walking(z.ws[w]) ==> z.ws[w].mseq == st.seqv
  {
    WalkForm(sys, st, w, z);
    hide DotDot, LookupMnt, AtRoot;
  }

  /** A scoped walker never leaves its root: wherever it is, in any state of any run, it
      was there below its root on the tree it sampled, whatever has been unmounted
      or moved since. */
  lemma {:induction false} ScopedStaysUnder(sys: Sys, b: seq<State>, i: nat, w: Wid)
    requires Run(sys, b) && i < |b| && w in sys.scoped && w in sys.root
    ensures w in b[i].ws && OnceUnder(sys, b, i, w)
    decreases i
  {
    hide Next, WasUnder;
    if i == 0 {
      StartOnce(sys, b, w);
    } else {
      ScopedStaysUnder(sys, b, i - 1, w);
      assert Next(sys, b[i - 1], b[i]);
      if b[i].ws != b[i - 1].ws { Others(sys, b[i - 1], w, b[i]); }
      if w in b[i].ws && b[i].ws[w] == b[i - 1].ws[w] {
        var j :| 0 <= j <= i - 1 && WasUnder(sys, b[j], b[i - 1].ws[w], sys.root[w]);
      } else {
        OnceStep(sys, b, i - 1, w);
      }
    }
  }

  lemma {:induction false} Others(sys: Sys, st: State, w: Wid, z: State)
    requires Next(sys, st, z) && w in st.ws
    ensures w in z.ws && (z.ws[w] == st.ws[w] || WalkStep(sys, st, w, z))
  {
    hide Next, WalkStep;
    NextGrows(sys, st, z);
    if z.ws != st.ws {
      var v :| WalkStep(sys, st, v, z);
      RodeOwn(sys, st, v, z);
    }
  }

  lemma {:induction false} StartOnce(sys: Sys, b: seq<State>, w: Wid)
    requires |b| > 0 && Init(sys, b[0]) && w in sys.root
    ensures w in b[0].ws && OnceUnder(sys, b, 0, w)
  {
    RootUnder(sys, b[0].mt, sys.root[w]);
    assert WasUnder(sys, b[0], b[0].ws[w], sys.root[w]);
  }

  /** On the tree as it is now a position is below the root if and only if it is so in the
      root's own mount, or its mount is still attached somewhere below the root. */
  ghost predicate StillBelow(sys: Sys, mt: Table, x: Mnt, root: Pos) {
    x in mt && mt[x].parent != x && Under(sys, mt, Pos(mt[x].parent, mt[x].mp), root)
  }

  /** So a scoped walker is below its root on the present tree exactly then. */
  lemma {:induction false} ScopedNow(sys: Sys, b: seq<State>, i: nat, w: Wid)
    requires Run(sys, b) && i < |b| && w in sys.scoped && w in sys.root
    ensures w in b[i].ws
    ensures Under(sys, b[i].mt, b[i].ws[w].path, sys.root[w])
        <==> b[i].ws[w].path.mnt == sys.root[w].mnt || StillBelow(sys, b[i].mt, b[i].ws[w].path.mnt, sys.root[w])
  {
    hide Run, Under, PathUnder;
    ScopedStaysUnder(sys, b, i, w);
    var pos, root := b[i].ws[w].path, sys.root[w];
    if pos.mnt == root.mnt {
      var j :| 0 <= j <= i && WasUnder(sys, b[j], b[i].ws[w], root);
      UnderHere(sys, b[j].mt, pos, root);
      UnderHere(sys, b[i].mt, pos, root);
    } else {
      UnderParent(sys, b[i].mt, pos, root);
    }
  }

  /** It need not be: a run in which a scoped walker stands in a mount that is lazily
      unmounted. */
  lemma {:induction false} ScopedOff() returns (sys: Sys, b: seq<State>, w: Wid)
    ensures Run(sys, b) && |b| > 0 && w in sys.scoped && w in sys.root
    ensures w in b[|b| - 1].ws && Walking(b[|b| - 1].ws[w])
    ensures !Under(sys, b[|b| - 1].mt, b[|b| - 1].ws[w].path, sys.root[w])
  {
    hide Leads, Run, Under;
    InForest();
    sys, w := Forest(), 0;
    b := BothMounted();
    var s: nat;
    b, s := WalksIn(b);
    b := Unmounts(b, s);
    assert Run(sys, b) by { LeadsRun(b, s); }
    UnderParent(sys, Neither(), Pos(2, 10), Pos(1, 0));
  }

  lemma {:induction false} LeadsRun(b: seq<State>, s: nat)
    requires Leads(b, s)
    ensures Run(Forest(), b)
  {
  }
}
