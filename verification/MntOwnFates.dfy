/** What umount_tree() does to every mount of a run, field by field: who comes down, who
    keeps its parent, who is listed for namespace_unlock() and in which order. */
module MntOwnFates {
  import opened Finite
  import opened MntOwn
  import opened MntOwnCount
  import opened MntOwnSteps
  import opened MntOwnRuns
  import opened MntOwnTheorems

  /** An action that unmounts the tree below m, and how. */
  ghost predicate Umounts(L: Layout, y: Sys, z: Sys, m: Mnt, how: How)
    requires L.Valid() && y.st.mt.Keys == L.ids
  {
    || (LazyUmount(L, y, z, m) && how == How(false, false))
    || (SyncUmount(L, y, z, m) && how == How(true, false))
    || (DetachMounts(L, y, z, m) && how == How(false, true))
    || (PutMntNs(L, y, z) && m == L.root && how == How(false, !L.nsDisconnect))
  }

  /** x is m or hangs below it: up from x over attached mounts one comes to m. */
  ghost predicate Below(L: Layout, mt: map<Mnt, Mount>, m: Mnt, x: Mnt)
    requires L.Valid() && mt.Keys == L.ids && x in L.ids
    decreases L.depth[x]
  {
    x == m || (x != L.root && mt[x].Attached() && !mt[x].freed && mt[x].parent == L.parent[x]
        && Below(L, mt, m, L.parent[x]))
  }

  /** The file x's superblock keeps open is on a mount that is coming down, now or since
      before. */
  ghost predicate PinsDying(L: Layout, mt: map<Mnt, Mount>, m: Mnt, x: Mnt)
    requires L.Valid() && mt.Keys == L.ids && x in L.ids
  {
    var p := L.pin[L.sb[x]];
    p in L.ids && !mt[p].freed && (mt[p].umount || Below(L, mt, m, p))
  }

  /** A victim other than the top one stays with its parent. */
  ghost predicate KeepsParent(L: Layout, mt: map<Mnt, Mount>, m: Mnt, how: How, x: Mnt)
    requires L.Valid() && mt.Keys == L.ids && x in L.ids
  {
    x != m && !how.sync && (how.connected || mt[x].locked) && !(L.pinners && PinsDying(L, mt, m, x))
  }

  /** A mount some earlier umount left with its parent, now to lose it. */
  ghost predicate Overdue(L: Layout, mt: map<Mnt, Mount>, m: Mnt, x: Mnt)
    requires L.Valid() && mt.Keys == L.ids && x in L.ids
  {
    L.pinners && L.reexamine && mt[x].umount && mt[x].Attached() && !mt[x].freed && PinsDying(L, mt, m, x)
  }

  // ---- the victims --------------------------------------------------------------------------

  lemma {:induction false} TreeIsBelow(L: Layout, st: State, ext: map<Mnt, nat>, m: Mnt, x: Mnt)
    requires Inv(L, st, At(ext)) && m in L.ids && x in L.ids && TreeSet(st.mt, m, Subtree(st.mt, {m}))
    ensures x in Subtree(st.mt, {m}) <==> Below(L, st.mt, m, x)
    decreases L.depth[x]
  {
    InvPair(L, st, At(ext), x);
    hide Subtree, SbOK, Refs;
    if x != L.root && st.mt[x].Attached() { TreeIsBelow(L, st, ext, m, L.parent[x]); }
  }

  lemma {:induction false} BelowDeeper(L: Layout, mt: map<Mnt, Mount>, m: Mnt, x: Mnt)
    requires L.Valid() && mt.Keys == L.ids && m in L.ids && x in L.ids && Below(L, mt, m, x)
    ensures L.depth[x] >= L.depth[m]
    decreases L.depth[x]
  {
    if x != m { BelowDeeper(L, mt, m, L.parent[x]); }
  }

  /** What the invariant says of one mount ... */
  lemma {:induction false} Plain(L: Layout, st: State, ext: map<Mnt, nat>, x: Mnt)
    requires Inv(L, st, At(ext)) && x in L.ids
    ensures st.mt[x].umount == !st.mt[x].ns && (st.mt[x].ns || !L.disown ==> st.mt[x].sb == L.sb[x])
    ensures st.mt[x].ns ==> !st.mt[x].freed && (x == L.root || st.mt[x].Attached())
    ensures st.mt[x].Attached() ==>
      && x != L.root && st.mt[x].parent == L.parent[x] && L.parent[x] in L.ids
      && st.mt[L.parent[x]].umount == st.mt[x].umount
  {
    InvPair(L, st, At(ext), x);
    hide SbOK, Refs, Layout.Valid;
  }

  /** ... and of its superblock. */
  lemma {:induction false} PlainSb(L: Layout, st: State, ext: map<Mnt, nat>, x: Mnt)
    requires Inv(L, st, At(ext)) && x in L.ids
    ensures L.sb[x] in L.sbIds && L.sb[x] in st.sbs && st.sbs[L.sb[x]].pin == L.pin[L.sb[x]]
    ensures NO_MNT !in L.ids && st.mt.Keys == L.ids
  {
    hide MountOK, KeepN, HoldN;
    assert SbOK(L, st, At(ext), L.sb[x]);
  }

  /** The pin as disconnect_mount() sees it, the victims being flagged. */
  lemma {:induction false} PinsIs(L: Layout, st: State, ext: map<Mnt, nat>, m: Mnt, V: set<Mnt>, x: Mnt)
    requires Inv(L, st, At(ext)) && m in L.ids && x in L.ids && (st.mt[x].ns || !L.disown)
    requires forall k :: k in L.ids ==> (k in V <==> Below(L, st.mt, m, k))
    ensures PinsVictim(st.(mt := MarkUmount(st.mt, V)), x) <==> PinsDying(L, st.mt, m, x)
  {
    Plain(L, st, ext, x);
    PlainSb(L, st, ext, x);
    var p := L.pin[L.sb[x]];
    MarkAt(st.mt, V, x, true);
    if p in st.mt { MarkAt(st.mt, V, p, true); }
    assert MarkUmount(st.mt, V).Keys == st.mt.Keys && MarkUmount(st.mt, V)[x].sb == st.mt[x].sb;
    hide Inv, Below, Layout.Valid, MarkUmount;
  }

  /** Who leaves. */
  lemma {:induction false} LeavesIs(L: Layout, st: State, ext: map<Mnt, nat>, m: Mnt, V: set<Mnt>, how: How, x: Mnt)
    requires Inv(L, st, At(ext)) && m in L.ids && st.mt[m].ns && x in V && V <= L.ids
    requires forall k :: k in L.ids ==> (k in V <==> Below(L, st.mt, m, k))
    requires forall k :: k in V ==> st.mt[k].ns
    ensures Leaves(L, st, V, x, how) <==> !KeepsParent(L, st.mt, m, how, x)
  {
    Plain(L, st, ext, x);
    PinsIs(L, st, ext, m, V, x);
    MarkAt(st.mt, V, x, true);
    if x == m {
      if x != L.root {
        MarkAt(st.mt, V, L.parent[x], true);
        if L.parent[x] in V { BelowDeeper(L, st.mt, m, L.parent[x]); }
      }
    } else {
      MarkAt(st.mt, V, L.parent[x], true);
    }
    hide Inv, PinsDying, PinsVictim;
  }

  lemma {:induction false} AgainIs(L: Layout, st: State, ext: map<Mnt, nat>, m: Mnt, V: set<Mnt>, x: Mnt)
    requires Inv(L, st, At(ext)) && m in L.ids && x in L.ids && V <= L.ids
    requires forall k :: k in L.ids ==> (k in V <==> Below(L, st.mt, m, k))
    requires forall k :: k in V ==> st.mt[k].ns
    ensures Again(L, st, V, x) <==> Overdue(L, st.mt, m, x)
  {
    Plain(L, st, ext, x);
    assert L.pinners ==> !L.disown;
    if !L.disown { PinsIs(L, st, ext, m, V, x); }
    MarkAt(st.mt, V, x, true);
    if st.mt[x].Attached() { MarkAt(st.mt, V, L.parent[x], true); }
    hide Inv, PinsDying, PinsVictim, Layout.Valid, Below;
  }

  // ---- the order of the list ------------------------------------------------------------------

  /** In tree order. */
  ghost predicate Rising(L: Layout, u: seq<Mnt>)
    requires L.Valid() && forall i :: 0 <= i < |u| ==> u[i] in L.ids
  {
    forall i, j {:trigger u[i], u[j]} :: 0 <= i < j < |u| ==> Before(L, u[i], u[j])
  }

  lemma {:induction false} OrderedRises(L: Layout, S: set<Mnt>)
    requires L.Valid() && S <= L.ids
    ensures forall i :: 0 <= i < |Ordered(L, S)| ==> Ordered(L, S)[i] in L.ids
    ensures Rising(L, Ordered(L, S))
    decreases |S|
  {
    if S != {} {
      OrderedFirst(L, S);
      var x := Ordered(L, S)[0];
      OrderedRises(L, S - {x});
      RisesFrom(L, x, S, Ordered(L, S - {x}));
    }
  }

  lemma {:induction false} RisesFrom(L: Layout, x: Mnt, S: set<Mnt>, r: seq<Mnt>)
    requires L.Valid() && x in S && S <= L.ids && IsFirst(L, x, S)
    requires (forall i :: 0 <= i < |r| ==> r[i] in S && r[i] in L.ids) && Rising(L, r)
    ensures (forall i :: 0 <= i < |[x] + r| ==> ([x] + r)[i] in L.ids) && Rising(L, [x] + r)
  {
    assert L.depth.Keys == L.ids;
    hide Layout.Valid, Before;
    var a := [x] + r;
    forall i, j | 0 <= i < j < |a| ensures Before(L, a[i], a[j]) {
      if i > 0 { assert Before(L, r[i - 1], r[j - 1]); }
    }
  }

  lemma {:induction false} OrderedFirst(L: Layout, S: set<Mnt>)
    requires S <= L.depth.Keys && S != {}
    ensures var r := Ordered(L, S);
      |r| > 0 && r[0] in S && IsFirst(L, r[0], S) && r == [r[0]] + Ordered(L, S - {r[0]})
  {
    hide IsFirst;
  }

  lemma {:induction false} EachList(L: Layout, st: State, s: seq<Mnt>, how: How) returns (u: seq<Mnt>)
    requires L.Valid() && (forall i :: 0 <= i < |s| ==> s[i] in st.mt && s[i] in L.ids) && Rising(L, s)
    ensures UmountEach(L, st, s, how).unm == st.unm + u
    ensures (forall i :: 0 <= i < |u| ==> u[i] in L.ids && u[i] in s) && Rising(L, u)
    decreases |s|
  {
    hide Layout.Valid, Disconnect;
    if s == [] {
      u := [];
    } else {
      var st1 := UmountOne(L, st, s[0], how);
      var w := EachList(L, st1, s[1..], how);
      u := if st1.unm == st.unm then w else [s[0]] + w;
    }
  }

  /** The list, from an empty one: the victims that are to be put and the mounts
      looked at again, each in tree order. */
  lemma {:induction false} TreeList(L: Layout, st: State, m: Mnt, how: How) returns (u: seq<Mnt>, w: seq<Mnt>)
    requires L.Valid() && Typed(L, st) && m in L.ids && st.unm == []
    ensures UmountTree(L, st, m, how).unm == if L.disown then u else Reverse(u + w)
    ensures (forall i :: 0 <= i < |u| ==> u[i] in L.ids && u[i] in Subtree(st.mt, {m})) && Rising(L, u)
    ensures (forall i :: 0 <= i < |w| ==> w[i] in L.ids && w[i] !in Subtree(st.mt, {m})) && Rising(L, w)
  {
    hide UmountEach, Subtree, Ordered, Reverse, MarkUmount, Late, Rising, Before, Victims, UmountTree;
    var V := Subtree(st.mt, {m});
    var st0 := st.(mt := MarkUmount(st.mt, V));
    UmountIs(L, st, m, how);
    OrderedRises(L, V);
    var s := Ordered(L, V);
    assert MarkUmount(st.mt, V).Keys == st.mt.Keys by { MarkAt(st.mt, V, m, true); }
    u := EachList(L, st0, s, how);
    assert [] + u == u;
    var z := UmountEach(L, st0, s, how);
    assert Victims(L, st, m, how) == z by { VictimsIs(L, st, m, how); }
    if L.pinners && L.reexamine {
      LateOut(L, z, V);
      OrderedRises(L, Late(z, V));
      w := Ordered(L, Late(z, V));
    } else {
      w := [];
      assert u + w == u;
      assert Rising(L, w) by { NoneRises(L); }
    }
    hide Layout.Valid;
  }

  lemma {:induction false} NoneRises(L: Layout)
    requires L.Valid()
    ensures Rising(L, [])
  {
  }

  lemma {:induction false} VictimsIs(L: Layout, st: State, m: Mnt, how: How)
    requires L.Valid() && st.mt.Keys == L.ids && m in L.ids
    ensures var V := Subtree(st.mt, {m});
            Victims(L, st, m, how) == UmountEach(L, st.(mt := MarkUmount(st.mt, V)), Ordered(L, V), how)
  {
    hide UmountEach, Ordered;
  }

  lemma {:induction false} LateOut(L: Layout, st: State, V: set<Mnt>)
    requires L.Valid() && st.mt.Keys == L.ids
    ensures Late(st, V) <= L.ids && Late(st, V) !! V
  {
  }

  lemma {:induction false} ReverseAt(s: seq<Mnt>, k: nat)
    requires k < |s|
    ensures |Reverse(s)| == |s| && Reverse(s)[k] == s[|s| - 1 - k]
    decreases |s|
  {
    ReverseLength(s);
    ReverseLength(s[1..]);
    if k < |s| - 1 { ReverseAt(s[1..], k); }
  }

  /** With tombstones in tree order; else last first, what is looked at again before the
      victims. */
  ghost predicate ListedInOrder(L: Layout, mt: map<Mnt, Mount>, m: Mnt, v: seq<Mnt>)
    requires L.Valid() && mt.Keys == L.ids && forall i :: 0 <= i < |v| ==> v[i] in L.ids
  {
    forall i, j {:trigger v[i], v[j]} :: 0 <= i < j < |v| ==>
      if L.disown then Before(L, v[i], v[j])
      else if Below(L, mt, m, v[i]) == Below(L, mt, m, v[j]) then Before(L, v[j], v[i])
      else Below(L, mt, m, v[j])
  }

  lemma {:induction false} PairOrder(L: Layout, mt: map<Mnt, Mount>, m: Mnt, u: seq<Mnt>, w: seq<Mnt>, x: nat, y: nat)
    requires L.Valid() && mt.Keys == L.ids && y < x < |u| + |w|
    requires (forall i :: 0 <= i < |u| ==> u[i] in L.ids && Below(L, mt, m, u[i])) && Rising(L, u)
    requires (forall i :: 0 <= i < |w| ==> w[i] in L.ids && !Below(L, mt, m, w[i])) && Rising(L, w)
    ensures var a, b := (u + w)[x], (u + w)[y];
      && a in L.ids && b in L.ids
      && if Below(L, mt, m, a) == Below(L, mt, m, b) then Before(L, b, a) else Below(L, mt, m, b)
  {
    assert L.depth.Keys == L.ids;
    hide Layout.Valid, Before, Below;
    if x < |u| { assert Before(L, u[y], u[x]); }
    else if y >= |u| { assert Before(L, w[y - |u|], w[x - |u|]); }
  }

  lemma {:induction false} ListOrder(L: Layout, mt: map<Mnt, Mount>, m: Mnt, u: seq<Mnt>, w: seq<Mnt>, v: seq<Mnt>)
    requires L.Valid() && mt.Keys == L.ids && v == if L.disown then u else Reverse(u + w)
    requires (forall i :: 0 <= i < |u| ==> u[i] in L.ids && Below(L, mt, m, u[i])) && Rising(L, u)
    requires (forall i :: 0 <= i < |w| ==> w[i] in L.ids && !Below(L, mt, m, w[i])) && Rising(L, w)
    ensures (forall i :: 0 <= i < |v| ==> v[i] in L.ids) && ListedInOrder(L, mt, m, v)
  {
    assert L.depth.Keys == L.ids;
    hide Layout.Valid, Before, Below, Reverse;
    if !L.disown {
      var a := u + w;
      ReverseLength(a);
      forall k | 0 <= k < |v| ensures v[k] == a[|a| - 1 - k] && v[k] in L.ids { ReverseAt(a, k); }
      forall i, j | 0 <= i < j < |v|
        ensures if Below(L, mt, m, v[i]) == Below(L, mt, m, v[j]) then Before(L, v[j], v[i]) else Below(L, mt, m, v[j])
      { PairOrder(L, mt, m, u, w, |a| - 1 - i, |a| - 1 - j); }
    }
  }

  lemma {:induction false} ReverseLength(s: seq<Mnt>)
    ensures |Reverse(s)| == |s|
    decreases |s|
  {
    if s != [] { ReverseLength(s[1..]); }
  }

  // ---- the fate of every mount ------------------------------------------------------------------

  /** A mount and its entries on the list before and after. */
  ghost predicate FateOK(L: Layout, a: State, b: State, m: Mnt, how: How, x: Mnt)
    requires L.Valid() && a.mt.Keys == L.ids == b.mt.Keys && x in L.ids
  {
    var down := Below(L, a.mt, m, x);
    var stays := if down then KeepsParent(L, a.mt, m, how, x) else !Overdue(L, a.mt, m, x);
    && b.mt[x] == a.mt[x].(umount := a.mt[x].umount || down, ns := a.mt[x].ns && !down,
                           parent := if stays then a.mt[x].parent else NO_MNT, attached := stays && a.mt[x].attached)
    && UnmN(b.unm, x) == if stays then Bit(down && L.disown) else 1
  }

  lemma {:induction false} VictimSet(L: Layout, st: State, ext: map<Mnt, nat>, m: Mnt)
    requires Inv(L, st, At(ext)) && m in L.ids && st.mt[m].ns
    ensures L.Valid() && st.mt.Keys == L.ids && Subtree(st.mt, {m}) <= L.ids
    ensures forall k :: k in L.ids ==> (k in Subtree(st.mt, {m}) <==> Below(L, st.mt, m, k))
    ensures forall k :: k in Subtree(st.mt, {m}) ==> st.mt[k].ns
  {
    hide MountOK, SbOK, Subtree, TreeSet, Below;
    SubtreeIsTree(st.mt, m, {m});
    SubtreeAllNs(L, st, At(ext), m, {m});
    forall k | k in L.ids ensures k in Subtree(st.mt, {m}) <==> Below(L, st.mt, m, k) { TreeIsBelow(L, st, ext, m, k); }
  }

  lemma {:induction false} TreeFate(L: Layout, st: State, ext: map<Mnt, nat>, m: Mnt, how: How, x: Mnt)
    requires Inv(L, st, At(ext)) && m in L.ids && st.mt[m].ns && x in L.ids && st.unm == []
    ensures UmountTree(L, st, m, how).mt.Keys == L.ids == st.mt.Keys
    ensures FateOK(L, st, UmountTree(L, st, m, how), m, how, x)
  {
    VictimSet(L, st, ext, m);
    hide Inv, Layout.Valid, Subtree, UmountTree, Leaves, Again, Below, KeepsParent, Overdue, UnmN, UmountRec;
    var V := Subtree(st.mt, {m});
    UmountTreeAt(L, st, m, how, x);
    AgainIs(L, st, ext, m, V, x);
    if x in V { LeavesIs(L, st, ext, m, V, how, x); }
    UnmEmpty(x);
    AgainOut(L, st, V, x);
    hide FateOK;
    FateFrom(L, st, UmountTree(L, st, m, how), m, V, how, x);
  }

  lemma {:induction false} FateFrom(L: Layout, st: State, z: State, m: Mnt, V: set<Mnt>, how: How, x: Mnt)
    requires L.Valid() && st.mt.Keys == L.ids == z.mt.Keys && x in L.ids && UnmN(st.unm, x) == 0
    requires z.mt[x] == UmountRec(L, st, V, x, how)
    requires UnmN(z.unm, x)
        == UnmN(st.unm, x) + Bit(x in V && (L.disown || Leaves(L, st, V, x, how))) + Bit(Again(L, st, V, x))
    requires x in V <==> Below(L, st.mt, m, x)
    requires x in V ==> (Leaves(L, st, V, x, how) <==> !KeepsParent(L, st.mt, m, how, x))
    requires (Again(L, st, V, x) <==> Overdue(L, st.mt, m, x)) && (Again(L, st, V, x) ==> x !in V)
    ensures FateOK(L, st, z, m, how, x)
  {
    hide Layout.Valid, Leaves, Again, Below, KeepsParent, Overdue, UnmN, UmountRec;
    RecFate(L, st, V, x, how);
  }

  lemma {:induction false} AgainOut(L: Layout, st: State, V: set<Mnt>, x: Mnt)
    requires L.Valid()
    ensures Again(L, st, V, x) ==> x !in V && !L.disown
  {
  }

  lemma {:induction false} RecFate(L: Layout, st: State, V: set<Mnt>, x: Mnt, how: How)
    requires x in st.mt
    ensures var r, f := st.mt[x], UmountRec(L, st, V, x, how);
            var stays := if x in V then !Leaves(L, st, V, x, how) else !Again(L, st, V, x);
      f == r.(umount := r.umount || x in V, ns := r.ns && x !in V,
              parent := if stays then r.parent else NO_MNT, attached := stays && r.attached)
  {
    hide Leaves, Again;
  }

  /** Everything umount_tree() leaves of a state. */
  ghost predicate AllFates(L: Layout, a: State, b: State, m: Mnt, how: How)
    requires L.Valid() && a.mt.Keys == L.ids
  {
    && b.mt.Keys == L.ids && b.sbs == a.sbs && b.cleanq == a.cleanq
    && (forall x {:trigger FateOK(L, a, b, m, how, x)} :: x in L.ids ==> FateOK(L, a, b, m, how, x))
    && (forall i :: 0 <= i < |b.unm| ==> b.unm[i] in L.ids) && ListedInOrder(L, a.mt, m, b.unm)
  }

  lemma {:induction false} TreeOrder(L: Layout, st: State, ext: map<Mnt, nat>, m: Mnt, how: How)
    requires L.Valid() && Typed(L, st) && m in L.ids && st.unm == []
    requires forall k :: k in L.ids ==> (k in Subtree(st.mt, {m}) <==> Below(L, st.mt, m, k))
    ensures var v := UmountTree(L, st, m, how).unm;
      (forall i :: 0 <= i < |v| ==> v[i] in L.ids) && ListedInOrder(L, st.mt, m, v)
  {
    hide Layout.Valid, Subtree, UmountTree, Below, Rising, ListedInOrder, Reverse;
    var u, w := TreeList(L, st, m, how);
    ListOrder(L, st.mt, m, u, w, UmountTree(L, st, m, how).unm);
  }

  lemma {:induction false} TreeFates(L: Layout, st: State, ext: map<Mnt, nat>, m: Mnt, how: How)
    requires Inv(L, st, At(ext)) && m in L.ids && st.mt[m].ns && st.unm == []
    ensures L.Valid() && st.mt.Keys == L.ids && AllFates(L, st, UmountTree(L, st, m, how), m, how)
  {
    InvTyped(L, st, ext);
    VictimSet(L, st, ext, m);
    var z := UmountTree(L, st, m, how);
    TreeShape(L, st, m, how);
    TreeOrder(L, st, ext, m, how);
    hide Inv, Typed, Layout.Valid, Subtree, UmountTree, Below, FateOK, ListedInOrder;
    forall x | x in L.ids ensures FateOK(L, st, z, m, how, x) { TreeFate(L, st, ext, m, how, x); }
  }

  lemma {:induction false} TreeShape(L: Layout, st: State, m: Mnt, how: How)
    requires L.Valid() && st.mt.Keys == L.ids && m in L.ids
    ensures var z := UmountTree(L, st, m, how); z.mt.Keys == L.ids && z.cleanq == st.cleanq && z.sbs == st.sbs
  {
    UmountTreeAt(L, st, m, how, m);
    hide Layout.Valid, Subtree, UmountTree, UmountRec, UnmN, Again, Leaves;
  }

  lemma {:induction false} InvTyped(L: Layout, st: State, ext: map<Mnt, nat>)
    requires Inv(L, st, At(ext))
    ensures Typed(L, st)
  {
    hide MountOK, SbOK, Layout.Valid;
  }

  lemma {:induction false} UmountsTree(L: Layout, y: Sys, z: Sys, m: Mnt, how: How)
    requires Good(L, y) && L.Valid() && y.st.mt.Keys == L.ids && Umounts(L, y, z, m, how)
    ensures m in L.ids && y.st.mt[m].ns && y.st.unm == [] && z.st == UmountTree(L, y.st, m, how)
    ensures z.ext == y.ext && z.users == y.users
  {
    hide Inv, UmountTree, Layout.Valid, Kids;
    RootIn(L);
  }

  lemma {:induction false} RootIn(L: Layout)
    requires L.Valid()
    ensures L.root in L.ids
  {
  }

  /** Every umount of every run, whatever its kind: exactly the mounts below its top leave
      the namespace; one of them stays with its parent, and off the list, if and only if it
      is not the top, the umount is not synchronous and is a connected one or the
      mount is locked, and it pins no dying mount where that counts; of all other
      mounts only those left over that pin one now lose theirs; each mount that loses
      its parent is put once, in the order namespace_unlock() needs; nothing else
      changes. */
  lemma {:induction false} UmountFates(L: Layout, tr: seq<Sys>, i: nat, m: Mnt, how: How)
    requires Run(L, tr) && i + 1 < |tr| && L.Valid() && tr[i].st.mt.Keys == L.ids
    requires Umounts(L, tr[i], tr[i + 1], m, how)
    ensures AllFates(L, tr[i].st, tr[i + 1].st, m, how)
    ensures tr[i + 1].ext == tr[i].ext && tr[i + 1].users == tr[i].users
  {
    hide Run, AllFates, Layout.Valid, Umounts, Inv, UmountTree;
    Reachable(L, tr, i);
    UmountsTree(L, tr[i], tr[i + 1], m, how);
    TreeFates(L, tr[i].st, tr[i].ext, m, how);
  }

  // ---- the synchronous umount ---------------------------------------------------------------------

  /** Nobody has a reference to m but the namespace. */
  ghost predicate Unheld(L: Layout, y: Sys, m: Mnt)
    requires m in y.ext
  {
    y.ext[m] == 0 && PinN(L, y.st.sbs, m) == 0 && StuckN(y.st.mt, m) == 0
  }

  lemma {:induction false} CountIsOne(L: Layout, st: State, ext: map<Mnt, nat>, m: Mnt)
    requires Inv(L, st, At(ext)) && m in L.ids && st.mt[m].ns && st.unm == []
    ensures m in ext
    ensures st.mt[m].count == 1 <==> ext[m] == 0 && PinN(L, st.sbs, m) == 0 && StuckN(st.mt, m) == 0
  {
    InvPair(L, st, At(ext), m);
    UnmEmpty(m);
    hide PinN, StuckN, UnmN, SbOK, Layout.Valid, ParentRec, LinkOK;
  }

  /** umount(2) without MNT_DETACH is possible exactly for an unlocked mount of the
      namespace that nothing is attached to and nobody holds. */
  lemma {:induction false} SyncIff(L: Layout, tr: seq<Sys>, i: nat, m: Mnt)
    requires Run(L, tr) && i < |tr| && L.Valid() && tr[i].st.mt.Keys == L.ids && m in L.ids && m in tr[i].ext
    ensures (exists z {:trigger SyncUmount(L, tr[i], z, m)} :: SyncUmount(L, tr[i], z, m))
        <==> Victim(L, tr[i], m) && !tr[i].st.mt[m].locked && Unheld(L, tr[i], m)
             && (forall k :: k in L.ids ==>
                   !(tr[i].st.mt[k].parent == m && tr[i].st.mt[k].attached && !tr[i].st.mt[k].freed))
             && !(L.pinBusy && exists s :: s in tr[i].st.sbs && tr[i].st.sbs[s].active > 0 && tr[i].st.sbs[s].pin == m)
  {
    var y := tr[i];
    Reachable(L, tr, i);
    hide Inv, UmountTree, Layout.Valid;
    if Victim(L, y, m) { CountIsOne(L, y.st, y.ext, m); }
    hide PinN, StuckN;
    var z := y.(st := UmountTree(L, y.st, m, How(true, false)));
    if Victim(L, y, m) && !y.st.mt[m].locked && Unheld(L, y, m)
       && (forall k :: k in L.ids ==> !(y.st.mt[k].parent == m && y.st.mt[k].attached && !y.st.mt[k].freed))
       && !(L.pinBusy && exists s :: s in y.st.sbs && y.st.sbs[s].active > 0 && y.st.sbs[s].pin == m)
    {
      assert Kids(y.st.mt, m) == {};
      assert SyncUmount(L, y, z, m);
    }
    assert Kids(y.st.mt, m) == {} ==> forall k :: k in L.ids ==> k !in Kids(y.st.mt, m);
  }

  lemma {:induction false} NothingBelow(L: Layout, mt: map<Mnt, Mount>, m: Mnt, x: Mnt)
    requires L.Valid() && mt.Keys == L.ids && m in L.ids && x in L.ids && Kids(mt, m) == {} && Below(L, mt, m, x)
    ensures x == m
    decreases L.depth[x]
  {
    KidIs(mt, m, x);
    if x != m { NothingBelow(L, mt, m, L.parent[x]); }
  }

  lemma {:induction false} KidIs(mt: map<Mnt, Mount>, m: Mnt, x: Mnt)
    requires x in mt
    ensures x in Kids(mt, m) <==> !mt[x].freed && mt[x].parent == m && mt[x].attached
  {
  }

  /** It takes that mount and no other, and the put namespace_unlock() owes it is the last
      one: the mount is doomed and its cleanup queued. */
  lemma {:induction false} SyncIsLast(L: Layout, tr: seq<Sys>, i: nat, m: Mnt)
    requires Run(L, tr) && i + 1 < |tr| && L.Valid() && tr[i].st.mt.Keys == L.ids && SyncUmount(L, tr[i], tr[i + 1], m)
    ensures m in L.ids && m in tr[i + 1].st.mt
    ensures forall x :: x in L.ids && Below(L, tr[i].st.mt, m, x) ==> x == m
    ensures UnmN(tr[i + 1].st.unm, m) == 1
    ensures var z := Put(L, tr[i + 1].st, m); z.mt[m].doomed && m in z.cleanq
  {
    var y, z := tr[i], tr[i + 1];
    var how := How(true, false);
    hide Run, Layout.Valid, UmountTree, Inv, UnmN, PinsDying, Overdue, AllFates, Below, Put, Kids;
    assert Umounts(L, y, z, m, how);
    SyncFacts(L, y, z, m);
    UmountFates(L, tr, i, m, how);
    Reachable(L, tr, i);
    NsAlive(L, y.st, y.ext, m);
    forall x | x in L.ids && Below(L, y.st.mt, m, x) ensures x == m { NothingBelow(L, y.st.mt, m, x); }
    FateAt(L, y.st, z.st, m, how, m);
    BelowTop(L, y.st.mt, m);
    LastPut(L, z.st, m);
  }

  lemma {:induction false} SyncFacts(L: Layout, y: Sys, z: Sys, m: Mnt)
    requires L.Valid() && y.st.mt.Keys == L.ids && SyncUmount(L, y, z, m)
    ensures m in L.ids && y.st.mt[m].ns && y.st.mt[m].count == 1 && Kids(y.st.mt, m) == {}
  {
    hide UmountTree, Kids;
  }

  lemma {:induction false} FateAt(L: Layout, a: State, b: State, m: Mnt, how: How, x: Mnt)
    requires L.Valid() && a.mt.Keys == L.ids && x in L.ids && AllFates(L, a, b, m, how)
    ensures b.mt.Keys == L.ids && FateOK(L, a, b, m, how, x)
  {
    hide FateOK, Layout.Valid;
  }

  lemma {:induction false} BelowTop(L: Layout, mt: map<Mnt, Mount>, m: Mnt)
    requires L.Valid() && mt.Keys == L.ids && m in L.ids
    ensures Below(L, mt, m, m)
  {
  }

  lemma {:induction false} LastPut(L: Layout, st: State, m: Mnt)
    requires m in st.mt && st.mt[m].count == 1 && !st.mt[m].ns && !st.mt[m].doomed && !st.mt[m].Attached()
    ensures Put(L, st, m).mt[m].doomed && m in Put(L, st, m).cleanq
  {
    hide Kids;
  }

  lemma {:induction false} NsAlive(L: Layout, st: State, ext: map<Mnt, nat>, m: Mnt)
    requires Inv(L, st, At(ext)) && m in L.ids && st.mt[m].ns
    ensures !st.mt[m].doomed
  {
    InvPair(L, st, At(ext), m);
    NsFresh(L, st, ext, m);
  }

  /** Only a connected umount, or the end of the namespace, takes a locked top. */
  lemma {:induction false} TopUnlocked(L: Layout, tr: seq<Sys>, i: nat, m: Mnt, how: How)
    requires Run(L, tr) && i + 1 < |tr| && L.Valid() && tr[i].st.mt.Keys == L.ids
    requires Umounts(L, tr[i], tr[i + 1], m, how)
    ensures m in L.ids && (m == L.root || how.connected || !tr[i].st.mt[m].locked)
    ensures m == L.root <==> PutMntNs(L, tr[i], tr[i + 1])
  {
  }
}
