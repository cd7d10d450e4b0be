/** Every action of the ownership model keeps the counting invariant. */
module MntOwnSteps {
  import opened MntOwn
  import opened MntOwnCount
  import opened Finite

  /** Between actions nothing is owed. */
  ghost function At(ext: map<Mnt, nat>): (g: Tokens) { Tokens(ext, multiset{}, multiset{}, {}) }

  // ---- cleanup_mnt() --------------------------------------------------------------

  /** What a cleanup of m owes once it has taken the stuck list: a put for every
      stuck child, the superblock m held, and for a tombstone's release visit m's
      pending reference. */
  ghost function Owed(ext: map<Mnt, nat>, m: Mnt, r: Mount): (g: Tokens) {
    Tokens(ext,
      multiset(r.stuck) + (if r.release then multiset{m} else multiset{}),
      if HeldSb(r) == NULL_SB then multiset{} else multiset{HeldSb(r)},
      if r.release then {} else {m})
  }

  lemma {:induction false} TakeStuckN(st: State, m: Mnt, x: Mnt)
    requires m in st.mt
    ensures StuckN(TakeStuck(st, m).mt, x) == StuckN(st.mt, x) - Bit(x in st.mt[m].stuck)
  {
    var mt' := TakeStuck(st, m).mt;
    if x in st.mt[m].stuck {
      assert Stuckers(mt', x) == Stuckers(st.mt, x) - {m};
      assert m in Stuckers(st.mt, x);
    } else {
      StuckSame(st.mt, mt', x);
    }
  }

  /** m stops holding its superblock up; the token does. */
  lemma {:induction false} TakeHoldN(st: State, ext: map<Mnt, nat>, m: Mnt, s: SbId)
    requires m in st.mt && s != NULL_SB && !st.mt[m].freed && (st.mt[m].release ==> st.mt[m].sb == NULL_SB)
    ensures HoldN(TakeStuck(st, m), Owed(ext, m, st.mt[m]), s) == HoldN(st, At(ext), s) - Bit(s == HeldSb(st.mt[m]))
  {
    var A := Holders(st, At(ext), s);
    var B := Holders(TakeStuck(st, m), Owed(ext, m, st.mt[m]), s);
    if s == HeldSb(st.mt[m]) {
      assert B == A - {m};
      assert m in A;
    } else {
      assert B == A;
    }
  }

  lemma {:induction false} OwedAt(ext: map<Mnt, nat>, m: Mnt, r: Mount, x: nat)
    ensures Owed(ext, m, r).pend[x] == Bit(x in r.stuck) + Bit(r.release && x == m)
    ensures x != 0 ==> Owed(ext, m, r).spend[x] == Bit(x == HeldSb(r))
  {
  }

  lemma {:induction false} TakeLife(L: Layout, m: Mnt, r: Mount, p: Mount)
    requires L.Valid() && m in L.ids && LifeRec(L, m, r, true, false, p)
    ensures LifeRec(L, m, r.(stuck := {}, release := false), false, !r.release, p)
  {
    hide Layout.Valid;
  }

  /** A parent that can own a child still can. */
  lemma {:induction false} TakeLink(L: Layout, st: State, m: Mnt, x: Mnt, c: Mount)
    requires L.Valid() && st.mt.Keys == L.ids && m in L.ids && x in L.ids && LinkOK(c, ParentRec(L, st.mt, x))
    ensures LinkOK(c, ParentRec(L, TakeStuck(st, m).mt, x))
  {
    var y := if x == L.root then x else L.parent[x];
    assert y in L.ids;
    hide Layout.Valid;
  }

  lemma {:induction false} LifeLink(L: Layout, m: Mnt, r: Mount, queued: bool, cleaning: bool, p: Mount)
    requires L.Valid() && m in L.ids && LifeRec(L, m, r, queued, cleaning, p)
    ensures r.Attached() ==> LinkOK(r, p)
  {
    hide Layout.Valid, LinkOK;
  }

  lemma {:induction false} TakeLifeAt(L: Layout, st: State, ext: map<Mnt, nat>, m: Mnt, x: Mnt)
    requires L.Valid() && st.mt.Keys == L.ids && ext.Keys == L.ids && m in L.ids && x in L.ids && m in st.cleanq
    requires LifeOK(L, st, At(ext), m) && LifeOK(L, st, At(ext), x)
    ensures LifeOK(L, TakeStuck(st, m), Owed(ext, m, st.mt[m]), x)
  {
    hide Layout.Valid, LifeRec, ParentRec, LinkOK;
    var p := ParentRec(L, st.mt, x);
    var p' := ParentRec(L, TakeStuck(st, m).mt, x);
    var r := TakeStuck(st, m).mt[x];
    LifeLink(L, x, st.mt[x], x in st.cleanq, false, p);
    if x == m { TakeLife(L, m, st.mt[m], p); }
    if st.mt[x].Attached() { TakeLink(L, st, m, x, st.mt[x]); LinkOnly(st.mt[x], r, p'); }
    LinkLife(L, x, r, x in st.cleanq && x != m, x == m && !st.mt[m].release, p, p');
  }

  lemma {:induction false} LinkOnly(c: Mount, d: Mount, p: Mount)
    requires LinkOK(c, p) && c.ns == d.ns
    ensures LinkOK(d, p)
  {
  }

  lemma {:induction false} TakeRefsAt(L: Layout, st: State, ext: map<Mnt, nat>, m: Mnt, x: Mnt)
    requires L.Valid() && st.mt.Keys == L.ids && ext.Keys == L.ids && m in L.ids && x in L.ids
    requires MountOK(L, st, At(ext), x)
    ensures TakeStuck(st, m).mt[x].count == Refs(L, TakeStuck(st, m), Owed(ext, m, st.mt[m]), x)
  {
    hide StuckN, PinN, UnmN, LifeOK, Layout.Valid;
    TakeStuckN(st, m, x);
    OwedAt(ext, m, st.mt[m], x);
    hide Owed;
  }

  lemma {:induction false} TakeSupers(L: Layout, st: State, ext: map<Mnt, nat>, m: Mnt, s: SbId)
    requires L.Valid() && Typed(L, st) && ext.Keys == L.ids && m in st.cleanq && s in L.sbIds
    requires MountOK(L, st, At(ext), m) && SbOK(L, st, At(ext), s)
    ensures SbOK(L, TakeStuck(st, m), Owed(ext, m, st.mt[m]), s)
  {
    hide HoldN, KeepN, Refs, HeldSb, ParentRec, LinkOK, Owned;
    TakeHoldN(st, ext, m, s);
    OwedAt(ext, m, st.mt[m], s);
    hide Owed, MountOK;
  }

  lemma {:induction false} QueuedRec(L: Layout, m: Mnt, r: Mount, p: Mount)
    requires L.Valid() && m in L.ids && LifeRec(L, m, r, true, false, p)
    ensures r.stuck <= L.ids && (HeldSb(r) == NULL_SB || HeldSb(r) in L.sbIds)
  {
    assert L.sb[m] in L.sbIds;
    hide Layout.Valid, LinkOK;
  }

  lemma {:induction false} TakeShape(L: Layout, st: State, ext: map<Mnt, nat>, m: Mnt)
    requires Shape(L, st, At(ext)) && m in L.ids && m in st.cleanq && LifeOK(L, st, At(ext), m)
    ensures Shape(L, TakeStuck(st, m), Owed(ext, m, st.mt[m]))
  {
    hide ParentRec, LifeRec, Layout.Valid;
    QueuedRec(L, m, st.mt[m], ParentRec(L, st.mt, m));
    var g := Owed(ext, m, st.mt[m]);
    forall x | x in g.pend ensures x in L.ids { OwedAt(ext, m, st.mt[m], x); }
    hide HeldSb;
  }

  lemma {:induction false} TakeKeeps(L: Layout, st: State, ext: map<Mnt, nat>, m: Mnt)
    requires Inv(L, st, At(ext)) && m in st.cleanq && m in L.ids
    ensures Inv(L, TakeStuck(st, m), Owed(ext, m, st.mt[m]))
  {
    hide LifeOK, Refs, SbOK, TakeStuck, Owed, Layout.Valid;
    assert MountOK(L, st, At(ext), m);
    TakeShape(L, st, ext, m);
    var st' := TakeStuck(st, m);
    var g' := Owed(ext, m, st.mt[m]);
    forall x | x in L.ids ensures MountOK(L, st', g', x) {
      assert MountOK(L, st, At(ext), x);
      TakeLifeAt(L, st, ext, m, x);
      TakeRefsAt(L, st, ext, m, x);
    }
    forall s | s in L.sbIds ensures SbOK(L, st', g', s) {
      assert SbOK(L, st, At(ext), s);
      TakeSupers(L, st, ext, m, s);
    }
  }

  /** The mount whose cleanup ends is freed. */
  ghost function Free(st: State, m: Mnt): (r: State)
    requires m in st.mt
  {
    st.(mt := st.mt[m := st.mt[m].(freed := true, attached := false, parent := NO_MNT)])
  }

  lemma {:induction false} FreeRec(L: Layout, m: Mnt, r: Mount, p: Mount, p': Mount)
    requires L.Valid() && m in L.ids && LifeRec(L, m, r, false, true, p)
    ensures LifeRec(L, m, r.(freed := true, attached := false, parent := NO_MNT), false, false, p')
  {
    hide Layout.Valid;
  }

  lemma {:induction false} FreeLife(L: Layout, st: State, ext: map<Mnt, nat>, m: Mnt, x: Mnt)
    requires Pair(L, st, At(ext).(fin := {m}), m, x)
    ensures LifeOK(L, Free(st, m), At(ext), x)
  {
    hide Refs;
    var p := ParentRec(L, st.mt, x);
    var p' := ParentRec(L, Free(st, m).mt, x);
    assert LinkOK(st.mt[x], p) ==> LinkOK(st.mt[x], p');
    assert st.mt[x].Attached() ==> LinkOK(st.mt[x], p);
    hide Layout.Valid, ParentRec;
    LinkLife(L, x, st.mt[x], x in st.cleanq, x == m, p, p');
    if x == m { FreeRec(L, m, st.mt[m], p, p'); }
    hide LifeRec;
  }

  lemma {:induction false} FreeRefs(L: Layout, st: State, ext: map<Mnt, nat>, m: Mnt, x: Mnt)
    requires Pair(L, st, At(ext).(fin := {m}), m, x)
    ensures Free(st, m).mt[x].count == Refs(L, Free(st, m), At(ext), x)
  {
    hide Layout.Valid, StuckN, PinN, UnmN, ParentRec, LinkOK;
    StuckSame(st.mt, Free(st, m).mt, x);
  }

  lemma {:induction false} FreeKeeps(L: Layout, st: State, ext: map<Mnt, nat>, m: Mnt)
    requires Inv(L, st, At(ext).(fin := {m})) && m in L.ids
    ensures Inv(L, Free(st, m), At(ext))
  {
    hide LifeOK, Refs, Layout.Valid, KeepN, HoldN;
    var g := At(ext).(fin := {m});
    var st' := Free(st, m);
    assert MountOK(L, st, g, m);
    forall x | x in L.ids ensures MountOK(L, st', At(ext), x) {
      assert MountOK(L, st, g, x);
      FreeLife(L, st, ext, m, x);
      FreeRefs(L, st, ext, m, x);
    }
    forall s | s in L.sbIds ensures SbOK(L, st', At(ext), s) {
      assert SbOK(L, st, g, s);
      FreeHolds(L, st, ext, m, s);
    }
  }

  lemma {:induction false} FreeHolds(L: Layout, st: State, ext: map<Mnt, nat>, m: Mnt, s: SbId)
    requires L.Valid() && m in st.mt && s in L.sbIds
    ensures HoldN(Free(st, m), At(ext), s) == HoldN(st, At(ext).(fin := {m}), s)
  {
    assert Holders(Free(st, m), At(ext), s) == Holders(st, At(ext).(fin := {m}), s);
  }

  lemma {:induction false} OwedLess(ext: map<Mnt, nat>, m: Mnt, r: Mount, s: seq<Mnt>)
    requires multiset(s) == multiset(r.stuck)
    ensures multiset(s) <= Owed(ext, m, r).pend
    ensures Owed(ext, m, r).pend - multiset(s) == if r.release then multiset{m} else multiset{}
  {
  }

  /** The state of a cleanup once every stuck child is put. */
  lemma {:induction false} StuckPut(L: Layout, st: State, ext: map<Mnt, nat>, m: Mnt, s: seq<Mnt>)
    requires Inv(L, st, At(ext)) && m in st.cleanq && m in L.ids && m in st.mt
    requires multiset(s) == multiset(st.mt[m].stuck) && forall i :: 0 <= i < |s| ==> s[i] in st.mt
    ensures Inv(L, PutAll(L, TakeStuck(st, m), s),
                Owed(ext, m, st.mt[m]).(pend := if st.mt[m].release then multiset{m} else multiset{}))
  {
    hide Inv, PutAll;
    TakeKeeps(L, st, ext, m);
    OwedLess(ext, m, st.mt[m], s);
    PutAllKeeps(L, TakeStuck(st, m), Owed(ext, m, st.mt[m]), s);
  }

  /** The superblock of a cleanup goes. */
  lemma {:induction false} HeldDropped(L: Layout, st: State, g: Tokens, s: SbId)
    requires Inv(L, st, g) && s in L.sbIds && g.spend == multiset{s}
    requires L.Valid() && st.mt.Keys == L.ids && st.sbs.Keys == L.sbIds
    requires forall u :: u in L.sbIds ==> st.sbs[u].pin == L.pin[u]
    ensures Inv(L, DropSb(L, st, s), g.(spend := multiset{}))
  {
    hide Inv, DropSb;
    DropSbKeeps(L, st, g, s);
    assert g.spend - multiset{s} == multiset{};
  }

  lemma {:induction false} ReleaseVisit(L: Layout, st: State, ext: map<Mnt, nat>, m: Mnt)
    requires Inv(L, st, At(ext)) && m in st.cleanq && CleanReady(L, st, m)
    requires L.disown && st.mt[m].release && !st.mt[m].freed && st.mt[m].oldsb != NULL_SB
    ensures Inv(L, Cleanup(L, st, m), At(ext))
  {
    hide Inv, DropSb, Put, PutAll, TakeStuck;
    var s := Ordered(L, st.mt[m].stuck);
    assert TakeStuck(st, m).mt.Keys == L.ids && TakeStuck(st, m).sbs == st.sbs by { TakeFrame(st, m); }
    var st0 := PutAll(L, TakeStuck(st, m), s);
    StuckPut(L, st, ext, m, s);
    var g := Tokens(ext, multiset{m}, multiset{st.mt[m].oldsb}, {});
    HeldDropped(L, st0, g, st.mt[m].oldsb);
    PutKeeps(L, DropSb(L, st0, st.mt[m].oldsb), g.(spend := multiset{}), m);
    assert Spent(g.(spend := multiset{}), m) == At(ext);
  }

  lemma {:induction false} TakeFrame(st: State, m: Mnt)
    requires m in st.mt
    ensures TakeStuck(st, m).mt.Keys == st.mt.Keys && TakeStuck(st, m).sbs == st.sbs
  {
  }

  lemma {:induction false} FinalVisit(L: Layout, st: State, ext: map<Mnt, nat>, m: Mnt)
    requires Inv(L, st, At(ext)) && m in st.cleanq && CleanReady(L, st, m)
    requires !st.mt[m].release && !st.mt[m].freed
    ensures Inv(L, Cleanup(L, st, m), At(ext))
  {
    hide Inv, DropSb, Put, PutAll, TakeStuck;
    var s := Ordered(L, st.mt[m].stuck);
    assert TakeStuck(st, m).mt.Keys == L.ids && TakeStuck(st, m).sbs == st.sbs by { TakeFrame(st, m); }
    var st0 := PutAll(L, TakeStuck(st, m), s);
    StuckPut(L, st, ext, m, s);
    if st.mt[m].sb != NULL_SB {
      var g := Tokens(ext, multiset{}, multiset{st.mt[m].sb}, {m});
      HeldDropped(L, st0, g, st.mt[m].sb);
      FreeKeeps(L, DropSb(L, st0, st.mt[m].sb), ext, m);
    } else {
      FreeKeeps(L, st0, ext, m);
    }
  }

  /** cleanup_mnt() keeps every count exact, and whatever is queued can be cleaned. */
  lemma {:induction false} CleanupKeeps(L: Layout, st: State, ext: map<Mnt, nat>, m: Mnt)
    requires Inv(L, st, At(ext)) && m in st.cleanq
    ensures CleanReady(L, st, m) && Inv(L, Cleanup(L, st, m), At(ext))
  {
    hide SbOK, Refs, Cleanup, ParentRec, LinkOK;
    assert MountOK(L, st, At(ext), m);
    PinsFixed(L, st, At(ext));
    assert L.sb[m] in L.sbIds;
    if st.mt[m].release { ReleaseVisit(L, st, ext, m); } else { FinalVisit(L, st, ext, m); }
  }

  // ---- umount_tree() ----------------------------------------------------------------

  /** V is closed under attached children, and each member but m hangs off one. */
  ghost predicate TreeSet(mt: map<Mnt, Mount>, m: Mnt, V: set<Mnt>) {
    && m in V && V <= mt.Keys
    && (forall k :: k in mt && !mt[k].freed && mt[k].attached && mt[k].parent in V ==> k in V)
    && (forall k :: k in V && k != m ==> mt[k].attached && mt[k].parent in V)
  }

  lemma {:induction false} SubtreeIsTree(mt: map<Mnt, Mount>, m: Mnt, S: set<Mnt>)
    requires m in S && S <= mt.Keys && forall k :: k in S && k != m ==> mt[k].attached && mt[k].parent in S
    ensures TreeSet(mt, m, Subtree(mt, S))
    decreases |mt.Keys - S|
  {
    var N := S + (set k | k in mt && !mt[k].freed && mt[k].attached && mt[k].parent in S);
    if N != S {
      Grows(mt.Keys, S, N);
      SubtreeIsTree(mt, m, N);
    }
  }

  /** Whatever holds of m and of every attached child of a mount it holds of,
      holds of the whole tree. */
  lemma {:induction false} SubtreeAllNs(L: Layout, st: State, g: Tokens, m: Mnt, S: set<Mnt>)
    requires Inv(L, st, g) && S <= L.ids && forall k :: k in S ==> st.mt[k].ns
    ensures st.mt.Keys == L.ids && forall k :: k in Subtree(st.mt, S) ==> st.mt[k].ns
    decreases |st.mt.Keys - S|
  {
    hide Refs, SbOK, Layout.Valid;
    var mt := st.mt;
    var N := S + (set k | k in mt && !mt[k].freed && mt[k].attached && mt[k].parent in S);
    if N != S {
      Grows(mt.Keys, S, N);
      forall k | k in N ensures mt[k].ns { NsFollows(L, st, g, k, S); }
      SubtreeAllNs(L, st, g, m, N);
    }
  }

  lemma {:induction false} NsFollows(L: Layout, st: State, g: Tokens, k: Mnt, S: set<Mnt>)
    requires Inv(L, st, g) && S <= L.ids && k in L.ids && forall x :: x in S ==> st.mt[x].ns
    ensures st.mt[k].attached && st.mt[k].parent in S ==> st.mt[k].ns
  {
    hide Refs, SbOK;
    assert MountOK(L, st, g, k);
  }

  /** Every mount of the namespace is in the root's tree. */
  lemma {:induction false} NsUnderRoot(L: Layout, st: State, g: Tokens, V: set<Mnt>, k: Mnt)
    requires Inv(L, st, g) && TreeSet(st.mt, L.root, V) && k in L.ids && st.mt[k].ns
    ensures k in V
    decreases L.depth[k]
  {
    hide Refs, SbOK, Owned;
    assert MountOK(L, st, g, k);
    if k != L.root {
      assert L.depth[k] == L.depth[L.parent[k]] + 1;
      NsUnderRoot(L, st, g, V, L.parent[k]);
    }
  }

  /** The record of a victim. */
  ghost function Gone(r: Mount, disc: bool): (f: Mount) {
    var q := r.(umount := true, ns := false);
    if disc then Unhash(q) else q
  }

  /** umount_tree() decides for every victim from the table it found: the victims
      of one call do not influence each other's fate. */
  lemma {:induction false} UmountEachAt(L: Layout, st: State, s: seq<Mnt>, how: How, x: Mnt)
    requires forall i :: 0 <= i < |s| ==> s[i] in st.mt && st.mt[s[i]].umount
    requires x in st.mt && multiset(s)[x] <= 1
    ensures UmountEach(L, st, s, how).mt.Keys == st.mt.Keys
    ensures UmountEach(L, st, s, how).mt[x] == if x in s then Gone(st.mt[x], Disconnect(L, st, x, how)) else st.mt[x]
    ensures UnmN(UmountEach(L, st, s, how).unm, x)
        == UnmN(st.unm, x) + Bit(x in s && (L.disown || Disconnect(L, st, x, how)))
    ensures UmountEach(L, st, s, how).cleanq == st.cleanq && UmountEach(L, st, s, how).sbs == st.sbs
    decreases |s|
  {
    if s != [] {
      var st1 := UmountOne(L, st, s[0], how);
      assert s == [s[0]] + s[1..];
      assert multiset(s) == multiset{s[0]} + multiset(s[1..]);
      assert x in s[1..] ==> multiset(s[1..])[x] > 0;
      if x != s[0] { OtherFate(L, st, st1, x, how); }
      UmountEachAt(L, st1, s[1..], how, x);
    }
  }

  /** The fate of x is the same in a table with the same flags and the same record of
      x. */
  lemma {:induction false} OtherFate(L: Layout, st: State, st': State, x: Mnt, how: How)
    requires x in st.mt && st'.mt.Keys == st.mt.Keys && st'.sbs == st.sbs && st'.mt[x] == st.mt[x]
    requires forall y :: y in st.mt ==> st'.mt[y].umount == st.mt[y].umount && st'.mt[y].freed == st.mt[y].freed
    ensures Disconnect(L, st', x, how) <==> Disconnect(L, st, x, how)
  {
  }

  /** Does victim x leave its parent? */
  ghost predicate Leaves(L: Layout, st: State, V: set<Mnt>, x: Mnt, how: How)
    requires x in st.mt
  {
    Disconnect(L, st.(mt := MarkUmount(st.mt, V)), x, how)
  }

  /** Is x one of the mounts looked at again? */
  ghost predicate Again(L: Layout, st: State, V: set<Mnt>, x: Mnt) {
    L.pinners && L.reexamine && x in Late(st.(mt := MarkUmount(st.mt, V)), V)
  }

  /** Whether it is does not depend on the fate of the victims. */
  lemma {:induction false} SameLate(st: State, st': State, V: set<Mnt>, x: Mnt)
    requires x in st.mt && st'.mt.Keys == st.mt.Keys && st'.sbs == st.sbs && (x !in V ==> st'.mt[x] == st.mt[x])
    requires forall y :: y in st.mt ==> st'.mt[y].umount == st.mt[y].umount && st'.mt[y].freed == st.mt[y].freed
    ensures x in Late(st', V) <==> x in Late(st, V)
  {
  }

  lemma {:induction false} OrderedOnce(L: Layout, V: set<Mnt>, x: Mnt)
    requires V <= L.depth.Keys
    ensures multiset(Ordered(L, V))[x] == Bit(x in V) && (x in Ordered(L, V) <==> x in V)
  {
    var s: seq<Mnt> := Ordered(L, V);
    var ms: multiset<Mnt> := multiset(s);
    assert x in s <==> x in ms;
  }

  lemma {:induction false} MarkAt(mt: map<Mnt, Mount>, V: set<Mnt>, x: Mnt, disc: bool)
    requires x in mt
    ensures MarkUmount(mt, V).Keys == mt.Keys && Gone(MarkUmount(mt, V)[x], disc) == Gone(mt[x], disc)
    ensures x !in V ==> MarkUmount(mt, V)[x] == mt[x]
    ensures x in V ==> MarkUmount(mt, V)[x].umount
    ensures MarkUmount(mt, V)[x].umount == (mt[x].umount || x in V) && MarkUmount(mt, V)[x].freed == mt[x].freed
  {
  }

  lemma {:induction false} ReverseN(s: seq<Mnt>, x: Mnt)
    ensures UnmN(Reverse(s), x) == UnmN(s, x)
  {
  }

  lemma {:induction false} GoneFlags(r: Mount, disc: bool)
    ensures r.umount ==> Gone(r, disc).umount == r.umount
    ensures Gone(r, disc).freed == r.freed && Gone(r, disc).umount
  {
  }

  /** The table between the victims and the second look. */
  ghost function Victims(L: Layout, st: State, m: Mnt, how: How): (r: State)
    requires L.Valid() && st.mt.Keys == L.ids && m in L.ids
  {
    var V := Subtree(st.mt, {m});
    UmountEach(L, st.(mt := MarkUmount(st.mt, V)), Ordered(L, V), how)
  }

  lemma {:induction false} VictimsAt(L: Layout, st: State, m: Mnt, how: How, x: Mnt)
    requires L.Valid() && st.mt.Keys == L.ids && m in L.ids && x in L.ids
    ensures var V := Subtree(st.mt, {m}); var z := Victims(L, st, m, how);
      && z.mt.Keys == L.ids && z.cleanq == st.cleanq && z.sbs == st.sbs
      && z.mt[x] == (if x in V then Gone(st.mt[x], Leaves(L, st, V, x, how)) else st.mt[x])
      && UnmN(z.unm, x) == UnmN(st.unm, x) + Bit(x in V && (L.disown || Leaves(L, st, V, x, how)))
  {
    var V := Subtree(st.mt, {m});
    var s := Ordered(L, V);
    hide UmountEach, Subtree, Ordered, Disconnect, UnmN, Gone, MarkUmount;
    OrderedOnce(L, V, x);
    hide Layout.Valid;
    var st0 := st.(mt := MarkUmount(st.mt, V));
    forall i | 0 <= i < |s| ensures s[i] in st0.mt && st0.mt[s[i]].umount { MarkAt(st.mt, V, s[i], true); }
    MarkAt(st.mt, V, x, Leaves(L, st, V, x, how));
    UmountEachAt(L, st0, s, how, x);
  }

  lemma {:induction false} LateAt(L: Layout, st: State, m: Mnt, how: How, x: Mnt)
    requires L.Valid() && st.mt.Keys == L.ids && m in L.ids && x in L.ids
    ensures var V := Subtree(st.mt, {m});
            x in Late(Victims(L, st, m, how), V) <==> x in Late(st.(mt := MarkUmount(st.mt, V)), V)
  {
    var V := Subtree(st.mt, {m});
    var st0, z := st.(mt := MarkUmount(st.mt, V)), Victims(L, st, m, how);
    hide Victims, Subtree, UnmN, Gone, MarkUmount, Late, Leaves, Layout.Valid;
    VictimsAt(L, st, m, how, x);
    MarkAt(st.mt, V, x, true);
    forall y | y in st0.mt ensures z.mt[y].umount == st0.mt[y].umount && z.mt[y].freed == st0.mt[y].freed {
      MarkAt(st.mt, V, y, true);
      VictimsAt(L, st, m, how, y);
      GoneFlags(st.mt[y], Leaves(L, st, V, y, how));
    }
    SameLate(st0, z, V, x);
  }

  lemma {:induction false} ReexamineAt(L: Layout, st: State, V: set<Mnt>, x: Mnt)
    requires L.Valid() && st.mt.Keys == L.ids && x in L.ids
    ensures var z := Reexamine(L, st, V);
      && z.mt.Keys == L.ids && z.cleanq == st.cleanq && z.sbs == st.sbs
      && z.mt[x] == (if x in Late(st, V) then Unhash(st.mt[x]) else st.mt[x])
      && UnmN(z.unm, x) == UnmN(st.unm, x) + Bit(x in Late(st, V))
  {
    var late := Late(st, V);
    hide Late, Ordered, Layout.Valid;
    assert late <= L.depth.Keys by { LateKeys(L, st, V); }
    OrderedOnce(L, late, x);
    var u := Ordered(L, late);
    assert multiset(st.unm + u) == multiset(st.unm) + multiset(u);
  }

  lemma {:induction false} LateKeys(L: Layout, st: State, V: set<Mnt>)
    requires L.Valid() && st.mt.Keys == L.ids
    ensures Late(st, V) <= L.ids && L.ids == L.depth.Keys
  {
  }

  /** The record of a mount after umount_tree(): a victim's, one looked at again, or
      the same. */
  ghost function UmountRec(L: Layout, st: State, V: set<Mnt>, x: Mnt, how: How): (r: Mount)
    requires x in st.mt
  {
    if x in V then Gone(st.mt[x], Leaves(L, st, V, x, how))
    else if Again(L, st, V, x) then Unhash(st.mt[x]) else st.mt[x]
  }

  lemma {:induction false} UmountTreeAt(L: Layout, st: State, m: Mnt, how: How, x: Mnt)
    requires L.Valid() && st.mt.Keys == L.ids && m in L.ids && x in L.ids
    ensures var V := Subtree(st.mt, {m}); var z := UmountTree(L, st, m, how);
      && z.mt.Keys == L.ids && z.cleanq == st.cleanq && z.sbs == st.sbs
      && z.mt[x] == UmountRec(L, st, V, x, how)
      && UnmN(z.unm, x)
            == UnmN(st.unm, x) + Bit(x in V && (L.disown || Leaves(L, st, V, x, how))) + Bit(Again(L, st, V, x))
  {
    var V := Subtree(st.mt, {m});
    var z := Victims(L, st, m, how);
    hide Subtree, Ordered, Disconnect, UnmN, Gone, MarkUmount, Reverse, Late, Reexamine, Unhash, Leaves;
    hide Layout.Valid, UmountEach, Victims;
    assert UmountTree(L, st, m, how) == Second(L, z, V) by { UmountIs(L, st, m, how); }
    VictimsAt(L, st, m, how, x);
    LateAt(L, st, m, how, x);
    LateOutside(st.(mt := MarkUmount(st.mt, V)), V, x);
    SecondAt(L, z, V, x);
  }

  /** The second look, and the order of the list. */
  ghost function Second(L: Layout, st: State, V: set<Mnt>): (r: State)
    requires L.Valid() && st.mt.Keys == L.ids
  {
    var st2 := if L.pinners && L.reexamine then Reexamine(L, st, V) else st;
    if L.disown then st2 else st2.(unm := Reverse(st2.unm))
  }

  lemma {:induction false} UmountIs(L: Layout, st: State, m: Mnt, how: How)
    requires L.Valid() && st.mt.Keys == L.ids && m in L.ids
    ensures UmountTree(L, st, m, how) == Second(L, Victims(L, st, m, how), Subtree(st.mt, {m}))
  {
    hide Layout.Valid, Subtree, Ordered, Reverse, Reexamine, MarkUmount, UmountEach;
  }

  lemma {:induction false} SecondAt(L: Layout, st: State, V: set<Mnt>, x: Mnt)
    requires L.Valid() && st.mt.Keys == L.ids && x in L.ids
    ensures var z := Second(L, st, V); var late := L.pinners && L.reexamine && x in Late(st, V);
      && z.mt.Keys == L.ids && z.cleanq == st.cleanq && z.sbs == st.sbs
      && z.mt[x] == (if late then Unhash(st.mt[x]) else st.mt[x]) && UnmN(z.unm, x) == UnmN(st.unm, x) + Bit(late)
  {
    hide Late, Reexamine, Unhash, Reverse, UnmN, Layout.Valid;
    ReexamineAt(L, st, V, x);
    ReverseN(st.unm, x);
    ReverseN(Reexamine(L, st, V).unm, x);
  }

  lemma {:induction false} LateOutside(st: State, V: set<Mnt>, x: Mnt)
    ensures x in Late(st, V) ==> x in st.mt && x !in V && st.mt[x].umount && st.mt[x].Attached() && !st.mt[x].freed
  {
  }

  /** A mount looked at again was its dead parent's. */
  lemma {:induction false} AgainOwned(L: Layout, st: State, V: set<Mnt>, x: Mnt)
    requires L.Valid() && x in st.mt && Again(L, st, V, x)
    ensures x !in V && Owned(L, st.mt[x]) && !L.disown && !st.mt[x].freed
  {
    var st0 := st.(mt := MarkUmount(st.mt, V));
    LateOutside(st0, V, x);
    MarkAt(st.mt, V, x, true);
    hide Late, MarkUmount;
  }

  /** What replaces the namespace's reference of a victim: the unmounted list's
      or the parent's. */
  lemma {:induction false} GoneOwn(L: Layout, r: Mount, disc: bool)
    requires r.ns && !r.tomb && !r.release && !r.umount && (!disc ==> r.Attached())
    ensures OwnRefs(L, r) == 1 && OwnRefs(L, Gone(r, disc)) == Bit(!disc && !L.disown) && Gone(r, disc).count == r.count
  {
  }

  lemma {:induction false} GoneLife(L: Layout, m: Mnt, r: Mount, p: Mount, p': Mount, disc: bool)
    requires L.Valid() && m in L.ids && LifeRec(L, m, r, false, false, p) && r.ns
    requires !disc ==> r.Attached() && !p'.doomed && !p'.tomb && !p'.ns
    ensures LifeRec(L, m, Gone(r, disc), false, false, p')
  {
    hide Layout.Valid;
  }

  lemma {:induction false} NsFresh(L: Layout, st: State, ext: map<Mnt, nat>, x: Mnt)
    requires L.Valid() && st.mt.Keys == L.ids && ext.Keys == L.ids && x in L.ids && MountOK(L, st, At(ext), x)
    requires st.mt[x].ns
    ensures x !in st.cleanq && !st.mt[x].doomed && !st.mt[x].tomb && !st.mt[x].release && !st.mt[x].umount
    ensures !st.mt[x].freed
  {
    hide StuckN, PinN, UnmN, Layout.Valid, ParentRec, LinkOK;
  }

  /** What umount_tree() takes from one account of a mount it gives to another. */
  lemma {:induction false} UmountOwn(L: Layout, st: State, ext: map<Mnt, nat>, V: set<Mnt>, x: Mnt, how: How)
    requires L.Valid() && st.mt.Keys == L.ids && ext.Keys == L.ids && x in L.ids && MountOK(L, st, At(ext), x)
    requires x in V ==> st.mt[x].ns
    ensures UmountRec(L, st, V, x, how).count == st.mt[x].count
    ensures OwnRefs(L, UmountRec(L, st, V, x, how)) + Bit(x in V && (L.disown || Leaves(L, st, V, x, how)))
        + Bit(Again(L, st, V, x)) == OwnRefs(L, st.mt[x])
  {
    hide StuckN, PinN, UnmN, OwnRefs, Gone, Leaves, Again, Unhash;
    if Again(L, st, V, x) {
      AgainOwned(L, st, V, x);
      UmountNotNs(L, st, ext, x);
      UnhashOwn(L, st.mt[x]);
    } else if x in V {
      NsFresh(L, st, ext, x);
      LeavesUnless(L, st, V, x, how);
      GoneOwn(L, st.mt[x], Leaves(L, st, V, x, how));
    }
  }

  lemma {:induction false} UmountNotNs(L: Layout, st: State, ext: map<Mnt, nat>, x: Mnt)
    requires L.Valid() && st.mt.Keys == L.ids && ext.Keys == L.ids && x in L.ids && MountOK(L, st, At(ext), x)
    ensures st.mt[x].umount == !st.mt[x].ns
  {
    hide Refs, ParentRec, LinkOK, Layout.Valid;
  }

  lemma {:induction false} UmountRefs(L: Layout, st: State, ext: map<Mnt, nat>, m: Mnt, how: How, x: Mnt)
    requires L.Valid() && st.mt.Keys == L.ids && ext.Keys == L.ids && m in L.ids && x in L.ids
    requires MountOK(L, st, At(ext), x)
    requires x in Subtree(st.mt, {m}) ==> st.mt[x].ns
    ensures UmountTree(L, st, m, how).mt.Keys == L.ids
    ensures UmountTree(L, st, m, how).mt[x].count == Refs(L, UmountTree(L, st, m, how), At(ext), x)
  {
    hide UmountTree, Subtree, StuckN, PinN, UnmN, Layout.Valid, LifeOK, OwnRefs, Gone, Refs, UmountRec, Leaves, Again;
    var V := Subtree(st.mt, {m});
    UmountTreeAt(L, st, m, how, x);
    UmountStuck(L, st, m, how, x);
    RefsSplit(L, st, At(ext), x);
    RefsSplit(L, UmountTree(L, st, m, how), At(ext), x);
    UmountOwn(L, st, ext, V, x, how);
  }

  lemma {:induction false} LeavesUnless(L: Layout, st: State, V: set<Mnt>, x: Mnt, how: How)
    requires x in st.mt
    ensures !Leaves(L, st, V, x, how) ==> st.mt[x].Attached()
    ensures !Leaves(L, st, V, x, how) && st.mt[x].parent in st.mt
        ==> st.mt[st.mt[x].parent].umount || st.mt[x].parent in V
  {
  }

  /** f is r after umount_tree(): what has not changed. */
  ghost predicate Kept(r: Mount, f: Mount, victim: bool) {
    && f.stuck == r.stuck && HeldSb(f) == HeldSb(r) && f.doomed == r.doomed && f.tomb == r.tomb && f.freed == r.freed
    && f.release == r.release && f.ns == (r.ns && !victim) && f.umount == (r.umount || victim)
    && (f.Attached() ==> r.Attached())
  }

  lemma {:induction false} RecKept(r: Mount, disc: bool)
    ensures Kept(r, Gone(r, disc), true) && Kept(r, Unhash(r), false) && Kept(r, r, false)
  {
  }

  lemma {:induction false} UmountKept(L: Layout, st: State, V: set<Mnt>, x: Mnt, how: How)
    requires x in st.mt
    ensures Kept(st.mt[x], UmountRec(L, st, V, x, how), x in V)
  {
    hide Leaves, Again, Kept, Gone, Unhash;
    RecKept(st.mt[x], Leaves(L, st, V, x, how));
  }

  lemma {:induction false} UmountStuck(L: Layout, st: State, m: Mnt, how: How, x: Mnt)
    requires L.Valid() && st.mt.Keys == L.ids && m in L.ids && x in L.ids
    ensures StuckN(UmountTree(L, st, m, how).mt, x) == StuckN(st.mt, x)
  {
    hide UmountTree, StuckN, Subtree, Layout.Valid;
    UmountTreeAt(L, st, m, how, x);
    forall p | p in st.mt ensures st.mt[p].stuck == UmountTree(L, st, m, how).mt[p].stuck {
      UmountTreeAt(L, st, m, how, p);
      UmountKept(L, st, Subtree(st.mt, {m}), p, how);
    }
    StuckSame(st.mt, UmountTree(L, st, m, how).mt, x);
  }

  lemma {:induction false} UmountLife(L: Layout, st: State, ext: map<Mnt, nat>, m: Mnt, how: How, x: Mnt)
    requires L.Valid() && st.mt.Keys == L.ids && ext.Keys == L.ids && m in L.ids && x in L.ids
    requires TreeSet(st.mt, m, Subtree(st.mt, {m})) && forall k :: k in Subtree(st.mt, {m}) ==> st.mt[k].ns
    requires MountOK(L, st, At(ext), x)
    requires x != L.root ==> MountOK(L, st, At(ext), L.parent[x])
    ensures UmountTree(L, st, m, how).mt.Keys == L.ids && LifeOK(L, UmountTree(L, st, m, how), At(ext), x)
  {
    hide UmountTree, Subtree, Refs, Leaves, Gone, UnmN, Again, Unhash;
    var V := Subtree(st.mt, {m});
    var y := if x == L.root then x else L.parent[x];
    UmountTreeAt(L, st, m, how, x);
    UmountTreeAt(L, st, m, how, y);
    UmountKept(L, st, V, y, how);
    var r := st.mt[x];
    var p := ParentRec(L, st.mt, x);
    var p' := ParentRec(L, UmountTree(L, st, m, how).mt, x);
    assert r.Attached() ==> r.parent == y && y in L.ids && LinkOK(r, p) && !r.freed;
    hide Layout.Valid, LifeRec;
    LeavesUnless(L, st, V, x, how);
    if x in V {
      NsFresh(L, st, ext, x);
      var disc := Leaves(L, st, V, x, how);
      if !disc { NsFresh(L, st, ext, y); }
      GoneLife(L, x, r, p, p', disc);
    } else {
      if Again(L, st, V, x) { AgainOwned(L, st, V, x); }
      LinkLife(L, x, r, x in st.cleanq, false, p, p');
    }
    hide ParentRec, LinkOK;
  }

  lemma {:induction false} UmountEachElems(L: Layout, st: State, s: seq<Mnt>, how: How, x: Mnt)
    requires forall i :: 0 <= i < |s| ==> s[i] in st.mt
    requires x in UmountEach(L, st, s, how).unm
    ensures x in st.unm || x in s
    decreases |s|
  {
    if s != [] { UmountEachElems(L, UmountOne(L, st, s[0], how), s[1..], how, x); }
  }

  lemma {:induction false} ReverseElems(s: seq<Mnt>, x: Mnt)
    requires x in Reverse(s)
    ensures x in s
    decreases |s|
  {
    if s != [] && x in Reverse(s[1..]) { ReverseElems(s[1..], x); }
  }

  lemma {:induction false} VictimsTyped(L: Layout, st: State, m: Mnt, how: How)
    requires L.Valid() && Typed(L, st) && m in L.ids
    ensures Typed(L, Victims(L, st, m, how))
  {
    hide UmountEach, Subtree, Leaves;
    VictimsAt(L, st, m, how, m);
    var V := Subtree(st.mt, {m});
    var z := Victims(L, st, m, how);
    forall i | 0 <= i < |z.unm| ensures z.unm[i] in L.ids {
      UmountEachElems(L, st.(mt := MarkUmount(st.mt, V)), Ordered(L, V), how, z.unm[i]);
    }
    hide MarkUmount, Layout.Valid, Ordered;
  }

  lemma {:induction false} ReexamineTyped(L: Layout, st: State, V: set<Mnt>)
    requires L.Valid() && Typed(L, st)
    ensures Typed(L, Reexamine(L, st, V))
  {
    hide Late, Ordered, Unhash;
    LateKeys(L, st, V);
    hide Layout.Valid;
  }

  lemma {:induction false} ReverseTyped(L: Layout, st: State)
    requires Typed(L, st)
    ensures Typed(L, st.(unm := Reverse(st.unm)))
  {
    hide Reverse;
    var u := Reverse(st.unm);
    forall i | 0 <= i < |u| ensures u[i] in L.ids { ReverseElems(st.unm, u[i]); }
  }

  lemma {:induction false} UmountTyped(L: Layout, st: State, m: Mnt, how: How)
    requires L.Valid() && Typed(L, st) && m in L.ids
    ensures Typed(L, UmountTree(L, st, m, how))
  {
    hide UmountEach, Subtree, Reverse, Reexamine, MarkUmount, Ordered, Victims, Layout.Valid, UmountTree;
    VictimsTyped(L, st, m, how);
    var z, V := Victims(L, st, m, how), Subtree(st.mt, {m});
    UmountIs(L, st, m, how);
    ReexamineTyped(L, z, V);
    ReverseTyped(L, z);
    ReverseTyped(L, Reexamine(L, z, V));
  }

  lemma {:induction false} UmountSupers(L: Layout, st: State, ext: map<Mnt, nat>, m: Mnt, how: How, s: SbId)
    requires L.Valid() && Typed(L, st) && m in L.ids && s in L.sbIds && SbOK(L, st, At(ext), s)
    ensures UmountTree(L, st, m, how).sbs.Keys == L.sbIds && SbOK(L, UmountTree(L, st, m, how), At(ext), s)
  {
    hide UmountTree, Subtree, HoldN, KeepN, UnmN, Layout.Valid, UmountRec;
    UmountTreeAt(L, st, m, how, m);
    forall x | x in st.mt ensures HeldSb(st.mt[x]) == HeldSb(UmountTree(L, st, m, how).mt[x]) {
      UmountTreeAt(L, st, m, how, x);
      UmountKept(L, st, Subtree(st.mt, {m}), x, how);
    }
    HoldSame(st, At(ext), UmountTree(L, st, m, how), At(ext), s);
  }

  /** A mount and its parent are as the invariant says. */
  lemma {:induction false} InvPair(L: Layout, st: State, g: Tokens, x: Mnt)
    requires Inv(L, st, g) && x in L.ids
    ensures MountOK(L, st, g, x) && (x != L.root ==> L.parent[x] in L.ids && MountOK(L, st, g, L.parent[x]))
  {
    hide MountOK, SbOK;
  }

  lemma {:induction false} UmountMount(L: Layout, st: State, ext: map<Mnt, nat>, m: Mnt, how: How, x: Mnt)
    requires Inv(L, st, At(ext)) && m in L.ids && x in L.ids
    requires TreeSet(st.mt, m, Subtree(st.mt, {m})) && forall k :: k in Subtree(st.mt, {m}) ==> st.mt[k].ns
    ensures UmountTree(L, st, m, how).mt.Keys == L.ids && MountOK(L, UmountTree(L, st, m, how), At(ext), x)
  {
    InvPair(L, st, At(ext), x);
    hide UmountTree, LifeOK, Refs, TreeSet, Subtree, Layout.Valid, SbOK;
    UmountLife(L, st, ext, m, how, x);
    UmountRefs(L, st, ext, m, how, x);
  }

  /** umount_tree() keeps every count exact. */
  lemma {:induction false} UmountKeeps(L: Layout, st: State, ext: map<Mnt, nat>, m: Mnt, how: How)
    requires Inv(L, st, At(ext)) && m in L.ids && st.mt[m].ns
    ensures Inv(L, UmountTree(L, st, m, how), At(ext))
  {
    hide UmountTree, MountOK, SbOK, TreeSet, Subtree, Layout.Valid;
    SubtreeIsTree(st.mt, m, {m});
    SubtreeAllNs(L, st, At(ext), m, {m});
    UmountTyped(L, st, m, how);
    var z := UmountTree(L, st, m, how);
    forall x | x in L.ids ensures MountOK(L, z, At(ext), x) {
      UmountMount(L, st, ext, m, how, x);
    }
    forall s | s in L.sbIds ensures SbOK(L, z, At(ext), s) {
      assert SbOK(L, st, At(ext), s);
      UmountSupers(L, st, ext, m, how, s);
    }
  }

  // ---- the machine --------------------------------------------------------------------

  /** The invariant between actions; a namespace that is gone has no mounts left. */
  ghost predicate Good(L: Layout, y: Sys) {
    && Inv(L, y.st, At(y.ext))
    && (forall m :: m in L.ids && y.st.mt[m].ns ==> y.alive)
    && (y.alive ==> y.st.mt[L.root].ns)
  }

  lemma {:induction false} InitUp(L: Layout, s: SbId)
    requires L.Valid() && s in L.sbIds && L.pin[s] != NO_MNT
    ensures InitSb(L, s).active > 0
  {
    assert L.Populated(s);
    var m :| m in L.ids && L.sb[m] == s;
    assert m in MountsOn(L, s);
    hide FilesOn;
  }

  lemma {:induction false} InitPins(L: Layout, y: Sys, m: Mnt)
    requires Init(L, y) && m in L.ids
    ensures PinN(L, y.st.sbs, m) == if L.clone then 0 else |PinsOn(L, m)|
  {
    hide InitMnt;
    forall s | s in L.sbIds && L.pin[s] == m ensures InitSb(L, s).active > 0 && InitSb(L, s).pin == m { InitUp(L, s); }
    if !L.clone {
      assert PinSet(L, y.st.sbs, m) == PinsOn(L, m);
    }
  }

  lemma {:induction false} InitKeeps(L: Layout, y: Sys, s: SbId)
    requires Init(L, y) && s in L.sbIds
    ensures y.st.sbs.Keys == L.sbIds
    ensures KeepN(L, y.st.sbs, s) == if L.clone then |FilesOn(L, s)| else 0
  {
    hide InitMnt;
    forall t | t in L.sbIds && L.pin[t] != NO_MNT ensures InitSb(L, t).active > 0 { InitUp(L, t); }
    if L.clone {
      assert Keepers(L, y.st.sbs, s) == FilesOn(L, s);
    }
  }

  lemma {:induction false} InitLife(L: Layout, m: Mnt, p: Mount)
    requires L.Valid() && m in L.ids && !p.doomed && !p.tomb && p.ns
    ensures LifeRec(L, m, InitMnt(L, m), false, false, p)
  {
    hide PinsOn;
    assert m != L.root ==> L.parent[m] in L.ids;
  }

  lemma {:induction false} InitRefs(L: Layout, y: Sys, m: Mnt)
    requires Init(L, y) && m in L.ids && y.st.mt.Keys == L.ids && y.ext.Keys == L.ids
    ensures y.st.mt[m].count == Refs(L, y.st, At(y.ext), m)
  {
    InitPins(L, y, m);
    StuckEmpty(y.st.mt, m) by { hide InitSb, PinsOn, Layout.Valid, PinN, Refs; }
    UnmEmpty(m);
    hide PinN, InitSb, PinsOn, UnmN, StuckN, Layout.Valid;
  }

  lemma {:induction false} StuckEmpty(mt: map<Mnt, Mount>, m: Mnt)
    requires forall p :: p in mt ==> mt[p].stuck == {}
    ensures StuckN(mt, m) == 0
  {
    assert Stuckers(mt, m) == {};
  }

  lemma {:induction false} InitMount(L: Layout, y: Sys, m: Mnt)
    requires Init(L, y) && m in L.ids && y.st.mt.Keys == L.ids && y.ext.Keys == L.ids
    ensures MountOK(L, y.st, At(y.ext), m)
  {
    hide InitSb, PinsOn, LifeRec, Refs;
    InitRefs(L, y, m);
    assert m != L.root ==> L.parent[m] in L.ids;
    InitLife(L, m, ParentRec(L, y.st.mt, m));
  }

  lemma {:induction false} UnmEmpty(m: Mnt)
    ensures UnmN([], m) == 0
  {
  }

  lemma {:induction false} InitSuper(L: Layout, y: Sys, s: SbId)
    requires Init(L, y) && s in L.sbIds && y.st.sbs.Keys == L.sbIds
    ensures SbOK(L, y.st, At(y.ext), s)
  {
    hide KeepN, PinsOn, FilesOn;
    InitKeeps(L, y, s);
    assert Holders(y.st, At(y.ext), s) == MountsOn(L, s);
  }

  lemma {:induction false} InitGood(L: Layout, y: Sys)
    requires Init(L, y)
    ensures Good(L, y)
  {
    hide MountOK, SbOK, InitSb, PinsOn;
    forall m | m in L.ids ensures MountOK(L, y.st, At(y.ext), m) { InitMount(L, y, m); }
    forall s | s in L.sbIds ensures SbOK(L, y.st, At(y.ext), s) { InitSuper(L, y, s); }
  }

  // ---- each action ---------------------------------------------------------------------

  lemma {:induction false} UmountGood(L: Layout, y: Sys, z: Sys, m: Mnt, how: How)
    requires Good(L, y) && m in L.ids && y.st.mt[m].ns && m != L.root && y.alive
    requires z == y.(st := UmountTree(L, y.st, m, how))
    ensures Good(L, z)
  {
    hide MountOK, SbOK, UmountTree;
    UmountKeeps(L, y.st, y.ext, m, how);
    SubtreeIsTree(y.st.mt, m, {m});
    UmountTreeAt(L, y.st, m, how, L.root);
    UmountKept(L, y.st, Subtree(y.st.mt, {m}), L.root, how);
    RootSafe(L, y.st, y.ext, m);
  }

  /** The namespace root hangs off nothing. */
  lemma {:induction false} RootSafe(L: Layout, st: State, ext: map<Mnt, nat>, m: Mnt)
    requires Inv(L, st, At(ext)) && m in L.ids && m != L.root
    ensures L.root !in Subtree(st.mt, {m})
  {
    hide Refs, SbOK, Subtree;
    SubtreeIsTree(st.mt, m, {m});
    assert MountOK(L, st, At(ext), L.root);
  }

  lemma {:induction false} PutNsGood(L: Layout, y: Sys, z: Sys)
    requires Good(L, y) && PutMntNs(L, y, z)
    ensures Good(L, z)
  {
    hide MountOK, SbOK, UmountTree, Subtree;
    var how := How(false, !L.nsDisconnect);
    UmountKeeps(L, y.st, y.ext, L.root, how);
    SubtreeIsTree(y.st.mt, L.root, {L.root});
    forall m | m in L.ids ensures !z.st.mt[m].ns {
      UmountTreeAt(L, y.st, L.root, how, m);
      UmountKept(L, y.st, Subtree(y.st.mt, {L.root}), m, how);
      if y.st.mt[m].ns { NsUnderRoot(L, y.st, At(y.ext), Subtree(y.st.mt, {L.root}), m); }
    }
    hide TreeSet;
  }

  /** A reference leaves the unmounted list and becomes a token. */
  lemma {:induction false} UnlistKeeps(L: Layout, st: State, ext: map<Mnt, nat>)
    requires Inv(L, st, At(ext)) && st.unm != []
    ensures Inv(L, st.(unm := st.unm[1..]), At(ext).(pend := multiset{st.unm[0]}))
  {
    hide PinN, StuckN, LifeOK, Layout.Valid, KeepN, HoldN, Refs;
    var m := st.unm[0];
    var st' := st.(unm := st.unm[1..]);
    var g' := At(ext).(pend := multiset{m});
    assert st.unm == [m] + st.unm[1..];
    forall x | x in L.ids ensures MountOK(L, st', g', x) {
      assert MountOK(L, st, At(ext), x);
      LifeTokens(L, st, At(ext), st', g', x);
      UnlistRefs(L, st, ext, x);
    }
    forall s | s in L.sbIds ensures SbOK(L, st', g', s) {
      assert SbOK(L, st, At(ext), s);
      HoldSame(st, At(ext), st', g', s);
    }
  }

  lemma {:induction false} UnlistRefs(L: Layout, st: State, ext: map<Mnt, nat>, x: Mnt)
    requires st.unm != [] && x in st.mt && x in ext
    ensures Refs(L, st.(unm := st.unm[1..]), At(ext).(pend := multiset{st.unm[0]}), x) == Refs(L, st, At(ext), x)
  {
    hide PinN, StuckN, Owned;
    assert st.unm == [st.unm[0]] + st.unm[1..];
  }

  /** A holder's reference becomes a token. */
  lemma {:induction false} CloseKeeps(L: Layout, st: State, ext: map<Mnt, nat>, m: Mnt)
    requires Inv(L, st, At(ext)) && m in ext && ext[m] > 0
    ensures Inv(L, st, At(ext[m := ext[m] - 1]).(pend := multiset{m}))
  {
    hide PinN, StuckN, LifeOK, Layout.Valid, KeepN, HoldN, UnmN;
    var g' := At(ext[m := ext[m] - 1]).(pend := multiset{m});
    forall x | x in L.ids
      ensures MountOK(L, st, g', x)
    {
      assert MountOK(L, st, At(ext), x);
      LifeTokens(L, st, At(ext), st, g', x);
    }
    forall s | s in L.sbIds
      ensures SbOK(L, st, g', s)
    {
      assert SbOK(L, st, At(ext), s);
      HoldSame(st, At(ext), st, g', s);
    }
  }

  lemma {:induction false} TokenPut(L: Layout, st: State, ext: map<Mnt, nat>, m: Mnt)
    requires Inv(L, st, At(ext).(pend := multiset{m})) && m in st.mt
    ensures Inv(L, Put(L, st, m), At(ext))
  {
    hide Inv, Put;
    PutKeeps(L, st, At(ext).(pend := multiset{m}), m);
    assert Spent(At(ext).(pend := multiset{m}), m) == At(ext);
  }
}
