/** The counting invariant of the ownership model: at every moment, inside a
    cascade as well as between actions, a mount's count is the number of
    references to it and a superblock's active count the number of its users.
    References a cascade has taken but not yet dropped are tokens; mntput() and
    deactivate_super() each consume one. */
module MntOwnCount {
  import opened MntOwn
  import opened Finite

  /** The holders' files, the puts and superblock drops still owed, and the
      mounts whose cleanup is running. */
  datatype Tokens = Tokens(ext: map<Mnt, nat>, pend: multiset<Mnt>, spend: multiset<SbId>, fin: set<Mnt>)

  /** The live superblocks whose file is on m. */
  ghost function PinSet(L: Layout, sbs: map<SbId, Super>, m: Mnt): (r: set<SbId>) {
    if L.clone then {} else set s | s in sbs && sbs[s].active > 0 && sbs[s].pin == m
  }
  ghost function PinN(L: Layout, sbs: map<SbId, Super>, m: Mnt): (n: nat) { |PinSet(L, sbs, m)| }

  /** The mounts whose cleanup will put m. */
  ghost function Stuckers(mt: map<Mnt, Mount>, m: Mnt): (r: set<Mnt>) {
    set p | p in mt && m in mt[p].stuck
  }
  ghost function StuckN(mt: map<Mnt, Mount>, m: Mnt): (n: nat) { |Stuckers(mt, m)| }

  /** How often namespace_unlock() will put m. */
  ghost function UnmN(unm: seq<Mnt>, m: Mnt): (n: nat) { multiset(unm)[m] }

  /** m's parent owns a reference to it while it stays attached. */
  ghost predicate Owned(L: Layout, r: Mount) {
    r.umount && r.Attached() && (L.disown ==> r.tomb)
  }

  /** Every reference to m there is. */
  ghost function Refs(L: Layout, st: State, g: Tokens, m: Mnt): (n: int)
    requires m in st.mt && m in g.ext
  {
    Bit(st.mt[m].ns) + UnmN(st.unm, m) + g.ext[m] + PinN(L, st.sbs, m)
    + StuckN(st.mt, m) + Bit(Owned(L, st.mt[m])) + Bit(st.mt[m].release) + g.pend[m]
  }

  /** An attached mount's parent can still own it. */
  ghost predicate LinkOK(c: Mount, p: Mount) {
    !p.doomed && !p.tomb && c.ns == p.ns
  }

  /** Where a mount may be in its life: its record r, whether its cleanup is
      queued or running, and its parent's record p. */
  ghost predicate LifeRec(L: Layout, m: Mnt, r: Mount, queued: bool, cleaning: bool, p: Mount)
    requires L.Valid() && m in L.ids
  {
    && (r.doomed <==> r.count == 0) && r.count >= 0
    && (r.freed ==> r.doomed)
    && (r.doomed ==> !r.Attached() && (r.freed || queued || cleaning))
    && (queued ==> !r.freed && !cleaning && (r.doomed || r.release))
    && (cleaning ==> r.doomed && !r.freed)
    && (r.release ==> !r.doomed && r.tomb && queued && r.oldsb == L.sb[m])
    && (r.tomb ==> L.disown && r.sb == NULL_SB && r.umount)
    && (!r.tomb ==> r.sb == L.sb[m])
    && r.umount == !r.ns
    && r.stuck <= L.ids && (r.stuck != {} ==> queued)
    && (r.parent != NO_MNT ==> r.attached) && (r.attached ==> r.parent != NO_MNT || r.ns)
    && (r.ns ==> m == L.root || r.Attached())
    && (r.Attached() ==> m != L.root && r.parent == L.parent[m] && LinkOK(r, p))
  }

  ghost function ParentRec(L: Layout, mt: map<Mnt, Mount>, m: Mnt): (p: Mount)
    requires L.Valid() && m in L.ids && mt.Keys == L.ids
  {
    if m == L.root then mt[m] else mt[L.parent[m]]
  }

  ghost predicate LifeOK(L: Layout, st: State, g: Tokens, m: Mnt)
    requires L.Valid() && m in L.ids && st.mt.Keys == L.ids
  {
    LifeRec(L, m, st.mt[m], m in st.cleanq, m in g.fin, ParentRec(L, st.mt, m))
  }

  ghost predicate MountOK(L: Layout, st: State, g: Tokens, m: Mnt)
    requires L.Valid() && m in L.ids && st.mt.Keys == L.ids && g.ext.Keys == L.ids
  {
    st.mt[m].count == Refs(L, st, g, m) && LifeOK(L, st, g, m)
  }

  /** The superblock a mount holds up: its own, or the one a tombstone has still
      to release. */
  ghost function HeldSb(r: Mount): (s: SbId) {
    if r.freed then NULL_SB else if r.release then r.oldsb else r.sb
  }

  ghost function Holders(st: State, g: Tokens, s: SbId): (r: set<Mnt>) {
    set m | m in st.mt && m !in g.fin && HeldSb(st.mt[m]) == s
  }

  ghost function HoldN(st: State, g: Tokens, s: SbId): (n: nat) { |Holders(st, g, s)| }

  /** With the clone: the live superblocks whose file lives on s. */
  ghost function Keepers(L: Layout, sbs: map<SbId, Super>, s: SbId): (r: set<SbId>)
    requires L.Valid() && sbs.Keys == L.sbIds
  {
    if !L.clone then {}
    else set t | t in L.sbIds && sbs[t].active > 0 && L.pin[t] != NO_MNT && L.sb[L.pin[t]] == s
  }

  ghost function KeepN(L: Layout, sbs: map<SbId, Super>, s: SbId): (n: nat)
    requires L.Valid() && sbs.Keys == L.sbIds
  {
    |Keepers(L, sbs, s)|
  }

  ghost predicate SbOK(L: Layout, st: State, g: Tokens, s: SbId)
    requires L.Valid() && s in L.sbIds && st.sbs.Keys == L.sbIds
  {
    && st.sbs[s].pin == L.pin[s]
    && st.sbs[s].active == HoldN(st, g, s) + KeepN(L, st.sbs, s) + g.spend[s]
  }

  ghost predicate Shape(L: Layout, st: State, g: Tokens) {
    && L.Valid() && Typed(L, st) && g.ext.Keys == L.ids && g.fin <= L.ids
    && (forall m :: m in g.pend ==> m in L.ids) && (forall s :: s in g.spend ==> s in L.sbIds)
  }

  ghost predicate Inv(L: Layout, st: State, g: Tokens) {
    && Shape(L, st, g)
    && (forall m {:trigger MountOK(L, st, g, m)} :: m in L.ids ==> MountOK(L, st, g, m))
    && (forall s {:trigger SbOK(L, st, g, s)} :: s in L.sbIds ==> SbOK(L, st, g, s))
  }

  // ---- what the counts depend on --------------------------------------------------

  lemma {:induction false} StuckSame(mt: map<Mnt, Mount>, mt': map<Mnt, Mount>, x: Mnt)
    requires mt.Keys == mt'.Keys && forall p :: p in mt ==> (x in mt[p].stuck <==> x in mt'[p].stuck)
    ensures StuckN(mt', x) == StuckN(mt, x)
  {
    assert Stuckers(mt', x) == Stuckers(mt, x);
  }

  lemma {:induction false} StuckMore(mt: map<Mnt, Mount>, mt': map<Mnt, Mount>, x: Mnt, m: Mnt)
    requires mt.Keys == mt'.Keys && m in mt && x !in mt[m].stuck && x in mt'[m].stuck
    requires forall p :: p in mt && p != m ==> mt[p].stuck == mt'[p].stuck
    ensures StuckN(mt', x) == StuckN(mt, x) + 1
  {
    assert Stuckers(mt', x) == Stuckers(mt, x) + {m};
  }

  lemma {:induction false} HoldSame(st: State, g: Tokens, st': State, g': Tokens, s: SbId)
    requires st.mt.Keys == st'.mt.Keys && g.fin == g'.fin
    requires forall m :: m in st.mt && m !in g.fin ==> HeldSb(st.mt[m]) == HeldSb(st'.mt[m])
    ensures HoldN(st', g', s) == HoldN(st, g, s)
  {
    assert Holders(st', g', s) == Holders(st, g, s);
  }

  // ---- mntput() consumes one token ----------------------------------------------

  /** m's token goes. */
  ghost function Spent(g: Tokens, m: Mnt): (r: Tokens) { g.(pend := g.pend - multiset{m}) }

  lemma {:induction false} SpentAt(g: Tokens, m: Mnt, x: Mnt)
    requires g.pend[m] > 0
    ensures Spent(g, m).pend[x] == g.pend[x] - Bit(x == m)
    ensures Spent(g, m).ext == g.ext && Spent(g, m).fin == g.fin && Spent(g, m).spend == g.spend
  {
  }

  /** What the lemmas about one mount assume of the two tables. */
  ghost predicate Pair(L: Layout, st: State, g: Tokens, m: Mnt, x: Mnt) {
    && L.Valid() && st.mt.Keys == L.ids && g.ext.Keys == L.ids && m in L.ids && x in L.ids
    && MountOK(L, st, g, m) && MountOK(L, st, g, x)
  }

  /** The last reference: nothing else refers to m. */
  lemma {:induction false} LastRef(L: Layout, st: State, g: Tokens, m: Mnt)
    requires Pair(L, st, g, m, m) && g.pend[m] > 0 && Last(st, m)
    ensures st.mt[m].count == 1 && g.pend[m] == 1 && !Owned(L, st.mt[m]) && !st.mt[m].release
    ensures m !in st.cleanq && m !in g.fin && !st.mt[m].freed && st.mt[m].stuck == {}
    ensures PinN(L, st.sbs, m) == 0 && StuckN(st.mt, m) == 0 && UnmN(st.unm, m) == 0 && g.ext[m] == 0
  {
    hide StuckN, PinN, UnmN, Layout.Valid;
  }

  /** A reference that is not the last one leaves more behind. */
  lemma {:induction false} NotLastRef(L: Layout, st: State, g: Tokens, m: Mnt)
    requires Pair(L, st, g, m, m) && g.pend[m] > 0 && !Last(st, m)
    ensures st.mt[m].count > 1
  {
    hide StuckN, PinN, UnmN, Layout.Valid;
  }

  /** What mntput() does to the record of x. */
  ghost function PutRec(L: Layout, st: State, m: Mnt, x: Mnt): (r: Mount)
    requires m in st.mt && x in st.mt
  {
    if !Last(st, m) then (if x == m then st.mt[m].(count := st.mt[m].count - 1) else st.mt[x])
    else if x == m then Finish(L, st.mt[m], StuckOf(L, st.mt, m))
    else if x in Kids(st.mt, m) then Unhash(st.mt[x])
    else st.mt[x]
  }

  lemma {:induction false} PutRecAt(L: Layout, st: State, m: Mnt, x: Mnt)
    requires m in st.mt && x in st.mt
    ensures Put(L, st, m).mt[x] == PutRec(L, st, m, x)
    ensures Put(L, st, m).cleanq == if Last(st, m) then st.cleanq + {m} else st.cleanq
  {
    hide Kids, StuckOf, Finish, Unhash;
  }

  /** The owner of a stuck child moves from the tree to m's stuck list. */
  lemma {:induction false} PutStuck(L: Layout, st: State, m: Mnt, x: Mnt)
    requires m in st.mt && x in st.mt && (Last(st, m) ==> st.mt[m].stuck == {})
    ensures StuckN(Put(L, st, m).mt, x)
         == StuckN(st.mt, x) + Bit(Last(st, m) && x in StuckOf(L, st.mt, m))
  {
    var mt' := Put(L, st, m).mt;
    forall p | p in st.mt ensures mt'[p] == PutRec(L, st, m, p) { PutRecAt(L, st, m, p); }
    hide Put, StuckN, StuckOf, Kids;
    if Last(st, m) && x in StuckOf(L, st.mt, m) {
      StuckMore(st.mt, mt', x, m);
    } else {
      StuckSame(st.mt, mt', x);
    }
  }

  lemma {:induction false} DecLife(L: Layout, m: Mnt, r: Mount, queued: bool, cleaning: bool, p: Mount)
    requires L.Valid() && m in L.ids && LifeRec(L, m, r, queued, cleaning, p) && r.count > 1
    ensures LifeRec(L, m, r.(count := r.count - 1), queued, cleaning, p)
  {
    hide Layout.Valid;
  }

  lemma {:induction false} FinishLife(L: Layout, m: Mnt, r: Mount, p: Mount, stuck: set<Mnt>)
    requires L.Valid() && m in L.ids && LifeRec(L, m, r, false, false, p) && stuck <= L.ids
    requires !r.ns && !r.doomed && !r.release && !Owned(L, r)
    ensures LifeRec(L, m, Finish(L, r, stuck), true, false, p)
  {
    hide Layout.Valid;
  }

  /** An unhashed child, or a mount whose parent stayed what a parent must be. */
  lemma {:induction false} LinkLife(L: Layout, m: Mnt, r: Mount, queued: bool, cleaning: bool, p: Mount, p': Mount)
    requires L.Valid() && m in L.ids && LifeRec(L, m, r, queued, cleaning, p)
    ensures r.umount ==> LifeRec(L, m, Unhash(r), queued, cleaning, p')
    ensures (r.Attached() ==> LinkOK(r, p')) ==> LifeRec(L, m, r, queued, cleaning, p')
  {
    hide Layout.Valid;
  }

  /** The record after mntput() of a mount and of its parent, and where the
      parent is. */
  lemma {:induction false} PutParent(L: Layout, st: State, g: Tokens, m: Mnt, x: Mnt)
    requires Pair(L, st, g, m, x) && g.pend[m] > 0
    ensures ParentRec(L, Put(L, st, m).mt, x) == PutRec(L, st, m, if x == L.root then x else L.parent[x])
    ensures x in StuckOf(L, st.mt, m) ==> x in Kids(st.mt, m)
    ensures x in Kids(st.mt, m) ==> st.mt[x].Attached() && st.mt[x].ns == st.mt[m].ns && st.mt[x].umount == !st.mt[m].ns
    ensures st.mt[x].Attached() && x !in Kids(st.mt, m) ==> L.parent[x] != m && x != L.root
  {
    PutRecAt(L, st, m, if x == L.root then x else L.parent[x]);
    hide Put, Refs, PutRec;
  }

  /** A child that stays attached keeps a parent that can own it. */
  lemma {:induction false} PutLink(L: Layout, st: State, m: Mnt, y: Mnt, c: Mount)
    requires m in st.mt && y in st.mt && LinkOK(c, st.mt[y]) && (Last(st, m) ==> y != m)
    ensures LinkOK(c, PutRec(L, st, m, y))
  {
  }

  lemma {:induction false} FinalLife(L: Layout, st: State, g: Tokens, m: Mnt, x: Mnt)
    requires Pair(L, st, g, m, x) && g.pend[m] > 0 && Last(st, m) && x != m
    ensures LifeOK(L, Put(L, st, m), Spent(g, m), x)
  {
    var y := if x == L.root then x else L.parent[x];
    PutRecAt(L, st, m, x);
    PutParent(L, st, g, m, x);
    SpentAt(g, m, x);
    LinkLife(L, x, st.mt[x], x in st.cleanq, x in g.fin, ParentRec(L, st.mt, x), PutRec(L, st, m, y));
    if st.mt[x].Attached() && x !in Kids(st.mt, m) {
      PutLink(L, st, m, y, st.mt[x]);
    }
    hide Put, Spent, Refs, Layout.Valid, LifeRec, Kids, ParentRec, StuckOf, LinkOK;
  }

  lemma {:induction false} LastLife(L: Layout, st: State, g: Tokens, m: Mnt)
    requires Pair(L, st, g, m, m) && g.pend[m] > 0 && Last(st, m)
    ensures LifeOK(L, Put(L, st, m), Spent(g, m), m)
  {
    LastRef(L, st, g, m);
    PutRecAt(L, st, m, m);
    PutParent(L, st, g, m, m);
    SpentAt(g, m, m);
    assert StuckOf(L, st.mt, m) <= L.ids;
    FinishLife(L, m, st.mt[m], ParentRec(L, st.mt, m), StuckOf(L, st.mt, m));
    var p := ParentRec(L, Put(L, st, m).mt, m);
    if Finish(L, st.mt[m], StuckOf(L, st.mt, m)).Attached() {
      PutLink(L, st, m, L.parent[m], st.mt[m]);
    }
    LinkLife(L, m, Finish(L, st.mt[m], StuckOf(L, st.mt, m)), true, false, ParentRec(L, st.mt, m), p);
    hide Put, Spent, Refs, Layout.Valid, LifeRec, Kids, ParentRec, StuckOf;
  }

  lemma {:induction false} CountLife(L: Layout, st: State, g: Tokens, m: Mnt, x: Mnt)
    requires Pair(L, st, g, m, x) && g.pend[m] > 0 && !Last(st, m)
    ensures LifeOK(L, Put(L, st, m), Spent(g, m), x)
  {
    hide Put, Spent, Refs, Kids, StuckOf;
    NotLastRef(L, st, g, m);
    PutRecAt(L, st, m, x);
    PutParent(L, st, g, m, x);
    SpentAt(g, m, x);
    var y := if x == L.root then x else L.parent[x];
    var r := st.mt[x];
    if r.Attached() { PutLink(L, st, m, y, r); }
    hide Layout.Valid;
    if x == m { DecLife(L, m, r, m in st.cleanq, m in g.fin, ParentRec(L, st.mt, m)); }
    LinkLife(L, x, PutRec(L, st, m, x), x in st.cleanq, x in g.fin, ParentRec(L, st.mt, x), PutRec(L, st, m, y));
    hide LifeRec, ParentRec;
  }

  /** The references a mount's own record accounts for. */
  ghost function OwnRefs(L: Layout, r: Mount): (n: int) { Bit(r.ns) + Bit(Owned(L, r)) + Bit(r.release) }

  /** The new tombstone's two references are the parent's and the release's; a
      doomed record accounts for none. */
  lemma {:induction false} FinishOwn(L: Layout, r: Mount, stuck: set<Mnt>)
    requires !r.ns && !r.release && !Owned(L, r) && r.umount && (r.tomb ==> L.disown)
    ensures Finish(L, r, stuck).count == OwnRefs(L, Finish(L, r, stuck)) && OwnRefs(L, r) == 0
  {
  }

  lemma {:induction false} UnhashOwn(L: Layout, r: Mount)
    requires !r.ns && r.umount && r.Attached()
    ensures OwnRefs(L, Unhash(r)) + Bit(L.disown ==> r.tomb) == OwnRefs(L, r) && Unhash(r).count == r.count
  {
  }

  /** mntput() moves no reference but the one it drops: what a record loses, m's
      stuck list or the new tombstone's two references gain. */
  lemma {:induction false} PutOwn(L: Layout, st: State, g: Tokens, m: Mnt, x: Mnt)
    requires Pair(L, st, g, m, x) && g.pend[m] > 0
    ensures PutRec(L, st, m, x).count - OwnRefs(L, PutRec(L, st, m, x)) - Bit(Last(st, m) && x in StuckOf(L, st.mt, m))
         == st.mt[x].count - OwnRefs(L, st.mt[x]) - Bit(x == m)
  {
    hide Put, Refs, Layout.Valid, ParentRec, LinkOK;
    PutParent(L, st, g, m, x);
    if Last(st, m) {
      LastRef(L, st, g, m);
      if x == m { FinishOwn(L, st.mt[m], StuckOf(L, st.mt, m)); }
      else if x in Kids(st.mt, m) { UnhashOwn(L, st.mt[x]); }
    }
    hide LifeRec, Owned, Finish, Unhash;
  }

  lemma {:induction false} RefsSplit(L: Layout, st: State, g: Tokens, x: Mnt)
    requires x in st.mt && x in g.ext
    ensures Refs(L, st, g, x)
        == OwnRefs(L, st.mt[x]) + UnmN(st.unm, x) + g.ext[x] + PinN(L, st.sbs, x) + StuckN(st.mt, x) + g.pend[x]
  {
    hide Owned, StuckN, PinN, UnmN;
  }

  lemma {:induction false} PutRefs(L: Layout, st: State, g: Tokens, m: Mnt, x: Mnt)
    requires Pair(L, st, g, m, x) && g.pend[m] > 0
    ensures Put(L, st, m).mt[x].count == Refs(L, Put(L, st, m), Spent(g, m), x)
  {
    hide Put, Spent, StuckN, PinN, UnmN, Layout.Valid, PutRec, LifeOK, OwnRefs, StuckOf, Last, Refs;
    if Last(st, m) { LastRef(L, st, g, m); }
    PutRecAt(L, st, m, x);
    PutStuck(L, st, m, x);
    SpentAt(g, m, x);
    PutOwn(L, st, g, m, x);
    RefsSplit(L, st, g, x);
    RefsSplit(L, Put(L, st, m), Spent(g, m), x);
  }

  /** mntput() never lets go of a superblock. */
  lemma {:induction false} PutHolds(L: Layout, st: State, g: Tokens, m: Mnt, x: Mnt)
    requires Pair(L, st, g, m, x) && g.pend[m] > 0
    ensures HeldSb(Put(L, st, m).mt[x]) == HeldSb(st.mt[x])
  {
    hide Put, Refs, Layout.Valid, ParentRec, Kids, StuckOf, LinkOK;
    if Last(st, m) { LastRef(L, st, g, m); }
    PutRecAt(L, st, m, x);
  }

  lemma {:induction false} PutSupers(L: Layout, st: State, g: Tokens, m: Mnt, s: SbId)
    requires Inv(L, st, g) && m in g.pend && s in L.sbIds
    ensures SbOK(L, Put(L, st, m), Spent(g, m), s)
  {
    hide HoldN, KeepN, Layout.Valid, MountOK, Put;
    assert MountOK(L, st, g, m);
    assert SbOK(L, st, g, s);
    forall x | x in st.mt ensures HeldSb(st.mt[x]) == HeldSb(Put(L, st, m).mt[x]) {
      assert MountOK(L, st, g, x);
      PutHolds(L, st, g, m, x);
    }
    HoldSame(st, g, Put(L, st, m), Spent(g, m), s);
  }

  lemma {:induction false} PutAt(L: Layout, st: State, g: Tokens, m: Mnt, x: Mnt)
    requires Pair(L, st, g, m, x) && g.pend[m] > 0
    ensures MountOK(L, Put(L, st, m), Spent(g, m), x)
  {
    if !Last(st, m) {
      CountLife(L, st, g, m, x);
    } else if x == m {
      LastLife(L, st, g, m);
    } else {
      FinalLife(L, st, g, m, x);
    }
    PutRefs(L, st, g, m, x);
    hide Put, Spent, LifeOK, Refs;
  }

  /** mntput() keeps every count exact. */
  lemma {:induction false} PutKeeps(L: Layout, st: State, g: Tokens, m: Mnt)
    requires Inv(L, st, g) && m in g.pend
    ensures Inv(L, Put(L, st, m), Spent(g, m))
  {
    hide MountOK, SbOK, FinalPut, Layout.Valid;
    var st' := Put(L, st, m);
    var g' := Spent(g, m);
    assert MountOK(L, st, g, m);
    forall x | x in L.ids ensures MountOK(L, st', g', x) {
      assert MountOK(L, st, g, x);
      PutAt(L, st, g, m, x);
    }
    forall s | s in L.sbIds ensures SbOK(L, st', g', s) {
      PutSupers(L, st, g, m, s);
    }
  }

  lemma {:induction false} PutAllKeeps(L: Layout, st: State, g: Tokens, s: seq<Mnt>)
    requires Inv(L, st, g) && multiset(s) <= g.pend
    requires forall i :: 0 <= i < |s| ==> s[i] in st.mt
    ensures Inv(L, PutAll(L, st, s), g.(pend := g.pend - multiset(s)))
    decreases |s|
  {
    hide Put, Inv;
    if s == [] {
      assert g.pend - multiset(s) == g.pend;
    } else {
      assert s == [s[0]] + s[1..];
      assert multiset(s) == multiset{s[0]} + multiset(s[1..]);
      PutKeeps(L, st, g, s[0]);
      PutAllKeeps(L, Put(L, st, s[0]), Spent(g, s[0]), s[1..]);
      assert g.pend - multiset{s[0]} - multiset(s[1..]) == g.pend - multiset(s);
    }
  }

  // ---- deactivate_super() consumes one token --------------------------------------

  /** One reference less on s. */
  ghost function Lower(sbs: map<SbId, Super>, s: SbId): (r: map<SbId, Super>)
    requires s in sbs
  {
    sbs[s := sbs[s].(active := sbs[s].active - 1)]
  }

  /** s goes down with this reference and had a file open. */
  ghost predicate LetsGo(sbs: map<SbId, Super>, s: SbId)
    requires s in sbs
  {
    sbs[s].active == 1 && sbs[s].pin != NO_MNT
  }

  /** The tokens afterwards: s's is spent, and a file let go of is a token for the
      mount it was on, or with the clone for the superblock it lived on. */
  ghost function Repaid(L: Layout, sbs: map<SbId, Super>, g: Tokens, s: SbId): (r: Tokens)
    requires L.Valid() && s in sbs && (sbs[s].pin == NO_MNT || sbs[s].pin in L.ids)
  {
    var g0 := g.(spend := g.spend - multiset{s});
    if !LetsGo(sbs, s) then g0
    else if L.clone then g0.(spend := g0.spend + multiset{L.sb[sbs[s].pin]})
    else g0.(pend := g0.pend + multiset{sbs[s].pin})
  }

  lemma {:induction false} RepaidAt(L: Layout, sbs: map<SbId, Super>, g: Tokens, s: SbId, x: Mnt)
    requires L.Valid() && s in sbs && (sbs[s].pin == NO_MNT || sbs[s].pin in L.ids) && g.spend[s] > 0
    ensures Repaid(L, sbs, g, s).ext == g.ext && Repaid(L, sbs, g, s).fin == g.fin
    ensures Repaid(L, sbs, g, s).pend[x] == g.pend[x] + Bit(LetsGo(sbs, s) && !L.clone && x == sbs[s].pin)
    ensures Repaid(L, sbs, g, s).spend[x]
        == g.spend[x] - Bit(x == s) + Bit(LetsGo(sbs, s) && L.clone && x == L.sb[sbs[s].pin])
  {
    hide LetsGo, Layout.Valid;
  }

  /** A set that lost s, if gone, and nothing else. */
  lemma {:induction false} CardLess(A: set<SbId>, B: set<SbId>, s: SbId, gone: bool)
    requires forall u :: u in B <==> u in A && (u == s ==> !gone)
    ensures |B| == |A| - Bit(gone && s in A)
  {
    if gone && s in A { assert B == A - {s}; } else { assert B == A; }
  }

  lemma {:induction false} PinnerAt(L: Layout, sbs: map<SbId, Super>, s: SbId, x: Mnt, u: SbId)
    requires s in sbs && sbs[s].active > 0
    ensures u in PinSet(L, Lower(sbs, s), x) <==> u in PinSet(L, sbs, x) && (u == s ==> sbs[s].active > 1)
  {
  }

  lemma {:induction false} PinLower(L: Layout, sbs: map<SbId, Super>, s: SbId, x: Mnt)
    requires s in sbs && sbs[s].active > 0 && x != NO_MNT
    ensures PinN(L, Lower(sbs, s), x) == PinN(L, sbs, x) - Bit(LetsGo(sbs, s) && !L.clone && x == sbs[s].pin)
  {
    assert LetsGo(sbs, s) && !L.clone && x == sbs[s].pin <==> sbs[s].active == 1 && s in PinSet(L, sbs, x);
    hide PinSet, Lower, LetsGo;
    forall u ensures u in PinSet(L, Lower(sbs, s), x) <==> u in PinSet(L, sbs, x) && (u == s ==> sbs[s].active > 1) {
      PinnerAt(L, sbs, s, x, u);
    }
    CardLess(PinSet(L, sbs, x), PinSet(L, Lower(sbs, s), x), s, sbs[s].active == 1);
  }

  lemma {:induction false} KeeperAt(L: Layout, sbs: map<SbId, Super>, s: SbId, t: SbId, u: SbId)
    requires L.Valid() && sbs.Keys == L.sbIds && s in sbs && sbs[s].active > 0
    ensures u in Keepers(L, Lower(sbs, s), t) <==> u in Keepers(L, sbs, t) && (u == s ==> sbs[s].active > 1)
  {
  }

  lemma {:induction false} KeepsOwn(L: Layout, sbs: map<SbId, Super>, s: SbId, t: SbId)
    requires L.Valid() && sbs.Keys == L.sbIds && s in sbs && sbs[s].pin == L.pin[s]
    ensures LetsGo(sbs, s) && L.clone && t == L.sb[L.pin[s]] <==> sbs[s].active == 1 && s in Keepers(L, sbs, t)
  {
  }

  lemma {:induction false} KeepLower(L: Layout, sbs: map<SbId, Super>, s: SbId, t: SbId)
    requires L.Valid() && sbs.Keys == L.sbIds && s in sbs && sbs[s].active > 0 && sbs[s].pin == L.pin[s]
    ensures KeepN(L, Lower(sbs, s), t)
         == KeepN(L, sbs, t) - Bit(LetsGo(sbs, s) && L.clone && t == L.sb[L.pin[s]])
  {
    assert Lower(sbs, s).Keys == L.sbIds;
    hide Keepers, Lower, LetsGo;
    KeepsOwn(L, sbs, s, t);
    forall u ensures u in Keepers(L, Lower(sbs, s), t) <==> u in Keepers(L, sbs, t) && (u == s ==> sbs[s].active > 1) {
      KeeperAt(L, sbs, s, t, u);
    }
    CardLess(Keepers(L, sbs, t), Keepers(L, Lower(sbs, s), t), s, sbs[s].active == 1);
  }

  lemma {:induction false} LifeTokens(L: Layout, st: State, g: Tokens, st': State, g': Tokens, x: Mnt)
    requires L.Valid() && st.mt.Keys == L.ids && x in L.ids && LifeOK(L, st, g, x)
    requires st'.mt == st.mt && st'.cleanq == st.cleanq && g'.fin == g.fin
    ensures LifeOK(L, st', g', x)
  {
    hide LifeRec, ParentRec;
  }

  lemma {:induction false} LowerRefs(L: Layout, st: State, g: Tokens, s: SbId, x: Mnt)
    requires L.Valid() && x in st.mt && x in g.ext && x != NO_MNT
    requires s in st.sbs && st.sbs[s].active > 0 && g.spend[s] > 0
    requires st.sbs[s].pin == NO_MNT || st.sbs[s].pin in L.ids
    ensures x in Repaid(L, st.sbs, g, s).ext
    ensures Refs(L, st.(sbs := Lower(st.sbs, s)), Repaid(L, st.sbs, g, s), x) == Refs(L, st, g, x)
  {
    RepaidAt(L, st.sbs, g, s, x);
    PinLower(L, st.sbs, s, x);
    hide Layout.Valid, Repaid, PinN, StuckN, UnmN, Lower, LetsGo, Owned;
  }

  /** One reference less on s, before the file goes. */
  lemma {:induction false} LowerMount(L: Layout, st: State, g: Tokens, s: SbId, x: Mnt)
    requires L.Valid() && st.mt.Keys == L.ids && g.ext.Keys == L.ids && x in L.ids && MountOK(L, st, g, x)
    requires s in st.sbs && st.sbs[s].active > 0 && g.spend[s] > 0
    requires st.sbs[s].pin == NO_MNT || st.sbs[s].pin in L.ids
    ensures MountOK(L, st.(sbs := Lower(st.sbs, s)), Repaid(L, st.sbs, g, s), x)
  {
    assert x != NO_MNT;
    hide Layout.Valid, Repaid, Lower, LifeOK, Refs;
    RepaidAt(L, st.sbs, g, s, x);
    LowerRefs(L, st, g, s, x);
    LifeTokens(L, st, g, st.(sbs := Lower(st.sbs, s)), Repaid(L, st.sbs, g, s), x);
  }

  lemma {:induction false} LowerSuper(L: Layout, st: State, g: Tokens, s: SbId, t: SbId)
    requires L.Valid() && st.sbs.Keys == L.sbIds && t in L.sbIds && s in L.sbIds && g.spend[s] > 0
    requires SbOK(L, st, g, s) && SbOK(L, st, g, t)
    ensures SbOK(L, st.(sbs := Lower(st.sbs, s)), Repaid(L, st.sbs, g, s), t)
  {
    RepaidAt(L, st.sbs, g, s, t);
    KeepLower(L, st.sbs, s, t);
    HoldSame(st, g, st.(sbs := Lower(st.sbs, s)), Repaid(L, st.sbs, g, s), t);
    hide Repaid, KeepN, HoldN, LetsGo, Layout.Valid;
  }

  lemma {:induction false} TokenLive(L: Layout, st: State, g: Tokens, s: SbId)
    requires Inv(L, st, g) && s in g.spend
    ensures s in L.sbIds && st.sbs[s].pin == L.pin[s] && st.sbs[s].active > 0
    ensures L.pin[s] == NO_MNT || (L.pin[s] in L.ids && L.sb[L.pin[s]] in L.sbIds)
  {
    hide MountOK, KeepN, HoldN;
    assert SbOK(L, st, g, s);
  }

  lemma {:induction false} LowerShape(L: Layout, st: State, g: Tokens, s: SbId)
    requires Shape(L, st, g) && g.spend[s] > 0 && s in L.sbIds && st.sbs[s].pin == L.pin[s]
    requires L.pin[s] == NO_MNT || (L.pin[s] in L.ids && L.sb[L.pin[s]] in L.sbIds)
    ensures Shape(L, st.(sbs := Lower(st.sbs, s)), Repaid(L, st.sbs, g, s))
  {
    var g' := Repaid(L, st.sbs, g, s);
    forall x | x in g'.pend ensures x in L.ids { RepaidAt(L, st.sbs, g, s, x); }
    forall t | t in g'.spend ensures t in L.sbIds { RepaidAt(L, st.sbs, g, s, t); }
    RepaidAt(L, st.sbs, g, s, s);
    hide Repaid, Layout.Valid;
  }

  lemma {:induction false} LowerKeeps(L: Layout, st: State, g: Tokens, s: SbId)
    requires Inv(L, st, g) && s in g.spend && s in L.sbIds && st.sbs[s].pin == L.pin[s]
    requires L.pin[s] == NO_MNT || L.pin[s] in L.ids
    ensures Inv(L, st.(sbs := Lower(st.sbs, s)), Repaid(L, st.sbs, g, s))
  {
    hide MountOK, SbOK, Repaid, Layout.Valid, LetsGo, Lower, PinN;
    TokenLive(L, st, g, s);
    LowerShape(L, st, g, s);
    var st' := st.(sbs := Lower(st.sbs, s));
    var g' := Repaid(L, st.sbs, g, s);
    RepaidAt(L, st.sbs, g, s, s);
    assert SbOK(L, st, g, s);
    forall x | x in L.ids ensures MountOK(L, st', g', x) {
      assert MountOK(L, st, g, x);
      LowerMount(L, st, g, s, x);
    }
    forall t | t in L.sbIds ensures SbOK(L, st', g', t) {
      assert SbOK(L, st, g, t);
      LowerSuper(L, st, g, s, t);
    }
  }

  lemma {:induction false} SpendUnpend(g: Tokens, s: SbId, x: Mnt)
    ensures Spent(g.(spend := g.spend - multiset{s}, pend := g.pend + multiset{x}), x)
        == g.(spend := g.spend - multiset{s})
  {
    assert g.pend + multiset{x} - multiset{x} == g.pend;
  }

  lemma {:induction false} SpendRespend(g: Tokens, s: SbId, u: SbId)
    ensures g.spend - multiset{s} + multiset{u} - multiset{u} == g.spend - multiset{s}
  {
  }

  /** The file of a superblock that went down with no clone: its mount is put. */
  lemma {:induction false} FilePut(L: Layout, st: State, g: Tokens, s: SbId)
    requires L.Valid() && s in st.sbs && (st.sbs[s].pin == NO_MNT || st.sbs[s].pin in L.ids)
    requires LetsGo(st.sbs, s) && !L.clone && g.spend[s] > 0
    requires Inv(L, st.(sbs := Lower(st.sbs, s)), Repaid(L, st.sbs, g, s))
    ensures st.sbs[s].pin in st.mt
    ensures Inv(L, Put(L, st.(sbs := Lower(st.sbs, s)), st.sbs[s].pin), g.(spend := g.spend - multiset{s}))
  {
    hide MountOK, SbOK, Put, Up, Layout.Valid;
    var x := st.sbs[s].pin;
    RepaidAt(L, st.sbs, g, s, x);
    SpendUnpend(g, s, x);
    assert x in Repaid(L, st.sbs, g, s).pend;
    PutKeeps(L, st.(sbs := Lower(st.sbs, s)), Repaid(L, st.sbs, g, s), x);
  }

  /** What DropSb asks of its arguments. */
  ghost predicate Droppable(L: Layout, st: State, s: SbId) {
    && L.Valid() && st.sbs.Keys == L.sbIds && st.mt.Keys == L.ids && s in L.sbIds
    && forall u :: u in L.sbIds ==> st.sbs[u].pin == L.pin[u]
  }

  /** One step of the cascade. */
  lemma {:induction false} DropForm(L: Layout, st: State, s: SbId)
    requires Droppable(L, st, s) && st.sbs[s].active > 0
    requires L.pin[s] == NO_MNT || (L.pin[s] in L.ids && L.sb[L.pin[s]] in L.sbIds)
    ensures var st1, x := st.(sbs := Lower(st.sbs, s)), st.sbs[s].pin;
      if !LetsGo(st.sbs, s) then DropSb(L, st, s) == st1
      else if L.clone
      then Droppable(L, st1, L.sb[x]) && DropSb(L, st, s) == DropSb(L, st1, L.sb[x]) && |Up(st1.sbs)| < |Up(st.sbs)|
      else x in st.mt && DropSb(L, st, s) == Put(L, st1, x)
  {
    hide Layout.Valid, Put, Up;
    if LetsGo(st.sbs, s) { UpShrinks(st.sbs, s); }
  }

  /** deactivate_super() and its cascade keep every count exact. */
  lemma {:induction false} DropSbKeeps(L: Layout, st: State, g: Tokens, s: SbId)
    requires Inv(L, st, g) && s in g.spend && s in L.sbIds
    requires L.Valid() && st.sbs.Keys == L.sbIds && st.mt.Keys == L.ids
    requires forall u :: u in L.sbIds ==> st.sbs[u].pin == L.pin[u]
    ensures Inv(L, DropSb(L, st, s), g.(spend := g.spend - multiset{s}))
    decreases |Up(st.sbs)|, 1
  {
    TokenLive(L, st, g, s);
    LowerKeeps(L, st, g, s);
    DropForm(L, st, s);
    hide Inv, Put, Up, DropSb, Layout.Valid, LetsGo, Lower;
    var st1, x := st.(sbs := Lower(st.sbs, s)), st.sbs[s].pin;
    if LetsGo(st.sbs, s) {
      if L.clone { DropOn(L, st, g, s); } else { FilePut(L, st, g, s); }
    }
  }

  /** With the clone the cascade goes on at the superblock of the file's mount. */
  lemma {:induction false} DropOn(L: Layout, st: State, g: Tokens, s: SbId)
    requires Droppable(L, st, s) && LetsGo(st.sbs, s) && L.clone && s in g.spend
    requires st.sbs[s].pin in L.sb && st.sbs[s].pin in L.ids
    requires var st1, u := st.(sbs := Lower(st.sbs, s)), L.sb[st.sbs[s].pin];
      && Droppable(L, st1, u) && DropSb(L, st, s) == DropSb(L, st1, u) && |Up(st1.sbs)| < |Up(st.sbs)|
      && Inv(L, st1, Repaid(L, st.sbs, g, s))
    ensures Inv(L, DropSb(L, st, s), g.(spend := g.spend - multiset{s}))
    decreases |Up(st.sbs)|, 0
  {
    hide Inv, Up, DropSb, Layout.Valid, LetsGo, Lower;
    var st1, u := st.(sbs := Lower(st.sbs, s)), L.sb[st.sbs[s].pin];
    SpendRespend(g, s, u);
    DropSbKeeps(L, st1, Repaid(L, st.sbs, g, s), u);
  }

  /** The pins never change. */
  lemma {:induction false} PinsFixed(L: Layout, st: State, g: Tokens)
    requires Inv(L, st, g)
    ensures forall u :: u in L.sbIds ==> st.sbs[u].pin == L.pin[u]
  {
    forall u | u in L.sbIds ensures st.sbs[u].pin == L.pin[u] { assert SbOK(L, st, g, u); }
  }
}
