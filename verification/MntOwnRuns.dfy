/** What no cascade can do: bring a mount back, or take down what keeps itself. */
module MntOwnRuns {
  import opened MntOwn
  import opened MntOwnCount
  import opened MntOwnSteps
  import opened Finite

  // ---- a mount only moves forward in its life -----------------------------------------

  /** How much life a mount has left: mounted or held, tombstone to be released,
      tombstone, doomed, freed. */
  function Phase(r: Mount): (n: nat) {
    if r.freed then 0 else if r.doomed then 1 else if !r.tomb then 4 else if r.release then 3 else 2
  }

  ghost predicate Later(r: Mount, r': Mount) {
    r'.ns == r.ns && r'.umount == r.umount && Phase(r') <= Phase(r) && (r'.Attached() ==> r.Attached())
  }

  ghost predicate AllLater(st: State, st': State) {
    st'.mt.Keys == st.mt.Keys && forall x :: x in st.mt ==> Later(st.mt[x], st'.mt[x])
  }

  lemma {:induction false} LaterTrans(a: State, b: State, c: State)
    requires AllLater(a, b) && AllLater(b, c)
    ensures AllLater(a, c)
  {
    hide Phase;
    forall x | x in a.mt ensures Later(a.mt[x], c.mt[x]) { assert Later(a.mt[x], b.mt[x]); }
  }

  lemma {:induction false} PutLater(L: Layout, st: State, m: Mnt)
    requires m in st.mt && (st.mt[m].tomb && Last(st, m) ==> !st.mt[m].release)
    ensures AllLater(st, Put(L, st, m))
  {
    hide Put, Kids, StuckOf;
    forall x | x in st.mt ensures Later(st.mt[x], Put(L, st, m).mt[x]) { PutRecAt(L, st, m, x); }
  }

  /** mntput() under the invariant, with its token. */
  lemma {:induction false} TokenLater(L: Layout, st: State, g: Tokens, m: Mnt)
    requires Inv(L, st, g) && m in g.pend
    ensures m in st.mt && AllLater(st, Put(L, st, m))
  {
    hide Refs, LifeOK, Put, SbOK;
    assert MountOK(L, st, g, m);
    if Last(st, m) { LastRef(L, st, g, m); }
    PutLater(L, st, m);
  }

  // ---- what keeps itself stays -----------------------------------------------------------

  /** A superblock with a mount in C has its file on y. */
  ghost predicate PinnedIn(L: Layout, C: set<Mnt>, y: Mnt)
    requires L.Valid()
  {
    exists x :: x in C && x in L.ids && L.pin[L.sb[x]] == y
  }

  /** A set of mounts each of which is pinned by the superblock of a member. */
  ghost predicate SelfPinned(L: Layout, C: set<Mnt>)
    requires L.Valid()
  {
    C <= L.ids && forall y {:trigger PinnedIn(L, C, y)} :: y in C ==> PinnedIn(L, C, y)
  }

  /** A superblock in D has its file on a mount of t. */
  ghost predicate KeptIn(L: Layout, D: set<SbId>, t: SbId)
    requires L.Valid()
  {
    exists u :: u in D && u in L.sbIds && L.pin[u] != NO_MNT && L.sb[L.pin[u]] == t
  }

  /** A set of superblocks each of which carries the file of a member. */
  ghost predicate SelfHeld(L: Layout, D: set<SbId>)
    requires L.Valid()
  {
    D <= L.sbIds && forall t {:trigger KeptIn(L, D, t)} :: t in D ==> KeptIn(L, D, t)
  }

  /** The mounts of C are in full life (no clone) or the superblocks of D up (clone). */
  ghost predicate Stays(L: Layout, st: State, C: set<Mnt>, D: set<SbId>)
    requires L.Valid()
  {
    && SelfPinned(L, C) && SelfHeld(L, D) && (if L.clone then C == {} else D == {})
    && (forall m :: m in C ==> m in st.mt && Phase(st.mt[m]) == 4)
    && (forall t :: t in D ==> t in st.sbs && st.sbs[t].active > 0)
  }

  lemma {:induction false} HolderUp(L: Layout, st: State, g: Tokens, x: Mnt)
    requires Inv(L, st, g) && x in L.ids && Phase(st.mt[x]) == 4
    ensures L.sb[x] in L.sbIds && st.sbs[L.sb[x]].active > 0 && st.sbs[L.sb[x]].pin == L.pin[L.sb[x]]
  {
    hide Refs, KeepN, ParentRec;
    assert MountOK(L, st, g, x);
    assert SbOK(L, st, g, L.sb[x]);
    assert x in Holders(st, g, L.sb[x]);
  }

  lemma {:induction false} PinnedCounts(L: Layout, st: State, g: Tokens, C: set<Mnt>, D: set<SbId>, y: Mnt)
    requires Inv(L, st, g) && Stays(L, st, C, D) && y in C
    ensures PinN(L, st.sbs, y) >= 1
  {
    hide MountOK, SbOK;
    assert PinnedIn(L, C, y);
    var x :| x in C && x in L.ids && L.pin[L.sb[x]] == y;
    HolderUp(L, st, g, x);
    assert L.sb[x] in PinSet(L, st.sbs, y);
    hide Phase;
  }

  /** mntput() of a self-pinned mount is never the last one. */
  lemma {:induction false} PinnedNotLast(L: Layout, st: State, g: Tokens, C: set<Mnt>, D: set<SbId>, m: Mnt)
    requires Inv(L, st, g) && Stays(L, st, C, D) && m in C && m in g.pend
    ensures !Last(st, m)
  {
    hide StuckN, UnmN, PinN, Stays, SbOK, LifeOK, Layout.Valid;
    PinnedCounts(L, st, g, C, D, m);
    assert MountOK(L, st, g, m);
  }

  lemma {:induction false} PutStays(L: Layout, st: State, g: Tokens, C: set<Mnt>, D: set<SbId>, m: Mnt)
    requires Inv(L, st, g) && Stays(L, st, C, D) && m in g.pend
    ensures m in st.mt && Stays(L, Put(L, st, m), C, D)
  {
    hide MountOK, SbOK, Put, SelfPinned, SelfHeld, Layout.Valid, Kids, StuckOf;
    if m in C { PinnedNotLast(L, st, g, C, D, m); }
    forall x | x in C ensures Phase(Put(L, st, m).mt[x]) == 4 { PutRecAt(L, st, m, x); }
  }

  lemma {:induction false} PutAllRuns(L: Layout, st: State, g: Tokens, C: set<Mnt>, D: set<SbId>, s: seq<Mnt>)
    requires Inv(L, st, g) && Stays(L, st, C, D) && multiset(s) <= g.pend
    requires forall i :: 0 <= i < |s| ==> s[i] in st.mt
    ensures Stays(L, PutAll(L, st, s), C, D) && AllLater(st, PutAll(L, st, s))
    decreases |s|
  {
    hide Put, Inv, Stays, Later;
    if s == [] {
      LaterSelf(st);
    } else {
      assert s == [s[0]] + s[1..];
      assert multiset(s) == multiset{s[0]} + multiset(s[1..]);
      assert s[0] in g.pend;
      PutKeeps(L, st, g, s[0]);
      PutStays(L, st, g, C, D, s[0]);
      TokenLater(L, st, g, s[0]);
      var st1 := Put(L, st, s[0]);
      PutAllRuns(L, st1, Spent(g, s[0]), C, D, s[1..]);
      LaterTrans(st, st1, PutAll(L, st1, s[1..]));
    }
  }

  lemma {:induction false} LaterSelf(st: State)
    ensures AllLater(st, st)
  {
  }

  /** A self-held superblock never loses its last reference. */
  lemma {:induction false} HeldNotLast(L: Layout, st: State, g: Tokens, C: set<Mnt>, D: set<SbId>, s: SbId)
    requires Inv(L, st, g) && Stays(L, st, C, D) && s in D && s in g.spend && s in L.sbIds
    ensures st.sbs[s].active > 1
  {
    hide MountOK, HoldN;
    assert KeptIn(L, D, s);
    var u :| u in D && u in L.sbIds && L.pin[u] != NO_MNT && L.sb[L.pin[u]] == s;
    assert u in Keepers(L, st.sbs, s);
    assert SbOK(L, st, g, s);
    hide Phase;
  }

  lemma {:induction false} LowerStays(L: Layout, st: State, g: Tokens, C: set<Mnt>, D: set<SbId>, s: SbId)
    requires Inv(L, st, g) && Stays(L, st, C, D) && s in g.spend && s in L.sbIds && s in st.sbs
    ensures Stays(L, st.(sbs := Lower(st.sbs, s)), C, D)
  {
    hide MountOK, SbOK, SelfPinned, SelfHeld, Layout.Valid;
    if s in D { HeldNotLast(L, st, g, C, D, s); }
  }

  lemma {:induction false} DropSbRuns(L: Layout, st: State, g: Tokens, C: set<Mnt>, D: set<SbId>, s: SbId)
    requires Inv(L, st, g) && s in g.spend && s in L.sbIds
    requires L.Valid() && st.sbs.Keys == L.sbIds && st.mt.Keys == L.ids
    requires forall u :: u in L.sbIds ==> st.sbs[u].pin == L.pin[u]
    requires Stays(L, st, C, D)
    ensures Stays(L, DropSb(L, st, s), C, D) && AllLater(st, DropSb(L, st, s))
    decreases |Up(st.sbs)|
  {
    hide MountOK, SbOK, Put, Up, Inv, Stays, Later;
    TokenLive(L, st, g, s);
    LowerKeeps(L, st, g, s);
    LowerStays(L, st, g, C, D, s);
    var st1 := st.(sbs := Lower(st.sbs, s));
    LaterSelf(st1);
    if LetsGo(st.sbs, s) {
      if L.clone {
        UpShrinks(st.sbs, s);
        DropSbRuns(L, st1, Repaid(L, st.sbs, g, s), C, D, L.sb[st.sbs[s].pin]);
      } else {
        RepaidAt(L, st.sbs, g, s, st.sbs[s].pin);
        PutStays(L, st1, Repaid(L, st.sbs, g, s), C, D, st.sbs[s].pin);
        TokenLater(L, st1, Repaid(L, st.sbs, g, s), st.sbs[s].pin);
      }
    }
  }

  // ---- cleanup_mnt() -----------------------------------------------------------------------

  lemma {:induction false} TakeRuns(L: Layout, st: State, ext: map<Mnt, nat>, C: set<Mnt>, D: set<SbId>, m: Mnt)
    requires Inv(L, st, At(ext)) && Stays(L, st, C, D) && m in st.cleanq && m in st.mt
    ensures Stays(L, TakeStuck(st, m), C, D) && AllLater(st, TakeStuck(st, m))
    ensures Phase(st.mt[m]) == if st.mt[m].release then 3 else 1
    ensures Phase(TakeStuck(st, m).mt[m]) == if st.mt[m].release then 2 else 1
  {
    hide Refs, SbOK, SelfPinned, SelfHeld, ParentRec, Layout.Valid;
    assert MountOK(L, st, At(ext), m);
  }

  /** The invariant after the stuck children are put, and what stayed. */
  lemma {:induction false} StuckRuns(L: Layout, st: State, ext: map<Mnt, nat>, C: set<Mnt>, D: set<SbId>,
      m: Mnt, s: seq<Mnt>)
    requires Inv(L, st, At(ext)) && Stays(L, st, C, D) && m in st.cleanq && m in L.ids && m in st.mt
    requires multiset(s) == multiset(st.mt[m].stuck) && forall i :: 0 <= i < |s| ==> s[i] in st.mt
    ensures Stays(L, PutAll(L, TakeStuck(st, m), s), C, D) && AllLater(st, PutAll(L, TakeStuck(st, m), s))
    ensures AllLater(TakeStuck(st, m), PutAll(L, TakeStuck(st, m), s))
  {
    hide Inv, PutAll, Stays, Later, Phase;
    TakeKeeps(L, st, ext, m);
    TakeRuns(L, st, ext, C, D, m);
    OwedLess(ext, m, st.mt[m], s);
    PutAllRuns(L, TakeStuck(st, m), Owed(ext, m, st.mt[m]), C, D, s);
    LaterTrans(st, TakeStuck(st, m), PutAll(L, TakeStuck(st, m), s));
  }

  lemma {:induction false} ReleaseRuns(L: Layout, st: State, ext: map<Mnt, nat>, C: set<Mnt>, D: set<SbId>, m: Mnt)
    requires Inv(L, st, At(ext)) && Stays(L, st, C, D) && m in st.cleanq && CleanReady(L, st, m)
    requires L.disown && st.mt[m].release && !st.mt[m].freed && st.mt[m].oldsb != NULL_SB
    ensures Stays(L, Cleanup(L, st, m), C, D) && AllLater(st, Cleanup(L, st, m))
    ensures Phase(Cleanup(L, st, m).mt[m]) < Phase(st.mt[m])
  {
    hide Inv, DropSb, Put, PutAll, TakeStuck, Stays, Phase, HeldSb;
    var s := Ordered(L, st.mt[m].stuck);
    TakeFrame(st, m);
    var st0 := PutAll(L, TakeStuck(st, m), s);
    StuckPut(L, st, ext, m, s);
    StuckRuns(L, st, ext, C, D, m, s);
    TakeRuns(L, st, ext, C, D, m);
    var g := Tokens(ext, multiset{m}, multiset{st.mt[m].oldsb}, {});
    assert Owed(ext, m, st.mt[m]).(pend := multiset{m}) == g by { HeldRelease(st.mt[m]); }
    HeldDropped(L, st0, g, st.mt[m].oldsb);
    DropSbRuns(L, st0, g, C, D, st.mt[m].oldsb);
    var st1 := DropSb(L, st0, st.mt[m].oldsb);
    PutStays(L, st1, g.(spend := multiset{}), C, D, m);
    TokenLater(L, st1, g.(spend := multiset{}), m);
    LaterTrans(st, st0, st1);
    LaterTrans(st, st1, Put(L, st1, m));
    LaterTrans(TakeStuck(st, m), st0, st1);
    LaterTrans(TakeStuck(st, m), st1, Put(L, st1, m));
  }

  lemma {:induction false} HeldRelease(r: Mount)
    requires r.release && !r.freed
    ensures HeldSb(r) == r.oldsb
  {
  }

  lemma {:induction false} FreedLater(a: Mount, r: Mount)
    requires Later(a, r) && Phase(a) == 1
    ensures var f := r.(freed := true, attached := false, parent := NO_MNT);
            Later(a, f) && Phase(f) == 0 && Phase(r) < 4
  {
  }

  lemma {:induction false} FreeRuns(L: Layout, a: State, st: State, C: set<Mnt>, D: set<SbId>, m: Mnt)
    requires L.Valid() && m in st.mt && Stays(L, st, C, D) && AllLater(a, st) && Phase(a.mt[m]) == 1
    ensures Stays(L, Free(st, m), C, D) && AllLater(a, Free(st, m)) && Phase(Free(st, m).mt[m]) == 0
  {
    hide Layout.Valid, SelfPinned, SelfHeld, Later, Phase;
    assert Later(a.mt[m], st.mt[m]);
    FreedLater(a.mt[m], st.mt[m]);
    forall x | x in a.mt ensures Later(a.mt[x], Free(st, m).mt[x]) { assert Later(a.mt[x], st.mt[x]); }
  }

  lemma {:induction false} FinalRuns(L: Layout, st: State, ext: map<Mnt, nat>, C: set<Mnt>, D: set<SbId>, m: Mnt)
    requires Inv(L, st, At(ext)) && Stays(L, st, C, D) && m in st.cleanq && CleanReady(L, st, m)
    requires !st.mt[m].release && !st.mt[m].freed
    ensures Stays(L, Cleanup(L, st, m), C, D) && AllLater(st, Cleanup(L, st, m))
    ensures Phase(Cleanup(L, st, m).mt[m]) < Phase(st.mt[m])
  {
    hide Inv, DropSb, Put, PutAll, TakeStuck, Stays, Phase, Later;
    var s := Ordered(L, st.mt[m].stuck);
    TakeFrame(st, m);
    var st0 := PutAll(L, TakeStuck(st, m), s);
    StuckPut(L, st, ext, m, s);
    StuckRuns(L, st, ext, C, D, m, s);
    TakeRuns(L, st, ext, C, D, m);
    if st.mt[m].sb != NULL_SB {
      var g := Tokens(ext, multiset{}, multiset{st.mt[m].sb}, {m});
      HeldDropped(L, st0, g, st.mt[m].sb);
      DropSbRuns(L, st0, g, C, D, st.mt[m].sb);
      LaterTrans(st, st0, DropSb(L, st0, st.mt[m].sb));
      FreeRuns(L, st, DropSb(L, st0, st.mt[m].sb), C, D, m);
    } else {
      FreeRuns(L, st, st0, C, D, m);
    }
  }

  lemma {:induction false} CleanupRuns(L: Layout, st: State, ext: map<Mnt, nat>, C: set<Mnt>, D: set<SbId>, m: Mnt)
    requires Inv(L, st, At(ext)) && Stays(L, st, C, D) && m in st.cleanq
    ensures CleanReady(L, st, m) && Stays(L, Cleanup(L, st, m), C, D) && AllLater(st, Cleanup(L, st, m))
    ensures Phase(Cleanup(L, st, m).mt[m]) < Phase(st.mt[m])
  {
    hide SbOK, Refs, Cleanup, ParentRec, LinkOK, Stays, AllLater, Phase;
    CleanupKeeps(L, st, ext, m);
    assert MountOK(L, st, At(ext), m);
    assert L.sb[m] in L.sbIds;
    if st.mt[m].release { ReleaseRuns(L, st, ext, C, D, m); } else { FinalRuns(L, st, ext, C, D, m); }
  }

  // ---- every action ----------------------------------------------------------------------

  /** What is left to do: tasks to leave, files to close, references to drop, mounts
      to take out of the namespace, off their parent and through the rest of their
      life. */
  ghost function Weight(y: Sys, m: Mnt): (n: int) {
    if m in y.st.mt && m in y.ext
    then y.ext[m] + Phase(y.st.mt[m]) + 2 * Bit(y.st.mt[m].ns) + Bit(y.st.mt[m].Attached())
    else 0
  }
  ghost function Measure(L: Layout, y: Sys): (n: int) {
    y.users + Bit(y.alive) + |y.st.unm| + Sum(L.ids, (m: Mnt) => Weight(y, m))
  }

  /** What one action does to the invariant, to what keeps itself, to the measure. */
  ghost predicate Moves(L: Layout, y: Sys, z: Sys, C: set<Mnt>, D: set<SbId>)
    requires L.Valid()
  {
    Good(L, z) && Stays(L, z.st, C, D) && Measure(L, z) < Measure(L, y)
  }

  lemma {:induction false} LaterWeight(L: Layout, y: Sys, z: Sys)
    requires AllLater(y.st, z.st) && y.st.mt.Keys == L.ids && y.ext.Keys == L.ids
    requires z.ext.Keys == L.ids && forall m :: m in L.ids ==> z.ext[m] <= y.ext[m]
    ensures Sum(L.ids, (m: Mnt) => Weight(z, m)) <= Sum(L.ids, (m: Mnt) => Weight(y, m))
  {
    hide Phase;
    forall m | m in L.ids ensures Weight(z, m) <= Weight(y, m) { assert Later(y.st.mt[m], z.st.mt[m]); }
    SumMonotone(L.ids, (m: Mnt) => Weight(z, m), (m: Mnt) => Weight(y, m));
  }

  /** ... and strictly, if one mount moved on or one file was closed. */
  lemma {:induction false} LaterWeightAt(L: Layout, y: Sys, z: Sys, m: Mnt)
    requires AllLater(y.st, z.st) && y.st.mt.Keys == L.ids && y.ext.Keys == L.ids && m in L.ids
    requires z.ext.Keys == L.ids && forall x :: x in L.ids ==> z.ext[x] <= y.ext[x]
    requires z.ext[m] + Phase(z.st.mt[m]) < y.ext[m] + Phase(y.st.mt[m])
    ensures Sum(L.ids, (x: Mnt) => Weight(z, x)) < Sum(L.ids, (x: Mnt) => Weight(y, x))
  {
    hide Phase;
    var f, h := (x: Mnt) => Weight(z, x), (x: Mnt) => Weight(y, x);
    forall x | x in L.ids ensures f(x) <= h(x) { assert Later(y.st.mt[x], z.st.mt[x]); }
    SumSplit(L.ids, f, m);
    SumSplit(L.ids, h, m);
    SumMonotone(L.ids - {m}, f, h);
    assert Later(y.st.mt[m], z.st.mt[m]);
  }

  lemma {:induction false} LaterGood(L: Layout, y: Sys, z: Sys)
    requires Good(L, y) && Inv(L, z.st, At(z.ext)) && AllLater(y.st, z.st) && z.alive == y.alive
    ensures Good(L, z)
  {
    hide MountOK, SbOK, Phase;
    forall m | m in L.ids && z.st.mt[m].ns ensures z.alive { assert Later(y.st.mt[m], z.st.mt[m]); }
    assert Later(y.st.mt[L.root], z.st.mt[L.root]);
  }

  lemma {:induction false} NsUnlockRuns(L: Layout, y: Sys, z: Sys, C: set<Mnt>, D: set<SbId>)
    requires Good(L, y) && Stays(L, y.st, C, D) && NsUnlockPut(L, y, z)
    ensures Moves(L, y, z, C, D)
  {
    hide Inv, Put, Later, Stays, Phase, Weight;
    var st := y.st.(unm := y.st.unm[1..]);
    var m := y.st.unm[0];
    var g := At(y.ext).(pend := multiset{m});
    GoodValid(L, y);
    UnlistKeeps(L, y.st, y.ext);
    TokenPut(L, st, y.ext, m);
    StaysUnlisted(L, y.st, st, C, D);
    PutStays(L, st, g, C, D, m);
    TokenLater(L, st, g, m);
    LaterGood(L, y, z);
    LaterWeight(L, y, z);
  }

  lemma {:induction false} StaysUnlisted(L: Layout, st: State, st': State, C: set<Mnt>, D: set<SbId>)
    requires L.Valid() && Stays(L, st, C, D) && st'.mt == st.mt && st'.sbs == st.sbs
    ensures Stays(L, st', C, D)
  {
    hide Layout.Valid, SelfPinned, SelfHeld, Phase;
  }

  lemma {:induction false} CloseRuns(L: Layout, y: Sys, z: Sys, C: set<Mnt>, D: set<SbId>, m: Mnt)
    requires Good(L, y) && Stays(L, y.st, C, D) && Close(L, y, z, m)
    ensures Moves(L, y, z, C, D)
  {
    hide MountOK, SbOK, Put, SelfPinned, SelfHeld, Phase, Weight;
    var g := At(z.ext).(pend := multiset{m});
    CloseKeeps(L, y.st, y.ext, m);
    TokenPut(L, y.st, z.ext, m);
    PutStays(L, y.st, g, C, D, m);
    TokenLater(L, y.st, g, m);
    LaterGood(L, y, z);
    assert Later(y.st.mt[m], z.st.mt[m]);
    LaterWeightAt(L, y, z, m);
  }

  lemma {:induction false} CleanRuns(L: Layout, y: Sys, z: Sys, C: set<Mnt>, D: set<SbId>, m: Mnt)
    requires Good(L, y) && Stays(L, y.st, C, D) && CleanupMnt(L, y, z, m)
    ensures Moves(L, y, z, C, D)
  {
    hide MountOK, SbOK, Cleanup, Later, SelfPinned, SelfHeld, Phase, Weight;
    CleanupKeeps(L, y.st, y.ext, m);
    CleanupRuns(L, y.st, y.ext, C, D, m);
    CleanupUnm(L, y.st, m);
    LaterGood(L, y, z);
    LaterWeightAt(L, y, z, m);
  }

  lemma {:induction false} CleanupUnm(L: Layout, st: State, m: Mnt)
    requires CleanReady(L, st, m)
    ensures Cleanup(L, st, m).unm == st.unm
  {
    hide DropSb, Put, PutAll;
  }

  lemma {:induction false} SumDrop(s: set<Mnt>, V: set<Mnt>, W: set<Mnt>, f: Mnt -> int, h: Mnt -> int)
    requires V <= s && W <= s && forall x :: x in s ==> h(x) <= f(x) - 2 * Bit(x in V) - Bit(x in W)
    ensures Sum(s, h) <= Sum(s, f) - 2 * |V| - |W|
    decreases |s|
  {
    if s == {} {
      assert V == {} && W == {};
    } else {
      var x :| x in s;
      SumSplit(s, f, x);
      SumSplit(s, h, x);
      SumDrop(s - {x}, V - {x}, W - {x}, f, h);
      LessOne(V, x);
      LessOne(W, x);
    }
  }

  lemma {:induction false} LessOne(V: set<Mnt>, x: Mnt)
    ensures |V| == |V - {x}| + Bit(x in V)
  {
    if x !in V { assert V - {x} == V; }
  }

  lemma {:induction false} UmountEachLen(L: Layout, st: State, s: seq<Mnt>, how: How)
    requires forall i :: 0 <= i < |s| ==> s[i] in st.mt
    ensures |UmountEach(L, st, s, how).unm| <= |st.unm| + |s|
    decreases |s|
  {
    if s != [] { UmountEachLen(L, UmountOne(L, st, s[0], how), s[1..], how); }
  }

  lemma {:induction false} OrderedLen(L: Layout, V: set<Mnt>)
    requires V <= L.depth.Keys
    ensures |Ordered(L, V)| == |V|
  {
    hide Ordered;
    var s := Ordered(L, V);
    assert |multiset(s)| == |s|;
    assert |multiset(V)| == |V|;
  }

  lemma {:induction false} ReverseLen(s: seq<Mnt>)
    ensures |Reverse(s)| == |s|
  {
    hide Reverse;
    assert |multiset(Reverse(s))| == |multiset(s)|;
  }

  /** The mounts that are looked at again. */
  ghost function AgainSet(L: Layout, st: State, V: set<Mnt>): (r: set<Mnt>) { set x | x in st.mt && Again(L, st, V, x) }

  lemma {:induction false} VictimsLen(L: Layout, st: State, m: Mnt, how: How)
    requires L.Valid() && st.mt.Keys == L.ids && m in L.ids
    ensures |Victims(L, st, m, how).unm| <= |st.unm| + |Subtree(st.mt, {m})|
  {
    var V := Subtree(st.mt, {m});
    hide UmountEach, Subtree, MarkUmount;
    OrderedLen(L, V);
    hide Layout.Valid;
    UmountEachLen(L, st.(mt := MarkUmount(st.mt, V)), Ordered(L, V), how);
  }

  lemma {:induction false} SecondLen(L: Layout, st: State, V: set<Mnt>)
    requires L.Valid() && st.mt.Keys == L.ids
    ensures |Second(L, st, V).unm| == |st.unm| + if L.pinners && L.reexamine then |Late(st, V)| else 0
  {
    hide Late, Reverse, Unhash, Ordered;
    LateKeys(L, st, V);
    OrderedLen(L, Late(st, V));
    ReverseLen(st.unm);
    ReverseLen(Reexamine(L, st, V).unm);
    hide Layout.Valid;
  }

  lemma {:induction false} LateIsAgain(L: Layout, st: State, m: Mnt, how: How)
    requires L.Valid() && st.mt.Keys == L.ids && m in L.ids
    ensures var V := Subtree(st.mt, {m});
            AgainSet(L, st, V) == if L.pinners && L.reexamine then Late(Victims(L, st, m, how), V) else {}
  {
    var V := Subtree(st.mt, {m});
    hide Victims, Subtree, MarkUmount, UmountEach, Ordered;
    VictimsAt(L, st, m, how, m);
    LateKeys(L, Victims(L, st, m, how), V);
    hide Late;
    forall x | x in L.ids
      ensures x in Late(Victims(L, st, m, how), V) <==> x in Late(st.(mt := MarkUmount(st.mt, V)), V)
    { LateAt(L, st, m, how, x); }
    hide Layout.Valid;
  }

  lemma {:induction false} UmountLen(L: Layout, st: State, m: Mnt, how: How)
    requires L.Valid() && st.mt.Keys == L.ids && m in L.ids
    ensures |UmountTree(L, st, m, how).unm| <= |st.unm| + |Subtree(st.mt, {m})| + |AgainSet(L, st, Subtree(st.mt, {m}))|
  {
    hide UmountTree, Victims, Subtree, AgainSet, Layout.Valid, Second, Late;
    VictimsLen(L, st, m, how);
    VictimsAt(L, st, m, how, m);
    UmountIs(L, st, m, how);
    SecondLen(L, Victims(L, st, m, how), Subtree(st.mt, {m}));
    LateIsAgain(L, st, m, how);
  }

  lemma {:induction false} UmountPhase(r: Mount, disc: bool)
    ensures Phase(Gone(r, disc)) == Phase(r) && !Gone(r, disc).ns && (Gone(r, disc).Attached() ==> r.Attached())
    ensures Phase(Unhash(r)) == Phase(r) && !Unhash(r).Attached() && Unhash(r).ns == r.ns
  {
  }

  /** The weight of a victim falls by two, that of a mount looked at again by one. */
  lemma {:induction false} UmountWeighs(L: Layout, y: Sys, z: Sys, m: Mnt, how: How, x: Mnt)
    requires L.Valid() && y.st.mt.Keys == L.ids && m in L.ids && x in L.ids && z.st == UmountTree(L, y.st, m, how)
    requires z.ext == y.ext && y.ext.Keys == L.ids
    requires x in Subtree(y.st.mt, {m}) ==> y.st.mt[x].ns
    ensures var V := Subtree(y.st.mt, {m});
            Weight(z, x) <= Weight(y, x) - 2 * Bit(x in V) - Bit(x in AgainSet(L, y.st, V))
  {
    hide UmountTree, Subtree, Phase, Gone, Layout.Valid, UnmN, Again, Unhash, Leaves;
    var V := Subtree(y.st.mt, {m});
    UmountTreeAt(L, y.st, m, how, x);
    UmountPhase(y.st.mt[x], Leaves(L, y.st, V, x, how));
    if Again(L, y.st, V, x) { AgainOwned(L, y.st, V, x); }
  }

  lemma {:induction false} UmountWeight(L: Layout, y: Sys, z: Sys, m: Mnt, how: How)
    requires L.Valid() && y.st.mt.Keys == L.ids && m in L.ids && z.st == UmountTree(L, y.st, m, how) && z.ext == y.ext
    requires y.ext.Keys == L.ids
    requires forall k :: k in Subtree(y.st.mt, {m}) ==> y.st.mt[k].ns
    ensures |z.st.unm| + Sum(L.ids, (x: Mnt) => Weight(z, x)) < |y.st.unm| + Sum(L.ids, (x: Mnt) => Weight(y, x))
  {
    hide UmountTree, Subtree, Weight, Again, Layout.Valid;
    var V := Subtree(y.st.mt, {m});
    var W := AgainSet(L, y.st, V);
    var f, h := (x: Mnt) => Weight(y, x), (x: Mnt) => Weight(z, x);
    forall x | x in L.ids ensures h(x) <= f(x) - 2 * Bit(x in V) - Bit(x in W) { UmountWeighs(L, y, z, m, how, x); }
    SumDrop(L.ids, V, W, f, h);
    UmountLen(L, y.st, m, how);
    assert m in V && |V| > 0;
  }

  lemma {:induction false} UmountStays(L: Layout, st: State, C: set<Mnt>, D: set<SbId>, m: Mnt, how: How)
    requires L.Valid() && st.mt.Keys == L.ids && m in L.ids && Stays(L, st, C, D)
    ensures Stays(L, UmountTree(L, st, m, how), C, D)
  {
    hide UmountTree, Subtree, Layout.Valid, SelfPinned, SelfHeld, UnmN, Gone, Unhash, Leaves, Again, Phase;
    UmountTreeAt(L, st, m, how, m);
    forall x | x in C ensures Phase(UmountTree(L, st, m, how).mt[x]) == 4 {
      UmountTreeAt(L, st, m, how, x);
      UmountPhase(st.mt[x], Leaves(L, st, Subtree(st.mt, {m}), x, how));
    }
  }

  /** umount(2), lazy or synchronous, and rmdir. */
  lemma {:induction false} UmountRuns(L: Layout, y: Sys, z: Sys, C: set<Mnt>, D: set<SbId>, m: Mnt, how: How)
    requires Good(L, y) && Stays(L, y.st, C, D) && Victim(L, y, m) && z == y.(st := UmountTree(L, y.st, m, how))
    ensures Moves(L, y, z, C, D)
  {
    hide MountOK, SbOK, UmountTree, Subtree, SelfPinned, SelfHeld, Weight, Phase;
    UmountGood(L, y, z, m, how);
    UmountStays(L, y.st, C, D, m, how);
    SubtreeAllNs(L, y.st, At(y.ext), m, {m});
    UmountWeight(L, y, z, m, how);
  }

  lemma {:induction false} PutNsRuns(L: Layout, y: Sys, z: Sys, C: set<Mnt>, D: set<SbId>)
    requires Good(L, y) && Stays(L, y.st, C, D) && PutMntNs(L, y, z)
    ensures Moves(L, y, z, C, D)
  {
    hide MountOK, SbOK, UmountTree, Subtree, SelfPinned, SelfHeld, Weight, Phase;
    var how := How(false, !L.nsDisconnect);
    PutNsGood(L, y, z);
    UmountStays(L, y.st, C, D, L.root, how);
    SubtreeAllNs(L, y.st, At(y.ext), L.root, {L.root});
    UmountWeight(L, y, z, L.root, how);
  }

  lemma {:induction false} LeaveRuns(L: Layout, y: Sys, z: Sys, C: set<Mnt>, D: set<SbId>)
    requires Good(L, y) && Stays(L, y.st, C, D) && Leave(y, z)
    ensures Moves(L, y, z, C, D)
  {
    hide Inv, SelfPinned, SelfHeld, Phase;
    var f, h := (x: Mnt) => Weight(y, x), (x: Mnt) => Weight(z, x);
    SumCongruent(L.ids, f, h);
    GoodValid(L, y);
  }

  lemma {:induction false} GoodValid(L: Layout, y: Sys)
    requires Good(L, y)
    ensures L.Valid() && y.st.mt.Keys == L.ids && y.st.sbs.Keys == L.sbIds && y.ext.Keys == L.ids
  {
    hide MountOK, SbOK, Layout.Valid;
  }

  /** Every action keeps the invariant and what keeps itself, and gets something
      done, except for standing still once settled. */
  lemma {:induction false} StepRuns(L: Layout, y: Sys, z: Sys, C: set<Mnt>, D: set<SbId>)
    requires Good(L, y) && L.Valid() && y.st.mt.Keys == L.ids && Stays(L, y.st, C, D) && Next(L, y, z)
    ensures (Settled(L, y) && z == y) || Moves(L, y, z, C, D)
  {
    hide Good, Stays, Moves, Victim, UmountTree, Close, CleanupMnt, NsUnlockPut, PutMntNs, Leave, Settled;
    if m :| m in L.ids && LazyUmount(L, y, z, m) { UmountRuns(L, y, z, C, D, m, How(false, false)); }
    else if m :| m in L.ids && SyncUmount(L, y, z, m) { UmountRuns(L, y, z, C, D, m, How(true, false)); }
    else if m :| m in L.ids && DetachMounts(L, y, z, m) { UmountRuns(L, y, z, C, D, m, How(false, true)); }
    else if m :| m in L.ids && Close(L, y, z, m) { CloseRuns(L, y, z, C, D, m); }
    else if m :| m in L.ids && CleanupMnt(L, y, z, m) { CleanRuns(L, y, z, C, D, m); }
    else if Leave(y, z) { LeaveRuns(L, y, z, C, D); }
    else if PutMntNs(L, y, z) { PutNsRuns(L, y, z, C, D); }
    else if NsUnlockPut(L, y, z) { NsUnlockRuns(L, y, z, C, D); }
  }
}
