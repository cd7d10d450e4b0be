/** The claims of the ownership model, for every layout and every run. */
module MntOwnTheorems {
  import opened MntOwn
  import opened MntOwnCount
  import opened MntOwnSteps
  import opened MntOwnRuns
  import opened Finite

  // ---- every state of every run -------------------------------------------------------------

  lemma {:induction false} RunGood(L: Layout, tr: seq<Sys>, C: set<Mnt>, D: set<SbId>, i: nat)
    requires Run(L, tr) && i < |tr| && L.Valid() && Stays(L, tr[0].st, C, D)
    ensures Good(L, tr[i]) && Stays(L, tr[i].st, C, D)
    decreases i
  {
    hide Good, Stays, Init, Next, Layout.Valid;
    if i == 0 {
      InitGood(L, tr[0]);
    } else {
      RunGood(L, tr, C, D, i - 1);
      assert Next(L, tr[i - 1], tr[i]);
      StepRuns(L, tr[i - 1], tr[i], C, D);
    }
  }

  lemma {:induction false} NothingStays(L: Layout, st: State)
    requires L.Valid()
    ensures Stays(L, st, {}, {})
  {
  }

  lemma {:induction false} Reachable(L: Layout, tr: seq<Sys>, i: nat)
    requires Run(L, tr) && i < |tr|
    ensures L.Valid() && Good(L, tr[i])
  {
    hide Good, Stays;
    NothingStays(L, tr[0].st);
    RunGood(L, tr, {}, {}, i);
  }

  // ---- the invariants the model checks --------------------------------------------------------

  /** Counts are never negative. */
  ghost predicate TypeOK(L: Layout, y: Sys)
    requires y.st.mt.Keys == L.ids && y.st.sbs.Keys == L.sbIds
  {
    && (forall m :: m in L.ids ==> y.st.mt[m].count >= 0)
    && (forall s :: s in L.sbIds ==> y.st.sbs[s].active >= 0)
  }

  /** m's parent and stuck children are not freed. */
  ghost predicate LinksAlive(L: Layout, y: Sys, m: Mnt)
    requires y.st.mt.Keys == L.ids && m in L.ids
  {
    && (!y.st.mt[m].freed && y.st.mt[m].parent != NO_MNT ==>
          y.st.mt[m].parent in L.ids && !y.st.mt[y.st.mt[m].parent].freed)
    && (forall k :: k in y.st.mt[m].stuck ==> k in L.ids && !y.st.mt[k].freed)
  }

  /** What a live superblock's file is on is alive. */
  ghost predicate FileAlive(L: Layout, y: Sys, s: SbId)
    requires L.Valid() && y.st.mt.Keys == L.ids && y.st.sbs.Keys == L.sbIds && s in L.sbIds
  {
    y.st.sbs[s].active > 0 && L.pin[s] != NO_MNT ==>
      if L.clone then y.st.sbs[L.sb[L.pin[s]]].active > 0 else !y.st.mt[L.pin[s]].freed
  }

  /** Nothing freed is still pointed at: not as a parent, a stuck child, the mount
      of a file, a held, a listed or a queued mount. */
  ghost predicate NoUAF(L: Layout, y: Sys)
    requires L.Valid() && y.st.mt.Keys == L.ids && y.st.sbs.Keys == L.sbIds && y.ext.Keys == L.ids
  {
    && (forall m {:trigger LinksAlive(L, y, m)} :: m in L.ids ==> LinksAlive(L, y, m))
    && (forall s {:trigger FileAlive(L, y, s)} :: s in L.sbIds ==> FileAlive(L, y, s))
    && (forall m :: m in L.ids && y.st.mt[m].freed ==> y.ext[m] == 0 && m !in y.st.cleanq && m !in y.st.unm)
  }

  /** With the tombstones: an attached unmounted mount that is no tombstone holds
      its own reference; exactly the tombstones are without a
      filesystem, and nothing hangs off one. */
  ghost predicate TombAt(L: Layout, y: Sys, m: Mnt)
    requires y.st.mt.Keys == L.ids && m in L.ids
  {
    var r := y.st.mt[m];
    !r.freed ==>
      && (L.disown && r.umount && r.attached && !r.tomb ==> r.count >= 1)
      && (r.sb == NULL_SB ==> r.tomb)
      && (r.tomb ==> r.sb == NULL_SB && Kids(y.st.mt, m) == {})
  }

  ghost predicate TombOK(L: Layout, y: Sys)
    requires y.st.mt.Keys == L.ids
  {
    forall m {:trigger TombAt(L, y, m)} :: m in L.ids ==> TombAt(L, y, m)
  }

  lemma {:induction false} StuckAlive(L: Layout, y: Sys, m: Mnt, k: Mnt)
    requires Good(L, y) && m in L.ids && k in y.st.mt[m].stuck
    ensures k in L.ids && !y.st.mt[k].freed
  {
    hide PinN, UnmN, SbOK, ParentRec, LinkOK, Layout.Valid;
    assert MountOK(L, y.st, At(y.ext), m);
    assert MountOK(L, y.st, At(y.ext), k);
    assert m in Stuckers(y.st.mt, k);
  }

  lemma {:induction false} PinAlive(L: Layout, y: Sys, s: SbId)
    requires Good(L, y) && s in L.sbIds && y.st.sbs[s].active > 0 && L.pin[s] != NO_MNT
    ensures L.clone ==> y.st.sbs[L.sb[L.pin[s]]].active > 0
    ensures !L.clone ==> !y.st.mt[L.pin[s]].doomed && y.st.mt[L.pin[s]].count >= 1
  {
    hide StuckN, UnmN, HoldN, ParentRec, LinkOK;
    assert SbOK(L, y.st, At(y.ext), s);
    if L.clone {
      assert SbOK(L, y.st, At(y.ext), L.sb[L.pin[s]]);
      assert s in Keepers(L, y.st.sbs, L.sb[L.pin[s]]);
    } else {
      assert MountOK(L, y.st, At(y.ext), L.pin[s]);
      assert s in PinSet(L, y.st.sbs, L.pin[s]);
    }
  }

  lemma {:induction false} FreedGone(L: Layout, y: Sys, m: Mnt)
    requires Good(L, y) && m in L.ids && y.st.mt[m].freed
    ensures y.ext[m] == 0 && m !in y.st.cleanq && m !in y.st.unm
  {
    hide StuckN, PinN, SbOK, ParentRec, LinkOK, Layout.Valid;
    assert MountOK(L, y.st, At(y.ext), m);
    var u: multiset<Mnt> := multiset(y.st.unm);
    assert m in y.st.unm <==> m in u;
  }

  lemma {:induction false} AliveLinks(L: Layout, y: Sys, m: Mnt)
    requires Good(L, y) && m in L.ids
    ensures y.st.mt[m].count >= 0 && (!y.st.mt[m].doomed ==> y.st.mt[m].count >= 1)
    ensures y.st.mt[m].freed ==> y.st.mt[m].doomed
    ensures y.st.mt[m].parent != NO_MNT ==> y.st.mt[m].attached && !y.st.mt[m].doomed && m != L.root
    ensures y.st.mt[m].parent != NO_MNT ==> y.st.mt[m].parent == L.parent[m] && L.parent[m] in L.ids
    ensures y.st.mt[m].parent != NO_MNT ==> !y.st.mt[L.parent[m]].freed && !y.st.mt[L.parent[m]].tomb
    ensures y.st.mt[m].attached && y.st.mt[m].umount ==> y.st.mt[m].parent != NO_MNT
    ensures (y.st.mt[m].tomb <==> y.st.mt[m].sb == NULL_SB) && (!y.st.mt[m].tomb ==> y.st.mt[m].sb == L.sb[m])
  {
    hide Refs, SbOK;
    assert MountOK(L, y.st, At(y.ext), m);
    assert L.sb[m] in L.sbIds;
    assert m != L.root ==> MountOK(L, y.st, At(y.ext), L.parent[m]);
  }

  lemma {:induction false} TombLeaf(L: Layout, y: Sys, m: Mnt)
    requires Good(L, y) && m in L.ids
    ensures TombAt(L, y, m)
  {
    hide Inv, MountOK, SbOK;
    GoodValid(L, y);
    AliveLinks(L, y, m);
    forall k | k in Kids(y.st.mt, m) ensures !y.st.mt[m].tomb { AliveLinks(L, y, k); }
  }

  lemma {:induction false} LinksLive(L: Layout, y: Sys, m: Mnt)
    requires Good(L, y) && m in L.ids
    ensures LinksAlive(L, y, m)
  {
    hide Inv, MountOK, SbOK;
    GoodValid(L, y);
    AliveLinks(L, y, m);
    forall k | k in y.st.mt[m].stuck ensures k in L.ids && !y.st.mt[k].freed { StuckAlive(L, y, m, k); }
  }

  lemma {:induction false} FileLive(L: Layout, y: Sys, s: SbId)
    requires Good(L, y) && s in L.sbIds
    ensures FileAlive(L, y, s) && y.st.sbs[s].active >= 0
  {
    hide MountOK, HoldN, KeepN;
    assert SbOK(L, y.st, At(y.ext), s);
    if y.st.sbs[s].active > 0 && L.pin[s] != NO_MNT {
      PinAlive(L, y, s);
      if !L.clone { AliveLinks(L, y, L.pin[s]); }
    }
  }

  lemma {:induction false} SafeState(L: Layout, y: Sys)
    requires Good(L, y)
    ensures L.Valid() && y.st.mt.Keys == L.ids && y.st.sbs.Keys == L.sbIds && y.ext.Keys == L.ids
    ensures TypeOK(L, y) && TombOK(L, y) && NoUAF(L, y)
  {
    hide MountOK, SbOK, Layout.Valid, LinksAlive, FileAlive, TombAt;
    forall m | m in L.ids ensures y.st.mt[m].count >= 0 { AliveLinks(L, y, m); }
    forall m | m in L.ids ensures LinksAlive(L, y, m) { LinksLive(L, y, m); }
    forall m | m in L.ids ensures TombAt(L, y, m) { TombLeaf(L, y, m); }
    forall s | s in L.sbIds ensures FileAlive(L, y, s) && y.st.sbs[s].active >= 0 { FileLive(L, y, s); }
    forall m | m in L.ids && y.st.mt[m].freed
      ensures y.ext[m] == 0 && m !in y.st.cleanq && m !in y.st.unm
    { FreedGone(L, y, m); }
  }

  /** In every state of every run: counts are never negative, nothing freed is
      pointed at, tombstones are superblock-less leaves. */
  lemma {:induction false} RunsAreSafe(L: Layout, tr: seq<Sys>, i: nat)
    requires Run(L, tr) && i < |tr|
    ensures L.Valid() && tr[i].st.mt.Keys == L.ids && tr[i].st.sbs.Keys == L.sbIds && tr[i].ext.Keys == L.ids
    ensures TypeOK(L, tr[i]) && TombOK(L, tr[i]) && NoUAF(L, tr[i])
  {
    hide Good, Run, TypeOK, TombOK, NoUAF, Layout.Valid;
    Reachable(L, tr, i);
    SafeState(L, tr[i]);
  }

  // ---- every run ends settled ---------------------------------------------------------------

  /** A run that never stands still is no longer than the work there was. */
  lemma {:induction false} RunsEnd(L: Layout, tr: seq<Sys>, i: nat)
    requires Run(L, tr) && i < |tr| && forall j, k :: 0 <= j < k < |tr| && k == j + 1 ==> tr[j] != tr[k]
    ensures Measure(L, tr[i]) + i <= Measure(L, tr[0])
    decreases i
  {
    hide Good, Stays, Init, Next, Layout.Valid, Measure;
    if i > 0 {
      RunsEnd(L, tr, i - 1);
      Reachable(L, tr, i - 1);
      NothingStays(L, tr[i - 1].st);
      assert Next(L, tr[i - 1], tr[i]);
      StepRuns(L, tr[i - 1], tr[i], {}, {});
    }
  }

  lemma {:induction false} MeasureBounded(L: Layout, y: Sys)
    ensures Measure(L, y) >= 0
  {
    hide Phase;
    SumNonNegative(L.ids, (m: Mnt) => Weight(y, m));
  }

  /** A step to somewhere else can be taken. */
  ghost predicate CanMove(L: Layout, y: Sys)
    requires L.Valid() && y.st.mt.Keys == L.ids
  {
    exists z :: Next(L, y, z) && z != y
  }

  lemma {:induction false} UnlockMoves(L: Layout, y: Sys)
    requires L.Valid() && Typed(L, y.st) && y.st.unm != []
    ensures CanMove(L, y)
  {
    hide Put;
    var z := y.(st := Put(L, y.st.(unm := y.st.unm[1..]), y.st.unm[0]));
    assert NsUnlockPut(L, y, z) && |z.st.unm| < |y.st.unm|;
    hide LazyUmount, SyncUmount, DetachMounts, PutMntNs;
    assert Next(L, y, z);
  }

  lemma {:induction false} CloseMoves(L: Layout, y: Sys, m: Mnt)
    requires L.Valid() && Typed(L, y.st) && y.ext.Keys == L.ids && m in L.ids && y.ext[m] > 0
    ensures CanMove(L, y)
  {
    hide Put, LazyUmount, SyncUmount, DetachMounts, PutMntNs;
    var z := y.(ext := y.ext[m := y.ext[m] - 1], st := Put(L, y.st, m));
    assert Close(L, y, z, m) && z.ext[m] != y.ext[m];
    assert Next(L, y, z);
  }

  lemma {:induction false} LeaveMoves(L: Layout, y: Sys)
    requires L.Valid() && y.st.mt.Keys == L.ids && y.users > 0
    ensures CanMove(L, y)
  {
    hide LazyUmount, SyncUmount, DetachMounts, PutMntNs, Layout.Valid;
    var z := y.(users := y.users - 1);
    assert Leave(y, z) && z.users != y.users;
    assert Next(L, y, z);
  }

  lemma {:induction false} DieMoves(L: Layout, y: Sys)
    requires L.Valid() && y.st.mt.Keys == L.ids && y.alive && y.users == 0 && Idle(y) && L.root in L.ids
    ensures CanMove(L, y)
  {
    hide LazyUmount, SyncUmount, DetachMounts, UmountTree, Layout.Valid;
    var z := y.(alive := false, st := UmountTree(L, y.st, L.root, How(false, !L.nsDisconnect)));
    assert PutMntNs(L, y, z) && z.alive != y.alive;
    assert Next(L, y, z);
  }

  /** A state that is not settled can move: the model never deadlocks. */
  lemma {:induction false} NotStuck(L: Layout, y: Sys)
    requires Good(L, y) && !Settled(L, y)
    ensures L.Valid() && y.st.mt.Keys == L.ids && CanMove(L, y)
  {
    hide MountOK, SbOK, CanMove;
    assert L.root in L.ids;
    hide Layout.Valid;
    if y.users > 0 { LeaveMoves(L, y); }
    else if y.st.unm != [] { UnlockMoves(L, y); }
    else if y.alive { DieMoves(L, y); }
    else if m :| m in y.st.cleanq { CleanMoves(L, y, m); }
    else {
      var m :| m in L.ids && y.ext[m] > 0;
      CloseMoves(L, y, m);
    }
  }

  lemma {:induction false} CleanMoves(L: Layout, y: Sys, m: Mnt)
    requires Good(L, y) && m in y.st.cleanq
    ensures L.Valid() && y.st.mt.Keys == L.ids && CanMove(L, y)
  {
    hide Inv, Cleanup, Phase, Stays, Later;
    GoodValid(L, y);
    QueuedKnown(L, y, m);
    CleanupKeeps(L, y.st, y.ext, m);
    NothingStays(L, y.st);
    CleanupRuns(L, y.st, y.ext, {}, {}, m);
    CleanMoved(L, y, m);
  }

  lemma {:induction false} QueuedKnown(L: Layout, y: Sys, m: Mnt)
    requires Good(L, y) && m in y.st.cleanq
    ensures m in L.ids
  {
    hide MountOK, SbOK, Layout.Valid;
  }

  lemma {:induction false} CleanMoved(L: Layout, y: Sys, m: Mnt)
    requires L.Valid() && y.st.mt.Keys == L.ids && m in L.ids && m in y.st.cleanq && CleanReady(L, y.st, m)
    requires m in Cleanup(L, y.st, m).mt && Phase(Cleanup(L, y.st, m).mt[m]) < Phase(y.st.mt[m])
    ensures CanMove(L, y)
  {
    hide Cleanup, Phase, Layout.Valid, LazyUmount, SyncUmount, DetachMounts, PutMntNs, Typed;
    var z := y.(st := Cleanup(L, y.st, m));
    assert CleanupMnt(L, y, z, m) && z != y;
    assert Next(L, y, z);
  }

  /** Every run can be carried on until it is settled, and cannot be carried on
      for ever: at most Measure steps, and a last state that is not settled has a
      successor. */
  lemma {:induction false} RunsSettle(L: Layout, tr: seq<Sys>)
    requires Run(L, tr) && forall j, k :: 0 <= j < k < |tr| && k == j + 1 ==> tr[j] != tr[k]
    ensures |tr| <= Measure(L, tr[0]) + 1
    ensures Settled(L, tr[|tr| - 1]) || (L.Valid() && tr[|tr| - 1].st.mt.Keys == L.ids && CanMove(L, tr[|tr| - 1]))
  {
    hide Good, Init, Next, Layout.Valid, Measure, Settled, CanMove;
    RunsEnd(L, tr, |tr| - 1);
    MeasureBounded(L, tr[|tr| - 1]);
    Reachable(L, tr, |tr| - 1);
    if !Settled(L, tr[|tr| - 1]) { NotStuck(L, tr[|tr| - 1]); }
  }

  // ---- what is left once settled ----------------------------------------------------------------

  /** Whatever is not freed is pinned or owned by its parent. */
  lemma {:induction false} SettledKept(L: Layout, y: Sys, m: Mnt)
    requires Good(L, y) && Settled(L, y) && m in L.ids && !y.st.mt[m].freed
    ensures !y.st.mt[m].doomed && !y.st.mt[m].release && y.st.mt[m].umount
    ensures PinN(L, y.st.sbs, m) > 0 || Owned(L, y.st.mt[m])
  {
    hide PinN, SbOK, ParentRec, LinkOK, Layout.Valid;
    assert MountOK(L, y.st, At(y.ext), m);
    forall p | p in L.ids ensures y.st.mt[p].stuck == {} { assert MountOK(L, y.st, At(y.ext), p); }
    assert Stuckers(y.st.mt, m) == {};
  }

  /** A superblock that is up is held by a mount, or with the clone by a file. */
  lemma {:induction false} UpHeld(L: Layout, y: Sys, s: SbId) returns (x: nat)
    requires Good(L, y) && Settled(L, y) && s in L.sbIds && y.st.sbs[s].active > 0
    ensures || (x in L.ids && !y.st.mt[x].freed && !y.st.mt[x].tomb && L.sb[x] == s)
            || (L.clone && x in L.sbIds && y.st.sbs[x].active > 0 && L.pin[x] != NO_MNT && L.sb[L.pin[x]] == s)
  {
    hide MountOK;
    assert SbOK(L, y.st, At(y.ext), s);
    if h :| h in Holders(y.st, At(y.ext), s) {
      x := h;
      AliveLinks(L, y, x);
      SettledKept(L, y, x);
    } else {
      assert Keepers(L, y.st.sbs, s) != {};
      x :| x in Keepers(L, y.st.sbs, s);
    }
  }

  /** The mounts that still have their filesystem. */
  ghost function Survivors(L: Layout, y: Sys): (r: set<Mnt>)
    requires y.st.mt.Keys == L.ids
  {
    set m | m in L.ids && !y.st.mt[m].freed && !y.st.mt[m].tomb
  }

  lemma {:induction false} SurvivorPinned(L: Layout, y: Sys, m: Mnt) returns (x: Mnt)
    requires Good(L, y) && Settled(L, y) && L.disown && m in Survivors(L, y)
    ensures x in Survivors(L, y) && L.sb[x] in L.sbIds && L.pin[L.sb[x]] == m
    ensures y.st.mt[x].sb == L.sb[x] && y.st.sbs[L.sb[x]].active > 0 && y.st.sbs[L.sb[x]].pin == m
  {
    hide MountOK, SbOK, HoldN, KeepN;
    SettledKept(L, y, m);
    assert PinSet(L, y.st.sbs, m) != {};
    var s :| s in PinSet(L, y.st.sbs, m);
    PinsFixed(L, y.st, At(y.ext));
    x := UpHeld(L, y, s);
    AliveLinks(L, y, x);
  }

  /** Tombstone rule: every survivor is pinned by the superblock of a survivor, and
      a tombstone left over hangs off a survivor. */
  lemma {:induction false} SurvivorsSelfPinned(L: Layout, y: Sys)
    requires Good(L, y) && Settled(L, y) && L.disown
    ensures L.Valid() && SelfPinned(L, Survivors(L, y))
  {
    hide Inv, Settled;
    GoodValid(L, y);
    var P := Survivors(L, y);
    forall m | m in P ensures PinnedIn(L, P, m) {
      var x := SurvivorPinned(L, y, m);
    }
  }

  /** x keeps m alive: its superblock's file is on m, or it owns the tombstone m. */
  ghost predicate Keeps(L: Layout, y: Sys, x: Mnt, m: Mnt)
    requires y.st.mt.Keys == L.ids && y.st.sbs.Keys == L.sbIds && x in L.ids && m in L.ids
  {
    || (!L.clone && y.st.mt[x].sb in L.sbIds && y.st.sbs[y.st.mt[x].sb].pin == m && y.st.sbs[y.st.mt[x].sb].active > 0)
    || (y.st.mt[m].attached && y.st.mt[m].parent == x && (!L.disown || y.st.mt[m].tomb))
  }

  lemma {:induction false} LeftoverKept(L: Layout, y: Sys, m: Mnt) returns (x: Mnt)
    requires Good(L, y) && Settled(L, y) && L.disown && m in L.ids && !y.st.mt[m].freed
    ensures x in Survivors(L, y) && Keeps(L, y, x, m)
  {
    hide MountOK, SbOK, HoldN, KeepN;
    SettledKept(L, y, m);
    AliveLinks(L, y, m);
    if s :| s in PinSet(L, y.st.sbs, m) {
      PinsFixed(L, y.st, At(y.ext));
      x := UpHeld(L, y, s);
      AliveLinks(L, y, x);
    } else {
      x := y.st.mt[m].parent;
    }
  }

  /** A set of live mounts each pinned by the live superblock of a member. */
  ghost predicate PinCycle(L: Layout, y: Sys, S: set<Mnt>)
    requires y.st.mt.Keys == L.ids && y.st.sbs.Keys == L.sbIds && S <= L.ids
  {
    S != {} && forall m {:trigger Member(m, S)} :: Member(m, S) ==>
      exists x :: x in S && y.st.mt[x].sb in L.sbIds && y.st.sbs[y.st.mt[x].sb].pin == m
          && y.st.sbs[y.st.mt[x].sb].active > 0
  }

  /** The closure of S under Keeps among the live mounts. */
  ghost function KeptFrom(L: Layout, y: Sys, S: set<Mnt>): (r: set<Mnt>)
    requires y.st.mt.Keys == L.ids && y.st.sbs.Keys == L.sbIds && S <= L.ids
    ensures S <= r <= L.ids
    decreases |L.ids - S|
  {
    var N := S + (set m | m in L.ids && !y.st.mt[m].freed && exists x :: x in S && Keeps(L, y, x, m));
    if N == S then S else
      Grows(L.ids, S, N);
      KeptFrom(L, y, N)
  }

  lemma {:induction false} KeptFromStep(L: Layout, y: Sys, S: set<Mnt>, x: Mnt, m: Mnt)
    requires y.st.mt.Keys == L.ids && y.st.sbs.Keys == L.sbIds && S <= L.ids
    requires x in S && m in L.ids && !y.st.mt[m].freed && Keeps(L, y, x, m)
    ensures m in KeptFrom(L, y, S)
  {
    hide Keeps;
    var N := S + (set k | k in L.ids && !y.st.mt[k].freed && exists z :: z in S && Keeps(L, y, z, k));
    assert m in N;
  }

  lemma {:induction false} TombstoneLeaks(L: Layout, y: Sys, m: Mnt) returns (S: set<Mnt>)
    requires Good(L, y) && Settled(L, y) && L.disown && m in L.ids && !y.st.mt[m].freed
    ensures y.st.mt.Keys == L.ids && y.st.sbs.Keys == L.sbIds
    ensures S <= L.ids && PinCycle(L, y, S) && m in KeptFrom(L, y, S)
  {
    hide Inv, Settled, Layout.Valid, KeptFrom;
    GoodValid(L, y);
    S := Survivors(L, y);
    var x := LeftoverKept(L, y, m);
    KeptFromStep(L, y, S, x, m);
    forall k | Member(k, S)
      ensures exists x ::
        x in S && y.st.mt[x].sb in L.sbIds && y.st.sbs[y.st.mt[x].sb].pin == k && y.st.sbs[y.st.mt[x].sb].active > 0
    {
      var w := SurvivorPinned(L, y, k);
    }
  }

  // ---- disconnecting the pinners -------------------------------------------------------------

  /** No unmounted mount that is still with its parent pins a mount coming down. */
  ghost predicate Cleared(L: Layout, st: State)
    requires L.Valid() && st.mt.Keys == L.ids
  {
    forall c {:trigger st.mt[c]} ::
      c in L.ids && st.mt[c].umount && st.mt[c].Attached() ==> !Dying(st.mt, L.pin[L.sb[c]])
  }

  lemma {:induction false} LaterClears(L: Layout, st: State, st': State)
    requires L.Valid() && st.mt.Keys == L.ids && AllLater(st, st') && Cleared(L, st)
    ensures Cleared(L, st')
  {
    hide Layout.Valid;
    forall c | c in L.ids && st'.mt[c].umount && st'.mt[c].Attached()
      ensures L.pin.Keys == L.sbIds && L.sb.Keys == L.ids && L.sb[c] in L.sbIds && !Dying(st'.mt, L.pin[L.sb[c]])
    {
      PinKnown(L, c);
      assert Later(st.mt[c], st'.mt[c]);
      var x := L.pin[L.sb[c]];
      if x in st.mt { assert Later(st.mt[x], st'.mt[x]); }
    }
  }

  lemma {:induction false} PinKnown(L: Layout, c: Mnt)
    requires L.Valid() && c in L.ids
    ensures L.pin.Keys == L.sbIds && L.sb.Keys == L.ids && L.sb[c] in L.sbIds
  {
  }

  /** With no tombstones about, what a mount's superblock pins is what the layout says,
      and the parent of an unmounted mount is unmounted. */
  lemma {:induction false} PinnerRec(L: Layout, y: Sys, c: Mnt)
    requires Good(L, y) && !L.disown && c in L.ids
    ensures y.st.mt[c].sb == L.sb[c] && L.sb[c] in y.st.sbs && y.st.sbs[L.sb[c]].pin == L.pin[L.sb[c]]
    ensures y.st.mt[c].Attached()
        ==> !y.st.mt[c].freed && y.st.mt[c].parent in L.ids && y.st.mt[y.st.mt[c].parent].umount == y.st.mt[c].umount
  {
    hide Refs, SbOK;
    GoodValid(L, y);
    PinsFixed(L, y.st, At(y.ext));
    assert MountOK(L, y.st, At(y.ext), c);
    assert L.sb[c] in L.sbIds;
    assert c != L.root ==> MountOK(L, y.st, At(y.ext), L.parent[c]);
  }

  lemma {:induction false} DyingKept(st: State, V: set<Mnt>, z: State, x: Mnt)
    requires z.mt.Keys == st.mt.Keys
    requires x in st.mt ==> z.mt[x].umount == (st.mt[x].umount || x in V) && z.mt[x].freed == st.mt[x].freed
    ensures Dying(z.mt, x) <==> Dying(MarkUmount(st.mt, V), x)
  {
  }

  lemma {:induction false} StaysConnected(L: Layout, st: State, V: set<Mnt>, c: Mnt, how: How)
    requires c in st.mt && L.pinners && L.reexamine && UmountRec(L, st, V, c, how).Attached()
    requires st.mt[c].Attached()
    requires c !in V ==> st.mt[c].umount && !st.mt[c].freed && st.mt[c].parent in st.mt && st.mt[st.mt[c].parent].umount
    ensures !PinsVictim(st.(mt := MarkUmount(st.mt, V)), c)
  {
    var st0 := st.(mt := MarkUmount(st.mt, V));
    if c !in V { MarkAt(st.mt, V, c, true); MarkAt(st.mt, V, st.mt[c].parent, true); }
    hide MarkUmount, PinsVictim;
  }

  lemma {:induction false} UmountClears(L: Layout, y: Sys, m: Mnt, how: How)
    requires Good(L, y) && L.Valid() && y.st.mt.Keys == L.ids && L.pinners && L.reexamine && m in L.ids
    ensures UmountTree(L, y.st, m, how).mt.Keys == L.ids && Cleared(L, UmountTree(L, y.st, m, how))
  {
    hide Inv, UmountTree, Subtree, UnmN, UmountRec, Layout.Valid, Dying, MarkUmount;
    var st, z, V := y.st, UmountTree(L, y.st, m, how), Subtree(y.st.mt, {m});
    UmountTreeAt(L, st, m, how, m);
    forall c | c in L.ids && z.mt[c].umount && z.mt[c].Attached()
      ensures L.pin.Keys == L.sbIds && L.sb.Keys == L.ids && L.sb[c] in L.sbIds && !Dying(z.mt, L.pin[L.sb[c]])
    {
      PinKnown(L, c);
      NoTombs(L);
      PinnerRec(L, y, c);
      UmountTreeAt(L, st, m, how, c);
      UmountKept(L, st, V, c, how);
      StaysConnected(L, st, V, c, how);
      MarkedPins(st, V, c);
      var x := L.pin[L.sb[c]];
      if x in L.ids {
        UmountTreeAt(L, st, m, how, x);
        UmountKept(L, st, V, x, how);
      }
      DyingKept(st, V, z, x);
    }
  }

  lemma {:induction false} NoTombs(L: Layout)
    requires L.Valid() && L.pinners
    ensures !L.disown && !L.clone
  {
  }

  lemma {:induction false} MarkedPins(st: State, V: set<Mnt>, c: Mnt)
    requires c in st.mt
    ensures PinsVictim(st.(mt := MarkUmount(st.mt, V)), c)
        <==> st.mt[c].sb in st.sbs && Dying(MarkUmount(st.mt, V), st.sbs[st.mt[c].sb].pin)
  {
    hide Dying;
  }

  lemma {:induction false} CleanClears(L: Layout, y: Sys, z: Sys, m: Mnt)
    requires Good(L, y) && L.Valid() && y.st.mt.Keys == L.ids && Cleared(L, y.st) && CleanupMnt(L, y, z, m)
    ensures z.st.mt.Keys == L.ids && Cleared(L, z.st)
  {
    hide Inv, Cleanup, Stays, Cleared, Layout.Valid, Phase;
    NothingStays(L, y.st);
    CleanupRuns(L, y.st, y.ext, {}, {}, m);
    LaterClears(L, y.st, z.st);
  }

  lemma {:induction false} PutClears(L: Layout, st: State, g: Tokens, m: Mnt)
    requires Inv(L, st, g) && m in g.pend && L.Valid() && st.mt.Keys == L.ids && Cleared(L, st)
    ensures m in st.mt && Put(L, st, m).mt.Keys == L.ids && Cleared(L, Put(L, st, m))
  {
    hide Inv, Put, Cleared, Layout.Valid, Later;
    TokenLater(L, st, g, m);
    LaterClears(L, st, Put(L, st, m));
  }

  lemma {:induction false} UnlockClears(L: Layout, y: Sys, z: Sys)
    requires Good(L, y) && L.Valid() && y.st.mt.Keys == L.ids && Cleared(L, y.st) && NsUnlockPut(L, y, z)
    ensures z.st.mt.Keys == L.ids && Cleared(L, z.st)
  {
    hide Inv, Put, Layout.Valid;
    UnlistKeeps(L, y.st, y.ext);
    PutClears(L, y.st.(unm := y.st.unm[1..]), At(y.ext).(pend := multiset{y.st.unm[0]}), y.st.unm[0]);
  }

  lemma {:induction false} CloseClears(L: Layout, y: Sys, z: Sys, m: Mnt)
    requires Good(L, y) && L.Valid() && y.st.mt.Keys == L.ids && Cleared(L, y.st) && Close(L, y, z, m)
    ensures z.st.mt.Keys == L.ids && Cleared(L, z.st)
  {
    hide Inv, Put, Layout.Valid, Cleared;
    CloseKeeps(L, y.st, y.ext, m);
    PutClears(L, y.st, At(z.ext).(pend := multiset{m}), m);
  }

  lemma {:induction false} PutNsClears(L: Layout, y: Sys, z: Sys)
    requires Good(L, y) && L.Valid() && y.st.mt.Keys == L.ids && L.pinners && L.reexamine && PutMntNs(L, y, z)
    ensures z.st.mt.Keys == L.ids && Cleared(L, z.st)
  {
    hide Good, Cleared, UmountTree;
    assert L.root in L.ids;
    hide Layout.Valid;
    UmountClears(L, y, L.root, How(false, !L.nsDisconnect));
  }

  /** Every action keeps it that way. */
  lemma {:induction false} StepClears(L: Layout, y: Sys, z: Sys)
    requires Good(L, y) && L.Valid() && y.st.mt.Keys == L.ids && L.pinners && L.reexamine && Cleared(L, y.st)
    requires Next(L, y, z)
    ensures z.st.mt.Keys == L.ids && Cleared(L, z.st)
  {
    hide Good, Cleared, UmountTree, Close, CleanupMnt, NsUnlockPut, Settled, PutMntNs, Victim, Kids, Layout.Valid;
    if m :| m in L.ids && LazyUmount(L, y, z, m) { UmountClears(L, y, m, How(false, false)); }
    else if m :| m in L.ids && SyncUmount(L, y, z, m) { UmountClears(L, y, m, How(true, false)); }
    else if m :| m in L.ids && DetachMounts(L, y, z, m) { UmountClears(L, y, m, How(false, true)); }
    else if m :| m in L.ids && Close(L, y, z, m) { CloseClears(L, y, z, m); }
    else if m :| m in L.ids && CleanupMnt(L, y, z, m) { CleanClears(L, y, z, m); }
    else if Leave(y, z) { }
    else if PutMntNs(L, y, z) { PutNsClears(L, y, z); }
    else if NsUnlockPut(L, y, z) { UnlockClears(L, y, z); }
  }

  /** Pinner rule: at no point of any run does an unmounted mount left with its parent
      pin a mount that is coming down. */
  lemma {:induction false} RunsClear(L: Layout, tr: seq<Sys>, i: nat)
    requires Run(L, tr) && i < |tr| && L.pinners && L.reexamine
    ensures L.Valid() && tr[i].st.mt.Keys == L.ids && Cleared(L, tr[i].st)
    decreases i
  {
    hide Good, Next, Layout.Valid;
    Reachable(L, tr, i);
    GoodValid(L, tr[i]);
    if i > 0 {
      RunsClear(L, tr, i - 1);
      Reachable(L, tr, i - 1);
      assert Next(L, tr[i - 1], tr[i]);
      hide Cleared;
      StepClears(L, tr[i - 1], tr[i]);
    } else {
      hide Dying;
      StartClears(L, tr[0]);
    }
  }

  lemma {:induction false} StartClears(L: Layout, y: Sys)
    requires Init(L, y)
    ensures y.st.mt.Keys == L.ids && Cleared(L, y.st)
  {
    hide InitSb, PinsOn, Dying;
  }

  /** The live mounts that are pinned. */
  ghost function Pinned(L: Layout, y: Sys): (r: set<Mnt>)
    requires y.st.mt.Keys == L.ids
  {
    set m | m in L.ids && !y.st.mt[m].freed && PinN(L, y.st.sbs, m) > 0
  }

  /** Once settled, whoever pins a mount is pinned: nobody owns a pinner. */
  lemma {:induction false} PinnerPinned(L: Layout, y: Sys, m: Mnt) returns (x: Mnt)
    requires Good(L, y) && Settled(L, y) && L.pinners && m in Pinned(L, y) && L.Valid() && y.st.mt.Keys == L.ids
    requires Cleared(L, y.st)
    ensures x in Pinned(L, y) && L.sb[x] in L.sbIds && L.pin[L.sb[x]] == m
    ensures y.st.mt[x].sb == L.sb[x] && y.st.sbs[L.sb[x]].active > 0 && y.st.sbs[L.sb[x]].pin == m
  {
    hide MountOK, SbOK, HoldN, KeepN;
    NoTombs(L);
    SettledKept(L, y, m);
    assert PinSet(L, y.st.sbs, m) != {};
    var s :| s in PinSet(L, y.st.sbs, m);
    PinsFixed(L, y.st, At(y.ext));
    x := UpHeld(L, y, s);
    AliveLinks(L, y, x);
    SettledKept(L, y, x);
    assert Dying(y.st.mt, m);
    assert !Owned(L, y.st.mt[x]);
  }

  lemma {:induction false} PinnedIsCycle(L: Layout, y: Sys)
    requires Good(L, y) && Settled(L, y) && L.pinners && L.Valid() && y.st.mt.Keys == L.ids && y.st.sbs.Keys == L.sbIds
    requires Cleared(L, y.st) && Pinned(L, y) != {}
    ensures Pinned(L, y) <= L.ids && PinCycle(L, y, Pinned(L, y)) && SelfPinned(L, Pinned(L, y))
  {
    hide Inv, Settled, Layout.Valid, PinN, Cleared;
    var S := Pinned(L, y);
    forall k | Member(k, S)
      ensures exists x ::
        x in S && y.st.mt[x].sb in L.sbIds && y.st.sbs[y.st.mt[x].sb].pin == k && y.st.sbs[y.st.mt[x].sb].active > 0
    {
      var w := PinnerPinned(L, y, k);
    }
    forall k | k in S ensures PinnedIn(L, S, k) { var w := PinnerPinned(L, y, k); }
  }

  lemma {:induction false} KeptFromClosed(L: Layout, y: Sys, S: set<Mnt>, x: Mnt, m: Mnt)
    requires y.st.mt.Keys == L.ids && y.st.sbs.Keys == L.sbIds && S <= L.ids
    requires x in KeptFrom(L, y, S) && m in L.ids && !y.st.mt[m].freed && Keeps(L, y, x, m)
    ensures m in KeptFrom(L, y, S)
    decreases |L.ids - S|
  {
    hide Keeps;
    var N := S + (set k | k in L.ids && !y.st.mt[k].freed && exists z :: z in S && Keeps(L, y, z, k));
    if N != S {
      Grows(L.ids, S, N);
      KeptFromClosed(L, y, N, x, m);
    }
  }

  /** A mount that is not pinned is owned by its parent, and so on up to one that is. */
  lemma {:induction false} OwnedFromPinned(L: Layout, y: Sys, m: Mnt)
    requires Good(L, y) && Settled(L, y) && L.pinners && m in L.ids && !y.st.mt[m].freed && y.st.mt.Keys == L.ids
    requires y.st.sbs.Keys == L.sbIds && L.Valid()
    ensures Pinned(L, y) <= L.ids && Pinned(L, y) != {} && m in KeptFrom(L, y, Pinned(L, y))
    decreases L.depth[m]
  {
    hide Inv, Settled, KeptFrom, PinN, Layout.Valid;
    if m !in Pinned(L, y) {
      NoTombs(L);
      SettledKept(L, y, m);
      AliveLinks(L, y, m);
      ParentAbove(L, m);
      OwnedFromPinned(L, y, L.parent[m]);
      KeptFromClosed(L, y, Pinned(L, y), L.parent[m], m);
    }
  }

  lemma {:induction false} ParentAbove(L: Layout, m: Mnt)
    requires L.Valid() && m in L.ids && m != L.root
    ensures L.parent.Keys == L.depth.Keys == L.ids && L.parent[m] in L.ids && L.depth[L.parent[m]] < L.depth[m]
  {
  }

  /** LeaksAreCycles, for the tombstones and for the pinner rule with its second look:
      once settled, whatever is not freed is kept from a set of mounts each pinned by
      the live superblock of a member. */
  lemma {:induction false} LeaksAreCycles(L: Layout, tr: seq<Sys>, i: nat, m: Mnt) returns (S: set<Mnt>)
    requires Run(L, tr) && i < |tr| && (L.disown || (L.pinners && L.reexamine)) && Settled(L, tr[i])
    requires m in L.ids && m in tr[i].st.mt && !tr[i].st.mt[m].freed
    ensures tr[i].st.mt.Keys == L.ids && tr[i].st.sbs.Keys == L.sbIds
    ensures S <= L.ids && PinCycle(L, tr[i], S) && m in KeptFrom(L, tr[i], S)
  {
    hide Good, Run, Settled, Layout.Valid, KeptFrom, Cleared, Pinned, PinCycle;
    Reachable(L, tr, i);
    var y := tr[i];
    GoodValid(L, y);
    if L.disown { S := TombstoneLeaks(L, y, m); } else {
      RunsClear(L, tr, i);
      OwnedFromPinned(L, y, m);
      PinnedIsCycle(L, y);
      S := Pinned(L, y);
    }
  }

  // ---- exactly who survives ---------------------------------------------------------------------

  lemma {:induction false} PinnedStart(L: Layout, y: Sys, C: set<Mnt>)
    requires Init(L, y) && SelfPinned(L, C) && !L.clone
    ensures Stays(L, y.st, C, {})
  {
    hide InitSb, PinsOn, SelfPinned;
    assert SelfHeld(L, {});
    assert C <= L.ids by { PinnedIds(L, C); }
    hide Layout.Valid;
  }

  lemma {:induction false} PinnedIds(L: Layout, C: set<Mnt>)
    requires L.Valid() && SelfPinned(L, C)
    ensures C <= L.ids
  {
  }

  /** Tombstone rule, exactly: once settled, a mount still has its filesystem if
      and only if it belongs to a set of mounts each pinned by the superblock of a
      member.  Which ones survive depends on the layout alone, not on the run. */
  lemma {:induction false} TombstoneSurvivors(L: Layout, tr: seq<Sys>, i: nat, m: Mnt)
    requires Run(L, tr) && i < |tr| && L.disown && Settled(L, tr[i]) && m in L.ids
    ensures L.Valid() && tr[i].st.mt.Keys == L.ids
    ensures m in Survivors(L, tr[i]) <==> exists C :: SelfPinned(L, C) && m in C
  {
    hide Good, Settled, SelfPinned, Layout.Valid;
    Reachable(L, tr, i);
    GoodValid(L, tr[i]);
    SurvivorsSelfPinned(L, tr[i]);
    if C :| SelfPinned(L, C) && m in C {
      RuleValid(L);
      PinnedStart(L, tr[0], C);
      RunGood(L, tr, C, {}, i);
      assert Phase(tr[i].st.mt[m]) == 4;
    }
  }

  lemma {:induction false} RuleValid(L: Layout)
    requires L.Valid()
    ensures !(L.disown && L.clone)
  {
  }

  // ---- the internal clone -------------------------------------------------------------------------

  /** Internal-clone rule (MountsReaped): once settled every mount is freed. */
  lemma {:induction false} CloneFreesAll(L: Layout, y: Sys, m: Mnt)
    requires Good(L, y) && Settled(L, y) && L.clone && m in L.ids
    ensures y.st.mt[m].freed
    decreases L.depth[m]
  {
    hide MountOK, SbOK, HoldN, KeepN;
    if !y.st.mt[m].freed {
      SettledKept(L, y, m);
      AliveLinks(L, y, m);
      assert PinSet(L, y.st.sbs, m) == {};
      assert L.depth[m] == L.depth[L.parent[m]] + 1;
      CloneFreesAll(L, y, L.parent[m]);
    }
  }

  lemma {:induction false} MountsReaped(L: Layout, tr: seq<Sys>, i: nat, m: Mnt)
    requires Run(L, tr) && i < |tr| && L.clone && Settled(L, tr[i]) && m in L.ids
    ensures tr[i].st.mt.Keys == L.ids && tr[i].st.mt[m].freed
  {
    hide Good, Settled, Layout.Valid;
    Reachable(L, tr, i);
    GoodValid(L, tr[i]);
    CloneFreesAll(L, tr[i], m);
  }

  lemma {:induction false} UpSelfHeld(L: Layout, y: Sys)
    requires Good(L, y) && Settled(L, y) && L.clone
    ensures L.Valid() && SelfHeld(L, Up(y.st.sbs))
  {
    hide Inv, Settled;
    GoodValid(L, y);
    var D := Up(y.st.sbs);
    forall t | t in D ensures KeptIn(L, D, t) {
      var x := UpHeld(L, y, t);
      if x in L.ids { CloneFreesAll(L, y, x); }
      assert x in D;
    }
  }

  lemma {:induction false} HeldStart(L: Layout, y: Sys, D: set<SbId>)
    requires Init(L, y) && SelfHeld(L, D) && L.clone
    ensures Stays(L, y.st, {}, D)
  {
    hide InitMnt, MountsOn;
    assert SelfPinned(L, {});
    forall t | t in D ensures InitSb(L, t).active > 0 {
      assert KeptIn(L, D, t);
      var u :| u in D && u in L.sbIds && L.pin[u] != NO_MNT && L.sb[L.pin[u]] == t;
      assert u in FilesOn(L, t);
    }
    hide InitSb, FilesOn;
  }

  /** Internal-clone rule, exactly: once settled, a superblock is up if and only if
      it belongs to a set of superblocks each carrying the file of a member. */
  lemma {:induction false} CloneSurvivors(L: Layout, tr: seq<Sys>, i: nat, t: SbId)
    requires Run(L, tr) && i < |tr| && L.clone && Settled(L, tr[i]) && t in L.sbIds
    ensures L.Valid() && tr[i].st.sbs.Keys == L.sbIds
    ensures tr[i].st.sbs[t].active > 0 <==> exists D :: SelfHeld(L, D) && t in D
  {
    hide Good, Settled, SelfHeld, Layout.Valid;
    Reachable(L, tr, i);
    GoodValid(L, tr[i]);
    UpSelfHeld(L, tr[i]);
    if D :| SelfHeld(L, D) && t in D {
      HeldStart(L, tr[0], D);
      RunGood(L, tr, {}, D, i);
      assert tr[i].st.sbs[t].active > 0;
    } else {
      assert t !in Up(tr[i].st.sbs);
    }
  }

  // ---- genuine cycles -------------------------------------------------------------------------------

  /** (x, y): the superblock of x has its file on y. */
  ghost function PinEdges(L: Layout): (r: set<(Mnt, Mnt)>)
    requires L.Valid()
  {
    set x, y | x in L.ids && y in L.ids && L.pin[L.sb[x]] == y :: (x, y)
  }

  /** (u, t): the file of u lives on t. */
  ghost function FileEdges(L: Layout): (r: set<(SbId, SbId)>)
    requires L.Valid()
  {
    set u, t | u in L.sbIds && t in L.sbIds && L.pin[u] != NO_MNT && L.sb[L.pin[u]] == t :: (u, t)
  }

  lemma {:induction false} PinnedKept(L: Layout, C: set<Mnt>)
    requires L.Valid() && SelfPinned(L, C)
    ensures SelfKept(C, PinEdges(L))
  {
    forall y: Mnt | Member(y, C) ensures exists x :: x in C && (x, y) in PinEdges(L) {
      assert PinnedIn(L, C, y);
      var x :| x in C && x in L.ids && L.pin[L.sb[x]] == y;
      assert (x, y) in PinEdges(L);
    }
  }

  lemma {:induction false} PinEdge(L: Layout, x: Mnt, y: Mnt)
    requires L.Valid() && (x, y) in PinEdges(L)
    ensures x in L.ids && y in L.ids && x in L.sb && L.sb[x] in L.pin && L.pin[L.sb[x]] == y
  {
  }

  lemma {:induction false} CycleEdge<T>(c: seq<T>, keeps: set<(T, T)>, i: nat) returns (x: T)
    requires GenuineCycle(c, keeps) && i < |c|
    ensures x in c && (x, c[i]) in keeps
  {
    x := if i == |c| - 1 then c[0] else c[i + 1];
  }

  lemma {:induction false} CyclePinned(L: Layout, c: seq<Mnt>)
    requires L.Valid() && GenuineCycle(c, PinEdges(L))
    ensures SelfPinned(L, set x: nat | x in c) && c[0] in (set x: nat | x in c)
  {
    var C := set x: nat | x in c;
    hide GenuineCycle, PinEdges, Layout.Valid;
    forall y | y in C ensures y in L.ids && PinnedIn(L, C, y) {
      var i :| 0 <= i < |c| && c[i] == y;
      var x := CycleEdge(c, PinEdges(L), i);
      PinEdge(L, x, y);
      assert x in C;
    }
    assert |c| > 0 by { CycleSome(c, PinEdges(L)); }
  }

  lemma {:induction false} CycleSome<T>(c: seq<T>, keeps: set<(T, T)>)
    requires GenuineCycle(c, keeps)
    ensures |c| > 0
  {
  }

  lemma {:induction false} HeldKept(L: Layout, D: set<SbId>)
    requires L.Valid() && SelfHeld(L, D)
    ensures SelfKept(D, FileEdges(L))
  {
    forall t: SbId | Member(t, D) ensures exists u :: u in D && (u, t) in FileEdges(L) {
      assert KeptIn(L, D, t);
      var u :| u in D && u in L.sbIds && L.pin[u] != NO_MNT && L.sb[L.pin[u]] == t;
      assert (u, t) in FileEdges(L);
    }
  }

  lemma {:induction false} FileEdge(L: Layout, u: SbId, t: SbId)
    requires L.Valid() && (u, t) in FileEdges(L)
    ensures u in L.sbIds && t in L.sbIds && L.pin[u] != NO_MNT && L.pin[u] in L.sb && L.sb[L.pin[u]] == t
  {
  }

  lemma {:induction false} CycleHeld(L: Layout, c: seq<SbId>)
    requires L.Valid() && GenuineCycle(c, FileEdges(L))
    ensures SelfHeld(L, set x: nat | x in c) && c[0] in (set x: nat | x in c)
  {
    var D := set x: nat | x in c;
    hide GenuineCycle, FileEdges, Layout.Valid;
    forall t | t in D ensures t in L.sbIds && KeptIn(L, D, t) {
      var i :| 0 <= i < |c| && c[i] == t;
      var u := CycleEdge(c, FileEdges(L), i);
      FileEdge(L, u, t);
      assert u in D;
    }
    assert |c| > 0 by { CycleSome(c, FileEdges(L)); }
  }

  /** Tombstone rule: every survivor hangs off a genuine cycle of distinct mounts,
      each pinned by the superblock of the next. */
  lemma {:induction false} SurvivorOnCycle(L: Layout, tr: seq<Sys>, i: nat, m: Mnt)
      returns (cycle: seq<Mnt>, path: seq<Mnt>)
    requires Run(L, tr) && i < |tr| && L.disown && Settled(L, tr[i]) && m in L.ids && m in tr[i].st.mt
    requires !tr[i].st.mt[m].freed && !tr[i].st.mt[m].tomb
    ensures L.Valid() && GenuineCycle(cycle, PinEdges(L)) && KeepPath(path, m, PinEdges(L)) && path[0] == cycle[0]
  {
    hide Good, Settled, SelfPinned, Layout.Valid, PinEdges, Run;
    Reachable(L, tr, i);
    GoodValid(L, tr[i]);
    SurvivorsSelfPinned(L, tr[i]);
    PinnedKept(L, Survivors(L, tr[i]));
    cycle, path := KeeperChainCloses(Survivors(L, tr[i]), PinEdges(L), m);
  }

  /** Internal-clone rule (SbLeaksAreCycles): every superblock left up hangs off a
      genuine cycle of superblocks, the file of each on the one before. */
  lemma {:induction false} SuperOnCycle(L: Layout, tr: seq<Sys>, i: nat, t: SbId)
      returns (cycle: seq<SbId>, path: seq<SbId>)
    requires Run(L, tr) && i < |tr| && L.clone && Settled(L, tr[i]) && t in tr[i].st.sbs && tr[i].st.sbs[t].active > 0
    ensures L.Valid() && GenuineCycle(cycle, FileEdges(L)) && KeepPath(path, t, FileEdges(L)) && path[0] == cycle[0]
  {
    hide Good, Settled, SelfHeld, Layout.Valid, FileEdges, Run;
    Reachable(L, tr, i);
    UpSelfHeld(L, tr[i]);
    HeldKept(L, Up(tr[i].st.sbs));
    cycle, path := KeeperChainCloses(Up(tr[i].st.sbs), FileEdges(L), t);
  }

  /** Pinner rule, exactly: once settled, a mount is still pinned if and only if it
      belongs to a set of mounts each pinned by the superblock of a member. */
  lemma {:induction false} PinnersSurvivors(L: Layout, tr: seq<Sys>, i: nat, m: Mnt)
    requires Run(L, tr) && i < |tr| && L.pinners && L.reexamine && Settled(L, tr[i]) && m in L.ids
    ensures L.Valid() && tr[i].st.mt.Keys == L.ids
    ensures m in Pinned(L, tr[i]) <==> exists C :: SelfPinned(L, C) && m in C
  {
    hide Good, Settled, SelfPinned, Layout.Valid, Cleared, PinCycle, PinN, Run;
    Reachable(L, tr, i);
    GoodValid(L, tr[i]);
    RunsClear(L, tr, i);
    if Pinned(L, tr[i]) != {} { PinnedIsCycle(L, tr[i]); }
    if C :| SelfPinned(L, C) && m in C {
      NoTombs(L);
      RunStart(L, tr);
      PinnedStart(L, tr[0], C);
      RunGood(L, tr, C, {}, i);
      StillPinned(L, tr[i], C, m);
    }
  }

  lemma {:induction false} RunStart(L: Layout, tr: seq<Sys>)
    requires Run(L, tr)
    ensures Init(L, tr[0])
  {
    hide Init, Next;
  }

  lemma {:induction false} StillPinned(L: Layout, y: Sys, C: set<Mnt>, m: Mnt)
    requires Good(L, y) && L.Valid() && Stays(L, y.st, C, {}) && m in C && m in L.ids && y.st.mt.Keys == L.ids
    ensures m in Pinned(L, y)
  {
    hide Inv, SelfPinned, SelfHeld, Layout.Valid, PinN;
    PinnedCounts(L, y.st, At(y.ext), C, {}, m);
  }

  /** Everything is gone. */
  ghost predicate Reaped(L: Layout, y: Sys)
    requires y.st.mt.Keys == L.ids && y.st.sbs.Keys == L.sbIds
  {
    && (forall m :: m in L.ids ==> y.st.mt[m].freed)
    && (forall s :: s in L.sbIds ==> y.st.sbs[s].active == 0)
  }

  lemma {:induction false} NoSurvivorNothing(L: Layout, y: Sys)
    requires Good(L, y) && Settled(L, y) && L.disown && Survivors(L, y) == {}
    ensures y.st.mt.Keys == L.ids && y.st.sbs.Keys == L.sbIds && Reaped(L, y)
  {
    hide Inv, Settled, Layout.Valid;
    GoodValid(L, y);
    forall m | m in L.ids ensures y.st.mt[m].freed {
      if !y.st.mt[m].freed { var x := LeftoverKept(L, y, m); }
    }
    forall s | s in L.sbIds ensures y.st.sbs[s].active == 0 {
      FileLive(L, y, s);
      RuleValid(L);
      if y.st.sbs[s].active > 0 { var x := UpHeld(L, y, s); }
    }
  }

  /** Tombstone rule: a settled run has reaped everything if and only if the pins
      contain no cycle. */
  lemma {:induction false} TombstoneReapedIff(L: Layout, tr: seq<Sys>, i: nat)
    requires Run(L, tr) && i < |tr| && L.disown && Settled(L, tr[i])
    ensures L.Valid() && tr[i].st.mt.Keys == L.ids && tr[i].st.sbs.Keys == L.sbIds
    ensures Reaped(L, tr[i]) <==> !exists c :: GenuineCycle(c, PinEdges(L))
  {
    hide Good, Settled, SelfPinned, Layout.Valid, PinEdges, Run, GenuineCycle;
    Reachable(L, tr, i);
    GoodValid(L, tr[i]);
    if c :| GenuineCycle(c, PinEdges(L)) {
      CyclePinned(L, c);
      PinnedIds(L, set x: nat | x in c);
      TombstoneSurvivors(L, tr, i, c[0]);
      assert c[0] in Survivors(L, tr[i]);
    } else if m :| m in Survivors(L, tr[i]) {
      var cycle, path := SurvivorOnCycle(L, tr, i, m);
    } else {
      NoSurvivorNothing(L, tr[i]);
    }
  }

  lemma {:induction false} NothingPinnedNothing(L: Layout, y: Sys)
    requires Good(L, y) && Settled(L, y) && L.pinners && y.st.mt.Keys == L.ids && y.st.sbs.Keys == L.sbIds && L.Valid()
    requires Pinned(L, y) == {}
    ensures Reaped(L, y)
  {
    hide Inv, Settled, Layout.Valid, Pinned, KeptFrom;
    NoTombs(L);
    forall m | m in L.ids ensures y.st.mt[m].freed {
      if !y.st.mt[m].freed { OwnedFromPinned(L, y, m); }
    }
    forall s | s in L.sbIds ensures y.st.sbs[s].active == 0 {
      FileLive(L, y, s);
      if y.st.sbs[s].active > 0 { var x := UpHeld(L, y, s); }
    }
  }

  /** Pinner rule: a settled run has reaped everything if and only if the pins contain
      no cycle. */
  lemma {:induction false} PinnersReapedIff(L: Layout, tr: seq<Sys>, i: nat)
    requires Run(L, tr) && i < |tr| && L.pinners && L.reexamine && Settled(L, tr[i])
    ensures L.Valid() && tr[i].st.mt.Keys == L.ids && tr[i].st.sbs.Keys == L.sbIds
    ensures Reaped(L, tr[i]) <==> !exists c :: GenuineCycle(c, PinEdges(L))
  {
    hide Good, Settled, SelfPinned, Layout.Valid, PinEdges, Run, GenuineCycle, PinN, Cleared, PinCycle, KeepPath;
    Reachable(L, tr, i);
    GoodValid(L, tr[i]);
    if c :| GenuineCycle(c, PinEdges(L)) {
      CyclePinned(L, c);
      PinnedIds(L, set x: nat | x in c);
      PinnersSurvivors(L, tr, i, c[0]);
      assert c[0] in Pinned(L, tr[i]);
    } else if m :| m in Pinned(L, tr[i]) {
      RunsClear(L, tr, i);
      PinnedIsCycle(L, tr[i]);
      PinnedKept(L, Pinned(L, tr[i]));
      var cycle, path := KeeperChainCloses(Pinned(L, tr[i]), PinEdges(L), m);
    } else {
      NothingPinnedNothing(L, tr[i]);
    }
  }

  /** Internal-clone rule: a settled run has reaped everything if and only if no
      superblocks keep each other's files in a cycle. */
  lemma {:induction false} CloneReapedIff(L: Layout, tr: seq<Sys>, i: nat)
    requires Run(L, tr) && i < |tr| && L.clone && Settled(L, tr[i])
    ensures L.Valid() && tr[i].st.mt.Keys == L.ids && tr[i].st.sbs.Keys == L.sbIds
    ensures Reaped(L, tr[i]) <==> !exists c :: GenuineCycle(c, FileEdges(L))
  {
    hide Good, Settled, SelfHeld, Layout.Valid, FileEdges, Run, GenuineCycle;
    Reachable(L, tr, i);
    GoodValid(L, tr[i]);
    forall m | m in L.ids ensures tr[i].st.mt[m].freed { CloneFreesAll(L, tr[i], m); }
    if c :| GenuineCycle(c, FileEdges(L)) {
      CycleHeld(L, c);
      HeldIds(L, set x: nat | x in c);
      CloneSurvivors(L, tr, i, c[0]);
      assert tr[i].st.sbs[c[0]].active > 0;
    } else if t :| t in L.sbIds && tr[i].st.sbs[t].active > 0 {
      var cycle, path := SuperOnCycle(L, tr, i, t);
    } else {
      forall s | s in L.sbIds ensures tr[i].st.sbs[s].active == 0 { FileLive(L, tr[i], s); }
    }
  }

  lemma {:induction false} HeldIds(L: Layout, D: set<SbId>)
    requires L.Valid() && SelfHeld(L, D)
    ensures D <= L.sbIds
  {
  }
}
