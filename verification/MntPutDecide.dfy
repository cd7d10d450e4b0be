/** The remaining steps: the last mntput(), the end of __legitimize_mnt(), busy,
    umount_tree(), cleanup, the grace periods, migration. */
module MntPutDecide {
  import opened Finite
  import opened MntPut
  import opened MntPutInv
  import opened MntPutBuf
  import opened MntPutCore
  import opened MntPutSteps
  import opened MntPutSum
  import opened MntPutFlush
  import opened MntPutLock

  // ---- mntput() under the lock -------------------------------------------------------------------

  lemma {:induction false} InvParts(sys: Sys, st: State)
    requires Inv(sys, st)
    ensures Shape(sys, st) && FlagsOK(sys, st) && DoomedOK(sys, st) && FreeOK(st) && SyncOK(sys, st)
  {
    hide Shape, Tasks, FlagsOK, Counted, Sums, DoomedOK, FreeOK, SyncOK;
  }

  lemma {:induction false} CheckLast(sys: Sys, st: State, t: Tid, z: State)
    requires Inv(sys, st) && t in sys.tasks && PutCheck(st, t, z) && st.ts[t].acc == 0 && !st.vis.m.doomed
    ensures Inv(sys, z)
  {
    hide Inv, Ready, Drained, DoomedOK, FlagsOK, SyncOK, FreeOK, Shape;
    DrainKeeps(sys, st, t);
    DrainForm(st, t);
    DoomForm(st, t, z);
    var y := Drained(st, t, []);
    GetReady(sys, y, t);
    hide PutCheck;
    assert y.ts[t].pc == PCheck by { CheckAt(st, t, z); }
    ReadyLock(sys, y, t);
    ReadyOdd(sys, y, t);
    InvParts(sys, y);
    NotDoomed(sys, y, t);
    DoomKeeps(sys, y, t, z);
  }

  lemma {:induction false} ReadyOdd(sys: Sys, st: State, t: Tid)
    requires Ready(sys, st, t) && Odd(sys, st.ts[t].pc)
    ensures st.vis.seqv % 2 == 1
  {
    hide BufOK, Net, LabelOK, SeqShape, FlagTask, FlagsOK, InCS;
  }

  lemma {:induction false} PutCheckKeeps(sys: Sys, st: State, t: Tid, z: State)
    requires Inv(sys, st) && t in sys.tasks && PutCheck(st, t, z)
    ensures Inv(sys, z)
  {
    hide Inv, PutCheck, Shape, FlagsOK, FreeOK, SyncOK, DoomedOK;
    CheckAt(st, t, z);
    InvParts(sys, st);
    NotDoomed(sys, st, t);
    if st.ts[t].acc != 0 { CheckNotLast(sys, st, t, z); } else { CheckLast(sys, st, t, z); }
  }

  // ---- unlock_mount_hash() in do_umount() ----------------------------------------------------------

  lemma {:induction false} UnlockRec(sys: Sys, st: State, t: Tid, z: State)
    requires Ready(sys, st, t) && t == sys.u && st.ts[t].pc == UUnlock && Leaves(st, z, t, st.ts[t].(pc := UNsUnlock))
    ensures Fine(sys, st, z, t)
  {
    hide RecInv, ViaPwd, Net, Still, Shown;
    assert LabelOK(sys, st.nsref, st.nsput, t, st.ts[t].(pc := UNsUnlock)) by { Facts(sys, st, t); }
    ReleaseRec(sys, st.nsref, st.nsput, st.vis, st.uresult, st.uresult, t, st.ts[t], st.ts[t].(pc := UNsUnlock));
    LeaveStays(sys, st, z, t, st.ts[t].(pc := UNsUnlock));
  }

  lemma {:induction false} UnlockTo(st: State, t: Tid, l: Label, r: Label, z: State)
    requires t in st.ts && var y := Drained(st, t, UnlockStores(st, t)); z == SetTask(y, t, y.ts[t].(pc := l, ret := r))
    ensures var y := Drained(st, t, []);
      && t in y.ts && z == y.(vis := Released(y.vis), ts := y.ts[t := y.ts[t].(pc := l, ret := r)])
      && y.ts[t] == st.ts[t].(buf := [])
  {
    hide ApplyAll;
    UnlockForm(st, t);
  }

  lemma {:induction false} UmUnlockKeeps(sys: Sys, st: State, t: Tid, z: State)
    requires Inv(sys, st) && t == sys.u && UmUnlock(st, t, z)
    ensures Inv(sys, z)
  {
    hide Inv, Ready, Fine, ApplyAll, UnlockStores;
    UserIn(sys, st);
    DrainKeeps(sys, st, t);
    DrainForm(st, t);
    UnlockTo(st, t, UNsUnlock, st.ts[t].ret, z);
    var y := Drained(st, t, []);
    GetReady(sys, y, t);
    ReadyLock(sys, y, t);
    UnlockRec(sys, y, t, z);
    FineKeeps(sys, y, z, t);
  }

  lemma {:induction false} UserIn(sys: Sys, st: State)
    requires Inv(sys, st)
    ensures sys.u in sys.tasks && sys.Valid()
  {
  }

  // ---- busy --------------------------------------------------------------------------------------------

  ghost predicate GivesUp(st: State, z: State, t: Tid) {
    && t in st.ts && st.ts[t].pc == UBusy && st.ts[t].buf == [] && st.vis.lockv == t && st.vis.seqv % 2 == 1
    && z == st.(vis := Released(st.vis), ts := st.ts[t := st.ts[t].(pc := PEnter, ret := Done)], uresult := Busy)
  }

  lemma {:induction false} BusyRec(sys: Sys, st: State, t: Tid, z: State)
    requires Ready(sys, st, t) && t == sys.u && GivesUp(st, z, t)
    ensures TaskInv(sys, z, t) && Shown(sys, z.nsref, t, z.ts[t]) == Shown(sys, st.nsref, t, st.ts[t])
  {
    hide RecInv, Shown;
    assert LabelOK(sys, st.nsref, st.nsput, t, z.ts[t]) by { Facts(sys, st, t); }
    ReleaseRec(sys, st.nsref, st.nsput, st.vis, st.uresult, Busy, t, st.ts[t], z.ts[t]);
  }

  lemma {:induction false} BusyCore(sys: Sys, st: State, t: Tid, z: State)
    requires Ready(sys, st, t) && t == sys.u && GivesUp(st, z, t) && Shape(sys, st) && DoomedOK(sys, st) && FreeOK(st)
    ensures Core(sys, st, z, t) && FlagsOK(sys, z) && SumOK(sys, z, t) && QuietKeeps(sys, st, z, t) && DoomedOK(sys, z)
    ensures FreeOK(z) && SyncOK(sys, z)
  {
    hide TaskInv, DownLater;
    assert !st.vis.m.doomed;
  }

  lemma {:induction false} BusyKeeps(sys: Sys, st: State, t: Tid, z: State)
    requires Inv(sys, st) && t == sys.u && GivesUp(st, z, t)
    ensures Inv(sys, z)
  {
    hide Tasks, FlagsOK, Counted, Sums, DoomedOK, FreeOK, SyncOK, TaskInv, SumOK, GivesUp, Core, Shown, QuietKeeps;
    GetReady(sys, st, t);
    BusyRec(sys, st, t, z);
    BusyCore(sys, st, t, z);
    CoreShape(sys, st, z, t);
    CoreTasks(sys, st, z, t);
    CoreCounted(sys, st, z, t);
    CoreSums(sys, st, z, t);
  }

  lemma {:induction false} UmBusyKeeps(sys: Sys, st: State, t: Tid, z: State)
    requires Inv(sys, st) && t == sys.u && UmBusy(st, t, z)
    ensures Inv(sys, z)
  {
    hide Inv, Ready, Drained, UnlockStores;
    if st.ts[t].acc > 2 {
      UserIn(sys, st);
      DrainKeeps(sys, st, t);
      DrainForm(st, t);
      var y0 := Drained(st, t, UnlockStores(st, t));
      UnlockTo(st, t, PEnter, Done, SetTask(y0, t, y0.ts[t].(pc := PEnter, ret := Done)));
      var y := Drained(st, t, []);
      GetReady(sys, y, t);
      ReadyLock(sys, y, t);
      ReadyOdd(sys, y, t);
      BusyKeeps(sys, y, t, z);
    } else {
      NotBusyKeeps(sys, st, t, z);
    }
  }

  // ---- umount_tree() -------------------------------------------------------------------------------------

  ghost predicate Unhashes(sys: Sys, st: State, z: State, t: Tid) {
    && t in st.ts && st.ts[t].pc == UTree
    && z == st.(vis := st.vis.(m := st.vis.m.(umount := true, sync := !sys.lazy)),
                ts := st.ts[t := st.ts[t].(pc := UUnlock, buf := st.ts[t].buf + [StHash(false), StNs(false)])],
                uresult := Ok)
  }

  lemma {:induction false} HashShapes(v: Vis, t: Tid, b: seq<Store>)
    requires SeqShape(v, t, b) && NoHash(b)
    ensures var a := b + [StHash(false), StNs(false)];
      SeqShape(v, t, a) && HashDown(a) && (HasSeq(b) ==> HasSeq(a)) && (forall m: Mount :: DownLater(m, a))
  {
    var a := b + [StHash(false), StNs(false)];
    assert a[|b|] == StHash(false) && a[|b| + 1] == StNs(false);
  }

  lemma {:induction false} TreeRec(sys: Sys, nsref: bool, nsput: bool, v: Vis, w: Vis, ures: Outcome, t: Tid,
      k: Task, j: Task)
    requires RecInv(sys, nsref, nsput, v, ures, t, k) && t == sys.u && k.pc == UTree && w.lockv == v.lockv
    requires w.seqv == v.seqv
    requires j == k.(pc := UUnlock, buf := k.buf + [StHash(false), StNs(false)])
    ensures RecInv(sys, nsref, nsput, w, Ok, t, j) && Shown(sys, nsref, t, j) == Shown(sys, nsref, t, k)
    ensures forall m: Mount :: DownLater(m, j.buf)
  {
    hide BufOK, Net, SeqShape, HasSeq, NoHash, HashDown, DownLater;
    HashShapes(v, t, k.buf);
    SameShape(v, w, t, j.buf);
    PushOther(sys.ncpu, Own(sys, nsref, t, k), k.buf, [StHash(false), StNs(false)]);
  }

  lemma {:induction false} SameShape(v: Vis, w: Vis, t: Tid, b: seq<Store>)
    requires w.lockv == v.lockv && w.seqv == v.seqv && SeqShape(v, t, b)
    ensures SeqShape(w, t, b)
  {
  }

  lemma {:induction false} TreeCalm(sys: Sys, st: State, t: Tid, z: State)
    requires Shape(sys, st) && FlagsOK(sys, st) && t == sys.u && Unhashes(sys, st, z, t) && SumOK(sys, st, t)
    requires DoomedOK(sys, st) && FreeOK(st)
    ensures DoomedOK(sys, z) && FreeOK(z) && SyncOK(sys, z)
  {
    hide DownLater, Quiet;
    assert !st.vis.m.doomed;
    if !sys.lazy {
      forall s | s in z.ts && s != t ensures Quiet(z.vis.seqv, z.ts[s]) { assert z.ts[s] == st.ts[s]; }
    }
  }

  lemma {:induction false} TreeCore(sys: Sys, st: State, t: Tid, z: State)
    requires Shape(sys, st) && FlagsOK(sys, st) && t == sys.u && Unhashes(sys, st, z, t)
    requires forall m: Mount :: DownLater(m, z.ts[t].buf)
    ensures t in sys.tasks && Core(sys, st, z, t) && FlagsOK(sys, z) && SumOK(sys, z, t) && QuietKeeps(sys, st, z, t)
  {
    hide DownLater;
  }

  lemma {:induction false} TreeKeeps(sys: Sys, st: State, t: Tid, z: State)
    requires Inv(sys, st) && t == sys.u && Unhashes(sys, st, z, t)
    ensures Inv(sys, z)
  {
    hide Tasks, FlagsOK, Counted, Sums, DoomedOK, FreeOK, SyncOK, RecInv, SumOK, Core, Shown, QuietKeeps, DownLater;
    Actor(sys, st, t);
    TreeRec(sys, st.nsref, st.nsput, st.vis, z.vis, st.uresult, t, st.ts[t], z.ts[t]);
    TreeCore(sys, st, t, z);
    TreeCalm(sys, st, t, z);
    assert TaskInv(sys, z, t);
    hide Unhashes, TaskInv;
    CoreShape(sys, st, z, t);
    CoreTasks(sys, st, z, t);
    CoreCounted(sys, st, z, t);
    CoreSums(sys, st, z, t);
  }

  lemma {:induction false} UmTreeKeeps(sys: Sys, st: State, t: Tid, z: State)
    requires Inv(sys, st) && t == sys.u && UmTree(sys, st, t, z)
    ensures Inv(sys, z)
  {
    hide Inv;
    assert Unhashes(sys, st, z, t);
    TreeKeeps(sys, st, t, z);
  }

  // ---- __legitimize_mnt() under the lock -----------------------------------------------------------------

  lemma {:induction false} FlagsNoRec(sys: Sys, st: State, t: Tid, z: State, j: Task)
    requires Ready(sys, st, t) && t in sys.walkers && st.ts[t].pc == WFlags && !st.vis.m.sync && !st.vis.m.doomed
    requires j == st.ts[t].(pc := PEnter, ret := Lost, rcu := false) && Leaves(st, z, t, j)
    ensures Fine(sys, st, z, t)
  {
    hide RecInv, ViaPwd, Net, Still, Shown, FlagsOK;
    assert LabelOK(sys, st.nsref, st.nsput, t, j) by { Facts(sys, st, t); }
    ReleaseRec(sys, st.nsref, st.nsput, st.vis, st.uresult, st.uresult, t, st.ts[t], j);
    LeaveStays(sys, st, z, t, j);
  }

  /** The count is dropped and the lock released; the put is still buffered. */
  lemma {:induction false} FlagsYesRec(sys: Sys, st: State, t: Tid, z: State, j: Task)
    requires Ready(sys, st, t) && t in sys.walkers && st.ts[t].pc == WFlags
    requires j == st.ts[t].(pc := Lost, refs := st.ts[t].refs - 1, rcu := false,
        buf := [StWmb, StCnt(st.ts[t].cpu, -1)])
    requires Leaves(st, z, t, j)
    ensures Fine(sys, st, z, t)
  {
    hide RecInv, ViaPwd, Net, Still, FlagsOK;
    Facts(sys, st, t);
    var k := st.ts[t];
    hide Shown, LabelOK, BufOK, SeqShape, NoHash, HasSeq;
    LostRec(sys, st.nsref, st.nsput, st.vis, st.uresult, t, k, j);
    LeaveStays(sys, st, z, t, j);
  }

  lemma {:induction false} LostRec(sys: Sys, nsref: bool, nsput: bool, v: Vis, ures: Outcome, t: Tid, k: Task, j: Task)
    requires RecInv(sys, nsref, nsput, v, ures, t, k) && t in sys.walkers && t != sys.u && t != NOBODY && k.pc == WFlags
    requires k.buf == [] && v.lockv == t
    requires j == k.(pc := Lost, refs := k.refs - 1, rcu := false, buf := [StWmb, StCnt(k.cpu, -1)])
    ensures RecInv(sys, nsref, nsput, Released(v), ures, t, j) && Shown(sys, nsref, t, j) == Shown(sys, nsref, t, k)
    ensures v.seqv % 2 == 1 && k.refs == 1
  {
    hide BufOK, Net;
    PushPut(sys.ncpu, Own(sys, nsref, t, k), [], k.cpu);
    assert [] + [StWmb, StCnt(k.cpu, -1)] == [StWmb, StCnt(k.cpu, -1)];
  }

  lemma {:induction false} PutUnlockApplied(w: Vis, c: nat)
    ensures ApplyAll(w, [StWmb, StCnt(c, -1)] + [StWmb, StSeq(w.seqv + 1), StWmb, StLock(NOBODY)])
        == ApplyAll(Released(w), [StWmb, StCnt(c, -1)])
  {
    hide ApplyAll;
    var p := [StWmb, StCnt(c, -1)];
    ApplyCat(w, p, [StWmb, StSeq(w.seqv + 1), StWmb, StLock(NOBODY)]);
    PutApplied(w, c);
    PutApplied(Released(w), c);
    UnlockApplied(ApplyAll(w, p), w.seqv + 1);
  }

  lemma {:induction false} PutApplied(w: Vis, c: nat)
    ensures ApplyAll(w, [StWmb, StCnt(c, -1)]) == Apply(w, StCnt(c, -1))
  {
    hide ApplyAll;
    assert [StWmb, StCnt(c, -1)] == [StWmb] + ([StCnt(c, -1)] + []);
    ApplyCons(w, StWmb, [StCnt(c, -1)] + []);
    ApplyCons(w, StCnt(c, -1), []);
    ApplyNone(Apply(w, StCnt(c, -1)));
  }

  /** The state between the release and the last drain. */
  ghost function LostWithPut(y: State, t: Tid): (z: State)
    requires t in y.ts
    ensures t in z.ts
  {
    var k := y.ts[t];
    RcuOut(y.(vis := Released(y.vis),
        ts := y.ts[t := k.(pc := Lost, refs := k.refs - 1, buf := [StWmb, StCnt(k.cpu, -1)])]), t)
  }

  lemma {:induction false} FlagsYesVis(st: State, t: Tid)
    requires t in st.ts
    ensures var b, w := st.ts[t].buf, ApplyAll(st.vis, st.ts[t].buf);
      ApplyAll(st.vis, b + (PutStores(st, t) + UnlockStores(st, t)))
          == ApplyAll(Released(w), [StWmb, StCnt(st.ts[t].cpu, -1)])
  {
    hide ApplyAll;
    var b := st.ts[t].buf;
    ApplyCat(st.vis, b, PutStores(st, t) + UnlockStores(st, t));
    SeenIsApplied(st.vis, b);
    PutUnlockApplied(ApplyAll(st.vis, b), st.ts[t].cpu);
  }

  lemma {:induction false} FlagsYesForm(st: State, t: Tid, z: State)
    requires Flags(st, t, z) && (st.vis.m.sync || st.vis.m.doomed)
    ensures z == Drained(LostWithPut(Drained(st, t, []), t), t, [])
  {
    hide ApplyAll, Released, PutStores, UnlockStores;
    FlagsYesVis(st, t);
    assert st.ts[t].buf + [] == st.ts[t].buf;
    assert [StWmb, StCnt(st.ts[t].cpu, -1)] + [] == [StWmb, StCnt(st.ts[t].cpu, -1)];
    var w := Drained(LostWithPut(Drained(st, t, []), t), t, []);
    assert z.vis == w.vis;
    assert z.ts == w.ts;
  }

  lemma {:induction false} FlagsNoForm(st: State, t: Tid, z: State)
    requires Flags(st, t, z) && !st.vis.m.sync && !st.vis.m.doomed
    ensures var y := Drained(st, t, []);
      && t in y.ts && z.ts == y.ts[t := y.ts[t].(pc := PEnter, ret := Lost, rcu := false)]
      && z == y.(vis := Released(y.vis), ts := z.ts, gp := z.gp, gpfree := z.gpfree)
      && z.gpfree == y.gpfree.(wait := y.gpfree.wait - {t})
  {
    hide ApplyAll;
    UnlockForm(st, t);
  }

  lemma {:induction false} LostLeaves(y: State, t: Tid)
    requires t in y.ts && y.ts[t].buf == [] && y.vis.lockv == t
    ensures Leaves(y, LostWithPut(y, t), t,
        y.ts[t].(pc := Lost, refs := y.ts[t].refs - 1, rcu := false, buf := [StWmb, StCnt(y.ts[t].cpu, -1)]))
  {
  }

  lemma {:induction false} FlagsAt(st: State, t: Tid, z: State)
    requires Flags(st, t, z)
    ensures At(st, t, WFlags)
  {
    hide Drained, RcuOut;
  }

  /** Stores of walkers do not touch the mount's flags. */
  lemma {:induction false} DrainedMount(sys: Sys, st: State, t: Tid)
    requires Inv(sys, st) && t in sys.tasks && t in st.ts
    ensures var m, n := st.vis.m, Drained(st, t, []).vis.m; n.sync == m.sync && n.doomed == m.doomed
  {
    hide Inv;
    assert st.ts[t].buf + [] == st.ts[t].buf;
    ApplyFlags(st.vis, st.ts[t].buf);
  }

  lemma {:induction false} ApplyFlags(v: Vis, b: seq<Store>)
    ensures var m, n := v.m, ApplyAll(v, b).m; n.sync == m.sync && n.doomed == m.doomed
    decreases |b|
  {
    if b != [] { ApplyFlags(Apply(v, b[0]), b[1..]); }
  }

  lemma {:induction false} FlagsKeeps(sys: Sys, st: State, t: Tid, z: State)
    requires Inv(sys, st) && t in sys.tasks && t in sys.walkers && Flags(st, t, z)
    ensures Inv(sys, z)
  {
    hide Inv, Ready, Fine, Drained, Flags, LostWithPut;
    FlagsAt(st, t, z);
    DrainKeeps(sys, st, t);
    DrainForm(st, t);
    DrainedMount(sys, st, t);
    var y := Drained(st, t, []);
    GetReady(sys, y, t);
    ReadyLock(sys, y, t);
    if st.vis.m.sync || st.vis.m.doomed {
      FlagsYesForm(st, t, z);
      LostLeaves(y, t);
      var x := LostWithPut(y, t);
      FlagsYesRec(sys, y, t, x,
          y.ts[t].(pc := Lost, refs := y.ts[t].refs - 1, rcu := false, buf := [StWmb, StCnt(y.ts[t].cpu, -1)]));
      FineKeeps(sys, y, x, t);
      DrainKeeps(sys, x, t);
    } else {
      FlagsNoForm(st, t, z);
      FlagsNoRec(sys, y, t, z, y.ts[t].(pc := PEnter, ret := Lost, rcu := false));
      FineKeeps(sys, y, z, t);
    }
  }

  // ---- cleanup_mnt() and the grace periods ---------------------------------------------------------------

  lemma {:induction false} CleanupRec(sys: Sys, st: State, t: Tid, z: State)
    requires Ready(sys, st, t) && PutCleanup(st, t, z) && st.ts[t].refs == 0
    ensures TaskInv(sys, z, t) && Shown(sys, z.nsref, t, z.ts[t]) == Shown(sys, st.nsref, t, st.ts[t])
    ensures Quiet(st.vis.seqv, z.ts[t]) && !Touching(z.ts[t].pc) && NoSum(z.ts[t].pc)
    ensures z.ts[t].pc != UUnlock && z.ts[t].pc != PCleanup && !Undecided(z.ts[t].pc)
  {
    hide BufOK, Net, SeqShape, NoHash, HashDown, FlagsOK;
    LabelStep(sys, st.nsref, st.nsput, st.nsput, st.vis, st.uresult, t, st.ts[t], z.ts[t]);
  }

  /** Who still touches a doomed mount is inside RCU. */
  lemma {:induction false} QuietReads(sys: Sys, st: State, s: Tid)
    requires TaskInv(sys, st, s) && Quiet(st.vis.seqv, st.ts[s]) && Touching(st.ts[s].pc)
    ensures st.ts[s].rcu
  {
    hide BufOK, Net, LockTask, FlagTask;
  }

  lemma {:induction false} CleanupFree(sys: Sys, st: State, t: Tid, z: State)
    requires Shape(sys, st) && Tasks(sys, st) && DoomedOK(sys, st) && FreeOK(st) && t in sys.tasks
    requires PutCleanup(st, t, z) && !Touching(z.ts[t].pc) && z.ts[t].pc != PCleanup
    ensures st.vis.m.doomed && st.cleaner == NOBODY && FreeOK(z)
  {
    hide TaskInv, Touching, Quiet;
    assert st.ts[t].pc == PCleanup;
    forall s | s in z.ts ensures z.ts[s].pc != PCleanup && (Touching(z.ts[s].pc) ==> s in z.gpfree.wait) {
      if s != t {
        assert z.ts[s] == st.ts[s];
        assert TaskInv(sys, st, s);
        assert Quiet(st.vis.seqv, st.ts[s]);
        if Touching(st.ts[s].pc) { QuietReads(sys, st, s); }
      }
    }
  }

  lemma {:induction false} CleanupDoomed(sys: Sys, st: State, t: Tid, z: State)
    requires DoomedOK(sys, st) && st.vis.m.doomed && PutCleanup(st, t, z) && Quiet(st.vis.seqv, z.ts[t])
    ensures DoomedOK(sys, z)
  {
    forall s | s in z.ts ensures Quiet(z.vis.seqv, z.ts[s]) || (z.ts[s].pc == PCleanup && z.ts[s].refs == 0) {
      if s != t { assert z.ts[s] == st.ts[s]; }
    }
  }

  lemma {:induction false} CleanupSync(sys: Sys, st: State, t: Tid, z: State)
    requires SyncOK(sys, st) && PutCleanup(st, t, z) && Quiet(st.vis.seqv, z.ts[t])
    ensures SyncOK(sys, z)
  {
    if st.uresult == Ok && !sys.lazy {
      assert t != sys.u ==> Quiet(st.vis.seqv, st.ts[t]);
      forall s | s in z.ts && s != sys.u ensures Quiet(z.vis.seqv, z.ts[s]) { assert s != t ==> z.ts[s] == st.ts[s]; }
    }
  }

  lemma {:induction false} CleanupCore(sys: Sys, st: State, t: Tid, z: State)
    requires Shape(sys, st) && t in sys.tasks && PutCleanup(st, t, z) && FlagsOK(sys, st) && NoSum(z.ts[t].pc)
    requires z.ts[t].pc != UUnlock && z.ts[t].pc != PCleanup && !Undecided(z.ts[t].pc)
    ensures Core(sys, st, z, t) && FlagsOK(sys, z) && SumOK(sys, z, t) && QuietKeeps(sys, st, z, t)
  {
    hide DownLater;
    if t != sys.u { assert z.ts[sys.u] == st.ts[sys.u]; }
  }

  lemma {:induction false} CleanupAt(sys: Sys, st: State, t: Tid, z: State)
    requires DoomedOK(sys, st) && PutCleanup(st, t, z)
    ensures st.ts[t].refs == 0 && st.vis.m.doomed && t in z.ts
  {
    hide Readers;
    assert st.ts[t].pc == PCleanup;
  }

  lemma {:induction false} CleanupKeeps(sys: Sys, st: State, t: Tid, z: State)
    requires Inv(sys, st) && t in sys.tasks && PutCleanup(st, t, z)
    ensures Inv(sys, z)
  {
    hide Tasks, FlagsOK, Counted, Sums, DoomedOK, FreeOK, SyncOK, TaskInv, SumOK, PutCleanup, Core, Shown;
    hide QuietKeeps, Quiet, Touching;
    GetReady(sys, st, t);
    CleanupAt(sys, st, t, z);
    CleanupRec(sys, st, t, z);
    CleanupCore(sys, st, t, z);
    CleanupFree(sys, st, t, z);
    CleanupDoomed(sys, st, t, z);
    CleanupSync(sys, st, t, z);
    CoreShape(sys, st, z, t);
    CoreTasks(sys, st, z, t);
    CoreCounted(sys, st, z, t);
    CoreSums(sys, st, z, t);
  }
}
