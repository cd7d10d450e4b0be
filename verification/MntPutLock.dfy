/** Taking and releasing mount_lock, and the decisions made under it: busy, dooming
    the mount, and what umount_tree() and cleanup_mnt() do. */
module MntPutLock {
  import opened Finite
  import opened MntPut
  import opened MntPutInv
  import opened MntPutBuf
  import opened MntPutCore
  import opened MntPutSteps
  import opened MntPutSum
  import opened MntPutFlush

  // ---- taking it --------------------------------------------------------------------------------

  lemma {:induction false} LockRec(sys: Sys, nsref: bool, nsput: bool, v: Vis, ures: Outcome, t: Tid, k: Task, j: Task)
    requires RecInv(sys, nsref, nsput, v, ures, t, k) && v.lockv == NOBODY && t != NOBODY && v.seqv % 2 == 0
    requires k.buf == []
    requires j == k.(pc := j.pc, buf := [StSeq(v.seqv + 1), StWmb]) && LabelOK(sys, nsref, nsput, t, j) && InCS(j.pc)
    requires !Odd(sys, j.pc)
    requires k.pc != WMb && j.pc != UUnlock && j.pc != WMb && (Slow(j.pc) ==> ures == Ok)
    ensures RecInv(sys, nsref, nsput, v.(lockv := t), ures, t, j) && Shown(sys, nsref, t, j) == Shown(sys, nsref, t, k)
  {
    LockSide(sys, v, t, k, j);
    FlagSide(sys, ures, t, k, j);
    hide BufOK, Net, LabelOK, InCS, Odd, Slow, LockTask, FlagTask, Own;
    assert Own(sys, nsref, t, j) == Own(sys, nsref, t, k) by { SameOwn(sys, nsref, t, k, j); }
    BufferTwo(sys.ncpu, Own(sys, nsref, t, k), StSeq(v.seqv + 1), StWmb);
  }

  lemma {:induction false} SameOwn(sys: Sys, nsref: bool, t: Tid, k: Task, j: Task)
    requires j.refs == k.refs
    ensures Own(sys, nsref, t, j) == Own(sys, nsref, t, k)
  {
  }

  lemma {:induction false} BufferTwo(ncpu: nat, own: int, d: Store, e: Store)
    requires BufOK(ncpu, own, []) && !d.StCnt? && !d.StLock? && !e.StCnt? && !e.StLock?
    ensures BufOK(ncpu, own, [d, e]) && Net([d, e]) == Net([])
  {
    PushOther(ncpu, own, [], [d, e]);
    assert [] + [d, e] == [d, e];
  }

  lemma {:induction false} LockSide(sys: Sys, v: Vis, t: Tid, k: Task, j: Task)
    requires LockTask(sys, v, t, k) && v.seqv % 2 == 0
    requires j == k.(pc := j.pc, buf := [StSeq(v.seqv + 1), StWmb]) && InCS(j.pc) && !Odd(sys, j.pc)
    ensures LockTask(sys, v.(lockv := t), t, j)
  {
    hide InCS, Odd;
  }

  lemma {:induction false} FlagSide(sys: Sys, ures: Outcome, t: Tid, k: Task, j: Task)
    requires FlagTask(sys, ures, t, k) && |j.buf| == 2 && j.buf[0].StSeq? && j.buf[1].StWmb?
    requires j.pc != UUnlock && (Slow(j.pc) ==> ures == Ok)
    ensures FlagTask(sys, ures, t, j)
  {
    hide Slow;
  }

  lemma {:induction false} LockForm(st: State, t: Tid, l: Label, z: State)
    requires CanLock(st, t) && z == Goto(Lock(st, t), t, l)
    ensures t in z.ts && z.ts[t] == st.ts[t].(pc := l, buf := [StSeq(st.vis.seqv + 1), StWmb])
    ensures z == st.(vis := st.vis.(lockv := t), ts := st.ts[t := z.ts[t]])
  {
    assert [] + [StSeq(st.vis.seqv + 1), StWmb] == [StSeq(st.vis.seqv + 1), StWmb];
  }

  lemma {:induction false} LockStays(sys: Sys, st: State, z: State, t: Tid)
    requires t in sys.tasks && t in st.ts && t in z.ts && st.vis.lockv == NOBODY
    requires z == st.(vis := st.vis.(lockv := t), ts := st.ts[t := z.ts[t]])
    requires st.ts[t].pc != PCleanup && z.ts[t].pc != PCleanup
    ensures Still(sys, st, z, t)
  {
  }

  /** From l to the label inside. */
  ghost predicate Enters(sys: Sys, t: Tid, l: Label, j: Label) {
    || (l == PLock && j == PMb) || (t in sys.walkers && l == WLock && j == WFlags)
    || (t == sys.u && l == ULock && j == if sys.lazy then UTree else UMb)
  }

  lemma {:induction false} EnterLabels(sys: Sys, st: State, t: Tid, j: Label)
    requires Ready(sys, st, t) && Enters(sys, t, st.ts[t].pc, j) && CanLock(st, t)
    ensures LabelOK(sys, st.nsref, st.nsput, t, st.ts[t].(pc := j, buf := [StSeq(st.vis.seqv + 1), StWmb])) && InCS(j)
    ensures !Odd(sys, j) && (Slow(j) ==> st.uresult == Ok)
  {
    hide BufOK, Net, SeqShape, NoHash, HashDown, FlagsOK;
  }

  lemma {:induction false} LockDoes(sys: Sys, st: State, t: Tid, l: Label, z: State)
    requires Ready(sys, st, t) && CanLock(st, t) && st.vis.seqv % 2 == 0 && Enters(sys, t, st.ts[t].pc, l)
    requires z == Goto(Lock(st, t), t, l)
    ensures Does(sys, st, z, t)
  {
    hide RecInv, ViaPwd, Net, Still, LabelOK, InCS, Odd, Slow, Shown, FlagsOK, Lock, Goto;
    LockForm(st, t, l, z);
    EnterLabels(sys, st, t, l);
    LockRec(sys, st.nsref, st.nsput, st.vis, st.uresult, t, st.ts[t], z.ts[t]);
    LockStays(sys, st, z, t);
  }

  lemma {:induction false} LockFlags(sys: Sys, st: State, t: Tid, l: Label, z: State)
    requires Ready(sys, st, t) && CanLock(st, t) && Enters(sys, t, st.ts[t].pc, l) && z == Goto(Lock(st, t), t, l)
    ensures FlagsOK(sys, z)
  {
    hide TaskInv, DownLater;
    LockForm(st, t, l, z);
  }

  lemma {:induction false} LockKeeps(sys: Sys, st: State, t: Tid, l: Label, z: State)
    requires Inv(sys, st) && t in sys.tasks && CanLock(st, t) && Enters(sys, t, st.ts[t].pc, l)
    requires z == Goto(Lock(st, t), t, l)
    ensures Inv(sys, z)
  {
    hide Tasks, FlagsOK, Counted, Sums, DoomedOK, FreeOK, SyncOK, Does;
    GetReady(sys, st, t);
    hide Ready;
    LockDoes(sys, st, t, l, z);
    LockFlags(sys, st, t, l, z);
    LockForm(st, t, l, z);
    StillKeeps(sys, st, z, t);
  }

  // ---- the sum of do_umount() begins, and finds nobody ------------------------------------------------

  lemma {:induction false} UmMbRec(sys: Sys, nsref: bool, nsput: bool, v: Vis, ures: Outcome, t: Tid, k: Task, j: Task)
    requires RecInv(sys, nsref, nsput, v, ures, t, k) && t == sys.u
    requires (k.pc == UMb && k.buf == [] && j == k.(acc := 0, ci := 0, pc := USum))
        || (k.pc == UBusy && j == k.(pc := UTree))
    ensures RecInv(sys, nsref, nsput, v, ures, t, j) && Shown(sys, nsref, t, j) == Shown(sys, nsref, t, k)
  {
    hide BufOK, Net, SeqShape, NoHash, HashDown, WalkerOK, HolderOK;
    LabelStep(sys, nsref, nsput, nsput, v, ures, t, k, j);
  }

  lemma {:induction false} UmMbDoes(sys: Sys, st: State, t: Tid, z: State)
    requires Ready(sys, st, t) && t == sys.u && (UmMb(st, t, z) || (At(st, t, UBusy) && z == Goto(st, t, UTree)))
    ensures Does(sys, st, z, t) && FlagsOK(sys, z)
  {
    hide RecInv, ViaPwd, Net, Still, LabelOK, InCS, Odd, Slow, Shown, DownLater;
    UmMbRec(sys, st.nsref, st.nsput, st.vis, st.uresult, t, st.ts[t], z.ts[t]);
    Stays(sys, st, z, t);
  }

  lemma {:induction false} UmMbKeeps(sys: Sys, st: State, t: Tid, z: State)
    requires Inv(sys, st) && t == sys.u && UmMb(st, t, z)
    ensures Inv(sys, z)
  {
    hide Tasks, FlagsOK, Counted, Sums, DoomedOK, FreeOK, SyncOK, Does;
    GetReady(sys, st, t);
    CpuOf(sys, st, t);
    hide Ready;
    UmMbDoes(sys, st, t, z);
    StillKeeps(sys, st, z, t);
  }

  lemma {:induction false} CpuOf(sys: Sys, st: State, t: Tid)
    requires Ready(sys, st, t)
    ensures sys.ncpu > 0
  {
    hide BufOK, LockTask, FlagTask, LabelOK, Net;
  }

  lemma {:induction false} UmOwn(sys: Sys, st: State)
    requires TaskInv(sys, st, sys.u) && st.ts[sys.u].pc == UBusy
    ensures Own(sys, st.nsref, sys.u, st.ts[sys.u]) == 2
  {
    hide BufOK, LockTask, FlagTask, Net;
  }

  /** No more than two references: nobody but the umounter and the namespace. */
  lemma {:induction false} NotBusyKeeps(sys: Sys, st: State, t: Tid, z: State)
    requires Inv(sys, st) && t == sys.u && At(st, t, UBusy) && st.ts[t].acc <= 2 && z == Goto(st, t, UTree)
    ensures Inv(sys, z)
  {
    hide Tasks, FlagsOK, Counted, Sums, DoomedOK, FreeOK, SyncOK, Does, TaskInv, AllQuiet;
    Actor(sys, st, t);
    UmOwn(sys, st);
    GetReady(sys, st, t);
    hide Ready;
    UmMbDoes(sys, st, t, z);
    SameQuiet(sys, st, z, t);
    StillKeeps(sys, st, z, t);
  }

  // ---- releasing it -------------------------------------------------------------------------------------

  lemma {:induction false} ApplyCat(v: Vis, a: seq<Store>, b: seq<Store>)
    ensures ApplyAll(v, a + b) == ApplyAll(ApplyAll(v, a), b)
    decreases |a|
  {
    hide Apply;
    if a == [] { assert a + b == b; }
    else {
      assert (a + b)[1..] == a[1..] + b && (a + b)[0] == a[0];
      ApplyCat(Apply(v, a[0]), a[1..], b);
    }
  }

  lemma {:induction false} SeenIsApplied(v: Vis, b: seq<Store>)
    ensures SeenSeq(v.seqv, b) == ApplyAll(v, b).seqv
    decreases |b|
  {
    if b != [] { SeenIsApplied(Apply(v, b[0]), b[1..]); }
  }

  ghost function Released(v: Vis): (w: Vis) { v.(seqv := v.seqv + 1, lockv := NOBODY) }

  lemma {:induction false} ApplyCons(v: Vis, e: Store, r: seq<Store>)
    ensures ApplyAll(v, [e] + r) == ApplyAll(Apply(v, e), r)
  {
    hide Apply;
    assert ([e] + r)[1..] == r;
  }

  lemma {:induction false} UnlockApplied(v: Vis, n: nat)
    requires n == v.seqv + 1
    ensures ApplyAll(v, [StWmb, StSeq(n), StWmb, StLock(NOBODY)]) == Released(v)
  {
    hide ApplyAll;
    assert [StWmb, StSeq(n), StWmb, StLock(NOBODY)] == [StWmb] + ([StSeq(n)] + ([StWmb] + ([StLock(NOBODY)] + [])));
    ApplyCons(v, StWmb, [StSeq(n)] + ([StWmb] + ([StLock(NOBODY)] + [])));
    ApplyCons(v, StSeq(n), [StWmb] + ([StLock(NOBODY)] + []));
    ApplyCons(v.(seqv := n), StWmb, [StLock(NOBODY)] + []);
    ApplyCons(v.(seqv := n), StLock(NOBODY), []);
    ApplyNone(Released(v));
  }

  lemma {:induction false} ApplyNone(v: Vis)
    ensures ApplyAll(v, []) == v
  {
  }

  /** write_sequnlock() after everything before it. */
  lemma {:induction false} UnlockForm(st: State, t: Tid)
    requires t in st.ts
    ensures var y := Drained(st, t, []); Drained(st, t, UnlockStores(st, t)) == y.(vis := Released(y.vis))
  {
    hide ApplyAll;
    var b := st.ts[t].buf;
    assert b + [] == b;
    ApplyCat(st.vis, b, UnlockStores(st, t));
    SeenIsApplied(st.vis, b);
    UnlockApplied(ApplyAll(st.vis, b), SeenSeq(st.vis.seqv, b) + 1);
  }

  lemma {:induction false} ReleaseRec(sys: Sys, nsref: bool, nsput: bool, v: Vis, ures: Outcome, ures': Outcome,
      t: Tid, k: Task, j: Task)
    requires RecInv(sys, nsref, nsput, v, ures, t, k) && v.lockv == t && t != NOBODY && k.buf == []
    requires j == k.(pc := j.pc, ret := j.ret, rcu := j.rcu) && LabelOK(sys, nsref, nsput, t, j) && !InCS(j.pc)
    requires !Odd(sys, j.pc)
    requires k.pc != WMb && (Slow(j.pc) ==> ures' == Ok)
    ensures RecInv(sys, nsref, nsput, Released(v), ures', t, j) && Shown(sys, nsref, t, j) == Shown(sys, nsref, t, k)
    ensures v.seqv % 2 == 1
  {
    hide BufOK, Net, LabelOK, InCS, Odd, Slow;
    NoBuf(j.buf);
  }

  lemma {:induction false} NoBuf(b: seq<Store>)
    requires b == []
    ensures NoHash(b) && HashDown(b)
  {
  }

  /** t leaves its critical section; nothing is buffered any more. */
  ghost predicate Leaves(st: State, z: State, t: Tid, j: Task) {
    && t in st.ts && st.ts[t].buf == [] && st.vis.lockv == t
    && z == st.(vis := Released(st.vis), ts := st.ts[t := j], gp := z.gp, gpfree := z.gpfree)
    && z.gpfree.on == st.gpfree.on && (z.gpfree.wait == st.gpfree.wait || z.gpfree.wait == st.gpfree.wait - {t})
  }

  lemma {:induction false} LeaveStays(sys: Sys, st: State, z: State, t: Tid, j: Task)
    requires t in sys.tasks && Leaves(st, z, t, j) && st.vis.seqv % 2 == 1 && st.ts[t].pc != PCleanup
    requires j.pc != PCleanup
    ensures Still(sys, st, z, t) && z.ts[t] == j
  {
  }

  /** mntput() that is not the last: back to the caller. */
  lemma {:induction false} CheckLabels(sys: Sys, st: State, t: Tid, j: Task)
    requires TaskInv(sys, st, t) && st.ts[t].pc == PCheck && j == st.ts[t].(pc := st.ts[t].ret, rcu := j.rcu)
    ensures LabelOK(sys, st.nsref, st.nsput, t, j) && !InCS(j.pc) && !Odd(sys, j.pc) && !Slow(j.pc) && NoSum(j.pc)
    ensures j.pc != UUnlock && j.pc != PCleanup && !Undecided(j.pc)
    ensures st.vis.lockv == t
  {
    hide BufOK, Net, SeqShape, NoHash, HashDown;
  }

  lemma {:induction false} CheckFine(sys: Sys, st: State, t: Tid, z: State, j: Task)
    requires Ready(sys, st, t) && st.ts[t].pc == PCheck && j == st.ts[t].(pc := st.ts[t].ret, rcu := false)
    requires Leaves(st, z, t, j)
    ensures Fine(sys, st, z, t)
  {
    hide RecInv, ViaPwd, Net, Still, LabelOK, InCS, Odd, Slow, Shown, DownLater, Touching;
    CheckLabels(sys, st, t, j);
    ReleaseRec(sys, st.nsref, st.nsput, st.vis, st.uresult, st.uresult, t, st.ts[t], j);
    LeaveStays(sys, st, z, t, j);
  }

  /** Drained with nothing extra: the buffer is empty, the record else the same. */
  lemma {:induction false} DrainForm(st: State, t: Tid)
    requires t in st.ts
    ensures var y := Drained(st, t, []);
            t in y.ts && y.ts == st.ts[t := st.ts[t].(buf := [])] && y == st.(vis := y.vis, ts := y.ts)
  {
    hide ApplyAll;
  }

  lemma {:induction false} CheckForm(st: State, t: Tid, z: State)
    requires PutCheck(st, t, z) && st.ts[t].acc != 0
    ensures var y := Drained(st, t, []);
      && t in y.ts && z.ts == y.ts[t := y.ts[t].(pc := st.ts[t].ret, rcu := false)]
      && z == y.(vis := Released(y.vis), ts := z.ts, gp := z.gp, gpfree := z.gpfree)
      && z.gpfree == y.gpfree.(wait := y.gpfree.wait - {t})
  {
    hide ApplyAll;
    UnlockForm(st, t);
  }

  lemma {:induction false} CheckNotLast(sys: Sys, st: State, t: Tid, z: State)
    requires Inv(sys, st) && t in sys.tasks && PutCheck(st, t, z) && st.ts[t].acc != 0
    ensures Inv(sys, z)
  {
    hide Inv, Ready, Fine, Drained;
    DrainKeeps(sys, st, t);
    DrainForm(st, t);
    CheckForm(st, t, z);
    var y := Drained(st, t, []);
    GetReady(sys, y, t);
    hide PutCheck;
    assert y.ts[t].pc == PCheck by { CheckAt(st, t, z); }
    ReadyLock(sys, y, t);
    CheckFine(sys, y, t, z, y.ts[t].(pc := y.ts[t].ret, rcu := false));
    FineKeeps(sys, y, z, t);
  }

  lemma {:induction false} CheckAt(st: State, t: Tid, z: State)
    requires PutCheck(st, t, z)
    ensures At(st, t, PCheck)
  {
    hide Drained, Goto, RcuOut;
  }

  lemma {:induction false} ReadyLock(sys: Sys, st: State, t: Tid)
    requires Ready(sys, st, t)
    ensures InCS(st.ts[t].pc) <==> st.vis.lockv == t
  {
    hide BufOK, Net, LabelOK, SeqShape, FlagTask, FlagsOK, Odd;
  }

  // ---- dooming the mount -----------------------------------------------------------------------------

  /** A count of zero: t has dropped the last reference. */
  lemma {:induction false} LastOne(sys: Sys, st: State, t: Tid)
    requires TaskInv(sys, st, t) && |st.vis.cntv| == |st.vis.putv| == sys.ncpu && SumOK(sys, st, t)
    requires st.ts[t].pc == PCheck && st.ts[t].acc == 0
    ensures AllQuiet(sys, st, t) && !st.nsref && st.ts[t].refs == 0 && (t == sys.u ==> !st.nsput) && st.uresult == Ok
  {
    hide BufOK, Net, LockTask, Quiet, NoHash, HashDown;
  }

  lemma {:induction false} DoomForm(st: State, t: Tid, z: State)
    requires PutCheck(st, t, z) && st.ts[t].acc == 0 && !st.vis.m.doomed
    ensures var y := Drained(st, t, []);
      && t in y.ts && z.ts == y.ts[t := y.ts[t].(pc := PCleanup, rcu := false)]
      && z.vis == Released(y.vis).(m := y.vis.m.(doomed := true))
      && z == y.(vis := z.vis, ts := z.ts, gp := z.gp, gpfree := z.gpfree)
      && z.gpfree == y.gpfree.(wait := y.gpfree.wait - {t})
  {
    hide ApplyAll;
    UnlockForm(st, t);
  }

  /** t dooms the mount and leaves; nothing is buffered any more. */
  ghost predicate Dooms(st: State, z: State, t: Tid) {
    && t in st.ts && st.ts[t].pc == PCheck && st.ts[t].acc == 0 && st.ts[t].buf == [] && !st.vis.m.doomed
    && st.vis.lockv == t && st.vis.seqv % 2 == 1
    && z == st.(vis := z.vis, ts := st.ts[t := st.ts[t].(pc := PCleanup, rcu := false)], gp := z.gp, gpfree := z.gpfree)
    && z.vis == Released(st.vis).(m := st.vis.m.(doomed := true))
    && z.gpfree == st.gpfree.(wait := st.gpfree.wait - {t})
  }

  lemma {:induction false} DoomRec(sys: Sys, st: State, t: Tid, z: State)
    requires TaskInv(sys, st, t) && Dooms(st, z, t) && t != NOBODY && st.ts[t].refs == 0 && (t == sys.u ==> !st.nsput)
    requires st.uresult == Ok
    ensures TaskInv(sys, z, t) && Shown(sys, z.nsref, t, z.ts[t]) == Shown(sys, st.nsref, t, st.ts[t])
  {
    DoomLabels(sys, st, t, z);
    hide RecInv, LabelOK;
    ReleaseRec(sys, st.nsref, st.nsput, st.vis, st.uresult, st.uresult, t, st.ts[t], z.ts[t]);
    RecVis(sys, st.nsref, st.nsput, Released(st.vis), z.vis, st.uresult, t, z.ts[t]);
  }

  lemma {:induction false} DoomLabels(sys: Sys, st: State, t: Tid, z: State)
    requires TaskInv(sys, st, t) && Dooms(st, z, t) && st.ts[t].refs == 0 && (t == sys.u ==> !st.nsput)
    ensures LabelOK(sys, st.nsref, st.nsput, t, z.ts[t])
  {
    hide BufOK, Net, LockTask, FlagTask;
  }

  /** A record depends on the lock and the seqcount only. */
  lemma {:induction false} RecVis(sys: Sys, nsref: bool, nsput: bool, v: Vis, w: Vis, ures: Outcome, t: Tid, k: Task)
    requires RecInv(sys, nsref, nsput, v, ures, t, k) && w.lockv == v.lockv && w.seqv == v.seqv
    ensures RecInv(sys, nsref, nsput, w, ures, t, k)
  {
    hide BufOK, Net, LabelOK, NoHash, HashDown, InCS, Odd, Slow;
  }

  lemma {:induction false} DoomCalm(sys: Sys, st: State, t: Tid, z: State)
    requires Dooms(st, z, t) && AllQuiet(sys, st, t) && !st.nsref && st.ts[t].refs == 0 && st.uresult == Ok
    requires DoomedOK(sys, st) && SyncOK(sys, st)
    requires FreeOK(st)
    ensures DoomedOK(sys, z) && FreeOK(z)
  {
    forall s | s in z.ts && s != t ensures Quiet(z.vis.seqv, z.ts[s]) {
      assert z.ts[s] == st.ts[s];
      assert Quiet(st.vis.seqv, st.ts[s]);
      QuietLater(st.vis.seqv, z.vis.seqv, st.ts[s]);
    }
  }

  lemma {:induction false} DoomSync(sys: Sys, st: State, t: Tid, z: State)
    requires Dooms(st, z, t) && AllQuiet(sys, st, t) && DoomedOK(sys, st) && SyncOK(sys, st)
    ensures SyncOK(sys, z)
  {
    if st.uresult == Ok && !sys.lazy {
      if t != sys.u { assert Quiet(st.vis.seqv, st.ts[t]); }
      forall s | s in z.ts && s != sys.u ensures Quiet(z.vis.seqv, z.ts[s]) {
        assert z.ts[s] == st.ts[s];
        QuietLater(st.vis.seqv, z.vis.seqv, st.ts[s]);
      }
    }
  }

  lemma {:induction false} DoomCore(sys: Sys, st: State, t: Tid, z: State)
    requires t in sys.tasks && Dooms(st, z, t) && Shape(sys, st) && FlagsOK(sys, st) && st.uresult == Ok
    ensures Core(sys, st, z, t) && FlagsOK(sys, z) && SumOK(sys, z, t) && QuietKeeps(sys, st, z, t)
  {
    hide Quiet, ViaPwd;
    assert z.ts[t].pc == PCleanup && st.ts[t].pc == PCheck;
    LoudCheck(st.vis.seqv, st.ts[t]);
    if t != sys.u { assert z.ts[sys.u] == st.ts[sys.u]; }
  }

  lemma {:induction false} LoudCheck(seqv: nat, k: Task)
    requires k.pc == PCheck
    ensures !Quiet(seqv, k)
  {
  }

  lemma {:induction false} DoomKeeps(sys: Sys, st: State, t: Tid, z: State)
    requires Inv(sys, st) && t in sys.tasks && Dooms(st, z, t)
    ensures Inv(sys, z)
  {
    hide Tasks, FlagsOK, Counted, Sums, DoomedOK, FreeOK, SyncOK, TaskInv, SumOK, Dooms, AllQuiet, Core;
    hide Shown, QuietKeeps;
    Actor(sys, st, t);
    assert st.ts[t].pc == PCheck && st.ts[t].acc == 0 && t in z.ts by { DoomsAt(st, z, t); }
    LastOne(sys, st, t);
    DoomRec(sys, st, t, z);
    DoomCore(sys, st, t, z);
    DoomCalm(sys, st, t, z);
    DoomSync(sys, st, t, z);
    CoreShape(sys, st, z, t);
    CoreTasks(sys, st, z, t);
    CoreCounted(sys, st, z, t);
    CoreSums(sys, st, z, t);
  }

  lemma {:induction false} DoomsAt(st: State, z: State, t: Tid)
    requires Dooms(st, z, t)
    ensures st.ts[t].pc == PCheck && st.ts[t].acc == 0 && t in z.ts
  {
  }
}
