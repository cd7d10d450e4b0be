/** Every run of the reference count protocol, with any tasks and CPUs: the ledger
    balances, a doomed mount has no reference left, nobody touches a freed mount,
    and a synchronous umount that succeeds leaves nothing behind. */
module MntPutTheorems {
  import opened Finite
  import opened MntPut
  import opened MntPutInv
  import opened MntPutBuf
  import opened MntPutCore
  import opened MntPutSteps
  import opened MntPutSum
  import opened MntPutFlush
  import opened MntPutLock
  import opened MntPutDecide

  // ---- the last steps ------------------------------------------------------------------------------

  lemma {:induction false} RcuFreeKeeps(sys: Sys, st: State, z: State)
    requires Inv(sys, st) && RcuFree(st, z)
    ensures Inv(sys, z)
  {
    assert Shape(sys, z) && FreeOK(z) by { hide Tasks, FlagsOK, Counted, Sums, SyncOK; }
    assert OnlyFreed(st, z);
    InvParts(sys, st);
    FreedRest(sys, st, z);
  }

  ghost predicate OnlyFreed(st: State, z: State) {
    z == st.(gpfree := z.gpfree, vis := st.vis.(m := st.vis.m.(freed := true)))
  }

  lemma {:induction false} FreedRest(sys: Sys, st: State, z: State)
    requires Inv(sys, st) && OnlyFreed(st, z) && st.gpfree.on && Shape(sys, z)
    ensures Tasks(sys, z) && FlagsOK(sys, z) && Counted(sys, z) && Sums(sys, z) && DoomedOK(sys, z) && SyncOK(sys, z)
  {
    FreedTasks(sys, st, z);
    FreedSums(sys, st, z);
    hide Tasks, Sums;
    assert VisFn(sys, z) == VisFn(sys, st) by { }
  }

  lemma {:induction false} FreedTasks(sys: Sys, st: State, z: State)
    requires Tasks(sys, st) && OnlyFreed(st, z)
    ensures Tasks(sys, z)
  {
    hide RecInv;
    forall t | t in sys.tasks ensures TaskInv(sys, z, t) {
      assert TaskInv(sys, st, t);
      RecVis(sys, st.nsref, st.nsput, st.vis, z.vis, st.uresult, t, st.ts[t]);
    }
  }

  lemma {:induction false} FreedSums(sys: Sys, st: State, z: State)
    requires Shape(sys, st) && Sums(sys, st) && OnlyFreed(st, z)
    ensures Sums(sys, z)
  {
    hide SumOK;
    forall t | t in sys.tasks ensures SumOK(sys, z, t) {
      assert SumOK(sys, st, t);
      FreedSum(sys, st, z, t);
    }
  }

  lemma {:induction false} FreedSum(sys: Sys, st: State, z: State, t: Tid)
    requires Shape(sys, st) && SumOK(sys, st, t) && OnlyFreed(st, z)
    ensures SumOK(sys, z, t)
  {
    hide PutsRead, GetsLeft, Quiet;
    if t in st.ts {
      var k := st.ts[t];
      if k.ci < sys.ncpu { SameReads(st.vis, z.vis, k.buf, k.ci); }
      else if k.ci <= 2 * sys.ncpu { SameReads(st.vis, z.vis, k.buf, k.ci - sys.ncpu); }
    }
  }

  lemma {:induction false} GpStartRec(sys: Sys, nsref: bool, nsput: bool, v: Vis, ures: Outcome, t: Tid,
      k: Task, j: Task)
    requires RecInv(sys, nsref, nsput, v, ures, t, k)
    requires (t == sys.u && k.pc == UNsUnlock && j == k.(pc := UGpWait))
    ensures RecInv(sys, nsref, nsput, v, ures, t, j) && Shown(sys, nsref, t, j) == Shown(sys, nsref, t, k)
  {
    hide BufOK, Net, SeqShape, NoHash, HashDown, WalkerOK, HolderOK;
    LabelStep(sys, nsref, nsput, nsput, v, ures, t, k, j);
  }

  lemma {:induction false} GpStartFine(sys: Sys, st: State, t: Tid, z: State)
    requires Ready(sys, st, t) && t == sys.u && At(st, t, UNsUnlock)
    requires z == Goto(st, t, UGpWait).(gp := Grace(true, Readers(st)))
    ensures Fine(sys, st, z, t)
  {
    hide RecInv, ViaPwd, Net, Still, Shown, DownLater, Readers;
    GpStartRec(sys, st.nsref, st.nsput, st.vis, st.uresult, t, st.ts[t], z.ts[t]);
    Stays(sys, st, z, t);
  }

  lemma {:induction false} NsUnlockKeeps(sys: Sys, st: State, t: Tid, z: State)
    requires Inv(sys, st) && t == sys.u && NsUnlock(sys, st, t, z)
    ensures Inv(sys, z)
  {
    UserIn(sys, st);
    hide Inv, Ready, Fine, DrainedAll;
    var y := Goto(st, t, UGpWait).(gp := Grace(true, Readers(st)));
    GetReady(sys, st, t);
    GpStartFine(sys, st, t, y);
    FineKeeps(sys, st, y, t);
    DrainAllKeeps(sys, y, sys.order);
  }

  lemma {:induction false} MoveRec(sys: Sys, nsref: bool, nsput: bool, v: Vis, ures: Outcome, t: Tid, k: Task, c: nat)
    requires RecInv(sys, nsref, nsput, v, ures, t, k) && c < sys.ncpu
    ensures RecInv(sys, nsref, nsput, v, ures, t, k.(cpu := c))
    ensures Shown(sys, nsref, t, k.(cpu := c)) == Shown(sys, nsref, t, k)
  {
    hide BufOK, Net, SeqShape, NoHash, HashDown, InCS, Odd, Slow;
  }

  lemma {:induction false} MoveFine(sys: Sys, st: State, t: Tid, z: State, c: nat)
    requires Ready(sys, st, t) && t in sys.holders && At(st, t, HIdle) && c < sys.ncpu
    requires z == SetTask(st, t, st.ts[t].(cpu := c))
    ensures Fine(sys, st, z, t)
  {
    hide RecInv, ViaPwd, Net, Still, Shown, FlagsOK;
    MoveRec(sys, st.nsref, st.nsput, st.vis, st.uresult, t, st.ts[t], c);
    Stays(sys, st, z, t);
  }

  lemma {:induction false} MigrateKeeps(sys: Sys, st: State, t: Tid, z: State)
    requires Inv(sys, st) && t in sys.tasks && t in sys.holders && Migrate(sys, st, t, z)
    ensures Inv(sys, z)
  {
    hide Inv, Ready, Fine, ApplyAll;
    var y := Drained(st, t, []);
    var c: nat :| c < sys.ncpu && z == SetTask(y, t, y.ts[t].(cpu := c));
    DrainKeeps(sys, st, t);
    GetReady(sys, y, t);
    MoveFine(sys, y, t, z, c);
    FineKeeps(sys, y, z, t);
  }

  lemma {:induction false} DrainPushed(st: State, t: Tid, e: seq<Store>)
    requires t in st.ts
    ensures Drained(st, t, e) == Drained(PushAll(st, t, e), t, [])
  {
    hide ApplyAll;
    var b := st.ts[t].buf;
    assert (b + e) + [] == b + e;
    assert st.ts[t := st.ts[t].(buf := b + e)][t := st.ts[t].(buf := [])] == st.ts[t := st.ts[t].(buf := [])];
  }

  lemma {:induction false} PutFastKeeps(sys: Sys, st: State, t: Tid, z: State)
    requires Inv(sys, st) && t in sys.tasks && PutFast(sys, st, t, z)
    ensures Inv(sys, z)
  {
    hide Inv, Ready, Fine, Drained, Waited, DropRef, RcuOut, Goto;
    var y := Goto(RcuOut(DropRef(sys, st, t), t), t, st.ts[t].ret);
    var x := PushAll(y, t, PutStores(st, t));
    GetReady(sys, st, t);
    PutFastFine(sys, st, t, x);
    FineKeeps(sys, st, x, t);
    DrainPushed(y, t, PutStores(st, t));
    if Waited(st, t) { DrainKeeps(sys, x, t); }
  }

  lemma {:induction false} UseKeeps(sys: Sys, st: State, t: Tid, z: State)
    requires Inv(sys, st) && t in sys.tasks && t in sys.walkers && Use(st, t, z)
    ensures Inv(sys, z)
  {
    hide Inv, Ready, Fine, Drained, Waited, RcuOut;
    var y := RcuOut(SetTask(st, t, st.ts[t].(ret := Done, pc := PEnter)), t);
    GetReady(sys, st, t);
    UseFine(sys, st, t, y);
    FineKeeps(sys, st, y, t);
    if Waited(st, t) { DrainKeeps(sys, y, t); }
  }

  lemma {:induction false} PutDecKeeps(sys: Sys, st: State, t: Tid, z: State)
    requires Inv(sys, st) && t in sys.tasks && PutDec(sys, st, t, z)
    ensures Inv(sys, z)
  {
    hide Inv, Ready, PutDec, Does, SumOK, FlagsOK, Shape, DoomedOK, FreeOK, SyncOK;
    GetReady(sys, st, t);
    Sizes(sys, st);
    PutDecDoes(sys, st, t, z);
    StillKeeps(sys, st, z, t);
  }

  lemma {:induction false} Sizes(sys: Sys, st: State)
    requires Inv(sys, st)
    ensures |st.vis.cntv| == |st.vis.putv| == sys.ncpu && st.ts.Keys == sys.tasks
    ensures st.vis.lockv == NOBODY ==> st.vis.seqv % 2 == 0
  {
    hide Tasks, FlagsOK, Counted, Sums, DoomedOK, FreeOK, SyncOK;
  }

  // ---- every step -----------------------------------------------------------------------------------------

  lemma {:induction false} PutKeeps(sys: Sys, st: State, t: Tid, z: State)
    requires Inv(sys, st) && t in sys.tasks && Put(sys, st, t, z)
    ensures Inv(sys, z)
  {
    hide Inv, Ready, Fine, PutEnter, PutFast, PutMb, PutDec, PutCheck, PutCleanup, SumStep;
    GetReady(sys, st, t);
    if PutEnter(st, t, z) { PutEnterFine(sys, st, t, z); FineKeeps(sys, st, z, t); }
    else if PutFast(sys, st, t, z) { PutFastKeeps(sys, st, t, z); }
    else if PutLock(st, t, z) { LockKeeps(sys, st, t, PMb, z); }
    else if PutMb(st, t, z) { PutMbFine(sys, st, t, z); FineKeeps(sys, st, z, t); }
    else if PutDec(sys, st, t, z) { PutDecKeeps(sys, st, t, z); }
    else if PutSum(sys, st, t, z) { SumKeeps(sys, st, t, PCheck, z); }
    else if PutCheck(st, t, z) { PutCheckKeeps(sys, st, t, z); }
    else { CleanupKeeps(sys, st, t, z); }
  }

  lemma {:induction false} WalkKeeps(sys: Sys, st: State, t: Tid, z: State)
    requires Inv(sys, st) && t in sys.tasks && t in sys.walkers && Walk(sys, st, t, z)
    ensures Inv(sys, z)
  {
    hide Inv, Ready, Fine, StartWalk, Lookup, Legit1, Legit2, LegitMb, Legit4, Flags, Use;
    GetReady(sys, st, t);
    if StartWalk(st, t, z) { StartFine(sys, st, t, z); FineKeeps(sys, st, z, t); }
    else if Lookup(sys, st, t, z) { LookupFine(sys, st, t, z); FineKeeps(sys, st, z, t); }
    else if Legit1(st, t, z) { Legit1Fine(sys, st, t, z); FineKeeps(sys, st, z, t); }
    else if Legit2(st, t, z) { Legit2Fine(sys, st, t, z); FineKeeps(sys, st, z, t); }
    else if LegitMb(st, t, z) { LegitMbFine(sys, st, t, z); FineKeeps(sys, st, z, t); }
    else if Legit4(st, t, z) { Legit4Fine(sys, st, t, z); FineKeeps(sys, st, z, t); }
    else if WalkLock(st, t, z) { LockKeeps(sys, st, t, WFlags, z); }
    else if Flags(st, t, z) { FlagsKeeps(sys, st, t, z); }
    else { UseKeeps(sys, st, t, z); }
  }

  lemma {:induction false} HoldKeeps(sys: Sys, st: State, t: Tid, z: State)
    requires Inv(sys, st) && t in sys.tasks && t in sys.holders && Hold(sys, st, t, z)
    ensures Inv(sys, z)
  {
    hide Inv, Ready, Fine, HoldGet, Migrate, HoldPut, HoldDone;
    GetReady(sys, st, t);
    if HoldGet(st, t, z) { HoldGetFine(sys, st, t, z); FineKeeps(sys, st, z, t); }
    else if Migrate(sys, st, t, z) { MigrateKeeps(sys, st, t, z); }
    else if HoldPut(st, t, z) { HoldPutFine(sys, st, t, z); FineKeeps(sys, st, z, t); }
    else { HoldDoneFine(sys, st, t, z); FineKeeps(sys, st, z, t); }
  }

  lemma {:induction false} UmountKeeps(sys: Sys, st: State, t: Tid, z: State)
    requires Inv(sys, st) && t == sys.u && Umount(sys, st, t, z)
    ensures Inv(sys, z)
  {
    UserIn(sys, st);
    hide Inv, Ready, Fine, UmMb, UmBusy, UmTree, UmUnlock, NsUnlock, GpWait, NsPut, UmRet, SumStep;
    GetReady(sys, st, t);
    if UmLock(sys, st, t, z) { LockKeeps(sys, st, t, if sys.lazy then UTree else UMb, z); }
    else if UmMb(st, t, z) { UmMbKeeps(sys, st, t, z); }
    else if UmSum(sys, st, t, z) { SumKeeps(sys, st, t, UBusy, z); }
    else if UmBusy(st, t, z) { UmBusyKeeps(sys, st, t, z); }
    else if UmTree(sys, st, t, z) { UmTreeKeeps(sys, st, t, z); }
    else if UmUnlock(st, t, z) { UmUnlockKeeps(sys, st, t, z); }
    else if NsUnlock(sys, st, t, z) { NsUnlockKeeps(sys, st, t, z); }
    else if GpWait(st, t, z) { GpWaitFine(sys, st, t, z); FineKeeps(sys, st, z, t); }
    else if NsPut(st, t, z) { NsPutFine(sys, st, t, z); FineKeeps(sys, st, z, t); }
    else { UmRetFine(sys, st, t, z); FineKeeps(sys, st, z, t); }
  }

  lemma {:induction false} NextKeeps(sys: Sys, st: State, z: State)
    requires Inv(sys, st) && Next(sys, st, z)
    ensures Inv(sys, z)
  {
    hide Inv, Put, Walk, Hold, Umount, FlushAt;
    if RcuFree(st, z) { RcuFreeKeeps(sys, st, z); }
    else {
      var t :| t in sys.tasks && (TaskStep(sys, st, t, z) || Flush(st, t, z));
      if Flush(st, t, z) {
        var i :| Flushable(st.ts[t].buf, i) && z == FlushAt(st, t, i);
        FlushKeeps(sys, st, t, i, z);
      } else if Put(sys, st, t, z) { PutKeeps(sys, st, t, z); }
      else if t in sys.walkers && Walk(sys, st, t, z) { WalkKeeps(sys, st, t, z); }
      else if t in sys.holders && Hold(sys, st, t, z) { HoldKeeps(sys, st, t, z); }
      else { UmountKeeps(sys, st, t, z); }
    }
  }

  // ---- the start ------------------------------------------------------------------------------------------

  lemma {:induction false} InitRec(sys: Sys, v: Vis, t: Tid, k: Task)
    requires v.seqv == 0 && v.lockv == NOBODY && t != NOBODY && k.buf == [] && k.sq == 0 && k.cpu < sys.ncpu
    requires t in sys.walkers ==> t != sys.u
    requires k.pc == (if t == sys.u then ULock else if t in sys.walkers then WStart else HIdle)
    requires k.refs == Bit(t !in sys.walkers)
    ensures RecInv(sys, true, false, v, Pending, t, k) && Shown(sys, true, t, k) == k.refs + Bit(t == sys.u)
  {
    NoBuf(k.buf);
  }

  lemma {:induction false} InitTask(sys: Sys, st: State, t: Tid)
    requires sys.Valid() && Init(sys, st) && t in sys.tasks
    ensures TaskInv(sys, st, t) && VisFn(sys, st)(t) == (if t == sys.u then 2 else Bit(t in sys.holders))
  {
    hide RecInv, Shown;
    var k := st.ts[t];
    assert k.cpu < sys.ncpu && k.buf == [] && k.sq == 0;
    assert t != sys.u && t !in sys.walkers ==> t in sys.holders;
    InitRec(sys, st.vis, t, k);
  }

  lemma {:induction false} InitCounted(sys: Sys, st: State)
    requires sys.Valid() && Init(sys, st)
    ensures Counted(sys, st)
  {
    hide Init;
    var f := VisFn(sys, st);
    forall t | t in sys.tasks ensures f(t) == if t == sys.u then 2 else Bit(t in sys.holders) { InitTask(sys, st, t); }
    SumSplit(sys.tasks, f, sys.u);
    SumIndicator(sys.tasks - {sys.u}, sys.holders, f);
    assert (sys.tasks - {sys.u}) * sys.holders == sys.holders;
    InitSum(sys, st);
  }

  lemma {:induction false} InitSum(sys: Sys, st: State)
    requires Init(sys, st)
    ensures SumSeq(st.vis.cntv) == 2 + |sys.holders|
  {
  }

  lemma {:induction false} InitInv(sys: Sys, st: State)
    requires sys.Valid() && Init(sys, st)
    ensures Inv(sys, st)
  {
    InitCounted(sys, st);
    forall t | t in sys.tasks ensures TaskInv(sys, st, t) { InitTask(sys, st, t); }
    hide TaskInv, Counted;
    InitRest(sys, st);
  }

  lemma {:induction false} InitRest(sys: Sys, st: State)
    requires sys.Valid() && Init(sys, st)
    ensures Shape(sys, st) && FlagsOK(sys, st) && Sums(sys, st) && DoomedOK(sys, st) && FreeOK(st) && SyncOK(sys, st)
  {
    InitShape(sys, st);
    hide Init, Shape, FlagsOK, SumOK;
    InitPlain(sys, st);
    forall t | t in sys.tasks ensures SumOK(sys, st, t) { InitIdle(sys, st, t); InitSumOK(sys, st, t); }
    forall t | t in st.ts ensures st.ts[t].pc != PCleanup { InitIdle(sys, st, t); }
  }

  lemma {:induction false} InitShape(sys: Sys, st: State)
    requires sys.Valid() && Init(sys, st)
    ensures Shape(sys, st) && FlagsOK(sys, st)
  {
    assert sys.u in sys.tasks;
    assert st.ts[sys.u].pc == ULock;
  }

  lemma {:induction false} InitPlain(sys: Sys, st: State)
    requires Init(sys, st)
    ensures !st.vis.m.doomed && !st.vis.m.freed && st.cleaner == NOBODY && !st.gpfree.on && st.uresult == Pending
    ensures st.ts.Keys == sys.tasks
    ensures |st.vis.cntv| == |st.vis.putv| == sys.ncpu
  {
  }

  lemma {:induction false} InitIdle(sys: Sys, st: State, t: Tid)
    requires Init(sys, st) && t in st.ts
    ensures NoSum(st.ts[t].pc) && st.ts[t].pc != PCleanup && |st.vis.cntv| == |st.vis.putv| == sys.ncpu
  {
    assert t in sys.tasks;
  }

  lemma {:induction false} InitSumOK(sys: Sys, st: State, t: Tid)
    requires t in st.ts && NoSum(st.ts[t].pc) && |st.vis.cntv| == |st.vis.putv| == sys.ncpu
    ensures SumOK(sys, st, t)
  {
  }

  lemma {:induction false} RunInv(sys: Sys, b: seq<State>, i: nat)
    requires sys.Valid() && Run(sys, b) && i < |b|
    ensures Inv(sys, b[i])
    decreases i
  {
    hide Inv, Init, Next;
    if i == 0 { InitInv(sys, b[0]); }
    else {
      RunInv(sys, b, i - 1);
      NextKeeps(sys, b[i - 1], b[i]);
    }
  }

  // ---- the claims ------------------------------------------------------------------------------------------

  lemma {:induction false} LedgerHolds(sys: Sys, st: State)
    requires Shape(sys, st) && Counted(sys, st)
    ensures Ledger(sys, st)
  {
    hide Net, Sum, SumSeq;
    var f: Tid -> int := (t: Tid) => RefsOf(st)(t) - NetOf(st)(t);
    SumPlus(sys.tasks, RefsOf(st), f, NetOf(st));
    forall t | t in sys.tasks ensures VisFn(sys, st)(t) == f(t) + Bit(t == sys.u && st.nsref) {}
    SumUpdate(sys.tasks, f, VisFn(sys, st), sys.u);
  }

  lemma {:induction false} DoomedHolds(sys: Sys, st: State)
    requires Shape(sys, st) && Tasks(sys, st) && DoomedOK(sys, st)
    ensures DoomedIsLast(sys, st)
  {
    if st.vis.m.doomed {
      forall t | t in sys.tasks && !Transient(sys, st, t) ensures st.ts[t].refs == 0 {
        assert TaskInv(sys, st, t);
        assert Quiet(st.vis.seqv, st.ts[t]) || (st.ts[t].pc == PCleanup && st.ts[t].refs == 0);
        if Quiet(st.vis.seqv, st.ts[t]) { QuietTransient(sys, st, t); }
      }
    }
  }

  lemma {:induction false} QuietTransient(sys: Sys, st: State, t: Tid)
    requires TaskInv(sys, st, t) && Quiet(st.vis.seqv, st.ts[t]) && !Transient(sys, st, t)
    ensures st.ts[t].refs == 0
  {
    hide BufOK, LockTask, FlagTask, Net;
  }

  lemma {:induction false} SyncHolds(sys: Sys, st: State)
    requires Shape(sys, st) && Tasks(sys, st) && SyncOK(sys, st)
    ensures SyncClean(sys, st)
  {
    hide TaskInv, Transient;
    if st.uresult == Ok && !sys.lazy {
      forall t | t in sys.tasks && t != sys.u && !Transient(sys, st, t) ensures st.ts[t].refs == 0 {
        assert TaskInv(sys, st, t);
        assert Quiet(st.vis.seqv, st.ts[t]);
        QuietTransient(sys, st, t);
      }
    }
  }

  lemma {:induction false} CountsHold(sys: Sys, st: State, t: Tid)
    requires TaskInv(sys, st, t) && |st.vis.cntv| == |st.vis.putv| == sys.ncpu && SumOK(sys, st, t)
    requires st.ts[t].pc == PCheck
    ensures st.ts[t].acc >= Own(sys, st.nsref, t, st.ts[t]) >= 0
  {
    hide BufOK, LockTask, FlagTask, Net, AllQuiet;
  }

  lemma {:induction false} FreedHolds(sys: Sys, st: State)
    requires Shape(sys, st) && FreeOK(st)
    ensures NoUAF(sys, st)
  {
    hide Touching;
  }

  /** Safety of the whole protocol, in every state of every run: whatever the tasks,
      CPUs, migrations and store orders, the counters account for the references;
      MNT_DOOMED means the last reference is gone; the sum in mntput() is never
      negative; nobody touches the mount once it is freed; and when a synchronous
      umount has succeeded only the umounter holds a reference or cleans up. */
  lemma {:induction false} RunsAreSafe(sys: Sys, b: seq<State>, i: nat)
    requires sys.Valid() && Run(sys, b) && i < |b|
    ensures Ledger(sys, b[i]) && DoomedIsLast(sys, b[i]) && NoNegative(sys, b[i]) && NoUAF(sys, b[i])
    ensures SyncClean(sys, b[i])
  {
    hide Run, Tasks, FlagsOK, Counted, Sums, DoomedOK, FreeOK, SyncOK, Ledger, DoomedIsLast, NoUAF, SyncClean;
    RunInv(sys, b, i);
    var st := b[i];
    LedgerHolds(sys, st);
    DoomedHolds(sys, st);
    SyncHolds(sys, st);
    FreedHolds(sys, st);
    forall t | t in sys.tasks && t in st.ts && st.ts[t].pc == PCheck ensures st.ts[t].acc >= 0 {
      Actor(sys, st, t);
      CountsHold(sys, st, t);
    }
  }
}
