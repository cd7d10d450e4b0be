/** The mount is freed in the end: once an umount has succeeded somebody is always
    answerable for the last put, so when everybody is done the mount is doomed, cleaned
    up and freed; and until then somebody has a step to take. */
module MntPutFreed {
  import opened Finite
  import opened MntPut
  import opened MntPutInv
  import opened MntPutBuf
  import opened MntPutSteps
  import opened MntPutSum
  import opened MntPutLock
  import opened MntPutDecide
  import opened MntPutTheorems
  import opened MntPutExact

  // ---- what a task's own step can do -----------------------------------------------------------

  /** A task answers for its buffered counting: it has a reference or is in a sum. */
  ghost predicate Mine(k: Task) { k.refs > 0 || k.pc.PSum? || k.pc.PCheck? }

  /** On the way to legitimizing. */
  ghost predicate Legit(l: Label) { l.WL1? || l.WL2? || l.WMb? || l.WL4? || l.WLock? || l.WFlags? }

  /** Inside rcu_read_lock(). */
  ghost predicate Reads(l: Label) {
    l.WLookup? || Legit(l) || l.WUse? || l.PFast? || l.PLock? || l.PMb? || l.PDec? || l.PSum?
        || l.PCheck?
  }

  /** What any step of a task's own does to its record. */
  ghost predicate Eff(v: Vis, waited: bool, pwd: bool, k: Task, j: Task) {
    && (j.pc.PFast? ==> v.m.ns)
    && (j.refs >= k.refs || k.pc.PFast? || k.pc.PDec? || (k.pc.WFlags? && (v.m.sync || v.m.doomed)))
    && (k.pc.PDec? ==> j.pc.PSum?)
    && (CountStored(j.buf) ==> Mine(j) || (CountStored(k.buf) && !Mine(k)) || (k.pc.PFast? && !waited))
    && (Legit(j.pc) ==> Legit(k.pc) || (k.pc.WLookup? && (v.m.hashed || pwd)))
    && (j.rcu && (k.rcu ==> Reads(k.pc)) ==> Reads(j.pc))
    && (j.pc.PCleanup? ==> k.pc.PCheck?) && (j.pc.PFast? ==> j.rcu) && !k.pc.PCleanup?
  }

  /** The umounter's way. */
  ghost predicate Way(k: Label, j: Label) {
    && (j.UUnlock? <==> k.UTree?) && (j.UNsUnlock? <==> k.UUnlock?) && !k.UNsUnlock? && !k.UGpWait?
    && !j.UGpWait? && !j.UNsPut? && (k.UNsPut? ==> j.PEnter?)
    && (k.PEnter? || k.PLock? || k.PMb? ==> j.PFast? || j.PLock? || j.PMb? || j.PDec?)
  }

  /** ... and to everything else. */
  ghost predicate Outer(sys: Sys, st: State, t: Tid, z: State) {
    && t in st.ts && t in z.ts && z.ts == st.ts[t := z.ts[t]]
    && z.cleaner == st.cleaner && z.vis.m.freed == st.vis.m.freed && z.gpfree.on == st.gpfree.on
    && (|| (z.gp.wait == st.gp.wait && z.gpfree.wait == st.gpfree.wait && (st.ts[t].rcu ==> z.ts[t].rcu))
        || (z.gp.wait == st.gp.wait - {t} && z.gpfree.wait == st.gpfree.wait - {t} && !z.ts[t].rcu))
    && (z.vis.m.doomed == st.vis.m.doomed || (st.ts[t].pc.PCheck? && z.ts[t].pc.PCleanup?))
    && (z.uresult == Ok ==> st.uresult == Ok || st.ts[t].pc.UTree?)
    && (z.nsref == st.nsref || (t == sys.u && !z.nsref && st.nsput && (st.ts[t].pc.PFast? || st.ts[t].pc.PDec?)))
    && (z.nsput == st.nsput || st.ts[t].pc.UNsPut? || st.ts[t].pc.URet?) && (st.ts[t].pc.UNsPut? ==> z.nsput)
    && (t == sys.u && st.nsput && (st.ts[t].pc.PFast? || st.ts[t].pc.PDec?) ==> !z.nsref)
    && Way(st.ts[t].pc, z.ts[t].pc)
  }

  /** A step of t that neither starts nor ends a grace period nor cleans up. */
  ghost predicate Calm(sys: Sys, st: State, t: Tid, z: State) {
    Outer(sys, st, t, z) && Eff(st.vis, Waited(st, t), ViaPwd(sys, st), st.ts[t], z.ts[t])
  }

  lemma {:induction false} NoneStored()
    ensures !CountStored([])
  {
  }

  lemma {:induction false} ApplyMount(v: Vis, es: seq<Store>)
    ensures var m := ApplyAll(v, es).m; m == v.m.(hashed := m.hashed, ns := m.ns)
    decreases |es|
  {
    if es != [] { ApplyMount(Apply(v, es[0]), es[1..]); }
  }

  /** A drained buffer. */
  lemma {:induction false} DrainIs(st: State, t: Tid, es: seq<Store>)
    requires t in st.ts
    ensures var y := Drained(st, t, es);
      && y.ts == st.ts[t := st.ts[t].(buf := [])] && y == st.(vis := y.vis, ts := y.ts)
      && y.vis.m == st.vis.m.(hashed := y.vis.m.hashed, ns := y.vis.m.ns)
  {
    hide ApplyAll;
    ApplyMount(st.vis, st.ts[t].buf + es);
  }

  /** Then stores go into or out of its buffer. */
  lemma {:induction false} OuterThen(sys: Sys, st: State, t: Tid, y: State, z: State)
    requires Outer(sys, st, t, y) && t in z.ts && z.ts == y.ts[t := z.ts[t]] && z == y.(ts := z.ts, vis := z.vis)
    requires z.ts[t] == y.ts[t].(buf := z.ts[t].buf)
    requires z.vis.m == y.vis.m.(hashed := z.vis.m.hashed, ns := z.vis.m.ns)
    ensures Outer(sys, st, t, z)
  {
    hide Way;
  }

  lemma {:induction false} PutEnterOuter(sys: Sys, st: State, t: Tid, z: State)
    requires t in st.ts && RetFine(st.ts[t]) && PutEnter(st, t, z)
    ensures Outer(sys, st, t, z)
  {
  }

  lemma {:induction false} PutEnterCalm(sys: Sys, st: State, t: Tid, z: State)
    requires t in st.ts && st.ts[t].refs >= 0 && RetFine(st.ts[t]) && PutEnter(st, t, z)
    ensures Calm(sys, st, t, z)
  {
    PutEnterOuter(sys, st, t, z);
    NoneStored();
    hide Outer, CountStored;
  }

  lemma {:induction false} FastBase(sys: Sys, st: State, t: Tid)
    requires t in st.ts && RetFine(st.ts[t]) && st.ts[t].pc.PFast?
    ensures var y := Goto(RcuOut(DropRef(sys, st, t), t), t, st.ts[t].ret);
      Outer(sys, st, t, y) && y.ts[t].pc == st.ts[t].ret && !y.ts[t].rcu && y.vis == st.vis
  {
  }

  lemma {:induction false} PutFastOuter(sys: Sys, st: State, t: Tid, z: State)
    requires t in st.ts && RetFine(st.ts[t]) && PutFast(sys, st, t, z)
    ensures Outer(sys, st, t, z) && z.ts[t].pc == st.ts[t].ret && !z.ts[t].rcu && (Waited(st, t) ==> z.ts[t].buf == [])
  {
    FastBase(sys, st, t);
    hide Outer, DropRef, RcuOut, Goto, Drained, Waited, PutStores;
    var y := Goto(RcuOut(DropRef(sys, st, t), t), t, st.ts[t].ret);
    DrainIs(y, t, PutStores(st, t));
    OuterThen(sys, st, t, y, z);
  }

  lemma {:induction false} PutFastEff(v: Vis, w: bool, p: bool, k: Task, j: Task)
    requires k.pc.PFast? && RetFine(k) && j.pc == k.ret && !j.rcu && (w ==> j.buf == [])
    ensures Eff(v, w, p, k, j)
  {
    NoneStored();
    hide CountStored;
  }

  lemma {:induction false} PutFastCalm(sys: Sys, st: State, t: Tid, z: State)
    requires t in st.ts && st.ts[t].refs >= 0 && RetFine(st.ts[t]) && PutFast(sys, st, t, z)
    ensures Calm(sys, st, t, z)
  {
    PutFastOuter(sys, st, t, z);
    assert st.ts[t].pc.PFast?;
    hide Outer, Eff, ViaPwd, Waited, PutFast;
    PutFastEff(st.vis, Waited(st, t), ViaPwd(sys, st), st.ts[t], z.ts[t]);
  }

  lemma {:induction false} PutLockOuter(sys: Sys, st: State, t: Tid, z: State)
    requires t in st.ts && RetFine(st.ts[t]) && PutLock(st, t, z)
    ensures Outer(sys, st, t, z)
  {
  }

  lemma {:induction false} PutLockCalm(sys: Sys, st: State, t: Tid, z: State)
    requires t in st.ts && st.ts[t].refs >= 0 && RetFine(st.ts[t]) && PutLock(st, t, z)
    ensures Calm(sys, st, t, z)
  {
    PutLockOuter(sys, st, t, z);
    NoneStored();
    hide Outer, CountStored;
  }

  lemma {:induction false} PutMbOuter(sys: Sys, st: State, t: Tid, z: State)
    requires t in st.ts && RetFine(st.ts[t]) && PutMb(st, t, z)
    ensures Outer(sys, st, t, z)
  {
  }

  lemma {:induction false} PutMbCalm(sys: Sys, st: State, t: Tid, z: State)
    requires t in st.ts && st.ts[t].refs >= 0 && RetFine(st.ts[t]) && PutMb(st, t, z)
    ensures Calm(sys, st, t, z)
  {
    PutMbOuter(sys, st, t, z);
    NoneStored();
    hide Outer, CountStored;
  }

  lemma {:induction false} PutDecOuter(sys: Sys, st: State, t: Tid, z: State)
    requires t in st.ts && RetFine(st.ts[t]) && PutDec(sys, st, t, z)
    ensures Outer(sys, st, t, z)
  {
  }

  lemma {:induction false} PutDecCalm(sys: Sys, st: State, t: Tid, z: State)
    requires t in st.ts && st.ts[t].refs >= 0 && RetFine(st.ts[t]) && PutDec(sys, st, t, z)
    ensures Calm(sys, st, t, z)
  {
    PutDecOuter(sys, st, t, z);
    NoneStored();
    hide Outer, CountStored;
  }

  lemma {:induction false} PutSumOuter(sys: Sys, st: State, t: Tid, z: State)
    requires t in st.ts && RetFine(st.ts[t]) && PutSum(sys, st, t, z)
    ensures Outer(sys, st, t, z)
  {
    hide ReadCnt;
  }

  lemma {:induction false} PutSumEff(v: Vis, w: bool, p: bool, k: Task, j: Task)
    requires k.pc.PSum? && (j.pc.PSum? || j.pc.PCheck?) && j.refs == k.refs && j.rcu == k.rcu && j.buf == k.buf
    ensures Eff(v, w, p, k, j)
  {
    NoneStored();
    hide CountStored;
  }

  lemma {:induction false} PutSumCalm(sys: Sys, st: State, t: Tid, z: State)
    requires t in st.ts && st.ts[t].refs >= 0 && RetFine(st.ts[t]) && PutSum(sys, st, t, z)
    ensures Calm(sys, st, t, z)
  {
    PutSumOuter(sys, st, t, z);
    hide Outer, Eff, ViaPwd, Waited, ReadCnt;
    PutSumEff(st.vis, Waited(st, t), ViaPwd(sys, st), st.ts[t], z.ts[t]);
  }

  lemma {:induction false} CheckBase(sys: Sys, st: State, t: Tid, l: Label)
    requires t in st.ts && RetFine(st.ts[t]) && st.ts[t].pc.PCheck? && (l == st.ts[t].ret || l.PCleanup?)
    ensures var y := Goto(RcuOut(Drained(st, t, UnlockStores(st, t)), t), t, l);
      && Outer(sys, st, t, y) && y.ts[t].pc == l && !y.ts[t].rcu && y.ts[t].buf == [] && y.ts[t].refs == st.ts[t].refs
      && y.vis.m.doomed == st.vis.m.doomed
  {
    DrainIs(st, t, UnlockStores(st, t));
    hide Drained, UnlockStores;
  }

  lemma {:induction false} OuterDooms(sys: Sys, st: State, t: Tid, y: State)
    requires Outer(sys, st, t, y) && st.ts[t].pc.PCheck? && y.ts[t].pc.PCleanup?
    ensures Outer(sys, st, t, y.(vis := y.vis.(m := y.vis.m.(doomed := true))))
  {
    hide Way;
  }

  lemma {:induction false} PutCheckOuter(sys: Sys, st: State, t: Tid, z: State)
    requires t in st.ts && RetFine(st.ts[t]) && PutCheck(st, t, z)
    ensures Outer(sys, st, t, z) && (z.ts[t].pc == st.ts[t].ret || z.ts[t].pc.PCleanup?)
    ensures !z.ts[t].rcu && z.ts[t].buf == [] && z.ts[t].refs == st.ts[t].refs
  {
    CheckBase(sys, st, t, st.ts[t].ret);
    CheckBase(sys, st, t, PCleanup);
    CheckIs(st, t, z);
    hide Outer, RcuOut, Goto, Drained, UnlockStores, PutCheck;
    var y := Goto(RcuOut(Drained(st, t, UnlockStores(st, t)), t), t, PCleanup);
    OuterDooms(sys, st, t, y);
  }

  lemma {:induction false} CheckIs(st: State, t: Tid, z: State)
    requires PutCheck(st, t, z)
    ensures t in st.ts
    ensures var y := RcuOut(Drained(st, t, UnlockStores(st, t)), t);
            var c := Goto(y, t, PCleanup);
      && st.ts[t].pc.PCheck?
      && (z == Goto(y, t, st.ts[t].ret) || z == c.(vis := c.vis.(m := c.vis.m.(doomed := true))))
  {
    hide Drained, RcuOut, UnlockStores;
  }

  lemma {:induction false} PutCheckEff(v: Vis, w: bool, p: bool, k: Task, j: Task)
    requires k.pc.PCheck? && RetFine(k) && (j.pc == k.ret || j.pc.PCleanup?) && !j.rcu && j.buf == []
    requires j.refs == k.refs
    ensures Eff(v, w, p, k, j)
  {
    NoneStored();
    hide CountStored;
  }

  lemma {:induction false} PutCheckCalm(sys: Sys, st: State, t: Tid, z: State)
    requires t in st.ts && st.ts[t].refs >= 0 && RetFine(st.ts[t]) && PutCheck(st, t, z)
    ensures Calm(sys, st, t, z)
  {
    PutCheckOuter(sys, st, t, z);
    assert st.ts[t].pc.PCheck?;
    hide Outer, Eff, ViaPwd, Waited, PutCheck;
    PutCheckEff(st.vis, Waited(st, t), ViaPwd(sys, st), st.ts[t], z.ts[t]);
  }

  lemma {:induction false} StartWalkOuter(sys: Sys, st: State, t: Tid, z: State)
    requires t in st.ts && RetFine(st.ts[t]) && StartWalk(st, t, z)
    ensures Outer(sys, st, t, z)
  {
  }

  lemma {:induction false} StartWalkCalm(sys: Sys, st: State, t: Tid, z: State)
    requires t in st.ts && st.ts[t].refs >= 0 && RetFine(st.ts[t]) && StartWalk(st, t, z)
    ensures Calm(sys, st, t, z)
  {
    StartWalkOuter(sys, st, t, z);
    NoneStored();
    hide Outer, CountStored;
  }

  lemma {:induction false} LookupOuter(sys: Sys, st: State, t: Tid, z: State)
    requires t in st.ts && RetFine(st.ts[t]) && Lookup(sys, st, t, z)
    ensures Outer(sys, st, t, z)
  {
    hide ViaPwd;
  }

  lemma {:induction false} LookupEff(v: Vis, w: bool, p: bool, k: Task, j: Task)
    requires k.pc.WLookup? && j.refs == k.refs && j.buf == k.buf
    requires if v.m.hashed || p then j.pc.WL1? else j.pc.WNone? && !j.rcu
    ensures Eff(v, w, p, k, j)
  {
    NoneStored();
    hide CountStored;
  }

  lemma {:induction false} LookupCalm(sys: Sys, st: State, t: Tid, z: State)
    requires t in st.ts && st.ts[t].refs >= 0 && RetFine(st.ts[t]) && Lookup(sys, st, t, z)
    ensures Calm(sys, st, t, z)
  {
    LookupOuter(sys, st, t, z);
    hide Outer, Eff, ViaPwd, Waited;
    LookupEff(st.vis, Waited(st, t), ViaPwd(sys, st), st.ts[t], z.ts[t]);
  }

  lemma {:induction false} Legit1Outer(sys: Sys, st: State, t: Tid, z: State)
    requires t in st.ts && RetFine(st.ts[t]) && Legit1(st, t, z)
    ensures Outer(sys, st, t, z)
  {
  }

  lemma {:induction false} Legit1Calm(sys: Sys, st: State, t: Tid, z: State)
    requires t in st.ts && st.ts[t].refs >= 0 && RetFine(st.ts[t]) && Legit1(st, t, z)
    ensures Calm(sys, st, t, z)
  {
    Legit1Outer(sys, st, t, z);
    NoneStored();
    hide Outer, CountStored;
  }

  lemma {:induction false} Legit2Outer(sys: Sys, st: State, t: Tid, z: State)
    requires t in st.ts && RetFine(st.ts[t]) && Legit2(st, t, z)
    ensures Outer(sys, st, t, z)
  {
  }

  lemma {:induction false} Legit2Eff(v: Vis, w: bool, p: bool, k: Task, j: Task)
    requires k.pc.WL2? && k.refs >= 0 && j.pc.WMb? && j.refs == k.refs + 1 && j.rcu == k.rcu
    ensures Eff(v, w, p, k, j)
  {
    NoneStored();
    hide CountStored;
  }

  lemma {:induction false} Legit2Calm(sys: Sys, st: State, t: Tid, z: State)
    requires t in st.ts && st.ts[t].refs >= 0 && RetFine(st.ts[t]) && Legit2(st, t, z)
    ensures Calm(sys, st, t, z)
  {
    Legit2Outer(sys, st, t, z);
    hide Outer, Eff, ViaPwd, Waited;
    Legit2Eff(st.vis, Waited(st, t), ViaPwd(sys, st), st.ts[t], z.ts[t]);
  }

  lemma {:induction false} LegitMbOuter(sys: Sys, st: State, t: Tid, z: State)
    requires t in st.ts && RetFine(st.ts[t]) && LegitMb(st, t, z)
    ensures Outer(sys, st, t, z)
  {
  }

  lemma {:induction false} LegitMbCalm(sys: Sys, st: State, t: Tid, z: State)
    requires t in st.ts && st.ts[t].refs >= 0 && RetFine(st.ts[t]) && LegitMb(st, t, z)
    ensures Calm(sys, st, t, z)
  {
    LegitMbOuter(sys, st, t, z);
    NoneStored();
    hide Outer, CountStored;
  }

  lemma {:induction false} Legit4Outer(sys: Sys, st: State, t: Tid, z: State)
    requires t in st.ts && RetFine(st.ts[t]) && Legit4(st, t, z)
    ensures Outer(sys, st, t, z)
  {
  }

  lemma {:induction false} Legit4Calm(sys: Sys, st: State, t: Tid, z: State)
    requires t in st.ts && st.ts[t].refs >= 0 && RetFine(st.ts[t]) && Legit4(st, t, z)
    ensures Calm(sys, st, t, z)
  {
    Legit4Outer(sys, st, t, z);
    NoneStored();
    hide Outer, CountStored;
  }

  lemma {:induction false} WalkLockOuter(sys: Sys, st: State, t: Tid, z: State)
    requires t in st.ts && RetFine(st.ts[t]) && WalkLock(st, t, z)
    ensures Outer(sys, st, t, z)
  {
  }

  lemma {:induction false} WalkLockCalm(sys: Sys, st: State, t: Tid, z: State)
    requires t in st.ts && st.ts[t].refs >= 0 && RetFine(st.ts[t]) && WalkLock(st, t, z)
    ensures Calm(sys, st, t, z)
  {
    WalkLockOuter(sys, st, t, z);
    NoneStored();
    hide Outer, CountStored;
  }

  lemma {:induction false} LostOuter(sys: Sys, st: State, t: Tid, z: State)
    requires t in st.ts && st.ts[t].pc.WFlags?
    requires var y := RcuOut(Drained(st, t, PutStores(st, t) + UnlockStores(st, t)), t);
             z == SetTask(y, t, y.ts[t].(refs := st.ts[t].refs - 1, pc := Lost))
    ensures Outer(sys, st, t, z)
  {
    DrainIs(st, t, PutStores(st, t) + UnlockStores(st, t));
    hide Drained, UnlockStores, PutStores;
  }

  lemma {:induction false} RetryOuter(sys: Sys, st: State, t: Tid, z: State)
    requires t in st.ts && st.ts[t].pc.WFlags?
    requires var y := RcuOut(Drained(st, t, UnlockStores(st, t)), t);
             z == SetTask(y, t, y.ts[t].(ret := Lost, pc := PEnter))
    ensures Outer(sys, st, t, z)
  {
    DrainIs(st, t, UnlockStores(st, t));
    hide Drained, UnlockStores;
  }

  lemma {:induction false} FlagsOuter(sys: Sys, st: State, t: Tid, z: State)
    requires t in st.ts && RetFine(st.ts[t]) && Flags(st, t, z)
    ensures Outer(sys, st, t, z)
  {
    hide Outer, RcuOut, Drained, UnlockStores, PutStores;
    if st.vis.m.sync || st.vis.m.doomed { LostOuter(sys, st, t, z); } else { RetryOuter(sys, st, t, z); }
  }

  lemma {:induction false} FlagsCalm(sys: Sys, st: State, t: Tid, z: State)
    requires t in st.ts && st.ts[t].refs >= 0 && RetFine(st.ts[t]) && Flags(st, t, z)
    ensures Calm(sys, st, t, z)
  {
    FlagsOuter(sys, st, t, z);
    NoneStored();
    DrainIs(st, t, PutStores(st, t) + UnlockStores(st, t));
    DrainIs(st, t, UnlockStores(st, t));
    hide Outer, CountStored, PutStores, UnlockStores, Drained;
  }

  lemma {:induction false} UseOuter(sys: Sys, st: State, t: Tid, z: State)
    requires t in st.ts && RetFine(st.ts[t]) && Use(st, t, z)
    ensures Outer(sys, st, t, z)
  {
    var y := RcuOut(SetTask(st, t, st.ts[t].(ret := Done, pc := PEnter)), t);
    DrainIs(y, t, []);
    hide Waited, Drained;
  }

  lemma {:induction false} UseCalm(sys: Sys, st: State, t: Tid, z: State)
    requires t in st.ts && st.ts[t].refs >= 0 && RetFine(st.ts[t]) && Use(st, t, z)
    ensures Calm(sys, st, t, z)
  {
    UseOuter(sys, st, t, z);
    NoneStored();
    var y := RcuOut(SetTask(st, t, st.ts[t].(ret := Done, pc := PEnter)), t);
    DrainIs(y, t, []);
    hide Outer, CountStored, Waited, Drained;
  }

  lemma {:induction false} HoldGetOuter(sys: Sys, st: State, t: Tid, z: State)
    requires t in st.ts && RetFine(st.ts[t]) && HoldGet(st, t, z)
    ensures Outer(sys, st, t, z)
  {
  }

  lemma {:induction false} HoldGetCalm(sys: Sys, st: State, t: Tid, z: State)
    requires t in st.ts && st.ts[t].refs >= 0 && RetFine(st.ts[t]) && HoldGet(st, t, z)
    ensures Calm(sys, st, t, z)
  {
    HoldGetOuter(sys, st, t, z);
    NoneStored();
    hide Outer, CountStored;
  }

  lemma {:induction false} MigrateOuter(sys: Sys, st: State, t: Tid, z: State)
    requires t in st.ts && RetFine(st.ts[t]) && Migrate(sys, st, t, z)
    ensures Outer(sys, st, t, z)
  {
    DrainIs(st, t, []);
    hide Drained;
  }

  lemma {:induction false} MigrateCalm(sys: Sys, st: State, t: Tid, z: State)
    requires t in st.ts && st.ts[t].refs >= 0 && RetFine(st.ts[t]) && Migrate(sys, st, t, z)
    ensures Calm(sys, st, t, z)
  {
    MigrateOuter(sys, st, t, z);
    NoneStored();
    DrainIs(st, t, []);
    hide Outer, CountStored, Drained;
  }

  lemma {:induction false} HoldPutOuter(sys: Sys, st: State, t: Tid, z: State)
    requires t in st.ts && RetFine(st.ts[t]) && HoldPut(st, t, z)
    ensures Outer(sys, st, t, z)
  {
  }

  lemma {:induction false} HoldPutCalm(sys: Sys, st: State, t: Tid, z: State)
    requires t in st.ts && st.ts[t].refs >= 0 && RetFine(st.ts[t]) && HoldPut(st, t, z)
    ensures Calm(sys, st, t, z)
  {
    HoldPutOuter(sys, st, t, z);
    NoneStored();
    hide Outer, CountStored;
  }

  lemma {:induction false} HoldDoneOuter(sys: Sys, st: State, t: Tid, z: State)
    requires t in st.ts && RetFine(st.ts[t]) && HoldDone(st, t, z)
    ensures Outer(sys, st, t, z)
  {
  }

  lemma {:induction false} HoldDoneEff(v: Vis, w: bool, p: bool, k: Task, j: Task)
    requires k.pc.HIdle? && k.refs == 0 && j == k.(pc := Done)
    ensures Eff(v, w, p, k, j)
  {
    NoneStored();
    hide CountStored;
  }

  lemma {:induction false} HoldDoneCalm(sys: Sys, st: State, t: Tid, z: State)
    requires t in st.ts && st.ts[t].refs >= 0 && RetFine(st.ts[t]) && HoldDone(st, t, z)
    ensures Calm(sys, st, t, z)
  {
    HoldDoneOuter(sys, st, t, z);
    hide Outer, Eff, ViaPwd, Waited;
    HoldDoneEff(st.vis, Waited(st, t), ViaPwd(sys, st), st.ts[t], z.ts[t]);
  }

  lemma {:induction false} UmLockOuter(sys: Sys, st: State, t: Tid, z: State)
    requires t in st.ts && RetFine(st.ts[t]) && UmLock(sys, st, t, z)
    ensures Outer(sys, st, t, z)
  {
  }

  lemma {:induction false} UmLockCalm(sys: Sys, st: State, t: Tid, z: State)
    requires t in st.ts && st.ts[t].refs >= 0 && RetFine(st.ts[t]) && UmLock(sys, st, t, z)
    ensures Calm(sys, st, t, z)
  {
    UmLockOuter(sys, st, t, z);
    NoneStored();
    hide Outer, CountStored;
  }

  lemma {:induction false} UmMbOuter(sys: Sys, st: State, t: Tid, z: State)
    requires t in st.ts && RetFine(st.ts[t]) && UmMb(st, t, z)
    ensures Outer(sys, st, t, z)
  {
  }

  lemma {:induction false} UmMbCalm(sys: Sys, st: State, t: Tid, z: State)
    requires t in st.ts && st.ts[t].refs >= 0 && RetFine(st.ts[t]) && UmMb(st, t, z)
    ensures Calm(sys, st, t, z)
  {
    UmMbOuter(sys, st, t, z);
    NoneStored();
    hide Outer, CountStored;
  }

  lemma {:induction false} UmSumOuter(sys: Sys, st: State, t: Tid, z: State)
    requires t in st.ts && RetFine(st.ts[t]) && UmSum(sys, st, t, z)
    ensures Outer(sys, st, t, z)
  {
    hide ReadCnt;
  }

  lemma {:induction false} UmSumEff(v: Vis, w: bool, p: bool, k: Task, j: Task)
    requires k.pc.USum? && (j.pc.USum? || j.pc.UBusy?) && j.refs == k.refs && j.rcu == k.rcu && j.buf == k.buf
    ensures Eff(v, w, p, k, j)
  {
    NoneStored();
    hide CountStored;
  }

  lemma {:induction false} UmSumCalm(sys: Sys, st: State, t: Tid, z: State)
    requires t in st.ts && st.ts[t].refs >= 0 && RetFine(st.ts[t]) && UmSum(sys, st, t, z)
    ensures Calm(sys, st, t, z)
  {
    UmSumOuter(sys, st, t, z);
    hide Outer, Eff, ViaPwd, Waited, ReadCnt;
    UmSumEff(st.vis, Waited(st, t), ViaPwd(sys, st), st.ts[t], z.ts[t]);
  }

  lemma {:induction false} UmBusyOuter(sys: Sys, st: State, t: Tid, z: State)
    requires t in st.ts && RetFine(st.ts[t]) && UmBusy(st, t, z)
    ensures Outer(sys, st, t, z)
  {
    DrainIs(st, t, UnlockStores(st, t));
    hide UnlockStores, Drained;
  }

  lemma {:induction false} UmBusyEff(v: Vis, w: bool, p: bool, k: Task, j: Task)
    requires k.pc.UBusy? && (j.pc.UTree? || j.pc.PEnter?) && j.refs == k.refs && j.rcu == k.rcu
    requires j.buf == k.buf || j.buf == []
    ensures Eff(v, w, p, k, j)
  {
    NoneStored();
    hide CountStored;
  }

  lemma {:induction false} UmBusyCalm(sys: Sys, st: State, t: Tid, z: State)
    requires t in st.ts && st.ts[t].refs >= 0 && RetFine(st.ts[t]) && UmBusy(st, t, z)
    ensures Calm(sys, st, t, z)
  {
    UmBusyOuter(sys, st, t, z);
    DrainIs(st, t, UnlockStores(st, t));
    hide Outer, Eff, ViaPwd, Waited, UnlockStores, Drained;
    UmBusyEff(st.vis, Waited(st, t), ViaPwd(sys, st), st.ts[t], z.ts[t]);
  }

  lemma {:induction false} UmTreeOuter(sys: Sys, st: State, t: Tid, z: State)
    requires t in st.ts && RetFine(st.ts[t]) && UmTree(sys, st, t, z)
    ensures Outer(sys, st, t, z)
  {
  }

  lemma {:induction false} UmTreeCalm(sys: Sys, st: State, t: Tid, z: State)
    requires t in st.ts && st.ts[t].refs >= 0 && RetFine(st.ts[t]) && UmTree(sys, st, t, z)
    ensures Calm(sys, st, t, z)
  {
    UmTreeOuter(sys, st, t, z);
    NoneStored();
    hide Outer, CountStored;
  }

  lemma {:induction false} UmUnlockOuter(sys: Sys, st: State, t: Tid, z: State)
    requires t in st.ts && RetFine(st.ts[t]) && UmUnlock(st, t, z)
    ensures Outer(sys, st, t, z)
  {
    DrainIs(st, t, UnlockStores(st, t));
    hide UnlockStores, Drained;
  }

  lemma {:induction false} UmUnlockCalm(sys: Sys, st: State, t: Tid, z: State)
    requires t in st.ts && st.ts[t].refs >= 0 && RetFine(st.ts[t]) && UmUnlock(st, t, z)
    ensures Calm(sys, st, t, z)
  {
    UmUnlockOuter(sys, st, t, z);
    NoneStored();
    DrainIs(st, t, UnlockStores(st, t));
    hide Outer, CountStored, UnlockStores, Drained;
  }

  lemma {:induction false} NsPutOuter(sys: Sys, st: State, t: Tid, z: State)
    requires t in st.ts && RetFine(st.ts[t]) && NsPut(st, t, z)
    ensures Outer(sys, st, t, z)
  {
  }

  lemma {:induction false} NsPutCalm(sys: Sys, st: State, t: Tid, z: State)
    requires t in st.ts && st.ts[t].refs >= 0 && RetFine(st.ts[t]) && NsPut(st, t, z)
    ensures Calm(sys, st, t, z)
  {
    NsPutOuter(sys, st, t, z);
    NoneStored();
    hide Outer, CountStored;
  }

  lemma {:induction false} UmRetOuter(sys: Sys, st: State, t: Tid, z: State)
    requires t in st.ts && RetFine(st.ts[t]) && UmRet(st, t, z)
    ensures Outer(sys, st, t, z)
  {
  }

  lemma {:induction false} UmRetCalm(sys: Sys, st: State, t: Tid, z: State)
    requires t in st.ts && st.ts[t].refs >= 0 && RetFine(st.ts[t]) && UmRet(st, t, z)
    ensures Calm(sys, st, t, z)
  {
    UmRetOuter(sys, st, t, z);
    NoneStored();
    hide Outer, CountStored;
  }
  // ---- every step -------------------------------------------------------------------------------

  /** A step of t that is Calm, or one of the three others. */
  lemma {:induction false} StepCalm(sys: Sys, st: State, t: Tid, z: State)
    requires t in st.ts && st.ts[t].refs >= 0 && RetFine(st.ts[t]) && TaskStep(sys, st, t, z)
    ensures Calm(sys, st, t, z) || PutCleanup(st, t, z) || (t == sys.u && (NsUnlock(sys, st, t, z) || GpWait(st, t, z)))
  {
    hide Calm, RetFine, PutCleanup, NsUnlock, GpWait;
    hide PutEnter, PutFast, PutLock, PutMb, PutDec, PutSum, PutCheck, StartWalk, Lookup, Legit1, Legit2;
    hide LegitMb, Legit4, WalkLock;
    hide Flags, Use, HoldGet, Migrate, HoldPut, HoldDone, UmLock, UmMb, UmSum, UmBusy, UmTree, UmUnlock, NsPut, UmRet;
    if PutEnter(st, t, z) { PutEnterCalm(sys, st, t, z); }
    else if PutFast(sys, st, t, z) { PutFastCalm(sys, st, t, z); }
    else if PutLock(st, t, z) { PutLockCalm(sys, st, t, z); }
    else if PutMb(st, t, z) { PutMbCalm(sys, st, t, z); }
    else if PutDec(sys, st, t, z) { PutDecCalm(sys, st, t, z); }
    else if PutSum(sys, st, t, z) { PutSumCalm(sys, st, t, z); }
    else if PutCheck(st, t, z) { PutCheckCalm(sys, st, t, z); }
    else if StartWalk(st, t, z) { StartWalkCalm(sys, st, t, z); }
    else if Lookup(sys, st, t, z) { LookupCalm(sys, st, t, z); }
    else if Legit1(st, t, z) { Legit1Calm(sys, st, t, z); }
    else if Legit2(st, t, z) { Legit2Calm(sys, st, t, z); }
    else if LegitMb(st, t, z) { LegitMbCalm(sys, st, t, z); }
    else if Legit4(st, t, z) { Legit4Calm(sys, st, t, z); }
    else if WalkLock(st, t, z) { WalkLockCalm(sys, st, t, z); }
    else if Flags(st, t, z) { FlagsCalm(sys, st, t, z); }
    else if Use(st, t, z) { UseCalm(sys, st, t, z); }
    else if HoldGet(st, t, z) { HoldGetCalm(sys, st, t, z); }
    else if Migrate(sys, st, t, z) { MigrateCalm(sys, st, t, z); }
    else if HoldPut(st, t, z) { HoldPutCalm(sys, st, t, z); }
    else if HoldDone(st, t, z) { HoldDoneCalm(sys, st, t, z); }
    else if UmLock(sys, st, t, z) { UmLockCalm(sys, st, t, z); }
    else if UmMb(st, t, z) { UmMbCalm(sys, st, t, z); }
    else if UmSum(sys, st, t, z) { UmSumCalm(sys, st, t, z); }
    else if UmBusy(st, t, z) { UmBusyCalm(sys, st, t, z); }
    else if UmTree(sys, st, t, z) { UmTreeCalm(sys, st, t, z); }
    else if UmUnlock(st, t, z) { UmUnlockCalm(sys, st, t, z); }
    else if NsPut(st, t, z) { NsPutCalm(sys, st, t, z); }
    else if UmRet(st, t, z) { UmRetCalm(sys, st, t, z); }
  }
}
