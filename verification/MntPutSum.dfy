/** mnt_get_count() with the puts read first: what it returns is at least what its
    caller holds, and more unless nobody else can still hold a reference. */
module MntPutSum {
  import opened Finite
  import opened MntPut
  import opened MntPutInv
  import opened MntPutBuf
  import opened MntPutCore
  import opened MntPutSteps

  /** Under mount_lock, who is not quiet shows a reference. */
  lemma {:induction false} LoudShows(sys: Sys, nsref: bool, nsput: bool, v: Vis, ures: Outcome, s: Tid, k: Task)
    requires RecInv(sys, nsref, nsput, v, ures, s, k) && v.seqv % 2 == 1 && v.lockv != s && k.pc != PCleanup
    ensures Shown(sys, nsref, s, k) >= 0
    ensures !Quiet(v.seqv, k) || (s == sys.u && nsref) ==> Shown(sys, nsref, s, k) >= 1
  {
    hide BufOK, Net, SeqShape, NoHash, HashDown;
  }

  /** Between the passes: the visible count with the summer's own stores. */
  lemma {:induction false} InstantAt(sys: Sys, st: State, t: Tid)
    requires Shape(sys, st) && Tasks(sys, st) && Counted(sys, st) && DoomedOK(sys, st) && !st.vis.m.doomed
    requires t in sys.tasks && st.vis.lockv == t && st.vis.seqv % 2 == 1
    ensures AtLeast(sys, st, t, SumSeq(st.vis.cntv) + Net(st.ts[t].buf))
  {
    hide Net, TaskInv, Shown, Quiet, DoomedOK, Sum, SumSeq;
    var f := VisFn(sys, st);
    SumSplit(sys.tasks, f, t);
    forall s | s in sys.tasks - {t} ensures 0 <= f(s) && (Loud(sys, st, s) ==> f(s) >= 1) {
      assert TaskInv(sys, st, s);
      ShownOf(sys, st, t, s);
    }
    SumNonNegative(sys.tasks - {t}, f);
    ShownIs(sys, st, t);
    if !AllQuiet(sys, st, t) {
      var s := FindLoud(sys, st, t);
      SumAtLeast(sys.tasks - {t}, f, s);
    }
  }

  ghost predicate Loud(sys: Sys, st: State, s: Tid) {
    s in st.ts && (!Quiet(st.vis.seqv, st.ts[s]) || (s == sys.u && st.nsref))
  }

  lemma {:induction false} FindLoud(sys: Sys, st: State, t: Tid) returns (s: Tid)
    requires Shape(sys, st) && !AllQuiet(sys, st, t)
    ensures s in sys.tasks - {t} && Loud(sys, st, s)
  {
    hide Quiet;
    if t != sys.u && st.nsref { s := sys.u; }
    else { s :| s in st.ts && s != t && !Quiet(st.vis.seqv, st.ts[s]); }
  }

  lemma {:induction false} Instant(sys: Sys, st: State, t: Tid)
    requires Inv(sys, st) && t in sys.tasks && t in st.ts && (st.ts[t].pc == PSum || st.ts[t].pc == USum)
    ensures AtLeast(sys, st, t, SumSeq(st.vis.cntv) + Net(st.ts[t].buf))
  {
    hide Net, TaskInv, SumOK, FlagsOK, FreeOK, SyncOK, Counted, AtLeast;
    Actor(sys, st, t);
    Facts(sys, st, t);
    NotDoomed(sys, st, t);
    InstantAt(sys, st, t);
  }

  lemma {:induction false} ShownIs(sys: Sys, st: State, t: Tid)
    requires t in st.ts
    ensures VisFn(sys, st)(t) == Own(sys, st.nsref, t, st.ts[t]) - Net(st.ts[t].buf)
  {
  }

  lemma {:induction false} NotDoomed(sys: Sys, st: State, t: Tid)
    requires DoomedOK(sys, st) && t in st.ts && (st.ts[t].pc == PSum || st.ts[t].pc == USum || st.ts[t].pc == PCheck)
    ensures !st.vis.m.doomed
  {
    assert !Quiet(st.vis.seqv, st.ts[t]);
  }

  lemma {:induction false} ShownOf(sys: Sys, st: State, t: Tid, s: Tid)
    requires Shape(sys, st) && DoomedOK(sys, st) && !st.vis.m.doomed && TaskInv(sys, st, s) && s != t
    requires st.vis.lockv == t && st.vis.seqv % 2 == 1
    ensures VisFn(sys, st)(s) >= 0 && (Loud(sys, st, s) ==> VisFn(sys, st)(s) >= 1)
  {
    hide RecInv, Shown, Quiet;
    LoudShows(sys, st.nsref, st.nsput, st.vis, st.uresult, s, st.ts[s]);
  }

  // ---- one read ---------------------------------------------------------------------------------------

  lemma {:induction false} MoreAtLeast(sys: Sys, st: State, t: Tid, n: int, m: int)
    requires t in st.ts && AtLeast(sys, st, t, n) && n <= m
    ensures AtLeast(sys, st, t, m)
  {
    hide AllQuiet;
  }

  /** The total a read leaves, or the last put read, gives. */
  lemma {:induction false} ReadTotal(sys: Sys, st: State, t: Tid)
    requires Inv(sys, st) && t in sys.tasks && t in st.ts && (st.ts[t].pc == PSum || st.ts[t].pc == USum)
    requires st.ts[t].ci < 2 * sys.ncpu
    ensures |st.vis.cntv| == |st.vis.putv| == sys.ncpu
    ensures
      var k := st.ts[t];
      var acc := k.acc + ReadCnt(st.vis, k.buf, k.ci);
      if k.ci + 1 < sys.ncpu then acc >= -PutsRead(st.vis, k.buf, k.ci + 1)
      else AtLeast(sys, st, t, acc + GetsLeft(st.vis, k.buf, k.ci + 1 - sys.ncpu))
  {
    hide Net, TaskInv, FlagsOK, FreeOK, SyncOK, Counted, DoomedOK, SeenPuts, SeenGets, AtLeast;
    Actor(sys, st, t);
    Facts(sys, st, t);
    var k := st.ts[t];
    var acc := k.acc + ReadCnt(st.vis, k.buf, k.ci);
    if k.ci + 1 == sys.ncpu {
      Instant(sys, st, t);
      SplitSum(st.vis, k.buf);
      MoreAtLeast(sys, st, t, SumSeq(st.vis.cntv) + Net(k.buf), acc + GetsLeft(st.vis, k.buf, 0));
    }
  }

  /** The record after a read, or at the end. */
  ghost function AfterRead(sys: Sys, v: Vis, k: Task, next: Label): (j: Task)
    requires |v.putv| == |v.cntv| == sys.ncpu
  {
    if k.ci < 2 * sys.ncpu then k.(acc := k.acc + ReadCnt(v, k.buf, k.ci), ci := k.ci + 1) else k.(pc := next)
  }

  lemma {:induction false} SumRec(sys: Sys, nsref: bool, nsput: bool, v: Vis, ures: Outcome, t: Tid, k: Task,
      next: Label)
    requires |v.putv| == |v.cntv| == sys.ncpu && RecInv(sys, nsref, nsput, v, ures, t, k)
    requires (k.pc == PSum && next == PCheck) || (k.pc == USum && next == UBusy)
    ensures var j := AfterRead(sys, v, k, next);
            RecInv(sys, nsref, nsput, v, ures, t, j) && Shown(sys, nsref, t, j) == Shown(sys, nsref, t, k)
  {
    hide BufOK, Net, SeqShape, NoHash, HashDown, ReadCnt;
    LabelStep(sys, nsref, nsput, nsput, v, ures, t, k, AfterRead(sys, v, k, next));
  }

  lemma {:induction false} SumForm(sys: Sys, st: State, t: Tid, next: Label, z: State)
    requires SumStep(sys, st, t, next, z)
    ensures z == SetTask(st, t, AfterRead(sys, st.vis, st.ts[t], next))
  {
  }

  lemma {:induction false} SumDoes(sys: Sys, st: State, t: Tid, next: Label, z: State)
    requires Ready(sys, st, t) && |st.vis.cntv| == |st.vis.putv| == sys.ncpu
    requires (At(st, t, PSum) && next == PCheck) || (At(st, t, USum) && next == UBusy)
    requires z == SetTask(st, t, AfterRead(sys, st.vis, st.ts[t], next))
    ensures Does(sys, st, z, t)
  {
    hide RecInv, ViaPwd, Net, Still, LabelOK, InCS, Odd, Slow, Shown, ReadCnt, FlagsOK;
    SumRec(sys, st.nsref, st.nsput, st.vis, st.uresult, t, st.ts[t], next);
    Stays(sys, st, z, t);
  }

  lemma {:induction false} SumFlags(sys: Sys, st: State, t: Tid, next: Label, z: State)
    requires FlagsOK(sys, st) && |st.vis.cntv| == |st.vis.putv| == sys.ncpu
    requires (At(st, t, PSum) && next == PCheck) || (At(st, t, USum) && next == UBusy)
    requires z == SetTask(st, t, AfterRead(sys, st.vis, st.ts[t], next))
    ensures FlagsOK(sys, z)
  {
    hide ReadCnt;
  }

  lemma {:induction false} SumSumOK(sys: Sys, st: State, t: Tid, next: Label, z: State)
    requires Inv(sys, st) && t in sys.tasks && t in st.ts
    requires (st.ts[t].pc == PSum && next == PCheck) || (st.ts[t].pc == USum && next == UBusy)
    requires |st.vis.cntv| == |st.vis.putv| == sys.ncpu && z == SetTask(st, t, AfterRead(sys, st.vis, st.ts[t], next))
    ensures SumOK(sys, z, t)
  {
    hide Inv, ReadCnt, AtLeast, TaskInv;
    Actor(sys, st, t);
    var k, j := st.ts[t], z.ts[t];
    if k.ci < 2 * sys.ncpu {
      ReadTotal(sys, st, t);
      if k.ci + 1 >= sys.ncpu { SameAtLeast(sys, st, z, t, j.acc + GetsLeft(st.vis, k.buf, j.ci - sys.ncpu)); }
    } else {
      assert GetsLeft(st.vis, k.buf, sys.ncpu) == 0;
      SameAtLeast(sys, st, z, t, k.acc);
    }
  }

  lemma {:induction false} SameAtLeast(sys: Sys, st: State, z: State, t: Tid, n: int)
    requires t in st.ts && AtLeast(sys, st, t, n) && t in z.ts && z == SetTask(st, t, z.ts[t])
    requires z.ts[t].refs == st.ts[t].refs
    ensures AtLeast(sys, z, t, n)
  {
    hide AllQuiet;
    if AllQuiet(sys, st, t) { SameQuiet(sys, st, z, t); }
  }

  lemma {:induction false} SameQuiet(sys: Sys, st: State, z: State, t: Tid)
    requires AllQuiet(sys, st, t) && t in st.ts && t in z.ts && z == SetTask(st, t, z.ts[t])
    ensures AllQuiet(sys, z, t)
  {
    hide Quiet;
    forall s | s in z.ts && s != t ensures Quiet(z.vis.seqv, z.ts[s]) { assert z.ts[s] == st.ts[s]; }
  }

  lemma {:induction false} SumKeeps(sys: Sys, st: State, t: Tid, next: Label, z: State)
    requires Inv(sys, st) && t in sys.tasks && SumStep(sys, st, t, next, z)
    requires (At(st, t, PSum) && next == PCheck) || (At(st, t, USum) && next == UBusy)
    ensures Inv(sys, z)
  {
    hide Inv, Does, FlagsOK, SumOK, AfterRead;
    GetReady(sys, st, t);
    SumForm(sys, st, t, next, z);
    SumDoes(sys, st, t, next, z);
    SumFlags(sys, st, t, next, z);
    SumSumOK(sys, st, t, next, z);
    StillKeeps(sys, st, z, t);
  }
}
