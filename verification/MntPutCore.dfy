/** What a step of one task leaves to the others: the parts of the invariant that
    do not depend on which step it is. */
module MntPutCore {
  import opened Finite
  import opened MntPut
  import opened MntPutInv
  import opened MntPutBuf

  /** mount_lock stays as it is, or t takes or releases it. */
  ghost predicate LockMove(v: Vis, w: Vis, t: Tid) {
    || (w.lockv == v.lockv && w.seqv == v.seqv)
    || (v.lockv == NOBODY && w.lockv == t && w.seqv == v.seqv)
    || (v.lockv == t && w.lockv == NOBODY && w.seqv == v.seqv + 1 && v.seqv % 2 == 1)
  }

  /** t acts; the visible counters stay. */
  ghost predicate Core(sys: Sys, st: State, z: State, t: Tid) {
    && t in sys.tasks && z.ts.Keys == st.ts.Keys
    && (forall s {:trigger z.ts[s]} :: s in st.ts && s != t ==> z.ts[s] == st.ts[s])
    && z.vis.cntv == st.vis.cntv && z.vis.putv == st.vis.putv && LockMove(st.vis, z.vis, t)
    && (t != sys.u ==> z.nsref == st.nsref && z.nsput == st.nsput && z.uresult == st.uresult)
    && (st.uresult == Ok ==> z.uresult == Ok) && (z.nsref ==> st.nsref)
  }

  lemma {:induction false} OthersKeep(sys: Sys, st: State, z: State, t: Tid, s: Tid)
    requires Core(sys, st, z, t) && s in st.ts && s != t && s != NOBODY && TaskInv(sys, st, s)
    ensures TaskInv(sys, z, s)
  {
    hide BufOK, Net, UserOK, WalkerOK, HolderOK, Slow, NoHash, HashDown;
  }

  lemma {:induction false} CoreShape(sys: Sys, st: State, z: State, t: Tid)
    requires Shape(sys, st) && Core(sys, st, z, t)
    ensures Shape(sys, z)
  {
  }

  lemma {:induction false} CoreTasks(sys: Sys, st: State, z: State, t: Tid)
    requires Shape(sys, st) && Core(sys, st, z, t) && Tasks(sys, st) && TaskInv(sys, z, t)
    ensures Tasks(sys, z)
  {
    hide TaskInv;
    forall s | s in sys.tasks ensures TaskInv(sys, z, s) {
      if s != t { assert TaskInv(sys, st, s); OthersKeep(sys, st, z, t, s); }
    }
  }

  lemma {:induction false} CoreCounted(sys: Sys, st: State, z: State, t: Tid)
    requires Shape(sys, st) && Core(sys, st, z, t) && Counted(sys, st) && t in st.ts && t in z.ts
    requires Shown(sys, z.nsref, t, z.ts[t]) == Shown(sys, st.nsref, t, st.ts[t])
    ensures Counted(sys, z)
  {
    hide Net, Sum;
    SumCongruent(sys.tasks, VisFn(sys, st), VisFn(sys, z));
  }

  // ---- quiet tasks stay quiet -------------------------------------------------------------------

  /** Why a quiet task t stays quiet: somebody is inside mount_lock, or the mount
      cannot be found any more and is flagged. */
  ghost predicate Gone(sys: Sys, st: State) {
    !st.vis.m.hashed && !ViaPwd(sys, st) && (st.vis.m.sync || st.vis.m.doomed)
  }

  ghost predicate Amb(sys: Sys, st: State, t: Tid) {
    (st.vis.seqv % 2 == 1 && st.vis.lockv != t && st.vis.lockv != NOBODY) || Gone(sys, st)
  }

  ghost predicate QuietKeeps(sys: Sys, st: State, z: State, t: Tid)
    requires t in st.ts && t in z.ts
  {
    Amb(sys, st, t) && Quiet(st.vis.seqv, st.ts[t]) ==> Quiet(z.vis.seqv, z.ts[t])
  }

  /** ... and does not begin to touch a mount that is gone. */
  ghost predicate TouchKeeps(sys: Sys, st: State, z: State, t: Tid)
    requires t in st.ts && t in z.ts
  {
    Gone(sys, st) && Quiet(st.vis.seqv, st.ts[t]) && Touching(z.ts[t].pc) ==>
      Touching(st.ts[t].pc) && z.gpfree.wait == st.gpfree.wait
  }

  lemma {:induction false} QuietLater(seqv: nat, later: nat, k: Task)
    requires Quiet(seqv, k) && seqv <= later
    ensures Quiet(later, k)
  {
  }

  lemma {:induction false} CoreQuiet(sys: Sys, st: State, z: State, t: Tid, x: Tid)
    requires Shape(sys, st) && Core(sys, st, z, t) && AllQuiet(sys, st, x)
    requires t != x ==> QuietKeeps(sys, st, z, t) && Amb(sys, st, t)
    ensures AllQuiet(sys, z, x)
  {
    hide Quiet, Amb;
    forall s | s in z.ts && s != x ensures Quiet(z.vis.seqv, z.ts[s]) {
      assert Quiet(st.vis.seqv, st.ts[s]);
      if s != t { QuietLater(st.vis.seqv, z.vis.seqv, st.ts[s]); }
    }
  }

  /** A sum in progress means somebody is inside mount_lock. */
  lemma {:induction false} SumAmb(sys: Sys, st: State, t: Tid, x: Tid)
    requires Shape(sys, st) && TaskInv(sys, st, x) && x != t && x in sys.tasks && Odd(sys, st.ts[x].pc)
    ensures Amb(sys, st, t)
  {
    hide BufOK, Net, UserOK, WalkerOK, HolderOK, ViaPwd, SeqShape, NoHash, HashDown;
  }

  lemma {:induction false} SameReads(v: Vis, w: Vis, b: seq<Store>, n: nat)
    requires v.cntv == w.cntv && v.putv == w.putv && n <= |v.cntv| == |v.putv|
    ensures PutsRead(v, b, n) == PutsRead(w, b, n) && GetsLeft(v, b, n) == GetsLeft(w, b, n)
  {
    PutsGrow(v, b, w, b, n);
    PutsGrow(w, b, v, b, n);
    GetsGrow(v, b, w, b, n);
    GetsGrow(w, b, v, b, n);
  }

  lemma {:induction false} CoreSum(sys: Sys, st: State, z: State, t: Tid, x: Tid)
    requires Shape(sys, st) && Core(sys, st, z, t) && x in sys.tasks && x != t && TaskInv(sys, st, x)
    requires SumOK(sys, st, x) && QuietKeeps(sys, st, z, t)
    ensures |z.vis.cntv| == |z.vis.putv| == sys.ncpu && SumOK(sys, z, x)
  {
    hide TaskInv, QuietKeeps, AllQuiet, PutsRead, GetsLeft, LockMove;
    var k := st.ts[x];
    if Odd(sys, k.pc) {
      SumAmb(sys, st, t, x);
      if AllQuiet(sys, st, x) { CoreQuiet(sys, st, z, t, x); }
    }
    if k.pc == PSum || k.pc == USum {
      if k.ci < sys.ncpu { SameReads(st.vis, z.vis, k.buf, k.ci); }
      else { SameReads(st.vis, z.vis, k.buf, k.ci - sys.ncpu); }
    }
  }

  lemma {:induction false} CoreSums(sys: Sys, st: State, z: State, t: Tid)
    requires Shape(sys, st) && Core(sys, st, z, t) && Tasks(sys, st) && Sums(sys, st) && QuietKeeps(sys, st, z, t)
    requires SumOK(sys, z, t)
    ensures Sums(sys, z)
  {
    hide TaskInv, SumOK, QuietKeeps;
    forall x | x in sys.tasks ensures SumOK(sys, z, x) {
      if x != t {
        assert TaskInv(sys, st, x) && SumOK(sys, st, x);
        CoreSum(sys, st, z, t, x);
      }
    }
  }

  // ---- doomed, freed, unmounted -----------------------------------------------------------------------

  /** t acts, and neither dooms, cleans up nor decides the umount. */
  ghost predicate Still(sys: Sys, st: State, z: State, t: Tid) {
    && Core(sys, st, z, t) && t in st.ts && z.vis.m == st.vis.m && z.uresult == st.uresult && z.cleaner == st.cleaner
    && z.gpfree.on == st.gpfree.on
    && (z.gpfree.wait == st.gpfree.wait || z.gpfree.wait == st.gpfree.wait - {t})
    && st.ts[t].pc != PCleanup && z.ts[t].pc != PCleanup
  }

  /** A doomed mount is gone. */
  lemma {:induction false} DoomedGone(sys: Sys, st: State)
    requires Shape(sys, st) && FlagsOK(sys, st) && DoomedOK(sys, st) && st.vis.m.doomed
    ensures Gone(sys, st)
  {
    assert Quiet(st.vis.seqv, st.ts[sys.u]) || st.ts[sys.u].pc == PCleanup;
    forall h | h in sys.holders && At(st, h, HIdle) ensures st.ts[h].refs == 0 {
      assert Quiet(st.vis.seqv, st.ts[h]) || st.ts[h].pc == PCleanup;
    }
  }

  /** After a synchronous umount nothing but the umounter can be disturbed. */
  lemma {:induction false} SyncAmb(sys: Sys, st: State, t: Tid)
    requires Shape(sys, st) && FlagsOK(sys, st) && SyncOK(sys, st) && TaskInv(sys, st, sys.u) && st.uresult == Ok
    requires !sys.lazy && t != sys.u
    ensures Amb(sys, st, t)
  {
    hide BufOK, Net, UserOK, WalkerOK, HolderOK, SeqShape, NoHash, HashDown;
    forall h | h in sys.holders && At(st, h, HIdle) ensures st.ts[h].refs == 0 { assert Quiet(st.vis.seqv, st.ts[h]); }
  }

  lemma {:induction false} StillDoomed(sys: Sys, st: State, z: State, t: Tid)
    requires Shape(sys, st) && FlagsOK(sys, st) && DoomedOK(sys, st) && Still(sys, st, z, t)
    requires QuietKeeps(sys, st, z, t)
    ensures DoomedOK(sys, z)
  {
    hide Quiet, Gone, FlagsOK;
    if st.vis.m.doomed {
      DoomedGone(sys, st);
      assert Quiet(st.vis.seqv, st.ts[t]);
      forall s | s in z.ts ensures Quiet(z.vis.seqv, z.ts[s]) || (z.ts[s].pc == PCleanup && z.ts[s].refs == 0) {
        if s != t {
          assert z.ts[s] == st.ts[s];
          if Quiet(st.vis.seqv, st.ts[s]) { QuietLater(st.vis.seqv, z.vis.seqv, st.ts[s]); }
        }
      }
    }
  }

  lemma {:induction false} StillFree(sys: Sys, st: State, z: State, t: Tid)
    requires Shape(sys, st) && FlagsOK(sys, st) && DoomedOK(sys, st) && FreeOK(st) && Still(sys, st, z, t)
    requires TouchKeeps(sys, st, z, t)
    ensures FreeOK(z)
  {
    hide Quiet, Gone, FlagsOK, LockMove, Touching;
    if st.cleaner != NOBODY {
      DoomedGone(sys, st);
      assert Quiet(st.vis.seqv, st.ts[t]);
      forall s | s in z.ts ensures z.ts[s].pc != PCleanup && (Touching(z.ts[s].pc) ==> s in z.gpfree.wait) {
        if s != t { assert z.ts[s] == st.ts[s]; }
        assert st.ts[s].pc != PCleanup;
      }
    }
  }

  lemma {:induction false} StillSync(sys: Sys, st: State, z: State, t: Tid)
    requires Shape(sys, st) && FlagsOK(sys, st) && SyncOK(sys, st) && Tasks(sys, st) && Still(sys, st, z, t)
    requires QuietKeeps(sys, st, z, t)
    ensures SyncOK(sys, z)
  {
    hide QuietKeeps, TaskInv, FlagsOK, AllQuiet, Amb, LockMove;
    if st.uresult == Ok && !sys.lazy {
      assert TaskInv(sys, st, sys.u);
      if t != sys.u { SyncAmb(sys, st, t); }
      CoreQuiet(sys, st, z, t, sys.u);
    }
  }

  /** What a step of t has to show for itself. */
  ghost predicate Does(sys: Sys, st: State, z: State, t: Tid) {
    && Still(sys, st, z, t) && TaskInv(sys, z, t) && t in z.ts
    && Shown(sys, z.nsref, t, z.ts[t]) == Shown(sys, st.nsref, t, st.ts[t])
    && QuietKeeps(sys, st, z, t) && TouchKeeps(sys, st, z, t)
  }

  lemma {:induction false} StillKeeps(sys: Sys, st: State, z: State, t: Tid)
    requires Inv(sys, st) && Does(sys, st, z, t) && FlagsOK(sys, z) && |z.vis.cntv| == |z.vis.putv| == sys.ncpu
    requires SumOK(sys, z, t)
    ensures Inv(sys, z)
  {
    hide Tasks, TaskInv, FlagsOK, Counted, Sums, SumOK, DoomedOK, FreeOK, SyncOK, QuietKeeps, TouchKeeps, Shown;
    CoreShape(sys, st, z, t);
    CoreTasks(sys, st, z, t);
    CoreCounted(sys, st, z, t);
    CoreSums(sys, st, z, t);
    StillDoomed(sys, st, z, t);
    StillFree(sys, st, z, t);
    StillSync(sys, st, z, t);
  }

  /** Steps of other tasks do not concern the umounter. */
  lemma {:induction false} OtherFlags(sys: Sys, st: State, z: State, t: Tid)
    requires FlagsOK(sys, st) && Still(sys, st, z, t) && t != sys.u
    ensures FlagsOK(sys, z)
  {
  }
}
