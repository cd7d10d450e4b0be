/** The other half of the reference count: a put that is not the last and an umount that
    is refused have met somebody, a walker that is turned away has met a writer of
    mount_lock or an umount. */
module MntPutExact {
  import opened Finite
  import opened MntPut
  import opened MntPutInv
  import opened MntPutBuf
  import opened MntPutSteps
  import opened MntPutSum
  import opened MntPutLock
  import opened MntPutDecide
  import opened MntPutFlush
  import opened MntPutTheorems

  // ---- alone ---------------------------------------------------------------------------------

  /** A counter store not visible yet. */
  ghost predicate CountStored(b: seq<Store>) { exists i {:trigger b[i]} :: 0 <= i < |b| && b[i].StCnt? }

  /** s has a reference, or its counting is not visible yet. */
  ghost predicate Counts(k: Task) { k.refs > 0 || CountStored(k.buf) }

  /** Nobody but t has anything to do with the count. */
  ghost predicate Alone(sys: Sys, st: State, t: Tid) {
    && (t != sys.u ==> !st.nsref)
    && forall s {:trigger st.ts[s]} :: s in st.ts && s != t ==> !Counts(st.ts[s])
  }

  /** Inside a sum, or with its result. */
  ghost predicate Summing(l: Label) { l.PSum? || l.USum? }

  ghost predicate Summed(l: Label) { l.PCheck? || l.UBusy? }

  /** The sum so far, if nobody interferes with it. */
  ghost predicate Exact(sys: Sys, st: State, t: Tid)
    requires t in st.ts && |st.vis.cntv| == |st.vis.putv| == sys.ncpu
  {
    var v, k := st.vis, st.ts[t];
    if Summing(k.pc) then
      && k.ci <= 2 * sys.ncpu
      && if k.ci < sys.ncpu then k.acc == -PutsRead(v, k.buf, k.ci)
         else k.acc + GetsLeft(v, k.buf, k.ci - sys.ncpu) == SumSeq(v.cntv) + Net(k.buf)
    else Summed(k.pc) ==> k.acc == Own(sys, st.nsref, t, k)
  }

  // ---- what the others leave alone ---------------------------------------------------------------

  ghost predicate SameCounts(v: Vis, w: Vis) { w.cntv == v.cntv && w.putv == v.putv }

  lemma {:induction false} NoCount(v: Vis, es: seq<Store>)
    requires !CountStored(es)
    ensures SameCounts(v, ApplyAll(v, es))
    decreases |es|
  {
    if es != [] {
      assert !es[0].StCnt?;
      forall i | 0 <= i < |es[1..]| ensures !es[1..][i].StCnt? { assert es[1..][i] == es[i + 1]; }
      NoCount(Apply(v, es[0]), es[1..]);
    }
  }

  ghost predicate Untouched(st: State, t: Tid, z: State) {
    t in st.ts && t in z.ts && z.ts[t] == st.ts[t] && SameCounts(st.vis, z.vis)
  }

  /** A step of somebody without references, while t has mount_lock. */
  lemma {:induction false} PutLeaves(sys: Sys, st: State, s: Tid, z: State, t: Tid)
    requires TaskInv(sys, st, s) && s != t && t in st.ts && !Counts(st.ts[s]) && st.vis.lockv == t && Put(sys, st, s, z)
    ensures Untouched(st, t, z)
  {
    hide BufOK, Net, SeqShape, NoHash, HashDown, CountStored, DropRef, RcuOut, Drained, PushAll, SumStep;
    hide ApplyAll, Shown, UnlockStores;
  }

  lemma {:induction false} WalkLeaves(sys: Sys, st: State, s: Tid, z: State, t: Tid)
    requires TaskInv(sys, st, s) && s != t && t in st.ts && !Counts(st.ts[s]) && st.vis.lockv == t
    requires s in sys.walkers && sys.Valid() && Walk(sys, st, s, z)
    ensures Untouched(st, t, z)
  {
    hide BufOK, Net, SeqShape, NoHash, HashDown, CountStored, Drained, Lock, ApplyAll, ViaPwd, Shown, UnlockStores;
    hide UserOK, HolderOK, Odd, Slow;
  }

  lemma {:induction false} HoldLeaves(sys: Sys, st: State, s: Tid, z: State, t: Tid)
    requires TaskInv(sys, st, s) && s != t && t in st.ts && !Counts(st.ts[s])
    requires s in sys.holders && sys.Valid() && Hold(sys, st, s, z)
    ensures Untouched(st, t, z)
  {
    NoCount(st.vis, st.ts[s].buf);
    assert st.ts[s].buf + [] == st.ts[s].buf;
    hide BufOK, Net, SeqShape, NoHash, HashDown, ApplyAll, Shown;
  }

  lemma {:induction false} UserLeaves(sys: Sys, st: State, s: Tid, z: State)
    requires TaskInv(sys, st, s) && s == sys.u && Umount(sys, st, s, z)
    ensures Counts(st.ts[s])
  {
    hide BufOK, Net, SeqShape, NoHash, HashDown, ApplyAll, Shown, WalkerOK, HolderOK;
    hide DrainedAll, SumStep, Drained, PushAll, UnlockStores, CountStored;
  }

  lemma {:induction false} FlushLeaves(st: State, s: Tid, z: State, t: Tid)
    requires s != t && t in st.ts && s in st.ts && !Counts(st.ts[s]) && Flush(st, s, z)
    ensures Untouched(st, t, z)
  {
    hide Remove;
  }

  /** One step of any task but t, or of none. */
  lemma {:induction false} OthersLeave(sys: Sys, st: State, t: Tid, s: Tid, z: State)
    requires Inv(sys, st) && t in st.ts && s in sys.tasks && s != t && Alone(sys, st, t) && st.vis.lockv == t
    requires TaskStep(sys, st, s, z) || Flush(st, s, z)
    ensures Untouched(st, t, z)
  {
    hide Inv, Put, Walk, Hold, Umount, Flush, Counts, TaskInv;
    Actor(sys, st, s);
    SysOf(sys, st);
    if Flush(st, s, z) { FlushLeaves(st, s, z, t); }
    else if Put(sys, st, s, z) { PutLeaves(sys, st, s, z, t); }
    else if s in sys.walkers && Walk(sys, st, s, z) { WalkLeaves(sys, st, s, z, t); }
    else if s in sys.holders && Hold(sys, st, s, z) { HoldLeaves(sys, st, s, z, t); }
    else { UserLeaves(sys, st, s, z); }
  }

  lemma {:induction false} SysOf(sys: Sys, st: State)
    requires Inv(sys, st)
    ensures sys.Valid() && st.ts.Keys == sys.tasks && |st.vis.cntv| == |st.vis.putv| == sys.ncpu
  {
    hide Tasks, FlagsOK, Counted, Sums, DoomedOK, FreeOK, SyncOK;
  }

  /** In the sum, or with its result, t has mount_lock. */
  lemma {:induction false} SumLocked(sys: Sys, st: State, t: Tid)
    requires TaskInv(sys, st, t) && (Summing(st.ts[t].pc) || Summed(st.ts[t].pc))
    ensures st.vis.lockv == t && st.ts[t].cpu < sys.ncpu
    ensures forall i {:trigger st.ts[t].buf[i]} :: 0 <= i < |st.ts[t].buf| ==> Unit(sys.ncpu, st.ts[t].buf[i])
  {
    hide Net, SeqShape, NoHash, HashDown, UserOK, WalkerOK, HolderOK, Shown;
  }

  // ---- the sum stays exact ------------------------------------------------------------------------

  /** The counters, and what t sees of them. */
  ghost predicate Seen(v: Vis, b: seq<Store>, w: Vis, a: seq<Store>) {
    && |v.cntv| == |v.putv| == |w.cntv| == |w.putv|
    && SumSeq(w.cntv) + Net(a) == SumSeq(v.cntv) + Net(b)
    && (forall c {:trigger SeenPuts(w, a, c)} :: 0 <= c < |v.putv| ==> SeenPuts(v, b, c) == SeenPuts(w, a, c))
    && (forall c {:trigger SeenGets(w, a, c)} :: 0 <= c < |v.putv| ==> SeenGets(v, b, c) == SeenGets(w, a, c))
  }

  lemma {:induction false} SeenSums(v: Vis, b: seq<Store>, w: Vis, a: seq<Store>, n: nat)
    requires Seen(v, b, w, a) && n <= |v.cntv|
    ensures PutsRead(v, b, n) == PutsRead(w, a, n) && GetsLeft(v, b, n) == GetsLeft(w, a, n)
  {
    hide SeenPuts, SeenGets;
    PutsGrow(v, b, w, a, n);
    PutsGrow(w, a, v, b, n);
    GetsGrow(v, b, w, a, n);
    GetsGrow(w, a, v, b, n);
  }

  lemma {:induction false} SameSeen(v: Vis, w: Vis, b: seq<Store>)
    requires SameCounts(v, w) && |v.cntv| == |v.putv|
    ensures Seen(v, b, w, b)
  {
  }

  lemma {:induction false} ApplyNet(v: Vis, e: Store)
    requires Unit(|v.cntv|, e) && |v.cntv| == |v.putv|
    ensures SumSeq(Apply(v, e).cntv) == SumSeq(v.cntv) + D(e)
  {
    if e.StCnt? { SumSeqUpdate(v.cntv, e.c, v.cntv[e.c] + e.d); }
  }

  lemma {:induction false} FlushSeesSame(v: Vis, b: seq<Store>, i: nat)
    requires |v.cntv| == |v.putv| && i < |b| && Unit(|v.cntv|, b[i])
    ensures Seen(v, b, Apply(v, b[i]), Remove(b, i))
  {
    hide SeenPuts, SeenGets, Apply, Remove, Unit;
    ApplySize(v, b[i]);
    forall c | 0 <= c < |v.cntv|
      ensures SeenPuts(v, b, c) == SeenPuts(Apply(v, b[i]), Remove(b, i), c)
      ensures SeenGets(v, b, c) == SeenGets(Apply(v, b[i]), Remove(b, i), c)
    { FlushSeen(v, b, i, c); }
    NetRemove(b, i);
    ApplyNet(v, b[i]);
  }

  /** The record is the same but for its buffer. */
  lemma {:induction false} ExactSeen(sys: Sys, st: State, t: Tid, z: State)
    requires t in st.ts && t in z.ts && |st.vis.cntv| == |st.vis.putv| == sys.ncpu && Exact(sys, st, t)
    requires z.ts[t] == st.ts[t].(buf := z.ts[t].buf) && Seen(st.vis, st.ts[t].buf, z.vis, z.ts[t].buf)
    requires t == sys.u ==> z.nsref == st.nsref
    ensures Exact(sys, z, t)
  {
    hide SeenPuts, SeenGets, Seen, Net;
    var k := st.ts[t];
    assert |z.vis.cntv| == |z.vis.putv| == sys.ncpu
        && SumSeq(z.vis.cntv) + Net(z.ts[t].buf) == SumSeq(st.vis.cntv) + Net(k.buf)
      by { SeenSizes(st.vis, k.buf, z.vis, z.ts[t].buf); }
    if Summing(k.pc) {
      if k.ci < sys.ncpu { SeenSums(st.vis, k.buf, z.vis, z.ts[t].buf, k.ci); }
      else { SeenSums(st.vis, k.buf, z.vis, z.ts[t].buf, k.ci - sys.ncpu); }
    }
  }

  lemma {:induction false} SeenSizes(v: Vis, b: seq<Store>, w: Vis, a: seq<Store>)
    requires Seen(v, b, w, a)
    ensures |w.cntv| == |w.putv| == |v.cntv| && SumSeq(w.cntv) + Net(a) == SumSeq(v.cntv) + Net(b)
  {
  }

  /** Alone, the visible count with one's own stores is what one has. */
  lemma {:induction false} AloneCount(sys: Sys, st: State, t: Tid)
    requires Inv(sys, st) && t in sys.tasks && t in st.ts && Alone(sys, st, t)
    ensures SumSeq(st.vis.cntv) + Net(st.ts[t].buf) == Own(sys, st.nsref, t, st.ts[t])
  {
    hide Net, Tasks, FlagsOK, Sums, DoomedOK, FreeOK, SyncOK, SumSeq, Sum;
    var f := VisFn(sys, st);
    SumSplit(sys.tasks, f, t);
    forall s | s in sys.tasks - {t} ensures f(s) == 0 {
      assert !Counts(st.ts[s]);
      RefsPositive(sys, st, s);
      NoCountNet(st.ts[s].buf);
    }
    AllZero(sys.tasks - {t}, f);
  }

  lemma {:induction false} AllZero(S: set<Tid>, f: Tid -> int)
    requires forall x :: x in S ==> f(x) == 0
    ensures Sum(S, f) == 0
    decreases |S|
  {
    if S != {} {
      var x := Pick(S);
      SumSplit(S, f, x);
      AllZero(S - {x}, f);
    }
  }

  lemma {:induction false} RefsPositive(sys: Sys, st: State, s: Tid)
    requires Inv(sys, st) && s in sys.tasks
    ensures s in st.ts && st.ts[s].refs >= 0
  {
    hide Inv, BufOK, Shown, LockTask, FlagTask;
    Actor(sys, st, s);
  }

  lemma {:induction false} NoCountNet(b: seq<Store>)
    requires !CountStored(b)
    ensures Net(b) == 0
    decreases |b|
  {
    if b != [] {
      assert !b[0].StCnt?;
      forall i | 0 <= i < |b[1..]| ensures !b[1..][i].StCnt? { assert b[1..][i] == b[i + 1]; }
      NoCountNet(b[1..]);
    }
  }

  // ---- one step ---------------------------------------------------------------------------------------

  ghost predicate InZone(l: Label) { Summing(l) || Summed(l) }

  /** What somebody else's step leaves of t: everything but its buffer. */
  ghost predicate OnlyBuffer(sys: Sys, st: State, t: Tid, z: State) {
    t in st.ts && t in z.ts && z.ts[t] == st.ts[t].(buf := z.ts[t].buf) && (t == sys.u ==> z.nsref == st.nsref)
  }

  lemma {:induction false} PutElse1(sys: Sys, st: State, s: Tid, z: State, t: Tid)
    requires s != t && t in st.ts
    requires PutEnter(st, s, z) || PutLock(st, s, z) || PutMb(st, s, z) || PutSum(sys, st, s, z) || PutCleanup(st, s, z)
    ensures OnlyBuffer(sys, st, t, z)
  {
    hide ReadCnt, Readers;
  }

  lemma {:induction false} PutElse2(sys: Sys, st: State, s: Tid, z: State, t: Tid)
    requires s != t && t in st.ts
    requires PutFast(sys, st, s, z)
    ensures OnlyBuffer(sys, st, t, z)
  {
    hide ApplyAll, PutStores, Waited;
  }

  lemma {:induction false} PutElse3(sys: Sys, st: State, s: Tid, z: State, t: Tid)
    requires s != t && t in st.ts
    requires PutDec(sys, st, s, z) || PutCheck(st, s, z)
    ensures OnlyBuffer(sys, st, t, z)
  {
    hide ApplyAll, PutStores, UnlockStores;
  }

  lemma {:induction false} PutElse(sys: Sys, st: State, s: Tid, z: State, t: Tid)
    requires s != t && t in st.ts && Put(sys, st, s, z)
    ensures OnlyBuffer(sys, st, t, z)
  {
    hide OnlyBuffer, PutEnter, PutFast, PutLock, PutMb, PutDec, PutSum, PutCheck, PutCleanup;
    if PutFast(sys, st, s, z) { PutElse2(sys, st, s, z, t); }
    else if PutDec(sys, st, s, z) || PutCheck(st, s, z) { PutElse3(sys, st, s, z, t); }
    else { PutElse1(sys, st, s, z, t); }
  }

  lemma {:induction false} WalkElse1(sys: Sys, st: State, s: Tid, z: State, t: Tid)
    requires s != t && t in st.ts
    requires StartWalk(st, s, z) || Lookup(sys, st, s, z) || Legit1(st, s, z) || Legit2(st, s, z)
    ensures OnlyBuffer(sys, st, t, z)
  {
    hide ViaPwd;
  }

  lemma {:induction false} WalkElse2(sys: Sys, st: State, s: Tid, z: State, t: Tid)
    requires s != t && t in st.ts
    requires LegitMb(st, s, z) || Legit4(st, s, z) || WalkLock(st, s, z)
    ensures OnlyBuffer(sys, st, t, z)
  {
    hide ApplyAll, Waited;
  }

  lemma {:induction false} UseElse(sys: Sys, st: State, s: Tid, z: State, t: Tid)
    requires s != t && t in st.ts
    requires Use(st, s, z)
    ensures OnlyBuffer(sys, st, t, z)
  {
    hide ApplyAll, Waited;
  }

  lemma {:induction false} WalkElse3(sys: Sys, st: State, s: Tid, z: State, t: Tid)
    requires s != t && t in st.ts
    requires Flags(st, s, z)
    ensures OnlyBuffer(sys, st, t, z)
  {
    hide ApplyAll, PutStores, UnlockStores;
  }

  lemma {:induction false} WalkElse(sys: Sys, st: State, s: Tid, z: State, t: Tid)
    requires s != t && t in st.ts && Walk(sys, st, s, z)
    ensures OnlyBuffer(sys, st, t, z)
  {
    hide OnlyBuffer, StartWalk, Lookup, Legit1, Legit2, LegitMb, Legit4, WalkLock, Flags, Use;
    if Flags(st, s, z) { WalkElse3(sys, st, s, z, t); }
    else if LegitMb(st, s, z) || Legit4(st, s, z) || WalkLock(st, s, z) { WalkElse2(sys, st, s, z, t); }
    else if Use(st, s, z) { UseElse(sys, st, s, z, t); }
    else { WalkElse1(sys, st, s, z, t); }
  }

  lemma {:induction false} HoldElse(sys: Sys, st: State, s: Tid, z: State, t: Tid)
    requires s != t && t in st.ts && Hold(sys, st, s, z)
    ensures OnlyBuffer(sys, st, t, z)
  {
    hide ApplyAll;
  }

  lemma {:induction false} DrainElse(st: State, order: seq<Tid>, t: Tid)
    requires t in st.ts && forall s :: s in order ==> s in st.ts
    ensures var z := DrainedAll(st, order);
      && t in z.ts && z.ts[t] == st.ts[t].(buf := z.ts[t].buf) && z.nsref == st.nsref && z.uresult == st.uresult
    decreases |order|
  {
    hide ApplyAll;
    if order != [] { DrainElse(Drained(st, order[0], []), order[1..], t); }
  }

  lemma {:induction false} UserElse1(sys: Sys, st: State, s: Tid, z: State, t: Tid)
    requires s != t && t in st.ts
    requires UmLock(sys, st, s, z) || UmMb(st, s, z) || UmSum(sys, st, s, z) || UmTree(sys, st, s, z)
    ensures OnlyBuffer(sys, st, t, z)
  {
    hide ReadCnt;
  }

  lemma {:induction false} UserElse2(sys: Sys, st: State, s: Tid, z: State, t: Tid)
    requires s != t && t in st.ts
    requires GpWait(st, s, z) || NsPut(st, s, z) || UmRet(st, s, z) || UmUnlock(st, s, z)
    ensures OnlyBuffer(sys, st, t, z)
  {
    hide ApplyAll, UnlockStores;
  }

  lemma {:induction false} UserElse3(sys: Sys, st: State, s: Tid, z: State, t: Tid)
    requires s != t && t in st.ts
    requires UmBusy(st, s, z)
    ensures OnlyBuffer(sys, st, t, z)
  {
    hide ApplyAll, UnlockStores;
  }

  lemma {:induction false} UserElse4(sys: Sys, st: State, s: Tid, z: State, t: Tid)
    requires s != t && t in st.ts && NsUnlock(sys, st, s, z)
    ensures OnlyBuffer(sys, st, t, z)
  {
    hide Readers, DrainedAll;
    DrainElse(Goto(st, s, UGpWait).(gp := Grace(true, Readers(st))), sys.order, t);
  }

  lemma {:induction false} UserElse(sys: Sys, st: State, s: Tid, z: State, t: Tid)
    requires s != t && t in st.ts && Umount(sys, st, s, z)
    ensures OnlyBuffer(sys, st, t, z)
  {
    hide OnlyBuffer, UmLock, UmMb, UmSum, UmBusy, UmTree, UmUnlock, NsUnlock, GpWait, NsPut, UmRet;
    if UmBusy(st, s, z) { UserElse3(sys, st, s, z, t); }
    else if NsUnlock(sys, st, s, z) { UserElse4(sys, st, s, z, t); }
    else if GpWait(st, s, z) || NsPut(st, s, z) || UmRet(st, s, z) || UmUnlock(st, s, z) {
      UserElse2(sys, st, s, z, t);
    }
    else { UserElse1(sys, st, s, z, t); }
  }

  lemma {:induction false} Else(sys: Sys, st: State, s: Tid, z: State, t: Tid)
    requires s != t && t in st.ts && (TaskStep(sys, st, s, z) || Flush(st, s, z))
    ensures OnlyBuffer(sys, st, t, z)
  {
    hide Put, Walk, Hold, Umount, Remove;
    if Put(sys, st, s, z) { PutElse(sys, st, s, z, t); }
    else if s in sys.walkers && Walk(sys, st, s, z) { WalkElse(sys, st, s, z, t); }
    else if s in sys.holders && Hold(sys, st, s, z) { HoldElse(sys, st, s, z, t); }
    else if s == sys.u && Umount(sys, st, s, z) { UserElse(sys, st, s, z, t); }
  }

  // ---- how a task comes into a sum --------------------------------------------------------------------

  /** A walker that has been turned away, or will have to take mount_lock to find out. */
  ghost predicate Astray(k: Task) {
    match k.pc
    case WLock | WFlags | Lost => true
    case PEnter | PFast | PLock | PMb | PDec | PSum | PCheck | PCleanup => k.ret.Lost?
    case _ => false
  }

  /** t's own step: it samples the seqcount at its start and at no other time, goes
      astray only if the seqcount is another by then, and finds nothing only if there
      is nothing. */
  ghost predicate Fair(st: State, t: Tid, z: State)
    requires t in st.ts && t in z.ts
  {
    var k, j := st.ts[t], z.ts[t];
    && (if k.pc.WStart? && !j.pc.WStart? then j.sq == st.vis.seqv else j.sq == k.sq)
    && (Astray(j) ==> !k.pc.WStart? && (Astray(k) || k.sq != st.vis.seqv))
    && (j.pc.WNone? ==> k.pc.WNone? || !st.vis.m.hashed)
  }

  /** Where a put returns to. */
  ghost predicate RetFine(k: Task) {
    (k.pc.PFast? || k.pc.PCheck? || k.pc.PCleanup?) ==>
      k.ret.Done? || k.ret.Lost? || k.ret.HIdle? || k.ret.URet?
  }

  lemma {:induction false} RetIsFine(sys: Sys, st: State, t: Tid)
    requires TaskInv(sys, st, t)
    ensures RetFine(st.ts[t])
  {
    hide BufOK, LockTask, FlagTask, Shown;
  }

  /** A put comes to its end. */
  ghost predicate GoesTo(k: Task, j: Task) {
    && (k.pc.PFast? || k.pc.PCheck? || k.pc.PCleanup?)
    && j.ret == k.ret && j.sq == k.sq && (j.pc == k.ret || j.pc.PCleanup?)
  }

  lemma {:induction false} PutEnterOut(sys: Sys, st: State, t: Tid, z: State)
    requires t in st.ts && t in z.ts && RetFine(st.ts[t]) && PutEnter(st, t, z)
    ensures !InZone(z.ts[t].pc) && z.uresult == st.uresult && Fair(st, t, z)
  {
  }

  lemma {:induction false} PutFastTo(sys: Sys, st: State, t: Tid, z: State)
    requires t in st.ts && t in z.ts && PutFast(sys, st, t, z)
    ensures z.uresult == st.uresult && GoesTo(st.ts[t], z.ts[t])
  {
    hide ApplyAll, PutStores, Waited;
  }

  lemma {:induction false} PutFastOut(sys: Sys, st: State, t: Tid, z: State)
    requires t in st.ts && t in z.ts && RetFine(st.ts[t]) && PutFast(sys, st, t, z)
    ensures !InZone(z.ts[t].pc) && z.uresult == st.uresult && Fair(st, t, z)
  {
    hide PutFast;
    PutFastTo(sys, st, t, z);
  }

  lemma {:induction false} PutLockOut(sys: Sys, st: State, t: Tid, z: State)
    requires t in st.ts && t in z.ts && RetFine(st.ts[t]) && PutLock(st, t, z)
    ensures !InZone(z.ts[t].pc) && z.uresult == st.uresult && Fair(st, t, z)
  {
  }

  lemma {:induction false} PutMbOut(sys: Sys, st: State, t: Tid, z: State)
    requires t in st.ts && t in z.ts && RetFine(st.ts[t]) && PutMb(st, t, z)
    ensures !InZone(z.ts[t].pc) && z.uresult == st.uresult && Fair(st, t, z)
  {
  }

  lemma {:induction false} PutCheckTo(sys: Sys, st: State, t: Tid, z: State)
    requires t in st.ts && t in z.ts && PutCheck(st, t, z)
    ensures z.uresult == st.uresult && GoesTo(st.ts[t], z.ts[t])
  {
    hide ApplyAll, UnlockStores;
  }

  lemma {:induction false} PutCheckOut(sys: Sys, st: State, t: Tid, z: State)
    requires t in st.ts && t in z.ts && RetFine(st.ts[t]) && PutCheck(st, t, z)
    ensures !InZone(z.ts[t].pc) && z.uresult == st.uresult && Fair(st, t, z)
  {
    hide PutCheck;
    PutCheckTo(sys, st, t, z);
  }

  lemma {:induction false} PutCleanupTo(sys: Sys, st: State, t: Tid, z: State)
    requires t in st.ts && t in z.ts && PutCleanup(st, t, z)
    ensures z.uresult == st.uresult && GoesTo(st.ts[t], z.ts[t])
  {
    hide Readers;
  }

  lemma {:induction false} PutCleanupOut(sys: Sys, st: State, t: Tid, z: State)
    requires t in st.ts && t in z.ts && RetFine(st.ts[t]) && PutCleanup(st, t, z)
    ensures !InZone(z.ts[t].pc) && z.uresult == st.uresult && Fair(st, t, z)
  {
    hide PutCleanup;
    PutCleanupTo(sys, st, t, z);
  }

  lemma {:induction false} StartWalkOut(sys: Sys, st: State, t: Tid, z: State)
    requires t in st.ts && t in z.ts && RetFine(st.ts[t]) && StartWalk(st, t, z)
    ensures !InZone(z.ts[t].pc) && z.uresult == st.uresult && Fair(st, t, z)
  {
  }

  lemma {:induction false} LookupOut(sys: Sys, st: State, t: Tid, z: State)
    requires t in st.ts && t in z.ts && RetFine(st.ts[t]) && Lookup(sys, st, t, z)
    ensures !InZone(z.ts[t].pc) && z.uresult == st.uresult && Fair(st, t, z)
  {
    hide ViaPwd;
  }

  lemma {:induction false} Legit1Out(sys: Sys, st: State, t: Tid, z: State)
    requires t in st.ts && t in z.ts && RetFine(st.ts[t]) && Legit1(st, t, z)
    ensures !InZone(z.ts[t].pc) && z.uresult == st.uresult && Fair(st, t, z)
  {
  }

  lemma {:induction false} Legit2Out(sys: Sys, st: State, t: Tid, z: State)
    requires t in st.ts && t in z.ts && RetFine(st.ts[t]) && Legit2(st, t, z)
    ensures !InZone(z.ts[t].pc) && z.uresult == st.uresult && Fair(st, t, z)
  {
  }

  lemma {:induction false} LegitMbOut(sys: Sys, st: State, t: Tid, z: State)
    requires t in st.ts && t in z.ts && RetFine(st.ts[t]) && LegitMb(st, t, z)
    ensures !InZone(z.ts[t].pc) && z.uresult == st.uresult && Fair(st, t, z)
  {
  }

  lemma {:induction false} Legit4Out(sys: Sys, st: State, t: Tid, z: State)
    requires t in st.ts && t in z.ts && RetFine(st.ts[t]) && Legit4(st, t, z)
    ensures !InZone(z.ts[t].pc) && z.uresult == st.uresult && Fair(st, t, z)
  {
  }

  lemma {:induction false} WalkLockOut(sys: Sys, st: State, t: Tid, z: State)
    requires t in st.ts && t in z.ts && RetFine(st.ts[t]) && WalkLock(st, t, z)
    ensures !InZone(z.ts[t].pc) && z.uresult == st.uresult && Fair(st, t, z)
  {
  }

  lemma {:induction false} FlagsOut(sys: Sys, st: State, t: Tid, z: State)
    requires t in st.ts && t in z.ts && RetFine(st.ts[t]) && Flags(st, t, z)
    ensures !InZone(z.ts[t].pc) && z.uresult == st.uresult && Fair(st, t, z)
  {
    hide ApplyAll, PutStores, UnlockStores;
  }

  lemma {:induction false} UseOut(sys: Sys, st: State, t: Tid, z: State)
    requires t in st.ts && t in z.ts && RetFine(st.ts[t]) && Use(st, t, z)
    ensures !InZone(z.ts[t].pc) && z.uresult == st.uresult && Fair(st, t, z)
  {
    hide ApplyAll, Waited;
  }

  lemma {:induction false} GetOut(sys: Sys, st: State, t: Tid, z: State)
    requires t in st.ts && HoldGet(st, t, z)
    ensures t in z.ts && z.uresult == st.uresult && !InZone(z.ts[t].pc) && Fair(st, t, z)
  {
    hide ApplyAll;
  }

  lemma {:induction false} MigrateOut(sys: Sys, st: State, t: Tid, z: State)
    requires t in st.ts && Migrate(sys, st, t, z)
    ensures t in z.ts && z.uresult == st.uresult && !InZone(z.ts[t].pc) && Fair(st, t, z)
  {
    hide ApplyAll;
  }

  lemma {:induction false} HoldPutOut(sys: Sys, st: State, t: Tid, z: State)
    requires t in st.ts && HoldPut(st, t, z)
    ensures t in z.ts && z.uresult == st.uresult && !InZone(z.ts[t].pc) && Fair(st, t, z)
  {
    hide ApplyAll;
  }

  lemma {:induction false} HoldDoneOut(sys: Sys, st: State, t: Tid, z: State)
    requires t in st.ts && HoldDone(st, t, z)
    ensures t in z.ts && z.uresult == st.uresult && !InZone(z.ts[t].pc) && Fair(st, t, z)
  {
    hide ApplyAll;
  }

  lemma {:induction false} HoldOut(sys: Sys, st: State, t: Tid, z: State)
    requires t in st.ts && t in z.ts && RetFine(st.ts[t])
    requires Hold(sys, st, t, z)
    ensures !InZone(z.ts[t].pc) && (z.uresult == st.uresult || z.uresult == Ok) && Fair(st, t, z)
  {
    hide HoldGet, Migrate, HoldPut, HoldDone, Fair, InZone;
    if HoldGet(st, t, z) { GetOut(sys, st, t, z); }
    else if Migrate(sys, st, t, z) { MigrateOut(sys, st, t, z); }
    else if HoldPut(st, t, z) { HoldPutOut(sys, st, t, z); }
    else { HoldDoneOut(sys, st, t, z); }
  }

  lemma {:induction false} UserOut1(sys: Sys, st: State, t: Tid, z: State)
    requires t in st.ts && t in z.ts && RetFine(st.ts[t])
    requires UmLock(sys, st, t, z) || UmTree(sys, st, t, z) || GpWait(st, t, z) || NsPut(st, t, z) || UmRet(st, t, z)
    ensures !InZone(z.ts[t].pc) && (z.uresult == st.uresult || z.uresult == Ok) && Fair(st, t, z)
  {
    hide ReadCnt;
  }

  lemma {:induction false} UserOut2(sys: Sys, st: State, t: Tid, z: State)
    requires t in st.ts && t in z.ts && RetFine(st.ts[t])
    requires UmBusy(st, t, z) || UmUnlock(st, t, z)
    ensures !InZone(z.ts[t].pc) && Fair(st, t, z)
    ensures z.uresult == st.uresult || (UmBusy(st, t, z) && st.ts[t].acc > 2)
  {
    hide ApplyAll, UnlockStores;
  }

  lemma {:induction false} UserOut3(sys: Sys, st: State, t: Tid, z: State)
    requires t in st.ts && t in z.ts && NsUnlock(sys, st, t, z)
    ensures !InZone(z.ts[t].pc) && z.uresult == st.uresult && Fair(st, t, z)
  {
    hide Readers, DrainedAll;
    DrainElse(Goto(st, t, UGpWait).(gp := Grace(true, Readers(st))), sys.order, t);
  }

  lemma {:induction false} SumAt(sys: Sys, st: State, t: Tid, z: State)
    requires PutSum(sys, st, t, z) || UmSum(sys, st, t, z)
    ensures t in st.ts && t in z.ts && Summing(st.ts[t].pc) && z.uresult == st.uresult && Fair(st, t, z)
  {
    hide ReadCnt;
  }

  lemma {:induction false} BeginsPlain(sys: Sys, st: State, t: Tid, z: State)
    requires PutDec(sys, st, t, z) || UmMb(st, t, z)
    ensures t in st.ts && t in z.ts && z.uresult == st.uresult && Fair(st, t, z)
  {
    hide PutStores;
  }

  lemma {:induction false} OwnForm(sys: Sys, st: State, t: Tid, z: State)
    requires t in st.ts && TaskStep(sys, st, t, z) && t in z.ts && RetFine(st.ts[t])
    ensures InZone(z.ts[t].pc) ==> Summing(st.ts[t].pc) || PutDec(sys, st, t, z) || UmMb(st, t, z)
    ensures z.uresult == st.uresult || z.uresult == Ok || (UmBusy(st, t, z) && st.ts[t].acc > 2)
    ensures Fair(st, t, z)
  {
    hide InZone, Summing, RetFine, Fair, PutEnter, PutFast, PutLock, PutMb, PutDec, PutSum, PutCheck, PutCleanup, Hold;
    hide StartWalk, Lookup, Legit1, Legit2, LegitMb, Legit4, WalkLock, Flags, Use;
    hide UmLock, UmMb, UmSum, UmBusy, UmTree, UmUnlock, NsUnlock, GpWait, NsPut, UmRet;
    if PutSum(sys, st, t, z) || UmSum(sys, st, t, z) { SumAt(sys, st, t, z); }
    else if PutEnter(st, t, z) { PutEnterOut(sys, st, t, z); }
    else if PutFast(sys, st, t, z) { PutFastOut(sys, st, t, z); }
    else if PutLock(st, t, z) { PutLockOut(sys, st, t, z); }
    else if PutMb(st, t, z) { PutMbOut(sys, st, t, z); }
    else if PutCheck(st, t, z) { PutCheckOut(sys, st, t, z); }
    else if PutCleanup(st, t, z) { PutCleanupOut(sys, st, t, z); }
    else if StartWalk(st, t, z) { StartWalkOut(sys, st, t, z); }
    else if Lookup(sys, st, t, z) { LookupOut(sys, st, t, z); }
    else if Legit1(st, t, z) { Legit1Out(sys, st, t, z); }
    else if Legit2(st, t, z) { Legit2Out(sys, st, t, z); }
    else if LegitMb(st, t, z) { LegitMbOut(sys, st, t, z); }
    else if Legit4(st, t, z) { Legit4Out(sys, st, t, z); }
    else if WalkLock(st, t, z) { WalkLockOut(sys, st, t, z); }
    else if Flags(st, t, z) { FlagsOut(sys, st, t, z); }
    else if Use(st, t, z) { UseOut(sys, st, t, z); }
    else if Hold(sys, st, t, z) { HoldOut(sys, st, t, z); }
    else if NsUnlock(sys, st, t, z) { UserOut3(sys, st, t, z); }
    else if UmBusy(st, t, z) || UmUnlock(st, t, z) { UserOut2(sys, st, t, z); }
    else if PutDec(sys, st, t, z) || UmMb(st, t, z) { BeginsPlain(sys, st, t, z); }
    else { UserOut1(sys, st, t, z); }
  }

  /** ... goes on in it and comes out. */
  lemma {:induction false} OnlySum(sys: Sys, st: State, t: Tid, z: State)
    requires TaskStep(sys, st, t, z) && t in st.ts && Summing(st.ts[t].pc)
    ensures SumStep(sys, st, t, if st.ts[t].pc.PSum? then PCheck else UBusy, z)
  {
    hide ApplyAll, UnlockStores, Readers, DrainedAll, SumStep, ViaPwd, Drained, RcuOut, DropRef, PushAll, Lock, SetTask;
  }

  /** The sum is complete: it is the count, and nobody else has any part in that. */
  lemma {:induction false} SumDone(sys: Sys, st: State, t: Tid, next: Label, z: State)
    requires Inv(sys, st) && t in sys.tasks && t in st.ts && Summing(st.ts[t].pc) && Alone(sys, st, t)
    requires SumStep(sys, st, t, next, z) && Summed(next) && st.ts[t].ci >= 2 * sys.ncpu
    requires |st.vis.cntv| == |st.vis.putv| == sys.ncpu && Exact(sys, st, t)
    ensures t in z.ts && |z.vis.cntv| == |z.vis.putv| == sys.ncpu && Exact(sys, z, t)
  {
    AloneCount(sys, st, t);
    hide Inv, Net, SumSeq, Alone, PutsRead, ReadCnt;
    assert GetsLeft(st.vis, st.ts[t].buf, sys.ncpu) == 0;
  }

  /** One more counter. */
  lemma {:induction false} SumReads(sys: Sys, st: State, t: Tid, next: Label, z: State)
    requires t in st.ts && Summing(st.ts[t].pc) && SumStep(sys, st, t, next, z) && st.ts[t].ci < 2 * sys.ncpu
    requires |st.vis.cntv| == |st.vis.putv| == sys.ncpu && Exact(sys, st, t)
    requires GetsLeft(st.vis, st.ts[t].buf, 0) - PutsRead(st.vis, st.ts[t].buf, sys.ncpu)
          == SumSeq(st.vis.cntv) + Net(st.ts[t].buf)
    ensures t in z.ts && |z.vis.cntv| == |z.vis.putv| == sys.ncpu && Exact(sys, z, t)
  {
    hide Net, SumSeq, SeenPuts, SeenGets, Own;
  }

  lemma {:induction false} SumExact(sys: Sys, st: State, t: Tid, next: Label, z: State)
    requires Inv(sys, st) && t in sys.tasks && t in st.ts && Summing(st.ts[t].pc) && Alone(sys, st, t)
    requires SumStep(sys, st, t, next, z) && Summed(next)
    requires |st.vis.cntv| == |st.vis.putv| == sys.ncpu && Exact(sys, st, t)
    ensures t in z.ts && |z.vis.cntv| == |z.vis.putv| == sys.ncpu && Exact(sys, z, t)
  {
    Actor(sys, st, t);
    SumLocked(sys, st, t);
    SplitSum(st.vis, st.ts[t].buf);
    hide Inv, Net, SumSeq, Alone, TaskInv, SumOK, Exact, SumStep, PutsRead, GetsLeft;
    if st.ts[t].ci >= 2 * sys.ncpu { SumDone(sys, st, t, next, z); } else { SumReads(sys, st, t, next, z); }
  }

  lemma {:induction false} Begins(sys: Sys, st: State, t: Tid, z: State)
    requires Inv(sys, z) && t in sys.tasks && t in z.ts && (PutDec(sys, st, t, z) || UmMb(st, t, z))
    ensures |z.vis.cntv| == |z.vis.putv| == sys.ncpu && Exact(sys, z, t)
  {
    hide Inv, Net, SeenPuts, SeenGets, SumSeq, TaskInv, SumOK, PutDec, UmMb;
    SysOf(sys, z);
    BeginsAt(sys, st, t, z);
    Actor(sys, z, t);
    SumLocked(sys, z, t);
    SplitSum(z.vis, z.ts[t].buf);
  }

  lemma {:induction false} BeginsAt(sys: Sys, st: State, t: Tid, z: State)
    requires PutDec(sys, st, t, z) || UmMb(st, t, z)
    ensures t in z.ts && Summing(z.ts[t].pc) && z.ts[t].acc == z.ts[t].ci == 0
  {
    hide PutStores;
  }

  // ---- every run ----------------------------------------------------------------------------------------

  ghost predicate Sized(sys: Sys, st: State, t: Tid) { t in st.ts && |st.vis.cntv| == |st.vis.putv| == sys.ncpu }

  lemma {:induction false} OthersStep(sys: Sys, st: State, t: Tid, s: Tid, z: State)
    requires Inv(sys, st) && Inv(sys, z) && t in sys.tasks && s in sys.tasks && s != t
    requires TaskStep(sys, st, s, z) || Flush(st, s, z)
    requires Sized(sys, st, t) && Sized(sys, z, t) && InZone(st.ts[t].pc) && Exact(sys, st, t)
    requires Summing(st.ts[t].pc) ==> Alone(sys, st, t)
    ensures Exact(sys, z, t)
  {
    hide Inv, TaskStep, Flush, Alone, SumOK, TaskInv;
    Actor(sys, st, t);
    SumLocked(sys, st, t);
    Else(sys, st, s, z, t);
    if Summing(st.ts[t].pc) {
      OthersLeave(sys, st, t, s, z);
      SameSeen(st.vis, z.vis, st.ts[t].buf);
      ExactSeen(sys, st, t, z);
    }
  }

  lemma {:induction false} OwnFlush(sys: Sys, st: State, t: Tid, z: State)
    requires Inv(sys, st) && t in sys.tasks && Flush(st, t, z)
    requires Sized(sys, st, t) && Sized(sys, z, t) && InZone(st.ts[t].pc) && Exact(sys, st, t)
    ensures Exact(sys, z, t)
  {
    hide Inv, SumOK, TaskInv, Remove, Apply, Exact, Seen;
    Actor(sys, st, t);
    SumLocked(sys, st, t);
    var i :| Flushable(st.ts[t].buf, i) && z == FlushAt(st, t, i);
    FlushSeesSame(st.vis, st.ts[t].buf, i);
    ExactSeen(sys, st, t, z);
  }

  lemma {:induction false} FreeStep(sys: Sys, st: State, t: Tid, z: State)
    requires RcuFree(st, z) && Sized(sys, st, t) && Sized(sys, z, t) && Exact(sys, st, t)
    ensures Exact(sys, z, t)
  {
    SameSeen(st.vis, z.vis, st.ts[t].buf);
    hide Exact, Seen;
    ExactSeen(sys, st, t, z);
  }

  lemma {:induction false} OwnStep(sys: Sys, st: State, t: Tid, z: State)
    requires Inv(sys, st) && Inv(sys, z) && t in sys.tasks && TaskStep(sys, st, t, z)
    requires Sized(sys, st, t) && Sized(sys, z, t) && InZone(z.ts[t].pc)
    requires InZone(st.ts[t].pc) ==> Exact(sys, st, t)
    requires Summing(st.ts[t].pc) ==> Alone(sys, st, t)
    ensures Exact(sys, z, t)
  {
    hide Inv, Exact, TaskStep, Alone, SumOK, SumStep, PutDec, UmMb, RecInv;
    Actor(sys, st, t);
    RetIsFine(sys, st, t);
    OwnForm(sys, st, t, z);
    if Summing(st.ts[t].pc) {
      OnlySum(sys, st, t, z);
      SumExact(sys, st, t, if st.ts[t].pc.PSum? then PCheck else UBusy, z);
    } else {
      Begins(sys, st, t, z);
    }
  }

  /** Somebody else was counting at some moment of the sum t is in, or has the result of. */
  ghost predicate MetInSum(sys: Sys, b: seq<State>, i: nat, t: Tid) {
    exists j {:trigger b[j]} :: 0 <= j <= i && j < |b| && t in b[j].ts && Summing(b[j].ts[t].pc) && !Alone(sys, b[j], t)
      && forall l {:trigger b[l]} :: j <= l <= i && l < |b| ==> t in b[l].ts && InZone(b[l].ts[t].pc)
  }

  lemma {:induction false} ZoneStep(sys: Sys, st: State, t: Tid, z: State)
    requires Inv(sys, st) && Inv(sys, z) && Next(sys, st, z) && t in sys.tasks
    requires Sized(sys, st, t) && Sized(sys, z, t) && InZone(z.ts[t].pc)
    requires InZone(st.ts[t].pc) ==> Exact(sys, st, t)
    requires Summing(st.ts[t].pc) ==> Alone(sys, st, t)
    ensures Exact(sys, z, t)
  {
    hide Inv, Exact, TaskStep, Flush, Alone, Summing, Summed;
    if RcuFree(st, z) {
      FreeStep(sys, st, t, z);
    } else {
      var s :| s in sys.tasks && (TaskStep(sys, st, s, z) || Flush(st, s, z));
      if s != t { Else(sys, st, s, z, t); OthersStep(sys, st, t, s, z); }
      else if Flush(st, t, z) { FlushPc(st, t, z); OwnFlush(sys, st, t, z); }
      else { OwnStep(sys, st, t, z); }
    }
  }

  lemma {:induction false} FlushPc(st: State, t: Tid, z: State)
    requires Flush(st, t, z)
    ensures t in st.ts && t in z.ts && z.ts[t].pc == st.ts[t].pc && z.uresult == st.uresult
  {
  }

  lemma {:induction false} SizedAt(sys: Sys, b: seq<State>, i: nat, t: Tid)
    requires sys.Valid() && Run(sys, b) && i < |b| && t in sys.tasks
    ensures Inv(sys, b[i]) && Sized(sys, b[i], t)
  {
    hide Run, Inv;
    RunInv(sys, b, i);
    SysOf(sys, b[i]);
  }

  /** A sum, or its result, is what t has itself, unless it met somebody. */
  lemma {:induction false} SumRuns(sys: Sys, b: seq<State>, i: nat, t: Tid)
    requires sys.Valid() && Run(sys, b) && i < |b| && t in sys.tasks && t in b[i].ts && InZone(b[i].ts[t].pc)
    ensures Sized(sys, b[i], t) && (Exact(sys, b[i], t) || MetInSum(sys, b, i, t))
    decreases i
  {
    hide Inv, Next, Exact, Alone, Summing, Summed;
    SizedAt(sys, b, i, t);
    if i == 0 { StartOut(sys, b[0], t); }
    else {
      var st, z := b[i - 1], b[i];
      SizedAt(sys, b, i - 1, t);
      assert Next(sys, st, z);
      if !InZone(st.ts[t].pc) {
        assert !Summing(st.ts[t].pc) by { OutNotIn(st.ts[t].pc); }
        ZoneStep(sys, st, t, z);
      } else {
        SumRuns(sys, b, i - 1, t);
        if MetInSum(sys, b, i - 1, t) { MetLater(sys, b, i, t); }
        else {
          MeetsNow(sys, b, i - 1, t);
          ZoneStep(sys, st, t, z);
        }
      }
    }
  }

  lemma {:induction false} OutNotIn(l: Label)
    ensures Summing(l) || Summed(l) <==> InZone(l)
  {
  }

  lemma {:induction false} MeetsNow(sys: Sys, b: seq<State>, i: nat, t: Tid)
    requires i < |b| && t in b[i].ts
    ensures Summing(b[i].ts[t].pc) && !Alone(sys, b[i], t) ==> MetInSum(sys, b, i, t)
  {
    hide Alone;
  }

  lemma {:induction false} MetLater(sys: Sys, b: seq<State>, i: nat, t: Tid)
    requires 0 < i < |b| && MetInSum(sys, b, i - 1, t) && t in b[i].ts && InZone(b[i].ts[t].pc)
    ensures MetInSum(sys, b, i, t)
  {
    hide Alone, InZone, Summing;
  }

  lemma {:induction false} StartOut(sys: Sys, st: State, t: Tid)
    requires Init(sys, st) && t in sys.tasks
    ensures t in st.ts && !InZone(st.ts[t].pc)
  {
  }

  // ---- what that means -------------------------------------------------------------------------------------

  lemma {:induction false} ActorStays(sys: Sys, st: State, t: Tid, z: State)
    requires Inv(sys, z) && t in sys.tasks
    ensures t in z.ts
  {
    hide Inv;
    SysOf(sys, z);
  }

  /** Who can make the result "busy". */
  lemma {:induction false} BusyStep(sys: Sys, st: State, z: State)
    requires Inv(sys, st) && Inv(sys, z) && Next(sys, st, z) && st.uresult != Busy && z.uresult == Busy
    ensures sys.u in sys.tasks && sys.u in st.ts && st.ts[sys.u].pc.UBusy? && st.ts[sys.u].acc > 2
  {
    hide Inv, TaskStep, Flush, UmBusy, TaskInv, SumOK;
    assert !RcuFree(st, z);
    var t :| t in sys.tasks && (TaskStep(sys, st, t, z) || Flush(st, t, z));
    if Flush(st, t, z) { FlushPc(st, t, z); }
    else {
      Actor(sys, st, t);
      ActorStays(sys, st, t, z);
      RetIsFine(sys, st, t);
      OwnForm(sys, st, t, z);
      OnlyUser(sys, st, t, z);
    }
  }

  lemma {:induction false} OnlyUser(sys: Sys, st: State, t: Tid, z: State)
    requires TaskInv(sys, st, t) && UmBusy(st, t, z)
    ensures t == sys.u && st.ts[t].pc.UBusy?
  {
    hide BufOK, LockTask, FlagTask, Shown, Drained;
  }

  lemma {:induction false} UserHas(sys: Sys, st: State)
    requires Inv(sys, st) && sys.u in sys.tasks && sys.u in st.ts && st.ts[sys.u].pc.UBusy?
    ensures Own(sys, st.nsref, sys.u, st.ts[sys.u]) == 2
  {
    hide Inv, BufOK, LockTask, FlagTask, Shown;
    Actor(sys, st, sys.u);
  }

  /** A synchronous umount is refused only if, at some moment of its own sum, somebody
      else had a reference or a counter store not visible yet: with nobody else
      counting it goes through. */
  lemma {:induction false} BusyHasOther(sys: Sys, b: seq<State>, i: nat)
    requires sys.Valid() && Run(sys, b) && i + 1 < |b| && b[i].uresult != Busy && b[i + 1].uresult == Busy
    ensures MetInSum(sys, b, i, sys.u)
  {
    hide Inv, Next, MetInSum;
    assert Next(sys, b[i], b[i + 1]);
    RunInv(sys, b, i);
    RunInv(sys, b, i + 1);
    BusyStep(sys, b[i], b[i + 1]);
    SumRuns(sys, b, i, sys.u);
    UserHas(sys, b[i]);
  }

  lemma {:induction false} OnlyCheck(sys: Sys, st: State, t: Tid, z: State)
    requires TaskStep(sys, st, t, z) && t in st.ts && st.ts[t].pc.PCheck?
    ensures PutCheck(st, t, z)
  {
    hide ApplyAll, UnlockStores, Readers, DrainedAll, SumStep, ViaPwd, Drained, RcuOut, DropRef, PushAll, Lock, SetTask;
    hide Goto, Waited, CanLock, PutStores, PutCheck;
  }

  lemma {:induction false} CheckStep(sys: Sys, st: State, t: Tid, z: State)
    requires Inv(sys, st) && Next(sys, st, z) && t in sys.tasks && t in st.ts && t in z.ts
    requires st.ts[t].pc.PCheck? && !z.ts[t].pc.PCheck?
    ensures PutCheck(st, t, z)
  {
    hide Inv, TaskStep, Flush, PutCheck;
    assert !RcuFree(st, z);
    var s :| s in sys.tasks && (TaskStep(sys, st, s, z) || Flush(st, s, z));
    if s != t { Else(sys, st, s, z, t); }
    else if Flush(st, t, z) { FlushPc(st, t, z); }
    else { OnlyCheck(sys, st, t, z); }
  }

  lemma {:induction false} KeptSum(sys: Sys, st: State, t: Tid, z: State)
    requires PutCheck(st, t, z) && !z.ts[t].pc.PCleanup? && t in z.ts && !st.vis.m.doomed
    ensures t in st.ts && st.ts[t].acc != 0
  {
    hide Drained;
  }

  /** The same of mntput(): it finds that its reference was not the last one only if
      the task answers for another one itself or met somebody in its sum; else it
      dooms the mount. */
  lemma {:induction false} KeptHasOther(sys: Sys, b: seq<State>, i: nat, t: Tid)
    requires sys.Valid() && Run(sys, b) && i + 1 < |b| && t in sys.tasks && t in b[i].ts && t in b[i + 1].ts
    requires b[i].ts[t].pc.PCheck? && !b[i + 1].ts[t].pc.PCheck? && !b[i + 1].ts[t].pc.PCleanup?
    ensures Own(sys, b[i].nsref, t, b[i].ts[t]) > 0 || MetInSum(sys, b, i, t)
  {
    hide Inv, Next, MetInSum, TaskInv, PutCheck;
    assert Next(sys, b[i], b[i + 1]);
    RunInv(sys, b, i);
    CheckStep(sys, b[i], t, b[i + 1]);
    assert !b[i].vis.m.doomed by { DoomedOut(sys, b[i], t); }
    KeptSum(sys, b[i], t, b[i + 1]);
    SumRuns(sys, b, i, t);
    CheckOwn(sys, b[i], t);
  }

  lemma {:induction false} DoomedOut(sys: Sys, st: State, t: Tid)
    requires Inv(sys, st) && t in st.ts && st.ts[t].pc.PCheck?
    ensures !st.vis.m.doomed
  {
    hide Tasks, FlagsOK, Counted, Sums, FreeOK, SyncOK;
    NotDoomed(sys, st, t);
  }

  lemma {:induction false} CheckOwn(sys: Sys, st: State, t: Tid)
    requires Inv(sys, st) && t in sys.tasks && t in st.ts && st.ts[t].pc.PCheck?
    ensures Own(sys, st.nsref, t, st.ts[t]) >= 0
  {
    hide Inv, BufOK, LockTask, FlagTask, Shown, SumOK;
    Actor(sys, st, t);
  }

  // ---- why a walker is turned away -----------------------------------------------------------------------

  lemma {:induction false} FairStep(sys: Sys, st: State, t: Tid, z: State)
    requires Inv(sys, st) && Next(sys, st, z) && t in sys.tasks && t in st.ts && t in z.ts
    ensures Fair(st, t, z)
  {
    hide Inv, TaskStep, Flush, TaskInv, SumOK;
    if !RcuFree(st, z) {
      var s :| s in sys.tasks && (TaskStep(sys, st, s, z) || Flush(st, s, z));
      if s != t { Else(sys, st, s, z, t); }
      else if Flush(st, t, z) { FlushSame(st, t, z); }
      else {
        Actor(sys, st, t);
        RetIsFine(sys, st, t);
        hide Fair;
        OwnForm(sys, st, t, z);
      }
    }
  }

  lemma {:induction false} FlushSame(st: State, t: Tid, z: State)
    requires Flush(st, t, z)
    ensures t in st.ts && t in z.ts && z.ts[t] == st.ts[t].(buf := z.ts[t].buf)
  {
  }

  lemma {:induction false} FairRun(sys: Sys, b: seq<State>, i: nat, t: Tid)
    requires sys.Valid() && Run(sys, b) && i + 1 < |b| && t in sys.tasks
    ensures t in b[i].ts && t in b[i + 1].ts && Fair(b[i], t, b[i + 1])
  {
    hide Inv, Next, Fair;
    assert Next(sys, b[i], b[i + 1]);
    RunInv(sys, b, i);
    RunInv(sys, b, i + 1);
    ActorStays(sys, b[i], t, b[i]);
    ActorStays(sys, b[i], t, b[i + 1]);
    FairStep(sys, b[i], t, b[i + 1]);
  }

  /** t began its walk at s, with this sample. */
  ghost predicate BeganAt(b: seq<State>, s: nat, t: Tid, sq: nat) {
    && s + 1 < |b| && t in b[s].ts && t in b[s + 1].ts
    && b[s].ts[t].pc.WStart? && !b[s + 1].ts[t].pc.WStart? && b[s].vis.seqv == sq
  }

  lemma {:induction false} Began(sys: Sys, b: seq<State>, i: nat, t: Tid) returns (s: nat)
    requires sys.Valid() && Run(sys, b) && i < |b| && t in sys.walkers && t in b[i].ts && !b[i].ts[t].pc.WStart?
    ensures s < i && BeganAt(b, s, t, b[i].ts[t].sq)
    decreases i
  {
    hide Next;
    assert t in sys.tasks && t in b[0].ts && b[0].ts[t].pc.WStart? by { StartWalks(sys, b[0], t); }
    FairRun(sys, b, i - 1, t);
    if b[i - 1].ts[t].pc.WStart? { s := i - 1; } else { s := Began(sys, b, i - 1, t); }
  }

  lemma {:induction false} StartWalks(sys: Sys, st: State, t: Tid)
    requires sys.Valid() && Init(sys, st) && t in sys.walkers
    ensures t in sys.tasks && t in st.ts && st.ts[t].pc.WStart? && st.ts[t].ret.Done?
  {
  }

  lemma {:induction false} SampleOld(sys: Sys, st: State, t: Tid)
    requires Inv(sys, st) && t in sys.tasks && t in st.ts
    ensures st.ts[t].sq <= st.vis.seqv
  {
    hide Inv, LabelOK, BufOK, FlagTask, Shown, SumOK, SeqShape, InCS, Odd;
    Actor(sys, st, t);
  }

  /** A walker goes astray, and is lost, only if mount_lock was written between the
      start of its walk, at s, and a later moment j of it. */
  lemma {:induction false} AstrayMet(sys: Sys, b: seq<State>, i: nat, t: Tid) returns (s: nat, j: nat)
    requires sys.Valid() && Run(sys, b) && i < |b| && t in sys.walkers && t in b[i].ts && Astray(b[i].ts[t])
    ensures s < j <= i && BeganAt(b, s, t, b[i].ts[t].sq) && b[s].vis.seqv < b[j].vis.seqv
    decreases i
  {
    hide Next, Inv, Fair, Astray, BeganAt, Run;
    StartAstray(sys, b, t);
    FairRun(sys, b, i - 1, t);
    AstrayFrom(b[i - 1], t, b[i]);
    j := i - 1;
    if Astray(b[j].ts[t]) {
      s, j := AstrayMet(sys, b, j, t);
    } else {
      RunInv(sys, b, j);
      SampleOld(sys, b[j], t);
      s := Began(sys, b, j, t);
      BeganSeq(b, s, t, b[i].ts[t].sq);
    }
  }

  lemma {:induction false} StartAstray(sys: Sys, b: seq<State>, t: Tid)
    requires sys.Valid() && Run(sys, b) && t in sys.walkers
    ensures |b| > 0 && t in sys.tasks && t in b[0].ts && !Astray(b[0].ts[t])
  {
    hide Next, Init;
    StartWalks(sys, b[0], t);
  }

  lemma {:induction false} AstrayFrom(st: State, t: Tid, z: State)
    requires t in st.ts && t in z.ts && Fair(st, t, z) && Astray(z.ts[t])
    ensures z.ts[t].sq == st.ts[t].sq && !st.ts[t].pc.WStart?
    ensures Astray(st.ts[t]) || st.ts[t].sq != st.vis.seqv
  {
  }

  lemma {:induction false} BeganSeq(b: seq<State>, s: nat, t: Tid, sq: nat)
    requires BeganAt(b, s, t, sq)
    ensures b[s].vis.seqv == sq
  {
  }

  /** A walker finds nothing at all only once umount_tree() has been through. */
  lemma {:induction false} NoneMeansUnmounted(sys: Sys, b: seq<State>, i: nat, t: Tid)
    requires sys.Valid() && Run(sys, b) && i < |b| && t in sys.walkers && t in b[i].ts && b[i].ts[t].pc.WNone?
    ensures exists j {:trigger b[j]} :: 0 <= j < i && b[j].uresult == Ok
    decreases i
  {
    hide Next, Inv;
    assert t in sys.tasks && t in b[0].ts && b[0].ts[t].pc.WStart? by { StartWalks(sys, b[0], t); }
    FairRun(sys, b, i - 1, t);
    if b[i - 1].ts[t].pc.WNone? { NoneMeansUnmounted(sys, b, i - 1, t); }
    else {
      RunInv(sys, b, i - 1);
      HashedTill(sys, b[i - 1]);
    }
  }

  lemma {:induction false} HashedTill(sys: Sys, st: State)
    requires Inv(sys, st) && !st.vis.m.hashed
    ensures st.uresult == Ok
  {
    hide Tasks, Counted, Sums, DoomedOK, FreeOK, SyncOK;
  }
}
