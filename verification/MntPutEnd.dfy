/** Once an umount has succeeded somebody is always answerable for the last put; so when
    everybody is done the mount is doomed, cleaned up and freed, and if the umount was
    refused it is not. */
module MntPutEnd {
  import opened MntPut
  import opened MntPutInv
  import opened MntPutSteps
  import opened MntPutFlush
  import opened MntPutTheorems
  import opened MntPutExact
  import opened MntPutFreed

  // ---- after umount_tree() -----------------------------------------------------------------------

  /** namespace_unlock() has begun its grace period. */
  ghost predicate Late(sys: Sys, st: State) {
    sys.u in st.ts && st.uresult == Ok && !st.ts[sys.u].pc.UUnlock? && !st.ts[sys.u].pc.UNsUnlock?
  }

  /** It is in it, and waits for t. */
  ghost predicate Awaited(sys: Sys, st: State, t: Tid) {
    sys.u in st.ts && st.ts[sys.u].pc.UGpWait? && t in st.gp.wait
  }

  /** One task: what it may still be doing then. */
  ghost predicate TaskLate(sys: Sys, st: State, t: Tid)
    requires t in st.ts
  {
    var k := st.ts[t];
    && (k.rcu ==> Reads(k.pc)) && (k.pc.PFast? ==> k.rcu) && (t in st.gp.wait || t in st.gpfree.wait ==> k.rcu)
    && (Late(sys, st) ==>
          && (k.pc.PFast? ==> Awaited(sys, st, t))
          && (CountStored(k.buf) ==> Mine(k))
          && (!sys.lazy && t != sys.u && Legit(k.pc) ==> Awaited(sys, st, t)))
  }

  ghost predicate AllLate(sys: Sys, st: State) {
    forall t {:trigger TaskLate(sys, st, t)} :: t in st.ts ==> TaskLate(sys, st, t)
  }

  /** The namespace's reference is gone once the umounter has put it. */
  ghost predicate PutGone(sys: Sys, st: State) {
    sys.u in st.ts && st.uresult == Ok && !Awaiting(st.ts[sys.u].pc) && !(st.nsput && Puts(st.ts[sys.u].pc)) ==>
      !st.nsref
  }

  ghost predicate Cleaning(st: State) { exists t {:trigger st.ts[t]} :: t in st.ts && st.ts[t].pc.PCleanup? }

  /** A doomed mount is being cleaned up, or waits to be freed, or is. */
  ghost predicate Going(st: State) {
    && (st.vis.m.doomed && st.cleaner == NOBODY ==> Cleaning(st))
    && (st.cleaner != NOBODY ==> st.gpfree.on || st.vis.m.freed)
    && st.gp.wait <= st.ts.Keys && st.gpfree.wait <= st.ts.Keys
  }

  /** Somebody has a reference, or is in a sum that finds out that nobody has. */
  ghost predicate Answerable(sys: Sys, st: State, t: Tid) {
    && t in st.ts && |st.vis.cntv| == |st.vis.putv| == sys.ncpu
    && (st.ts[t].refs > 0 || (InZone(st.ts[t].pc) && Exact(sys, st, t)))
  }

  ghost predicate Unput(sys: Sys, st: State) {
    st.uresult == Ok && !st.nsref && !st.vis.m.doomed ==>
      exists t {:trigger Answerable(sys, st, t)} :: Answerable(sys, st, t)
  }

  // ---- steps that are Calm -----------------------------------------------------------------------

  /** What the main invariant gives for this. */
  ghost predicate Base(sys: Sys, st: State) {
    && st.ts.Keys == sys.tasks && sys.u in st.ts
    && (forall t {:trigger st.ts[t]} :: t in st.ts ==> st.ts[t].refs >= 0 && RetFine(st.ts[t]))
    && (forall t {:trigger st.ts[t]} :: t in st.ts && Legit(st.ts[t].pc) ==> st.ts[t].rcu && t != sys.u)
    && (forall t {:trigger st.ts[t]} ::
          t in st.ts && (st.ts[t].pc.UTree? || st.ts[t].pc.URet? || st.ts[t].pc.UNsPut?) ==> t == sys.u)
    && (Late(sys, st) ==> !st.vis.m.ns && !st.vis.m.hashed && (!sys.lazy ==> !ViaPwd(sys, st)))
    && (st.uresult == Ok ==> st.vis.m.sync == !sys.lazy)
    && (Awaiting(st.ts[sys.u].pc) || st.ts[sys.u].pc.UTree? ==> st.nsref) && (st.ts[sys.u].pc.URet? ==> !st.nsref)
    && (!st.vis.m.doomed ==> !Cleaning(st))
  }

  /** Before the decrement of a put. */
  ghost predicate Puts(l: Label) { l.PEnter? || l.PFast? || l.PLock? || l.PMb? || l.PDec? }

  ghost predicate Awaiting(l: Label) { l.UUnlock? || l.UNsUnlock? || l.UGpWait? || l.UNsPut? }

  lemma {:induction false} BaseTask(sys: Sys, st: State, t: Tid)
    requires Inv(sys, st) && t in sys.tasks
    ensures t in st.ts && st.ts[t].refs >= 0 && RetFine(st.ts[t]) && (Legit(st.ts[t].pc) ==> st.ts[t].rcu && t != sys.u)
    ensures st.ts[t].pc.UTree? || st.ts[t].pc.URet? || st.ts[t].pc.UNsPut? ==> t == sys.u
    ensures t == sys.u && (Awaiting(st.ts[t].pc) || st.ts[t].pc.UTree?) ==> st.nsref
    ensures t == sys.u && st.ts[t].pc.URet? ==> !st.nsref
  {
    hide Inv, BufOK, LockTask, FlagTask, Shown, SumOK;
    Actor(sys, st, t);
  }

  lemma {:induction false} BaseLate(sys: Sys, st: State)
    requires Inv(sys, st)
    ensures Late(sys, st) ==> !st.vis.m.ns && !st.vis.m.hashed && (!sys.lazy ==> !ViaPwd(sys, st))
    ensures st.uresult == Ok ==> st.vis.m.sync == !sys.lazy
    ensures !st.vis.m.doomed ==> !Cleaning(st)
  {
    hide Tasks, Counted, Sums, FreeOK;
    if st.uresult == Ok && !sys.lazy {
      forall h | h in sys.holders && At(st, h, HIdle)
        ensures st.ts[h].refs == 0
      { assert Quiet(st.vis.seqv, st.ts[h]); }
    }
  }

  lemma {:induction false} InvBase(sys: Sys, st: State)
    requires Inv(sys, st)
    ensures Base(sys, st)
  {
    SysOf(sys, st);
    BaseLate(sys, st);
    hide Inv, Late, ViaPwd, RetFine, Legit, Cleaning;
    forall t | t in st.ts
      ensures st.ts[t].refs >= 0 && RetFine(st.ts[t]) && (Legit(st.ts[t].pc) ==> st.ts[t].rcu && t != sys.u)
      ensures st.ts[t].pc.UTree? || st.ts[t].pc.URet? || st.ts[t].pc.UNsPut? ==> t == sys.u
    { BaseTask(sys, st, t); }
    BaseTask(sys, st, sys.u);
  }

  /** Nobody gets there but through the grace period. */
  lemma {:induction false} LateBefore(sys: Sys, st: State, t: Tid, z: State)
    requires Base(sys, st) && Calm(sys, st, t, z) && Late(sys, z)
    ensures Late(sys, st) && (st.ts[sys.u].pc.UGpWait? ==> t != sys.u && z.ts[sys.u].pc.UGpWait?)
  {
    hide Eff, ViaPwd, RetFine;
  }

  lemma {:induction false} CalmOther(sys: Sys, st: State, t: Tid, z: State, s: Tid)
    requires Base(sys, st) && Calm(sys, st, t, z) && s in st.ts && s != t && TaskLate(sys, st, s)
    ensures s in z.ts && TaskLate(sys, z, s)
  {
    if Late(sys, z) { LateBefore(sys, st, t, z); }
    hide Base, Eff, Reads, Legit, Mine, CountStored, Late;
  }

  lemma {:induction false} CalmOwn(sys: Sys, st: State, t: Tid, z: State)
    requires Base(sys, st) && Base(sys, z) && Calm(sys, st, t, z) && TaskLate(sys, st, t)
    ensures TaskLate(sys, z, t)
  {
    if Late(sys, z) { LateBefore(sys, st, t, z); }
    hide Reads, CountStored, Late, ViaPwd, RetFine, Way;
  }

  lemma {:induction false} CalmGone(sys: Sys, st: State, t: Tid, z: State)
    requires Base(sys, st) && Calm(sys, st, t, z) && PutGone(sys, st)
    ensures PutGone(sys, z)
  {
    hide Eff, ViaPwd, RetFine, Legit, Cleaning;
  }

  lemma {:induction false} CalmGoing(sys: Sys, st: State, t: Tid, z: State)
    requires Base(sys, st) && Calm(sys, st, t, z) && Going(st)
    ensures Going(z)
  {
    hide Base, ViaPwd, Way, CountStored, Reads, Legit;
    if z.vis.m.doomed && z.cleaner == NOBODY {
      if st.vis.m.doomed {
        var s :| s in st.ts && st.ts[s].pc.PCleanup?;
        assert z.ts[s].pc.PCleanup?;
      } else {
        assert z.ts[t].pc.PCleanup?;
      }
    }
  }

  // ---- the other steps -----------------------------------------------------------------------------

  /** What all the invariants together say. */
  ghost predicate EndInv(sys: Sys, st: State) { AllLate(sys, st) && PutGone(sys, st) && Going(st) }

  lemma {:induction false} CalmKeeps(sys: Sys, st: State, t: Tid, z: State)
    requires Base(sys, st) && Base(sys, z) && Calm(sys, st, t, z) && EndInv(sys, st)
    ensures EndInv(sys, z)
  {
    CalmGone(sys, st, t, z);
    CalmGoing(sys, st, t, z);
    assert z.ts.Keys == st.ts.Keys by { CalmKeys(sys, st, t, z); }
    hide Base, Calm, TaskLate, PutGone, Going;
    forall s | s in z.ts ensures TaskLate(sys, z, s) {
      assert TaskLate(sys, st, s);
      if s == t { CalmOwn(sys, st, t, z); } else { CalmOther(sys, st, t, z, s); }
    }
  }

  lemma {:induction false} CalmKeys(sys: Sys, st: State, t: Tid, z: State)
    requires Calm(sys, st, t, z)
    ensures z.ts.Keys == st.ts.Keys
  {
    hide Eff, Way;
  }

  /** cleanup_mnt() waits for all that read. */
  lemma {:induction false} CleanupKeeps(sys: Sys, st: State, t: Tid, z: State)
    requires Base(sys, st) && PutCleanup(st, t, z) && EndInv(sys, st) && t != NOBODY
    ensures EndInv(sys, z)
  {
    CleanupForm(sys, st, t, z);
    hide Base, PutCleanup, TaskLate, PutGone;
    forall s | s in z.ts ensures TaskLate(sys, z, s) {
      assert TaskLate(sys, st, s);
      CleanupTask(sys, st, t, z, s);
    }
    CleanupGone(sys, st, t, z);
  }

  ghost predicate Cleaned(sys: Sys, st: State, t: Tid, z: State) {
    && t in st.ts && st.ts[t].pc.PCleanup? && RetFine(st.ts[t]) && sys.u in st.ts
    && z == st.(ts := st.ts[t := st.ts[t].(pc := st.ts[t].ret)], gpfree := Grace(true, Readers(st)), cleaner := t)
  }

  lemma {:induction false} CleanupForm(sys: Sys, st: State, t: Tid, z: State)
    requires Base(sys, st) && PutCleanup(st, t, z)
    ensures Cleaned(sys, st, t, z) && z.ts.Keys == st.ts.Keys
  {
    hide Late, ViaPwd, RetFine, Cleaning;
  }

  lemma {:induction false} CleanupTask(sys: Sys, st: State, t: Tid, z: State, s: Tid)
    requires Cleaned(sys, st, t, z) && s in st.ts && TaskLate(sys, st, s)
    ensures s in z.ts && TaskLate(sys, z, s)
  {
    hide CountStored, Reads, Legit;
    assert !Reads(PCleanup) && !Legit(st.ts[t].ret) by { OutOfAll(st.ts[t]); }
  }

  lemma {:induction false} OutOfAll(k: Task)
    requires k.pc.PCleanup? && RetFine(k)
    ensures !Reads(PCleanup) && !Legit(k.ret)
  {
  }

  lemma {:induction false} CleanupGone(sys: Sys, st: State, t: Tid, z: State)
    requires Cleaned(sys, st, t, z) && PutGone(sys, st)
    ensures PutGone(sys, z)
  {
  }

  /** A state but for its buffers and what can be seen of them. */
  ghost predicate Stores(st: State, z: State) {
    && z == st.(vis := z.vis, ts := z.ts) && z.ts.Keys == st.ts.Keys
    && z.vis.m == st.vis.m.(hashed := z.vis.m.hashed, ns := z.vis.m.ns)
    && forall s {:trigger z.ts[s]} :: s in st.ts ==> z.ts[s] == st.ts[s].(buf := z.ts[s].buf)
  }

  lemma {:induction false} StoresOn(a: State, b: State, c: State)
    requires Stores(a, b) && Stores(b, c)
    ensures Stores(a, c)
  {
  }

  lemma {:induction false} DrainStores(st: State, t: Tid)
    requires t in st.ts
    ensures Stores(st, Drained(st, t, [])) && Drained(st, t, []).ts[t].buf == []
  {
    DrainIs(st, t, []);
    hide Drained;
  }

  lemma {:induction false} AllStores(st: State, order: seq<Tid>)
    requires forall s :: s in order ==> s in st.ts
    ensures Stores(st, DrainedAll(st, order))
    decreases |order|
  {
    hide Drained;
    if order != [] {
      var y := Drained(st, order[0], []);
      DrainStores(st, order[0]);
      AllStores(y, order[1..]);
      hide Stores;
      StoresOn(st, y, DrainedAll(y, order[1..]));
    } else {
      assert forall s :: s in st.ts ==> st.ts[s] == st.ts[s].(buf := st.ts[s].buf);
    }
  }

  lemma {:induction false} AllEmpty(st: State, order: seq<Tid>, s: Tid)
    requires (forall t :: t in order ==> t in st.ts) && s in st.ts && (s in order || st.ts[s].buf == [])
    ensures s in DrainedAll(st, order).ts && DrainedAll(st, order).ts[s].buf == []
    decreases |order|
  {
    hide Drained;
    if order != [] {
      var y := Drained(st, order[0], []);
      DrainIs(st, order[0], []);
      assert order == [order[0]] + order[1..];
      AllEmpty(y, order[1..], s);
    }
  }

  lemma {:induction false} GpStart(sys: Sys, st: State, z: State)
    requires sys.Valid() && Base(sys, st) && NsUnlock(sys, st, sys.u, z) && EndInv(sys, st)
    ensures EndInv(sys, z)
  {
    StartForm(sys, st, z);
    assert st.nsref;
    hide NsUnlock, Base, TaskLate;
    forall s | s in z.ts ensures TaskLate(sys, z, s) {
      assert TaskLate(sys, st, s);
      StartTask(sys, st, z, s);
    }
    GpGoing(st, z);
  }

  /** Everybody's buffer is out, and the readers are waited for. */
  ghost predicate Started(sys: Sys, st: State, z: State) {
    && sys.u in st.ts && z.ts.Keys == st.ts.Keys && z.gp.wait == Readers(st) && z.gpfree == st.gpfree
    && z.uresult == st.uresult && z.cleaner == st.cleaner && z.nsref == st.nsref && z.nsput == st.nsput
    && z.vis.m.doomed == st.vis.m.doomed && z.vis.m.freed == st.vis.m.freed && st.ts[sys.u].pc.UNsUnlock?
    && forall s {:trigger z.ts[s]} :: s in st.ts ==>
         z.ts[s] == st.ts[s].(buf := [], pc := if s == sys.u then UGpWait else st.ts[s].pc)
  }

  lemma {:induction false} StartForm(sys: Sys, st: State, z: State)
    requires sys.Valid() && st.ts.Keys == sys.tasks && sys.u in st.ts && NsUnlock(sys, st, sys.u, z)
    ensures Started(sys, st, z)
  {
    var y := Goto(st, sys.u, UGpWait).(gp := Grace(true, Readers(st)));
    AllStores(y, sys.order);
    hide DrainedAll, Readers;
    forall s | s in st.ts ensures z.ts[s] == st.ts[s].(buf := [], pc := if s == sys.u then UGpWait else st.ts[s].pc) {
      AllEmpty(y, sys.order, s);
      assert z.ts[s] == y.ts[s].(buf := z.ts[s].buf);
    }
  }

  lemma {:induction false} StartTask(sys: Sys, st: State, z: State, s: Tid)
    requires Started(sys, st, z) && s in st.ts && TaskLate(sys, st, s) && (Legit(st.ts[s].pc) ==> st.ts[s].rcu)
    ensures s in z.ts && TaskLate(sys, z, s)
  {
    NoneStored();
    hide CountStored;
    assert z.ts[s].pc == st.ts[s].pc || s == sys.u;
  }

  lemma {:induction false} GpGoing(st: State, z: State)
    requires Going(st) && z.cleaner == st.cleaner && z.gpfree == st.gpfree && z.ts.Keys == st.ts.Keys
    requires z.gp.wait <= st.ts.Keys
    requires z.vis.m.doomed == st.vis.m.doomed && z.vis.m.freed == st.vis.m.freed
    requires forall s {:trigger z.ts[s]} :: s in st.ts && st.ts[s].pc.PCleanup? ==> z.ts[s].pc.PCleanup?
    ensures Going(z)
  {
    if Cleaning(st) {
      var s :| s in st.ts && st.ts[s].pc.PCleanup?;
      assert z.ts[s].pc.PCleanup?;
    }
  }

  lemma {:induction false} GpEnd(sys: Sys, st: State, z: State)
    requires Base(sys, st) && GpWait(st, sys.u, z) && EndInv(sys, st)
    ensures EndInv(sys, z)
  {
    GpGoing(st, z);
    hide ViaPwd, CountStored, Cleaning, RetFine;
    forall s | s in z.ts ensures TaskLate(sys, z, s) { assert TaskLate(sys, st, s); }
  }

  lemma {:induction false} FlushKeepsEnd(sys: Sys, st: State, t: Tid, z: State)
    requires Base(sys, st) && Flush(st, t, z) && EndInv(sys, st)
    ensures EndInv(sys, z)
  {
    var i :| Flushable(st.ts[t].buf, i) && z == FlushAt(st, t, i);
    if CountStored(z.ts[t].buf) { RemoveStored(st.ts[t].buf, i); }
    FlushMount(st, t, i);
    hide Flushable, Apply, Remove, ViaPwd, CountStored, RetFine;
    GpGoing(st, z);
    forall s | s in z.ts ensures TaskLate(sys, z, s) { assert TaskLate(sys, st, s); }
  }

  lemma {:induction false} RemoveStored(b: seq<Store>, i: nat)
    requires i < |b| && CountStored(Remove(b, i))
    ensures CountStored(b)
  {
    var r := Remove(b, i);
    var j :| 0 <= j < |r| && r[j].StCnt?;
    assert r[j] == b[if j < i then j else j + 1];
  }

  lemma {:induction false} FlushMount(st: State, t: Tid, i: nat)
    requires t in st.ts && i < |st.ts[t].buf|
    ensures var m := FlushAt(st, t, i).vis.m; m.doomed == st.vis.m.doomed && m.freed == st.vis.m.freed
  {
  }

  lemma {:induction false} FreeKeeps(sys: Sys, st: State, z: State)
    requires Base(sys, st) && RcuFree(st, z) && EndInv(sys, st)
    ensures EndInv(sys, z)
  {
    hide ViaPwd, CountStored, RetFine;
    forall s | s in z.ts ensures TaskLate(sys, z, s) { assert TaskLate(sys, st, s); }
    if Cleaning(st) {
      var s :| s in st.ts && st.ts[s].pc.PCleanup?;
      assert z.ts[s].pc.PCleanup?;
    }
  }

  lemma {:induction false} TaskEnd(sys: Sys, st: State, t: Tid, z: State)
    requires Inv(sys, st) && Inv(sys, z) && t in sys.tasks && EndInv(sys, st)
    requires TaskStep(sys, st, t, z) || Flush(st, t, z)
    ensures EndInv(sys, z)
  {
    hide Inv, Base, EndInv, TaskStep, Flush, SumOK, TaskInv;
    InvBase(sys, st);
    if Flush(st, t, z) { FlushKeepsEnd(sys, st, t, z); }
    else {
      InvBase(sys, z);
      SysOf(sys, st);
      BaseTask(sys, st, t);
      Actor(sys, st, t);
      OwnEnd(sys, st, t, z);
    }
  }

  lemma {:induction false} NextEnd(sys: Sys, st: State, z: State)
    requires Inv(sys, st) && Inv(sys, z) && Next(sys, st, z) && EndInv(sys, st)
    ensures EndInv(sys, z)
  {
    hide Inv, Base, EndInv, TaskStep, Flush, RcuFree;
    if RcuFree(st, z) {
      InvBase(sys, st);
      FreeKeeps(sys, st, z);
    } else {
      var t :| t in sys.tasks && (TaskStep(sys, st, t, z) || Flush(st, t, z));
      TaskEnd(sys, st, t, z);
    }
  }

  lemma {:induction false} OwnEnd(sys: Sys, st: State, t: Tid, z: State)
    requires sys.Valid() && Base(sys, st) && Base(sys, z) && EndInv(sys, st) && TaskStep(sys, st, t, z) && t != NOBODY
    requires t in st.ts && st.ts[t].refs >= 0 && RetFine(st.ts[t])
    ensures EndInv(sys, z)
  {
    hide Base, EndInv, Calm, TaskStep, PutCleanup, NsUnlock, GpWait, RetFine;
    StepCalm(sys, st, t, z);
    if Calm(sys, st, t, z) { CalmKeeps(sys, st, t, z); }
    else if PutCleanup(st, t, z) { CleanupKeeps(sys, st, t, z); }
    else if NsUnlock(sys, st, t, z) { GpStart(sys, st, z); }
    else { GpEnd(sys, st, z); }
  }

  // ---- somebody is answerable --------------------------------------------------------------------

  /** Nobody but t has a reference: nobody but t counts. */
  lemma {:induction false} AloneThen(sys: Sys, st: State, t: Tid)
    requires Inv(sys, st) && AllLate(sys, st) && Late(sys, st) && t in sys.tasks && t in st.ts && InZone(st.ts[t].pc)
    requires !st.nsref
    requires forall s {:trigger st.ts[s]} :: s in st.ts ==> st.ts[s].refs <= 0
    ensures Alone(sys, st, t)
  {
    SysOf(sys, st);
    LockOf(sys, st, t);
    hide Inv, Late, CountStored, InZone;
    forall s | s in st.ts && s != t ensures !Counts(st.ts[s]) {
      assert TaskLate(sys, st, s);
      NotSumming(sys, st, t, s);
    }
  }

  lemma {:induction false} LockOf(sys: Sys, st: State, t: Tid)
    requires Inv(sys, st) && t in sys.tasks && t in st.ts && InZone(st.ts[t].pc)
    ensures st.vis.lockv == t
  {
    hide Inv, SumOK, TaskInv;
    Actor(sys, st, t);
    SumLocked(sys, st, t);
  }

  /** One sum at a time. */
  lemma {:induction false} NotSumming(sys: Sys, st: State, t: Tid, s: Tid)
    requires Inv(sys, st) && st.vis.lockv == t && s in sys.tasks && s != t && s in st.ts
    ensures !st.ts[s].pc.PSum? && !st.ts[s].pc.PCheck?
  {
    if st.ts[s].pc.PSum? || st.ts[s].pc.PCheck? { LockOf(sys, st, s); }
    hide Inv;
  }

  /** Whose reference goes: the task is in a sum afterwards. */
  lemma {:induction false} RefStays(sys: Sys, st: State, t: Tid, z: State, s: Tid)
    requires Inv(sys, st) && Inv(sys, z) && AllLate(sys, st) && s in st.ts && st.ts[s].refs > 0 && t in sys.tasks
    requires TaskStep(sys, st, t, z) || Flush(st, t, z)
    requires st.uresult == Ok && !st.nsref && !st.vis.m.doomed
    ensures s in z.ts && (z.ts[s].refs > 0 || (st.ts[s].pc.PDec? && z.ts[s].pc.PSum?))
  {
    hide Inv, Base, TaskStep, Flush, Calm, PutCleanup, AllLate, NsUnlock, GpWait;
    if t != s { Else(sys, st, t, z, s); }
    else if Flush(st, t, z) { FlushSame(st, t, z); }
    else {
      InvBase(sys, st);
      BaseTask(sys, st, t);
      StepCalm(sys, st, t, z);
      if Calm(sys, st, t, z) { RefCalm(sys, st, t, z); }
      else if PutCleanup(st, t, z) { RefCleanup(st, t, z); }
      else { RefGp(sys, st, t, z); }
    }
  }

  /** With the namespace's reference gone no put is a fast one, and no walker drops its
      reference without a sum. */
  lemma {:induction false} DueLabels(sys: Sys, st: State, t: Tid)
    requires Base(sys, st) && AllLate(sys, st) && t in st.ts && st.uresult == Ok && !st.nsref && !st.vis.m.doomed
    ensures Late(sys, st) && !st.ts[t].pc.PFast? && (st.ts[t].pc.WFlags? ==> !st.vis.m.sync)
  {
    hide ViaPwd, RetFine, Cleaning, CountStored, Mine;
    assert TaskLate(sys, st, t);
    assert st.ts[t].pc.WFlags? ==> Legit(st.ts[t].pc);
  }

  lemma {:induction false} RefCalm(sys: Sys, st: State, t: Tid, z: State)
    requires Base(sys, st) && AllLate(sys, st) && Calm(sys, st, t, z) && st.ts[t].refs > 0
    requires st.uresult == Ok && !st.nsref && !st.vis.m.doomed
    ensures t in z.ts && (z.ts[t].refs > 0 || (st.ts[t].pc.PDec? && z.ts[t].pc.PSum?))
  {
    DueLabels(sys, st, t);
    hide Base, AllLate, Late, Outer, ViaPwd, CountStored, Mine, Reads, Legit;
    assert t in z.ts by { CalmKeys(sys, st, t, z); }
  }

  lemma {:induction false} RefCleanup(st: State, t: Tid, z: State)
    requires PutCleanup(st, t, z)
    ensures t in st.ts && t in z.ts && z.ts[t].refs == st.ts[t].refs
  {
  }

  lemma {:induction false} RefGp(sys: Sys, st: State, t: Tid, z: State)
    requires NsUnlock(sys, st, t, z) || GpWait(st, t, z)
    ensures t in st.ts && t in z.ts && z.ts[t].refs == st.ts[t].refs
  {
    if NsUnlock(sys, st, t, z) { AllStores(Goto(st, t, UGpWait).(gp := Grace(true, Readers(st))), sys.order); }
    hide DrainedAll, Readers;
  }

  lemma {:induction false} SumsIn(sys: Sys, st: State, t: Tid, z: State)
    requires Inv(sys, st) && Inv(sys, z) && Next(sys, st, z) && t in sys.tasks && t in st.ts && t in z.ts
    requires st.ts[t].pc.PDec? && z.ts[t].pc.PSum?
    ensures Answerable(sys, z, t)
  {
    hide Inv, Next, Exact, Alone, InZone, Summing;
    SysOf(sys, st);
    SysOf(sys, z);
    InNow();
    ZoneStep(sys, st, t, z);
  }

  lemma {:induction false} InNow()
    ensures InZone(PSum) && !InZone(PDec) && !Summing(PDec)
  {
  }

  /** The sum t is in goes on, or dooms the mount. */
  lemma {:induction false} SumGoesOn(sys: Sys, st: State, t: Tid, z: State)
    requires Inv(sys, st) && Inv(sys, z) && Next(sys, st, z) && t in sys.tasks && t in st.ts
    requires InZone(st.ts[t].pc) && Exact(sys, st, t) && Alone(sys, st, t) && st.ts[t].refs <= 0
    requires st.uresult == Ok && !st.nsref && !st.vis.m.doomed
    ensures Answerable(sys, z, t) || z.vis.m.doomed
  {
    SysOf(sys, st);
    SysOf(sys, z);
    InvBase(sys, z);
    hide Inv, Next, Exact, Alone;
    if InZone(z.ts[t].pc) { ZoneStep(sys, st, t, z); }
    else { LeavesDoomed(sys, st, t, z); }
  }

  /** It does not end otherwise. */
  lemma {:induction false} LeavesDoomed(sys: Sys, st: State, t: Tid, z: State)
    requires Inv(sys, st) && Next(sys, st, z) && t in sys.tasks && t in st.ts && t in z.ts
    requires InZone(st.ts[t].pc) && !InZone(z.ts[t].pc) && |st.vis.cntv| == |st.vis.putv| == sys.ncpu
    requires Exact(sys, st, t)
    requires st.ts[t].refs <= 0 && st.uresult == Ok && !st.nsref && !st.vis.m.doomed
    ensures Cleaning(z)
  {
    hide Inv, Next, TaskInv, PutCheck;
    LeavesSum(sys, st, t, z);
    CheckStep(sys, st, t, z);
    CheckOwn(sys, st, t);
    assert st.ts[t].acc == 0;
    LastDooms(st, t, z);
  }

  lemma {:induction false} LastDooms(st: State, t: Tid, z: State)
    requires PutCheck(st, t, z) && t in st.ts && st.ts[t].acc == 0 && !st.vis.m.doomed
    ensures t in z.ts && z.ts[t].pc.PCleanup?
  {
    hide Drained;
  }

  lemma {:induction false} LeavesSum(sys: Sys, st: State, t: Tid, z: State)
    requires Inv(sys, st) && Next(sys, st, z) && t in sys.tasks && t in st.ts && t in z.ts && st.uresult == Ok
    requires InZone(st.ts[t].pc) && !InZone(z.ts[t].pc)
    ensures st.ts[t].pc.PCheck?
  {
    hide Inv, TaskStep, Flush, TaskInv, SumOK;
    NotUser(sys, st, t);
    if !RcuFree(st, z) {
      var s :| s in sys.tasks && (TaskStep(sys, st, s, z) || Flush(st, s, z));
      if s != t { Else(sys, st, s, z, t); }
      else if Flush(st, t, z) { FlushPc(st, t, z); }
      else if Summing(st.ts[t].pc) { OnlySum(sys, st, t, z); }
    }
  }

  lemma {:induction false} NotUser(sys: Sys, st: State, t: Tid)
    requires Inv(sys, st) && t in sys.tasks && t in st.ts && st.uresult == Ok
    ensures !st.ts[t].pc.USum? && !st.ts[t].pc.UBusy?
  {
    hide Tasks, Counted, Sums, DoomedOK, FreeOK, SyncOK;
    UserOnly(sys, st, t);
  }

  lemma {:induction false} UserOnly(sys: Sys, st: State, t: Tid)
    requires Inv(sys, st) && t in sys.tasks
    ensures t in st.ts && (st.ts[t].pc.USum? || st.ts[t].pc.UBusy? ==> t == sys.u)
  {
    hide Inv, BufOK, LockTask, FlagTask, Shown, SumOK;
    Actor(sys, st, t);
  }

  /** At the step that drops the namespace's reference the umounter is in its sum. */
  lemma {:induction false} NsGoes(sys: Sys, st: State, z: State)
    requires Inv(sys, st) && Inv(sys, z) && Next(sys, st, z) && EndInv(sys, st)
    requires st.uresult == Ok && st.nsref && !z.nsref && !st.vis.m.doomed
    ensures Answerable(sys, z, sys.u) || z.vis.m.doomed
  {
    hide Inv, TaskStep, Flush, EndInv, RcuFree, Answerable;
    assert !RcuFree(st, z) by { hide Next; NsSame(st, z); }
    var t :| t in sys.tasks && (TaskStep(sys, st, t, z) || Flush(st, t, z));
    hide Next;
    BaseTask(sys, st, t);
    if Flush(st, t, z) { NsFlush(st, t, z); } else { NsGone(sys, st, t, z); }
  }

  lemma {:induction false} NsGone(sys: Sys, st: State, t: Tid, z: State)
    requires Inv(sys, st) && Inv(sys, z) && Next(sys, st, z) && EndInv(sys, st)
    requires t in sys.tasks && t in st.ts && TaskStep(sys, st, t, z) && st.uresult == Ok && st.nsref && !z.nsref
    ensures Answerable(sys, z, sys.u)
  {
    assert AllLate(sys, st);
    BaseTask(sys, st, t);
    hide Inv, Next, EndInv, AllLate, TaskStep, Calm, RetFine, Legit, PutCleanup, NsUnlock, GpWait, Answerable;
    StepCalm(sys, st, t, z);
    NsStep(sys, st, t, z);
    SumsIn(sys, st, t, z);
  }

  lemma {:induction false} NsSame(st: State, z: State)
    ensures RcuFree(st, z) ==> z.nsref == st.nsref
  {
  }

  lemma {:induction false} NsFlush(st: State, t: Tid, z: State)
    requires Flush(st, t, z)
    ensures z.nsref == st.nsref && z.uresult == st.uresult && z.vis.m.doomed == st.vis.m.doomed
  {
  }

  lemma {:induction false} NsStep(sys: Sys, st: State, t: Tid, z: State)
    requires Calm(sys, st, t, z) || PutCleanup(st, t, z)
        || (t == sys.u && (NsUnlock(sys, st, t, z) || GpWait(st, t, z)))
    requires AllLate(sys, st) && st.uresult == Ok && st.nsref && !z.nsref && t in st.ts
    ensures t == sys.u && t in z.ts && st.ts[t].pc.PDec? && z.ts[t].pc.PSum?
  {
    hide Calm, PutCleanup, NsUnlock, GpWait, TaskLate;
    if PutCleanup(st, t, z) { NsCleanup(st, t, z); }
    else if NsUnlock(sys, st, t, z) { NsGp(sys, st, t, z); }
    else if GpWait(st, t, z) { NsWait(st, t, z); }
    else {
      assert TaskLate(sys, st, t);
      NsCalm(sys, st, t, z);
    }
  }

  lemma {:induction false} NsCleanup(st: State, t: Tid, z: State)
    requires PutCleanup(st, t, z)
    ensures z.nsref == st.nsref && z.uresult == st.uresult && z.vis == st.vis
  {
    hide Readers;
  }

  lemma {:induction false} NsWait(st: State, t: Tid, z: State)
    requires GpWait(st, t, z)
    ensures z.nsref == st.nsref && z.uresult == st.uresult && z.vis == st.vis
  {
  }

  lemma {:induction false} NsGp(sys: Sys, st: State, t: Tid, z: State)
    requires NsUnlock(sys, st, t, z)
    ensures z.nsref == st.nsref && z.uresult == st.uresult && z.vis.m.doomed == st.vis.m.doomed
  {
    AllStores(Goto(st, t, UGpWait).(gp := Grace(true, Readers(st))), sys.order);
    hide DrainedAll, Readers;
  }

  lemma {:induction false} NsCalm(sys: Sys, st: State, t: Tid, z: State)
    requires Calm(sys, st, t, z) && TaskLate(sys, st, t) && st.uresult == Ok && st.nsref && !z.nsref
    ensures t == sys.u && t in z.ts && st.ts[t].pc.PDec? && z.ts[t].pc.PSum?
  {
    hide Reads, Legit, CountStored, ViaPwd, Waited;
  }


  // ---- every run -------------------------------------------------------------------------------------

  /** The umount had succeeded before, and the mount was not doomed then. */
  lemma {:induction false} OkBefore(sys: Sys, st: State, z: State)
    requires Inv(sys, st) && Inv(sys, z) && Next(sys, st, z)
    requires z.uresult == Ok && !z.nsref && !z.vis.m.doomed
    ensures st.uresult == Ok && !st.vis.m.doomed
  {
    hide Inv, TaskStep, Flush, RcuFree, Base;
    if RcuFree(st, z) { FreeSame(st, z); }
    else {
      var t :| t in sys.tasks && (TaskStep(sys, st, t, z) || Flush(st, t, z));
      if Flush(st, t, z) { NsFlush(st, t, z); } else { OwnBefore(sys, st, t, z); }
    }
  }

  lemma {:induction false} FreeSame(st: State, z: State)
    requires RcuFree(st, z)
    ensures z.ts == st.ts && z.nsref == st.nsref && z.uresult == st.uresult && z.vis.m.doomed == st.vis.m.doomed
  {
  }

  lemma {:induction false} OwnBefore(sys: Sys, st: State, t: Tid, z: State)
    requires Inv(sys, st) && Inv(sys, z) && t in sys.tasks && TaskStep(sys, st, t, z)
    requires z.uresult == Ok && !z.nsref && !z.vis.m.doomed
    ensures st.uresult == Ok && !st.vis.m.doomed
  {
    hide Inv, TaskStep, Base, Calm, PutCleanup, NsUnlock, GpWait;
    InvBase(sys, st);
    InvBase(sys, z);
    BaseTask(sys, st, t);
    StepCalm(sys, st, t, z);
    if PutCleanup(st, t, z) { NsCleanup(st, t, z); }
    else if NsUnlock(sys, st, t, z) { NsGp(sys, st, t, z); }
    else if GpWait(st, t, z) { NsWait(st, t, z); }
    else { CalmBefore(sys, st, t, z); }
  }

  lemma {:induction false} CalmBefore(sys: Sys, st: State, t: Tid, z: State)
    requires Base(sys, st) && Base(sys, z) && Calm(sys, st, t, z) && z.uresult == Ok && !z.nsref && !z.vis.m.doomed
    ensures st.uresult == Ok && !st.vis.m.doomed
  {
    hide Eff, Way, ViaPwd, RetFine, Late;
  }

  lemma {:induction false} StillAnswered(sys: Sys, st: State, t: Tid, z: State)
    requires Inv(sys, st) && Inv(sys, z) && Next(sys, st, z) && AllLate(sys, st) && Answerable(sys, st, t)
    requires st.uresult == Ok && !st.nsref && !st.vis.m.doomed && !z.vis.m.doomed
    ensures exists s {:trigger Answerable(sys, z, s)} :: Answerable(sys, z, s)
  {
    hide Inv, Exact, AllLate, TaskStep, Flush, RcuFree;
    SysOf(sys, st);
    SysOf(sys, z);
    if s :| s in st.ts && st.ts[s].refs > 0 {
      if RcuFree(st, z) { FreeSame(st, z); assert Answerable(sys, z, s); }
      else {
        var r :| r in sys.tasks && (TaskStep(sys, st, r, z) || Flush(st, r, z));
        RefStays(sys, st, r, z, s);
        if z.ts[s].refs > 0 { assert Answerable(sys, z, s); } else { hide Next; SumsIn(sys, st, s, z); }
      }
    } else {
      hide Next, Alone;
      assert Late(sys, st) by { LateNow(sys, st); }
      AloneThen(sys, st, t);
      SumGoesOn(sys, st, t, z);
    }
  }

  lemma {:induction false} LateNow(sys: Sys, st: State)
    requires Inv(sys, st) && st.uresult == Ok && !st.nsref
    ensures Late(sys, st)
  {
    hide Inv, Base;
    InvBase(sys, st);
    BaseTask(sys, st, sys.u) by { SysOf(sys, st); UserThere(sys, st); }
  }

  lemma {:induction false} UserThere(sys: Sys, st: State)
    requires Inv(sys, st)
    ensures sys.u in sys.tasks && sys.u in st.ts
  {
    hide Tasks, FlagsOK, Counted, Sums, DoomedOK, FreeOK, SyncOK;
  }

  lemma {:induction false} NextUnput(sys: Sys, st: State, z: State)
    requires Inv(sys, st) && Inv(sys, z) && Next(sys, st, z) && EndInv(sys, st) && Unput(sys, st)
    ensures Unput(sys, z)
  {
    hide Inv, Next, AllLate, PutGone, Going, Answerable;
    if z.uresult == Ok && !z.nsref && !z.vis.m.doomed {
      OkBefore(sys, st, z);
      if st.nsref { NsGoes(sys, st, z); }
      else {
        var t :| Answerable(sys, st, t);
        StillAnswered(sys, st, t, z);
      }
    }
  }

  lemma {:induction false} StartEnd(sys: Sys, st: State)
    requires sys.Valid() && Init(sys, st)
    ensures EndInv(sys, st) && Unput(sys, st)
  {
    NoneStored();
    hide CountStored;
    forall t | t in st.ts ensures TaskLate(sys, st, t) {}
  }

  lemma {:induction false} RunEnd(sys: Sys, b: seq<State>, i: nat)
    requires sys.Valid() && Run(sys, b) && i < |b|
    ensures Inv(sys, b[i]) && EndInv(sys, b[i]) && Unput(sys, b[i])
    decreases i
  {
    hide Inv, Next, EndInv, Unput, Init;
    RunInv(sys, b, i);
    if i == 0 { StartEnd(sys, b[0]); }
    else {
      RunEnd(sys, b, i - 1);
      assert Next(sys, b[i - 1], b[i]);
      NextEnd(sys, b[i - 1], b[i]);
      NextUnput(sys, b[i - 1], b[i]);
    }
  }

  // ---- the end ---------------------------------------------------------------------------------------

  ghost predicate Final(l: Label) { l.Done? || l.Lost? || l.WNone? }

  ghost predicate AllFinal(sys: Sys, st: State) {
    forall t {:trigger st.ts[t]} :: t in sys.tasks ==> t in st.ts && Final(st.ts[t].pc)
  }

  lemma {:induction false} FinalTask(sys: Sys, st: State, t: Tid)
    requires Inv(sys, st) && t in sys.tasks && t in st.ts && Final(st.ts[t].pc)
    ensures st.ts[t].refs == 0 && !InZone(st.ts[t].pc) && !Reads(st.ts[t].pc) && !st.ts[t].pc.PCleanup?
    ensures t == sys.u ==> st.ts[t].pc.Done?
  {
    hide Inv, BufOK, LockTask, FlagTask, Shown, SumOK;
    Actor(sys, st, t);
  }

  /** Everybody is done.  Then the umount has been decided; if it succeeded the mount is
      doomed, its cleanup has been done and it is freed, but for a grace period that
      nobody delays; if it was refused the mount is as it was, and not doomed. */
  lemma {:induction false} FreedInTheEnd(sys: Sys, b: seq<State>, i: nat)
    requires sys.Valid() && Run(sys, b) && i < |b| && AllFinal(sys, b[i])
    ensures b[i].uresult == Ok || b[i].uresult == Busy
    ensures b[i].uresult == Ok ==>
      && b[i].vis.m.doomed && b[i].cleaner != NOBODY
      && (b[i].vis.m.freed || exists z {:trigger RcuFree(b[i], z)} :: RcuFree(b[i], z))
    ensures b[i].uresult == Busy ==> !b[i].vis.m.doomed && b[i].vis.m.hashed
  {
    hide Run;
    var st := b[i];
    RunEnd(sys, b, i);
    EndOf(sys, st);
  }

  lemma {:induction false} EndOf(sys: Sys, st: State)
    requires Inv(sys, st) && EndInv(sys, st) && Unput(sys, st) && AllFinal(sys, st)
    ensures st.uresult == Ok || st.uresult == Busy
    ensures st.uresult == Ok ==>
      && st.vis.m.doomed && st.cleaner != NOBODY
      && (st.vis.m.freed || exists z {:trigger RcuFree(st, z)} :: RcuFree(st, z))
    ensures st.uresult == Busy ==> !st.vis.m.doomed && st.vis.m.hashed
  {
    SysOf(sys, st);
    EndFlags(sys, st);
    hide Inv, AllLate, PutGone, Going, Unput, Final;
    forall t | t in st.ts ensures Out(sys, st, t) { FinalTask(sys, st, t); }
    if st.uresult == Ok {
      EndDoomed(sys, st);
      EndFreed(sys, st);
    }
  }

  /** t has nothing to do with the mount any more. */
  ghost predicate Out(sys: Sys, st: State, t: Tid)
    requires t in st.ts
  {
    st.ts[t].refs == 0 && !InZone(st.ts[t].pc) && !Reads(st.ts[t].pc) && !st.ts[t].pc.PCleanup?
  }

  lemma {:induction false} EndDoomed(sys: Sys, st: State)
    requires sys.u in st.ts && st.ts[sys.u].pc.Done? && PutGone(sys, st) && Unput(sys, st) && st.uresult == Ok
    requires forall t {:trigger Out(sys, st, t)} :: t in st.ts ==> Out(sys, st, t)
    ensures st.vis.m.doomed
  {
    hide Exact, Reads, InZone;
    forall t ensures !Answerable(sys, st, t) { if t in st.ts { assert Out(sys, st, t); } }
    hide Answerable;
  }

  lemma {:induction false} EndFreed(sys: Sys, st: State)
    requires AllLate(sys, st) && Going(st) && st.vis.m.doomed
    requires forall t {:trigger Out(sys, st, t)} :: t in st.ts ==> Out(sys, st, t)
    ensures st.cleaner != NOBODY && (st.vis.m.freed || exists z {:trigger RcuFree(st, z)} :: RcuFree(st, z))
  {
    hide InZone, Reads, Late, CountStored, Mine, Legit;
    assert !Cleaning(st) by {
      forall t | t in st.ts ensures !st.ts[t].pc.PCleanup? { assert Out(sys, st, t); }
    }
    forall t: Tid ensures t !in st.gpfree.wait {
      assert t in st.ts ==> Out(sys, st, t) && TaskLate(sys, st, t);
    }
    if !st.vis.m.freed {
      assert RcuFree(st, st.(gpfree := Grace(false, {}), vis := st.vis.(m := st.vis.m.(freed := true))));
    }
  }

  lemma {:induction false} EndFlags(sys: Sys, st: State)
    requires Inv(sys, st) && AllFinal(sys, st)
    ensures sys.u in st.ts && st.ts[sys.u].pc.Done? && (st.uresult == Ok || st.uresult == Busy)
    ensures st.uresult == Busy ==> !st.vis.m.doomed && st.vis.m.hashed
  {
    UserThere(sys, st);
    FinalTask(sys, st, sys.u);
    hide Tasks, Counted, Sums, FreeOK, SyncOK;
  }

  // ---- never stuck -----------------------------------------------------------------------------------

  /** A step towards the end: no new reference, no migration. */
  ghost predicate Productive(sys: Sys, st: State, z: State) {
    exists t {:trigger TaskStep(sys, st, t, z)} {:trigger Flush(st, t, z)} :: t in sys.tasks &&
      (Flush(st, t, z) || (TaskStep(sys, st, t, z) && !HoldGet(st, t, z) && !Migrate(sys, st, t, z)))
  }

  lemma {:induction false} FlushGoes(sys: Sys, st: State, t: Tid) returns (z: State)
    requires t in sys.tasks && t in st.ts && st.ts[t].buf != []
    ensures Productive(sys, st, z)
  {
    z := FlushAt(st, t, 0);
    assert Flushable(st.ts[t].buf, 0);
    assert Flush(st, t, z);
  }

  /** What it takes for t to have a step of its own. */
  ghost predicate Free(sys: Sys, st: State, t: Tid)
    requires t in st.ts
  {
    var k := st.ts[t];
    && k.buf == [] && |st.vis.cntv| == |st.vis.putv| == sys.ncpu && (forall s :: s in sys.order ==> s in st.ts)
    && match k.pc
       case WStart => st.vis.seqv % 2 == 0
       case PLock | WLock | ULock => st.vis.lockv == NOBODY
       case UGpWait => st.gp.wait == {}
       case Done | Lost | WNone => false
       case _ => true
  }

  ghost predicate PutLabel(l: Label) { Puts(l) || l.PSum? || l.PCheck? || l.PCleanup? }

  lemma {:induction false} PutGoes(sys: Sys, st: State, t: Tid) returns (z: State)
    requires t in st.ts && Free(sys, st, t) && PutLabel(st.ts[t].pc)
    ensures Put(sys, st, t, z)
  {
    hide Put;
    if Puts(st.ts[t].pc) { z := EarlyGoes(sys, st, t); } else { z := LateGoes(sys, st, t); }
  }

  lemma {:induction false} EarlyGoes(sys: Sys, st: State, t: Tid) returns (z: State)
    requires t in st.ts && Free(sys, st, t) && Puts(st.ts[t].pc)
    ensures Put(sys, st, t, z)
  {
    hide ApplyAll, Drained, RcuOut, DropRef, Lock, PutStores, PushAll, PutSum, PutCheck, PutCleanup, Waited;
    var k := st.ts[t];
    match k.pc
    case PEnter => z := SetTask(st, t, k.(rcu := true, pc := if st.vis.m.ns then PFast else PLock));
    case PFast =>
      var y := Goto(RcuOut(DropRef(sys, st, t), t), t, k.ret);
      z := if Waited(st, t) then Drained(y, t, PutStores(st, t)) else PushAll(y, t, PutStores(st, t));
    case PLock => z := Goto(Lock(st, t), t, PMb);
    case PMb => z := Goto(st, t, PDec);
    case PDec =>
      var y := PushAll(DropRef(sys, st, t), t, PutStores(st, t));
      z := SetTask(y, t, y.ts[t].(acc := 0, ci := 0, pc := PSum));
    case _ =>
  }

  lemma {:induction false} LateGoes(sys: Sys, st: State, t: Tid) returns (z: State)
    requires t in st.ts && Free(sys, st, t) && (st.ts[t].pc.PSum? || st.ts[t].pc.PCheck? || st.ts[t].pc.PCleanup?)
    ensures Put(sys, st, t, z)
  {
    hide Drained, RcuOut, UnlockStores, Readers, ReadCnt, PutEnter, PutFast, PutLock, PutMb, PutDec;
    var k := st.ts[t];
    match k.pc
    case PSum =>
      z := if k.ci < 2 * sys.ncpu then SetTask(st, t, k.(acc := k.acc + ReadCnt(st.vis, k.buf, k.ci), ci := k.ci + 1))
           else Goto(st, t, PCheck);
    case PCheck =>
      var y := RcuOut(Drained(st, t, UnlockStores(st, t)), t);
      z := if k.acc != 0 || st.vis.m.doomed then Goto(y, t, k.ret)
           else Goto(y.(vis := y.vis.(m := y.vis.m.(doomed := true))), t, PCleanup);
    case PCleanup => z := Goto(st, t, k.ret).(gpfree := Grace(true, Readers(st)), cleaner := t);
    case _ =>
  }

  lemma {:induction false} WalkGoes(sys: Sys, st: State, t: Tid) returns (z: State)
    requires t in st.ts && Free(sys, st, t)
    requires st.ts[t].pc.WStart? || st.ts[t].pc.WLookup? || Legit(st.ts[t].pc) || st.ts[t].pc.WUse?
    ensures Walk(sys, st, t, z)
  {
    hide Walk;
    if st.ts[t].pc in {WStart, WLookup, WL1, WL2, WMb} {
      z := FirstGoes(sys, st, t);
    } else {
      z := ThenGoes(sys, st, t);
    }
  }

  lemma {:induction false} FirstGoes(sys: Sys, st: State, t: Tid) returns (z: State)
    requires t in st.ts && Free(sys, st, t) && st.ts[t].pc in {WStart, WLookup, WL1, WL2, WMb}
    ensures Walk(sys, st, t, z)
  {
    hide RcuOut, ViaPwd, Legit4, WalkLock, Flags, Use;
    var k := st.ts[t];
    match k.pc
    case WStart => z := SetTask(st, t, k.(rcu := true, sq := st.vis.seqv, pc := WLookup));
    case WLookup => z := if st.vis.m.hashed || ViaPwd(sys, st) then Goto(st, t, WL1) else Goto(RcuOut(st, t), t, WNone);
    case WL1 => z := if st.vis.seqv != k.sq then Goto(RcuOut(st, t), t, Lost) else Goto(st, t, WL2);
    case WL2 =>
      var y := PushAll(st, t, [StCnt(k.cpu, 1)]);
      z := SetTask(y, t, y.ts[t].(refs := y.ts[t].refs + 1, pc := WMb));
    case WMb => z := Goto(st, t, WL4);
    case _ =>
  }

  lemma {:induction false} FlagsGoes(sys: Sys, st: State, t: Tid) returns (z: State)
    requires t in st.ts && st.ts[t].pc.WFlags?
    ensures Flags(st, t, z)
  {
    hide Drained, RcuOut, PutStores, UnlockStores;
    if st.vis.m.sync || st.vis.m.doomed {
      var y := RcuOut(Drained(st, t, PutStores(st, t) + UnlockStores(st, t)), t);
      z := SetTask(y, t, y.ts[t].(refs := st.ts[t].refs - 1, pc := Lost));
    } else {
      var y := RcuOut(Drained(st, t, UnlockStores(st, t)), t);
      z := SetTask(y, t, y.ts[t].(ret := Lost, pc := PEnter));
    }
  }

  lemma {:induction false} ThenGoes(sys: Sys, st: State, t: Tid) returns (z: State)
    requires t in st.ts && Free(sys, st, t) && st.ts[t].pc in {WL4, WLock, WFlags, WUse}
    ensures Walk(sys, st, t, z)
  {
    hide Drained, RcuOut, Lock, Waited, StartWalk, Lookup, Legit1, Legit2, LegitMb, Flags;
    var k := st.ts[t];
    match k.pc
    case WL4 => z := Goto(st, t, if st.vis.seqv == k.sq then WUse else WLock);
    case WLock => z := Goto(Lock(st, t), t, WFlags);
    case WFlags =>
      z := FlagsGoes(sys, st, t);
    case WUse =>
      var y := RcuOut(SetTask(st, t, k.(ret := Done, pc := PEnter)), t);
      z := if Waited(st, t) then Drained(y, t, []) else y;
    case _ =>
  }

  lemma {:induction false} UserGoes(sys: Sys, st: State, t: Tid) returns (z: State)
    requires t in st.ts && Free(sys, st, t)
    requires st.ts[t].pc in {ULock, UMb, USum, UBusy, UTree, UUnlock, UNsUnlock, UGpWait, UNsPut, URet}
    ensures Umount(sys, st, t, z)
  {
    hide UmLock, UmMb, UmSum, UmBusy, UmTree, UmUnlock, NsUnlock, GpWait, NsPut, UmRet;
    if st.ts[t].pc in {ULock, UMb, USum, UBusy} { z := DecideGoes(sys, st, t); } else { z := TreeGoes(sys, st, t); }
  }

  lemma {:induction false} DecideGoes(sys: Sys, st: State, t: Tid) returns (z: State)
    requires t in st.ts && Free(sys, st, t) && st.ts[t].pc in {ULock, UMb, USum, UBusy}
    ensures UmLock(sys, st, t, z) || UmMb(st, t, z) || UmSum(sys, st, t, z) || UmBusy(st, t, z)
  {
    hide ApplyAll, Drained, Lock, UnlockStores, ReadCnt;
    var k := st.ts[t];
    match k.pc
    case ULock => z := Goto(Lock(st, t), t, if sys.lazy then UTree else UMb);
    case UMb => z := SetTask(st, t, k.(acc := 0, ci := 0, pc := USum));
    case USum =>
      z := if k.ci < 2 * sys.ncpu then SetTask(st, t, k.(acc := k.acc + ReadCnt(st.vis, k.buf, k.ci), ci := k.ci + 1))
           else Goto(st, t, UBusy);
    case UBusy =>
      if k.acc > 2 {
        var y := Drained(st, t, UnlockStores(st, t));
        z := SetTask(y, t, y.ts[t].(ret := Done, pc := PEnter)).(uresult := Busy);
      } else {
        z := Goto(st, t, UTree);
      }
    case _ =>
  }

  lemma {:induction false} TreeGoes(sys: Sys, st: State, t: Tid) returns (z: State)
    requires t in st.ts && Free(sys, st, t) && st.ts[t].pc in {UTree, UUnlock, UNsUnlock, UGpWait, UNsPut, URet}
    ensures UmTree(sys, st, t, z) || UmUnlock(st, t, z) || NsUnlock(sys, st, t, z) || GpWait(st, t, z)
        || NsPut(st, t, z)
            || UmRet(st, t, z)
  {
    hide ApplyAll, Drained, UnlockStores, DrainedAll, Readers;
    var k := st.ts[t];
    match k.pc
    case UTree =>
      var y := Goto(PushAll(st, t, [StHash(false), StNs(false)]), t, UUnlock);
      z := y.(vis := y.vis.(m := y.vis.m.(umount := true, sync := !sys.lazy)), uresult := Ok);
    case UUnlock => z := Goto(Drained(st, t, UnlockStores(st, t)), t, UNsUnlock);
    case UNsUnlock => z := DrainedAll(Goto(st, t, UGpWait).(gp := Grace(true, Readers(st))), sys.order);
    case UGpWait => z := Goto(st, t, UNsPut).(gp := Grace(false, {}));
    case UNsPut => z := SetTask(st, t, k.(ret := URet, pc := PEnter)).(nsput := true);
    case URet => z := SetTask(st, t, k.(ret := Done, pc := PEnter)).(nsput := false);
    case _ =>
  }

  lemma {:induction false} HoldGoes(sys: Sys, st: State, t: Tid) returns (z: State)
    requires t in st.ts && st.ts[t].pc.HIdle? && st.ts[t].refs >= 0
    ensures Hold(sys, st, t, z) && !HoldGet(st, t, z) && !Migrate(sys, st, t, z)
  {
    hide ApplyAll;
    var k := st.ts[t];
    z := if k.refs > 0 then SetTask(st, t, k.(ret := HIdle, pc := PEnter)) else Goto(st, t, Done);
    assert !z.ts[t].pc.HIdle?;
  }

  /** Whose label is whose. */
  lemma {:induction false} Kinds(sys: Sys, st: State, t: Tid)
    requires TaskInv(sys, st, t)
    ensures var l := st.ts[t].pc;
      || PutLabel(l) || Final(l)
      || (t in sys.walkers && (l.WStart? || l.WLookup? || Legit(l) || l.WUse?))
      || (t != sys.u && t !in sys.walkers && l.HIdle? && st.ts[t].refs >= 0)
      || (t == sys.u && l in {ULock, UMb, USum, UBusy, UTree, UUnlock, UNsUnlock, UGpWait, UNsPut, URet})
  {
    hide BufOK, LockTask, FlagTask, Shown;
  }

  lemma {:induction false} FreeGoes(sys: Sys, st: State, t: Tid) returns (z: State)
    requires sys.Valid() && TaskInv(sys, st, t) && t in sys.tasks && Free(sys, st, t)
    ensures Productive(sys, st, z)
  {
    Kinds(sys, st, t);
    NotFinal(sys, st, t);
    assert !st.ts[t].pc.HIdle? ==> forall z :: !HoldGet(st, t, z) && !Migrate(sys, st, t, z);
    hide TaskInv, Free, Put, Walk, Hold, Umount, HoldGet, Migrate, Final, Legit;
    if PutLabel(st.ts[t].pc) { z := PutGoes(sys, st, t); }
    else if st.ts[t].pc.HIdle? { z := HoldGoes(sys, st, t); }
    else if t == sys.u { z := UserGoes(sys, st, t); }
    else { z := WalkGoes(sys, st, t); }
    assert TaskStep(sys, st, t, z);
  }

  lemma {:induction false} NotFinal(sys: Sys, st: State, t: Tid)
    requires t in st.ts && Free(sys, st, t)
    ensures !Final(st.ts[t].pc)
  {
  }

  lemma {:induction false} LabelFree(sys: Sys, st: State, t: Tid)
    requires Inv(sys, st) && t in sys.tasks && t in st.ts && st.ts[t].buf == [] && !Final(st.ts[t].pc)
    requires st.vis.lockv == NOBODY || st.vis.lockv == t
    requires st.ts[t].pc.UGpWait? ==> st.gp.wait == {}
    ensures Free(sys, st, t)
  {
    SysOf(sys, st);
    Sizes(sys, st);
    hide Inv, BufOK, FlagTask, Shown, SumOK, SeqShape, Odd, LabelOK;
    Actor(sys, st, t);
  }

  lemma {:induction false} LockEven(sys: Sys, st: State, t: Tid)
    requires Inv(sys, st) && t in sys.tasks && t in st.ts && st.vis.lockv == t
    ensures InCS(st.ts[t].pc)
  {
    hide Inv, BufOK, FlagTask, Shown, SumOK, SeqShape, Odd, LabelOK, InCS;
    Actor(sys, st, t);
  }

  lemma {:induction false} InCsGoes(l: Label)
    requires InCS(l)
    ensures !Final(l) && !l.UGpWait?
  {
  }

  lemma {:induction false} ReaderLabel(l: Label)
    requires Reads(l)
    ensures !Final(l) && !l.UGpWait?
  {
  }

  /** Who can go on, with nothing buffered. */
  lemma {:induction false} SomebodyFree(sys: Sys, st: State) returns (t: Tid)
    requires Inv(sys, st) && EndInv(sys, st) && !AllFinal(sys, st)
    requires forall s {:trigger st.ts[s]} :: s in st.ts ==> st.ts[s].buf == []
    ensures t in sys.tasks && t in st.ts && Free(sys, st, t)
  {
    SysOf(sys, st);
    LockIn(sys, st);
    hide Inv, Free, Final, InCS, Reads, TaskLate, PutGone;
    if st.vis.lockv != NOBODY {
      t := st.vis.lockv;
      LockEven(sys, st, t);
      InCsGoes(st.ts[t].pc);
    } else {
      t :| t in sys.tasks && !Final(st.ts[t].pc);
      if st.ts[t].pc.UGpWait? && st.gp.wait != {} {
        t :| t in st.gp.wait;
        assert TaskLate(sys, st, t);
        WaitReads(sys, st, t);
        ReaderLabel(st.ts[t].pc);
      }
    }
    LabelFree(sys, st, t);
  }

  lemma {:induction false} LockIn(sys: Sys, st: State)
    requires Inv(sys, st)
    ensures st.vis.lockv != NOBODY ==> st.vis.lockv in sys.tasks
  {
    hide Tasks, FlagsOK, Counted, Sums, DoomedOK, FreeOK, SyncOK;
  }

  lemma {:induction false} WaitReads(sys: Sys, st: State, t: Tid)
    requires t in st.ts && TaskLate(sys, st, t) && t in st.gp.wait
    ensures Reads(st.ts[t].pc)
  {
    hide Reads, CountStored, Late;
  }

  /** In every state of every run somebody has a step to take towards the end, unless
      everybody is done: no deadlock, and no need of new references or migrations. */
  lemma {:induction false} NeverStuck(sys: Sys, b: seq<State>, i: nat) returns (z: State)
    requires sys.Valid() && Run(sys, b) && i < |b| && !AllFinal(sys, b[i])
    ensures Productive(sys, b[i], z)
  {
    hide Run, Inv, EndInv, Unput, AllFinal, Free, TaskInv, SumOK, Productive;
    RunEnd(sys, b, i);
    SysOf(sys, b[i]);
    var st := b[i];
    if t :| t in st.ts && st.ts[t].buf != [] {
      z := FlushGoes(sys, st, t);
    } else {
      var t := SomebodyFree(sys, st);
      Actor(sys, st, t);
      z := FreeGoes(sys, st, t);
    }
  }
}
