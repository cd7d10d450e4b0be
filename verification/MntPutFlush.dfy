/** A store becoming visible, in any order the barriers allow, keeps the invariant;
    so does draining a buffer, or all of them. */
module MntPutFlush {
  import opened Finite
  import opened MntPut
  import opened MntPutInv
  import opened MntPutBuf
  import opened MntPutCore
  import opened MntPutSteps
  import opened MntPutSum

  // ---- the record of the task whose store leaves ----------------------------------------------------

  lemma {:induction false} RemoveShapes(v: Vis, w: Vis, t: Tid, b: seq<Store>, i: nat)
    requires i < |b| && SeqShape(v, t, b) && w.lockv == v.lockv && w.seqv == (if b[i].StSeq? then b[i].v else v.seqv)
    requires v.lockv == t ==> HasSeq(b) || v.seqv % 2 == 1
    ensures var r := Remove(b, i); SeqShape(w, t, r) && (v.lockv == t ==> HasSeq(r) || w.seqv % 2 == 1)
    ensures NoHash(b) ==> NoHash(Remove(b, i))
    ensures HashDown(b) ==> HashDown(Remove(b, i))
  {
    var r := Remove(b, i);
    forall j | 0 <= j < |r| ensures r[j] == b[if j < i then j else j + 1] {}
  }

  ghost predicate SameApply(v: Vis, w: Vis, e: Store) {
    && w.lockv == v.lockv && w.seqv == (if e.StSeq? then e.v else v.seqv)
    && w.m == v.m.(hashed := if e.StHash? then e.b else v.m.hashed, ns := if e.StNs? then e.b else v.m.ns)
  }

  lemma {:induction false} ApplyIs(v: Vis, e: Store)
    requires !e.StLock?
    ensures SameApply(v, Apply(v, e), e) && |Apply(v, e).cntv| == |v.cntv| && |Apply(v, e).putv| == |v.putv|
  {
  }

  lemma {:induction false} FlushRec(sys: Sys, nsref: bool, nsput: bool, v: Vis, w: Vis, ures: Outcome, t: Tid,
      k: Task, i: nat)
    requires RecInv(sys, nsref, nsput, v, ures, t, k) && Flushable(k.buf, i) && SameApply(v, w, k.buf[i])
    ensures var j := k.(buf := Remove(k.buf, i));
            RecInv(sys, nsref, nsput, w, ures, t, j) && Shown(sys, nsref, t, j) == Shown(sys, nsref, t, k) + D(k.buf[i])
  {
    hide Flushable, Net, NoHash, HashDown, LabelOK, SeqShape, BufOK, InCS, Odd, Slow, HasSeq, Remove;
    var b := k.buf;
    var own := Own(sys, nsref, t, k);
    FlushIndex(b, i);
    LabelFlush(sys, nsref, nsput, t, k, i);
    NetRemove(b, i);
    RemoveShapes(v, w, t, b, i);
    FlushBuf(sys.ncpu, own, b, i);
    FlushUnits(sys.ncpu, own, v, t, b, i);
    if IsPut(b[i]) { FlushPut(sys.ncpu, own, b, i); }
  }

  lemma {:induction false} LabelFlush(sys: Sys, nsref: bool, nsput: bool, t: Tid, k: Task, i: nat)
    requires LabelOK(sys, nsref, nsput, t, k) && i < |k.buf|
    ensures LabelOK(sys, nsref, nsput, t, k.(buf := Remove(k.buf, i)))
  {
  }

  lemma {:induction false} FlushIndex(b: seq<Store>, i: nat)
    requires Flushable(b, i)
    ensures i < |b|
  {
  }

  lemma {:induction false} FlushUnits(ncpu: nat, own: int, v: Vis, t: Tid, b: seq<Store>, i: nat)
    requires BufOK(ncpu, own, b) && i < |b| && SeqShape(v, t, b)
    ensures Unit(ncpu, b[i]) && !b[i].StLock?
    ensures (b[i].StSeq? ==> v.lockv == t && b[i].v == v.seqv + 1 && b[i].v % 2 == 1) && (IsPut(b[i]) || D(b[i]) >= 0)
  {
  }

  // ---- everything else ----------------------------------------------------------------------------------

  /** Only buffers, counters, the seqcount, the hash and the namespace pointer differ. */
  ghost predicate OnlyStores(st: State, z: State) {
    && z == st.(vis := z.vis, ts := z.ts) && z.ts.Keys == st.ts.Keys
    && (forall s {:trigger z.ts[s]} :: s in st.ts ==> z.ts[s] == st.ts[s].(buf := z.ts[s].buf))
    && z.vis.lockv == st.vis.lockv && st.vis.seqv <= z.vis.seqv
    && z.vis.m == st.vis.m.(hashed := z.vis.m.hashed, ns := z.vis.m.ns)
    && |z.vis.cntv| == |st.vis.cntv| && |z.vis.putv| == |st.vis.putv|
  }

  lemma {:induction false} StoresQuiet(sys: Sys, st: State, z: State, x: Tid)
    requires OnlyStores(st, z) && AllQuiet(sys, st, x)
    ensures AllQuiet(sys, z, x)
  {
    forall s | s in z.ts && s != x ensures Quiet(z.vis.seqv, z.ts[s]) { assert Quiet(st.vis.seqv, st.ts[s]); }
  }

  lemma {:induction false} StoresCalm(sys: Sys, st: State, z: State)
    requires OnlyStores(st, z) && DoomedOK(sys, st) && FreeOK(st) && SyncOK(sys, st)
    ensures DoomedOK(sys, z) && FreeOK(z) && SyncOK(sys, z)
  {
    hide Quiet, AllQuiet, Touching;
    if st.uresult == Ok && !sys.lazy { StoresQuiet(sys, st, z, sys.u); }
    forall s | s in z.ts
      ensures (Quiet(st.vis.seqv, st.ts[s]) ==> Quiet(z.vis.seqv, z.ts[s])) && z.ts[s].pc == st.ts[s].pc
      ensures z.ts[s].refs == st.ts[s].refs
    {
      if Quiet(st.vis.seqv, st.ts[s]) { QuietBuf(st.vis.seqv, z.vis.seqv, st.ts[s], z.ts[s].buf); }
    }
  }

  lemma {:induction false} QuietBuf(a: nat, b: nat, k: Task, f: seq<Store>)
    requires Quiet(a, k) && a <= b
    ensures Quiet(b, k.(buf := f))
  {
  }

  /** x sees both words of every counter grow, or stay. */
  ghost predicate SeesMore(v: Vis, b: seq<Store>, w: Vis, a: seq<Store>) {
    && |v.cntv| == |v.putv| == |w.cntv| == |w.putv|
    && (forall c {:trigger SeenPuts(v, b, c)} :: 0 <= c < |v.putv| ==> SeenPuts(v, b, c) <= SeenPuts(w, a, c))
    && (forall c {:trigger SeenGets(v, b, c)} :: 0 <= c < |v.putv| ==> SeenGets(v, b, c) <= SeenGets(w, a, c))
  }

  lemma {:induction false} FlushSees(v: Vis, b: seq<Store>, i: nat, a: seq<Store>)
    requires |v.cntv| == |v.putv| && i < |b| && Unit(|v.cntv|, b[i])
    ensures SeesMore(v, b, Apply(v, b[i]), Remove(b, i)) && SeesMore(v, a, Apply(v, b[i]), a)
  {
    hide Unit, SeenPuts, SeenGets, Apply, Remove;
    ApplySize(v, b[i]);
    forall c | 0 <= c < |v.putv|
      ensures SeenPuts(v, b, c) <= SeenPuts(Apply(v, b[i]), Remove(b, i), c)
      ensures SeenGets(v, b, c) <= SeenGets(Apply(v, b[i]), Remove(b, i), c)
      ensures SeenPuts(v, a, c) <= SeenPuts(Apply(v, b[i]), a, c) && SeenGets(v, a, c) <= SeenGets(Apply(v, b[i]), a, c)
    {
      FlushSeen(v, b, i, c);
      OtherSeen(v, b[i], a, c);
    }
  }

  lemma {:induction false} ApplySize(v: Vis, e: Store)
    ensures |Apply(v, e).cntv| == |v.cntv| && |Apply(v, e).putv| == |v.putv|
  {
  }

  /** A sum in progress stands. */
  lemma {:induction false} GrowSum(sys: Sys, st: State, z: State, x: Tid)
    requires |st.vis.cntv| == |st.vis.putv| == sys.ncpu && x in st.ts && OnlyStores(st, z) && SumOK(sys, st, x)
    requires SeesMore(st.vis, st.ts[x].buf, z.vis, z.ts[x].buf)
    ensures SumOK(sys, z, x)
  {
    hide AllQuiet, SeenPuts, SeenGets, Own;
    var k, j := st.ts[x], z.ts[x];
    if AllQuiet(sys, st, x) { StoresQuiet(sys, st, z, x); }
    OwnBuf(sys, st.nsref, x, k, j.buf);
    if k.pc == PSum || k.pc == USum {
      if k.ci < sys.ncpu { PutsGrow(st.vis, k.buf, z.vis, j.buf, k.ci); }
      else { GetsGrow(st.vis, k.buf, z.vis, j.buf, k.ci - sys.ncpu); }
    }
  }

  lemma {:induction false} OwnBuf(sys: Sys, nsref: bool, x: Tid, k: Task, f: seq<Store>)
    ensures Own(sys, nsref, x, k.(buf := f)) == Own(sys, nsref, x, k)
  {
  }

  lemma {:induction false} FlushCounted(sys: Sys, st: State, t: Tid, i: nat, z: State)
    requires Shape(sys, st) && Counted(sys, st) && t in sys.tasks && i < |st.ts[t].buf| && z == FlushAt(st, t, i)
    requires Unit(sys.ncpu, st.ts[t].buf[i])
    requires Shown(sys, z.nsref, t, z.ts[t]) == Shown(sys, st.nsref, t, st.ts[t]) + D(st.ts[t].buf[i])
    ensures Counted(sys, z)
  {
    hide Net, Sum, Remove, Shown;
    var e := st.ts[t].buf[i];
    if e.StCnt? { SumSeqUpdate(st.vis.cntv, e.c, st.vis.cntv[e.c] + e.d); }
    var f, g := VisFn(sys, st), VisFn(sys, z);
    forall s | s in sys.tasks && s != t ensures f(s) == g(s) {}
    SumUpdate(sys.tasks, f, g, t);
  }

  lemma {:induction false} FlushOther(sys: Sys, st: State, t: Tid, z: State, s: Tid)
    requires OnlyStores(st, z) && s in st.ts && s != t && z.ts[s] == st.ts[s] && TaskInv(sys, st, s)
    requires z.vis.seqv == st.vis.seqv || (st.vis.lockv == t && z.vis.seqv >= st.vis.seqv)
    ensures TaskInv(sys, z, s)
  {
    hide BufOK, Net, UserOK, WalkerOK, HolderOK, Slow, NoHash, HashDown;
  }

  lemma {:induction false} FlushForm(sys: Sys, st: State, t: Tid, i: nat, z: State)
    requires Shape(sys, st) && TaskInv(sys, st, t) && t in sys.tasks && i < |st.ts[t].buf| && z == FlushAt(st, t, i)
    ensures OnlyStores(st, z) && SameApply(st.vis, z.vis, st.ts[t].buf[i]) && Unit(sys.ncpu, st.ts[t].buf[i])
    ensures z.ts == st.ts[t := st.ts[t].(buf := Remove(st.ts[t].buf, i))]
    ensures z.vis.seqv == st.vis.seqv || (st.vis.lockv == t && z.vis.seqv >= st.vis.seqv)
  {
    hide LabelOK, InCS, Odd, Slow, Net, Remove, SeqShape, BufOK, Apply;
    var k := st.ts[t];
    FlushUnits(sys.ncpu, Own(sys, st.nsref, t, k), st.vis, t, k.buf, i);
    ApplyIs(st.vis, k.buf[i]);
  }

  lemma {:induction false} FlushSums(sys: Sys, st: State, t: Tid, i: nat, z: State)
    requires Shape(sys, st) && Sums(sys, st) && TaskInv(sys, st, t) && t in sys.tasks && i < |st.ts[t].buf|
    requires z == FlushAt(st, t, i)
    ensures |z.vis.cntv| == |z.vis.putv| == sys.ncpu && Sums(sys, z)
  {
    hide TaskInv, SumOK, SeesMore, OnlyStores;
    FlushForm(sys, st, t, i, z);
    forall x | x in sys.tasks ensures |z.vis.cntv| == |z.vis.putv| == sys.ncpu && SumOK(sys, z, x) {
      assert SumOK(sys, st, x);
      FlushSees(st.vis, st.ts[t].buf, i, st.ts[x].buf);
      ApplySize(st.vis, st.ts[t].buf[i]);
      GrowSum(sys, st, z, x);
    }
    ApplySize(st.vis, st.ts[t].buf[i]);
  }

  lemma {:induction false} FlushDown(v: Vis, w: Vis, b: seq<Store>, i: nat)
    requires i < |b| && HashDown(b) && SameApply(v, w, b[i]) && DownLater(v.m, b)
    ensures DownLater(w.m, Remove(b, i))
  {
    var r := Remove(b, i);
    forall j | 0 <= j < |b| && j != i ensures b[j] == r[if j < i then j else j - 1] {}
    if w.m.hashed {
      var j :| 0 <= j < |b| && b[j].StHash?;
      assert b[j] == r[if j < i then j else j - 1];
    }
    if w.m.ns {
      var j :| 0 <= j < |b| && b[j].StNs?;
      assert b[j] == r[if j < i then j else j - 1];
    }
  }

  lemma {:induction false} FlushFlags(sys: Sys, st: State, t: Tid, i: nat, z: State)
    requires Shape(sys, st) && FlagsOK(sys, st) && TaskInv(sys, st, t) && t in sys.tasks && i < |st.ts[t].buf|
    requires z == FlushAt(st, t, i)
    ensures FlagsOK(sys, z)
  {
    hide Net, BufOK, SeqShape, LabelOK, InCS, Odd, Slow, Remove, Apply, DownLater, HashDown;
    FlushForm(sys, st, t, i, z);
    var e := st.ts[t].buf[i];
    if t == sys.u && st.ts[t].pc == UUnlock {
      FlushDown(st.vis, z.vis, st.ts[t].buf, i);
      HashEntry(st.ts[t].buf, i);
    } else {
      assert !e.StHash? && !e.StNs?;
      assert z.vis.m == st.vis.m;
    }
  }

  lemma {:induction false} HashEntry(b: seq<Store>, i: nat)
    requires i < |b| && HashDown(b)
    ensures b[i].StHash? || b[i].StNs? ==> b[i].b == false
  {
  }

  lemma {:induction false} FlushTasks(sys: Sys, st: State, t: Tid, i: nat, z: State)
    requires Shape(sys, st) && Tasks(sys, st) && t in sys.tasks && Flushable(st.ts[t].buf, i) && z == FlushAt(st, t, i)
    ensures Tasks(sys, z) && i < |st.ts[t].buf|
    ensures Shown(sys, z.nsref, t, z.ts[t]) == Shown(sys, st.nsref, t, st.ts[t]) + D(st.ts[t].buf[i])
  {
    hide RecInv, Flushable, Shown, OnlyStores, Remove, Apply;
    FlushIndex(st.ts[t].buf, i);
    assert TaskInv(sys, st, t);
    FlushForm(sys, st, t, i, z);
    FlushRec(sys, st.nsref, st.nsput, st.vis, z.vis, st.uresult, t, st.ts[t], i);
    hide TaskInv;
    forall s | s in sys.tasks ensures TaskInv(sys, z, s) {
      if s != t {
        assert TaskInv(sys, st, s);
        FlushOther(sys, st, t, z, s);
      } else {
        FlushedIs(sys, st, t, i, z);
      }
    }
  }

  lemma {:induction false} FlushedIs(sys: Sys, st: State, t: Tid, i: nat, z: State)
    requires t in st.ts && i < |st.ts[t].buf| && z == FlushAt(st, t, i)
    requires RecInv(sys, st.nsref, st.nsput, z.vis, st.uresult, t, st.ts[t].(buf := Remove(st.ts[t].buf, i)))
    ensures TaskInv(sys, z, t)
  {
    hide RecInv, Apply, Remove;
  }

  lemma {:induction false} FlushShape(sys: Sys, st: State, t: Tid, i: nat, z: State)
    requires Shape(sys, st) && TaskInv(sys, st, t) && t in sys.tasks && i < |st.ts[t].buf| && z == FlushAt(st, t, i)
    ensures Shape(sys, z)
  {
    hide TaskInv, Remove, Apply;
    FlushForm(sys, st, t, i, z);
  }

  lemma {:induction false} FlushKeeps(sys: Sys, st: State, t: Tid, i: nat, z: State)
    requires Inv(sys, st) && t in sys.tasks && t in st.ts && Flushable(st.ts[t].buf, i) && z == FlushAt(st, t, i)
    ensures Inv(sys, z)
  {
    hide Tasks, FlagsOK, Counted, Sums, DoomedOK, FreeOK, SyncOK, TaskInv, SumOK, Flushable, FlushAt, OnlyStores, Shown;
    Actor(sys, st, t);
    FlushTasks(sys, st, t, i, z);
    FlushForm(sys, st, t, i, z);
    FlushShape(sys, st, t, i, z);
    FlushFlags(sys, st, t, i, z);
    FlushCounted(sys, st, t, i, z);
    FlushSums(sys, st, t, i, z);
    StoresCalm(sys, st, z);
  }

  // ---- draining -----------------------------------------------------------------------------------------

  /** A buffer drains store by store, from the front. */
  lemma {:induction false} DrainKeeps(sys: Sys, st: State, t: Tid)
    requires Inv(sys, st) && t in sys.tasks && t in st.ts
    ensures Inv(sys, Drained(st, t, []))
    decreases |st.ts[t].buf|
  {
    hide Inv, FlushAt;
    var k := st.ts[t];
    if k.buf == [] {
      assert k.buf + [] == [];
      assert Drained(st, t, []) == st by { DrainNone(st, t); }
    } else {
      var y := FlushAt(st, t, 0);
      assert Flushable(k.buf, 0);
      FlushKeeps(sys, st, t, 0, y);
      DrainCons(st, t);
      DrainKeeps(sys, y, t);
    }
  }

  lemma {:induction false} DrainNone(st: State, t: Tid)
    requires t in st.ts && st.ts[t].buf == []
    ensures Drained(st, t, []) == st
  {
    assert st.ts[t].buf + [] == [];
    assert st.ts[t := st.ts[t].(buf := [])] == st.ts;
  }

  lemma {:induction false} DrainCons(st: State, t: Tid)
    requires t in st.ts && st.ts[t].buf != []
    ensures var y := FlushAt(st, t, 0);
            t in y.ts && |y.ts[t].buf| == |st.ts[t].buf| - 1 && Drained(y, t, []) == Drained(st, t, [])
  {
    hide Apply;
    var b := st.ts[t].buf;
    assert Remove(b, 0) == b[1..];
    assert b + [] == b && b[1..] + [] == b[1..];
  }

  lemma {:induction false} DrainAllKeeps(sys: Sys, st: State, order: seq<Tid>)
    requires Inv(sys, st) && (forall t :: t in order ==> t in sys.tasks) && (forall t :: t in order ==> t in st.ts)
    ensures Inv(sys, DrainedAll(st, order))
    decreases |order|
  {
    hide Inv, Drained;
    if order != [] {
      DrainKeeps(sys, st, order[0]);
      DrainAllKeeps(sys, Drained(st, order[0], []), order[1..]);
    }
  }
}
