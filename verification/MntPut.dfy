/** One mount's reference count (kernel/mount/tla/MntPut.tla) while walkers legitimize
    it, holders take and drop it and somebody unmounts it, on any number of CPUs
    whose stores become visible late and out of order.  Every fix is in place: the
    puts are summed before the gets, the barriers on both sides, the grace period,
    and the flags looked at under mount_lock. */
module MntPut {
  import opened Finite

  type Tid = nat
  const NOBODY: Tid := 0

  datatype Label =
    | ULock | UMb | USum | UBusy | UTree | UUnlock | UNsUnlock | UGpWait | UNsPut | URet
    | WStart | WLookup | WL1 | WL2 | WMb | WL4 | WLock | WFlags | WUse | WNone
    | PEnter | PFast | PLock | PMb | PDec | PSum | PCheck | PCleanup
    | HIdle | Lost | Done

  /** A buffered store; StWmb is smp_wmb(). */
  datatype Store = StWmb | StSeq(v: nat) | StCnt(c: nat, d: int) | StHash(b: bool) | StNs(b: bool) | StLock(t: Tid)

  datatype Mount = Mount(hashed: bool, ns: bool, umount: bool, sync: bool, doomed: bool, freed: bool)

  /** What all CPUs see. */
  datatype Vis = Vis(seqv: nat, cntv: seq<int>, putv: seq<nat>, lockv: Tid, m: Mount)

  /** A task, with the store buffer of the CPU it runs on; refs is the ledger. */
  datatype Task = Task(pc: Label, ret: Label, buf: seq<Store>, cpu: nat, rcu: bool, sq: nat, acc: int, ci: nat,
      refs: int)

  datatype Grace = Grace(on: bool, wait: set<Tid>)

  datatype Outcome = Pending | Ok | Busy

  datatype State = State(vis: Vis, ts: map<Tid, Task>, gp: Grace, gpfree: Grace, nsref: bool, nsput: bool, cleaner: Tid,
      uresult: Outcome)

  /** Any tasks, one of them the umounter, and any CPUs. */
  datatype Sys = Sys(order: seq<Tid>, tasks: set<Tid>, u: Tid, walkers: set<Tid>, holders: set<Tid>, ncpu: nat,
      lazy: bool) {
    ghost predicate Valid() {
      && (forall t :: t in order <==> t in tasks) && NOBODY !in tasks
      && tasks == {u} + walkers + holders && u !in walkers && u !in holders && walkers !! holders
    }
  }

  // ---- the store buffers ----------------------------------------------------------------------

  ghost function Apply(v: Vis, e: Store): (w: Vis) {
    match e
    case StSeq(x) => v.(seqv := x)
    case StCnt(c, d) =>
      if c < |v.cntv| && c < |v.putv|
      then v.(cntv := v.cntv[c := v.cntv[c] + d], putv := v.putv[c := v.putv[c] + Bit(d < 0)])
      else v
    case StHash(b) => v.(m := v.m.(hashed := b))
    case StNs(b) => v.(m := v.m.(ns := b))
    case StLock(t) => v.(lockv := t)
    case StWmb => v
  }

  ghost function ApplyAll(v: Vis, es: seq<Store>): (w: Vis)
    decreases |es|
  {
    if es == [] then v else ApplyAll(Apply(v, es[0]), es[1..])
  }

  /** A CPU's own buffered increments of one of the two words of a counter. */
  ghost function BufferedPuts(b: seq<Store>, c: nat): (n: nat) {
    if b == [] then 0 else Bit(b[0].StCnt? && b[0].c == c && b[0].d < 0) + BufferedPuts(b[1..], c)
  }

  ghost function BufferedGets(b: seq<Store>, c: nat): (n: nat) {
    if b == [] then 0 else Bit(b[0].StCnt? && b[0].c == c && b[0].d > 0) + BufferedGets(b[1..], c)
  }

  /** What a load of mnt_puts or mnt_gets of CPU c returns. */
  ghost function SeenPuts(v: Vis, b: seq<Store>, c: nat): (n: int)
    requires c < |v.putv|
  {
    v.putv[c] + BufferedPuts(b, c)
  }

  ghost function SeenGets(v: Vis, b: seq<Store>, c: nat): (n: int)
    requires c < |v.putv| && c < |v.cntv|
  {
    v.cntv[c] + v.putv[c] + BufferedGets(b, c)
  }

  /** The seqcount as the owner of the buffer sees it. */
  ghost function SeenSeq(seqv: nat, b: seq<Store>): (n: nat)
    decreases |b|
  {
    if b == [] then seqv else SeenSeq(if b[0].StSeq? then b[0].v else seqv, b[1..])
  }

  /** Two stores to one word stay in order. */
  ghost predicate SameLoc(a: Store, b: Store) {
    match (a, b)
    case (StCnt(c, d), StCnt(e, f)) => c == e && (d > 0 <==> f > 0)
    case (StSeq(_), StSeq(_)) => true
    case (StHash(_), StHash(_)) => true
    case (StNs(_), StNs(_)) => true
    case (StLock(_), StLock(_)) => true
    case (StWmb, StWmb) => true
    case _ => false
  }

  /** What may leave the buffer next: anything with neither a barrier nor a store to its
      own word in front of it. */
  ghost predicate Flushable(b: seq<Store>, i: nat) {
    && i < |b| && (b[i].StWmb? ==> i == 0)
    && forall j {:trigger b[j]} :: 0 <= j < i ==> !b[j].StWmb? && !SameLoc(b[j], b[i])
  }

  ghost function Remove(b: seq<Store>, i: nat): (r: seq<Store>)
    requires i < |b|
  {
    b[..i] + b[i + 1..]
  }

  // ---- updates ----------------------------------------------------------------------------------

  ghost function SetTask(st: State, t: Tid, k: Task): (z: State) { st.(ts := st.ts[t := k]) }

  ghost function FlushAt(st: State, t: Tid, i: nat): (z: State)
    requires t in st.ts && i < |st.ts[t].buf|
  {
    var k := st.ts[t];
    SetTask(st.(vis := Apply(st.vis, k.buf[i])), t, k.(buf := Remove(k.buf, i)))
  }

  /** Everything t has stored, and extra, becomes visible. */
  ghost function Drained(st: State, t: Tid, extra: seq<Store>): (z: State)
    requires t in st.ts
    ensures z.ts.Keys == st.ts.Keys
  {
    var k := st.ts[t];
    SetTask(st.(vis := ApplyAll(st.vis, k.buf + extra)), t, k.(buf := []))
  }

  /** After a grace period nothing is buffered anywhere. */
  ghost function DrainedAll(st: State, order: seq<Tid>): (z: State)
    requires forall t :: t in order ==> t in st.ts
    decreases |order|
  {
    if order == [] then st else DrainedAll(Drained(st, order[0], []), order[1..])
  }

  ghost function Goto(st: State, t: Tid, l: Label): (z: State)
    requires t in st.ts
    ensures z.ts.Keys == st.ts.Keys
  {
    SetTask(st, t, st.ts[t].(pc := l))
  }

  ghost function PushAll(st: State, t: Tid, es: seq<Store>): (z: State)
    requires t in st.ts
    ensures z.ts.Keys == st.ts.Keys
  {
    SetTask(st, t, st.ts[t].(buf := st.ts[t].buf + es))
  }

  /** rcu_read_unlock(). */
  ghost function RcuOut(st: State, t: Tid): (z: State)
    requires t in st.ts
    ensures z.ts.Keys == st.ts.Keys
  {
    SetTask(st, t, st.ts[t].(rcu := false)).(gp := st.gp.(wait := st.gp.wait - {t}),
        gpfree := st.gpfree.(wait := st.gpfree.wait - {t}))
  }

  ghost predicate Waited(st: State, t: Tid) { t in st.gp.wait || t in st.gpfree.wait }

  ghost function Readers(st: State): (r: set<Tid>) { set t | t in st.ts && st.ts[t].rcu }

  /** mnt_dec_count(): smp_wmb(), then the put; the ledger entry is the namespace's
      when U drops it. */
  ghost function PutStores(st: State, t: Tid): (s: seq<Store>)
    requires t in st.ts
  {
    [StWmb, StCnt(st.ts[t].cpu, -1)]
  }

  ghost function DropRef(sys: Sys, st: State, t: Tid): (z: State)
    requires t in st.ts
    ensures z.ts.Keys == st.ts.Keys
  {
    if t == sys.u && st.nsput then st.(nsref := false) else SetTask(st, t, st.ts[t].(refs := st.ts[t].refs - 1))
  }

  /** lock_mount_hash(): possible with the lock free and nothing buffered. */
  ghost predicate CanLock(st: State, t: Tid) { t in st.ts && st.vis.lockv == NOBODY && st.ts[t].buf == [] }

  ghost function Lock(st: State, t: Tid): (z: State)
    requires t in st.ts
    ensures z.ts.Keys == st.ts.Keys
  {
    PushAll(st.(vis := st.vis.(lockv := t)), t, [StSeq(st.vis.seqv + 1), StWmb])
  }

  /** unlock_mount_hash(). */
  ghost function UnlockStores(st: State, t: Tid): (s: seq<Store>)
    requires t in st.ts
  {
    [StWmb, StSeq(SeenSeq(st.vis.seqv, st.ts[t].buf) + 1), StWmb, StLock(NOBODY)]
  }

  // ---- mntput() ------------------------------------------------------------------------------------

  ghost predicate At(st: State, t: Tid, l: Label) { t in st.ts && st.ts[t].pc == l }

  ghost predicate PutEnter(st: State, t: Tid, z: State) {
    At(st, t, PEnter) && z == SetTask(st, t, st.ts[t].(rcu := true, pc := if st.vis.m.ns then PFast else PLock))
  }

  ghost predicate PutFast(sys: Sys, st: State, t: Tid, z: State) {
    && At(st, t, PFast)
    && var y := Goto(RcuOut(DropRef(sys, st, t), t), t, st.ts[t].ret);
       z == if Waited(st, t) then Drained(y, t, PutStores(st, t)) else PushAll(y, t, PutStores(st, t))
  }

  ghost predicate PutLock(st: State, t: Tid, z: State) {
    At(st, t, PLock) && CanLock(st, t) && z == Goto(Lock(st, t), t, PMb)
  }

  ghost predicate PutMb(st: State, t: Tid, z: State) { At(st, t, PMb) && st.ts[t].buf == [] && z == Goto(st, t, PDec) }

  ghost predicate PutDec(sys: Sys, st: State, t: Tid, z: State) {
    && At(st, t, PDec)
    && var y := PushAll(DropRef(sys, st, t), t, PutStores(st, t));
       z == SetTask(y, t, y.ts[t].(acc := 0, ci := 0, pc := PSum))
  }

  /** mnt_get_count(): the puts of every CPU, then the gets of every CPU. */
  ghost function ReadCnt(v: Vis, b: seq<Store>, i: nat): (n: int)
    requires |v.putv| == |v.cntv| && i < 2 * |v.cntv|
  {
    if i < |v.cntv| then -SeenPuts(v, b, i) else SeenGets(v, b, i - |v.cntv|)
  }

  ghost predicate SumStep(sys: Sys, st: State, t: Tid, next: Label, z: State) {
    && t in st.ts && |st.vis.putv| == |st.vis.cntv| == sys.ncpu
    && var k := st.ts[t];
       z == if k.ci < 2 * sys.ncpu then SetTask(st, t, k.(acc := k.acc + ReadCnt(st.vis, k.buf, k.ci), ci := k.ci + 1))
            else Goto(st, t, next)
  }

  ghost predicate PutSum(sys: Sys, st: State, t: Tid, z: State) { At(st, t, PSum) && SumStep(sys, st, t, PCheck, z) }

  /** Not the last reference, or doomed by somebody else; else MNT_DOOMED. */
  ghost predicate PutCheck(st: State, t: Tid, z: State) {
    && At(st, t, PCheck)
    && var y := RcuOut(Drained(st, t, UnlockStores(st, t)), t);
       z == if st.ts[t].acc != 0 || st.vis.m.doomed then Goto(y, t, st.ts[t].ret)
            else Goto(y.(vis := y.vis.(m := y.vis.m.(doomed := true))), t, PCleanup)
  }

  /** cleanup_mnt(): call_rcu(). */
  ghost predicate PutCleanup(st: State, t: Tid, z: State) {
    At(st, t, PCleanup) && z == Goto(st, t, st.ts[t].ret).(gpfree := Grace(true, Readers(st)), cleaner := t)
  }

  ghost predicate Put(sys: Sys, st: State, t: Tid, z: State) {
    || PutEnter(st, t, z) || PutFast(sys, st, t, z) || PutLock(st, t, z) || PutMb(st, t, z) || PutDec(sys, st, t, z)
    || PutSum(sys, st, t, z) || PutCheck(st, t, z) || PutCleanup(st, t, z)
  }

  // ---- the walker: __follow_mount_rcu() and __legitimize_mnt() ------------------------------------------

  ghost predicate StartWalk(st: State, t: Tid, z: State) {
    && At(st, t, WStart) && st.vis.seqv % 2 == 0
    && z == SetTask(st, t, st.ts[t].(rcu := true, sq := st.vis.seqv, pc := WLookup))
  }

  /** The mount is also reachable as the working directory of an idle holder. */
  ghost predicate ViaPwd(sys: Sys, st: State) { exists h :: h in sys.holders && At(st, h, HIdle) && st.ts[h].refs > 0 }

  ghost predicate Lookup(sys: Sys, st: State, t: Tid, z: State) {
    && At(st, t, WLookup)
    && z == if st.vis.m.hashed || ViaPwd(sys, st) then Goto(st, t, WL1) else Goto(RcuOut(st, t), t, WNone)
  }

  ghost predicate Legit1(st: State, t: Tid, z: State) {
    At(st, t, WL1) && z == if st.vis.seqv != st.ts[t].sq then Goto(RcuOut(st, t), t, Lost) else Goto(st, t, WL2)
  }

  ghost predicate Legit2(st: State, t: Tid, z: State) {
    && At(st, t, WL2)
    && var y := PushAll(st, t, [StCnt(st.ts[t].cpu, 1)]);
       z == SetTask(y, t, y.ts[t].(refs := y.ts[t].refs + 1, pc := WMb))
  }

  ghost predicate LegitMb(st: State, t: Tid, z: State) { At(st, t, WMb) && st.ts[t].buf == [] && z == Goto(st, t, WL4) }

  ghost predicate Legit4(st: State, t: Tid, z: State) {
    At(st, t, WL4) && z == Goto(st, t, if st.vis.seqv == st.ts[t].sq then WUse else WLock)
  }

  ghost predicate WalkLock(st: State, t: Tid, z: State) {
    At(st, t, WLock) && CanLock(st, t) && z == Goto(Lock(st, t), t, WFlags)
  }

  ghost predicate Flags(st: State, t: Tid, z: State) {
    && At(st, t, WFlags)
    && var k := st.ts[t];
       if st.vis.m.sync || st.vis.m.doomed
       then
         var y := RcuOut(Drained(st, t, PutStores(st, t) + UnlockStores(st, t)), t);
         z == SetTask(y, t, y.ts[t].(refs := k.refs - 1, pc := Lost))
       else
         var y := RcuOut(Drained(st, t, UnlockStores(st, t)), t);
         z == SetTask(y, t, y.ts[t].(ret := Lost, pc := PEnter))
  }

  ghost predicate Use(st: State, t: Tid, z: State) {
    && At(st, t, WUse)
    && var y := RcuOut(SetTask(st, t, st.ts[t].(ret := Done, pc := PEnter)), t);
       z == if Waited(st, t) then Drained(y, t, []) else y
  }

  ghost predicate Walk(sys: Sys, st: State, t: Tid, z: State) {
    || StartWalk(st, t, z) || Lookup(sys, st, t, z) || Legit1(st, t, z) || Legit2(st, t, z) || LegitMb(st, t, z)
    || Legit4(st, t, z) || WalkLock(st, t, z) || Flags(st, t, z) || Use(st, t, z)
  }

  // ---- the holder --------------------------------------------------------------------------------------

  ghost predicate HoldGet(st: State, t: Tid, z: State) {
    && At(st, t, HIdle) && st.ts[t].refs > 0
    && var y := PushAll(st, t, [StCnt(st.ts[t].cpu, 1)]);
       z == SetTask(y, t, y.ts[t].(refs := y.ts[t].refs + 1))
  }

  ghost predicate Migrate(sys: Sys, st: State, t: Tid, z: State) {
    && At(st, t, HIdle)
    && exists c: nat :: c < sys.ncpu && c != st.ts[t].cpu && var y := Drained(st, t, []);
          z == SetTask(y, t, y.ts[t].(cpu := c))
  }

  ghost predicate HoldPut(st: State, t: Tid, z: State) {
    At(st, t, HIdle) && st.ts[t].refs > 0 && z == SetTask(st, t, st.ts[t].(ret := HIdle, pc := PEnter))
  }

  ghost predicate HoldDone(st: State, t: Tid, z: State) {
    At(st, t, HIdle) && st.ts[t].refs == 0 && z == Goto(st, t, Done)
  }

  ghost predicate Hold(sys: Sys, st: State, t: Tid, z: State) {
    HoldGet(st, t, z) || Migrate(sys, st, t, z) || HoldPut(st, t, z) || HoldDone(st, t, z)
  }

  // ---- the umounter: do_umount(), namespace_unlock(), path_put() -------------------------------------------

  ghost predicate UmLock(sys: Sys, st: State, t: Tid, z: State) {
    At(st, t, ULock) && CanLock(st, t) && z == Goto(Lock(st, t), t, if sys.lazy then UTree else UMb)
  }

  ghost predicate UmMb(st: State, t: Tid, z: State) {
    At(st, t, UMb) && st.ts[t].buf == [] && z == SetTask(st, t, st.ts[t].(acc := 0, ci := 0, pc := USum))
  }

  ghost predicate UmSum(sys: Sys, st: State, t: Tid, z: State) { At(st, t, USum) && SumStep(sys, st, t, UBusy, z) }

  ghost predicate UmBusy(st: State, t: Tid, z: State) {
    && At(st, t, UBusy)
    && if st.ts[t].acc > 2
       then
         var y := Drained(st, t, UnlockStores(st, t));
         z == SetTask(y, t, y.ts[t].(ret := Done, pc := PEnter)).(uresult := Busy)
       else z == Goto(st, t, UTree)
  }

  /** umount_tree(). */
  ghost predicate UmTree(sys: Sys, st: State, t: Tid, z: State) {
    && At(st, t, UTree)
    && var y := Goto(PushAll(st, t, [StHash(false), StNs(false)]), t, UUnlock);
       z == y.(vis := y.vis.(m := y.vis.m.(umount := true, sync := !sys.lazy)), uresult := Ok)
  }

  ghost predicate UmUnlock(st: State, t: Tid, z: State) {
    At(st, t, UUnlock) && z == Goto(Drained(st, t, UnlockStores(st, t)), t, UNsUnlock)
  }

  /** synchronize_rcu_expedited() starts. */
  ghost predicate NsUnlock(sys: Sys, st: State, t: Tid, z: State) {
    && At(st, t, UNsUnlock) && st.ts[t].buf == [] && (forall s :: s in sys.order ==> s in st.ts)
    && z == DrainedAll(Goto(st, t, UGpWait).(gp := Grace(true, Readers(st))), sys.order)
  }

  ghost predicate GpWait(st: State, t: Tid, z: State) {
    At(st, t, UGpWait) && st.gp.wait == {} && z == Goto(st, t, UNsPut).(gp := Grace(false, {}))
  }

  ghost predicate NsPut(st: State, t: Tid, z: State) {
    At(st, t, UNsPut) && z == SetTask(st, t, st.ts[t].(ret := URet, pc := PEnter)).(nsput := true)
  }

  ghost predicate UmRet(st: State, t: Tid, z: State) {
    At(st, t, URet) && z == SetTask(st, t, st.ts[t].(ret := Done, pc := PEnter)).(nsput := false)
  }

  ghost predicate Umount(sys: Sys, st: State, t: Tid, z: State) {
    || UmLock(sys, st, t, z) || UmMb(st, t, z) || UmSum(sys, st, t, z) || UmBusy(st, t, z) || UmTree(sys, st, t, z)
    || UmUnlock(st, t, z) || NsUnlock(sys, st, t, z) || GpWait(st, t, z) || NsPut(st, t, z) || UmRet(st, t, z)
  }

  // ---- the specification -------------------------------------------------------------------------------------

  ghost predicate Flush(st: State, t: Tid, z: State) {
    t in st.ts && exists i {:trigger Flushable(st.ts[t].buf, i)} :: Flushable(st.ts[t].buf, i) && z == FlushAt(st, t, i)
  }

  /** delayed_free_vfsmnt(). */
  ghost predicate RcuFree(st: State, z: State) {
    && st.gpfree.on && st.gpfree.wait == {}
    && z == st.(gpfree := Grace(false, {}), vis := st.vis.(m := st.vis.m.(freed := true)))
  }

  ghost predicate TaskStep(sys: Sys, st: State, t: Tid, z: State) {
    || Put(sys, st, t, z) || (t in sys.walkers && Walk(sys, st, t, z)) || (t in sys.holders && Hold(sys, st, t, z))
    || (t == sys.u && Umount(sys, st, t, z))
  }

  ghost predicate Next(sys: Sys, st: State, z: State) {
    RcuFree(st, z) || exists t :: t in sys.tasks && (TaskStep(sys, st, t, z) || Flush(st, t, z))
  }

  /** The namespace, the umounter and every holder have one reference each, counted
      on any CPUs. */
  ghost predicate Init(sys: Sys, st: State) {
    && st.vis.seqv == 0 && st.vis.lockv == NOBODY && st.vis.m == Mount(true, true, false, false, false, false)
    && |st.vis.cntv| == |st.vis.putv| == sys.ncpu && SumSeq(st.vis.cntv) == 2 + |sys.holders|
    && (forall c :: 0 <= c < sys.ncpu ==> st.vis.putv[c] == 0)
    && st.ts.Keys == sys.tasks
    && (forall t {:trigger st.ts[t]} :: t in sys.tasks ==>
          && st.ts[t].cpu < sys.ncpu
          && st.ts[t] == Task(if t == sys.u then ULock else if t in sys.walkers then WStart else HIdle, Done, [],
                              st.ts[t].cpu, false, 0, 0, 0, Bit(t !in sys.walkers)))
    && st.gp == Grace(false, {}) && st.gpfree == Grace(false, {})
    && st.nsref && !st.nsput && st.cleaner == NOBODY && st.uresult == Pending
  }

  ghost predicate Run(sys: Sys, b: seq<State>) {
    |b| > 0 && Init(sys, b[0]) && forall i, j :: 0 <= i < |b| - 1 && j == i + 1 ==> Next(sys, b[i], b[j])
  }

  // ---- what is claimed -----------------------------------------------------------------------------------------

  ghost predicate Touching(l: Label) {
    match l
    case WL1 | WL2 | WMb | WL4 | WLock | WFlags | WUse => true
    case PEnter | PFast | PLock | PMb | PDec | PSum | PCheck | PCleanup => true
    case ULock | UMb | USum | UBusy | UTree | UUnlock | UNsPut => true
    case _ => false
  }

  /** A walker's count before the decision, or the one it drops itself. */
  ghost predicate Transient(sys: Sys, st: State, t: Tid)
    requires t in st.ts
  {
    t in sys.walkers && (st.ts[t].pc in {WMb, WL4, WLock, WFlags} || st.ts[t].ret == Lost)
  }

  /** The net of a buffer's counter stores. */
  ghost function Net(b: seq<Store>): (n: int) {
    if b == [] then 0 else (if b[0].StCnt? then b[0].d else 0) + Net(b[1..])
  }

  ghost function NetOf(st: State): (f: Tid -> int) { (t: Tid) => if t in st.ts then Net(st.ts[t].buf) else 0 }

  ghost function RefsOf(st: State): (f: Tid -> int) { (t: Tid) => if t in st.ts then st.ts[t].refs else 0 }

  /** The counters, buffered stores included, against the references there are. */
  ghost predicate Ledger(sys: Sys, st: State) {
    SumSeq(st.vis.cntv) + Sum(sys.tasks, NetOf(st)) == Bit(st.nsref) + Sum(sys.tasks, RefsOf(st))
  }

  ghost predicate NoUAF(sys: Sys, st: State) {
    st.vis.m.freed ==> forall t {:trigger st.ts[t]} :: t in sys.tasks && t in st.ts ==> !Touching(st.ts[t].pc)
  }

  ghost predicate DoomedIsLast(sys: Sys, st: State) {
    st.vis.m.doomed ==>
      && !st.nsref
      && forall t {:trigger st.ts[t]} :: t in sys.tasks && t in st.ts && !Transient(sys, st, t) ==> st.ts[t].refs == 0
  }

  ghost predicate NoNegative(sys: Sys, st: State) {
    forall t {:trigger st.ts[t]} :: t in sys.tasks && t in st.ts && st.ts[t].pc == PCheck ==> st.ts[t].acc >= 0
  }

  ghost predicate SyncClean(sys: Sys, st: State) {
    st.uresult == Ok && !sys.lazy ==>
      && (forall t {:trigger st.ts[t]} ::
            t in sys.tasks && t in st.ts && t != sys.u && !Transient(sys, st, t) ==> st.ts[t].refs == 0)
      && (st.cleaner != NOBODY ==> st.cleaner == sys.u)
  }
}
