/** The invariant of the mount reference count protocol: what every task's record
    satisfies by itself, what the counters add up to, what a sum in progress has
    established, and who can still hold a reference once the mount is doomed or
    has been unmounted synchronously. */
module MntPutInv {
  import opened Finite
  import opened MntPut

  // ---- labels ---------------------------------------------------------------------------------

  ghost predicate PutHolds(l: Label) { l == PEnter || l == PFast || l == PLock || l == PMb || l == PDec }

  /** The labels inside mount_lock. */
  ghost predicate InCS(l: Label) {
    match l
    case PMb | PDec | PSum | PCheck | WFlags | UMb | USum | UBusy | UTree | UUnlock => true
    case _ => false
  }

  /** ... with the lock's seqcount increment known to be visible. */
  ghost predicate Odd(sys: Sys, l: Label) {
    match l
    case PDec | PSum | PCheck | USum | UBusy => true
    case UTree | UUnlock => !sys.lazy
    case _ => false
  }

  /** The slow path of mntput(). */
  ghost predicate Slow(l: Label) { l == PLock || l == PMb || l == PDec || l == PSum || l == PCheck || l == PCleanup }

  // ---- one task ---------------------------------------------------------------------------------

  ghost predicate WalkerOK(k: Task) {
    match k.pc
    case WStart => k.refs == 0 && k.buf == []
    case WLookup | WL1 | WL2 => k.refs == 0 && k.buf == [] && k.rcu
    case WMb => k.refs == 1 && k.rcu && (k.buf == [] || (|k.buf| == 1 && k.buf[0].StCnt? && k.buf[0].d == 1))
    case WL4 | WLock => k.refs == 1 && k.rcu && k.buf == []
    case WFlags | WUse => k.refs == 1 && k.rcu
    case WNone | Lost | Done => k.refs == 0
    case PEnter | PFast | PLock | PMb | PDec => k.refs == 1 && (k.ret == Done || k.ret == Lost)
    case PSum | PCheck | PCleanup => k.refs == 0 && (k.ret == Done || k.ret == Lost)
    case _ => false
  }

  ghost predicate HolderOK(k: Task) {
    && k.refs >= 0
    && match k.pc
       case HIdle => true
       case Done => k.refs == 0
       case PEnter | PFast | PLock | PMb | PDec => k.refs >= 1 && k.ret == HIdle
       case PSum | PCheck | PCleanup => k.ret == HIdle
       case _ => false
  }

  ghost predicate UserOK(nsref: bool, nsput: bool, k: Task) {
    match k.pc
    case ULock | UMb | USum | UBusy | UTree | UUnlock | UNsUnlock | UGpWait | UNsPut => k.refs == 1 && nsref && !nsput
    case URet => k.refs == 1 && !nsref && nsput
    case Done => k.refs == 0
    case PEnter | PFast | PLock | PMb | PDec => k.refs == 1 && if nsput then nsref && k.ret == URet else k.ret == Done
    case PSum | PCheck | PCleanup =>
      if nsput then k.refs == 1 && !nsref && k.ret == URet && k.pc != PCleanup else k.refs == 0 && k.ret == Done
    case _ => false
  }

  ghost predicate LabelOK(sys: Sys, nsref: bool, nsput: bool, t: Tid, k: Task) {
    if t == sys.u then UserOK(nsref, nsput, k) else if t in sys.walkers then WalkerOK(k) else HolderOK(k)
  }

  /** The references t answers for: its own and, for the umounter, the namespace's. */
  ghost function Own(sys: Sys, nsref: bool, t: Tid, k: Task): (n: int) { k.refs + Bit(t == sys.u && nsref) }

  ghost predicate IsPut(e: Store) { e.StCnt? && e.d < 0 }

  /** The put at i comes behind a barrier, and after it a reference is still visible
      if one is held. */
  ghost predicate PutOK(own: int, b: seq<Store>, i: nat)
    requires i < |b|
  {
    (i > 0 ==> b[i - 1].StWmb?) && own - Net(b[i + 1..]) >= Bit(own >= 1)
  }

  ghost predicate BufOK(ncpu: nat, own: int, b: seq<Store>) {
    && (forall i {:trigger b[i]} ::
          0 <= i < |b| ==> !b[i].StLock? && (b[i].StCnt? ==> b[i].c < ncpu && (b[i].d == 1 || b[i].d == -1)))
    && (forall i {:trigger PutOK(own, b, i)} :: 0 <= i < |b| && IsPut(b[i]) ==> PutOK(own, b, i))
  }

  /** The lock's seqcount increment sits at the front of its holder's buffer, if anywhere. */
  ghost predicate SeqShape(v: Vis, t: Tid, b: seq<Store>) {
    forall i {:trigger b[i]} ::
      0 <= i < |b| && b[i].StSeq? ==> i == 0 && v.lockv == t && b[i].v == v.seqv + 1 && v.seqv % 2 == 0
  }

  ghost predicate HasSeq(b: seq<Store>) { b != [] && b[0].StSeq? }

  /** No buffered change of the hash or the namespace pointer, ... */
  ghost predicate NoHash(b: seq<Store>) { forall i {:trigger b[i]} :: 0 <= i < |b| ==> !b[i].StHash? && !b[i].StNs? }

  /** ... or the umounter's. */
  ghost predicate HashDown(b: seq<Store>) {
    forall i {:trigger b[i]} :: 0 <= i < |b| && (b[i].StHash? || b[i].StNs?) ==> b[i].b == false
  }

  ghost predicate LockTask(sys: Sys, v: Vis, t: Tid, k: Task) {
    && (InCS(k.pc) <==> v.lockv == t)
    && SeqShape(v, t, k.buf) && (v.lockv == t ==> HasSeq(k.buf) || v.seqv % 2 == 1)
    && (Odd(sys, k.pc) ==> v.seqv % 2 == 1)
    && k.sq <= v.seqv && k.sq % 2 == 0
  }

  ghost predicate FlagTask(sys: Sys, ures: Outcome, t: Tid, k: Task) {
    && (if t == sys.u && k.pc == UUnlock then HashDown(k.buf) else NoHash(k.buf))
    && (Slow(k.pc) ==> ures == Ok)
  }

  /** What t contributes to the visible counters. */
  ghost function Shown(sys: Sys, nsref: bool, t: Tid, k: Task): (n: int) { Own(sys, nsref, t, k) - Net(k.buf) }

  ghost predicate RecInv(sys: Sys, nsref: bool, nsput: bool, v: Vis, ures: Outcome, t: Tid, k: Task) {
    && LabelOK(sys, nsref, nsput, t, k) && k.cpu < sys.ncpu
    && BufOK(sys.ncpu, Own(sys, nsref, t, k), k.buf)
    && Shown(sys, nsref, t, k) >= Bit(Own(sys, nsref, t, k) >= 1 && k.pc != WMb)
    && LockTask(sys, v, t, k) && FlagTask(sys, ures, t, k)
  }

  ghost predicate TaskInv(sys: Sys, st: State, t: Tid) {
    t in st.ts && RecInv(sys, st.nsref, st.nsput, st.vis, st.uresult, t, st.ts[t])
  }

  // ---- the umounter and the flags -----------------------------------------------------------------

  ghost predicate Undecided(l: Label) { l == ULock || l == UMb || l == USum || l == UBusy || l == UTree }

  /** What umount_tree() has cleared is cleared, or about to be. */
  ghost predicate DownLater(m: Mount, b: seq<Store>) {
    && (m.hashed ==> exists i {:trigger b[i]} :: 0 <= i < |b| && b[i].StHash?)
    && (m.ns ==> exists i {:trigger b[i]} :: 0 <= i < |b| && b[i].StNs?)
  }

  ghost predicate FlagsOK(sys: Sys, st: State) {
    && sys.u in st.ts
    && var l, m := st.ts[sys.u].pc, st.vis.m;
       && (st.uresult == Pending <==> Undecided(l))
       && (l == UUnlock ==> st.uresult == Ok && DownLater(m, st.ts[sys.u].buf))
       && (st.uresult != Ok ==> m.hashed && m.ns && !m.sync && !m.doomed)
       && (st.uresult == Ok ==> m.sync == !sys.lazy && (l != UUnlock ==> !m.hashed && !m.ns))
  }

  // ---- the counters ----------------------------------------------------------------------------------

  ghost function VisFn(sys: Sys, st: State): (f: Tid -> int) {
    (t: Tid) => if t in st.ts then Shown(sys, st.nsref, t, st.ts[t]) else 0
  }

  ghost predicate Counted(sys: Sys, st: State) { SumSeq(st.vis.cntv) == Sum(sys.tasks, VisFn(sys, st)) }

  // ---- who can still hold a reference ------------------------------------------------------------------

  /** Nothing but a walker bound to lose: no reference, or one it has yet to drop
      under mount_lock. */
  ghost predicate Quiet(seqv: nat, k: Task) {
    match k.pc
    case WStart | WLookup | WNone | Lost | Done | HIdle => k.refs == 0
    case WL1 | WL2 => k.refs == 0 && k.sq < seqv
    case WMb | WL4 => k.refs == 1 && k.sq < seqv
    case WLock | WFlags => k.refs == 1
    case _ => false
  }

  ghost predicate AllQuiet(sys: Sys, st: State, x: Tid) {
    (x != sys.u ==> !st.nsref) && forall s {:trigger st.ts[s]} :: s in st.ts && s != x ==> Quiet(st.vis.seqv, st.ts[s])
  }

  /** A doomed mount. */
  ghost predicate DoomedOK(sys: Sys, st: State) {
    if st.vis.m.doomed
    then
      && st.uresult == Ok && !st.nsref
      && (forall s {:trigger st.ts[s]} ::
            s in st.ts ==> Quiet(st.vis.seqv, st.ts[s]) || (st.ts[s].pc == PCleanup && st.ts[s].refs == 0))
      && (forall s, r {:trigger st.ts[s], st.ts[r]} ::
            s in st.ts && r in st.ts && st.ts[s].pc == PCleanup && st.ts[r].pc == PCleanup ==> s == r)
    else st.cleaner == NOBODY && !st.vis.m.freed && !st.gpfree.on && forall s {:trigger st.ts[s]} :: s in st.ts ==>
      st.ts[s].pc != PCleanup
  }

  /** After cleanup_mnt() only readers its grace period waits for can touch the mount. */
  ghost predicate FreeOK(st: State) {
    && (st.cleaner != NOBODY ==>
          && st.vis.m.doomed
          && forall s {:trigger st.ts[s]} ::
              s in st.ts ==> st.ts[s].pc != PCleanup && (Touching(st.ts[s].pc) ==> s in st.gpfree.wait))
    && (st.gpfree.on ==> st.cleaner != NOBODY)
    && (st.vis.m.freed ==> st.cleaner != NOBODY && st.gpfree.wait == {})
  }

  /** A synchronous umount that succeeded. */
  ghost predicate SyncOK(sys: Sys, st: State) {
    st.uresult == Ok && !sys.lazy ==> AllQuiet(sys, st, sys.u) && (st.cleaner == NOBODY || st.cleaner == sys.u)
  }

  // ---- a sum in progress ---------------------------------------------------------------------------------

  /** The puts of the first n CPUs, as the owner of the buffer sees them. */
  ghost function PutsRead(v: Vis, b: seq<Store>, n: nat): (s: int)
    requires n <= |v.putv|
  {
    if n == 0 then 0 else PutsRead(v, b, n - 1) + SeenPuts(v, b, n - 1)
  }

  /** The gets of the CPUs from n on. */
  ghost function GetsLeft(v: Vis, b: seq<Store>, n: nat): (s: int)
    requires n <= |v.cntv| == |v.putv|
    decreases |v.cntv| - n
  {
    if n == |v.cntv| then 0 else SeenGets(v, b, n) + GetsLeft(v, b, n + 1)
  }

  /** The count t arrives at is at least own, and more unless everybody else is quiet. */
  ghost predicate AtLeast(sys: Sys, st: State, t: Tid, n: int)
    requires t in st.ts
  {
    var own := Own(sys, st.nsref, t, st.ts[t]);
    n >= own && (n >= own + 1 || AllQuiet(sys, st, t))
  }

  ghost predicate SumOK(sys: Sys, st: State, t: Tid)
    requires |st.vis.cntv| == |st.vis.putv| == sys.ncpu
  {
    t in st.ts ==>
      var k := st.ts[t];
      match k.pc
      case PSum | USum =>
        k.ci <= 2 * sys.ncpu &&
        if k.ci < sys.ncpu then k.acc >= -PutsRead(st.vis, k.buf, k.ci)
        else AtLeast(sys, st, t, k.acc + GetsLeft(st.vis, k.buf, k.ci - sys.ncpu))
      case PCheck | UBusy => AtLeast(sys, st, t, k.acc)
      case UTree => sys.lazy || AllQuiet(sys, st, t)
      case _ => true
  }

  // ---- the invariant ---------------------------------------------------------------------------------------

  ghost predicate Shape(sys: Sys, st: State) {
    && sys.Valid() && st.ts.Keys == sys.tasks && |st.vis.cntv| == |st.vis.putv| == sys.ncpu
    && (st.vis.lockv == NOBODY ==> st.vis.seqv % 2 == 0) && (st.vis.lockv != NOBODY ==> st.vis.lockv in sys.tasks)
  }

  ghost predicate Tasks(sys: Sys, st: State) {
    forall t {:trigger TaskInv(sys, st, t)} :: t in sys.tasks ==> TaskInv(sys, st, t)
  }

  ghost predicate Sums(sys: Sys, st: State)
    requires |st.vis.cntv| == |st.vis.putv| == sys.ncpu
  {
    forall t {:trigger SumOK(sys, st, t)} :: t in sys.tasks ==> SumOK(sys, st, t)
  }

  ghost predicate Inv(sys: Sys, st: State) {
    && Shape(sys, st) && Tasks(sys, st) && FlagsOK(sys, st) && Counted(sys, st)
    && Sums(sys, st) && DoomedOK(sys, st) && FreeOK(st) && SyncOK(sys, st)
  }
}
