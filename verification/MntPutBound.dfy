/** Every run of the reference count protocol is finite, but for new references and
    migrations: each of its other steps uses up some of a budget that is known at the
    start.  So the mount is freed, or its umount refused, without any fairness. */
module MntPutBound {
  import opened Finite
  import opened MntPut
  import opened MntPutInv
  import opened MntPutSteps
  import opened MntPutTheorems
  import opened MntPutExact
  import opened MntPutEnd

  // ---- the budget ------------------------------------------------------------------------------

  ghost function Cut(i: int): (n: nat) { if i > 0 then i else 0 }

  /** A whole mntput() on n CPUs, and what it costs a holder to drop one reference. */
  ghost function Enter(n: nat): (r: nat) { 13 + 2 * n }

  ghost function EachRef(n: nat): (r: nat) { 14 + 2 * n }

  ghost predicate InPut(l: Label) {
    match l case PEnter | PFast | PLock | PMb | PDec | PSum | PCheck | PCleanup => true case _ => false
  }

  /** The references a put is about to drop. */
  ghost function Dropping(l: Label): (n: nat) { match l case PEnter | PFast | PLock | PMb | PDec => 1 case _ => 0 }

  /** At most how many steps from a label, the stores to be flushed included, it is to the
      end of the put or of the task; ci is how far a sum is. */
  ghost function Ahead(n: nat, l: Label, ci: nat): (r: nat) {
    match l
    case PCleanup => 3
    case PCheck => 4
    case PFast => 3
    case PSum => 5 + Cut(2 * n - ci)
    case PDec => 8 + 2 * n
    case PMb => 9 + 2 * n
    case PLock => 12 + 2 * n
    case PEnter => Enter(n)
    case URet => Enter(n) + 1
    case UNsPut => 2 * Enter(n) + 2
    case UGpWait => 2 * Enter(n) + 3
    case UNsUnlock => 2 * Enter(n) + 4
    case UUnlock => 2 * Enter(n) + 5
    case UTree => 2 * Enter(n) + 8
    case UBusy => 2 * Enter(n) + 9
    case USum => 2 * Enter(n) + 10 + Cut(2 * n - ci)
    case UMb => 2 * Enter(n) + 11 + 2 * n
    case ULock => 2 * Enter(n) + 14 + 2 * n
    case WUse | WFlags => Enter(n) + 1
    case WLock => Enter(n) + 4
    case WL4 => Enter(n) + 5
    case WMb => Enter(n) + 6
    case WL2 => Enter(n) + 8
    case WL1 => Enter(n) + 9
    case WLookup => Enter(n) + 10
    case WStart => Enter(n) + 11
    case HIdle => 1
    case Done | Lost | WNone => 0
  }

  /** What a holder with r references still has to put. */
  ghost function Owed(sys: Sys, t: Tid, r: int): (n: nat) {
    if t in sys.holders then EachRef(sys.ncpu) * Cut(r) else 0
  }

  ghost function After(n: nat, l: Label): (r: nat) { Ahead(n, l, 0) }

  /** With what comes after a put, what a holder still has to put, and its buffer. */
  ghost function Budget(sys: Sys, t: Tid, k: Task): (r: nat) {
    Ahead(sys.ncpu, k.pc, k.ci) + (if InPut(k.pc) then After(sys.ncpu, k.ret) else 0) + |k.buf|
    + Owed(sys, t, k.refs - Dropping(k.pc))
  }

  ghost function BudgetOf(sys: Sys, st: State): (f: Tid -> int) {
    (t: Tid) => if t in st.ts then Budget(sys, t, st.ts[t]) else 0
  }

  ghost function Total(sys: Sys, st: State): (r: int) { Sum(sys.tasks, BudgetOf(sys, st)) + Bit(st.gpfree.on) }

  // ---- one step -------------------------------------------------------------------------------------

  /** What t does costs t at least one, d is what is added, and nobody else anything. */
  ghost predicate Costs(sys: Sys, st: State, t: Tid, z: State, d: nat) {
    && t in st.ts && t in z.ts && z.ts == st.ts[t := z.ts[t]]
    && Budget(sys, t, z.ts[t]) + Bit(z.gpfree.on) < Budget(sys, t, st.ts[t]) + Bit(st.gpfree.on) + d
  }

  /** A put that returns goes on at one of these. */
  ghost predicate Returns(k: Task) {
    k.pc.PFast? || k.pc.PCheck? || k.pc.PCleanup? ==> k.ret.Done? || k.ret.Lost? || k.ret.HIdle? || k.ret.URet?
  }

  lemma {:induction false} AfterIs(n: nat, k: Task)
    requires (k.pc.PFast? || k.pc.PCheck? || k.pc.PCleanup?) && Returns(k)
    ensures !InPut(k.ret) && Dropping(k.ret) == 0 && forall i: nat :: After(n, k.ret) == Ahead(n, k.ret, i)
  {
  }

  /** Once for all. */
  lemma {:induction false} AfterOf(n: nat)
    ensures After(n, Done) == After(n, Lost) == 0 && After(n, HIdle) == 1 && After(n, URet) == Enter(n) + 1
  {
  }

  /** t, and t only, goes on at l: with ret, ci and at most n more stores. */
  ghost predicate GoesTo(st: State, t: Tid, z: State, l: Label, n: nat) {
    && t in st.ts && t in z.ts && z.ts == st.ts[t := z.ts[t]] && z.gpfree.on == st.gpfree.on
    && z.ts[t].pc == l && |z.ts[t].buf| <= |st.ts[t].buf| + n
  }

  lemma {:induction false} OwedNone(sys: Sys, t: Tid)
    requires t !in sys.holders
    ensures forall r :: Owed(sys, t, r) == 0
  {
  }

  lemma {:induction false} OwedOne(sys: Sys, t: Tid, r: nat)
    requires t in sys.holders
    ensures Owed(sys, t, r + 1) == Owed(sys, t, r) + EachRef(sys.ncpu)
  {
    assert EachRef(sys.ncpu) * (r + 1) == EachRef(sys.ncpu) * r + EachRef(sys.ncpu);
  }

  lemma {:induction false} EnterCosts(sys: Sys, st: State, t: Tid, z: State)
    requires PutEnter(st, t, z)
    ensures Costs(sys, st, t, z, 0)
  {
    hide Apply, ApplyAll, SeenSeq, Owed, After;
  }

  lemma {:induction false} FastForm(sys: Sys, st: State, t: Tid, z: State)
    requires PutFast(sys, st, t, z) && t in st.ts
    ensures GoesTo(st, t, z, st.ts[t].ret, 2) && st.ts[t].pc == PFast
    ensures z.ts[t].refs == st.ts[t].refs - 1 || t == sys.u
  {
    hide Apply, ApplyAll, SeenSeq, ViaPwd, Readers;
  }

  lemma {:induction false} FastCosts(sys: Sys, st: State, t: Tid, z: State)
    requires PutFast(sys, st, t, z) && t in st.ts && Returns(st.ts[t]) && sys.u !in sys.holders
    ensures Costs(sys, st, t, z, 0)
  {
    hide Owed, After, PutFast;
    FastForm(sys, st, t, z);
    AfterIs(sys.ncpu, st.ts[t]);
    if t == sys.u { OwedNone(sys, t); }
  }

  lemma {:induction false} LockCosts(sys: Sys, st: State, t: Tid, z: State)
    requires PutLock(st, t, z)
    ensures Costs(sys, st, t, z, 0)
  {
    hide Apply, ApplyAll, SeenSeq, Owed, After;
  }

  lemma {:induction false} MbCosts(sys: Sys, st: State, t: Tid, z: State)
    requires PutMb(st, t, z)
    ensures Costs(sys, st, t, z, 0)
  {
    hide Owed, After;
  }

  lemma {:induction false} DecForm(sys: Sys, st: State, t: Tid, z: State)
    requires PutDec(sys, st, t, z) && t in st.ts
    ensures GoesTo(st, t, z, PSum, 2) && st.ts[t].pc == PDec && z.ts[t].ret == st.ts[t].ret && z.ts[t].ci == 0
    ensures z.ts[t].refs == st.ts[t].refs - 1 || t == sys.u
  {
    hide Apply, ApplyAll, SeenSeq, ViaPwd, Readers;
  }

  lemma {:induction false} DecCosts(sys: Sys, st: State, t: Tid, z: State)
    requires PutDec(sys, st, t, z) && t in st.ts && sys.u !in sys.holders
    ensures Costs(sys, st, t, z, 0)
  {
    hide Owed, After, PutDec;
    DecForm(sys, st, t, z);
    if t == sys.u { OwedNone(sys, t); }
  }

  lemma {:induction false} SumCosts(sys: Sys, st: State, t: Tid, z: State)
    requires PutSum(sys, st, t, z)
    ensures Costs(sys, st, t, z, 0)
  {
    hide Apply, ApplyAll, SeenSeq, SeenPuts, SeenGets, ReadCnt, Owed, After;
  }

  lemma {:induction false} UmSumCosts(sys: Sys, st: State, t: Tid, z: State)
    requires UmSum(sys, st, t, z)
    ensures Costs(sys, st, t, z, 0)
  {
    hide Apply, ApplyAll, SeenSeq, SeenPuts, SeenGets, ReadCnt, Owed, After;
  }

  lemma {:induction false} CheckForm(sys: Sys, st: State, t: Tid, z: State)
    requires PutCheck(st, t, z) && t in st.ts
    ensures (GoesTo(st, t, z, st.ts[t].ret, 0) || GoesTo(st, t, z, PCleanup, 0)) && st.ts[t].pc == PCheck
    ensures z.ts[t].ret == st.ts[t].ret && z.ts[t].refs == st.ts[t].refs
  {
    hide Apply, ApplyAll, SeenSeq, ViaPwd, Readers;
  }

  lemma {:induction false} CheckCosts(sys: Sys, st: State, t: Tid, z: State)
    requires PutCheck(st, t, z) && t in st.ts && Returns(st.ts[t])
    ensures Costs(sys, st, t, z, 0)
  {
    hide Owed, After, PutCheck;
    CheckForm(sys, st, t, z);
    AfterIs(sys.ncpu, st.ts[t]);
  }

  lemma {:induction false} CleanCosts(sys: Sys, st: State, t: Tid, z: State)
    requires PutCleanup(st, t, z) && t in st.ts && Returns(st.ts[t])
    ensures Costs(sys, st, t, z, 0)
  {
    hide Readers, Owed, After;
    AfterIs(sys.ncpu, st.ts[t]);
  }

  lemma {:induction false} StartCosts(sys: Sys, st: State, t: Tid, z: State)
    requires StartWalk(st, t, z)
    ensures Costs(sys, st, t, z, 0)
  {
    hide Owed, After;
  }

  lemma {:induction false} Legit1Costs(sys: Sys, st: State, t: Tid, z: State)
    requires Legit1(st, t, z)
    ensures Costs(sys, st, t, z, 0)
  {
    hide Owed, After;
  }

  lemma {:induction false} LookupForm(sys: Sys, st: State, t: Tid, z: State)
    requires Lookup(sys, st, t, z)
    ensures (GoesTo(st, t, z, WL1, 0) || GoesTo(st, t, z, WNone, 0)) && z.ts[t].refs == st.ts[t].refs
    ensures st.ts[t].pc == WLookup
  {
    hide Apply, ApplyAll, SeenSeq, ViaPwd, Readers;
  }

  lemma {:induction false} LookupCosts(sys: Sys, st: State, t: Tid, z: State)
    requires Lookup(sys, st, t, z)
    ensures Costs(sys, st, t, z, 0)
  {
    hide Owed, After, Lookup;
    LookupForm(sys, st, t, z);
  }

  lemma {:induction false} LegitCosts(sys: Sys, st: State, t: Tid, z: State)
    requires t !in sys.holders && Legit2(st, t, z)
    ensures Costs(sys, st, t, z, 0)
  {
    hide Apply, ApplyAll, SeenSeq, Owed, After;
    OwedNone(sys, t);
  }

  lemma {:induction false} BarrierCosts(sys: Sys, st: State, t: Tid, z: State)
    requires LegitMb(st, t, z) || Legit4(st, t, z)
    ensures Costs(sys, st, t, z, 0)
  {
    hide Owed, After;
  }

  lemma {:induction false} FlagsForm(sys: Sys, st: State, t: Tid, z: State)
    requires Flags(st, t, z)
    ensures (GoesTo(st, t, z, Lost, 0) || (GoesTo(st, t, z, PEnter, 0) && z.ts[t].ret == Lost)) && st.ts[t].pc == WFlags
  {
    hide Apply, ApplyAll, SeenSeq, ViaPwd, Readers;
  }

  lemma {:induction false} FlagsCosts(sys: Sys, st: State, t: Tid, z: State)
    requires Flags(st, t, z) && t !in sys.holders
    ensures Costs(sys, st, t, z, 0)
  {
    hide Owed, After, Flags;
    FlagsForm(sys, st, t, z);
    AfterOf(sys.ncpu);
    OwedNone(sys, t);
  }

  lemma {:induction false} WalkLockCosts(sys: Sys, st: State, t: Tid, z: State)
    requires WalkLock(st, t, z)
    ensures Costs(sys, st, t, z, 0)
  {
    hide Apply, ApplyAll, SeenSeq, Owed, After;
  }

  lemma {:induction false} UseCosts(sys: Sys, st: State, t: Tid, z: State)
    requires t !in sys.holders && Use(st, t, z)
    ensures Costs(sys, st, t, z, 0)
  {
    hide Apply, ApplyAll, SeenSeq, Owed, After;
    AfterOf(sys.ncpu);
    OwedNone(sys, t);
  }

  lemma {:induction false} HoldPutCosts(sys: Sys, st: State, t: Tid, z: State)
    requires t in sys.holders && HoldPut(st, t, z)
    ensures Costs(sys, st, t, z, 0)
  {
    hide Owed, After;
    AfterOf(sys.ncpu);
    OwedOne(sys, t, st.ts[t].refs - 1);
  }

  lemma {:induction false} HoldDoneCosts(sys: Sys, st: State, t: Tid, z: State)
    requires HoldDone(st, t, z)
    ensures Costs(sys, st, t, z, 0)
  {
    hide Owed, After;
  }

  lemma {:induction false} GetCosts(sys: Sys, st: State, t: Tid, z: State)
    requires t in sys.holders && HoldGet(st, t, z)
    ensures Costs(sys, st, t, z, 16 + 2 * sys.ncpu)
  {
    hide Owed, After;
    OwedOne(sys, t, st.ts[t].refs);
  }

  lemma {:induction false} MigrateCosts(sys: Sys, st: State, t: Tid, z: State)
    requires Migrate(sys, st, t, z)
    ensures Costs(sys, st, t, z, 16 + 2 * sys.ncpu)
  {
    hide Apply, ApplyAll, SeenSeq, Owed, After;
  }

  lemma {:induction false} UmLockCosts(sys: Sys, st: State, t: Tid, z: State)
    requires UmLock(sys, st, t, z) || UmMb(st, t, z)
    ensures Costs(sys, st, t, z, 0)
  {
    hide Apply, ApplyAll, SeenSeq, Owed, After;
  }

  lemma {:induction false} UmTreeCosts(sys: Sys, st: State, t: Tid, z: State)
    requires UmTree(sys, st, t, z)
    ensures Costs(sys, st, t, z, 0)
  {
    hide Apply, ApplyAll, SeenSeq, Owed, After;
  }

  lemma {:induction false} UmUnlockCosts(sys: Sys, st: State, t: Tid, z: State)
    requires UmUnlock(st, t, z)
    ensures Costs(sys, st, t, z, 0)
  {
    hide Apply, ApplyAll, SeenSeq, Owed, After;
  }

  lemma {:induction false} UmBusyCosts(sys: Sys, st: State, t: Tid, z: State)
    requires sys.u !in sys.holders && t == sys.u && UmBusy(st, t, z)
    ensures Costs(sys, st, t, z, 0)
  {
    hide Apply, ApplyAll, SeenSeq, Owed, After;
    AfterOf(sys.ncpu);
    OwedNone(sys, t);
  }

  lemma {:induction false} UmEndCosts(sys: Sys, st: State, t: Tid, z: State)
    requires sys.u !in sys.holders && t == sys.u && (GpWait(st, t, z) || NsPut(st, t, z) || UmRet(st, t, z))
    ensures Costs(sys, st, t, z, 0)
  {
    hide Owed, After;
    AfterOf(sys.ncpu);
    OwedNone(sys, t);
  }

  lemma {:induction false} FlushCosts(sys: Sys, st: State, t: Tid, z: State)
    requires Flush(st, t, z)
    ensures Costs(sys, st, t, z, 0)
  {
    hide Apply, Owed, After;
  }

  // ---- a grace period leaves no store behind ----------------------------------------------------

  /** Every task as it was, but for stores that have gone. */
  ghost predicate Fewer(st: State, z: State) {
    && z.ts.Keys == st.ts.Keys && z.gpfree == st.gpfree
    && forall s {:trigger z.ts[s]} ::
        s in st.ts ==> z.ts[s] == st.ts[s].(buf := z.ts[s].buf) && |z.ts[s].buf| <= |st.ts[s].buf|
  }

  lemma {:induction false} DrainFewer(st: State, t: Tid)
    requires t in st.ts
    ensures Fewer(st, Drained(st, t, []))
  {
    hide ApplyAll;
  }

  lemma {:induction false} DrainsFewer(st: State, order: seq<Tid>)
    requires forall t :: t in order ==> t in st.ts
    ensures Fewer(st, DrainedAll(st, order))
    decreases |order|
  {
    hide Drained;
    if order != [] {
      DrainFewer(st, order[0]);
      DrainsFewer(Drained(st, order[0], []), order[1..]);
    }
  }

  lemma {:induction false} FewerBudget(sys: Sys, st: State, z: State, s: Tid)
    requires Fewer(st, z) && s in st.ts
    ensures Budget(sys, s, z.ts[s]) <= Budget(sys, s, st.ts[s])
  {
    hide Ahead, After, Owed, InPut, Dropping;
    assert z.ts[s] == st.ts[s].(buf := z.ts[s].buf);
  }

  lemma {:induction false} GoBudget(sys: Sys, k: Task)
    requires k.pc == UNsUnlock
    ensures Budget(sys, sys.u, k.(pc := UGpWait)) < Budget(sys, sys.u, k)
  {
    hide Owed, After;
  }

  // ---- all of it -----------------------------------------------------------------------------------

  lemma {:induction false} TotalCosts(sys: Sys, st: State, t: Tid, z: State, d: nat)
    requires Costs(sys, st, t, z, d) && t in sys.tasks
    ensures Total(sys, z) < Total(sys, st) + d
  {
    hide Budget;
    SumUpdate(sys.tasks, BudgetOf(sys, st), BudgetOf(sys, z), t);
  }

  lemma {:induction false} GraceCosts(sys: Sys, st: State, t: Tid, z: State)
    requires sys.Valid() && t == sys.u && NsUnlock(sys, st, t, z)
    ensures Total(sys, z) < Total(sys, st)
  {
    hide Budget, Readers, DrainedAll;
    var y := Goto(st, t, UGpWait).(gp := Grace(true, Readers(st)));
    assert y.ts == st.ts[t := st.ts[t].(pc := UGpWait)];
    GoBudget(sys, st.ts[t]);
    assert Costs(sys, st, t, y, 0);
    TotalCosts(sys, st, t, y, 0);
    DrainsFewer(y, sys.order);
    forall s | s in sys.tasks ensures BudgetOf(sys, z)(s) <= BudgetOf(sys, y)(s) {
      if s in y.ts { FewerBudget(sys, y, z, s); }
    }
    SumMonotone(sys.tasks, BudgetOf(sys, z), BudgetOf(sys, y));
  }

  /** A new reference of a holder, or a migration of one. */
  ghost predicate Extra(sys: Sys, st: State, z: State) {
    exists t {:trigger HoldGet(st, t, z)} {:trigger Migrate(sys, st, t, z)} ::
      t in sys.holders && (HoldGet(st, t, z) || Migrate(sys, st, t, z))
  }

  lemma {:induction false} PutCosts(sys: Sys, st: State, t: Tid, z: State)
    requires sys.Valid() && Put(sys, st, t, z) && t in st.ts && Returns(st.ts[t])
    ensures Costs(sys, st, t, z, 0)
  {
    assert sys.u !in sys.holders;
    hide Costs, Returns, Sys.Valid, PutEnter, PutFast, PutLock, PutMb, PutDec, PutSum, PutCheck, PutCleanup;
    if PutEnter(st, t, z) { EnterCosts(sys, st, t, z); }
    else if PutFast(sys, st, t, z) { FastCosts(sys, st, t, z); }
    else if PutLock(st, t, z) { LockCosts(sys, st, t, z); }
    else if PutMb(st, t, z) { MbCosts(sys, st, t, z); }
    else if PutDec(sys, st, t, z) { DecCosts(sys, st, t, z); }
    else if PutSum(sys, st, t, z) { SumCosts(sys, st, t, z); }
    else if PutCheck(st, t, z) { CheckCosts(sys, st, t, z); }
    else { CleanCosts(sys, st, t, z); }
  }

  lemma {:induction false} WalkCosts(sys: Sys, st: State, t: Tid, z: State)
    requires sys.Valid() && t in sys.walkers && Walk(sys, st, t, z)
    ensures Costs(sys, st, t, z, 0)
  {
    assert t !in sys.holders;
    hide Costs, Sys.Valid, StartWalk, Lookup, Legit1, Legit2, LegitMb, Legit4, WalkLock, Flags, Use;
    if StartWalk(st, t, z) { StartCosts(sys, st, t, z); }
    else if Legit1(st, t, z) { Legit1Costs(sys, st, t, z); }
    else if Lookup(sys, st, t, z) { LookupCosts(sys, st, t, z); }
    else if WalkLock(st, t, z) { WalkLockCosts(sys, st, t, z); }
    else if Flags(st, t, z) { FlagsCosts(sys, st, t, z); }
    else if Use(st, t, z) { UseCosts(sys, st, t, z); }
    else if Legit2(st, t, z) { LegitCosts(sys, st, t, z); }
    else { BarrierCosts(sys, st, t, z); }
  }

  lemma {:induction false} UmountCosts(sys: Sys, st: State, t: Tid, z: State)
    requires sys.Valid() && t == sys.u && Umount(sys, st, t, z) && !NsUnlock(sys, st, t, z)
    ensures Costs(sys, st, t, z, 0)
  {
    assert sys.u !in sys.holders;
    hide Costs, Sys.Valid, UmLock, UmMb, UmSum, UmBusy, UmTree, UmUnlock, NsUnlock, GpWait, NsPut, UmRet;
    if UmLock(sys, st, t, z) || UmMb(st, t, z) { UmLockCosts(sys, st, t, z); }
    else if UmSum(sys, st, t, z) { UmSumCosts(sys, st, t, z); }
    else if UmBusy(st, t, z) { UmBusyCosts(sys, st, t, z); }
    else if UmTree(sys, st, t, z) { UmTreeCosts(sys, st, t, z); }
    else if UmUnlock(st, t, z) { UmUnlockCosts(sys, st, t, z); }
    else { UmEndCosts(sys, st, t, z); }
  }

  /** Any step of a task but a new reference and a migration. */
  lemma {:induction false} TaskCosts(sys: Sys, st: State, t: Tid, z: State)
    requires sys.Valid() && t in sys.tasks && t in st.ts && Returns(st.ts[t])
    requires Flush(st, t, z) || (TaskStep(sys, st, t, z) && !HoldGet(st, t, z) && !Migrate(sys, st, t, z))
    ensures Total(sys, z) < Total(sys, st)
  {
    hide Costs, Total, Returns, Flush, Put, Walk, Umount, HoldGet, Migrate, HoldPut, HoldDone, NsUnlock, Sys.Valid;
    if Flush(st, t, z) { FlushCosts(sys, st, t, z); }
    else if Put(sys, st, t, z) { PutCosts(sys, st, t, z); }
    else if t in sys.walkers && Walk(sys, st, t, z) { WalkCosts(sys, st, t, z); }
    else if t in sys.holders && Hold(sys, st, t, z) {
      if HoldPut(st, t, z) { HoldPutCosts(sys, st, t, z); } else { HoldDoneCosts(sys, st, t, z); }
    } else if NsUnlock(sys, st, t, z) { GraceCosts(sys, st, t, z); return; }
    else { UmountCosts(sys, st, t, z); }
    TotalCosts(sys, st, t, z, 0);
  }

  lemma {:induction false} ReturnsIn(sys: Sys, st: State, t: Tid)
    requires Inv(sys, st) && t in sys.tasks
    ensures t in st.ts && Returns(st.ts[t])
  {
    hide Inv;
    BaseTask(sys, st, t);
  }

  lemma {:induction false} FreeCosts(sys: Sys, st: State, z: State)
    requires RcuFree(st, z)
    ensures Total(sys, z) < Total(sys, st)
  {
    hide Budget;
    SumCongruent(sys.tasks, BudgetOf(sys, st), BudgetOf(sys, z));
  }

  lemma {:induction false} PutNotIdle(sys: Sys, st: State, t: Tid, z: State)
    requires Put(sys, st, t, z)
    ensures t in st.ts && st.ts[t].pc != HIdle
  {
    hide Drained, PushAll, RcuOut, DropRef, Lock, SumStep, UnlockStores, PutStores, Readers, Goto, SetTask;
  }

  lemma {:induction false} WalkNotIdle(sys: Sys, st: State, t: Tid, z: State)
    requires Walk(sys, st, t, z)
    ensures t in st.ts && st.ts[t].pc != HIdle
  {
    hide Drained, PushAll, RcuOut, Lock, UnlockStores, PutStores, ViaPwd, Goto, SetTask;
  }

  lemma {:induction false} UmountNotIdle(sys: Sys, st: State, t: Tid, z: State)
    requires Umount(sys, st, t, z)
    ensures t in st.ts && st.ts[t].pc != HIdle
  {
    hide Drained, PushAll, Lock, SumStep, UnlockStores, DrainedAll, Readers, Goto, SetTask;
  }

  /** Only a holder is idle and has a step. */
  lemma {:induction false} ExtraIs(sys: Sys, st: State, t: Tid, z: State)
    requires TaskStep(sys, st, t, z) && (HoldGet(st, t, z) || Migrate(sys, st, t, z))
    ensures t in sys.holders && Extra(sys, st, z)
  {
    assert At(st, t, HIdle);
    hide Put, Walk, Umount, HoldGet, Migrate;
    if Put(sys, st, t, z) { PutNotIdle(sys, st, t, z); }
    if Walk(sys, st, t, z) { WalkNotIdle(sys, st, t, z); }
    if Umount(sys, st, t, z) { UmountNotIdle(sys, st, t, z); }
  }

  lemma {:induction false} NextCosts(sys: Sys, st: State, z: State)
    requires sys.Valid() && Inv(sys, st) && Next(sys, st, z)
    ensures Total(sys, z) < Total(sys, st) + if Extra(sys, st, z) then 16 + 2 * sys.ncpu else 0
  {
    hide Inv, Total, Costs, Returns, RcuFree, TaskStep, Flush, HoldGet, Migrate;
    if RcuFree(st, z) { FreeCosts(sys, st, z); }
    else {
      var t :| t in sys.tasks && (TaskStep(sys, st, t, z) || Flush(st, t, z));
      ReturnsIn(sys, st, t);
      if Flush(st, t, z) || (!HoldGet(st, t, z) && !Migrate(sys, st, t, z)) { TaskCosts(sys, st, t, z); }
      else {
        ExtraIs(sys, st, t, z);
        if HoldGet(st, t, z) { GetCosts(sys, st, t, z); } else { MigrateCosts(sys, st, t, z); }
        TotalCosts(sys, st, t, z, 16 + 2 * sys.ncpu);
      }
    }
  }

  // ---- every run ---------------------------------------------------------------------------------------

  /** How many of the first i steps are new references or migrations. */
  ghost function Extras(sys: Sys, b: seq<State>, i: nat): (n: nat)
    requires i < |b| || i == 0
  {
    if i == 0 then 0 else Extras(sys, b, i - 1) + Bit(Extra(sys, b[i - 1], b[i]))
  }

  lemma {:induction false} RunCosts(sys: Sys, b: seq<State>, i: nat)
    requires sys.Valid() && Run(sys, b) && i < |b|
    ensures Total(sys, b[i]) + i <= Total(sys, b[0]) + (16 + 2 * sys.ncpu) * Extras(sys, b, i)
    decreases i
  {
    hide Inv, Total, Extra, Next, Sys.Valid;
    if i > 0 {
      RunCosts(sys, b, i - 1);
      RunInv(sys, b, i - 1);
      assert Next(sys, b[i - 1], b[i]);
      NextCosts(sys, b[i - 1], b[i]);
      OneMore(16 + 2 * sys.ncpu, Extras(sys, b, i - 1));
    }
  }

  lemma {:induction false} OneMore(c: nat, n: nat)
    ensures c * (n + 1) == c * n + c
  {
  }

  lemma {:induction false} TotalPositive(sys: Sys, st: State)
    ensures Total(sys, st) >= 0
  {
    hide Budget;
    SumNonNegative(sys.tasks, BudgetOf(sys, st));
  }

  lemma {:induction false} StartBudget(sys: Sys, st: State, t: Tid)
    requires sys.Valid() && Init(sys, st) && t in sys.tasks
    ensures t in st.ts && Budget(sys, t, st.ts[t]) <= 40 + 6 * sys.ncpu
  {
    StartTask(sys, st, t);
    hide Init, Sys.Valid;
    KBudget(sys, t, st.ts[t]);
  }

  lemma {:induction false} StartTask(sys: Sys, st: State, t: Tid)
    requires sys.Valid() && Init(sys, st) && t in sys.tasks
    ensures t in st.ts && st.ts[t].buf == [] && (t in sys.holders ==> st.ts[t].pc == HIdle && st.ts[t].refs == 1)
    ensures t !in sys.holders ==> st.ts[t].pc == ULock || st.ts[t].pc == WStart
  {
    assert t in sys.walkers ==> t !in sys.holders;
  }

  lemma {:induction false} KBudget(sys: Sys, t: Tid, k: Task)
    requires k.buf == [] && (if t in sys.holders then k.pc == HIdle && k.refs == 1 else k.pc == ULock || k.pc == WStart)
    ensures Budget(sys, t, k) <= 40 + 6 * sys.ncpu
  {
    hide After;
    if t in sys.holders { assert EachRef(sys.ncpu) * Cut(1) == EachRef(sys.ncpu); }
  }

  lemma {:induction false} SumAtMost(s: set<Tid>, f: Tid -> int, c: nat)
    requires forall t :: t in s ==> f(t) <= c
    ensures Sum(s, f) <= c * |s|
    decreases |s|
  {
    if s != {} {
      var x :| x in s;
      SumSplit(s, f, x);
      SumAtMost(s - {x}, f, c);
      OneMore(c, |s| - 1);
    }
  }

  lemma {:induction false} StartFree(sys: Sys, st: State)
    requires Init(sys, st)
    ensures !st.gpfree.on
  {
  }

  lemma {:induction false} StartTotal(sys: Sys, st: State)
    requires sys.Valid() && Init(sys, st)
    ensures Total(sys, st) <= (40 + 6 * sys.ncpu) * |sys.tasks|
  {
    hide Init, Budget, Sys.Valid;
    forall t | t in sys.tasks ensures BudgetOf(sys, st)(t) <= 40 + 6 * sys.ncpu { StartBudget(sys, st, t); }
    assert !st.gpfree.on by { StartFree(sys, st); }
    SumAtMost(sys.tasks, BudgetOf(sys, st), 40 + 6 * sys.ncpu);
  }

  /** A run is at most as long as its tasks and its new references and migrations allow:
      nothing goes on for ever, in whatever order the tasks and the buffers move. */
  lemma {:induction false} RunsBounded(sys: Sys, b: seq<State>)
    requires sys.Valid() && Run(sys, b)
    ensures |b| - 1 <= (40 + 6 * sys.ncpu) * |sys.tasks| + (16 + 2 * sys.ncpu) * Extras(sys, b, |b| - 1)
  {
    hide Total, Next, Init;
    RunCosts(sys, b, |b| - 1);
    TotalPositive(sys, b[|b| - 1]);
    StartTotal(sys, b[0]);
  }

  // ---- the end is reached -------------------------------------------------------------------------------

  ghost function Last(b: seq<State>): (st: State)
    requires |b| > 0
  {
    b[|b| - 1]
  }

  lemma {:induction false} OneLonger(sys: Sys, b: seq<State>, z: State)
    requires Run(sys, b) && Next(sys, Last(b), z)
    ensures Run(sys, b + [z]) && Last(b + [z]) == z && b <= b + [z]
  {
    hide Next, Init;
    var e := b + [z];
    forall i, j | 0 <= i < |e| - 1 && j == i + 1 ensures Next(sys, e[i], e[j]) {
      if i < |b| - 1 { assert Next(sys, b[i], b[j]); }
    }
  }

  lemma {:induction false} ProductiveNext(sys: Sys, st: State, z: State)
    requires sys.Valid() && Inv(sys, st) && Productive(sys, st, z)
    ensures Next(sys, st, z) && Total(sys, z) < Total(sys, st)
  {
    hide Inv, Total, Returns, TaskStep, Flush, HoldGet, Migrate;
    var t :| t in sys.tasks
        && (Flush(st, t, z) || (TaskStep(sys, st, t, z) && !HoldGet(st, t, z) && !Migrate(sys, st, t, z)));
    ReturnsIn(sys, st, t);
    TaskCosts(sys, st, t, z);
  }

  /** Every run can be carried on, without a new reference or a migration, until
      everybody is done; within the budget left. */
  lemma {:induction false} Finishes(sys: Sys, b: seq<State>) returns (e: seq<State>)
    requires sys.Valid() && Run(sys, b)
    ensures Run(sys, e) && b <= e && AllFinal(sys, Last(e)) && |e| - |b| <= Total(sys, Last(b)) - Total(sys, Last(e))
    decreases Total(sys, Last(b))
  {
    hide Run, Total, AllFinal, Inv, Next, Productive;
    RunSome(sys, b);
    TotalPositive(sys, Last(b));
    e := b;
    if !AllFinal(sys, Last(b)) {
      var z := NeverStuck(sys, b, |b| - 1);
      RunInv(sys, b, |b| - 1);
      ProductiveNext(sys, Last(b), z);
      TotalPositive(sys, z);
      OneLonger(sys, b, z);
      e := Finishes(sys, b + [z]);
    }
  }

  lemma {:induction false} RunSome(sys: Sys, b: seq<State>)
    requires Run(sys, b)
    ensures |b| > 0
  {
  }

  /** So from every state of every run the mount comes to be freed, or its umount has been
      refused and it is still there. */
  lemma {:induction false} ComesToEnd(sys: Sys, b: seq<State>) returns (e: seq<State>)
    requires sys.Valid() && Run(sys, b)
    ensures Run(sys, e) && b <= e && |e| > 0 && AllFinal(sys, Last(e))
    ensures Last(e).uresult == Ok ==> Last(e).vis.m.doomed && Last(e).vis.m.freed
    ensures Last(e).uresult != Ok ==> Last(e).uresult == Busy && Last(e).vis.m.hashed && !Last(e).vis.m.doomed
  {
    hide Run, AllFinal, Next, RcuFree;
    e := Finishes(sys, b);
    RunSome(sys, e);
    FreedInTheEnd(sys, e, |e| - 1);
    var st := Last(e);
    if st.uresult == Ok && !st.vis.m.freed {
      var z :| RcuFree(st, z);
      FreeIs(sys, st, z);
      OneLonger(sys, e, z);
      e := e + [z];
    }
  }

  lemma {:induction false} FreeIs(sys: Sys, st: State, z: State)
    requires RcuFree(st, z)
    ensures Next(sys, st, z) && z.ts == st.ts && z.uresult == st.uresult && z.vis.m == st.vis.m.(freed := true)
    ensures AllFinal(sys, st) ==> AllFinal(sys, z)
  {
    hide TaskStep, Flush, Final;
  }
}
