/** Every step that neither flushes, releases mount_lock nor decides anything keeps
    the invariant. */
module MntPutSteps {
  import opened Finite
  import opened MntPut
  import opened MntPutInv
  import opened MntPutBuf
  import opened MntPutCore

  /** t is one of the tasks, and the invariant gives its record. */
  lemma {:induction false} Actor(sys: Sys, st: State, t: Tid)
    requires Inv(sys, st) && t in sys.tasks
    ensures t in st.ts && TaskInv(sys, st, t) && SumOK(sys, st, t) && t != NOBODY && sys.u in sys.tasks
  {
    hide FlagsOK, Counted, DoomedOK, FreeOK, SyncOK, TaskInv, SumOK;
    assert TaskInv(sys, st, t) && SumOK(sys, st, t);
  }

  /** Labels where a sum has nothing to show. */
  ghost predicate NoSum(l: Label) { l != PSum && l != USum && l != PCheck && l != UBusy && l != UTree }

  lemma {:induction false} Finish(sys: Sys, st: State, z: State, t: Tid)
    requires Inv(sys, st) && Does(sys, st, z, t) && NoSum(z.ts[t].pc) && (t == sys.u ==> FlagsOK(sys, z))
    ensures Inv(sys, z)
  {
    hide Does, FlagsOK, Tasks, Counted, Sums, DoomedOK, FreeOK, SyncOK;
    assert Still(sys, st, z, t) by { DoesStill(sys, st, z, t); }
    hide Still;
    if t != sys.u { OtherFlags(sys, st, z, t); }
    StillShape(sys, st, z, t);
    StillKeeps(sys, st, z, t);
  }

  lemma {:induction false} DoesStill(sys: Sys, st: State, z: State, t: Tid)
    requires Does(sys, st, z, t)
    ensures Still(sys, st, z, t)
  {
    hide Still, TaskInv, QuietKeeps, TouchKeeps;
  }

  lemma {:induction false} StillShape(sys: Sys, st: State, z: State, t: Tid)
    requires Shape(sys, st) && Still(sys, st, z, t)
    ensures |z.vis.cntv| == |z.vis.putv| == sys.ncpu
  {
  }

  /** What the lemmas about single steps start from ... */
  ghost predicate Ready(sys: Sys, st: State, t: Tid) {
    && t in sys.tasks && t in st.ts && sys.u in st.ts && t != NOBODY && TaskInv(sys, st, t) && FlagsOK(sys, st)
    && (t in sys.walkers ==> t != sys.u) && (t in sys.holders ==> t != sys.u && t !in sys.walkers)
  }

  /** ... and arrive at. */
  ghost predicate Fine(sys: Sys, st: State, z: State, t: Tid) {
    Does(sys, st, z, t) && NoSum(z.ts[t].pc) && (t == sys.u ==> FlagsOK(sys, z))
  }

  lemma {:induction false} GetReady(sys: Sys, st: State, t: Tid)
    requires Inv(sys, st) && t in sys.tasks
    ensures Ready(sys, st, t)
  {
    hide Tasks, Sums, FlagsOK, Counted, DoomedOK, FreeOK, SyncOK, TaskInv, SumOK;
    Actor(sys, st, t);
  }

  lemma {:induction false} FineKeeps(sys: Sys, st: State, z: State, t: Tid)
    requires Inv(sys, st) && Fine(sys, st, z, t)
    ensures Inv(sys, z)
  {
    hide Inv, Does, FlagsOK;
    Finish(sys, st, z, t);
  }

  // ---- records ------------------------------------------------------------------------------------

  /** The plain facts in a record's invariant. */
  lemma {:induction false} Facts(sys: Sys, st: State, t: Tid)
    requires TaskInv(sys, st, t)
    ensures var k, v := st.ts[t], st.vis;
      && LabelOK(sys, st.nsref, st.nsput, t, k) && k.cpu < sys.ncpu && (InCS(k.pc) <==> v.lockv == t)
      && (v.lockv == t && k.buf == [] ==> v.seqv % 2 == 1) && (Odd(sys, k.pc) ==> v.seqv % 2 == 1)
      && k.sq <= v.seqv && k.sq % 2 == 0 && (Slow(k.pc) ==> st.uresult == Ok)
      && BufOK(sys.ncpu, Own(sys, st.nsref, t, k), k.buf) && SeqShape(v, t, k.buf)
      && (k.pc != UUnlock ==> NoHash(k.buf))
      && Shown(sys, st.nsref, t, k) >= Bit(Own(sys, st.nsref, t, k) >= 1 && k.pc != WMb)
      && (v.lockv == t ==> HasSeq(k.buf) || v.seqv % 2 == 1)
  {
    hide BufOK, Net, UserOK, WalkerOK, HolderOK, NoHash, HashDown, SeqShape;
  }

  /** A record whose buffer, count and lock stay as they are. */
  lemma {:induction false} LabelStep(sys: Sys, nsref: bool, nsput: bool, nsput': bool, v: Vis, ures: Outcome,
      t: Tid, k: Task, j: Task)
    requires RecInv(sys, nsref, nsput, v, ures, t, k)
    requires j == k.(pc := j.pc, ret := j.ret, rcu := j.rcu, sq := j.sq, acc := j.acc, ci := j.ci)
    requires LabelOK(sys, nsref, nsput', t, j)
    requires (InCS(j.pc) <==> InCS(k.pc)) && k.pc != UUnlock && j.pc != UUnlock && (Odd(sys, j.pc) ==> v.seqv % 2 == 1)
    requires (Slow(j.pc) ==> ures == Ok) && j.sq <= v.seqv && j.sq % 2 == 0 && (k.pc == WMb ==> k.buf == [])
    ensures RecInv(sys, nsref, nsput', v, ures, t, j) && Shown(sys, nsref, t, j) == Shown(sys, nsref, t, k)
  {
    hide BufOK, InCS, Odd, Slow, UserOK, WalkerOK, HolderOK, NoHash, HashDown, SeqShape;
  }

  lemma {:induction false} Stays(sys: Sys, st: State, z: State, t: Tid)
    requires t in sys.tasks && t in st.ts && t in z.ts
    requires z == st.(ts := st.ts[t := z.ts[t]], gp := z.gp, gpfree := z.gpfree, nsput := z.nsput)
    requires z.gpfree.on == st.gpfree.on && (z.gpfree.wait == st.gpfree.wait || z.gpfree.wait == st.gpfree.wait - {t})
    requires (t != sys.u ==> z.nsput == st.nsput) && st.ts[t].pc != PCleanup && z.ts[t].pc != PCleanup
    ensures Still(sys, st, z, t)
  {
  }

  // ---- steps that change a label and little more --------------------------------------------------

  lemma {:induction false} PutEnterRec(sys: Sys, nsref: bool, nsput: bool, v: Vis, ures: Outcome, t: Tid, k: Task)
    requires RecInv(sys, nsref, nsput, v, ures, t, k) && k.pc == PEnter && (v.m.ns || ures == Ok)
    ensures var j := k.(rcu := true, pc := if v.m.ns then PFast else PLock);
            RecInv(sys, nsref, nsput, v, ures, t, j) && Shown(sys, nsref, t, j) == Shown(sys, nsref, t, k)
  {
    hide BufOK, Net, SeqShape, NoHash, HashDown;
    LabelStep(sys, nsref, nsput, nsput, v, ures, t, k, k.(rcu := true, pc := if v.m.ns then PFast else PLock));
  }

  lemma {:induction false} PutEnterFine(sys: Sys, st: State, t: Tid, z: State)
    requires Ready(sys, st, t) && PutEnter(st, t, z)
    ensures Fine(sys, st, z, t)
  {
    hide RecInv, ViaPwd, Net, Still;
    PutEnterRec(sys, st.nsref, st.nsput, st.vis, st.uresult, t, st.ts[t]);
    Stays(sys, st, z, t);
  }

  lemma {:induction false} PutMbRec(sys: Sys, nsref: bool, nsput: bool, v: Vis, ures: Outcome, t: Tid, k: Task)
    requires RecInv(sys, nsref, nsput, v, ures, t, k) && k.pc == PMb && k.buf == []
    ensures var j := k.(pc := PDec);
            RecInv(sys, nsref, nsput, v, ures, t, j) && Shown(sys, nsref, t, j) == Shown(sys, nsref, t, k)
  {
    hide BufOK, Net, SeqShape, NoHash, HashDown;
    LabelStep(sys, nsref, nsput, nsput, v, ures, t, k, k.(pc := PDec));
  }

  lemma {:induction false} PutMbFine(sys: Sys, st: State, t: Tid, z: State)
    requires Ready(sys, st, t) && PutMb(st, t, z)
    ensures Fine(sys, st, z, t)
  {
    hide RecInv, ViaPwd, Net, Still;
    PutMbRec(sys, st.nsref, st.nsput, st.vis, st.uresult, t, st.ts[t]);
    Stays(sys, st, z, t);
  }

  lemma {:induction false} StartRec(sys: Sys, nsref: bool, nsput: bool, v: Vis, ures: Outcome, t: Tid, k: Task)
    requires RecInv(sys, nsref, nsput, v, ures, t, k) && t in sys.walkers && t != sys.u && k.pc == WStart
    requires v.seqv % 2 == 0
    ensures var j := k.(rcu := true, sq := v.seqv, pc := WLookup);
            RecInv(sys, nsref, nsput, v, ures, t, j) && Shown(sys, nsref, t, j) == Shown(sys, nsref, t, k)
  {
    hide BufOK, Net, SeqShape, NoHash, HashDown, UserOK, HolderOK;
    LabelStep(sys, nsref, nsput, nsput, v, ures, t, k, k.(rcu := true, sq := v.seqv, pc := WLookup));
  }

  lemma {:induction false} StartFine(sys: Sys, st: State, t: Tid, z: State)
    requires Ready(sys, st, t) && t in sys.walkers && StartWalk(st, t, z)
    ensures Fine(sys, st, z, t)
  {
    hide RecInv, ViaPwd, Net, Still, FlagsOK;
    StartRec(sys, st.nsref, st.nsput, st.vis, st.uresult, t, st.ts[t]);
    Stays(sys, st, z, t);
  }

  /** A walker gives up. */
  lemma {:induction false} GiveUpRec(sys: Sys, nsref: bool, nsput: bool, v: Vis, ures: Outcome, t: Tid, k: Task,
      l: Label)
    requires RecInv(sys, nsref, nsput, v, ures, t, k) && t in sys.walkers && t != sys.u
    requires (k.pc == WLookup || k.pc == WL1) && (l == WNone || l == Lost)
    ensures var j := k.(rcu := false, pc := l);
            && RecInv(sys, nsref, nsput, v, ures, t, j) && Shown(sys, nsref, t, j) == Shown(sys, nsref, t, k)
            && k.refs == 0
  {
    hide BufOK, Net, SeqShape, NoHash, HashDown, UserOK, HolderOK;
    LabelStep(sys, nsref, nsput, nsput, v, ures, t, k, k.(rcu := false, pc := l));
  }

  lemma {:induction false} OutGoto(st: State, t: Tid, l: Label)
    requires t in st.ts
    ensures var z := Goto(RcuOut(st, t), t, l);
      && z.ts == st.ts[t := st.ts[t].(rcu := false, pc := l)]
      && z == st.(ts := z.ts, gp := z.gp, gpfree := z.gpfree) && z.gpfree == st.gpfree.(wait := st.gpfree.wait - {t})
  {
  }

  lemma {:induction false} GiveUpFine(sys: Sys, st: State, t: Tid, z: State, l: Label)
    requires Ready(sys, st, t) && t in sys.walkers && (At(st, t, WLookup) || At(st, t, WL1))
    requires l == WNone || l == Lost
    requires z == Goto(RcuOut(st, t), t, l)
    ensures Fine(sys, st, z, t)
  {
    hide RecInv, ViaPwd, Net, Still, FlagsOK, Goto, RcuOut;
    OutGoto(st, t, l);
    GiveUpRec(sys, st.nsref, st.nsput, st.vis, st.uresult, t, st.ts[t], l);
    Stays(sys, st, z, t);
  }

  lemma {:induction false} GoOnRec(sys: Sys, nsref: bool, nsput: bool, v: Vis, ures: Outcome, t: Tid, k: Task)
    requires RecInv(sys, nsref, nsput, v, ures, t, k) && t in sys.walkers && t != sys.u
    requires k.pc == WLookup || k.pc == WL1
    ensures var j := k.(pc := if k.pc == WLookup then WL1 else WL2);
            RecInv(sys, nsref, nsput, v, ures, t, j) && Shown(sys, nsref, t, j) == Shown(sys, nsref, t, k)
    ensures k.sq <= v.seqv && k.sq % 2 == 0
  {
    hide BufOK, Net, SeqShape, NoHash, HashDown, UserOK, HolderOK;
    LabelStep(sys, nsref, nsput, nsput, v, ures, t, k, k.(pc := if k.pc == WLookup then WL1 else WL2));
  }

  lemma {:induction false} LookupFine(sys: Sys, st: State, t: Tid, z: State)
    requires Ready(sys, st, t) && t in sys.walkers && Lookup(sys, st, t, z)
    ensures Fine(sys, st, z, t)
  {
    hide Ready, Fine, ViaPwd, RcuOut, Goto;
    if st.vis.m.hashed || ViaPwd(sys, st) { FoundFine(sys, st, t, z); }
    else { GiveUpFine(sys, st, t, z, WNone); }
  }

  lemma {:induction false} FoundFine(sys: Sys, st: State, t: Tid, z: State)
    requires Ready(sys, st, t) && t in sys.walkers && At(st, t, WLookup) && (st.vis.m.hashed || ViaPwd(sys, st))
    requires z == Goto(st, t, WL1)
    ensures Fine(sys, st, z, t)
  {
    hide RecInv, ViaPwd, Net, Still, FlagsOK, Touching, Quiet;
    GoOnRec(sys, st.nsref, st.nsput, st.vis, st.uresult, t, st.ts[t]);
    Stays(sys, st, z, t);
    if st.vis.seqv % 2 == 1 { QuietFound(st.vis.seqv, st.ts[t]); }
  }

  lemma {:induction false} QuietFound(seqv: nat, k: Task)
    requires k.pc == WLookup && k.sq <= seqv && k.sq % 2 == 0 && seqv % 2 == 1
    ensures Quiet(seqv, k) ==> Quiet(seqv, k.(pc := WL1))
  {
  }

  lemma {:induction false} Legit1Fine(sys: Sys, st: State, t: Tid, z: State)
    requires Ready(sys, st, t) && t in sys.walkers && Legit1(st, t, z)
    ensures Fine(sys, st, z, t)
  {
    hide RecInv, ViaPwd, Net, Still, FlagsOK, RcuOut;
    if st.vis.seqv == st.ts[t].sq {
      GoOnRec(sys, st.nsref, st.nsput, st.vis, st.uresult, t, st.ts[t]);
      Stays(sys, st, z, t);
    } else {
      hide Fine;
      GiveUpFine(sys, st, t, z, Lost);
    }
  }

  lemma {:induction false} LegitMbRec(sys: Sys, nsref: bool, nsput: bool, v: Vis, ures: Outcome, t: Tid, k: Task)
    requires RecInv(sys, nsref, nsput, v, ures, t, k) && t in sys.walkers && t != sys.u && k.pc == WMb && k.buf == []
    ensures var j := k.(pc := WL4);
            RecInv(sys, nsref, nsput, v, ures, t, j) && Shown(sys, nsref, t, j) == Shown(sys, nsref, t, k)
  {
    hide BufOK, Net, SeqShape, NoHash, HashDown, UserOK, HolderOK;
    LabelStep(sys, nsref, nsput, nsput, v, ures, t, k, k.(pc := WL4));
  }

  lemma {:induction false} LegitMbFine(sys: Sys, st: State, t: Tid, z: State)
    requires Ready(sys, st, t) && t in sys.walkers && LegitMb(st, t, z)
    ensures Fine(sys, st, z, t)
  {
    hide RecInv, ViaPwd, Net, Still, FlagsOK;
    LegitMbRec(sys, st.nsref, st.nsput, st.vis, st.uresult, t, st.ts[t]);
    Stays(sys, st, z, t);
  }

  lemma {:induction false} Legit4Rec(sys: Sys, nsref: bool, nsput: bool, v: Vis, ures: Outcome, t: Tid, k: Task)
    requires RecInv(sys, nsref, nsput, v, ures, t, k) && t in sys.walkers && t != sys.u && k.pc == WL4
    ensures var j := k.(pc := if v.seqv == k.sq then WUse else WLock);
            RecInv(sys, nsref, nsput, v, ures, t, j) && Shown(sys, nsref, t, j) == Shown(sys, nsref, t, k)
  {
    hide BufOK, Net, SeqShape, NoHash, HashDown, UserOK, HolderOK;
    LabelStep(sys, nsref, nsput, nsput, v, ures, t, k, k.(pc := if v.seqv == k.sq then WUse else WLock));
  }

  lemma {:induction false} Legit4Fine(sys: Sys, st: State, t: Tid, z: State)
    requires Ready(sys, st, t) && t in sys.walkers && Legit4(st, t, z)
    ensures Fine(sys, st, z, t)
  {
    hide RecInv, ViaPwd, Net, Still, FlagsOK;
    Legit4Rec(sys, st.nsref, st.nsput, st.vis, st.uresult, t, st.ts[t]);
    Stays(sys, st, z, t);
  }

  lemma {:induction false} UseRec(sys: Sys, nsref: bool, nsput: bool, v: Vis, ures: Outcome, t: Tid, k: Task)
    requires RecInv(sys, nsref, nsput, v, ures, t, k) && t in sys.walkers && t != sys.u && k.pc == WUse
    ensures var j := k.(ret := Done, pc := PEnter, rcu := false);
            RecInv(sys, nsref, nsput, v, ures, t, j) && Shown(sys, nsref, t, j) == Shown(sys, nsref, t, k)
  {
    hide BufOK, Net, SeqShape, NoHash, HashDown, UserOK, HolderOK;
    LabelStep(sys, nsref, nsput, nsput, v, ures, t, k, k.(ret := Done, pc := PEnter, rcu := false));
  }

  lemma {:induction false} UseFine(sys: Sys, st: State, t: Tid, z: State)
    requires Ready(sys, st, t) && t in sys.walkers && At(st, t, WUse)
    requires z == RcuOut(SetTask(st, t, st.ts[t].(ret := Done, pc := PEnter)), t)
    ensures Fine(sys, st, z, t)
  {
    hide RecInv, ViaPwd, Net, Still, FlagsOK;
    UseRec(sys, st.nsref, st.nsput, st.vis, st.uresult, t, st.ts[t]);
    Stays(sys, st, z, t);
  }

  lemma {:induction false} HoldPutRec(sys: Sys, nsref: bool, nsput: bool, v: Vis, ures: Outcome, t: Tid, k: Task)
    requires RecInv(sys, nsref, nsput, v, ures, t, k) && t !in sys.walkers && t != sys.u && k.pc == HIdle && k.refs > 0
    ensures var j := k.(ret := HIdle, pc := PEnter);
            RecInv(sys, nsref, nsput, v, ures, t, j) && Shown(sys, nsref, t, j) == Shown(sys, nsref, t, k)
  {
    hide BufOK, Net, SeqShape, NoHash, HashDown, UserOK, WalkerOK;
    LabelStep(sys, nsref, nsput, nsput, v, ures, t, k, k.(ret := HIdle, pc := PEnter));
  }

  lemma {:induction false} HoldPutFine(sys: Sys, st: State, t: Tid, z: State)
    requires Ready(sys, st, t) && t in sys.holders && HoldPut(st, t, z)
    ensures Fine(sys, st, z, t)
  {
    hide RecInv, ViaPwd, Net, Still, FlagsOK;
    HoldPutRec(sys, st.nsref, st.nsput, st.vis, st.uresult, t, st.ts[t]);
    Stays(sys, st, z, t);
  }

  lemma {:induction false} HoldDoneRec(sys: Sys, nsref: bool, nsput: bool, v: Vis, ures: Outcome, t: Tid, k: Task)
    requires RecInv(sys, nsref, nsput, v, ures, t, k) && t !in sys.walkers && t != sys.u && k.pc == HIdle && k.refs == 0
    ensures var j := k.(pc := Done);
            RecInv(sys, nsref, nsput, v, ures, t, j) && Shown(sys, nsref, t, j) == Shown(sys, nsref, t, k)
  {
    hide BufOK, Net, SeqShape, NoHash, HashDown, UserOK, WalkerOK;
    LabelStep(sys, nsref, nsput, nsput, v, ures, t, k, k.(pc := Done));
  }

  lemma {:induction false} HoldDoneFine(sys: Sys, st: State, t: Tid, z: State)
    requires Ready(sys, st, t) && t in sys.holders && HoldDone(st, t, z)
    ensures Fine(sys, st, z, t)
  {
    hide RecInv, ViaPwd, Net, Still, FlagsOK;
    HoldDoneRec(sys, st.nsref, st.nsput, st.vis, st.uresult, t, st.ts[t]);
    Stays(sys, st, z, t);
  }

  lemma {:induction false} GpWaitRec(sys: Sys, nsref: bool, nsput: bool, v: Vis, ures: Outcome, t: Tid, k: Task)
    requires RecInv(sys, nsref, nsput, v, ures, t, k) && t == sys.u && k.pc == UGpWait
    ensures var j := k.(pc := UNsPut);
            RecInv(sys, nsref, nsput, v, ures, t, j) && Shown(sys, nsref, t, j) == Shown(sys, nsref, t, k)
  {
    hide BufOK, Net, SeqShape, NoHash, HashDown, WalkerOK, HolderOK;
    LabelStep(sys, nsref, nsput, nsput, v, ures, t, k, k.(pc := UNsPut));
  }

  lemma {:induction false} GpWaitFine(sys: Sys, st: State, t: Tid, z: State)
    requires Ready(sys, st, t) && t == sys.u && GpWait(st, t, z)
    ensures Fine(sys, st, z, t)
  {
    hide RecInv, ViaPwd, Net, Still;
    GpWaitRec(sys, st.nsref, st.nsput, st.vis, st.uresult, t, st.ts[t]);
    Stays(sys, st, z, t);
  }

  lemma {:induction false} NsPutRec(sys: Sys, nsref: bool, nsput: bool, v: Vis, ures: Outcome, t: Tid, k: Task)
    requires RecInv(sys, nsref, nsput, v, ures, t, k) && t == sys.u && k.pc == UNsPut
    ensures var j := k.(ret := URet, pc := PEnter);
            RecInv(sys, nsref, true, v, ures, t, j) && Shown(sys, nsref, t, j) == Shown(sys, nsref, t, k)
  {
    hide BufOK, Net, SeqShape, NoHash, HashDown, WalkerOK, HolderOK;
    LabelStep(sys, nsref, nsput, true, v, ures, t, k, k.(ret := URet, pc := PEnter));
  }

  lemma {:induction false} NsPutFine(sys: Sys, st: State, t: Tid, z: State)
    requires Ready(sys, st, t) && t == sys.u && NsPut(st, t, z)
    ensures Fine(sys, st, z, t)
  {
    hide RecInv, ViaPwd, Net, Still;
    NsPutRec(sys, st.nsref, st.nsput, st.vis, st.uresult, t, st.ts[t]);
    Stays(sys, st, z, t);
  }

  lemma {:induction false} UmRetRec(sys: Sys, nsref: bool, nsput: bool, v: Vis, ures: Outcome, t: Tid, k: Task)
    requires RecInv(sys, nsref, nsput, v, ures, t, k) && t == sys.u && k.pc == URet
    ensures var j := k.(ret := Done, pc := PEnter);
            RecInv(sys, nsref, false, v, ures, t, j) && Shown(sys, nsref, t, j) == Shown(sys, nsref, t, k)
  {
    hide BufOK, Net, SeqShape, NoHash, HashDown, WalkerOK, HolderOK;
    LabelStep(sys, nsref, nsput, false, v, ures, t, k, k.(ret := Done, pc := PEnter));
  }

  lemma {:induction false} UmRetFine(sys: Sys, st: State, t: Tid, z: State)
    requires Ready(sys, st, t) && t == sys.u && UmRet(st, t, z)
    ensures Fine(sys, st, z, t)
  {
    hide RecInv, ViaPwd, Net, Still;
    UmRetRec(sys, st.nsref, st.nsput, st.vis, st.uresult, t, st.ts[t]);
    Stays(sys, st, z, t);
  }

  // ---- buffering counts ------------------------------------------------------------------------------

  lemma {:induction false} PushShapes(v: Vis, t: Tid, b: seq<Store>, e: seq<Store>)
    requires SeqShape(v, t, b) && NoHash(b)
    requires forall i {:trigger e[i]} :: 0 <= i < |e| ==> !e[i].StSeq? && !e[i].StHash? && !e[i].StNs?
    ensures SeqShape(v, t, b + e) && NoHash(b + e) && (HasSeq(b) ==> HasSeq(b + e))
  {
  }

  /** A get, on top of a reference or as a walker's first. */
  lemma {:induction false} GetRec(sys: Sys, nsref: bool, nsput: bool, v: Vis, ures: Outcome, t: Tid, k: Task, j: Task)
    requires RecInv(sys, nsref, nsput, v, ures, t, k) && t != sys.u
    requires if t in sys.walkers then k.pc == WL2 && j.pc == WMb else k.pc == HIdle == j.pc && k.refs > 0
    requires j == k.(pc := j.pc, refs := k.refs + 1, buf := k.buf + [StCnt(k.cpu, 1)])
    ensures RecInv(sys, nsref, nsput, v, ures, t, j) && Shown(sys, nsref, t, j) == Shown(sys, nsref, t, k)
  {
    hide BufOK, Net, SeqShape, NoHash, HasSeq, UserOK;
    PushGet(sys.ncpu, Own(sys, nsref, t, k), k.buf, k.cpu);
    PushShapes(v, t, k.buf, [StCnt(k.cpu, 1)]);
  }

  /** A put behind its barrier. */
  lemma {:induction false} PutRec(sys: Sys, nsref: bool, nsref': bool, nsput: bool, v: Vis, ures: Outcome,
      t: Tid, k: Task, j: Task)
    requires RecInv(sys, nsref, nsput, v, ures, t, k) && Own(sys, nsref, t, k) >= 1
    requires Own(sys, nsref', t, j) == Own(sys, nsref, t, k) - 1
    requires j == k.(pc := j.pc, rcu := j.rcu, acc := j.acc, ci := j.ci, refs := j.refs,
        buf := k.buf + [StWmb, StCnt(k.cpu, -1)])
    requires LabelOK(sys, nsref', nsput, t, j) && (InCS(j.pc) <==> InCS(k.pc)) && (Odd(sys, j.pc) ==> v.seqv % 2 == 1)
    requires Slow(j.pc) ==> ures == Ok
    requires k.pc != UUnlock && j.pc != UUnlock && k.pc != WMb && j.pc != WMb
    ensures RecInv(sys, nsref', nsput, v, ures, t, j) && Shown(sys, nsref', t, j) == Shown(sys, nsref, t, k)
  {
    hide BufOK, Net, SeqShape, NoHash, HasSeq, LabelOK, InCS, Odd, Slow;
    PushPut(sys.ncpu, Own(sys, nsref, t, k), k.buf, k.cpu);
    PushShapes(v, t, k.buf, [StWmb, StCnt(k.cpu, -1)]);
  }

  lemma {:induction false} Legit2Fine(sys: Sys, st: State, t: Tid, z: State)
    requires Ready(sys, st, t) && t in sys.walkers && Legit2(st, t, z)
    ensures Fine(sys, st, z, t)
  {
    hide RecInv, ViaPwd, Net, Still, FlagsOK;
    GetRec(sys, st.nsref, st.nsput, st.vis, st.uresult, t, st.ts[t], z.ts[t]);
    Stays(sys, st, z, t);
  }

  lemma {:induction false} HoldGetFine(sys: Sys, st: State, t: Tid, z: State)
    requires Ready(sys, st, t) && t in sys.holders && HoldGet(st, t, z)
    ensures Fine(sys, st, z, t)
  {
    hide RecInv, ViaPwd, Net, Still, FlagsOK;
    GetRec(sys, st.nsref, st.nsput, st.vis, st.uresult, t, st.ts[t], z.ts[t]);
    Stays(sys, st, z, t);
  }

  /** ... like Stays, when the namespace's reference may go. */
  lemma {:induction false} Drops(sys: Sys, st: State, z: State, t: Tid)
    requires t in sys.tasks && t in st.ts && t in z.ts
    requires z == st.(ts := st.ts[t := z.ts[t]], gp := z.gp, gpfree := z.gpfree, nsref := z.nsref)
    requires z.gpfree.on == st.gpfree.on && (z.gpfree.wait == st.gpfree.wait || z.gpfree.wait == st.gpfree.wait - {t})
    requires (t != sys.u ==> z.nsref == st.nsref) && (z.nsref ==> st.nsref) && st.ts[t].pc != PCleanup
    requires z.ts[t].pc != PCleanup
    ensures Still(sys, st, z, t)
  {
  }

  /** The record and the namespace's reference once t has dropped one. */
  ghost function Dropped(sys: Sys, st: State, t: Tid): (r: int)
    requires t in st.ts
  {
    if t == sys.u && st.nsput then st.ts[t].refs else st.ts[t].refs - 1
  }

  ghost function NsAfter(sys: Sys, st: State, t: Tid): (b: bool) { if t == sys.u && st.nsput then false else st.nsref }

  lemma {:induction false} PutOwn(sys: Sys, st: State, t: Tid)
    requires TaskInv(sys, st, t) && PutHolds(st.ts[t].pc)
    ensures var k := st.ts[t];
      && Own(sys, st.nsref, t, k) >= 1
      && (forall j: Task {:trigger Own(sys, NsAfter(sys, st, t), t, j)} ::
            j.refs == Dropped(sys, st, t) ==> Own(sys, NsAfter(sys, st, t), t, j) == Own(sys, st.nsref, t, k) - 1)
  {
    hide BufOK, LockTask, FlagTask, Net;
  }

  /** The labels mntput() goes to once the count is dropped. */
  lemma {:induction false} PutReturns(sys: Sys, nsref: bool, nsput: bool, t: Tid, k: Task, j: Task)
    requires LabelOK(sys, nsref, nsput, t, k) && k.pc == PFast && j.ret == k.ret == j.pc
    requires j.refs == (if t == sys.u && nsput then k.refs else k.refs - 1)
    ensures LabelOK(sys, if t == sys.u && nsput then false else nsref, nsput, t, j)
    ensures Outside(sys, j.pc)
  {
  }

  /** A label mntput() returns to. */
  ghost predicate Outside(sys: Sys, l: Label) {
    && !InCS(l) && !InCS(PFast) && !Odd(sys, l) && !Slow(l) && NoSum(l) && !Touching(l) && !Undecided(l)
    && l != UUnlock && l != WMb && l != PCleanup && l != PDec && InCS(PSum) && InCS(PDec)
  }

  lemma {:induction false} PutSums(sys: Sys, nsref: bool, nsput: bool, t: Tid, k: Task, j: Task)
    requires LabelOK(sys, nsref, nsput, t, k) && k.pc == PDec && j.ret == k.ret && j.pc == PSum
    requires j.refs == (if t == sys.u && nsput then k.refs else k.refs - 1)
    ensures LabelOK(sys, if t == sys.u && nsput then false else nsref, nsput, t, j) && InCS(PSum) && InCS(PDec)
  {
  }

  lemma {:induction false} PutFacts(sys: Sys, st: State, t: Tid)
    requires TaskInv(sys, st, t)
    ensures LabelOK(sys, st.nsref, st.nsput, t, st.ts[t])
    ensures st.ts[t].pc == PDec ==> st.vis.seqv % 2 == 1 && st.uresult == Ok
  {
    hide BufOK, Net, LabelOK, SeqShape, NoHash, HashDown, InCS;
  }

  lemma {:induction false} PutLabels(sys: Sys, st: State, t: Tid, j: Task)
    requires TaskInv(sys, st, t) && j.refs == Dropped(sys, st, t) && j.ret == st.ts[t].ret
    requires (st.ts[t].pc == PFast && j.pc == j.ret) || (st.ts[t].pc == PDec && j.pc == PSum)
    ensures LabelOK(sys, NsAfter(sys, st, t), st.nsput, t, j) && (InCS(j.pc) <==> InCS(st.ts[t].pc)) && j.pc != UUnlock
    ensures j.pc != WMb && j.pc != PCleanup
    ensures Odd(sys, j.pc) ==> st.vis.seqv % 2 == 1
    ensures Slow(j.pc) ==> st.uresult == Ok
    ensures st.ts[t].pc == PFast ==> NoSum(j.pc) && !Touching(j.pc) && !Undecided(j.pc)
  {
    PutFacts(sys, st, t);
    hide TaskInv, LabelOK, Touching, InCS, Odd, Slow;
    if st.ts[t].pc == PDec { PutSums(sys, st.nsref, st.nsput, t, st.ts[t], j); }
    else { PutReturns(sys, st.nsref, st.nsput, t, st.ts[t], j); }
  }

  lemma {:induction false} FastForm(sys: Sys, st: State, t: Tid, z: State)
    requires t in st.ts && z == PushAll(Goto(RcuOut(DropRef(sys, st, t), t), t, st.ts[t].ret), t, PutStores(st, t))
    ensures var k := st.ts[t];
      && t in z.ts
      && z.ts[t] == k.(pc := k.ret, rcu := false, refs := Dropped(sys, st, t), buf := k.buf + [StWmb, StCnt(k.cpu, -1)])
      && z == st.(ts := st.ts[t := z.ts[t]], gp := z.gp, gpfree := z.gpfree, nsref := NsAfter(sys, st, t))
      && z.gpfree == st.gpfree.(wait := st.gpfree.wait - {t})
  {
  }

  /** The fast path, with the put buffered. */
  lemma {:induction false} PutFastFine(sys: Sys, st: State, t: Tid, z: State)
    requires Ready(sys, st, t) && At(st, t, PFast)
    requires z == PushAll(Goto(RcuOut(DropRef(sys, st, t), t), t, st.ts[t].ret), t, PutStores(st, t))
    ensures Fine(sys, st, z, t)
  {
    hide RecInv, ViaPwd, Net, Still, PushAll, Goto, RcuOut, DropRef, LabelOK, InCS, Odd, Slow, Touching, Own, Shown;
    FastForm(sys, st, t, z);
    PutLabels(sys, st, t, z.ts[t]);
    PutOwn(sys, st, t);
    PutRec(sys, st.nsref, z.nsref, st.nsput, st.vis, st.uresult, t, st.ts[t], z.ts[t]);
    Drops(sys, st, z, t);
  }

  lemma {:induction false} DecForm(sys: Sys, st: State, t: Tid, z: State)
    requires PutDec(sys, st, t, z)
    ensures var k := st.ts[t];
      && t in z.ts
      && z.ts[t] == k.(pc := PSum, acc := 0, ci := 0, refs := Dropped(sys, st, t),
            buf := k.buf + [StWmb, StCnt(k.cpu, -1)])
      && z == st.(ts := st.ts[t := z.ts[t]], nsref := NsAfter(sys, st, t))
  {
  }

  lemma {:induction false} PutDecDoes(sys: Sys, st: State, t: Tid, z: State)
    requires Ready(sys, st, t) && PutDec(sys, st, t, z) && |st.vis.cntv| == |st.vis.putv| == sys.ncpu
    ensures Does(sys, st, z, t) && FlagsOK(sys, z) && |z.vis.cntv| == |z.vis.putv| == sys.ncpu && SumOK(sys, z, t)
  {
    hide RecInv, ViaPwd, Net, Still, PutDec, LabelOK, InCS, Odd, Slow, Own, Shown;
    DecForm(sys, st, t, z);
    assert At(st, t, PDec) by { DecAt(sys, st, t, z); }
    Facts(sys, st, t);
    PutLabels(sys, st, t, z.ts[t]);
    PutOwn(sys, st, t);
    PutRec(sys, st.nsref, z.nsref, st.nsput, st.vis, st.uresult, t, st.ts[t], z.ts[t]);
    Drops(sys, st, z, t);
  }

  lemma {:induction false} DecAt(sys: Sys, st: State, t: Tid, z: State)
    requires PutDec(sys, st, t, z)
    ensures At(st, t, PDec)
  {
  }
}
