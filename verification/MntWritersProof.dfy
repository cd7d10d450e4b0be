/** In every run, for any writers and CPUs: no writer is active once the mount or
    its superblock shows read-only, the holder's decision is right, and the
    counts add up. */
module MntWritersProof {
  import opened Finite
  import opened MntWriters

  // ---- the counters -----------------------------------------------------------------------------------

  /** Who shows does not change: neither do the counts. */
  lemma {:induction false} CountsStay(sys: Sys, st: State, z: State, c: nat)
    requires c < |st.vis.cntv| == |z.vis.cntv| && CountOK(sys, st, c) && z.vis.cntv[c] == st.vis.cntv[c]
    requires z.ws.Keys == st.ws.Keys
    requires forall w {:trigger z.ws[w]} :: w in st.ws ==> (Shows(z.ws[w]) <==> Shows(st.ws[w]))
    ensures CountOK(sys, z, c)
  {
    hide Shows;
    SumCongruent(sys.writers, ShownOn(sys, st, c), ShownOn(sys, z, c));
  }

  /** A counter nobody shows on is zero, and never negative. */
  lemma {:induction false} ZeroHeld(sys: Sys, st: State, c: nat)
    requires Inv(sys, st) && c < sys.ncpu
    ensures st.vis.cntv[c] >= 0
    ensures st.vis.cntv[c] == 0 ==> forall w {:trigger st.ws[w]} :: w in st.ws && sys.cpu[w] == c ==> Held(st.ws[w])
  {
    hide HolderOK;
    assert CountOK(sys, st, c);
    var f := ShownOn(sys, st, c);
    SumNonNegative(sys.writers, f);
    if st.vis.cntv[c] == 0 {
      forall w | w in st.ws && sys.cpu[w] == c ensures Held(st.ws[w]) { SumAtLeast(sys.writers, f, w); }
    }
  }

  // ---- writers ------------------------------------------------------------------------------------------

  ghost predicate OneWriter(st: State, w: Tid, z: State) {
    w in st.ws && w in z.ws && z == st.(vis := z.vis, ws := st.ws[w := z.ws[w]])
  }

  lemma {:induction false} WriteHolder(sys: Sys, st: State, w: Tid, z: State)
    requires Inv(sys, st) && w in sys.writers && Write(sys, st, w, z)
    ensures HolderOK(sys, z) && NobodyActive(z)
  {
    assert z.vis == st.vis && z.h == st.h && z.result == st.result;
    forall n: nat | HeldOn(sys, st, n) && st.vis.hold ensures HeldOn(sys, z, n) {}
    if st.result == Ok { assert ReadOnly(st.vis); }
  }

  lemma {:induction false} WriteRecord(sys: Sys, st: State, w: Tid, z: State)
    requires w in st.ws && w in sys.cpu && WriterOK(sys.cpu[w], st.ws[w]) && Write(sys, st, w, z)
    ensures OneWriter(st, w, z) && z.vis == st.vis && WriterOK(sys.cpu[w], z.ws[w])
    ensures Shows(z.ws[w]) <==> Shows(st.ws[w])
  {
  }

  lemma {:induction false} WriteKeeps(sys: Sys, st: State, w: Tid, z: State)
    requires Inv(sys, st) && w in sys.writers && Write(sys, st, w, z)
    ensures Inv(sys, z)
  {
    WriteHolder(sys, st, w, z);
    hide HolderOK, NobodyActive, Shows, CountOK;
    WriteRecord(sys, st, w, z);
    hide Write, WriterOK;
    forall c | 0 <= c < sys.ncpu ensures CountOK(sys, z, c) {
      assert CountOK(sys, st, c);
      CountsStay(sys, st, z, c);
    }
  }

  lemma {:induction false} FlushRecord(sys: Sys, st: State, w: Tid, z: State)
    requires w in st.ws && w in sys.cpu && WriterOK(sys.cpu[w], st.ws[w]) && FlushW(st, w, z)
    requires sys.cpu[w] < |st.vis.cntv|
    ensures OneWriter(st, w, z) && WriterOK(sys.cpu[w], z.ws[w]) && z.ws[w].pc == st.ws[w].pc
    ensures z.vis
        == st.vis.(cntv := st.vis.cntv[sys.cpu[w] := st.vis.cntv[sys.cpu[w]]
          + Bit(Shows(z.ws[w])) - Bit(Shows(st.ws[w]))])
  {
  }

  lemma {:induction false} FlushCount(sys: Sys, st: State, w: Tid, z: State, c: nat)
    requires w in sys.writers && w in st.ws && w in sys.cpu && sys.cpu[w] < |st.vis.cntv| && OneWriter(st, w, z)
    requires z.vis
        == st.vis.(cntv := st.vis.cntv[sys.cpu[w] := st.vis.cntv[sys.cpu[w]]
          + Bit(Shows(z.ws[w])) - Bit(Shows(st.ws[w]))])
    requires c < |st.vis.cntv| && CountOK(sys, st, c)
    ensures CountOK(sys, z, c)
  {
    hide Shows;
    SumUpdate(sys.writers, ShownOn(sys, st, c), ShownOn(sys, z, c), w);
  }

  lemma {:induction false} FlushWHolder(sys: Sys, st: State, w: Tid, z: State)
    requires HolderOK(sys, st) && NobodyActive(st) && OneWriter(st, w, z) && z.ws[w].pc == st.ws[w].pc
    requires z.vis == st.vis.(cntv := z.vis.cntv)
    ensures HolderOK(sys, z) && NobodyActive(z)
  {
    forall n: nat | HeldOn(sys, st, n) ensures HeldOn(sys, z, n) {}
  }

  lemma {:induction false} FlushWKeeps(sys: Sys, st: State, w: Tid, z: State)
    requires Inv(sys, st) && w in sys.writers && FlushW(st, w, z)
    ensures Inv(sys, z)
  {
    hide HolderOK, NobodyActive, Shows, CountOK, WriterOK;
    FlushRecord(sys, st, w, z);
    hide FlushW;
    FlushWHolder(sys, st, w, z);
    forall c | 0 <= c < sys.ncpu ensures CountOK(sys, z, c) {
      assert CountOK(sys, st, c);
      FlushCount(sys, st, w, z, c);
    }
  }

  // ---- the holder -------------------------------------------------------------------------------------------

  lemma {:induction false} ApplyOne(v: Vis, e: Store, es: seq<Store>)
    ensures ApplyAll(v, [e] + es) == ApplyAll(Apply(v, e), es)
  {
    assert ([e] + es)[1..] == es;
  }

  lemma {:induction false} ReleaseVis(v: Vis)
    ensures ApplyAll(v, [StHold(false), StUnlock]) == v.(hold := false, locked := false)
  {
    hide ApplyAll;
    ApplyOne(v, StHold(false), [StUnlock]);
    assert [StHold(false)] + [StUnlock] == [StHold(false), StUnlock];
    var a := Apply(v, StHold(false));
    ApplyOne(a, StUnlock, []);
    assert [StUnlock] + [] == [StUnlock];
    assert ApplyAll(Apply(a, StUnlock), []) == Apply(a, StUnlock) by { ApplyNone(Apply(a, StUnlock)); }
  }

  lemma {:induction false} ApplyNone(v: Vis)
    ensures ApplyAll(v, []) == v
  {
  }

  lemma {:induction false} DecideVis(v: Vis, e: Store)
    ensures ApplyAll(v, [] + [e, StHold(false), StUnlock]) == Apply(v, e).(hold := false, locked := false)
    ensures ApplyAll(v, [] + [StHold(false), StUnlock]) == v.(hold := false, locked := false)
  {
    hide ApplyAll;
    ApplyOne(v, e, [StHold(false), StUnlock]);
    assert [] + [e, StHold(false), StUnlock] == [e] + [StHold(false), StUnlock];
    assert [] + [StHold(false), StUnlock] == [StHold(false), StUnlock];
    ReleaseVis(Apply(v, e));
    ReleaseVis(v);
  }

  /** The holder's step changes no counter and no writer. */
  lemma {:induction false} HoldForm(sys: Sys, st: State, z: State)
    requires HolderOK(sys, st) && Hold(sys, st, z)
    ensures z == st.(vis := z.vis, h := z.h, result := z.result) && z.vis.cntv == st.vis.cntv
  {
    hide HeldOn;
    DecideVis(st.vis, StRo(true));
    DecideVis(st.vis, StSbro(true));
  }

  lemma {:induction false} HoldSum(sys: Sys, st: State, z: State)
    requires Inv(sys, st) && Hold(sys, st, z) && st.h.pc == HSum
    ensures HolderOK(sys, z) && NobodyActive(z)
  {
    var c := st.h.ci;
    if c < sys.ncpu {
      ZeroHeld(sys, st, c);
      assert Buffered([], c) == 0;
      if z.h.acc == 0 { assert HeldOn(sys, z, c + 1); }
    }
  }

  lemma {:induction false} HoldHolder(sys: Sys, st: State, z: State)
    requires Inv(sys, st) && Hold(sys, st, z) && st.h.pc != HSum
    ensures HolderOK(sys, z) && NobodyActive(z)
  {
    DecideVis(st.vis, StRo(true));
    DecideVis(st.vis, StSbro(true));
    hide ApplyAll;
    if st.h.pc == HDecide && st.h.acc <= 0 {
      forall w | w in st.ws ensures st.ws[w].pc != WActive { assert Held(st.ws[w]); }
    }
  }

  lemma {:induction false} HoldKeeps(sys: Sys, st: State, z: State)
    requires Inv(sys, st) && Hold(sys, st, z)
    ensures Inv(sys, z)
  {
    if st.h.pc == HSum { HoldSum(sys, st, z); } else { HoldHolder(sys, st, z); }
    HoldForm(sys, st, z);
    hide HolderOK, NobodyActive, Hold, Shows, WriterOK;
    forall c | 0 <= c < sys.ncpu ensures CountOK(sys, z, c) {
      assert CountOK(sys, st, c);
      CountsStay(sys, st, z, c);
    }
  }

  lemma {:induction false} FlushHHolder(sys: Sys, st: State, z: State)
    requires HolderOK(sys, st) && NobodyActive(st) && FlushH(st, z)
    ensures HolderOK(sys, z) && NobodyActive(z) && z == st.(vis := z.vis, h := z.h) && z.vis.cntv == st.vis.cntv
  {
    hide HeldOn;
  }

  lemma {:induction false} FlushHKeeps(sys: Sys, st: State, z: State)
    requires Inv(sys, st) && FlushH(st, z)
    ensures Inv(sys, z)
  {
    FlushHHolder(sys, st, z);
    hide HolderOK, NobodyActive, FlushH, Shows, WriterOK;
    forall c | 0 <= c < sys.ncpu ensures CountOK(sys, z, c) {
      assert CountOK(sys, st, c);
      CountsStay(sys, st, z, c);
    }
  }

  // ---- every run ------------------------------------------------------------------------------------------------

  lemma {:induction false} NextKeeps(sys: Sys, st: State, z: State)
    requires Inv(sys, st) && Next(sys, st, z)
    ensures Inv(sys, z)
  {
    hide Inv, Hold, FlushH, Write, FlushW;
    if Hold(sys, st, z) { HoldKeeps(sys, st, z); }
    else if FlushH(st, z) { FlushHKeeps(sys, st, z); }
    else {
      var w :| w in sys.writers && (Write(sys, st, w, z) || FlushW(st, w, z));
      if Write(sys, st, w, z) { WriteKeeps(sys, st, w, z); } else { FlushWKeeps(sys, st, w, z); }
    }
  }

  lemma {:induction false} SumZero(S: set<Tid>, f: Tid -> int)
    requires forall x :: x in S ==> f(x) == 0
    ensures Sum(S, f) == 0
    decreases |S|
  {
    if S != {} {
      var x := Pick(S);
      SumSplit(S, f, x);
      SumZero(S - {x}, f);
    }
  }

  lemma {:induction false} InitInv(sys: Sys, st: State)
    requires sys.Valid() && Init(sys, st)
    ensures Inv(sys, st)
  {
    forall c | 0 <= c < sys.ncpu ensures CountOK(sys, st, c) {
      forall w | w in sys.writers ensures ShownOn(sys, st, c)(w) == 0 { assert st.ws[w] == Writer(WInc, []); }
      SumZero(sys.writers, ShownOn(sys, st, c));
    }
  }

  lemma {:induction false} RunInv(sys: Sys, b: seq<State>, i: nat)
    requires sys.Valid() && Run(sys, b) && i < |b|
    ensures Inv(sys, b[i])
    decreases i
  {
    hide Inv, Init, Next;
    if i == 0 { InitInv(sys, b[0]); }
    else {
      RunInv(sys, b, i - 1);
      NextKeeps(sys, b[i - 1], b[i]);
    }
  }

  // ---- the ledger -------------------------------------------------------------------------------------------------

  /** What a writer is counted for, visible or not. */
  lemma {:induction false} CountedNet(c: nat, k: Writer)
    requires WriterOK(c, k)
    ensures Bit(Shows(k)) + Net(k.buf) == Bit(Counted(k))
  {
    if k.buf != [] { assert k.buf[1..] == []; }
  }

  ghost function ShownFrom(sys: Sys, st: State, n: nat): (f: Tid -> int) {
    (w: Tid) => Bit(w in st.ws && w in sys.cpu && sys.cpu[w] >= n && Shows(st.ws[w]))
  }

  lemma {:induction false} CountsFrom(sys: Sys, st: State, n: nat)
    requires Inv(sys, st) && n <= sys.ncpu
    ensures SumSeq(st.vis.cntv[n..]) == Sum(sys.writers, ShownFrom(sys, st, n))
    decreases sys.ncpu - n
  {
    hide HolderOK, NobodyActive, WriterOK, Shows;
    if n == sys.ncpu {
      assert st.vis.cntv[n..] == [];
      SumZero(sys.writers, ShownFrom(sys, st, n));
    } else {
      CountsFrom(sys, st, n + 1);
      assert st.vis.cntv[n..][1..] == st.vis.cntv[n + 1..];
      assert CountOK(sys, st, n);
      SumPlus(sys.writers, ShownFrom(sys, st, n), ShownOn(sys, st, n), ShownFrom(sys, st, n + 1));
    }
  }

  ghost function CountedFn(sys: Sys, st: State): (f: Tid -> int) { (w: Tid) => Bit(w in CountedSet(sys, st)) }

  lemma {:induction false} CountedAt(sys: Sys, st: State, w: Tid)
    requires Inv(sys, st) && w in sys.writers
    ensures CountedFn(sys, st)(w) == ShownFrom(sys, st, 0)(w) + NetOf(st)(w)
  {
    hide HolderOK, NobodyActive, CountOK, Net, Shows, Counted, WriterOK;
    CountedNet(sys.cpu[w], st.ws[w]);
  }

  lemma {:induction false} LedgerHolds(sys: Sys, st: State)
    requires Inv(sys, st)
    ensures Ledger(sys, st)
  {
    CountsFrom(sys, st, 0);
    assert st.vis.cntv[0..] == st.vis.cntv;
    assert sys.writers * CountedSet(sys, st) == CountedSet(sys, st);
    hide Inv, Sum, SumSeq, ShownFrom, NetOf, CountedSet;
    forall w | w in sys.writers
      ensures CountedFn(sys, st)(w) == ShownFrom(sys, st, 0)(w) + NetOf(st)(w)
    { CountedAt(sys, st, w); }
    SumPlus(sys.writers, CountedFn(sys, st), ShownFrom(sys, st, 0), NetOf(st));
    SumIndicator(sys.writers, CountedSet(sys, st), CountedFn(sys, st));
  }

  lemma {:induction false} ClaimsHold(sys: Sys, st: State)
    requires HolderOK(sys, st) && NobodyActive(st)
    ensures ReadOnlyOK(st) && DecisionOK(st) && HoldUnderLock(st)
  {
    hide HeldOn;
    assert ReadOnly(st.vis) ==> st.result == Ok;
  }

  /** Every state of every run: as long as any of the three read-only flags can be seen
      no writer is active; the holder has decided "ok" only
      with no writer active; WRITE_HOLD is visible only inside the holder's lock
      scope; and the counters account for every writer. */
  lemma {:induction false} RunsAreSafe(sys: Sys, b: seq<State>, i: nat)
    requires sys.Valid() && Run(sys, b) && i < |b|
    ensures ReadOnlyOK(b[i]) && DecisionOK(b[i]) && HoldUnderLock(b[i]) && Ledger(sys, b[i])
  {
    hide Run, HolderOK, NobodyActive, ReadOnlyOK, DecisionOK, HoldUnderLock, Ledger;
    RunInv(sys, b, i);
    ClaimsHold(sys, b[i]);
    LedgerHolds(sys, b[i]);
  }
}
