/** The other half of WRITE_HOLD: the holder is refused only for a writer, a writer only
    for a holder that succeeded, the flags that can be seen say which it was, and every
    run ends with everybody done. */
module MntWritersExact {
  import opened Finite
  import opened MntWriters
  import opened MntWritersProof

  // ---- why the holder is busy --------------------------------------------------------------

  /** The holder is about to read the counter of w's CPU, and w is counted there. */
  ghost predicate Met(sys: Sys, st: State, w: Tid) {
    && st.h.pc == HSum && st.h.ci < sys.ncpu
    && w in st.ws && w in sys.cpu && sys.cpu[w] == st.h.ci && Shows(st.ws[w])
  }

  ghost predicate MetAny(sys: Sys, st: State) { exists w {:trigger Met(sys, st, w)} :: Met(sys, st, w) }

  ghost predicate MetBy(sys: Sys, b: seq<State>, i: nat) {
    exists j {:trigger b[j]} :: 0 <= j <= i && j < |b| && MetAny(sys, b[j])
  }

  /** The holder's sum is positive, or led it to "busy". */
  ghost predicate Found(st: State) {
    match st.h.pc
    case HSum | HDecide => st.h.acc > 0
    case _ => st.result == Busy
  }

  lemma {:induction false} ReadMeets(sys: Sys, st: State)
    requires Inv(sys, st) && st.h.pc == HSum && st.h.ci < sys.ncpu && st.vis.cntv[st.h.ci] > 0
    ensures MetAny(sys, st)
  {
    hide HolderOK, NobodyActive, WriterOK, Shows;
    assert CountOK(sys, st, st.h.ci);
    var f := ShownOn(sys, st, st.h.ci);
    if forall w :: w in sys.writers ==> f(w) <= 0 {
      var zero := (w: Tid) => 0;
      SumZero(sys.writers, zero);
      SumMonotone(sys.writers, f, zero);
    }
    var w :| w in sys.writers && f(w) > 0;
    assert Met(sys, st, w);
  }

  lemma {:induction false} FoundStep(sys: Sys, st: State, z: State)
    requires Inv(sys, st) && Next(sys, st, z) && Found(z)
    ensures Found(st) || MetAny(sys, st)
  {
    hide NobodyActive, CountOK, WriterOK, HeldOn, MetAny;
    if Hold(sys, st, z) {
      if st.h.pc == HSum && st.h.ci < sys.ncpu && st.vis.cntv[st.h.ci] > 0 { ReadMeets(sys, st); }
      assert Buffered([], st.h.ci) == 0;
    }
  }

  lemma {:induction false} FoundMet(sys: Sys, b: seq<State>, i: nat)
    requires sys.Valid() && Run(sys, b) && i < |b| && Found(b[i])
    ensures MetBy(sys, b, i)
    decreases i
  {
    hide Next, Inv, Found, MetAny;
    StartUnfound(sys, b[0]);
    if i > 0 {
      RunInv(sys, b, i - 1);
      FoundStep(sys, b[i - 1], b[i]);
      if Found(b[i - 1]) { FoundMet(sys, b, i - 1); }
    }
  }

  lemma {:induction false} StartUnfound(sys: Sys, st: State)
    requires Init(sys, st)
    ensures !Found(st)
  {
  }

  /** "busy" has a cause: at some moment of the sum a writer was counted on the very CPU
      the holder read next. */
  lemma {:induction false} BusyHasWriter(sys: Sys, b: seq<State>, i: nat)
    requires sys.Valid() && Run(sys, b) && i < |b| && b[i].result == Busy
    ensures MetBy(sys, b, i)
  {
    hide Run, MetBy;
    RunInv(sys, b, i);
    BusyFound(sys, b[i]);
    FoundMet(sys, b, i);
  }

  lemma {:induction false} BusyFound(sys: Sys, st: State)
    requires HolderOK(sys, st) && st.result == Busy
    ensures Found(st)
  {
    hide HeldOn;
  }

  // ---- what can be seen ---------------------------------------------------------------------

  /** The three flags, label by label. */
  ghost predicate FlagsAre(sys: Sys, st: State) {
    var v, b := st.vis, st.h.buf;
    match st.h.pc
    case HRemount => st.result == Ok && sys.sb && b == [] && !v.ro && v.sbro && !v.sbrd
    case HDone =>
      match st.result {
        case None => false
        case Busy => b == [] && !ReadOnly(v)
        case Ok =>
          if !sys.sb then b == [] && v.ro && !v.sbro && !v.sbrd
          else && !v.ro
               && (b == [StSbrd(true), StSbro(false)] || b == [StSbro(false)] || b == [])
               && v.sbro == (b != []) && v.sbrd == (|b| < 2)
      }
    case _ => st.result == None && !ReadOnly(v)
  }

  lemma {:induction false} FlagsHold(sys: Sys, st: State, z: State)
    requires HolderOK(sys, st) && FlagsAre(sys, st) && Hold(sys, st, z)
    ensures FlagsAre(sys, z)
  {
    DecideVis(st.vis, StRo(true));
    DecideVis(st.vis, StSbro(true));
    hide ApplyAll, HeldOn;
  }

  lemma {:induction false} FlagsFlush(sys: Sys, st: State, z: State)
    requires HolderOK(sys, st) && FlagsAre(sys, st) && FlushH(st, z)
    ensures FlagsAre(sys, z)
  {
    hide HeldOn;
  }

  lemma {:induction false} FlagsStep(sys: Sys, st: State, z: State)
    requires Inv(sys, st) && FlagsAre(sys, st) && Next(sys, st, z)
    ensures FlagsAre(sys, z)
  {
    if Hold(sys, st, z) { FlagsHold(sys, st, z); }
    else if FlushH(st, z) { FlagsFlush(sys, st, z); }
    else {
      var w :| w in sys.writers && (Write(sys, st, w, z) || FlushW(st, w, z));
      hide HolderOK, NobodyActive, CountOK;
      if FlushW(st, w, z) { FlushRecord(sys, st, w, z); } else { WriteRecord(sys, st, w, z); }
    }
  }

  lemma {:induction false} RunFlags(sys: Sys, b: seq<State>, i: nat)
    requires sys.Valid() && Run(sys, b) && i < |b|
    ensures FlagsAre(sys, b[i])
    decreases i
  {
    hide Inv, Next, FlagsAre;
    if i == 0 {
      StartFlags(sys, b[0]);
    } else {
      RunInv(sys, b, i - 1);
      RunFlags(sys, b, i - 1);
      FlagsStep(sys, b[i - 1], b[i]);
    }
  }

  lemma {:induction false} StartFlags(sys: Sys, st: State)
    requires Init(sys, st)
    ensures FlagsAre(sys, st)
  {
  }

  /** A read-only flag can be seen if and only if the holder decided "ok", from the
      decision on and with no gap; when it has returned nothing is held, and with its
      stores out the flag is the mount's or the superblock's, as asked, with
      no remount under way. */
  lemma {:induction false} FlagsTell(sys: Sys, b: seq<State>, i: nat)
    requires sys.Valid() && Run(sys, b) && i < |b|
    ensures ReadOnly(b[i].vis) <==> b[i].result == Ok
    ensures b[i].h.pc == HDone ==> b[i].result != None && !b[i].vis.hold && !b[i].vis.locked
    ensures b[i].h.pc == HDone && b[i].h.buf == [] && b[i].result == Ok
        ==> b[i].vis.sbrd == sys.sb && b[i].vis.ro == !sys.sb && !b[i].vis.sbro
  {
    hide Run, HeldOn;
    RunInv(sys, b, i);
    RunFlags(sys, b, i);
  }

  // ---- why a writer is turned away -------------------------------------------------------------

  ghost predicate WasActive(b: seq<State>, i: nat, w: Tid) {
    exists j {:trigger b[j]} :: 0 <= j <= i && j < |b| && Active(b[j], w)
  }

  ghost predicate Decided(b: seq<State>, i: nat) {
    exists j {:trigger b[j]} :: 0 <= j <= i && j < |b| && b[j].result == Ok
  }

  lemma {:induction false} DoneStep(sys: Sys, st: State, w: Tid, z: State)
    requires Next(sys, st, z) && w in z.ws && z.ws[w].pc == WDone
    ensures w in st.ws
    ensures st.ws[w].pc == WDone || st.ws[w].pc == WActive || (st.ws[w].pc == WCheck && ReadOnly(st.vis))
  {
    hide ApplyAll;
    if !Hold(sys, st, z) && !FlushH(st, z) {
      var v :| v in sys.writers && (Write(sys, st, v, z) || FlushW(st, v, z));
    }
  }

  /** A writer that is through without ever having been let in was turned away by a
      decision "ok": as long as the holder has not decided, or was refused,
      everybody who wants to write gets to. */
  lemma {:induction false} TurnedAway(sys: Sys, b: seq<State>, i: nat, w: Tid)
    requires sys.Valid() && Run(sys, b) && i < |b| && w in b[i].ws && b[i].ws[w].pc == WDone && !WasActive(b, i, w)
    ensures Decided(b, i)
    decreases i
  {
    hide Next, ReadOnly;
    assert forall v :: v in b[0].ws ==> b[0].ws[v].pc == WInc;
    if i > 0 {
      DoneStep(sys, b[i - 1], w, b[i]);
      assert !Active(b[i - 1], w);
      if b[i - 1].ws[w].pc == WDone {
        assert !WasActive(b, i - 1, w);
        TurnedAway(sys, b, i - 1, w);
      } else {
        FlagsTell(sys, b, i - 1);
      }
    }
  }

  // ---- every run comes to an end -----------------------------------------------------------------

  ghost predicate AllDone(sys: Sys, st: State) {
    && st.h.pc == HDone && st.h.buf == []
    && forall w {:trigger st.ws[w]} :: w in sys.writers && w in st.ws ==> st.ws[w] == Writer(WDone, [])
  }

  ghost function WriterWork(k: Writer): (n: nat) {
    |k.buf|
    + match k.pc
      case WInc => 12
      case WMb => 10
      case WSpin => 8
      case WCheck => 6
      case WActive => 4
      case WDone => 0
  }

  ghost function HolderWork(sys: Sys, h: Holder): (n: nat) {
    |h.buf| + match h.pc
              case HLock => 16 + sys.ncpu
              case HHold => 14 + sys.ncpu
              case HMb => 12 + sys.ncpu
              case HSum => 10 + if h.ci <= sys.ncpu then sys.ncpu - h.ci else 0
              case HDecide => 8
              case HRemount => 4
              case HDone => 0
  }

  ghost function WorkOf(st: State): (f: Tid -> int) { (w: Tid) => if w in st.ws then WriterWork(st.ws[w]) else 0 }

  ghost function Work(sys: Sys, st: State): (n: int) { HolderWork(sys, st.h) + Sum(sys.writers, WorkOf(st)) }

  lemma {:induction false} WriteWork(sys: Sys, st: State, w: Tid, z: State)
    requires Write(sys, st, w, z) || FlushW(st, w, z)
    ensures OneWriter(st, w, z) && z.h == st.h && WriterWork(z.ws[w]) < WriterWork(st.ws[w])
  {
  }

  lemma {:induction false} HoldWork(sys: Sys, st: State, z: State)
    requires HolderOK(sys, st) && (Hold(sys, st, z) || FlushH(st, z))
    ensures z.ws == st.ws && HolderWork(sys, z.h) < HolderWork(sys, st.h)
  {
    hide HeldOn, ApplyAll;
  }

  lemma {:induction false} WorkFalls(sys: Sys, st: State, z: State)
    requires Inv(sys, st) && Next(sys, st, z)
    ensures Work(sys, z) < Work(sys, st)
  {
    hide HolderOK, NobodyActive, CountOK, WriterOK, WriterWork, HolderWork;
    if Hold(sys, st, z) || FlushH(st, z) {
      HoldWork(sys, st, z);
      SumCongruent(sys.writers, WorkOf(st), WorkOf(z));
    } else {
      var w :| w in sys.writers && (Write(sys, st, w, z) || FlushW(st, w, z));
      WriteWork(sys, st, w, z);
      SumUpdate(sys.writers, WorkOf(st), WorkOf(z), w);
    }
  }

  /** Nobody is ever stuck: somebody has a step to take unless everybody is done. */
  lemma {:induction false} NeverStuck(sys: Sys, st: State) returns (z: State)
    requires Inv(sys, st) && !AllDone(sys, st)
    ensures Next(sys, st, z)
  {
    hide CountOK, NobodyActive;
    if st.h.buf != [] {
      z := st.(vis := Apply(st.vis, st.h.buf[0]), h := st.h.(buf := st.h.buf[1..]));
      assert FlushH(st, z);
    } else if st.h.pc != HDone {
      z := HolderGoes(sys, st);
    } else {
      var w :| w in sys.writers && st.ws[w] != Writer(WDone, []);
      z := WriterGoes(sys, st, w);
    }
  }

  lemma {:induction false} HolderGoes(sys: Sys, st: State) returns (z: State)
    requires HolderOK(sys, st) && st.h.buf == [] && st.h.pc != HDone && |st.vis.cntv| == sys.ncpu
    ensures Hold(sys, st, z)
  {
    hide HeldOn, ApplyAll;
    var h := st.h;
    match h.pc
    case HLock => z := st.(vis := st.vis.(locked := true), h := h.(pc := HHold));
    case HHold => z := st.(h := h.(pc := HMb, buf := h.buf + [StHold(true)]));
    case HMb => z := st.(h := h.(pc := HSum, acc := 0, ci := 0));
    case HSum =>
      z := if h.ci < sys.ncpu
           then st.(h := h.(acc := h.acc + st.vis.cntv[h.ci] + Buffered(h.buf, h.ci), ci := h.ci + 1))
           else st.(h := h.(pc := HDecide));
    case HDecide =>
      z := if h.acc > 0
           then st.(vis := ApplyAll(st.vis, h.buf + [StHold(false), StUnlock]), h := h.(pc := HDone, buf := []),
                    result := Busy)
           else if !sys.sb
           then st.(vis := ApplyAll(st.vis, h.buf + [StRo(true), StHold(false), StUnlock]),
                    h := h.(pc := HDone, buf := []), result := Ok)
           else st.(vis := ApplyAll(st.vis, h.buf + [StSbro(true), StHold(false), StUnlock]),
                    h := h.(pc := HRemount, buf := []), result := Ok);
    case HRemount => z := st.(h := h.(pc := HDone, buf := h.buf + [StSbrd(true), StSbro(false)]));
    case HDone =>
  }

  lemma {:induction false} WriterGoes(sys: Sys, st: State, w: Tid) returns (z: State)
    requires w in sys.writers && w in st.ws && w in sys.cpu && WriterOK(sys.cpu[w], st.ws[w])
    requires st.ws[w] != Writer(WDone, []) && !st.vis.hold
    ensures Next(sys, st, z)
  {
    hide Hold, FlushH;
    var k := st.ws[w];
    if k.buf != [] {
      z := st.(vis := Apply(st.vis, k.buf[0]), ws := st.ws[w := k.(buf := k.buf[1..])]);
      assert FlushW(st, w, z);
    } else {
      match k.pc {
        case WInc => z := st.(ws := st.ws[w := Writer(WMb, k.buf + [StCnt(sys.cpu[w], 1)])]);
        case WMb => z := st.(ws := st.ws[w := k.(pc := WSpin)]);
        case WSpin => z := st.(ws := st.ws[w := k.(pc := WCheck)]);
        case WCheck =>
          z := if ReadOnly(st.vis) then st.(ws := st.ws[w := Writer(WDone, k.buf + [StCnt(sys.cpu[w], -1)])])
               else st.(ws := st.ws[w := k.(pc := WActive)]);
        case WActive => z := st.(ws := st.ws[w := Writer(WDone, k.buf + [StCnt(sys.cpu[w], -1)])]);
        case WDone =>
      }
      assert Write(sys, st, w, z);
    }
  }

  lemma {:induction false} WorkDone(sys: Sys, b: seq<State>, i: nat)
    requires sys.Valid() && Run(sys, b) && i < |b|
    ensures Work(sys, b[i]) + i <= Work(sys, b[0])
    decreases i
  {
    hide Next, Inv, Work;
    if i > 0 {
      WorkDone(sys, b, i - 1);
      RunInv(sys, b, i - 1);
      WorkFalls(sys, b[i - 1], b[i]);
    }
  }

  lemma {:induction false} WorkLeft(sys: Sys, st: State)
    ensures Work(sys, st) >= 0
  {
    SumNonNegative(sys.writers, WorkOf(st));
  }

  ghost predicate CanGoOn(sys: Sys, st: State) { exists z {:trigger Next(sys, st, z)} :: Next(sys, st, z) }

  lemma {:induction false} DoneStays(sys: Sys, st: State)
    requires Inv(sys, st)
    ensures CanGoOn(sys, st) <==> !AllDone(sys, st)
  {
    hide Inv, Next, AllDone;
    if !AllDone(sys, st) { var z := NeverStuck(sys, st); }
    else if CanGoOn(sys, st) {
      var z :| Next(sys, st, z);
      EndOfAll(sys, st, z);
    }
  }

  lemma {:induction false} EndOfAll(sys: Sys, st: State, z: State)
    requires Inv(sys, st) && Next(sys, st, z)
    ensures !AllDone(sys, st)
  {
    hide HolderOK, NobodyActive, CountOK, WriterOK;
  }

  ghost predicate Uncounted(v: Vis) { forall c :: 0 <= c < |v.cntv| ==> v.cntv[c] == 0 }

  lemma {:induction false} AllUncounted(sys: Sys, st: State, c: nat)
    requires Inv(sys, st) && AllDone(sys, st) && c < sys.ncpu
    ensures st.vis.cntv[c] == 0
  {
    hide HolderOK, NobodyActive;
    assert CountOK(sys, st, c);
    SumZero(sys.writers, ShownOn(sys, st, c));
  }

  /** Every run is finite, and one that cannot go on has everybody done: no writer spins
      for ever, and in the end all counts are zero. */
  lemma {:induction false} RunsEnd(sys: Sys, b: seq<State>)
    requires sys.Valid() && Run(sys, b)
    ensures |b| > 0 && |b| <= Work(sys, b[0]) + 1
    ensures CanGoOn(sys, b[|b| - 1]) <==> !AllDone(sys, b[|b| - 1])
    ensures AllDone(sys, b[|b| - 1])
        ==> |b[|b| - 1].vis.cntv| == sys.ncpu && Uncounted(b[|b| - 1].vis)
  {
    assert |b| > 0;
    hide Run, Work, Next, AllDone, CanGoOn;
    var st := b[|b| - 1];
    RunInv(sys, b, |b| - 1);
    WorkDone(sys, b, |b| - 1);
    WorkLeft(sys, st);
    DoneStays(sys, st);
    if AllDone(sys, st) {
      forall c | 0 <= c < sys.ncpu ensures st.vis.cntv[c] == 0 { AllUncounted(sys, st, c); }
    }
  }
}
