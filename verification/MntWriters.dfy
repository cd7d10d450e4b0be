/** WRITE_HOLD (kernel/mount/tla/MntWriters.tla): mnt_get_write_access() of any
    number of writers against mnt_make_readonly() or
    sb_prepare_remount_readonly(), with per-CPU counters summed one at a time and
    TSO store buffers. */
module MntWriters {
  import opened Finite

  type Tid = nat

  datatype WLabel = WInc | WMb | WSpin | WCheck | WActive | WDone
  datatype HLabel = HLock | HHold | HMb | HSum | HDecide | HRemount | HDone
  datatype Outcome = None | Ok | Busy

  datatype Store = StCnt(c: nat, d: int) | StHold(v: bool) | StRo(v: bool) | StSbro(v: bool) | StSbrd(v: bool)
      | StUnlock

  /** What every CPU sees; locked is mount_lock, which only the holder takes. */
  datatype Vis = Vis(cntv: seq<int>, hold: bool, ro: bool, sbro: bool, sbrd: bool, locked: bool)

  datatype Writer = Writer(pc: WLabel, buf: seq<Store>)
  datatype Holder = Holder(pc: HLabel, buf: seq<Store>, acc: int, ci: nat)
  datatype State = State(vis: Vis, ws: map<Tid, Writer>, h: Holder, result: Outcome)

  /** Any writers on any CPUs; sb says whether the superblock or the mount becomes
      read-only. */
  datatype Sys = Sys(writers: set<Tid>, cpu: map<Tid, nat>, ncpu: nat, sb: bool) {
    ghost predicate Valid() { cpu.Keys == writers && forall w :: w in writers ==> cpu[w] < ncpu }
  }

  ghost function Apply(v: Vis, e: Store): (r: Vis) {
    match e
    case StCnt(c, d) => if c < |v.cntv| then v.(cntv := v.cntv[c := v.cntv[c] + d]) else v
    case StHold(b) => v.(hold := b)
    case StRo(b) => v.(ro := b)
    case StSbro(b) => v.(sbro := b)
    case StSbrd(b) => v.(sbrd := b)
    case StUnlock => v.(locked := false)
  }

  ghost function ApplyAll(v: Vis, es: seq<Store>): (r: Vis)
    decreases |es|
  {
    if es == [] then v else ApplyAll(Apply(v, es[0]), es[1..])
  }

  ghost function Buffered(b: seq<Store>, c: nat): (n: int) {
    if b == [] then 0 else (if b[0].StCnt? && b[0].c == c then b[0].d else 0) + Buffered(b[1..], c)
  }

  // ---- the writer -----------------------------------------------------------------------------------

  ghost predicate ReadOnly(v: Vis) { v.sbro || v.ro || v.sbrd }

  ghost predicate Write(sys: Sys, st: State, w: Tid, z: State) {
    && w in st.ws && w in sys.cpu
    && var k := st.ws[w];
       match k.pc
       case WInc => z == st.(ws := st.ws[w := Writer(WMb, k.buf + [StCnt(sys.cpu[w], 1)])])
       case WMb => k.buf == [] && z == st.(ws := st.ws[w := k.(pc := WSpin)])
       case WSpin => !st.vis.hold && z == st.(ws := st.ws[w := k.(pc := WCheck)])
       case WCheck =>
         if ReadOnly(st.vis) then z == st.(ws := st.ws[w := Writer(WDone, k.buf + [StCnt(sys.cpu[w], -1)])])
         else z == st.(ws := st.ws[w := k.(pc := WActive)])
       case WActive => z == st.(ws := st.ws[w := Writer(WDone, k.buf + [StCnt(sys.cpu[w], -1)])])
       case WDone => false
  }

  // ---- the holder -----------------------------------------------------------------------------------

  ghost predicate Hold(sys: Sys, st: State, z: State) {
    var h := st.h;
    match h.pc
    case HLock => !st.vis.locked && h.buf == [] && z == st.(vis := st.vis.(locked := true), h := h.(pc := HHold))
    case HHold => z == st.(h := h.(pc := HMb, buf := h.buf + [StHold(true)]))
    case HMb => h.buf == [] && z == st.(h := h.(pc := HSum, acc := 0, ci := 0))
    case HSum =>
      if h.ci < sys.ncpu
      then h.ci < |st.vis.cntv|
          && z == st.(h := h.(acc := h.acc + st.vis.cntv[h.ci] + Buffered(h.buf, h.ci), ci := h.ci + 1))
      else z == st.(h := h.(pc := HDecide))
    case HDecide =>
      if h.acc > 0
      then z == st.(vis := ApplyAll(st.vis, h.buf + [StHold(false), StUnlock]), h := h.(pc := HDone, buf := []),
          result := Busy)
      else if !sys.sb
      then z == st.(vis := ApplyAll(st.vis, h.buf + [StRo(true), StHold(false), StUnlock]),
          h := h.(pc := HDone, buf := []), result := Ok)
      else z == st.(vis := ApplyAll(st.vis, h.buf + [StSbro(true), StHold(false), StUnlock]),
          h := h.(pc := HRemount, buf := []), result := Ok)
    case HRemount => z == st.(h := h.(pc := HDone, buf := h.buf + [StSbrd(true), StSbro(false)]))
    case HDone => false
  }

  // ---- the specification --------------------------------------------------------------------------------

  ghost predicate FlushW(st: State, w: Tid, z: State) {
    && w in st.ws && st.ws[w].buf != []
    && z == st.(vis := Apply(st.vis, st.ws[w].buf[0]), ws := st.ws[w := st.ws[w].(buf := st.ws[w].buf[1..])])
  }

  ghost predicate FlushH(st: State, z: State) {
    st.h.buf != [] && z == st.(vis := Apply(st.vis, st.h.buf[0]), h := st.h.(buf := st.h.buf[1..]))
  }

  ghost predicate Next(sys: Sys, st: State, z: State) {
    || Hold(sys, st, z) || FlushH(st, z)
    || exists w :: w in sys.writers && (Write(sys, st, w, z) || FlushW(st, w, z))
  }

  ghost predicate Init(sys: Sys, st: State) {
    && |st.vis.cntv| == sys.ncpu && (forall c :: 0 <= c < sys.ncpu ==> st.vis.cntv[c] == 0)
    && st.vis == Vis(st.vis.cntv, false, false, false, false, false)
    && st.ws.Keys == sys.writers && (forall w {:trigger st.ws[w]} :: w in sys.writers ==> st.ws[w] == Writer(WInc, []))
    && st.h == Holder(HLock, [], 0, 0) && st.result == None
  }

  ghost predicate Run(sys: Sys, b: seq<State>) {
    |b| > 0 && Init(sys, b[0]) && forall i, j :: 0 <= i < |b| - 1 && j == i + 1 ==> Next(sys, b[i], b[j])
  }

  // ---- what is claimed -------------------------------------------------------------------------------------

  ghost predicate Active(st: State, w: Tid) { w in st.ws && st.ws[w].pc == WActive }

  ghost predicate ReadOnlyOK(st: State) { ReadOnly(st.vis) ==> forall w :: !Active(st, w) }

  ghost predicate DecisionOK(st: State) { st.result == Ok ==> forall w :: !Active(st, w) }

  ghost predicate HoldUnderLock(st: State) { st.vis.hold ==> st.vis.locked }

  /** Between increment and decrement. */
  ghost predicate Counted(k: Writer) { k.pc == WMb || k.pc == WSpin || k.pc == WCheck || k.pc == WActive }

  ghost function Net(b: seq<Store>): (n: int) {
    if b == [] then 0 else (if b[0].StCnt? then b[0].d else 0) + Net(b[1..])
  }

  ghost function NetOf(st: State): (f: Tid -> int) { (w: Tid) => if w in st.ws then Net(st.ws[w].buf) else 0 }

  ghost function CountedSet(sys: Sys, st: State): (r: set<Tid>) {
    set w | w in sys.writers && w in st.ws && Counted(st.ws[w])
  }

  /** The counts add up. */
  ghost predicate Ledger(sys: Sys, st: State) {
    SumSeq(st.vis.cntv) + Sum(sys.writers, NetOf(st)) == |CountedSet(sys, st)|
  }

  // ---- the invariant ------------------------------------------------------------------------------------------

  ghost predicate WriterOK(c: nat, k: Writer) {
    match k.pc
    case WInc | WSpin | WCheck | WActive => k.buf == []
    case WMb => k.buf == [] || k.buf == [StCnt(c, 1)]
    case WDone => k.buf == [] || k.buf == [StCnt(c, -1)]
  }

  /** The writer's increment is visible and its decrement is not. */
  ghost predicate Shows(k: Writer) {
    match k.pc
    case WInc => false
    case WMb => k.buf == []
    case WSpin | WCheck | WActive => true
    case WDone => k.buf != []
  }

  ghost function ShownOn(sys: Sys, st: State, c: nat): (f: Tid -> int) {
    (w: Tid) => Bit(w in st.ws && w in sys.cpu && sys.cpu[w] == c && Shows(st.ws[w]))
  }

  /** Each counter is the number of writers on its CPU that show. */
  ghost predicate CountOK(sys: Sys, st: State, c: nat)
    requires c < |st.vis.cntv|
  {
    st.vis.cntv[c] == Sum(sys.writers, ShownOn(sys, st, c))
  }

  /** Behind WRITE_HOLD: not past the spin. */
  ghost predicate Held(k: Writer) { k.pc != WCheck && k.pc != WActive }

  /** No writer counted on the first n CPUs is past the spin. */
  ghost predicate HeldOn(sys: Sys, st: State, n: nat) {
    forall w {:trigger st.ws[w]} :: w in st.ws && w in sys.cpu && sys.cpu[w] < n ==> Held(st.ws[w])
  }

  ghost predicate HolderOK(sys: Sys, st: State) {
    var h, v := st.h, st.vis;
    match h.pc
    case HLock => h.buf == [] && !v.hold && !v.locked && !ReadOnly(v) && st.result == None
    case HHold => h.buf == [] && !v.hold && v.locked && !ReadOnly(v) && st.result == None
    case HMb => (h.buf == [StHold(true)] || (h.buf == [] && v.hold)) && v.locked && !ReadOnly(v) && st.result == None
    case HSum =>
      && h.buf == [] && v.hold && v.locked && !ReadOnly(v) && st.result == None && h.ci <= sys.ncpu && h.acc >= 0
      && (h.acc > 0 || HeldOn(sys, st, h.ci))
    case HDecide =>
      h.buf == [] && v.hold && v.locked && !ReadOnly(v) && st.result == None && (h.acc > 0 || HeldOn(sys, st, sys.ncpu))
    case HRemount => sys.sb && h.buf == [] && !v.hold && !v.locked && v.sbro && st.result == Ok
    case HDone =>
      && !v.hold && !v.locked
      && match st.result
         case None => false
         case Busy => h.buf == [] && !ReadOnly(v)
         case Ok =>
           if sys.sb
           then (h.buf == [StSbrd(true), StSbro(false)] && v.sbro) || (h.buf == [StSbro(false)] && v.sbrd)
               || (h.buf == [] && v.sbrd)
           else h.buf == [] && v.ro
  }

  /** Once the decision was "ok" nobody is active, nor can become so. */
  ghost predicate NobodyActive(st: State) {
    st.result == Ok ==> forall w {:trigger st.ws[w]} :: w in st.ws ==> st.ws[w].pc != WActive
  }

  ghost predicate Inv(sys: Sys, st: State) {
    && sys.Valid() && st.ws.Keys == sys.writers && |st.vis.cntv| == sys.ncpu
    && (forall w {:trigger st.ws[w]} :: w in sys.writers ==> WriterOK(sys.cpu[w], st.ws[w]))
    && (forall c {:trigger CountOK(sys, st, c)} :: 0 <= c < sys.ncpu ==> CountOK(sys, st, c))
    && HolderOK(sys, st) && NobodyActive(st)
  }
}
