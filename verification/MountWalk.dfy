/** The RCU path walk (kernel/mount/tla/MountWalk.tla) against attach, lazy umount
    and move: lockless reads of the mount hash, of DCACHE_MOUNTED and of
    mnt_parent, validated against the sequence count of mount_lock, and the
    locked recursive walk they must agree with. */
module MountWalk {
  import opened Finite

  type Mnt = nat
  type Dentry = nat
  type Wid = nat
  const NO_MNT: Mnt := 0

  datatype Comp = Up | Name(n: nat)
  datatype MaybeD = NoD | D(d: Dentry)
  datatype Pos = Pos(mnt: Mnt, d: Dentry)
  datatype Res = ENoEnt | EAgain | Got(pos: Pos)

  datatype Mount = Mount(alive: bool, parent: Mnt, mp: Dentry, root: Dentry, hashed: bool)
  type Table = map<Mnt, Mount>

  /** Any constant forest of dentries, any walkers with any programs and roots; level
      is how deep a dentry is. */
  datatype Sys = Sys(up: Dentry -> Dentry, child: (Dentry, nat) -> MaybeD, negative: set<Dentry>,
                     prog: map<Wid, seq<Comp>>, root: map<Wid, Pos>, scoped: set<Wid>, level: Dentry -> nat)
  {
    /** up and child belong together, and going up comes to an end. */
    ghost predicate Forest() {
      && (forall d {:trigger up(d)} :: up(d) != d ==> level(up(d)) < level(d))
      && (forall d, n {:trigger child(d, n)} :: child(d, n).D? ==> up(child(d, n).d) == d && child(d, n).d != d)
    }
  }

  // ---- the locked walk ---------------------------------------------------------------------------

  ghost predicate On(mt: Table, p: Mnt, d: Dentry, x: Mnt) {
    x in mt && mt[x].alive && mt[x].hashed && mt[x].parent == p && mt[x].mp == d && x != p && x != NO_MNT
  }

  ghost function Mounted(mt: Table, p: Mnt, d: Dentry): (r: set<Mnt>) { set y | y in mt && On(mt, p, d, y) }

  /** __lookup_mnt() as the hash really is: one of the mounts at (p, d). */
  ghost function LookupMnt(mt: Table, p: Mnt, d: Dentry): (x: Mnt)
    ensures x != NO_MNT ==> On(mt, p, d, x)
    ensures x == NO_MNT ==> forall y: Mnt :: !On(mt, p, d, y)
  {
    var S := Mounted(mt, p, d);
    if S == {} then
      assert forall y: Mnt :: On(mt, p, d, y) ==> y in S;
      NO_MNT
    else Pick(S)
  }

  /** Cross whatever is mounted at (m, d), in at most n hops; from is where it started. */
  ghost predicate CrossIn(mt: Table, m: Mnt, d: Dentry, q: Pos, n: nat)
    decreases n
  {
    var o := LookupMnt(mt, m, d);
    if o == NO_MNT then q == Pos(m, d) else n > 0 && CrossIn(mt, o, mt[o].root, q, n - 1)
  }

  ghost predicate Cross(mt: Table, m: Mnt, d: Dentry, q: Pos) { exists n: nat :: CrossIn(mt, m, d, q, n) }

  datatype Climbed = Climbed(found: bool, mnt: Mnt, d: Dentry)

  /** choose_mountpoint(): up through roots, not past the walk's root. */
  ghost predicate ClimbIn(mt: Table, m: Mnt, root: Pos, c: Climbed, n: nat)
    decreases n
  {
    && m in mt && mt[m].parent in mt
    && var p, mp := mt[m].parent, mt[m].mp;
       if p == m || (p == root.mnt && mp == root.d) then c == Climbed(false, m, mt[m].root)
       else if mp != mt[p].root then c == Climbed(true, p, mp)
       else n > 0 && ClimbIn(mt, p, root, c, n - 1)
  }

  ghost predicate Climb(mt: Table, m: Mnt, root: Pos, c: Climbed) { exists n: nat :: ClimbIn(mt, m, root, c, n) }

  ghost predicate AtRoot(mt: Table, pos: Pos) { pos.mnt in mt && pos.d == mt[pos.mnt].root }

  ghost predicate DotDot(sys: Sys, mt: Table, pos: Pos, root: Pos, q: Pos) {
    if pos == root then q == pos
    else if AtRoot(mt, pos)
    then exists c {:trigger Climb(mt, pos.mnt, root, c)} ::
      Climb(mt, pos.mnt, root, c) && q == if c.found then Pos(c.mnt, sys.up(c.d))
    else pos
    else q == Pos(pos.mnt, sys.up(pos.d))
  }

  /** The sequential walk of a program with everything locked ends with r. */
  ghost predicate Resolve(sys: Sys, mt: Table, prog: seq<Comp>, pos: Pos, root: Pos, r: Res)
    decreases |prog|
  {
    if prog == [] then r == Got(pos)
    else match prog[0]
      case Up =>
        exists q {:trigger DotDot(sys, mt, pos, root, q)} ::
          DotDot(sys, mt, pos, root, q) && Resolve(sys, mt, prog[1..], q, root, r)
      case Name(n) =>
        match sys.child(pos.d, n)
        case NoD => r == ENoEnt
        case D(c) =>
          if c in sys.negative then r == ENoEnt
          else exists q {:trigger Cross(mt, pos.mnt, c, q)} ::
            Cross(mt, pos.mnt, c, q) && Resolve(sys, mt, prog[1..], q, root, r)
  }

  // ---- the state ---------------------------------------------------------------------------------------

  datatype WPc = WInit | WComp | WSlow | WMounts | WStep | WDotDot | WComplete | Ref | Finished

  /** A walker: where it is, the component it is entering, its sample of the seqcount. */
  datatype Walker = Walker(pc: WPc, path: Pos, nxt: Dentry, ip: nat, mseq: nat, res: Res)

  datatype MPc = MPick | MLock | MAttach | MUnlock
  datatype CPc = CPick | CLock | CUnhash | CMvLock | CMvUnhash | CMvSet | CMvHash | CUnlock | CUmUnlock | CPut

  datatype State = State(mt: Table, mounted: set<Dentry>, seqv: nat, ws: map<Wid, Walker>,
                         mpc: MPc, tgt: Pos, cpc: CPc, ctgt: Pos, victim: Mnt, todo: set<Mnt>)

  ghost predicate Writing(st: State) { st.seqv % 2 == 1 }

  // ---- the RCU walker -------------------------------------------------------------------------------------

  ghost function Set(st: State, w: Wid, k: Walker): (z: State) { st.(ws := st.ws[w := k]) }

  /** -ECHILD: start over in REF mode. */
  ghost predicate Restart(sys: Sys, st: State, w: Wid, z: State) {
    w in st.ws && w in sys.root && z == Set(st, w, st.ws[w].(pc := Ref, path := sys.root[w], ip := 0))
  }

  ghost predicate StepInit(st: State, w: Wid, z: State)
    requires w in st.ws
  {
    st.ws[w].pc == WInit && !Writing(st) && z == Set(st, w, st.ws[w].(pc := WComp, mseq := st.seqv))
  }

  ghost predicate StepComp(sys: Sys, st: State, w: Wid, z: State)
    requires w in st.ws && w in sys.prog
  {
    var k, prog := st.ws[w], sys.prog[w];
    && k.pc == WComp
    && if k.ip >= |prog| then z == Set(st, w, k.(pc := WComplete))
       else match prog[k.ip]
         case Up => z == Set(st, w, k.(pc := WDotDot))
         case Name(n) =>
           match sys.child(k.path.d, n)
           case NoD => z == Set(st, w, k.(pc := WSlow))
           case D(c) => z == Set(st, w, k.(pc := WMounts, nxt := c))
  }

  /** lookup_slow(): leave RCU against m_seq, then -ENOENT. */
  ghost predicate StepSlow(sys: Sys, st: State, w: Wid, z: State)
    requires w in st.ws
  {
    var k := st.ws[w];
    && k.pc == WSlow
    && if st.seqv == k.mseq then z == Set(st, w, k.(pc := Finished, res := ENoEnt)) else Restart(sys, st, w, z)
  }

  /** What the lookup returned, and the recheck. */
  ghost predicate Hop(sys: Sys, st: State, w: Wid, q: Mnt, z: State)
    requires w in st.ws
  {
    var k := st.ws[w];
    if st.seqv != k.mseq then Restart(sys, st, w, z)
    else if q == NO_MNT then z == Set(st, w, k.(pc := WStep))
    else q in st.mt && z == Set(st, w, k.(path := Pos(q, st.mt[q].root), nxt := st.mt[q].root))
  }

  /** __follow_mount_rcu(): a lookup may miss while a writer runs. */
  ghost predicate StepMounts(sys: Sys, st: State, w: Wid, z: State)
    requires w in st.ws
  {
    var k := st.ws[w];
    && k.pc == WMounts
    && if k.nxt !in st.mounted then z == Set(st, w, k.(pc := WStep))
       else exists q: Mnt ::
         (q == LookupMnt(st.mt, k.path.mnt, k.nxt) || (Writing(st) && q == NO_MNT)) && Hop(sys, st, w, q, z)
  }

  /** step_into(): -ENOENT of a negative dentry, with no recheck. */
  ghost predicate StepStep(sys: Sys, st: State, w: Wid, z: State)
    requires w in st.ws
  {
    var k := st.ws[w];
    && k.pc == WStep
    && if k.nxt in sys.negative then z == Set(st, w, k.(pc := Finished, res := ENoEnt))
       else z == Set(st, w, k.(pc := WComp, path := Pos(k.path.mnt, k.nxt), ip := k.ip + 1))
  }

  ghost predicate GoUp(sys: Sys, st: State, w: Wid, q: Pos, z: State)
    requires w in st.ws && w in sys.root
  {
    var k, root := st.ws[w], sys.root[w];
    if st.seqv != k.mseq && (k.path == root || AtRoot(st.mt, k.path)) then Restart(sys, st, w, z)
    else if st.seqv != k.mseq && w in sys.scoped then z == Set(st, w, k.(pc := Finished, res := EAgain))
    else z == Set(st, w, k.(pc := WComp, path := q, ip := k.ip + 1))
  }

  /** follow_dotdot_rcu(): the recheck is made where a mount was left or the root met. */
  ghost predicate StepDotDot(sys: Sys, st: State, w: Wid, z: State)
    requires w in st.ws && w in sys.root
  {
    var k, root := st.ws[w], sys.root[w];
    && k.pc == WDotDot
    && exists q {:trigger DotDot(sys, st.mt, k.path, root, q)} ::
        DotDot(sys, st.mt, k.path, root, q) && GoUp(sys, st, w, q, z)
  }

  /** complete_walk(): legitimize against m_seq. */
  ghost predicate StepComplete(sys: Sys, st: State, w: Wid, z: State)
    requires w in st.ws
  {
    var k := st.ws[w];
    && k.pc == WComplete
    && if st.seqv == k.mseq then z == Set(st, w, k.(pc := Finished, res := Got(k.path))) else Restart(sys, st, w, z)
  }

  ghost predicate WalkStep(sys: Sys, st: State, w: Wid, z: State) {
    && w in st.ws && w in sys.prog && w in sys.root
    && (StepInit(st, w, z) || StepComp(sys, st, w, z) || StepSlow(sys, st, w, z) || StepMounts(sys, st, w, z)
        || StepStep(sys, st, w, z) || StepDotDot(sys, st, w, z) || StepComplete(sys, st, w, z))
  }

  /** Somewhere one can mount: a dentry that is there, in a mount that is. */
  ghost predicate Place(sys: Sys, st: State, w: Pos) {
    w.d !in sys.negative && w.mnt in st.mt && st.mt[w.mnt].alive
  }

  /** The new mount x of the filesystem with root r goes where the mounter picked. */
  ghost predicate Attach(sys: Sys, st: State, x: Mnt, r: Dentry, z: State) {
    && x !in st.mt && x != NO_MNT && x != st.tgt.mnt && r !in sys.negative
    && z == st.(mpc := MUnlock, mt := st.mt[x := Mount(true, st.tgt.mnt, st.tgt.d, r, true)])
  }

  // ---- the mounter -----------------------------------------------------------------------------------------

  /** do_lock_mount() and d_set_mounted(), the section, the attach: again and again. */
  ghost predicate MountStep(sys: Sys, st: State, z: State) {
    match st.mpc
    case MPick =>
      exists w: Pos :: Place(sys, st, w) && z == st.(mpc := MLock, tgt := w, mounted := st.mounted + {w.d})
    case MLock => !Writing(st) && z == st.(mpc := MAttach, seqv := st.seqv + 1)
    case MAttach => exists x: Mnt, r: Dentry {:trigger Attach(sys, st, x, r, z)} :: Attach(sys, st, x, r, z)
    case MUnlock => z == st.(mpc := MPick, seqv := st.seqv + 1)
  }

  // ---- the changer -----------------------------------------------------------------------------------------

  /** x and everything attached below it, at any depth. */
  ghost predicate Below(mt: Table, x: Mnt, y: Mnt, n: nat)
    decreases n
  {
    y == x || (n > 0 && y in mt && mt[y].alive && mt[y].parent != y && Below(mt, x, mt[y].parent, n - 1))
  }

  ghost function Subtree(mt: Table, x: Mnt): (r: set<Mnt>) {
    set y | y in mt && mt[y].alive && exists n: nat :: Below(mt, x, y, n)
  }

  ghost predicate Pinned(st: State, d: Dentry) {
    || ((st.mpc == MLock || st.mpc == MAttach) && st.tgt.d == d)
    || ((st.cpc == CMvLock || st.cpc == CMvUnhash || st.cpc == CMvSet || st.cpc == CMvHash) && st.ctgt.d == d)
  }

  /** maybe_free_mountpoint(): nothing mounted on d, nobody about to. */
  ghost predicate Unmounted(st: State, mt: Table, d: Dentry) {
    (forall y :: y in mt && mt[y].alive && mt[y].parent != y ==> mt[y].mp != d) && !Pinned(st, d)
  }

  ghost function Flags(st: State, mt: Table): (r: set<Dentry>) { set d | d in st.mounted && !Unmounted(st, mt, d) }

  ghost function Unhashed(mt: Table, tree: set<Mnt>): (r: Table) {
    map y | y in mt :: if y in tree then mt[y].(hashed := false, parent := y, mp := mt[y].root) else mt[y]
  }

  ghost predicate PickUmount(st: State, v: Mnt, z: State) {
    v in st.mt && st.mt[v].alive && st.mt[v].hashed && z == st.(cpc := CLock, victim := v)
  }

  ghost predicate PickMove(sys: Sys, st: State, v: Mnt, w: Pos, z: State) {
    && v in st.mt && st.mt[v].alive && st.mt[v].hashed && Place(sys, st, w) && w.mnt !in Subtree(st.mt, v) && w.mnt != v
    && z == st.(cpc := CMvLock, victim := v, ctgt := w, mounted := st.mounted + {w.d})
  }

  ghost predicate Moves(sys: Sys, st: State, v: Mnt, z: State) {
    exists w: Pos {:trigger PickMove(sys, st, v, w, z)} :: PickMove(sys, st, v, w, z)
  }

  /** The mounts whose last reference has been put. */
  ghost function Died(mt: Table, dead: set<Mnt>): (r: Table) {
    map y | y in mt :: if y in dead then mt[y].(alive := false) else mt[y]
  }

  /** Lazy umount of the whole tree below a victim, or a move of it: again and again. */
  ghost predicate ChangeStep(sys: Sys, st: State, z: State) {
    match st.cpc
    case CPick => exists v: Mnt {:trigger PickUmount(st, v, z)} :: PickUmount(st, v, z) || Moves(sys, st, v, z)
    case CLock => !Writing(st) && z == st.(cpc := CUnhash, seqv := st.seqv + 1)
    case CUnhash =>
      var tree := Subtree(st.mt, st.victim);
      var mt1 := Unhashed(st.mt, tree);
      z == st.(cpc := CUmUnlock, mt := mt1, mounted := Flags(st, mt1), todo := tree)
    case CMvLock => !Writing(st) && z == st.(cpc := CMvUnhash, seqv := st.seqv + 1)
    case CMvUnhash =>
      st.victim in st.mt && z == st.(cpc := CMvSet, mt := st.mt[st.victim := st.mt[st.victim].(hashed := false)])
    case CMvSet =>
      && st.victim in st.mt
      && z == st.(cpc := CMvHash, mt := st.mt[st.victim := st.mt[st.victim].(parent := st.ctgt.mnt, mp := st.ctgt.d)])
    case CMvHash =>
      && st.victim in st.mt
      && var mt1 := st.mt[st.victim := st.mt[st.victim].(hashed := true)];
         z == st.(cpc := CUnlock, mt := mt1, mounted := Flags(st.(cpc := CUnlock), mt1))
    case CUnlock => z == st.(cpc := CPick, seqv := st.seqv + 1)
    case CUmUnlock => z == st.(cpc := CPut, seqv := st.seqv + 1)
    case CPut =>
      exists dead: set<Mnt> {:trigger Died(st.mt, dead)} ::
        dead <= st.todo && z == st.(cpc := CPick, todo := {}, mt := Died(st.mt, dead))
  }

  ghost predicate Next(sys: Sys, st: State, z: State) {
    MountStep(sys, st, z) || ChangeStep(sys, st, z) || exists w :: WalkStep(sys, st, w, z)
  }

  /** Up from x over at most n mounts one comes to one that is its own parent. */
  ghost predicate Rooted(mt: Table, x: Mnt, n: nat)
    decreases n
  {
    x in mt && (mt[x].parent == x || (n > 0 && Rooted(mt, mt[x].parent, n - 1)))
  }

  ghost predicate Attached(mt: Table, x: Mnt) { exists n: nat :: Rooted(mt, x, n) }

  /** A walk's root is a place in a mount. */
  ghost predicate RootIn(sys: Sys, mt: Table, root: Pos) {
    root.mnt in mt && UnderD(sys, root.d, mt[root.mnt].root)
  }

  /** A tree with every mountpoint flagged, none of it negative, and nobody under way. */
  ghost predicate Init(sys: Sys, st: State) {
    && sys.Forest() && st.seqv == 0 && st.mpc == MPick && st.cpc == CPick && st.todo == {}
    && (forall x {:trigger Attached(st.mt, x)} :: x in st.mt ==> st.mt[x].alive && Attached(st.mt, x))
    && (forall w {:trigger RootIn(sys, st.mt, sys.root[w])} :: w in sys.root ==> RootIn(sys, st.mt, sys.root[w]))
    && sys.prog.Keys == sys.root.Keys == st.ws.Keys
    && (forall w {:trigger st.ws[w]} ::
          w in st.ws ==> st.ws[w].pc == WInit && st.ws[w].path == sys.root[w] && st.ws[w].ip == 0)
    && (forall x {:trigger st.mt[x]} ::
          x in st.mt && st.mt[x].alive ==>
            && st.mt[x].root !in sys.negative
            && (st.mt[x].parent != x ==> st.mt[x].mp in st.mounted && st.mt[x].mp !in sys.negative))
  }

  ghost predicate Run(sys: Sys, b: seq<State>) {
    |b| > 0 && Init(sys, b[0]) && forall i, j :: 0 <= i < |b| - 1 && j == i + 1 ==> Next(sys, b[i], b[j])
  }

  // ---- what is claimed ------------------------------------------------------------------------------

  ghost function UpBy(sys: Sys, d: Dentry, n: nat): (r: Dentry)
    decreases n
  {
    if n == 0 then d else UpBy(sys, sys.up(d), n - 1)
  }

  /** a is d or above it. */
  ghost predicate UnderD(sys: Sys, d: Dentry, a: Dentry) { exists n: nat :: UpBy(sys, d, n) == a }

  /** is_path_reachable(): up from pos, over at most n mountpoints, one comes to root. */
  ghost predicate UnderIn(sys: Sys, mt: Table, pos: Pos, root: Pos, n: nat)
    decreases n
  {
    if pos.mnt == root.mnt then UnderD(sys, pos.d, root.d)
    else
      && pos.mnt in mt && mt[pos.mnt].parent != pos.mnt && n > 0
      && UnderIn(sys, mt, Pos(mt[pos.mnt].parent, mt[pos.mnt].mp), root, n - 1)
  }

  ghost predicate Under(sys: Sys, mt: Table, pos: Pos, root: Pos) { exists n: nat :: UnderIn(sys, mt, pos, root, n) }
}
