/** Who owns an unmounted mount (kernel/mount-ownership/tla/MntOwn.tla): how
    umount_tree(), mntput() and cleanup_mnt() count references, for any finite tree of
    mounts on any finite set of superblocks, each of which may keep a file open
    on one mount (its pin).

    The three rules compared here are the tombstone mechanism (disown), the
    internal clone (clone) and the disconnection of pinners (pinners, complete only
    with reexamine); the layout says which one is in force.  A TLA+
    action is a relation between two states and is kept as one. */
module MntOwn {
  import Finite

  type Mnt = nat
  type SbId = nat
  const NO_MNT: Mnt := 0
  const NULL_SB: SbId := 0

  /** One mount: the fields of struct mount the reference counting reads. */
  datatype Mount = Mount(
    parent: Mnt, attached: bool, umount: bool, ns: bool, count: int,
    doomed: bool, tomb: bool, release: bool, sb: SbId, oldsb: SbId,
    locked: bool, stuck: set<Mnt>, freed: bool)
  {
    /** Still in the tree below a parent. */
    predicate Attached() { parent != NO_MNT && attached }
  }

  datatype Super = Super(active: int, pin: Mnt)

  /** What the functions of the mount code transform. */
  datatype State = State(mt: map<Mnt, Mount>, sbs: map<SbId, Super>, cleanq: set<Mnt>, unm: seq<Mnt>)

  /** The whole machine: the state, the holders' open files and the namespace. */
  datatype Sys = Sys(st: State, ext: map<Mnt, nat>, users: nat, alive: bool)

  datatype How = How(sync: bool, connected: bool)

  /** A layout: the tree, the superblocks and their pins, and the rule. */
  datatype Layout = Layout(
    ids: set<Mnt>, root: Mnt, parent: map<Mnt, Mnt>, depth: map<Mnt, nat>,
    sbIds: set<SbId>, sb: map<Mnt, SbId>, pin: map<SbId, Mnt>,
    locked: set<Mnt>, ext: map<Mnt, nat>, users: nat,
    disown: bool, clone: bool, pinners: bool, reexamine: bool, nsDisconnect: bool, pinBusy: bool)
  {
    /** Some mount is on s. */
    ghost predicate Populated(s: SbId) { exists m :: m in ids && m in sb && sb[m] == s }

    /** A tree under root (depth is the source's Depth), every mount on a
        superblock, every pin on a mount or absent and held by a superblock that
        is up because a mount is on it, at most one rule. */
    ghost predicate Valid() {
      && NO_MNT !in ids && NULL_SB !in sbIds && root in ids
      && parent.Keys == ids && depth.Keys == ids && sb.Keys == ids && ext.Keys == ids
      && pin.Keys == sbIds
      && parent[root] == NO_MNT
      && (forall m {:trigger parent[m]} ::
            m in ids && m != root ==> parent[m] in ids && depth[m] == depth[parent[m]] + 1)
      && (forall m {:trigger sb[m]} :: m in ids ==> sb[m] in sbIds)
      && (forall s {:trigger pin[s]} :: s in sbIds ==> pin[s] == NO_MNT || (pin[s] in ids && Populated(s)))
      && !(disown && clone) && !(disown && pinners) && !(clone && pinners)
    }
  }

  /** The tables cover the layout. */
  ghost predicate Typed(L: Layout, st: State) {
    && st.mt.Keys == L.ids && st.sbs.Keys == L.sbIds && st.cleanq <= L.ids
    && (forall i :: 0 <= i < |st.unm| ==> st.unm[i] in L.ids)
  }

  // ---- orders ---------------------------------------------------------------

  /** The order umount_tree() collects a tree in: a parent before its children. */
  ghost predicate Before(L: Layout, x: Mnt, y: Mnt)
    requires x in L.depth && y in L.depth
  {
    L.depth[x] < L.depth[y] || (L.depth[x] == L.depth[y] && x <= y)
  }

  /** x comes before every member of S. */
  ghost predicate IsFirst(L: Layout, x: Mnt, S: set<Mnt>)
    requires x in L.depth && S <= L.depth.Keys
  {
    forall y :: y in S ==> Before(L, x, y)
  }

  lemma {:induction false} FirstExists(L: Layout, S: set<Mnt>) returns (x: Mnt)
    requires S != {} && S <= L.depth.Keys
    ensures x in S && IsFirst(L, x, S)
    decreases |S|
  {
    var a :| a in S;
    var T := S - {a};
    if T == {} {
      x := a;
    } else {
      var b := FirstExists(L, T);
      x := if Before(L, a, b) then a else b;
    }
    forall y | y in S ensures Before(L, x, y) { assert y == a || y in T; }
  }

  /** S as a list in that order. */
  ghost function Ordered(L: Layout, S: set<Mnt>): (r: seq<Mnt>)
    requires S <= L.depth.Keys
    ensures multiset(r) == multiset(S)
    ensures forall i :: 0 <= i < |r| ==> r[i] in S
    decreases |S|
  {
    if S == {} then [] else
      assert exists x :: x in S && IsFirst(L, x, S) by { var x := FirstExists(L, S); }
      var x :| x in S && IsFirst(L, x, S);
      [x] + Ordered(L, S - {x})
  }

  function Reverse<T>(s: seq<T>): (r: seq<T>)
    ensures multiset(r) == multiset(s)
  {
    if s == [] then [] else
      assert s == [s[0]] + s[1..];
      Reverse(s[1..]) + [s[0]]
  }

  // ---- mntput() --------------------------------------------------------------

  /** The children still hashed below m. */
  ghost function Kids(mt: map<Mnt, Mount>, m: Mnt): (r: set<Mnt>) {
    set k | k in mt && !mt[k].freed && mt[k].parent == m && mt[k].attached
  }

  /** The children m's cleanup will put: all of them, or only the tombstones. */
  ghost function StuckOf(L: Layout, mt: map<Mnt, Mount>, m: Mnt): (r: set<Mnt>) {
    set k | k in Kids(mt, m) && (L.disown ==> mt[k].tomb)
  }

  /** The record of a mount that lost its last reference: a tombstone while
      attached (disown), else doomed. */
  function Finish(L: Layout, r: Mount, stuck: set<Mnt>): (f: Mount) {
    if L.disown && r.Attached() && !r.tomb then
      r.(count := 2, tomb := true, release := true, stuck := stuck, sb := NULL_SB, oldsb := r.sb)
    else
      r.(count := 0, doomed := true, stuck := stuck)
  }

  function Unhash(r: Mount): (f: Mount) { r.(attached := false, parent := NO_MNT) }

  /** The table after m lost its last reference: its children are unhashed. */
  ghost function FinalPut(L: Layout, mt: map<Mnt, Mount>, m: Mnt): (r: map<Mnt, Mount>)
    requires m in mt
  {
    map x | x in mt ::
      if x == m then Finish(L, mt[m], StuckOf(L, mt, m))
      else if x in Kids(mt, m) then Unhash(mt[x])
      else mt[x]
  }

  /** mntput_no_expire(): the slow path once the count reaches zero. */
  ghost predicate Last(st: State, m: Mnt)
    requires m in st.mt
  {
    !(st.mt[m].count > 1 || st.mt[m].ns || st.mt[m].doomed)
  }

  ghost function Put(L: Layout, st: State, m: Mnt): (r: State)
    requires m in st.mt
    ensures r.mt.Keys == st.mt.Keys && r.sbs == st.sbs && r.unm == st.unm
  {
    if !Last(st, m) then st.(mt := st.mt[m := st.mt[m].(count := st.mt[m].count - 1)])
    else st.(mt := FinalPut(L, st.mt, m), cleanq := st.cleanq + {m})
  }

  ghost function PutAll(L: Layout, st: State, s: seq<Mnt>): (r: State)
    requires forall i :: 0 <= i < |s| ==> s[i] in st.mt
    ensures r.mt.Keys == st.mt.Keys && r.sbs == st.sbs && r.unm == st.unm
    decreases |s|
  {
    if s == [] then st else PutAll(L, Put(L, st, s[0]), s[1..])
  }

  /** The superblocks still up; it shrinks with every superblock taken down, so
      the cascade below ends. */
  ghost function Up(sbs: map<SbId, Super>): (r: set<SbId>) {
    set s | s in sbs && sbs[s].active > 0
  }

  lemma {:induction false} UpShrinks(sbs: map<SbId, Super>, s: SbId)
    requires s in sbs && sbs[s].active == 1
    ensures |Up(sbs[s := sbs[s].(active := 0)])| < |Up(sbs)|
  {
    assert Up(sbs[s := sbs[s].(active := 0)]) == Up(sbs) - {s};
    assert s in Up(sbs);
  }

  /** deactivate_super(): with its last reference the superblock goes down and closes
      its file, which drops a reference on the mount the file is on, or with the
      clone on that mount's superblock. */
  ghost function DropSb(L: Layout, st: State, s: SbId): (r: State)
    requires L.Valid() && st.sbs.Keys == L.sbIds && st.mt.Keys == L.ids && s in L.sbIds
    requires forall u :: u in L.sbIds ==> st.sbs[u].pin == L.pin[u]
    ensures r.mt.Keys == L.ids && r.sbs.Keys == L.sbIds && r.unm == st.unm
    decreases |Up(st.sbs)|
  {
    var a := st.sbs[s].active - 1;
    var st1 := st.(sbs := st.sbs[s := st.sbs[s].(active := a)]);
    if a == 0 && st.sbs[s].pin != NO_MNT then
      if L.clone then
        UpShrinks(st.sbs, s);
        DropSb(L, st1, L.sb[st.sbs[s].pin])
      else Put(L, st1, st.sbs[s].pin)
    else st1
  }

  /** The state a cleanup starts from: m off the queue, its stuck list taken. */
  ghost function TakeStuck(st: State, m: Mnt): (r: State)
    requires m in st.mt
  {
    st.(mt := st.mt[m := st.mt[m].(stuck := {}, release := false)], cleanq := st.cleanq - {m})
  }

  ghost predicate Ready(L: Layout, st: State) {
    && L.Valid() && Typed(L, st)
    && (forall u :: u in L.sbIds ==> st.sbs[u].pin == L.pin[u])
  }

  /** cleanup_mnt(): the stuck children are put and the superblock is dropped; then the
      mount is gone, or, when it is only a tombstone's filesystem that went, loses
      the reference kept for that. */
  ghost function Cleanup(L: Layout, st: State, m: Mnt): (r: State)
    requires Ready(L, st) && m in L.ids
    requires st.mt[m].stuck <= L.ids
    requires st.mt[m].release ==> st.mt[m].oldsb in L.sbIds
    requires st.mt[m].sb != NULL_SB ==> st.mt[m].sb in L.sbIds
  {
    var s := Ordered(L, st.mt[m].stuck);
    var st0 := PutAll(L, TakeStuck(st, m), s);
    if L.disown && st.mt[m].release then
      var st1 := DropSb(L, st0, st.mt[m].oldsb);
      Put(L, st1, m)
    else
      var st1 := if st.mt[m].sb == NULL_SB then st0 else DropSb(L, st0, st.mt[m].sb);
      st1.(mt := st1.mt[m := st1.mt[m].(freed := true, attached := false, parent := NO_MNT)])
  }

  // ---- umount_tree() ----------------------------------------------------------

  /** The mounts reachable from S over attached children, S included. */
  ghost function Subtree(mt: map<Mnt, Mount>, S: set<Mnt>): (r: set<Mnt>)
    requires S <= mt.Keys
    ensures S <= r <= mt.Keys
    decreases |mt.Keys - S|
  {
    var N := S + (set k | k in mt && !mt[k].freed && mt[k].attached && mt[k].parent in S);
    if N == S then S else
      Finite.Grows(mt.Keys, S, N);
      Subtree(mt, N)
  }

  /** Mount x is coming down and not gone yet. */
  ghost predicate Dying(mt: map<Mnt, Mount>, x: Mnt) { x in mt && mt[x].umount && !mt[x].freed }

  /** The superblock of p keeps a file open on such a mount. */
  ghost predicate PinsVictim(st: State, p: Mnt)
    requires p in st.mt
  {
    st.mt[p].sb in st.sbs && Dying(st.mt, st.sbs[st.mt[p].sb].pin)
  }

  /** disconnect_mount(): does victim p leave its parent? */
  ghost predicate Disconnect(L: Layout, st: State, p: Mnt, how: How)
    requires p in st.mt
  {
    var mt := st.mt;
    || how.sync
    || !mt[p].Attached()
    || (mt[p].parent in mt && !mt[mt[p].parent].umount)
    || (L.pinners && PinsVictim(st, p))
    || (!how.connected && !mt[p].locked)
  }

  /** One victim leaves the namespace, and its parent if so decided; it is listed if
      namespace_unlock() is to drop its reference. */
  ghost function UmountOne(L: Layout, st: State, p: Mnt, how: How): (r: State)
    requires p in st.mt
  {
    var disc := Disconnect(L, st, p, how);
    var rec := st.mt[p].(umount := true, ns := false);
    var rec1 := if disc then rec.(attached := false, parent := NO_MNT) else rec;
    st.(mt := st.mt[p := rec1], unm := if L.disown || disc then st.unm + [p] else st.unm)
  }

  ghost function UmountEach(L: Layout, st: State, s: seq<Mnt>, how: How): (r: State)
    requires forall i :: 0 <= i < |s| ==> s[i] in st.mt
    ensures r.mt.Keys == st.mt.Keys
    decreases |s|
  {
    if s == [] then st else UmountEach(L, UmountOne(L, st, s[0], how), s[1..], how)
  }

  /** The victims are flagged before any of them is looked at, because the fate of
      each depends on the flag of its parent. */
  ghost function MarkUmount(mt: map<Mnt, Mount>, V: set<Mnt>): (r: map<Mnt, Mount>) {
    map x | x in mt :: if x in V then mt[x].(umount := true) else mt[x]
  }

  /** The mounts outside V that an earlier umount left with a dead parent and whose
      superblock pins a dying mount. */
  ghost function Late(st: State, V: set<Mnt>): (r: set<Mnt>) {
    set c | c in st.mt && c !in V && !st.mt[c].freed && st.mt[c].umount && st.mt[c].Attached()
            && st.mt[c].parent in st.mt && st.mt[st.mt[c].parent].umount && PinsVictim(st, c)
  }

  /** Those lose their parent too, and namespace_unlock() drops the reference it
      owned. */
  ghost function Reexamine(L: Layout, st: State, V: set<Mnt>): (r: State)
    requires L.Valid() && st.mt.Keys == L.ids
  {
    var late := Late(st, V);
    st.(mt := map x | x in st.mt :: if x in late then Unhash(st.mt[x]) else st.mt[x], unm := st.unm + Ordered(L, late))
  }

  ghost function UmountTree(L: Layout, st: State, m: Mnt, how: How): (r: State)
    requires L.Valid() && st.mt.Keys == L.ids && m in L.ids
  {
    var V := Subtree(st.mt, {m});
    var st1 := UmountEach(L, st.(mt := MarkUmount(st.mt, V)), Ordered(L, V), how);
    var st2 := if L.pinners && L.reexamine then Reexamine(L, st1, V) else st1;
    if L.disown then st2 else st2.(unm := Reverse(st2.unm))
  }

  // ---- the actions ------------------------------------------------------------

  /** The unmounted list is empty, so namespace_sem is free. */
  ghost predicate Idle(y: Sys) { y.st.unm == [] }

  /** A mount of the live namespace that umount(2) or rmdir can name. */
  ghost predicate Victim(L: Layout, y: Sys, m: Mnt) {
    && Idle(y) && y.alive && y.users > 0
    && m in L.ids && m in y.st.mt && m != L.root && y.st.mt[m].ns && y.st.mt[m].attached
  }

  /** umount(2) with MNT_DETACH. */
  ghost predicate LazyUmount(L: Layout, y: Sys, z: Sys, m: Mnt)
    requires L.Valid() && y.st.mt.Keys == L.ids
  {
    && Victim(L, y, m) && !y.st.mt[m].locked
    && z == y.(st := UmountTree(L, y.st, m, How(false, false)))
  }

  /** umount(2) without MNT_DETACH, which propagate_mount_busy() lets through for an
      unheld leaf only. */
  ghost predicate SyncUmount(L: Layout, y: Sys, z: Sys, m: Mnt)
    requires L.Valid() && y.st.mt.Keys == L.ids
  {
    && Victim(L, y, m) && !y.st.mt[m].locked
    && Kids(y.st.mt, m) == {} && y.st.mt[m].count == 1
    && !(L.pinBusy && exists s :: s in y.st.sbs && y.st.sbs[s].active > 0 && y.st.sbs[s].pin == m)
    && z == y.(st := UmountTree(L, y.st, m, How(true, false)))
  }

  /** rmdir of the mountpoint: __detach_mounts(). */
  ghost predicate DetachMounts(L: Layout, y: Sys, z: Sys, m: Mnt)
    requires L.Valid() && y.st.mt.Keys == L.ids
  {
    && Victim(L, y, m)
    && z == y.(st := UmountTree(L, y.st, m, How(false, true)))
  }

  /** One task fewer uses the namespace. */
  ghost predicate Leave(y: Sys, z: Sys) {
    y.users > 0 && z == y.(users := y.users - 1)
  }

  /** put_mnt_ns() with no task left. */
  ghost predicate PutMntNs(L: Layout, y: Sys, z: Sys)
    requires L.Valid() && y.st.mt.Keys == L.ids
  {
    && y.alive && y.users == 0 && Idle(y)
    && z == y.(alive := false, st := UmountTree(L, y.st, L.root, How(false, !L.nsDisconnect)))
  }

  /** namespace_unlock() puts the first mount of its list. */
  ghost predicate NsUnlockPut(L: Layout, y: Sys, z: Sys) {
    && y.st.unm != [] && y.st.unm[0] in y.st.mt
    && z == y.(st := Put(L, y.st.(unm := y.st.unm[1..]), y.st.unm[0]))
  }

  /** Somebody outside gives up one of its references to m. */
  ghost predicate Close(L: Layout, y: Sys, z: Sys, m: Mnt) {
    && m in y.ext && m in y.st.mt && y.ext[m] > 0
    && z == y.(ext := y.ext[m := y.ext[m] - 1], st := Put(L, y.st, m))
  }

  /** The fields cleanup_mnt() follows point at things that exist. */
  ghost predicate CleanReady(L: Layout, st: State, m: Mnt) {
    && Ready(L, st) && m in L.ids && st.mt[m].stuck <= L.ids
    && (st.mt[m].release ==> st.mt[m].oldsb in L.sbIds)
    && (st.mt[m].sb != NULL_SB ==> st.mt[m].sb in L.sbIds)
  }

  /** A queued cleanup_mnt() runs. */
  ghost predicate CleanupMnt(L: Layout, y: Sys, z: Sys, m: Mnt) {
    && m in y.st.cleanq && CleanReady(L, y.st, m)
    && z == y.(st := Cleanup(L, y.st, m))
  }

  ghost predicate Settled(L: Layout, y: Sys) {
    && !y.alive && y.users == 0 && y.st.unm == [] && y.st.cleanq == {}
    && forall m :: m in L.ids ==> m in y.ext && y.ext[m] == 0
  }

  /** The superblocks whose file is on m, the mounts on s, the superblocks whose
      file lives on s. */
  ghost function PinsOn(L: Layout, m: Mnt): (r: set<SbId>)
    requires L.Valid()
  {
    set s | s in L.sbIds && L.pin[s] == m
  }

  ghost function MountsOn(L: Layout, s: SbId): (r: set<Mnt>)
    requires L.Valid()
  {
    set m | m in L.ids && L.sb[m] == s
  }

  ghost function FilesOn(L: Layout, s: SbId): (r: set<SbId>)
    requires L.Valid()
  {
    set t | t in L.sbIds && L.pin[t] != NO_MNT && L.sb[L.pin[t]] == s
  }

  ghost function InitMnt(L: Layout, m: Mnt): (r: Mount)
    requires L.Valid() && m in L.ids
  {
    Mount(L.parent[m], true, false, true, 1 + L.ext[m] + (if L.clone then 0 else |PinsOn(L, m)|),
          false, false, false, L.sb[m], NULL_SB, m in L.locked, {}, false)
  }

  ghost function InitSb(L: Layout, s: SbId): (r: Super)
    requires L.Valid() && s in L.sbIds
  {
    Super(|MountsOn(L, s)| + (if L.clone then |FilesOn(L, s)| else 0), L.pin[s])
  }

  ghost predicate Init(L: Layout, y: Sys) {
    && L.Valid()
    && y.st.mt == (map m | m in L.ids :: InitMnt(L, m))
    && y.st.sbs == (map s | s in L.sbIds :: InitSb(L, s))
    && y.ext == L.ext && y.users == L.users && y.alive && y.st.unm == [] && y.st.cleanq == {}
  }

  ghost predicate Next(L: Layout, y: Sys, z: Sys)
    requires L.Valid() && y.st.mt.Keys == L.ids
  {
    || (exists m :: m in L.ids && (
          || LazyUmount(L, y, z, m) || SyncUmount(L, y, z, m) || DetachMounts(L, y, z, m)
          || Close(L, y, z, m) || CleanupMnt(L, y, z, m)))
    || Leave(y, z) || PutMntNs(L, y, z) || NsUnlockPut(L, y, z)
    || (Settled(L, y) && z == y)
  }

  /** A run: it starts in an initial state and every step is an action. */
  ghost predicate Run(L: Layout, tr: seq<Sys>) {
    && |tr| > 0 && Init(L, tr[0])
    && forall i, j :: 0 <= i < j < |tr| && j == i + 1 ==> tr[i].st.mt.Keys == L.ids && Next(L, tr[i], tr[j])
  }
}
