/** The mount table and its propagation graph (kernel/mount/tla/MountTree.tla):
    peer rings, slave lists, and the iterator propagation_next() over them,
    against the declarative set of receivers. */
module MountTree {
  import opened Finite

  type Mnt = nat
  type Dentry = nat
  const NO_MNT: Mnt := 0

  /** The struct mount fields the propagation code reads; a table holds the live
      mounts.  ns is zero for a mount in no namespace (IS_MNT_NEW()). */
  datatype Mount = Mount(
    parent: Mnt, mp: Dentry, root: Dentry, hashed: bool, children: seq<Mnt>, over: Mnt,
    ns: nat, gid: nat, shared: bool, master: Mnt, npeer: Mnt, slaves: seq<Mnt>, locked: bool)

  type Table = map<Mnt, Mount>

  // ---- the propagation graph, operationally -----------------------------------------

  ghost predicate Distinct(s: seq<Mnt>) { forall i, j :: 0 <= i < j < |s| ==> s[i] != s[j] }

  /** r is the peer ring of r[0], following mnt_share. */
  ghost predicate IsRing(mt: Table, r: seq<Mnt>) {
    && |r| > 0 && Distinct(r)
    && (forall i :: 0 <= i < |r| ==> r[i] in mt)
    && (forall i, j ::
          0 <= i < |r| && 0 <= j < |r| && (j == i + 1 || (i == |r| - 1 && j == 0)) ==> mt[r[i]].npeer == r[j])
  }

  /** Where m sits on a list. */
  function IndexOf(s: seq<Mnt>, m: Mnt): (i: nat)
    requires m in s
    ensures i < |s| && s[i] == m
  {
    if s[0] == m then 0 else 1 + IndexOf(s[1..], m)
  }

  /** next_slave(): the entry after m on its master's list, NO_MNT at the end. */
  ghost function NextSlave(mt: Table, m: Mnt): (n: Mnt)
    requires m in mt
  {
    var k := mt[m].master;
    if k !in mt || m !in mt[k].slaves then NO_MNT else
      var i := IndexOf(mt[k].slaves, m);
      if i + 1 < |mt[k].slaves| then mt[k].slaves[i + 1] else NO_MNT
  }

  /** Master chains are acyclic: depth is the length of every mount's chain. */
  ghost predicate MasterDepth(mt: Table, depth: map<Mnt, nat>) {
    && depth.Keys == mt.Keys
    && forall m {:trigger mt[m].master} :: m in mt ==>
         if mt[m].master == NO_MNT then depth[m] == 0
         else mt[m].master in mt && depth[m] == depth[mt[m].master] + 1
  }

  /** __propagation_next(m, origin). */
  ghost function PropNextUp(mt: Table, depth: map<Mnt, nat>, m: Mnt, origin: Mnt): (n: Mnt)
    requires MasterDepth(mt, depth) && m in mt && origin in mt
    decreases depth[m]
  {
    if mt[m].master == mt[origin].master then (if mt[m].npeer == origin then NO_MNT else mt[m].npeer)
    else if NextSlave(mt, m) != NO_MNT then NextSlave(mt, m)
    else if mt[m].master == NO_MNT then NO_MNT
    else PropNextUp(mt, depth, mt[m].master, origin)
  }

  /** propagation_next(m, origin). */
  ghost function PropagationNext(mt: Table, depth: map<Mnt, nat>, m: Mnt, origin: Mnt): (n: Mnt)
    requires MasterDepth(mt, depth) && m in mt && origin in mt
  {
    if mt[m].ns != 0 && mt[m].slaves != [] then mt[m].slaves[0] else PropNextUp(mt, depth, m, origin)
  }

  /** w is what iterating propagation_next() from q to the end yields. */
  ghost predicate IsWalk(mt: Table, depth: map<Mnt, nat>, origin: Mnt, q: Mnt, w: seq<Mnt>)
    requires MasterDepth(mt, depth) && origin in mt
    decreases |w|
  {
    if q == NO_MNT then w == []
    else q in mt && |w| > 0 && w[0] == q && IsWalk(mt, depth, origin, PropagationNext(mt, depth, q, origin), w[1..])
  }

  // ---- the propagation graph, declaratively --------------------------------------------

  ghost function PeerGroup(mt: Table, m: Mnt): (r: set<Mnt>)
    requires m in mt
  {
    if mt[m].gid == 0 then {m} else set x | x in mt && mt[x].gid == mt[m].gid
  }

  /** m sends to x: x is a peer of m, or a slave of a peer of m. */
  ghost predicate Sends(mt: Table, m: Mnt, x: Mnt)
    requires m in mt && x in mt
  {
    x in PeerGroup(mt, m) || mt[x].master in PeerGroup(mt, m)
  }

  ghost function RecvClosure(mt: Table, S: set<Mnt>): (r: set<Mnt>)
    requires S <= mt.Keys
    ensures S <= r <= mt.Keys
    decreases |mt.Keys - S|
  {
    var N := S + (set x | x in mt && exists m :: m in S && Sends(mt, m, x));
    if N == S then S else
      Grows(mt.Keys, S, N);
      RecvClosure(mt, N)
  }

  /** Everybody a mount event on m reaches (sharedsubtree.rst, section 5a). */
  ghost function RecvSet(mt: Table, m: Mnt): (r: set<Mnt>)
    requires m in mt
  {
    RecvClosure(mt, {m}) - {m}
  }

  // ---- structural invariants --------------------------------------------------------------

  /** The list of m holds each of its slaves once and nobody else. */
  ghost predicate SlavesOK(mt: Table, m: Mnt)
    requires m in mt
  {
    && Distinct(mt[m].slaves)
    && (forall i :: 0 <= i < |mt[m].slaves| ==> mt[m].slaves[i] in mt && mt[mt[m].slaves[i]].master == m)
    && (forall n :: n in mt && mt[n].master == m ==> n in mt[m].slaves)
  }

  /** Following the ring from m meets its group, all of it under one master. */
  ghost predicate PeersOK(mt: Table, m: Mnt)
    requires m in mt
  {
    && (exists r :: IsRing(mt, r) && r[0] == m && forall x :: x in r <==> x in PeerGroup(mt, m))
    && (forall x :: x in PeerGroup(mt, m) ==> mt[x].master == mt[m].master)
  }

  ghost predicate GraphOK(mt: Table) {
    && NO_MNT !in mt
    && (forall m {:trigger SlavesOK(mt, m)} :: m in mt ==> SlavesOK(mt, m))
    && (forall m {:trigger PeersOK(mt, m)} :: m in mt ==> PeersOK(mt, m))
  }

  /** Every mount that has slaves is in a namespace; one that is unmounted or not yet
      attached may still be about if it has none. */
  ghost predicate SendersInNs(mt: Table) {
    forall m {:trigger mt[m].slaves} {:trigger mt[m].ns} :: m in mt && mt[m].slaves != [] ==> mt[m].ns != 0
  }
}
