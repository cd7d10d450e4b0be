/** propagate_umount() (kernel/mount/tla/Propagation.tla): gather the cognates of
    the mounts being unmounted, trim the ones that would shift a survivor, keep
    the locked ones that would be revealed, commit the rest; and the declarative
    victim set it must produce (propagate_umount.txt).

    The tree and the propagation graph do not change while it runs.  What it
    writes is T_UMOUNT_CANDIDATE, T_MARKED and MNT_UMOUNT, kept here as sets; a
    mount taken out of its parent's mnt_mounts list is exactly one with
    MNT_UMOUNT set. */
module PropUmount {
  import opened Finite
  import opened MountTree
  import opened PropIterator

  // ---- the tree -----------------------------------------------------------------------

  /** Parent chains are acyclic. */
  ghost predicate TreeDepth(mt: Table, td: map<Mnt, nat>) {
    && td.Keys == mt.Keys
    && forall m {:trigger mt[m].parent} :: m in mt ==>
         if mt[m].parent == NO_MNT then td[m] == 0 && !mt[m].hashed
         else mt[m].parent in mt && td[m] == td[mt[m].parent] + 1
  }

  /** c is attached below p. */
  ghost predicate IsChild(mt: Table, p: Mnt, c: Mnt) { c in mt && mt[c].parent == p && mt[c].hashed }

  /** What hangs off p is on its list, once, and nothing else is; whatever covers its
      root is its overmount. */
  ghost predicate ChildrenOK(mt: Table, p: Mnt)
    requires p in mt
  {
    && Distinct(mt[p].children)
    && (forall c {:trigger c in mt[p].children} {:trigger IsChild(mt, p, c)} ::
          c in mt[p].children <==> IsChild(mt, p, c))
    && mt[p].over == Lookup(mt, p, mt[p].root)
  }

  /** No place carries two mounts. */
  ghost predicate OnePerPlace(mt: Table) {
    forall a, b ::
      && a in mt && b in mt && mt[a].hashed && mt[b].hashed
      && mt[a].parent == mt[b].parent && mt[a].mp == mt[b].mp
      ==> a == b
  }

  ghost predicate TreeOK(mt: Table) {
    OnePerPlace(mt) && forall p {:trigger ChildrenOK(mt, p)} :: p in mt ==> ChildrenOK(mt, p)
  }

  ghost predicate At(mt: Table, q: Mnt, d: Dentry, x: Mnt) {
    x in mt && mt[x].hashed && mt[x].parent == q && mt[x].mp == d
  }

  /** __lookup_mnt(): the hashed mount attached at (q, d). */
  ghost function Lookup(mt: Table, q: Mnt, d: Dentry): (x: Mnt)
    ensures x != NO_MNT ==> At(mt, q, d, x)
  {
    if exists x: Mnt :: x != NO_MNT && At(mt, q, d, x) then var x: Mnt :| x != NO_MNT && At(mt, q, d, x); x else NO_MNT
  }

  /** A well-formed table with its depth witnesses. */
  datatype World = World(mt: Table, depth: map<Mnt, nat>, D: nat, td: map<Mnt, nat>) {
    ghost predicate Deep() { TreeDepth(mt, td) && NO_MNT !in mt }
    ghost predicate Tree() { Deep() && TreeOK(mt) }
    ghost predicate Valid() { Bounded(mt, depth, D) && SendersInNs(mt) && Tree() }
  }

  /** x is a or attached somewhere below a. */
  ghost predicate Inside(W: World, x: Mnt, a: Mnt)
    requires W.Tree() && x in W.mt
    decreases W.td[x]
  {
    x == a || (W.mt[x].hashed && Inside(W, W.mt[x].parent, a))
  }

  ghost function Subtree(W: World, a: Mnt): (r: set<Mnt>)
    requires W.Tree()
  {
    set x | x in W.mt && Inside(W, x, a)
  }

  // ---- the declarative victim set ---------------------------------------------------------

  /** c is mounted where m's mount event arrives. */
  ghost predicate Cognate(mt: Table, m: Mnt, c: Mnt) {
    m in mt && mt[m].parent in mt && exists q :: q in RecvSet(mt, mt[m].parent) && Lookup(mt, q, mt[m].mp) == c
  }

  /** The cognates of a set. */
  ghost function Cognates(mt: Table, U: set<Mnt>): (r: set<Mnt>) {
    set c | c in mt && c !in U && exists m :: m in U && Cognate(mt, m, c)
  }

  /** A child not on the root. */
  ghost predicate StrictKid(mt: Table, x: Mnt, c: Mnt) {
    x in mt && c in mt[x].children && c in mt && mt[c].mp != mt[x].root
  }

  /** Something below x stays. */
  ghost predicate Leaky(W: World, T: set<Mnt>, x: Mnt)
    requires W.Tree()
  {
    Subtree(W, x) - T != {}
  }

  /** x cannot go: something strictly inside it stays. */
  ghost predicate Forbidden(W: World, T: set<Mnt>, x: Mnt)
    requires W.Tree()
  {
    exists c {:trigger StrictKid(W.mt, x, c)} :: StrictKid(W.mt, x, c) && Leaky(W, T, c)
  }

  /** The forbidden ones go, then those forbidden now, and so on. */
  ghost function MaxNonShifting(W: World, T: set<Mnt>): (r: set<Mnt>)
    requires W.Tree()
    decreases |T|
  {
    var F := set x | x in T && Forbidden(W, T, x);
    if F == {} then T else
      CardSplit(T, F);
      MaxNonShifting(W, T - F)
  }

  /** Unmounting x would show what its locked mount hides. */
  ghost predicate Revealing(mt: Table, T: set<Mnt>, x: Mnt) { x in mt && mt[x].locked && mt[x].parent !in T }

  ghost function MaxNonRevealing(mt: Table, T: set<Mnt>): (r: set<Mnt>)
    decreases |T|
  {
    var F := set x | x in T && Revealing(mt, T, x);
    if F == {} then T else
      CardSplit(T, F);
      MaxNonRevealing(mt, T - F)
  }

  lemma {:induction false} CardSplit(T: set<Mnt>, F: set<Mnt>)
    requires F <= T && F != {}
    ensures |T - F| < |T|
  {
    assert T == (T - F) + F;
  }

  // ---- gather_candidates() --------------------------------------------------------------

  /** The flags propagate_umount() writes, the candidate list and the list of
      committed victims. */
  datatype Run = Run(cand: set<Mnt>, marked: set<Mnt>, umount: set<Mnt>, cands: seq<Mnt>, tou: seq<Mnt>)

  /** How much of the walk is left at q. */
  ghost function Left(W: World, r: seq<Mnt>, q: Mnt): (w: seq<Mnt>)
    requires W.Valid() && OriginRing(W.mt, W.depth, r) && q in W.mt && UnderAny(W.mt, W.depth, r, q)
  {
    Below(W.mt, W.depth, W.D, q) + Rest(W.mt, W.depth, W.D, r, q)
  }

  /** q is a place of the walk from r[0]. */
  ghost predicate OnWalk(W: World, r: seq<Mnt>, q: Mnt)
    requires W.Valid() && OriginRing(W.mt, W.depth, r)
  {
    q == NO_MNT || (q in W.mt && UnderAny(W.mt, W.depth, r, q))
  }

  ghost predicate Peers(mt: Table, a: Mnt, b: Mnt)
    requires a in mt && b in mt
  {
    mt[a].gid == mt[b].gid && mt[a].gid != 0
  }

  /** skip_propagation_subtree(): past q's slave tree, then past q's peers and theirs. */
  ghost function SkipPeersOf(W: World, r: seq<Mnt>, q: Mnt, p: Mnt): (n: Mnt)
    requires W.Valid() && OriginRing(W.mt, W.depth, r) && q in W.mt && OnWalk(W, r, p)
    ensures OnWalk(W, r, n)
    ensures n != NO_MNT ==> p != NO_MNT && |Left(W, r, n)| <= |Left(W, r, p)|
    decreases if p == NO_MNT then 0 else 1 + |Left(W, r, p)|
  {
    if p != NO_MNT && Peers(W.mt, q, p) then
      UpShorter(W, r, p);
      SkipPeersOf(W, r, q, PropNextUp(W.mt, W.depth, p, r[0]))
    else p
  }

  ghost function SkipPropagationSubtree(W: World, r: seq<Mnt>, q: Mnt): (n: Mnt)
    requires W.Valid() && OriginRing(W.mt, W.depth, r) && q in W.mt && UnderAny(W.mt, W.depth, r, q)
    ensures OnWalk(W, r, n) && (n != NO_MNT ==> |Left(W, r, n)| < |Left(W, r, q)|)
  {
    UpShorter(W, r, q);
    SkipPeersOf(W, r, q, PropNextUp(W.mt, W.depth, q, r[0]))
  }

  lemma {:induction false} UpShorter(W: World, r: seq<Mnt>, q: Mnt)
    requires W.Valid() && OriginRing(W.mt, W.depth, r) && q in W.mt && UnderAny(W.mt, W.depth, r, q)
    ensures var n := PropNextUp(W.mt, W.depth, q, r[0]);
            OnWalk(W, r, n) && (n != NO_MNT ==> |Left(W, r, n)| < |Left(W, r, q)|)
  {
    hide Below, Rest, UnderAny, PropNextUp, GraphOK, TreeOK, TreeDepth;
    UpLeads(W.mt, W.depth, W.D, r, q);
  }

  lemma {:induction false} NextShorter(W: World, r: seq<Mnt>, q: Mnt)
    requires W.Valid() && OriginRing(W.mt, W.depth, r) && q in W.mt && UnderAny(W.mt, W.depth, r, q)
    ensures var n := PropagationNext(W.mt, W.depth, q, r[0]);
            OnWalk(W, r, n) && (n != NO_MNT ==> |Left(W, r, n)| < |Left(W, r, q)|)
  {
    hide Below, Rest, UnderAny, PropagationNext, GraphOK, TreeOK, TreeDepth;
    NextLeads(W.mt, W.depth, W.D, r, q);
  }

  /** One walk of gather_candidates() over the receivers: whatever is mounted on one of
      them at d becomes a candidate; meeting one that is a
      candidate already, the walk skips what an earlier walk did. */
  ghost function GatherWalk(W: World, r: seq<Mnt>, st: Run, q: Mnt, d: Dentry): (z: Run)
    requires W.Valid() && OriginRing(W.mt, W.depth, r) && OnWalk(W, r, q)
    decreases if q == NO_MNT then 0 else 1 + |Left(W, r, q)|
  {
    if q == NO_MNT then st else
      NextShorter(W, r, q);
      var child := Lookup(W.mt, q, d);
      if child == NO_MNT then GatherWalk(W, r, st, PropagationNext(W.mt, W.depth, q, r[0]), d)
      else if child in st.cand then GatherWalk(W, r, st, SkipPropagationSubtree(W, r, q), d)
      else
        var st1 := st.(cand := st.cand + {child}, cands := if child in st.umount then st.cands else [child] + st.cands);
        GatherWalk(W, r, st1, PropagationNext(W.mt, W.depth, q, r[0]), d)
  }

  /** The ring of p, following mnt_share. */
  ghost function RingOf(W: World, p: Mnt): (r: seq<Mnt>)
    requires W.Valid() && p in W.mt
    ensures OriginRing(W.mt, W.depth, r) && r[0] == p
  {
    assert exists r :: OriginRing(W.mt, W.depth, r) && r[0] == p by { var r := RingExists(W.mt, W.depth, p); }
    var r :| OriginRing(W.mt, W.depth, r) && r[0] == p;
    r
  }

  /** gather_candidates(): one walk per mount of s that no earlier walk met. */
  ghost function GatherLoop(W: World, st: Run, s: seq<Mnt>): (z: Run)
    requires W.Valid() && forall i :: 0 <= i < |s| ==> s[i] in W.mt && W.mt[s[i]].hashed
    decreases |s|
  {
    if s == [] then st
    else if s[0] in st.cand then GatherLoop(W, st, s[1..])
    else
      var p := W.mt[s[0]].parent;
      var r := RingOf(W, p);
      NextShorter(W, r, p);
      var st1 := GatherWalk(W, r, st.(cand := st.cand + {s[0]}), PropagationNext(W.mt, W.depth, p, p), W.mt[s[0]].mp);
      GatherLoop(W, st1, s[1..])
  }

  ghost function GatherCandidates(W: World, st: Run, s: seq<Mnt>): (z: Run)
    requires W.Valid() && forall i :: 0 <= i < |s| ==> s[i] in W.mt && W.mt[s[i]].hashed
  {
    var z := GatherLoop(W, st, s);
    z.(cand := z.cand - (set x | x in s))
  }

  // ---- trim_one(), trim_ancestors() -------------------------------------------------------

  /** The children still on the list: not unmounted. */
  ghost function Kids(mt: Table, st: Run, m: Mnt): (r: set<Mnt>)
    requires m in mt
  {
    set c | c in mt[m].children && c !in st.umount
  }

  ghost function TrimAncestors(W: World, st: Run, m: Mnt): (z: Run)
    requires W.Tree() && m in W.mt
    decreases W.td[m]
  {
    var p := W.mt[m].parent;
    if p !in st.cand || p !in W.mt then st
    else if m in st.marked then st
    else
      var st1 := st.(marked := st.marked + {m});
      var st2 := if m != W.mt[p].over then st1.(cand := st1.cand - {p}) else st1;
      TrimAncestors(W, st2, p)
  }

  ghost function SeqDel(s: seq<Mnt>, x: Mnt): (r: seq<Mnt>)
    ensures forall y :: y in r <==> y in s && y != x
    ensures |r| <= |s| && (x in s ==> |r| < |s|)
  {
    if s == [] then [] else if s[0] == x then SeqDel(s[1..], x) else [s[0]] + SeqDel(s[1..], x)
  }

  /** remove_from_candidate_list() and off the list. */
  ghost function Drop(st: Run, m: Mnt): (z: Run) {
    st.(marked := st.marked - {m}, cand := st.cand - {m}, cands := SeqDel(st.cands, m))
  }

  /** umount_one(). */
  ghost function UmountOne(st: Run, m: Mnt): (z: Run) {
    st.(umount := st.umount + {m}, tou := st.tou + [m])
  }

  ghost function TrimOne(W: World, st: Run, m: Mnt): (z: Run)
    requires W.Tree() && m in W.mt
  {
    if m !in st.cand then Drop(st, m)
    else
      var nonc := Kids(W.mt, st, m) - st.cand;
      var st1 := if nonc != {} then TrimAncestors(W, st, m) else st;
      if nonc - {W.mt[m].over} != {} then Drop(st1, m)
      else if nonc == {} && !W.mt[m].locked && Kids(W.mt, st, m) == {} then UmountOne(Drop(st1, m), m)
      else st1
  }

  ghost function TrimLoop(W: World, st: Run, s: seq<Mnt>): (z: Run)
    requires W.Tree() && forall i :: 0 <= i < |s| ==> s[i] in W.mt
    decreases |s|
  {
    if s == [] then st else TrimLoop(W, TrimOne(W, st, s[0]), s[1..])
  }

  // ---- handle_locked() -----------------------------------------------------------------------

  datatype Ascent = Ascent(st: Run, p: Mnt, cutoff: Mnt)

  /** Take the chain of candidates from p up off the list; cutoff is the parent of
      the highest one that is not locked. */
  ghost function HlAscend(W: World, st: Run, p: Mnt, cutoff: Mnt): (a: Ascent)
    requires W.Tree()
    ensures |a.st.cands| <= |st.cands|
    ensures p in st.cand && p in W.mt && p in st.cands ==> |a.st.cands| < |st.cands|
    decreases if p in W.mt then W.td[p] + 1 else 0
  {
    if p !in st.cand || p !in W.mt then Ascent(st, p, cutoff)
    else HlAscend(W, Drop(st, p), W.mt[p].parent, if !W.mt[p].locked then W.mt[p].parent else cutoff)
  }

  /** Commit m and what is above it, up to the cutoff. */
  ghost function HlCommit(W: World, st: Run, m: Mnt, cutoff: Mnt): (z: Run)
    requires W.Tree()
    ensures z.cands == st.cands
    decreases if m in W.mt then W.td[m] + 1 else 0
  {
    if m == cutoff || m !in W.mt then st else HlCommit(W, UmountOne(st, m), W.mt[m].parent, cutoff)
  }

  ghost function HandleLocked(W: World, st: Run, m: Mnt): (z: Run)
    requires W.Tree() && m in W.mt && m in st.cands
    ensures |z.cands| < |st.cands|
  {
    if m !in st.cand then Drop(st, m)
    else
      var a := HlAscend(W, st, m, m);
      HlCommit(W, a.st, m, if a.p in a.st.umount then a.p else a.cutoff)
  }

  ghost function LockedLoop(W: World, st: Run): (z: Run)
    requires W.Tree() && forall x :: x in st.cands ==> x in W.mt
    decreases |st.cands|
  {
    if st.cands == [] then st else
      LockedCands(W, st, st.cands[0]);
      LockedLoop(W, HandleLocked(W, st, st.cands[0]))
  }

  /** The candidate list only loses entries. */
  lemma {:induction false} LockedCands(W: World, st: Run, m: Mnt)
    requires W.Tree() && m in W.mt && m in st.cands && forall x :: x in st.cands ==> x in W.mt
    ensures forall x :: x in HandleLocked(W, st, m).cands ==> x in W.mt
  {
    if m in st.cand { AscendCands(W, st, m, m); }
  }

  lemma {:induction false} AscendCands(W: World, st: Run, p: Mnt, cutoff: Mnt)
    requires W.Tree() && forall x :: x in st.cands ==> x in W.mt
    ensures forall x :: x in HlAscend(W, st, p, cutoff).st.cands ==> x in W.mt
    decreases if p in W.mt then W.td[p] + 1 else 0
  {
    hide TreeOK;
    if p in st.cand && p in W.mt {
      AscendCands(W, Drop(st, p), W.mt[p].parent, if !W.mt[p].locked then W.mt[p].parent else cutoff);
    }
  }
}
