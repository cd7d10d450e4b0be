/** bulk_make_private() (kernel/mount/tla/Propagation.tla): take a set of victims
    out of the propagation graph, handing their slaves to a surviving peer, or
    to the nearest surviving mount up the master chain. */
module PropPrivate {
  import opened Finite
  import opened MountTree
  import opened PropUmount
  import opened PropTrim
  import opened PropReparent

  /** The graph before, with the victims T. */
  datatype Graph = Graph(mt: Table, depth: map<Mnt, nat>, T: set<Mnt>) {
    ghost predicate Valid() {
      && MasterDepth(mt, depth) && GraphOK(mt) && T <= mt.Keys
      && forall x {:trigger mt[x].shared} :: x in mt ==> (mt[x].shared <==> mt[x].gid != 0)
    }
  }

  // ---- where the slaves of a victim may go ----------------------------------------------------

  /** A surviving peer if any, else what its master's slaves get. */
  ghost function Dest(G: Graph, v: Mnt): (r: set<Mnt>)
    requires MasterDepth(G.mt, G.depth) && v in G.mt
    decreases G.depth[v]
  {
    var surv := PeerGroup(G.mt, v) - G.T;
    if surv != {} then surv
    else if G.mt[v].master == NO_MNT then {NO_MNT}
    else if G.mt[v].master in G.T then Dest(G, G.mt[v].master)
    else {G.mt[v].master}
  }

  lemma {:induction false} PeerDepth(G: Graph, v: Mnt, p: Mnt)
    requires G.Valid() && v in G.mt && p in PeerGroup(G.mt, v)
    ensures p in G.mt && G.mt[p].master == G.mt[v].master && G.depth[p] == G.depth[v]
    ensures PeerGroup(G.mt, p) == PeerGroup(G.mt, v)
  {
    hide SlavesOK;
    assert PeersOK(G.mt, v);
  }

  /** A destination survives, no deeper than the victim. */
  lemma {:induction false} DestSurvives(G: Graph, v: Mnt, d: Mnt)
    requires G.Valid() && v in G.mt && d in Dest(G, v)
    ensures d !in G.T && (d != NO_MNT ==> d in G.mt && G.depth[d] <= G.depth[v])
    decreases G.depth[v]
  {
    hide SlavesOK, PeersOK, PeerGroup;
    var surv := PeerGroup(G.mt, v) - G.T;
    if surv != {} { PeerDepth(G, v, d); }
    else if G.mt[v].master != NO_MNT && G.mt[v].master in G.T { DestSurvives(G, G.mt[v].master, d); }
  }

  /** Peers have the same destinations. */
  lemma {:induction false} PeerDest(G: Graph, v: Mnt, p: Mnt)
    requires G.Valid() && v in G.mt && p in PeerGroup(G.mt, v)
    ensures p in G.mt && Dest(G, p) == Dest(G, v)
  {
    hide GraphOK, PeerGroup;
    PeerDepth(G, v, p);
  }

  // ---- rings ---------------------------------------------------------------------------------

  /** A ring can be followed from any of its members. */
  lemma {:induction false} Rotate(mt: Table, r: seq<Mnt>, k: nat) returns (q: seq<Mnt>)
    requires IsRing(mt, r) && k < |r|
    ensures IsRing(mt, q) && q[0] == r[k] && forall x {:trigger x in q} :: x in q <==> x in r
    decreases k
  {
    if k == 0 {
      q := r;
    } else {
      RotateOne(mt, r);
      q := Rotate(mt, r[1..] + [r[0]], k - 1);
    }
  }

  lemma {:induction false} RotateOne(mt: Table, r: seq<Mnt>)
    requires IsRing(mt, r)
    ensures IsRing(mt, r[1..] + [r[0]]) && forall x {:trigger x in r} :: x in r[1..] + [r[0]] <==> x in r
  {
    assert r == [r[0]] + r[1..];
  }

  ghost predicate RingIs(mt: Table, x: Mnt, r: seq<Mnt>)
    requires x in mt
  {
    IsRing(mt, r) && r[0] == x && forall y {:trigger y in r} :: y in r <==> y in PeerGroup(mt, x)
  }

  ghost predicate HasRing(mt: Table, x: Mnt) { x in mt && exists r {:trigger RingIs(mt, x, r)} :: RingIs(mt, x, r) }

  ghost predicate AllRings(mt: Table) { forall x {:trigger HasRing(mt, x)} :: x in mt ==> HasRing(mt, x) }

  /** The mount before m in its ring. */
  ghost function Prev(mt: Table, m: Mnt): (p: Mnt) {
    if exists x :: x in mt && mt[x].npeer == m then var x :| x in mt && mt[x].npeer == m; x else m
  }

  /** The successor in a ring is a peer, and the mount itself only when alone. */
  lemma {:induction false} NextPeer(mt: Table, x: Mnt)
    requires HasRing(mt, x)
    ensures mt[x].npeer in PeerGroup(mt, x) && mt[x].npeer in mt
    ensures mt[x].npeer == x <==> PeerGroup(mt, x) == {x}
  {
    hide PeerGroup;
    var r :| RingIs(mt, x, r);
    if |r| == 1 {
      forall y | y in PeerGroup(mt, x) ensures y == x { assert y in r; }
      assert x in r;
    } else {
      assert mt[x].npeer == r[1] && r[1] in r;
    }
  }

  /** A mount whose next is m comes last in m's ring. */
  lemma {:induction false} PrevIsLast(mt: Table, m: Mnt, r: seq<Mnt>, y: Mnt)
    requires m in mt && RingIs(mt, m, r) && HasRing(mt, y) && mt[y].npeer == m
    ensures y == r[|r| - 1]
  {
    NextPeer(mt, y);
    assert y in r;
    var i :| 0 <= i < |r| && r[i] == y;
    var j := if i + 1 < |r| then i + 1 else 0;
    assert mt[r[i]].npeer == r[j];
  }

  // ---- trace_transfers() ------------------------------------------------------------------------

  /** list_del_init() on the peer ring. */
  ghost function RingRemove(mt: Table, m: Mnt): (z: Table)
    requires m in mt
    ensures z.Keys == mt.Keys
  {
    var p := Prev(mt, m);
    var mt1 := if p in mt then mt[p := mt[p].(npeer := mt[m].npeer)] else mt;
    mt1[m := mt1[m].(npeer := m)]
  }

  /** hlist_del_init() off whichever slave list m is on. */
  ghost function SlaveDel(mt: Table, m: Mnt): (z: Table) {
    map x | x in mt :: mt[x].(slaves := SeqDel(mt[x].slaves, m))
  }

  /** m leaves its ring, or gives its group up if alone in it, and its master's list. */
  ghost function Sever(mt: Table, m: Mnt): (z: Table)
    requires m in mt
    ensures z.Keys == mt.Keys
  {
    var nxt := mt[m].npeer;
    var mt1 := if nxt != m then var t := RingRemove(mt, m); t[m := t[m].(gid := 0, master := nxt)]
               else if mt[m].shared then mt[m := mt[m].(gid := 0)] else mt;
    var mt2 := SlaveDel(mt1, m);
    mt2[m := mt2[m].(shared := false)]
  }

  /** Where trace_transfers() goes from m. */
  ghost function NextOf(mt: Table, m: Mnt): (n: Mnt)
    requires m in mt
  {
    if mt[m].npeer != m then mt[m].npeer else mt[m].master
  }

  /** One mount once M have been taken out; the masters of X are not final. */
  ghost predicate MountOK(G: Graph, M: set<Mnt>, X: set<Mnt>, mt: Table, x: Mnt)
    requires MasterDepth(G.mt, G.depth) && x in G.mt && x in mt
  {
    var a, b := G.mt[x], mt[x];
    && b == a.(gid := b.gid, shared := b.shared, master := b.master, npeer := b.npeer, slaves := Without(a.slaves, M))
    && (x !in M ==> b.gid == a.gid && b.shared == a.shared && b.master == a.master)
    && (x in M ==> b.gid == 0 && !b.shared && b.npeer == x && (x !in X ==> b.master in Dest(G, x)))
  }

  ghost predicate Severed(G: Graph, M: set<Mnt>, X: set<Mnt>, mt: Table)
  {
    && G.Valid() && mt.Keys == G.mt.Keys && M <= G.T
    && (forall x {:trigger MountOK(G, M, X, mt, x)} :: x in G.mt ==> MountOK(G, M, X, mt, x))
    && AllRings(mt)
  }

  lemma {:induction false} WithoutMore(s: seq<Mnt>, M: set<Mnt>, m: Mnt)
    ensures SeqDel(Without(s, M), m) == Without(s, M + {m})
    decreases |s|
  {
    if s != [] { WithoutMore(s[1..], M, m); }
  }

  /** What severing m changes, mount by mount. */
  lemma {:induction false} SeverAt(mt: Table, m: Mnt, x: Mnt)
    requires m in mt && x in mt && HasRing(mt, m) && (mt[m].shared <==> mt[m].gid != 0)
    ensures var a, b := mt[x], Sever(mt, m)[x];
      && b == a.(gid := b.gid, shared := b.shared, master := b.master, npeer := b.npeer, slaves := SeqDel(a.slaves, m))
      && (x != m ==> b.gid == a.gid && b.shared == a.shared && b.master == a.master)
      && (x == m ==> b.gid == 0 && !b.shared && b.npeer == m && b.master == NextOf(mt, m))
      && (x != m && (mt[m].npeer == m || x != Prev(mt, m)) ==> b.npeer == a.npeer)
      && (x != m && mt[m].npeer != m && x == Prev(mt, m) ==> b.npeer == mt[m].npeer)
  {
    hide SeqDel, HasRing, Prev;
  }

  lemma {:induction false} SeveredGroups(mt: Table, m: Mnt, x: Mnt)
    requires m in mt && x in mt && HasRing(mt, m) && (mt[m].shared <==> mt[m].gid != 0)
    ensures PeerGroup(Sever(mt, m), x) == if x == m then {m} else PeerGroup(mt, x) - {m}
  {
    hide HasRing, Sever;
    var z := Sever(mt, m);
    SeverAt(mt, m, x);
    forall y | y in mt ensures z[y].gid == if y == m then 0 else mt[y].gid { SeverAt(mt, m, y); }
  }

  lemma {:induction false} PrevIs(mt: Table, m: Mnt, r: seq<Mnt>)
    requires m in mt && AllRings(mt) && RingIs(mt, m, r)
    ensures Prev(mt, m) == r[|r| - 1] && Prev(mt, m) in mt && mt[Prev(mt, m)].npeer == m
  {
    hide PeerGroup;
    var l := r[|r| - 1];
    assert l in mt && mt[l].npeer == m;
    var p := Prev(mt, m);
    assert HasRing(mt, p);
    PrevIsLast(mt, m, r, p);
  }

  /** Out of m's ring nothing changes. */
  lemma {:induction false} RingApart(mt: Table, m: Mnt, x: Mnt, r: seq<Mnt>)
    requires m in mt && x in mt && AllRings(mt) && (mt[m].shared <==> mt[m].gid != 0) && RingIs(mt, x, r) && m !in r
    ensures RingIs(Sever(mt, m), x, r)
  {
    hide PeerGroup, Sever;
    var z := Sever(mt, m);
    assert HasRing(mt, m);
    var q :| RingIs(mt, m, q);
    PrevIs(mt, m, q);
    forall i | 0 <= i < |r| ensures z[r[i]].npeer == mt[r[i]].npeer {
      SeverAt(mt, m, r[i]);
      var j := if i + 1 < |r| then i + 1 else 0;
      assert mt[r[i]].npeer == r[j] && r[j] in r;
    }
    assert x in r;
    SeveredGroups(mt, m, x);
  }

  /** Taking m out of its ring closes the ring behind it. */
  lemma {:induction false} RingCloses(mt: Table, m: Mnt, q: seq<Mnt>)
    requires m in mt && AllRings(mt) && (mt[m].shared <==> mt[m].gid != 0) && RingIs(mt, m, q) && |q| > 1
    ensures IsRing(Sever(mt, m), q[1..])
  {
    hide PeerGroup, Sever;
    var z := Sever(mt, m);
    assert HasRing(mt, m);
    PrevIs(mt, m, q);
    var n := |q|;
    assert mt[m].npeer == q[1] && q[1] != m;
    forall i | 1 <= i < n ensures z[q[i]].npeer == q[if i == n - 1 then 1 else i + 1] {
      SeverAt(mt, m, q[i]);
      if i < n - 1 { assert mt[q[i]].npeer == q[i + 1]; }
    }
    var c := q[1..];
    forall i, j | 0 <= i < |c| && 0 <= j < |c| && (j == i + 1 || (i == |c| - 1 && j == 0))
      ensures z[c[i]].npeer == c[j]
    {
      assert c[i] == q[i + 1];
    }
  }

  lemma {:induction false} SeveredRing(mt: Table, m: Mnt, x: Mnt)
    requires m in mt && x in mt && AllRings(mt) && (mt[m].shared <==> mt[m].gid != 0)
    ensures HasRing(Sever(mt, m), x)
  {
    hide PeerGroup, Sever;
    var z := Sever(mt, m);
    assert HasRing(mt, m) && HasRing(mt, x);
    SeveredGroups(mt, m, x);
    if x == m {
      SeverAt(mt, m, m);
      assert RingIs(z, m, [m]);
    } else {
      var r :| RingIs(mt, x, r);
      if m !in r { RingApart(mt, m, x, r); assert RingIs(z, x, r); }
      else { RingWithout(mt, m, x, r); }
    }
  }

  lemma {:induction false} RingWithout(mt: Table, m: Mnt, x: Mnt, r: seq<Mnt>)
    requires m in mt && x in mt && AllRings(mt) && (mt[m].shared <==> mt[m].gid != 0) && RingIs(mt, x, r) && m in r
    requires x != m
    ensures HasRing(Sever(mt, m), x)
  {
    hide Sever;
    var z := Sever(mt, m);
    var k :| 0 <= k < |r| && r[k] == m;
    var q := Rotate(mt, r, k);
    assert x in r;
    assert HasRing(mt, m) && m in PeerGroup(mt, x);
    assert PeerGroup(mt, m) == PeerGroup(mt, x);
    hide PeerGroup;
    forall y ensures y in q <==> y in PeerGroup(mt, m) { assert y in q <==> y in r; }
    assert RingIs(mt, m, q);
    assert x in q;
    assert |q| > 1;
    RingCloses(mt, m, q);
    assert q == [m] + q[1..];
    var i :| 0 <= i < |q[1..]| && q[1..][i] == x;
    var c := Rotate(z, q[1..], i);
    SeveredGroups(mt, m, x);
    forall y ensures y in c <==> y in PeerGroup(z, x) { assert y in c <==> y in q[1..]; }
    assert RingIs(z, x, c);
  }

  lemma {:induction false} SharedNow(G: Graph, M: set<Mnt>, X: set<Mnt>, mt: Table, m: Mnt)
    requires Severed(G, M, X, mt) && m in G.mt && m !in M
    ensures mt[m].shared <==> mt[m].gid != 0
  {
    hide MasterDepth, GraphOK, AllRings, Dest;
    assert MountOK(G, M, X, mt, m);
    assert G.mt[m].shared <==> G.mt[m].gid != 0;
  }

  lemma {:induction false} SeverMount(G: Graph, M: set<Mnt>, X: set<Mnt>, mt: Table, m: Mnt, x: Mnt)
    requires Severed(G, M, X, mt) && m in G.T && m !in M && x in G.mt
    ensures MountOK(G, M + {m}, X + {m}, Sever(mt, m), x)
  {
    hide MasterDepth, GraphOK, Dest, Sever, SeqDel, Without;
    SharedNow(G, M, X, mt, m);
    assert HasRing(mt, m);
    hide AllRings;
    SeverAt(mt, m, x);
    WithoutMore(G.mt[x].slaves, M, m);
    assert MountOK(G, M, X, mt, x);
  }

  lemma {:induction false} SeverKeeps(G: Graph, M: set<Mnt>, X: set<Mnt>, mt: Table, m: Mnt)
    requires Severed(G, M, X, mt) && m in G.T && m !in M
    ensures Severed(G, M + {m}, X + {m}, Sever(mt, m))
  {
    hide MasterDepth, GraphOK, Dest, Sever, MountOK, HasRing;
    SharedNow(G, M, X, mt, m);
    var z := Sever(mt, m);
    forall x | x in G.mt ensures MountOK(G, M + {m}, X + {m}, z, x) { SeverMount(G, M, X, mt, m, x); }
    forall x | x in z ensures HasRing(z, x) { SeveredRing(mt, m, x); }
  }

  /** Severing m leaves every other master alone. */
  lemma {:induction false} SeverMasters(G: Graph, M: set<Mnt>, X: set<Mnt>, mt: Table, m: Mnt)
    requires Severed(G, M, X, mt) && m in G.T && m !in M
    ensures var z := Sever(mt, m);
            && z[m].master == NextOf(mt, m)
            && forall x {:trigger z[x]} :: x in mt && x != m ==> z[x].master == mt[x].master
  {
    hide MasterDepth, GraphOK, Dest, Sever, MountOK, HasRing;
    SharedNow(G, M, X, mt, m);
    assert HasRing(mt, m);
    SeverAt(mt, m, m);
    var z := Sever(mt, m);
    forall x | x in mt && x != m ensures z[x].master == mt[x].master { SeverAt(mt, m, x); }
  }

  /** The peers left to an unmarked mount. */
  lemma {:induction false} PeersLeft(G: Graph, M: set<Mnt>, X: set<Mnt>, mt: Table, m: Mnt)
    requires Severed(G, M, X, mt) && m in G.mt && m !in M
    ensures PeerGroup(mt, m) == PeerGroup(G.mt, m) - M
  {
    hide MasterDepth, GraphOK, Dest, HasRing;
    forall x | x in G.mt ensures mt[x].gid == if x in M then 0 else G.mt[x].gid { assert MountOK(G, M, X, mt, x); }
  }

  /** Where trace_transfers() goes next has the same destinations, or is one. */
  lemma {:induction false} NextFacts(G: Graph, M: set<Mnt>, X: set<Mnt>, mt: Table, m: Mnt)
    requires Severed(G, M, X, mt) && m in G.T && m !in M
    ensures var n := NextOf(mt, m);
      if n in G.T
      then n != m && G.depth[n] <= G.depth[m] && Dest(G, n) == Dest(G, m) && (n in M ==> G.depth[n] < G.depth[m])
      else n in Dest(G, m)
  {
    hide GraphOK, HasRing, PeerGroup, AllRings;
    var n := NextOf(mt, m);
    GraphKeys(G);
    assert MountOK(G, M, X, mt, m);
    RingOfNow(mt, m);
    PeersLeft(G, M, X, mt, m);
    NextPeer(mt, m);
    if mt[m].npeer != m {
      PeerDepth(G, m, n);
      PeerDest(G, m, n);
    } else {
      forall p | p in PeerGroup(G.mt, m) ensures p in G.T { assert p in M || p in PeerGroup(mt, m); }
      assert PeerGroup(G.mt, m) - G.T == {};
    }
  }

  lemma {:induction false} RingOfNow(mt: Table, m: Mnt)
    requires AllRings(mt) && m in mt
    ensures HasRing(mt, m)
  {
  }

  datatype Trace = Trace(mt: Table, marked: set<Mnt>, dest: Mnt)

  /** trace_transfers(): follow the links from m, severing, to the first survivor. */
  ghost function TraceTransfers(G: Graph, mt: Table, M: set<Mnt>, m: Mnt): (r: Trace)
    requires mt.Keys == G.mt.Keys && G.T <= G.mt.Keys && m in G.T && m !in M
    decreases |G.T - M|
  {
    var z, n := Sever(mt, m), NextOf(mt, m);
    if n == NO_MNT || n !in G.T then Trace(z, M + {m}, n)
    else if n in M + {m} then Trace(z, M + {m}, z[n].master)
    else
      assert |G.T - (M + {m})| < |G.T - M| by { CardDrop(G.T - M, m, G.T - (M + {m})); }
      TraceTransfers(G, z, M + {m}, n)
  }

  /** The victims the trace went through, linked by their masters. */
  ghost predicate Chained(G: Graph, mt: Table, s: seq<Mnt>, dest: Mnt)
    requires MasterDepth(G.mt, G.depth) && G.T <= G.mt.Keys && mt.Keys == G.mt.Keys
  {
    && |s| > 0 && Distinct(s) && dest !in G.T
    && (forall i {:trigger s[i]} :: 0 <= i < |s| ==> s[i] in G.T && dest in Dest(G, s[i]))
    && (forall i, j {:trigger s[i], s[j]} :: 0 <= i < |s| && j == i + 1 && j < |s| ==> mt[s[i]].master == s[j])
    && mt[s[|s| - 1]].master == dest
  }

  lemma {:induction false} ChainCons(G: Graph, mt: Table, m: Mnt, s: seq<Mnt>, dest: Mnt)
    requires MasterDepth(G.mt, G.depth) && G.T <= G.mt.Keys && mt.Keys == G.mt.Keys && Chained(G, mt, s, dest)
    requires m in G.T && m !in s && mt[m].master == s[0] && dest in Dest(G, m)
    ensures Chained(G, mt, [m] + s, dest)
  {
    hide MasterDepth, Dest;
    var t := [m] + s;
    forall i, j | 0 <= i < |t| && j == i + 1 && j < |t|
      ensures mt[t[i]].master == t[j]
    { assert i > 0 ==> t[i] == s[i - 1] && t[j] == s[j - 1]; }
  }

  /** What the trace from m does. */
  ghost predicate Traced(G: Graph, mt: Table, M: set<Mnt>, X: set<Mnt>, m: Mnt, r: Trace, s: seq<Mnt>)
    requires mt.Keys == G.mt.Keys
  {
    && M + {m} <= r.marked && Severed(G, r.marked, X + (r.marked - M), r.mt)
    && (forall x {:trigger r.mt[x]} :: x in M && x in mt ==> r.mt[x].master == mt[x].master)
    && Chained(G, r.mt, s, r.dest) && s[0] == m
    && (forall x :: x in r.marked && x !in M ==> x in s) && (forall x :: x in s ==> x in r.marked && x !in X)
  }

  lemma {:induction false} Traces(G: Graph, mt: Table, M: set<Mnt>, X: set<Mnt>, m: Mnt) returns (s: seq<Mnt>)
    requires Severed(G, M, X, mt) && m in G.T && m !in M && X <= M && forall x :: x in X ==> G.depth[x] >= G.depth[m]
    ensures Traced(G, mt, M, X, m, TraceTransfers(G, mt, M, m), s)
    decreases |G.T - M|
  {
    hide MasterDepth, GraphOK, Dest, Sever, Severed, NextOf, Traced;
    SeveredGraph(G, M, X, mt);
    var z, n := Sever(mt, m), NextOf(mt, m);
    GraphKeys(G);
    SeverKeeps(G, M, X, mt, m);
    SeverMasters(G, M, X, mt, m);
    NextFacts(G, M, X, mt, m);
    if n !in G.T {
      s := [m];
      TraceOne(G, mt, M, X, m, z, n);
    } else if n in M + {m} {
      MarkedDest(G, M + {m}, X + {m}, z, n);
      s := [m, n];
      TraceTwo(G, mt, M, X, m, z, n);
    } else {
      assert |G.T - (M + {m})| < |G.T - M| by { CardDrop(G.T - M, m, G.T - (M + {m})); }
      s := Traces(G, z, M + {m}, X + {m}, n);
      var r := TraceTransfers(G, z, M + {m}, n);
      TraceCons(G, mt, M, X, m, z, n, r, s);
      s := [m] + s;
    }
  }

  lemma {:induction false} TraceOne(G: Graph, mt: Table, M: set<Mnt>, X: set<Mnt>, m: Mnt, z: Table, n: Mnt)
    requires G.Valid() && mt.Keys == z.Keys == G.mt.Keys && m in G.T && m !in M && X <= M
    requires Severed(G, M + {m}, X + {m}, z)
    requires z[m].master == n && forall x {:trigger z[x]} :: x in mt && x != m ==> z[x].master == mt[x].master
    requires n !in G.T && n in Dest(G, m)
    ensures Traced(G, mt, M, X, m, Trace(z, M + {m}, n), [m])
  {
    hide MasterDepth, GraphOK, Dest, Severed;
    assert X + {m} == X + (M + {m} - M);
  }

  lemma {:induction false} TraceTwo(G: Graph, mt: Table, M: set<Mnt>, X: set<Mnt>, m: Mnt, z: Table, n: Mnt)
    requires G.Valid() && mt.Keys == z.Keys == G.mt.Keys && m in G.T && m !in M && X <= M
    requires Severed(G, M + {m}, X + {m}, z)
    requires z[m].master == n && forall x {:trigger z[x]} :: x in mt && x != m ==> z[x].master == mt[x].master
    requires n in G.T && n in M && n != m && n !in X && Dest(G, n) == Dest(G, m) && z[n].master in Dest(G, n)
    requires z[n].master !in G.T
    ensures Traced(G, mt, M, X, m, Trace(z, M + {m}, z[n].master), [m, n])
  {
    hide MasterDepth, GraphOK, Dest, Severed;
    assert X + {m} == X + (M + {m} - M);
  }

  lemma {:induction false} GraphKeys(G: Graph)
    requires G.Valid()
    ensures NO_MNT !in G.mt && G.depth.Keys == G.mt.Keys && NO_MNT !in G.T
  {
  }

  lemma {:induction false} MarkedDest(G: Graph, M: set<Mnt>, X: set<Mnt>, mt: Table, n: Mnt)
    requires Severed(G, M, X, mt) && n in M && n !in X
    ensures mt[n].master in Dest(G, n) && mt[n].master !in G.T
  {
    hide MasterDepth, GraphOK, Dest, AllRings;
    assert MountOK(G, M, X, mt, n);
    DestSurvives(G, n, mt[n].master);
  }

  lemma {:induction false} TraceCons(G: Graph, mt: Table, M: set<Mnt>, X: set<Mnt>, m: Mnt, z: Table, n: Mnt,
      r: Trace, s: seq<Mnt>)
    requires G.Valid() && mt.Keys == z.Keys == G.mt.Keys && m in G.T && m !in M && X <= M && n in G.T
    requires Dest(G, n) == Dest(G, m)
    requires z[m].master == n && forall x {:trigger z[x]} :: x in mt && x != m ==> z[x].master == mt[x].master
    requires Traced(G, z, M + {m}, X + {m}, n, r, s)
    ensures Traced(G, mt, M, X, m, r, [m] + s)
  {
    hide MasterDepth, GraphOK, Dest, Severed;
    assert X + {m} + (r.marked - (M + {m})) == X + (r.marked - M);
    assert r.dest in Dest(G, s[0]);
    SeveredGraph(G, r.marked, X + (r.marked - M), r.mt);
    ChainCons(G, r.mt, m, s, r.dest);
  }

  lemma {:induction false} SeveredGraph(G: Graph, M: set<Mnt>, X: set<Mnt>, mt: Table)
    requires Severed(G, M, X, mt)
    ensures mt.Keys == G.mt.Keys && G.Valid() && M <= G.T
  {
  }

  // ---- set_destinations() ------------------------------------------------------------------------

  ghost function SetMaster(mt: Table, m: Mnt, d: Mnt): (z: Table)
    requires m in mt
    ensures z.Keys == mt.Keys
  {
    mt[m := mt[m].(master := d)]
  }

  /** set_destinations(): point the chain of masters from m at the destination; s is
      that chain. */
  ghost function SetDestinations(G: Graph, mt: Table, m: Mnt, dest: Mnt, s: seq<Mnt>): (z: Table)
    requires MasterDepth(G.mt, G.depth) && G.T <= G.mt.Keys && mt.Keys == G.mt.Keys && Chained(G, mt, s, dest)
    requires s[0] == m
    decreases |s|
  {
    var nxt := mt[m].master;
    if nxt == dest then mt else
      ChainStep(G, mt, dest, s);
      SetDestinations(G, SetMaster(mt, m, dest), nxt, dest, s[1..])
  }

  lemma {:induction false} ChainStep(G: Graph, mt: Table, dest: Mnt, s: seq<Mnt>)
    requires MasterDepth(G.mt, G.depth) && G.T <= G.mt.Keys && mt.Keys == G.mt.Keys && Chained(G, mt, s, dest)
    requires mt[s[0]].master != dest
    ensures |s| > 1 && Chained(G, SetMaster(mt, s[0], dest), s[1..], dest) && s[1] == mt[s[0]].master
  {
    hide MasterDepth, Dest;
    var t, z := s[1..], SetMaster(mt, s[0], dest);
    assert s[1] == mt[s[0]].master;
    forall i, j | 0 <= i < |t| && j == i + 1 && j < |t|
      ensures z[t[i]].master == t[j]
    { assert t[i] == s[i + 1] && t[j] == s[j + 1]; }
  }

  /** Only the masters of the chain change, all to the destination. */
  lemma {:induction false} SetsDestinations(G: Graph, mt: Table, dest: Mnt, s: seq<Mnt>)
    requires MasterDepth(G.mt, G.depth) && G.T <= G.mt.Keys && mt.Keys == G.mt.Keys && Chained(G, mt, s, dest)
    ensures var z := SetDestinations(G, mt, s[0], dest, s);
      && z.Keys == mt.Keys
      && forall x {:trigger z[x]} :: x in mt ==> z[x] == if x in s then mt[x].(master := dest) else mt[x]
    decreases |s|
  {
    hide MasterDepth, Dest;
    HeadMaster(G, mt, dest, s);
    if |s| > 1 {
      ChainStep(G, mt, dest, s);
      SetsDestinations(G, SetMaster(mt, s[0], dest), dest, s[1..]);
      assert s == [s[0]] + s[1..];
    }
  }

  lemma {:induction false} HeadMaster(G: Graph, mt: Table, dest: Mnt, s: seq<Mnt>)
    requires MasterDepth(G.mt, G.depth) && G.T <= G.mt.Keys && mt.Keys == G.mt.Keys && Chained(G, mt, s, dest)
    ensures |s| > 1 ==> mt[s[0]].master == s[1] != dest
  {
    hide MasterDepth, Dest;
    if |s| > 1 { assert s[1] in G.T; }
  }

  /** Masters play no part in the rings. */
  lemma {:induction false} MasterRing(mt: Table, z: Table, x: Mnt)
    requires HasRing(mt, x) && z.Keys == mt.Keys
    requires forall y {:trigger z[y]} :: y in mt ==> z[y].npeer == mt[y].npeer && z[y].gid == mt[y].gid
    ensures HasRing(z, x)
  {
    var r :| RingIs(mt, x, r);
    assert PeerGroup(z, x) == PeerGroup(mt, x);
    hide PeerGroup;
    assert RingIs(z, x, r);
  }

  lemma {:induction false} DestinationMount(G: Graph, mt: Table, M: set<Mnt>, r: Trace, s: seq<Mnt>, z: Table, x: Mnt)
    requires G.Valid() && x in G.mt && mt.Keys == r.mt.Keys == z.Keys == G.mt.Keys
    requires MountOK(G, M, {}, mt, x) && MountOK(G, r.marked, {} + (r.marked - M), r.mt, x)
    requires z[x] == if x in s then r.mt[x].(master := r.dest) else r.mt[x]
    requires M <= r.marked && (x in M ==> r.mt[x].master == mt[x].master) && (x in r.marked && x !in M ==> x in s)
    requires x in s ==> x in r.marked && r.dest in Dest(G, x)
    ensures MountOK(G, r.marked, {}, z, x)
  {
    hide MasterDepth, GraphOK, Dest, Without;
  }

  lemma {:induction false} DestinationsKeep(G: Graph, mt: Table, M: set<Mnt>, m: Mnt, r: Trace, s: seq<Mnt>)
    requires Severed(G, M, {}, mt) && Traced(G, mt, M, {}, m, r, s)
    ensures Severed(G, r.marked, {}, SetDestinations(G, r.mt, m, r.dest, s))
  {
    hide MasterDepth, GraphOK, Dest, HasRing, MountOK, SetDestinations;
    SetsDestinations(G, r.mt, r.dest, s);
    var z := SetDestinations(G, r.mt, m, r.dest, s);
    forall x | x in G.mt ensures MountOK(G, r.marked, {}, z, x) {
      assert MountOK(G, r.marked, {} + (r.marked - M), r.mt, x);
      assert MountOK(G, M, {}, mt, x);
      DestinationMount(G, mt, M, r, s, z, x);
    }
    SameRings(G, r.mt, z, r.dest, s);
  }

  lemma {:induction false} SameRings(G: Graph, mt: Table, z: Table, dest: Mnt, s: seq<Mnt>)
    requires AllRings(mt) && z.Keys == mt.Keys
    requires forall x {:trigger z[x]} :: x in mt ==> z[x] == if x in s then mt[x].(master := dest) else mt[x]
    ensures AllRings(z)
  {
    hide HasRing;
    forall x | x in z ensures HasRing(z, x) {
      assert HasRing(mt, x);
      MasterRing(mt, z, x);
    }
  }

  // ---- the first pass -----------------------------------------------------------------------------

  datatype Bulk = Bulk(mt: Table, marked: set<Mnt>)

  ghost predicate FirstOK(G: Graph, st: Bulk) { Severed(G, st.marked, {}, st.mt) }

  lemma {:induction false} TraceExists(G: Graph, st: Bulk, m: Mnt)
    requires FirstOK(G, st) && m in G.T && m !in st.marked
    ensures st.mt.Keys == G.mt.Keys && G.Valid()
    ensures exists s :: Traced(G, st.mt, st.marked, {}, m, TraceTransfers(G, st.mt, st.marked, m), s)
  {
    hide MasterDepth, GraphOK, AllRings, MountOK, TraceTransfers, Traced;
    var s := Traces(G, st.mt, st.marked, {}, m);
  }

  lemma {:induction false} TracedFacts(G: Graph, st: Bulk, m: Mnt, r: Trace, s: seq<Mnt>)
    requires FirstOK(G, st) && m in G.T && st.mt.Keys == G.mt.Keys && Traced(G, st.mt, st.marked, {}, m, r, s)
    ensures r.mt.Keys == G.mt.Keys && G.Valid() && Chained(G, r.mt, s, r.dest) && s[0] == m
    ensures Severed(G, r.marked, {}, SetDestinations(G, r.mt, m, r.dest, s)) && st.marked + {m} <= r.marked
  {
    hide MasterDepth, GraphOK, AllRings, MountOK, Chained;
    DestinationsKeep(G, st.mt, st.marked, m, r, s);
  }

  /** One victim of the first pass. */
  ghost function FirstOne(G: Graph, st: Bulk, m: Mnt): (z: Bulk)
    requires FirstOK(G, st) && m in G.T
    ensures FirstOK(G, z) && st.marked + {m} <= z.marked
  {
    if m in st.marked then st else
      TraceExists(G, st, m);
      var r := TraceTransfers(G, st.mt, st.marked, m);
      var s :| Traced(G, st.mt, st.marked, {}, m, r, s);
      TracedFacts(G, st, m, r, s);
      Bulk(SetDestinations(G, r.mt, m, r.dest, s), r.marked)
  }

  ghost function FirstPass(G: Graph, st: Bulk, s: seq<Mnt>): (z: Bulk)
    requires FirstOK(G, st) && forall i {:trigger s[i]} :: 0 <= i < |s| ==> s[i] in G.T
    ensures FirstOK(G, z) && st.marked <= z.marked && forall x :: x in s ==> x in z.marked
    decreases |s|
  {
    if s == [] then st else
      assert s == [s[0]] + s[1..];
      FirstPass(G, FirstOne(G, st, s[0]), s[1..])
  }

  // ---- transfer_propagation(), the second pass ------------------------------------------------------

  /** m's slaves go to `to`, at the head of its list, or become masterless. */
  ghost function TransferPropagation(mt: Table, m: Mnt, to: Mnt): (z: Table)
    requires m in mt && (to == NO_MNT || to in mt)
    ensures z.Keys == mt.Keys
  {
    var s := mt[m].slaves;
    var mt1 := map x | x in mt :: if x in s then mt[x].(master := to) else mt[x];
    var mt2 := mt1[m := mt1[m].(slaves := [])];
    if to == NO_MNT || s == [] then mt2 else mt2[to := mt2[to].(slaves := s + mt2[to].slaves)]
  }

  /** A survivor's master once the victims in Q have been gone through; mt1 is the
      table after the first pass. */
  ghost function NewMaster(G: Graph, mt1: Table, Q: set<Mnt>, x: Mnt): (m: Mnt)
    requires x in G.mt && Q <= mt1.Keys
  {
    if G.mt[x].master in Q then mt1[G.mt[x].master].master else G.mt[x].master
  }

  ghost predicate SlaveOf(G: Graph, mt1: Table, Q: set<Mnt>, c: Mnt, x: Mnt)
    requires Q <= mt1.Keys
  {
    c in G.mt && c !in G.T && NewMaster(G, mt1, Q, c) == x
  }

  ghost predicate MovedOK(G: Graph, mt1: Table, Q: set<Mnt>, mt: Table, x: Mnt)
    requires x in G.mt && x in mt && x in mt1 && Q <= mt1.Keys
  {
    var a, b := mt1[x], mt[x];
    && b == a.(master := b.master, slaves := b.slaves)
    && (x in Q ==> b.master == NO_MNT && b.slaves == [])
    && (x in G.T && x !in Q ==> b.master == a.master)
    && (x !in G.T ==> b.master == NewMaster(G, mt1, Q, x))
    && (x !in Q ==>
          && Distinct(b.slaves)
          && forall c {:trigger c in b.slaves} {:trigger SlaveOf(G, mt1, Q, c, x)} ::
               c in b.slaves <==> SlaveOf(G, mt1, Q, c, x))
  }

  ghost predicate SecondOK(G: Graph, mt1: Table, Q: set<Mnt>, mt: Table) {
    && Severed(G, G.T, {}, mt1) && mt.Keys == G.mt.Keys && Q <= G.T
    && forall x {:trigger MovedOK(G, mt1, Q, mt, x)} :: x in G.mt ==> MovedOK(G, mt1, Q, mt, x)
  }

  /** The first pass hands over exactly the surviving slaves. */
  lemma {:induction false} SecondStarts(G: Graph, mt1: Table, x: Mnt)
    requires Severed(G, G.T, {}, mt1) && x in G.mt
    ensures MovedOK(G, mt1, {}, mt1, x)
  {
    hide MasterDepth, PeersOK, AllRings, Dest;
    assert MountOK(G, G.T, {}, mt1, x);
    assert SlavesOK(G.mt, x);
  }

  /** What one transfer does, mount by mount. */
  lemma {:induction false} TransferAt(mt: Table, m: Mnt, to: Mnt, x: Mnt)
    requires m in mt && (to == NO_MNT || to in mt) && x in mt && to != m && NO_MNT !in mt
    ensures var s, z := mt[m].slaves, TransferPropagation(mt, m, to);
      z[x] == mt[x].(master := if x in s then to else mt[x].master,
                     slaves := if x == m then [] else if x == to then s + mt[x].slaves else mt[x].slaves)
  {
  }

  ghost function SecondOne(mt: Table, m: Mnt): (z: Table)
    requires m in mt && (mt[m].master == NO_MNT || mt[m].master in mt)
    ensures z.Keys == mt.Keys
  {
    SetMaster(TransferPropagation(mt, m, mt[m].master), m, NO_MNT)
  }

  lemma {:induction false} SecondReady(G: Graph, mt1: Table, Q: set<Mnt>, mt: Table, m: Mnt)
    requires SecondOK(G, mt1, Q, mt) && m in G.T && m !in Q
    ensures mt[m].master == mt1[m].master && mt[m].master in Dest(G, m) && mt[m].master !in G.T
    ensures mt[m].master == NO_MNT || mt[m].master in mt
  {
    hide MasterDepth, GraphOK, AllRings, Dest;
    assert MovedOK(G, mt1, Q, mt, m);
    MarkedDest(G, G.T, {}, mt1, m);
    DestSurvives(G, m, mt[m].master);
  }

  /** Destinations of victims survive. */
  ghost predicate OutOf(G: Graph, mt1: Table) {
    forall v {:trigger mt1[v]} :: v in G.T && v in mt1 ==> mt1[v].master !in G.T
  }

  lemma {:induction false} DestinationsOut(G: Graph, mt1: Table)
    requires Severed(G, G.T, {}, mt1)
    ensures OutOf(G, mt1)
  {
    hide MasterDepth, GraphOK, AllRings, Dest, MountOK;
    forall v | v in G.T ensures mt1[v].master !in G.T { MarkedDest(G, G.T, {}, mt1, v); }
  }

  /** A victim not yet gone through has the slaves it had. */
  lemma {:induction false} VictimSlaves(G: Graph, mt1: Table, Q: set<Mnt>, mt: Table, m: Mnt, c: Mnt)
    requires Q <= mt1.Keys && mt.Keys == mt1.Keys == G.mt.Keys && Q <= G.T && m in mt && OutOf(G, mt1)
    requires MovedOK(G, mt1, Q, mt, m) && m in G.T && m !in Q
    ensures c in mt[m].slaves <==> c in G.mt && c !in G.T && G.mt[c].master == m
  {
    assert c in mt[m].slaves <==> SlaveOf(G, mt1, Q, c, m);
  }

  lemma {:induction false} SlaveMoves(G: Graph, mt1: Table, Q: set<Mnt>, m: Mnt, c: Mnt, x: Mnt)
    requires Q <= mt1.Keys && m in mt1 && m in G.T && m !in Q && x != m && mt1[m].master != m && mt1.Keys == G.mt.Keys
    ensures SlaveOf(G, mt1, Q + {m}, c, x) <==>
      SlaveOf(G, mt1, Q, c, x) || (x == mt1[m].master && c in G.mt && c !in G.T && G.mt[c].master == m)
  {
    if c in G.mt { assert G.mt[c].master in Q + {m} <==> G.mt[c].master in Q || G.mt[c].master == m; }
  }

  lemma {:induction false} SecondSlaves(G: Graph, mt1: Table, Q: set<Mnt>, mt: Table, m: Mnt, x: Mnt)
    requires Q <= mt1.Keys && m in mt1 && mt.Keys == mt1.Keys == G.mt.Keys && x in mt && Q <= G.T && NO_MNT !in mt
    requires OutOf(G, mt1)
    requires MovedOK(G, mt1, Q, mt, x) && MovedOK(G, mt1, Q, mt, m) && m in G.T && m !in Q && x !in Q && x != m
    ensures var t := (if x == mt1[m].master then mt[m].slaves else []) + mt[x].slaves;
      && Distinct(t)
      && forall c {:trigger c in t} {:trigger SlaveOf(G, mt1, Q + {m}, c, x)} ::
          c in t <==> SlaveOf(G, mt1, Q + {m}, c, x)
  {
    hide NewMaster;
    var t := (if x == mt1[m].master then mt[m].slaves else []) + mt[x].slaves;
    forall c: Mnt ensures c in t <==> SlaveOf(G, mt1, Q + {m}, c, x) {
      VictimSlaves(G, mt1, Q, mt, m, c);
      SlaveMoves(G, mt1, Q, m, c, x);
      assert c in mt[x].slaves <==> SlaveOf(G, mt1, Q, c, x);
    }
    forall c | c in mt[m].slaves ensures c !in mt[x].slaves {
      assert SlaveOf(G, mt1, Q, c, m);
      assert c in mt[x].slaves <==> SlaveOf(G, mt1, Q, c, x);
    }
    DistinctCat(mt[m].slaves, mt[x].slaves);
    assert [] + mt[x].slaves == mt[x].slaves;
  }

  lemma {:induction false} DistinctCat(a: seq<Mnt>, b: seq<Mnt>)
    requires Distinct(a) && Distinct(b) && forall c :: c in a ==> c !in b
    ensures Distinct(a + b)
  {
    var t := a + b;
    forall i, j | 0 <= i < j < |t| ensures t[i] != t[j] {
      if i < |a| <= j { assert t[i] in a && t[j] in b; }
    }
  }

  lemma {:induction false} SecondMount(G: Graph, mt1: Table, Q: set<Mnt>, mt: Table, m: Mnt, x: Mnt)
    requires Q <= mt1.Keys && m in mt1 && mt.Keys == mt1.Keys == G.mt.Keys && x in mt && Q <= G.T && NO_MNT !in mt
    requires OutOf(G, mt1)
    requires MovedOK(G, mt1, Q, mt, x) && MovedOK(G, mt1, Q, mt, m) && m in G.T && m !in Q
    requires mt[m].master == mt1[m].master && mt[m].master !in G.T && (mt[m].master == NO_MNT || mt[m].master in mt)
    ensures MovedOK(G, mt1, Q + {m}, SecondOne(mt, m), x)
  {
    hide TransferPropagation, OutOf, SlaveOf, Distinct;
    TransferAt(mt, m, mt[m].master, x);
    var z := SecondOne(mt, m);
    VictimSlaves(G, mt1, Q, mt, m, x);
    if x !in Q + {m} {
      SecondSlaves(G, mt1, Q, mt, m, x);
      var t := (if x == mt1[m].master then mt[m].slaves else []) + mt[x].slaves;
      assert z[x].slaves == t;
    }
  }

  lemma {:induction false} SecondKeeps(G: Graph, mt1: Table, Q: set<Mnt>, mt: Table, m: Mnt)
    requires SecondOK(G, mt1, Q, mt) && m in G.T && m !in Q
    ensures mt[m].master == NO_MNT || mt[m].master in mt
    ensures SecondOK(G, mt1, Q + {m}, SecondOne(mt, m))
  {
    hide MasterDepth, GraphOK, AllRings, Dest, MountOK, MovedOK, SecondOne;
    SecondReady(G, mt1, Q, mt, m);
    DestinationsOut(G, mt1);
    GraphKeys(G);
    forall x | x in G.mt ensures MovedOK(G, mt1, Q + {m}, SecondOne(mt, m), x) {
      assert MovedOK(G, mt1, Q, mt, x) && MovedOK(G, mt1, Q, mt, m);
      SecondMount(G, mt1, Q, mt, m, x);
    }
  }

  lemma {:induction false} SecondNext(G: Graph, mt1: Table, Q: set<Mnt>, mt: Table, s: seq<Mnt>)
    requires SecondOK(G, mt1, Q, mt) && Distinct(s) && s != []
    requires forall i {:trigger s[i]} :: 0 <= i < |s| ==> s[i] in G.T && s[i] !in Q
    ensures s[0] in mt && (mt[s[0]].master == NO_MNT || mt[s[0]].master in mt)
    ensures SecondOK(G, mt1, Q + {s[0]}, SecondOne(mt, s[0]))
    ensures Distinct(s[1..])
    ensures forall i {:trigger s[1..][i]} :: 0 <= i < |s[1..]| ==> s[1..][i] in G.T && s[1..][i] !in Q + {s[0]}
  {
    hide MasterDepth, GraphOK, AllRings, MountOK, MovedOK, SecondOne;
    SecondKeeps(G, mt1, Q, mt, s[0]);
  }

  /** The second pass over s; Q has been gone through. */
  ghost function SecondPass(G: Graph, mt1: Table, Q: set<Mnt>, mt: Table, s: seq<Mnt>): (z: Table)
    requires SecondOK(G, mt1, Q, mt) && Distinct(s)
    requires forall i {:trigger s[i]} :: 0 <= i < |s| ==> s[i] in G.T && s[i] !in Q
    decreases |s|
  {
    if s == [] then mt else
      SecondNext(G, mt1, Q, mt, s);
      SecondPass(G, mt1, Q + {s[0]}, SecondOne(mt, s[0]), s[1..])
  }

  lemma {:induction false} SecondEnds(G: Graph, mt1: Table, Q: set<Mnt>, mt: Table, s: seq<Mnt>)
    requires SecondOK(G, mt1, Q, mt) && Distinct(s)
    requires forall i {:trigger s[i]} :: 0 <= i < |s| ==> s[i] in G.T && s[i] !in Q
    ensures SecondOK(G, mt1, Q + (set x | x in s), SecondPass(G, mt1, Q, mt, s))
    decreases |s|
  {
    hide SecondOK, SecondOne;
    if s == [] {
      assert Q + (set x | x in s) == Q;
    } else {
      SecondNext(G, mt1, Q, mt, s);
      SecondEnds(G, mt1, Q + {s[0]}, SecondOne(mt, s[0]), s[1..]);
      assert Q + (set x | x in s) == Q + {s[0]} + (set x | x in s[1..]) by { assert s == [s[0]] + s[1..]; }
    }
  }

  // ---- bulk_make_private() --------------------------------------------------------------------------

  lemma {:induction false} FirstStarts(G: Graph)
    requires G.Valid()
    ensures FirstOK(G, Bulk(G.mt, {}))
  {
    hide MasterDepth, SlavesOK;
    forall x | x in G.mt ensures MountOK(G, {}, {}, G.mt, x) { WithoutNone(G.mt[x].slaves); }
    forall x | x in G.mt ensures HasRing(G.mt, x) {
      assert PeersOK(G.mt, x);
      var r :| IsRing(G.mt, r) && r[0] == x && forall y :: y in r <==> y in PeerGroup(G.mt, x);
      assert RingIs(G.mt, x, r);
    }
  }

  lemma {:induction false} WithoutNone(s: seq<Mnt>)
    ensures Without(s, {}) == s
    decreases |s|
  {
    if s != [] { WithoutNone(s[1..]); }
  }

  /** s lists the victims. */
  ghost predicate Lists(G: Graph, s: seq<Mnt>) {
    Distinct(s) && (forall x :: x in s <==> x in G.T) && forall i {:trigger s[i]} :: 0 <= i < |s| ==> s[i] in G.T
  }

  /** The table after the first pass. */
  ghost function AfterFirst(G: Graph, s: seq<Mnt>): (mt1: Table)
    requires G.Valid() && Lists(G, s)
  {
    FirstStarts(G);
    FirstPass(G, Bulk(G.mt, {}), s).mt
  }

  lemma {:induction false} FirstEnds(G: Graph, s: seq<Mnt>)
    requires G.Valid() && Lists(G, s)
    ensures var mt1 := AfterFirst(G, s); Severed(G, G.T, {}, mt1) && SecondOK(G, mt1, {}, mt1)
  {
    hide MasterDepth, GraphOK, AllRings, MountOK, MovedOK, FirstPass;
    FirstStarts(G);
    var z := FirstPass(G, Bulk(G.mt, {}), s);
    assert z.marked == G.T;
    forall x | x in G.mt ensures MovedOK(G, z.mt, {}, z.mt, x) { SecondStarts(G, z.mt, x); }
  }

  /** bulk_make_private(): both passes. */
  ghost function BulkMakePrivate(G: Graph, s: seq<Mnt>): (z: Table)
    requires G.Valid() && Lists(G, s)
  {
    FirstEnds(G, s);
    var mt1 := AfterFirst(G, s);
    SecondPass(G, mt1, {}, mt1, s)
  }

  /** What must hold of x afterwards. */
  ghost predicate PrivateOK(G: Graph, mt: Table, x: Mnt)
    requires MasterDepth(G.mt, G.depth) && x in G.mt && x in mt && G.T <= G.mt.Keys
  {
    var a, b := G.mt[x], mt[x];
    && b == a.(gid := b.gid, shared := b.shared, master := b.master, npeer := b.npeer, slaves := b.slaves)
    && if x in G.T then b.gid == 0 && !b.shared && b.master == NO_MNT && b.slaves == [] && b.npeer == x
       else
         && b.gid == a.gid && b.shared == a.shared
         && (if a.master in G.T then b.master in Dest(G, a.master) else b.master == a.master)
         && (b.master == NO_MNT || (b.master in G.mt && b.master !in G.T && G.depth[b.master] < G.depth[x]))
  }

  lemma {:induction false} EndMount(G: Graph, mt1: Table, mt: Table, x: Mnt)
    requires SecondOK(G, mt1, G.T, mt) && x in G.mt
    ensures PrivateOK(G, mt, x)
  {
    hide GraphOK, AllRings, Dest;
    assert MovedOK(G, mt1, G.T, mt, x) && MountOK(G, G.T, {}, mt1, x);
    GraphKeys(G);
    var k := G.mt[x].master;
    if k in G.T {
      assert MountOK(G, G.T, {}, mt1, k);
      DestSurvives(G, k, mt1[k].master);
    }
  }

  lemma {:induction false} EndSlaves(G: Graph, mt1: Table, mt: Table, m: Mnt)
    requires SecondOK(G, mt1, G.T, mt) && m in G.mt
    requires forall x {:trigger PrivateOK(G, mt, x)} :: x in G.mt ==> PrivateOK(G, mt, x)
    ensures SlavesOK(mt, m)
  {
    hide GraphOK, AllRings, Dest, MountOK, PrivateOK;
    GraphKeys(G);
    assert MovedOK(G, mt1, G.T, mt, m) && PrivateOK(G, mt, m);
    forall n ensures n in mt[m].slaves <==> n in mt && mt[n].master == m { EndSlave(G, mt1, mt, m, n); }
    assert forall i :: 0 <= i < |mt[m].slaves| ==> mt[m].slaves[i] in mt[m].slaves;
    assert Distinct(mt[m].slaves);
  }

  lemma {:induction false} EndSlave(G: Graph, mt1: Table, mt: Table, m: Mnt, n: Mnt)
    requires SecondOK(G, mt1, G.T, mt) && m in G.mt
    requires forall x {:trigger PrivateOK(G, mt, x)} :: x in G.mt ==> PrivateOK(G, mt, x)
    ensures n in mt[m].slaves <==> n in mt && mt[n].master == m
  {
    hide GraphOK, AllRings, Dest, MountOK, MasterDepth;
    GraphKeys(G);
    assert MovedOK(G, mt1, G.T, mt, m);
    assert m !in G.T ==> (n in mt[m].slaves <==> SlaveOf(G, mt1, G.T, n, m));
    if n in mt { assert MovedOK(G, mt1, G.T, mt, n) && PrivateOK(G, mt, n); }
  }

  /** Peers that survive together still have one master. */
  lemma {:induction false} EndGroup(G: Graph, mt1: Table, mt: Table, m: Mnt, p: Mnt)
    requires SecondOK(G, mt1, G.T, mt) && m in G.mt && p in mt && p in PeerGroup(mt, m)
    ensures mt[p].master == mt[m].master
  {
    hide GraphOK, AllRings, Dest, MasterDepth;
    assert MovedOK(G, mt1, G.T, mt, m) && MountOK(G, G.T, {}, mt1, m);
    assert MovedOK(G, mt1, G.T, mt, p) && MountOK(G, G.T, {}, mt1, p);
    if p != m { PeerDepth(G, m, p); }
  }

  lemma {:induction false} EndPeers(G: Graph, mt1: Table, mt: Table, m: Mnt)
    requires SecondOK(G, mt1, G.T, mt) && m in G.mt
    ensures PeersOK(mt, m)
  {
    hide GraphOK, Dest, MasterDepth, MountOK, HasRing;
    forall p | p in PeerGroup(mt, m) ensures mt[p].master == mt[m].master { EndGroup(G, mt1, mt, m, p); }
    forall y | y in mt1
      ensures mt[y].npeer == mt1[y].npeer && mt[y].gid == mt1[y].gid
    { assert MovedOK(G, mt1, G.T, mt, y); }
    assert HasRing(mt1, m);
    MasterRing(mt1, mt, m);
    RingPeers(mt, m);
  }

  lemma {:induction false} RingPeers(mt: Table, m: Mnt)
    requires HasRing(mt, m)
    ensures exists r :: IsRing(mt, r) && r[0] == m && forall x :: x in r <==> x in PeerGroup(mt, m)
  {
    hide PeerGroup;
    var r :| RingIs(mt, m, r);
  }

  /** bulk_make_private() on any set of victims, in any order: every victim ends with
      no group, master, slaves or peers; a surviving slave of a victim gets a
      master among the victim's destinations; other masters, and all groups of
      survivors, stay; masters remain acyclic; and what is left is a well-formed
      propagation graph again. */
  lemma {:induction false} MakesPrivate(G: Graph, s: seq<Mnt>)
    requires G.Valid() && Lists(G, s)
    ensures var mt := BulkMakePrivate(G, s);
      && mt.Keys == G.mt.Keys && GraphOK(mt)
      && forall x {:trigger PrivateOK(G, mt, x)} :: x in G.mt ==> PrivateOK(G, mt, x)
  {
    hide MasterDepth, SlavesOK, PeersOK, Severed, MovedOK, AfterFirst, SecondPass, PrivateOK;
    FirstEnds(G, s);
    var mt1 := AfterFirst(G, s);
    SecondEnds(G, mt1, {}, mt1, s);
    var mt := SecondPass(G, mt1, {}, mt1, s);
    var Q := set x | x in s;
    assert {} + Q == G.T;
    assert SecondOK(G, mt1, {} + Q, mt);
    forall x | x in G.mt ensures PrivateOK(G, mt, x) { EndMount(G, mt1, mt, x); }
    forall x | x in G.mt ensures SlavesOK(mt, x) { EndSlaves(G, mt1, mt, x); }
    forall x | x in G.mt ensures PeersOK(mt, x) { EndPeers(G, mt1, mt, x); }
  }
}
