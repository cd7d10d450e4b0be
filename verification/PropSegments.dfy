/** bulk_make_private() and the order of the slave lists: next_group() and friends rely
    on the peers of a slave standing next to each other on their master's list
    (SlavesOK in kernel/mount/tla/MountTree.tla), and they still do afterwards. */
module PropSegments {
  import opened MountTree
  import opened PropUmount
  import opened PropReparent
  import opened PropPrivate

  ghost predicate InGroup(mt: Table, x: Mnt, y: Mnt) { x in mt && y in mt && mt[x].gid != 0 && mt[x].gid == mt[y].gid }

  /** What stands between two peers is their peer. */
  ghost predicate Blocks(mt: Table, s: seq<Mnt>) {
    forall i, k, j {:trigger s[i], s[k], s[j]} ::
      0 <= i < k < j < |s| && InGroup(mt, s[i], s[j]) ==> InGroup(mt, s[i], s[k])
  }

  ghost predicate Segments(mt: Table) { forall m {:trigger mt[m].slaves} :: m in mt ==> Blocks(mt, mt[m].slaves) }

  // ---- taking mounts off a list, joining two lists -------------------------------------------------

  /** Where the i-th of those left was. */
  ghost function Was(s: seq<Mnt>, T: set<Mnt>, i: nat): (p: nat)
    requires i < |Without(s, T)|
    ensures p < |s| && s[p] == Without(s, T)[i]
    decreases |s|
  {
    if s[0] in T then 1 + Was(s[1..], T, i) else if i == 0 then 0 else 1 + Was(s[1..], T, i - 1)
  }

  lemma {:induction false} WasRises(s: seq<Mnt>, T: set<Mnt>, i: nat, j: nat)
    requires i < j < |Without(s, T)|
    ensures Was(s, T, i) < Was(s, T, j)
    decreases |s|
  {
    if s[0] in T { WasRises(s[1..], T, i, j); } else if i > 0 { WasRises(s[1..], T, i - 1, j - 1); }
  }

  lemma {:induction false} BlocksWithout(mt: Table, s: seq<Mnt>, T: set<Mnt>)
    requires Blocks(mt, s)
    ensures Blocks(mt, Without(s, T))
  {
    hide InGroup, Was, Without;
    var r := Without(s, T);
    forall i, k, j | 0 <= i < k < j < |r| && InGroup(mt, r[i], r[j]) ensures InGroup(mt, r[i], r[k]) {
      WasRises(s, T, i, k);
      WasRises(s, T, k, j);
      var a, b, c := Was(s, T, i), Was(s, T, k), Was(s, T, j);
      assert s[a] == r[i] && s[b] == r[k] && s[c] == r[j];
    }
  }

  ghost predicate Apart(mt: Table, a: seq<Mnt>, b: seq<Mnt>) {
    forall i, j {:trigger a[i], b[j]} :: 0 <= i < |a| && 0 <= j < |b| ==> !InGroup(mt, a[i], b[j])
  }

  lemma {:induction false} BlocksCat(mt: Table, a: seq<Mnt>, b: seq<Mnt>)
    requires Blocks(mt, a) && Blocks(mt, b) && Apart(mt, a, b)
    ensures Blocks(mt, a + b)
  {
    hide InGroup;
    var t := a + b;
    forall i, k, j | 0 <= i < k < j < |t| ensures InGroup(mt, t[i], t[j]) ==> InGroup(mt, t[i], t[k]) {
      if j < |a| { assert t[i] == a[i] && t[k] == a[k] && t[j] == a[j]; }
      else if i < |a| { assert t[i] == a[i] && t[j] == b[j - |a|]; }
      else { assert t[i] == b[i - |a|] && t[k] == b[k - |a|] && t[j] == b[j - |a|]; }
    }
  }

  // ---- the passes --------------------------------------------------------------------------------------

  /** With the groups of before, which the survivors keep. */
  ghost predicate Lined(G: Graph, mt: Table) {
    mt.Keys == G.mt.Keys && forall m {:trigger mt[m].slaves} :: m in mt ==> Blocks(G.mt, mt[m].slaves)
  }

  lemma {:induction false} FirstLined(G: Graph, mt1: Table)
    requires Severed(G, G.T, {}, mt1) && Segments(G.mt)
    ensures Lined(G, mt1)
  {
    hide MasterDepth, GraphOK, AllRings, Dest, Blocks, Without;
    forall m | m in mt1 ensures Blocks(G.mt, mt1[m].slaves) {
      assert MountOK(G, G.T, {}, mt1, m);
      BlocksWithout(G.mt, G.mt[m].slaves, G.T);
    }
  }

  /** The slaves of a victim and those of where they go are of different groups. */
  lemma {:induction false} SlavesApart(G: Graph, mt1: Table, Q: set<Mnt>, mt: Table, m: Mnt, x: Mnt)
    requires SecondOK(G, mt1, Q, mt) && m in G.T && m !in Q && x in G.mt && x !in G.T
    ensures Apart(G.mt, mt[m].slaves, mt[x].slaves)
  {
    hide MasterDepth, GraphOK, AllRings, Dest, MountOK, InGroup;
    DestinationsOut(G, mt1);
    assert MovedOK(G, mt1, Q, mt, m) && MovedOK(G, mt1, Q, mt, x);
    var a, b := mt[m].slaves, mt[x].slaves;
    forall i, j | 0 <= i < |a| && 0 <= j < |b| ensures !InGroup(G.mt, a[i], b[j]) {
      assert a[i] in a && b[j] in b;
      VictimSlaves(G, mt1, Q, mt, m, a[i]);
      assert SlaveOf(G, mt1, Q, b[j], x);
      assert G.mt[b[j]].master != m;
      OneGroup(G, a[i], b[j]);
    }
  }

  lemma {:induction false} OneGroup(G: Graph, c: Mnt, d: Mnt)
    requires G.Valid()
    ensures InGroup(G.mt, c, d) ==> G.mt[d].master == G.mt[c].master
  {
    hide GraphOK, MasterDepth;
    if InGroup(G.mt, c, d) { PeerDepth(G, c, d); }
  }

  lemma {:induction false} SecondLined(G: Graph, mt1: Table, Q: set<Mnt>, mt: Table, m: Mnt)
    requires SecondOK(G, mt1, Q, mt) && Lined(G, mt) && m in G.T && m !in Q
    ensures (mt[m].master == NO_MNT || mt[m].master in mt) && Lined(G, SecondOne(mt, m))
  {
    hide MasterDepth, GraphOK, AllRings, Dest, MountOK, MovedOK, Blocks, TransferPropagation, Apart;
    SecondReady(G, mt1, Q, mt, m);
    GraphKeys(G);
    var to := mt[m].master;
    var z := SecondOne(mt, m);
    BlocksNone(G.mt);
    forall x | x in z ensures Blocks(G.mt, z[x].slaves) {
      TransferAt(mt, m, to, x);
      if x == to {
        SlavesApart(G, mt1, Q, mt, m, x);
        BlocksCat(G.mt, mt[m].slaves, mt[x].slaves);
      }
    }
  }

  lemma {:induction false} BlocksNone(mt: Table)
    ensures Blocks(mt, [])
  {
  }

  lemma {:induction false} PassLined(G: Graph, mt1: Table, Q: set<Mnt>, mt: Table, s: seq<Mnt>)
    requires SecondOK(G, mt1, Q, mt) && Distinct(s) && Lined(G, mt)
    requires forall i {:trigger s[i]} :: 0 <= i < |s| ==> s[i] in G.T && s[i] !in Q
    ensures Lined(G, SecondPass(G, mt1, Q, mt, s))
    decreases |s|
  {
    hide SecondOK, SecondOne, Lined, Distinct;
    if s != [] {
      SecondNext(G, mt1, Q, mt, s);
      SecondLined(G, mt1, Q, mt, s[0]);
      PassLined(G, mt1, Q + {s[0]}, SecondOne(mt, s[0]), s[1..]);
    }
  }

  /** A survivor's group is the one it had, and only survivors are on lists. */
  lemma {:induction false} LinedBlocks(G: Graph, mt: Table, m: Mnt)
    requires G.Valid() && mt.Keys == G.mt.Keys && GraphOK(mt) && m in mt && Blocks(G.mt, mt[m].slaves)
    requires forall x {:trigger PrivateOK(G, mt, x)} :: x in G.mt ==> PrivateOK(G, mt, x)
    ensures Blocks(mt, mt[m].slaves)
  {
    hide MasterDepth, PeersOK, Dest;
    var s := mt[m].slaves;
    assert SlavesOK(mt, m);
    forall i | 0 <= i < |s| ensures s[i] in mt && mt[s[i]].gid == G.mt[s[i]].gid { assert PrivateOK(G, mt, s[i]); }
  }

  /** bulk_make_private() keeps every group of peers in one piece on its master's
      list. */
  lemma {:induction false} KeepsSegments(G: Graph, s: seq<Mnt>)
    requires G.Valid() && Lists(G, s) && Segments(G.mt)
    ensures Segments(BulkMakePrivate(G, s))
  {
    hide MasterDepth, SlavesOK, PeersOK, Severed, MovedOK, AfterFirst, SecondPass, PrivateOK, Lined, Blocks;
    FirstEnds(G, s);
    var mt1 := AfterFirst(G, s);
    FirstLined(G, mt1);
    PassLined(G, mt1, {}, mt1, s);
    MakesPrivate(G, s);
    var mt := BulkMakePrivate(G, s);
    forall m | m in mt ensures Blocks(mt, mt[m].slaves) {
      LinedAt(G, mt, m);
      LinedBlocks(G, mt, m);
    }
  }

  lemma {:induction false} LinedAt(G: Graph, mt: Table, m: Mnt)
    requires Lined(G, mt) && m in mt
    ensures Blocks(G.mt, mt[m].slaves)
  {
    hide Blocks;
  }

  /** Only shared mounts have slaves. */
  ghost predicate SendersShared(mt: Table) {
    forall m {:trigger mt[m].slaves} :: m in mt && mt[m].slaves != [] ==> mt[m].shared
  }

  lemma {:induction false} MasterShared(G: Graph, v: Mnt)
    requires G.Valid() && SendersShared(G.mt) && v in G.mt && G.mt[v].master in G.mt
    ensures G.mt[G.mt[v].master].shared
  {
    hide MasterDepth, PeersOK;
    assert SlavesOK(G.mt, G.mt[v].master);
  }

  lemma {:induction false} DestShared(G: Graph, v: Mnt, d: Mnt)
    requires G.Valid() && SendersShared(G.mt) && v in G.T && d in Dest(G, v) && d in G.mt
    ensures G.mt[d].shared
    decreases G.depth[v]
  {
    hide GraphOK, SendersShared;
    GraphKeys(G);
    var surv := PeerGroup(G.mt, v) - G.T;
    if surv == {} {
      if G.mt[v].master in G.T { DestShared(G, G.mt[v].master, d); } else { MasterShared(G, v); }
    }
  }

  lemma {:induction false} KeepsSenders(G: Graph, s: seq<Mnt>)
    requires G.Valid() && Lists(G, s) && SendersShared(G.mt)
    ensures SendersShared(BulkMakePrivate(G, s))
  {
    hide MasterDepth, PeersOK, Lists, BulkMakePrivate, Dest, PrivateOK;
    MakesPrivate(G, s);
    GraphKeys(G);
    var mt := BulkMakePrivate(G, s);
    forall m | m in mt && mt[m].slaves != [] ensures mt[m].shared {
      assert SlavesOK(mt, m);
      var c := mt[m].slaves[0];
      assert c in mt && mt[c].master == m;
      assert PrivateOK(G, mt, c) && PrivateOK(G, mt, m);
      SenderShared(G, mt, m, c);
    }
  }

  lemma {:induction false} SenderShared(G: Graph, mt: Table, m: Mnt, c: Mnt)
    requires G.Valid() && SendersShared(G.mt) && mt.Keys == G.mt.Keys && m in mt && c in mt && mt[c].master == m
    requires mt[m].slaves != []
    requires PrivateOK(G, mt, c) && PrivateOK(G, mt, m)
    ensures mt[m].shared
  {
    hide GraphOK, Dest, SendersShared;
    GraphKeys(G);
    if G.mt[c].master in G.T { DestShared(G, G.mt[c].master, m); } else { MasterShared(G, c); }
  }
}
