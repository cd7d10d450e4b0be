/** gather_candidates() finds the cognates of the mounts being unmounted: all of
    them, nothing else, each once, although it skips parts of its walks. */
module PropGather {
  import opened Finite
  import opened MountTree
  import opened PropIterator
  import opened PropUmount

  // ---- the receivers, as the walks see them ----------------------------------------------

  /** Everything that receives from q, and q. */
  ghost function Recv(mt: Table, q: Mnt): (r: set<Mnt>)
    requires q in mt
    ensures q in r && r <= mt.Keys
  {
    RecvClosure(mt, {q})
  }

  /** Nothing outside R receives from inside. */
  ghost predicate SendsInside(mt: Table, R: set<Mnt>) {
    forall m, x {:trigger m in R, x in mt} :: m in R && m in mt && x in mt && Sends(mt, m, x) ==> x in R
  }

  /** The closure is the least one. */
  lemma {:induction false} ClosureLeast(mt: Table, S: set<Mnt>, R: set<Mnt>)
    requires S <= mt.Keys && S <= R && SendsInside(mt, R)
    ensures RecvClosure(mt, S) <= R
    decreases |mt.Keys - S|
  {
    hide Sends;
    var N := S + (set y | y in mt && exists k :: k in S && Sends(mt, k, y));
    if N != S {
      Grows(mt.Keys, S, N);
      ClosureLeast(mt, N, R);
    }
  }

  lemma {:induction false} RecvTransitive(mt: Table, q: Mnt, y: Mnt)
    requires q in mt && y in Recv(mt, q)
    ensures Recv(mt, y) <= Recv(mt, q)
  {
    hide RecvClosure, Sends;
    var R := RecvClosure(mt, {q});
    forall m, x | m in R && m in mt && x in mt && Sends(mt, m, x) ensures x in R { ClosureClosed(mt, {q}, m, x); }
    ClosureLeast(mt, {y}, R);
  }

  lemma {:induction false} RecvSends(mt: Table, q: Mnt, y: Mnt)
    requires q in mt && y in mt && Sends(mt, q, y)
    ensures y in Recv(mt, q)
  {
    hide RecvClosure, Sends;
    ClosureClosed(mt, {q}, q, y);
  }

  /** A slave tree receives. */
  lemma {:induction false} RecvUnder(mt: Table, depth: map<Mnt, nat>, q: Mnt, y: Mnt)
    requires MasterDepth(mt, depth) && q in mt && y in mt && Under(mt, depth, y, q)
    ensures y in Recv(mt, q)
    decreases depth[y]
  {
    hide RecvClosure;
    if y != q {
      RecvUnder(mt, depth, q, mt[y].master);
      ClosureClosed(mt, {q}, mt[y].master, y);
    }
  }

  // ---- the walk holds mounts only ---------------------------------------------------------

  ghost predicate AllIn(mt: Table, w: seq<Mnt>) { forall y :: y in w ==> y in mt }

  lemma {:induction false} CatIn(mt: Table, depth: map<Mnt, nat>, D: nat, s: seq<Mnt>, d: nat)
    requires Bounded(mt, depth, D) && d <= D + 1 && forall i :: 0 <= i < |s| ==> s[i] in mt && depth[s[i]] == d
    ensures AllIn(mt, Cat(mt, depth, D, s, d))
    decreases D + 1 - d, |s|
  {
    hide GraphOK;
    if s != [] {
      SlaveDepths(mt, depth, s[0]);
      CatIn(mt, depth, D, mt[s[0]].slaves, d + 1);
      CatIn(mt, depth, D, s[1..], d);
    }
  }

  lemma {:induction false} RestIn(mt: Table, depth: map<Mnt, nat>, D: nat, r: seq<Mnt>, x: Mnt)
    requires Bounded(mt, depth, D) && x in mt && OriginRing(mt, depth, r) && UnderAny(mt, depth, r, x)
    ensures AllIn(mt, Rest(mt, depth, D, r, x))
    decreases depth[x]
  {
    hide Cat, PeersOK;
    if x in r { CatIn(mt, depth, D, r[IndexOf(r, x) + 1..], depth[r[0]]); }
    else {
      var k := mt[x].master;
      SlaveDepths(mt, depth, k);
      assert SlavesOK(mt, k);
      CatIn(mt, depth, D, mt[k].slaves[IndexOf(mt[k].slaves, x) + 1..], depth[k] + 1);
      RestIn(mt, depth, D, r, k);
    }
  }

  /** A mount with its slave tree is among what receives from the mount. */
  lemma {:induction false} HeadReceives(mt: Table, depth: map<Mnt, nat>, D: nat, q: Mnt)
    requires Bounded(mt, depth, D) && q in mt
    ensures AllRecv(mt, q, [q] + Below(mt, depth, D, q))
  {
    hide GraphOK, Recv, Below;
    BelowIn(mt, depth, D, q);
    var u := [q] + Below(mt, depth, D, q);
    assert AllIn(mt, u);
    forall y | y in u ensures y in Recv(mt, q) {
      HeadCounts(mt, depth, D, q, y);
      RecvUnder(mt, depth, q, y);
    }
  }

  // ---- skipping -------------------------------------------------------------------------------

  /** Every mount of u receives from q, or is q. */
  ghost predicate AllRecv(mt: Table, q: Mnt, u: seq<Mnt>)
    requires q in mt
  {
    forall y :: y in u ==> y in Recv(mt, q)
  }

  lemma {:induction false} PeerHeadReceives(mt: Table, depth: map<Mnt, nat>, D: nat, q: Mnt, p: Mnt)
    requires Bounded(mt, depth, D) && q in mt && p in mt && Peers(mt, q, p)
    ensures AllRecv(mt, q, [p] + Below(mt, depth, D, p))
  {
    hide GraphOK, Recv, Cat, Below;
    HeadReceives(mt, depth, D, p);
    RecvSends(mt, q, p);
    RecvTransitive(mt, q, p);
  }

  /** What skip_propagation_subtree() passes over receives from q. */
  lemma {:induction false} SkipPeersLeads(W: World, r: seq<Mnt>, q: Mnt, p: Mnt, v: seq<Mnt>)
      returns (u: seq<Mnt>, t: seq<Mnt>)
    requires W.Valid() && OriginRing(W.mt, W.depth, r) && q in W.mt && OnWalk(W, r, p)
    requires Leads(W.mt, W.depth, W.D, r, v, p)
    ensures v == u + t && AllRecv(W.mt, q, u) && Leads(W.mt, W.depth, W.D, r, t, SkipPeersOf(W, r, q, p))
    decreases if p == NO_MNT then 0 else 1 + |Left(W, r, p)|
  {
    hide Below, Rest, UnderAny, PropNextUp, GraphOK, TreeOK, TreeDepth, Recv, MasterDepth, SendersInNs;
    if p != NO_MNT && Peers(W.mt, q, p) {
      UpShorter(W, r, p);
      UpLeads(W.mt, W.depth, W.D, r, p);
      u, t := SkipPeersLeads(W, r, q, PropNextUp(W.mt, W.depth, p, r[0]), Rest(W.mt, W.depth, W.D, r, p));
      PeerHeadReceives(W.mt, W.depth, W.D, q, p);
      u := [p] + Below(W.mt, W.depth, W.D, p) + u;
    } else {
      u, t := [], v;
    }
  }

  lemma {:induction false} SkipLeads(W: World, r: seq<Mnt>, q: Mnt, w: seq<Mnt>) returns (u: seq<Mnt>, t: seq<Mnt>)
    requires W.Valid() && OriginRing(W.mt, W.depth, r) && q in W.mt && UnderAny(W.mt, W.depth, r, q)
    requires Leads(W.mt, W.depth, W.D, r, w, q)
    ensures w == u + t && AllRecv(W.mt, q, u) && Leads(W.mt, W.depth, W.D, r, t, SkipPropagationSubtree(W, r, q))
    ensures |u| > 0 && u[0] == q
  {
    hide Below, Rest, UnderAny, PropNextUp, GraphOK, TreeOK, TreeDepth, Recv, MasterDepth, SendersInNs;
    UpShorter(W, r, q);
    UpLeads(W.mt, W.depth, W.D, r, q);
    u, t := SkipPeersLeads(W, r, q, PropNextUp(W.mt, W.depth, q, r[0]), Rest(W.mt, W.depth, W.D, r, q));
    HeadReceives(W.mt, W.depth, W.D, q);
    u := [q] + Below(W.mt, W.depth, W.D, q) + u;
  }

  // ---- one walk ---------------------------------------------------------------------------------

  /** The mounts at d on the mounts of w. */
  ghost function Found(mt: Table, w: seq<Mnt>, d: Dentry): (r: set<Mnt>) {
    set y | y in w && Lookup(mt, y, d) != NO_MNT :: Lookup(mt, y, d)
  }

  lemma {:induction false} FoundCat(mt: Table, u: seq<Mnt>, t: seq<Mnt>, d: Dentry)
    ensures Found(mt, u + t, d) == Found(mt, u, d) + Found(mt, t, d)
  {
  }

  /** K holds every cognate of c. */
  ghost predicate Covered(mt: Table, K: set<Mnt>, c: Mnt) {
    && c in mt && mt[c].parent in mt
    && forall y {:trigger Lookup(mt, y, mt[c].mp)} ::
        y in Recv(mt, mt[c].parent) ==> Lookup(mt, y, mt[c].mp) in K + {NO_MNT}
  }

  ghost predicate Closed(mt: Table, K: set<Mnt>) {
    forall c {:trigger Covered(mt, K, c)} :: c in K ==> Covered(mt, K, c)
  }

  lemma {:induction false} CoveredFound(mt: Table, K: set<Mnt>, c: Mnt, u: seq<Mnt>)
    requires Covered(mt, K, c) && AllRecv(mt, mt[c].parent, u)
    ensures Found(mt, u, mt[c].mp) <= K
  {
    hide Recv;
  }

  /** Meeting a candidate on the walk means an earlier walk met it. */
  ghost predicate Fresh(mt: Table, K: set<Mnt>, cand: set<Mnt>, w: seq<Mnt>, d: Dentry) {
    forall y {:trigger Lookup(mt, y, d)} :: y in w && Lookup(mt, y, d) in cand ==> Lookup(mt, y, d) in K
  }

  lemma {:induction false} FreshAdd(mt: Table, K: set<Mnt>, cand: set<Mnt>, q: Mnt, w: seq<Mnt>, d: Dentry)
    requires Fresh(mt, K, cand, w, d) && q !in w && Lookup(mt, q, d) != NO_MNT
    ensures Fresh(mt, K, cand + {Lookup(mt, q, d)}, w, d)
  {
    var c := Lookup(mt, q, d);
    assert At(mt, q, d, c);
    forall y | y in w && Lookup(mt, y, d) in cand + {c} ensures Lookup(mt, y, d) in K {
      assert Lookup(mt, y, d) == c ==> At(mt, y, d, c);
    }
  }

  /** The candidate list is the candidates not unmounted anyway, each once. */
  ghost predicate Listed(st: Run) {
    Distinct(st.cands) && forall x :: x in st.cands <==> x in st.cand && x !in st.umount
  }

  lemma {:induction false} ListedAdd(st: Run, c: Mnt)
    requires Listed(st) && c !in st.cand
    ensures Listed(st.(cand := st.cand + {c}, cands := if c in st.umount then st.cands else [c] + st.cands))
  {
  }

  ghost predicate SameRest(st: Run, z: Run) { z.marked == st.marked && z.umount == st.umount && z.tou == st.tou }

  /** One walk adds what is found on all of it, skipping or not. */
  lemma {:induction false} WalkFinds(W: World, r: seq<Mnt>, st: Run, q: Mnt, d: Dentry, w: seq<Mnt>, K: set<Mnt>)
    requires W.Valid() && OriginRing(W.mt, W.depth, r) && OnWalk(W, r, q) && Leads(W.mt, W.depth, W.D, r, w, q)
    requires Distinct(w) && Closed(W.mt, K) && K <= st.cand && Fresh(W.mt, K, st.cand, w, d) && Listed(st)
    ensures var z := GatherWalk(W, r, st, q, d);
      z.cand == st.cand + Found(W.mt, w, d) && SameRest(st, z) && Listed(z)
    decreases |w|
  {
    hide Below, Rest, UnderAny, PropNextUp, GraphOK, TreeOK, TreeDepth, Recv, MasterDepth, Lookup, Closed;
    hide Covered, AllRecv, Found, Fresh, Listed, PropagationNext, SkipPropagationSubtree, PeerGroup;
    if q == NO_MNT {
      FoundNone(W.mt, d);
    } else {
      NextShorter(W, r, q);
      var child := Lookup(W.mt, q, d);
      if child != NO_MNT && child in st.cand {
        var u, t := SkipLeads(W, r, q, w);
        FoundCat(W.mt, u, t, d);
        SkipCovered(W.mt, K, st.cand, q, d, u, t);
        WalkFinds(W, r, st, SkipPropagationSubtree(W, r, q), d, t, K);
      } else {
        assert w == [q] + w[1..];
        FoundCat(W.mt, [q], w[1..], d);
        FoundOne(W.mt, q, d);
        FreshTail(W.mt, K, st.cand, q, w, d);
        NextLeads(W.mt, W.depth, W.D, r, q);
        assert w[1..] == Below(W.mt, W.depth, W.D, q) + Rest(W.mt, W.depth, W.D, r, q);
        if child == NO_MNT {
          WalkFinds(W, r, st, PropagationNext(W.mt, W.depth, q, r[0]), d, w[1..], K);
        } else {
          ListedAdd(st, child);
          var st1 := st.(cand := st.cand + {child}, cands := if child in st.umount then st.cands
              else [child] + st.cands);
          WalkFinds(W, r, st1, PropagationNext(W.mt, W.depth, q, r[0]), d, w[1..], K);
        }
      }
    }
  }

  lemma {:induction false} FoundNone(mt: Table, d: Dentry)
    ensures Found(mt, [], d) == {}
  {
  }

  lemma {:induction false} FoundOne(mt: Table, q: Mnt, d: Dentry)
    ensures Found(mt, [q], d) == if Lookup(mt, q, d) == NO_MNT then {} else {Lookup(mt, q, d)}
  {
    hide Lookup;
    assert q in [q];
  }

  lemma {:induction false} FreshTail(mt: Table, K: set<Mnt>, cand: set<Mnt>, q: Mnt, w: seq<Mnt>, d: Dentry)
    requires Distinct(w) && w != [] && w[0] == q && Fresh(mt, K, cand, w, d)
    ensures Distinct(w[1..]) && Fresh(mt, K, cand, w[1..], d)
    ensures Lookup(mt, q, d) != NO_MNT ==> Fresh(mt, K, cand + {Lookup(mt, q, d)}, w[1..], d)
  {
    hide Lookup;
    assert Fresh(mt, K, cand, w[1..], d);
    if Lookup(mt, q, d) != NO_MNT { FreshAdd(mt, K, cand, q, w[1..], d); }
  }

  lemma {:induction false} SkipCovered(mt: Table, K: set<Mnt>, cand: set<Mnt>, q: Mnt, d: Dentry, u: seq<Mnt>,
      t: seq<Mnt>)
    requires q in mt && Closed(mt, K) && AllRecv(mt, q, u) && Fresh(mt, K, cand, u + t, d) && Distinct(u + t)
    requires q in u && Lookup(mt, q, d) != NO_MNT && Lookup(mt, q, d) in cand
    ensures Found(mt, u, d) <= K && Distinct(t) && Fresh(mt, K, cand, t, d)
  {
    hide Recv, Found;
    var c := Lookup(mt, q, d);
    assert c in K;
    assert Covered(mt, K, c);
    CoveredFound(mt, K, c, u);
    DistinctTail(u, t);
  }

  lemma {:induction false} DistinctTail(u: seq<Mnt>, t: seq<Mnt>)
    requires Distinct(u + t)
    ensures Distinct(t)
  {
    forall i, j | 0 <= i < j < |t| ensures t[i] != t[j] { assert (u + t)[|u| + i] == t[i] && (u + t)[|u| + j] == t[j]; }
  }

  // ---- all the walks -----------------------------------------------------------------------------

  lemma {:induction false} CountDistinct(mt: Table, w: seq<Mnt>)
    requires AllIn(mt, w) && forall x :: x in mt ==> multiset(w)[x] <= 1
    ensures Distinct(w)
  {
    forall i, j | 0 <= i < j < |w| ensures w[i] != w[j] {
      assert w == w[..j] + w[j..];
      assert w[..j][i] in w[..j] && w[j] in w[j..];
      assert multiset(w)[w[i]] == multiset(w[..j])[w[i]] + multiset(w[j..])[w[i]];
    }
  }

  /** The walk from p visits its receivers, once each. */
  lemma {:induction false} WalkVisits(W: World, r: seq<Mnt>, p: Mnt) returns (w: seq<Mnt>)
    requires W.Valid() && OriginRing(W.mt, W.depth, r) && r[0] == p
    ensures UnderAny(W.mt, W.depth, r, p)
    ensures OnWalk(W, r, PropagationNext(W.mt, W.depth, p, p))
    ensures Leads(W.mt, W.depth, W.D, r, w, PropagationNext(W.mt, W.depth, p, p))
    ensures Distinct(w) && forall x :: x in w <==> x in RecvSet(W.mt, p)
  {
    hide Below, Rest, UnderAny, GraphOK, TreeOK, TreeDepth, RecvSet, PropagationNext, PropNextUp, AllIn;
    hide Distinct, MasterDepth, Leads;
    OriginUnder(W.mt, W.depth, r);
    NextLeads(W.mt, W.depth, W.D, r, p);
    NextShorter(W, r, p);
    w := WalkMembers(W.mt, W.depth, W.D, r);
  }

  lemma {:induction false} WalkMembers(mt: Table, depth: map<Mnt, nat>, D: nat, r: seq<Mnt>) returns (w: seq<Mnt>)
    requires Bounded(mt, depth, D) && OriginRing(mt, depth, r)
    ensures UnderAny(mt, depth, r, r[0]) && w == Below(mt, depth, D, r[0]) + Rest(mt, depth, D, r, r[0])
    ensures Distinct(w) && forall x :: x in w <==> x in RecvSet(mt, r[0])
  {
    hide Below, Rest, UnderAny, GraphOK, RecvClosure, MasterDepth, Distinct;
    WalkCounts(mt, depth, D, r);
    w := Below(mt, depth, D, r[0]) + Rest(mt, depth, D, r, r[0]);
    RestIn(mt, depth, D, r, r[0]);
    BelowIn(mt, depth, D, r[0]);
    CountDistinct(mt, w);
    Members(mt, w, RecvSet(mt, r[0]));
  }

  lemma {:induction false} BelowIn(mt: Table, depth: map<Mnt, nat>, D: nat, q: Mnt)
    requires Bounded(mt, depth, D) && q in mt
    ensures AllIn(mt, Below(mt, depth, D, q))
  {
    hide GraphOK, Cat;
    SlaveDepths(mt, depth, q);
    CatIn(mt, depth, D, mt[q].slaves, depth[q] + 1);
  }

  lemma {:induction false} Members(mt: Table, w: seq<Mnt>, R: set<Mnt>)
    requires AllIn(mt, w) && R <= mt.Keys && forall x :: x in mt ==> multiset(w)[x] == Bit(x in R)
    ensures forall x :: x in w <==> x in R
  {
  }

  /** What has been gathered when the mounts in G have been looked at. */
  ghost predicate Gathered(W: World, U: set<Mnt>, G: set<Mnt>, st: Run) {
    Closed(W.mt, st.cand) && G <= st.cand <= U + Cognates(W.mt, U) && st.umount == U && Listed(st)
  }

  lemma {:induction false} CoveredMore(mt: Table, K: set<Mnt>, L: set<Mnt>, c: Mnt)
    requires Covered(mt, K, c) && K <= L
    ensures Covered(mt, L, c)
  {
    hide Recv, Lookup;
  }

  lemma {:induction false} LookupIs(mt: Table, m: Mnt)
    requires OnePerPlace(mt) && m in mt && mt[m].hashed && m != NO_MNT
    ensures Lookup(mt, mt[m].parent, mt[m].mp) == m
  {
    assert At(mt, mt[m].parent, mt[m].mp, m);
  }

  /** Everything found on one full walk is covered. */
  lemma {:induction false} WalkCovers(mt: Table, m: Mnt, w: seq<Mnt>, K: set<Mnt>, L: set<Mnt>, c: Mnt)
    requires m in mt && mt[m].parent in mt && Lookup(mt, mt[m].parent, mt[m].mp) == m
    requires forall x :: x in w <==> x in RecvSet(mt, mt[m].parent)
    requires L == K + {m} + Found(mt, w, mt[m].mp) && (c == m || c in Found(mt, w, mt[m].mp))
    ensures Covered(mt, L, c)
  {
    hide Lookup, RecvClosure;
    var p, d := mt[m].parent, mt[m].mp;
    var q := if c == m then p else var q :| q in w && Lookup(mt, q, d) == c && c != NO_MNT; q;
    assert c == Lookup(mt, q, d) && c != NO_MNT ==> At(mt, q, d, c);
    assert c == m || At(mt, q, d, c);
    RecvTransitive(mt, p, q);
    forall y | y in Recv(mt, q) ensures Lookup(mt, y, d) in L + {NO_MNT} {
      assert y == p || y in w;
    }
  }

  lemma {:induction false} WalkClosed(mt: Table, m: Mnt, w: seq<Mnt>, K: set<Mnt>, L: set<Mnt>)
    requires Closed(mt, K) && m in mt && mt[m].parent in mt && Lookup(mt, mt[m].parent, mt[m].mp) == m
    requires forall x :: x in w <==> x in RecvSet(mt, mt[m].parent)
    requires L == K + {m} + Found(mt, w, mt[m].mp)
    ensures Closed(mt, L)
  {
    hide Covered, RecvSet, Lookup;
    forall c | c in L ensures Covered(mt, L, c) {
      if c in K { assert Covered(mt, K, c); CoveredMore(mt, K, L, c); } else { WalkCovers(mt, m, w, K, L, c); }
    }
  }

  lemma {:induction false} FoundCognates(mt: Table, U: set<Mnt>, m: Mnt, w: seq<Mnt>)
    requires m in U && m in mt && mt[m].parent in mt && forall x :: x in w <==> x in RecvSet(mt, mt[m].parent)
    ensures Found(mt, w, mt[m].mp) <= U + Cognates(mt, U)
  {
    hide RecvSet;
    forall c | c in Found(mt, w, mt[m].mp) ensures c in U + Cognates(mt, U) {
      var q :| q in w && Lookup(mt, q, mt[m].mp) == c && c != NO_MNT;
      assert At(mt, q, mt[m].mp, c);
      assert Cognate(mt, m, c);
    }
  }

  /** The walk for m of the set. */
  lemma {:induction false} WalkGathers(W: World, r: seq<Mnt>, st: Run, m: Mnt) returns (w: seq<Mnt>, z: Run)
    requires W.Valid() && Closed(W.mt, st.cand) && Listed(st) && m in st.umount && m in W.mt && m !in st.cand
    requires m != NO_MNT
    requires OriginRing(W.mt, W.depth, r) && r[0] == W.mt[m].parent
    ensures forall x :: x in w <==> x in RecvSet(W.mt, r[0])
    ensures OnWalk(W, r, PropagationNext(W.mt, W.depth, r[0], r[0]))
    ensures z == GatherWalk(W, r, st.(cand := st.cand + {m}), PropagationNext(W.mt, W.depth, r[0], r[0]), W.mt[m].mp)
    ensures z.cand == st.cand + {m} + Found(W.mt, w, W.mt[m].mp) && SameRest(st, z) && Listed(z)
  {
    hide RecvSet, PropagationNext, Closed, RingOf, Found, Leads, GatherWalk, GraphOK, TreeOK, TreeDepth;
    hide PeerGroup, OnWalk, SendersInNs;
    w := WalkVisits(W, r, r[0]);
    NotOwn(W.mt, r[0]);
    FreshStart(W.mt, st.cand, m, w);
    var st1 := st.(cand := st.cand + {m});
    WalkFinds(W, r, st1, PropagationNext(W.mt, W.depth, r[0], r[0]), W.mt[m].mp, w, st.cand);
    z := GatherWalk(W, r, st1, PropagationNext(W.mt, W.depth, r[0], r[0]), W.mt[m].mp);
  }

  /** One mount of the set. */
  lemma {:induction false} GatherOne(W: World, U: set<Mnt>, G: set<Mnt>, st: Run, m: Mnt) returns (z: Run)
    requires W.Valid() && Gathered(W, U, G, st) && m in U && m in W.mt && W.mt[m].hashed && m !in st.cand
    ensures W.mt[m].parent in W.mt
    ensures OnWalk(W, RingOf(W, W.mt[m].parent), PropagationNext(W.mt, W.depth, W.mt[m].parent, W.mt[m].parent))
    ensures z == GatherWalk(W, RingOf(W, W.mt[m].parent), st.(cand := st.cand + {m}),
        PropagationNext(W.mt, W.depth, W.mt[m].parent, W.mt[m].parent), W.mt[m].mp)
    ensures Gathered(W, U, G + {m}, z) && SameRest(st, z)
  {
    hide RecvSet, PropagationNext, Closed, Cognates, RingOf, Found, GatherWalk, GraphOK, OnWalk, Listed;
    hide ChildrenOK, OnePerPlace;
    var w;
    w, z := WalkGathers(W, RingOf(W, W.mt[m].parent), st, m);
    LookupIs(W.mt, m);
    WalkClosed(W.mt, m, w, st.cand, z.cand);
    FoundCognates(W.mt, U, m, w);
  }

  lemma {:induction false} NotOwn(mt: Table, p: Mnt)
    requires p in mt
    ensures p !in RecvSet(mt, p)
  {
  }

  lemma {:induction false} FreshStart(mt: Table, K: set<Mnt>, m: Mnt, w: seq<Mnt>)
    requires m in mt && mt[m].parent !in w && m != NO_MNT
    ensures Fresh(mt, K, K + {m}, w, mt[m].mp)
  {
    forall y | y in w && Lookup(mt, y, mt[m].mp) in K + {m} ensures Lookup(mt, y, mt[m].mp) in K {
      assert Lookup(mt, y, mt[m].mp) == m ==> At(mt, y, mt[m].mp, m);
    }
  }

  lemma {:induction false} LoopGathers(W: World, U: set<Mnt>, G: set<Mnt>, st: Run, s: seq<Mnt>)
    requires W.Valid() && Gathered(W, U, G, st)
    requires forall i :: 0 <= i < |s| ==> s[i] in W.mt && W.mt[s[i]].hashed && s[i] in U
    ensures var z := GatherLoop(W, st, s); Gathered(W, U, G + (set x | x in s), z) && SameRest(st, z)
    decreases |s|
  {
    hide UnderAny, GraphOK, RecvSet, PropagationNext, Closed, Cognates, MasterDepth, RingOf, Found;
    hide SendersInNs, Leads, GatherWalk, IsRing, Bounded, TreeOK, Listed;
    if s == [] {
      assert G + (set x | x in s) == G;
    } else {
      var m := s[0];
      assert G + (set x | x in s) == G + {m} + (set x | x in s[1..]) by { assert s == [m] + s[1..]; }
      if m in st.cand {
        LoopGathers(W, U, G + {m}, st, s[1..]);
      } else {
        var z := GatherOne(W, U, G, st, m);
        LoopGathers(W, U, G + {m}, z, s[1..]);
      }
    }
  }

  /** Once every mount of U has been looked at, nothing is missing. */
  lemma {:induction false} AllGathered(W: World, U: set<Mnt>, st: Run)
    requires W.Valid() && Gathered(W, U, U, st)
    ensures st.cand == U + Cognates(W.mt, U)
  {
    forall c | c in Cognates(W.mt, U) ensures c in st.cand {
      var m :| m in U && Cognate(W.mt, m, c);
      assert Covered(W.mt, st.cand, m);
      CognateCovered(W.mt, st.cand, m, c);
    }
  }

  lemma {:induction false} CognateCovered(mt: Table, K: set<Mnt>, m: Mnt, c: Mnt)
    requires Covered(mt, K, m) && Cognate(mt, m, c) && c in mt && NO_MNT !in mt
    ensures c in K
  {
    hide Lookup, RecvClosure;
    var q :| q in RecvSet(mt, mt[m].parent) && Lookup(mt, q, mt[m].mp) == c;
    assert q in Recv(mt, mt[m].parent);
  }

  /** The state propagate_umount() starts from. */
  ghost function Started(U: set<Mnt>): (st: Run) { Run({}, {}, U, [], []) }

  /** gather_candidates() on a listing of U: exactly the cognates of U are
      candidates, and the candidate list has each of them once. */
  lemma {:induction false} GathersCognates(W: World, U: set<Mnt>, s: seq<Mnt>)
    requires W.Valid() && (forall x :: x in s <==> x in U)
    requires forall i :: 0 <= i < |s| ==> s[i] in W.mt && W.mt[s[i]].hashed
    ensures var z := GatherCandidates(W, Started(U), s);
      && z.cand == Cognates(W.mt, U) && SameRest(Started(U), z)
      && Distinct(z.cands) && (forall x :: x in z.cands <==> x in z.cand)
  {
    hide World.Valid, Cognates, GatherLoop;
    LoopGathers(W, U, {}, Started(U), s);
    assert {} + (set x | x in s) == U;
    var z := GatherLoop(W, Started(U), s);
    AllGathered(W, U, z);
    CognatesApart(W.mt, U);
  }

  lemma {:induction false} CognatesApart(mt: Table, U: set<Mnt>)
    ensures Cognates(mt, U) !! U
  {
  }
}
