/** propagation_next() enumerates the receivers of a mount, each exactly once. */
module PropIterator {
  import opened Finite
  import opened MountTree

  /** x is a or a slave, directly or not, of a. */
  ghost predicate Under(mt: Table, depth: map<Mnt, nat>, x: Mnt, a: Mnt)
    requires MasterDepth(mt, depth) && x in mt
    decreases depth[x]
  {
    x == a || (mt[x].master != NO_MNT && Under(mt, depth, mt[x].master, a))
  }

  /** A bound on the depths, so that the slave trees can be followed down. */
  ghost predicate Bounded(mt: Table, depth: map<Mnt, nat>, D: nat) {
    MasterDepth(mt, depth) && GraphOK(mt) && forall m :: m in mt ==> depth[m] <= D
  }

  /** Each mount of a list with its slave tree, depth first. */
  ghost function Cat(mt: Table, depth: map<Mnt, nat>, D: nat, s: seq<Mnt>, d: nat): (r: seq<Mnt>)
    requires Bounded(mt, depth, D) && d <= D + 1 && forall i :: 0 <= i < |s| ==> s[i] in mt && depth[s[i]] == d
    decreases D + 1 - d, |s|
  {
    if s == [] then [] else [s[0]] + Below(mt, depth, D, s[0]) + Cat(mt, depth, D, s[1..], d)
  }

  /** The slave tree of m, depth first. */
  ghost function Below(mt: Table, depth: map<Mnt, nat>, D: nat, m: Mnt): (r: seq<Mnt>)
    requires Bounded(mt, depth, D) && m in mt
    decreases D + 1 - depth[m], 0
  {
    SlaveDepths(mt, depth, m);
    Cat(mt, depth, D, mt[m].slaves, depth[m] + 1)
  }

  lemma {:induction false} SlaveDepths(mt: Table, depth: map<Mnt, nat>, m: Mnt)
    requires MasterDepth(mt, depth) && GraphOK(mt) && m in mt
    ensures forall i :: 0 <= i < |mt[m].slaves| ==> mt[m].slaves[i] in mt && depth[mt[m].slaves[i]] == depth[m] + 1
    ensures Distinct(mt[m].slaves)
  {
    hide PeersOK;
    assert SlavesOK(mt, m);
  }

  /** r is the ring of origin r[0]: the whole peer group, one master, one depth. */
  ghost predicate OriginRing(mt: Table, depth: map<Mnt, nat>, r: seq<Mnt>)
    requires MasterDepth(mt, depth)
  {
    && IsRing(mt, r) && (forall x :: x in r <==> x in PeerGroup(mt, r[0]))
    && forall i :: 0 <= i < |r| ==> mt[r[i]].master == mt[r[0]].master && depth[r[i]] == depth[r[0]]
  }

  /** x hangs off a member of the ring. */
  ghost predicate UnderAny(mt: Table, depth: map<Mnt, nat>, r: seq<Mnt>, x: Mnt)
    requires MasterDepth(mt, depth) && x in mt
    decreases depth[x]
  {
    x in r || (mt[x].master != NO_MNT && UnderAny(mt, depth, r, mt[x].master))
  }

  lemma {:induction false} UnderDeeper(mt: Table, depth: map<Mnt, nat>, r: seq<Mnt>, x: Mnt)
    requires MasterDepth(mt, depth) && x in mt && OriginRing(mt, depth, r) && UnderAny(mt, depth, r, x)
    ensures depth[x] >= depth[r[0]] && (depth[x] == depth[r[0]] <==> x in r)
    decreases depth[x]
  {
    if x !in r { UnderDeeper(mt, depth, r, mt[x].master); }
  }

  /** The test __propagation_next() uses to recognise the origin's group. */
  lemma {:induction false} SameMaster(mt: Table, depth: map<Mnt, nat>, r: seq<Mnt>, x: Mnt)
    requires MasterDepth(mt, depth) && x in mt && OriginRing(mt, depth, r) && UnderAny(mt, depth, r, x)
    ensures mt[x].master == mt[r[0]].master <==> x in r
  {
    UnderDeeper(mt, depth, r, x);
    if x in r {
      var i :| 0 <= i < |r| && r[i] == x;
    } else {
      UnderDeeper(mt, depth, r, mt[x].master);
    }
  }

  /** What the walk has still to visit once it is done with x's own slave tree. */
  ghost function Rest(mt: Table, depth: map<Mnt, nat>, D: nat, r: seq<Mnt>, x: Mnt): (w: seq<Mnt>)
    requires Bounded(mt, depth, D) && x in mt && OriginRing(mt, depth, r) && UnderAny(mt, depth, r, x)
    decreases depth[x]
  {
    if x in r then Cat(mt, depth, D, r[IndexOf(r, x) + 1..], depth[r[0]])
    else
      var k := mt[x].master;
      SlaveDepths(mt, depth, k);
      assert SlavesOK(mt, k);
      Cat(mt, depth, D, mt[k].slaves[IndexOf(mt[k].slaves, x) + 1..], depth[k] + 1) + Rest(mt, depth, D, r, k)
  }

  lemma {:induction false} IndexUnique(s: seq<Mnt>, i: nat)
    requires Distinct(s) && i < |s|
    ensures IndexOf(s, s[i]) == i
  {
    var k := IndexOf(s, s[i]);
    assert s[k] == s[i];
  }

  /** The first of a non-empty tail of a list, and what follows it. */
  lemma {:induction false} CatSplit(mt: Table, depth: map<Mnt, nat>, D: nat, s: seq<Mnt>, d: nat, i: nat)
    requires Bounded(mt, depth, D) && d <= D + 1 && (forall j :: 0 <= j < |s| ==> s[j] in mt && depth[s[j]] == d)
    requires i < |s|
    ensures Cat(mt, depth, D, s[i..], d) == [s[i]] + Below(mt, depth, D, s[i]) + Cat(mt, depth, D, s[i + 1..], d)
  {
    hide Below, Bounded;
    assert s[i..][1..] == s[i + 1..];
  }

  /** The walk leaves x's slave tree for h and will do h's slave tree and h's rest. */
  ghost predicate Leads(mt: Table, depth: map<Mnt, nat>, D: nat, r: seq<Mnt>, w: seq<Mnt>, h: Mnt)
    requires Bounded(mt, depth, D) && OriginRing(mt, depth, r)
  {
    if w == [] then h == NO_MNT
    else
      && h in mt && h != NO_MNT && UnderAny(mt, depth, r, h)
      && w == [h] + Below(mt, depth, D, h) + Rest(mt, depth, D, r, h)
  }

  /** In the origin's group: on to the next peer, or the end. */
  lemma {:induction false} RingLeads(mt: Table, depth: map<Mnt, nat>, D: nat, r: seq<Mnt>, i: nat)
    requires Bounded(mt, depth, D) && OriginRing(mt, depth, r) && i < |r|
    ensures var n := mt[r[i]].npeer;
      && UnderAny(mt, depth, r, r[i])
      && Leads(mt, depth, D, r, Rest(mt, depth, D, r, r[i]), if n == r[0] then NO_MNT else n)
  {
    hide Below, SlavesOK, PeersOK;
    IndexUnique(r, i);
    if i + 1 < |r| {
      CatSplit(mt, depth, D, r, depth[r[0]], i + 1);
      IndexUnique(r, i + 1);
      assert mt[r[i]].npeer == r[i + 1];
    } else {
      assert r[i + 1..] == [];
      assert mt[r[i]].npeer == r[0];
    }
  }

  lemma {:induction false} SlaveFacts(mt: Table, depth: map<Mnt, nat>, r: seq<Mnt>, k: Mnt, i: nat)
    requires MasterDepth(mt, depth) && GraphOK(mt) && OriginRing(mt, depth, r) && k in mt && UnderAny(mt, depth, r, k)
    requires i < |mt[k].slaves|
    ensures var x := mt[k].slaves[i];
      && x in mt && x !in r && x != NO_MNT && mt[x].master == k && k != NO_MNT && UnderAny(mt, depth, r, x)
      && IndexOf(mt[k].slaves, x) == i
  {
    hide PeersOK;
    assert SlavesOK(mt, k);
    var x := mt[k].slaves[i];
    IndexUnique(mt[k].slaves, i);
    UnderDeeper(mt, depth, r, k);
    hide SlavesOK;
    if x in r { UnderDeeper(mt, depth, r, x); }
  }

  /** The rest after the i-th slave of k. */
  lemma {:induction false} RestOfSlave(mt: Table, depth: map<Mnt, nat>, D: nat, r: seq<Mnt>, k: Mnt, i: nat)
    requires Bounded(mt, depth, D) && OriginRing(mt, depth, r) && k in mt && UnderAny(mt, depth, r, k)
    requires i < |mt[k].slaves|
    ensures var x := mt[k].slaves[i];
      && x in mt && x !in r && x != NO_MNT && mt[x].master == k && k != NO_MNT && UnderAny(mt, depth, r, x)
      && (forall j :: 0 <= j < |mt[k].slaves| ==> mt[k].slaves[j] in mt && depth[mt[k].slaves[j]] == depth[k] + 1)
      && depth[k] + 1 <= D + 1
      && Rest(mt, depth, D, r, x) == Cat(mt, depth, D, mt[k].slaves[i + 1..], depth[k] + 1) + Rest(mt, depth, D, r, k)
  {
    hide Cat, PeersOK, SlavesOK, UnderAny, OriginRing;
    SlaveFacts(mt, depth, r, k, i);
    SlaveDepths(mt, depth, k);
  }

  lemma {:induction false} NextSlaveAt(mt: Table, k: Mnt, i: nat)
    requires GraphOK(mt) && k in mt && i < |mt[k].slaves|
    ensures mt[k].slaves[i] in mt
    ensures NextSlave(mt, mt[k].slaves[i]) == if i + 1 < |mt[k].slaves| then mt[k].slaves[i + 1] else NO_MNT
    ensures i + 1 < |mt[k].slaves| ==> mt[k].slaves[i + 1] != NO_MNT
  {
    hide PeersOK;
    assert SlavesOK(mt, k);
    IndexUnique(mt[k].slaves, i);
  }

  /** Below the origin's group: on to the next slave of the same master. */
  lemma {:induction false} SlaveLeads(mt: Table, depth: map<Mnt, nat>, D: nat, r: seq<Mnt>, k: Mnt, i: nat)
    requires Bounded(mt, depth, D) && OriginRing(mt, depth, r) && k in mt && UnderAny(mt, depth, r, k)
    requires i < |mt[k].slaves|
    ensures var x := mt[k].slaves[i];
      && x in mt && UnderAny(mt, depth, r, x)
      && (i + 1 < |mt[k].slaves| ==> Leads(mt, depth, D, r, Rest(mt, depth, D, r, x), mt[k].slaves[i + 1]))
      && (i + 1 == |mt[k].slaves| ==> Rest(mt, depth, D, r, x) == Rest(mt, depth, D, r, k))
  {
    hide Below, PeersOK, Rest, SlavesOK, OriginRing, UnderAny, Cat;
    var s := mt[k].slaves;
    RestOfSlave(mt, depth, D, r, k, i);
    if i + 1 < |s| {
      RestOfSlave(mt, depth, D, r, k, i + 1);
      CatSplit(mt, depth, D, s, depth[k] + 1, i + 1);
    } else {
      assert s[i + 1..] == [];
      CatNone(mt, depth, D, depth[k] + 1);
    }
  }

  lemma {:induction false} CatNone(mt: Table, depth: map<Mnt, nat>, D: nat, d: nat)
    requires Bounded(mt, depth, D) && d <= D + 1
    ensures Cat(mt, depth, D, [], d) == []
  {
    hide Bounded;
  }

  lemma {:induction false} SlaveHas(mt: Table, x: Mnt)
    requires GraphOK(mt) && x in mt && mt[x].master in mt
    ensures x in mt[mt[x].master].slaves
  {
    assert SlavesOK(mt, mt[x].master);
    hide PeersOK;
  }

  /** __propagation_next() goes where the rest of the walk begins. */
  lemma {:induction false} UpLeads(mt: Table, depth: map<Mnt, nat>, D: nat, r: seq<Mnt>, x: Mnt)
    requires Bounded(mt, depth, D) && OriginRing(mt, depth, r) && x in mt && UnderAny(mt, depth, r, x)
    ensures Leads(mt, depth, D, r, Rest(mt, depth, D, r, x), PropNextUp(mt, depth, x, r[0]))
    decreases depth[x]
  {
    hide Below, GraphOK, Leads, NextSlave, Rest;
    SameMaster(mt, depth, r, x);
    if x in r {
      RingLeads(mt, depth, D, r, IndexOf(r, x));
    } else {
      SlaveHas(mt, x);
      var k := mt[x].master;
      var i := IndexOf(mt[k].slaves, x);
      NextSlaveAt(mt, k, i);
      SlaveLeads(mt, depth, D, r, k, i);
      if NextSlave(mt, x) == NO_MNT { UpLeads(mt, depth, D, r, mt[x].master); }
    }
  }

  /** propagation_next() goes down to the first slave, or on. */
  lemma {:induction false} NextLeads(mt: Table, depth: map<Mnt, nat>, D: nat, r: seq<Mnt>, x: Mnt)
    requires Bounded(mt, depth, D) && OriginRing(mt, depth, r) && x in mt && UnderAny(mt, depth, r, x)
    requires mt[x].slaves == [] || mt[x].ns != 0
    ensures Leads(mt, depth, D, r, Below(mt, depth, D, x) + Rest(mt, depth, D, r, x),
        PropagationNext(mt, depth, x, r[0]))
  {
    hide PeersOK, SlavesOK, Rest, UnderAny, OriginRing;
    var s := mt[x].slaves;
    if s == [] {
      UpLeads(mt, depth, D, r, x);
      assert Below(mt, depth, D, x) + Rest(mt, depth, D, r, x) == Rest(mt, depth, D, r, x);
    } else {
      var n := s[0];
      RestOfSlave(mt, depth, D, r, x, 0);
      CatSplit(mt, depth, D, s, depth[x] + 1, 0);
      assert s[0..] == s;
      hide Cat;
      assert Below(mt, depth, D, x) + Rest(mt, depth, D, r, x)
          == [n] + Below(mt, depth, D, n) + Rest(mt, depth, D, r, n);
    }
  }

  /** The walk from x's successor is x's slave tree and then the rest. */
  lemma {:induction false} WalkFrom(mt: Table, depth: map<Mnt, nat>, D: nat, r: seq<Mnt>, x: Mnt)
    requires Bounded(mt, depth, D) && OriginRing(mt, depth, r) && x in mt && UnderAny(mt, depth, r, x)
    requires SendersInNs(mt)
    ensures IsWalk(mt, depth, r[0], PropagationNext(mt, depth, x, r[0]),
        Below(mt, depth, D, x) + Rest(mt, depth, D, r, x))
    decreases |Below(mt, depth, D, x) + Rest(mt, depth, D, r, x)|
  {
    hide GraphOK, PropagationNext, Below, Rest;
    NextLeads(mt, depth, D, r, x);
    var w := Below(mt, depth, D, x) + Rest(mt, depth, D, r, x);
    var h := PropagationNext(mt, depth, x, r[0]);
    if h != NO_MNT {
      WalkFrom(mt, depth, D, r, h);
      assert w[1..] == Below(mt, depth, D, h) + Rest(mt, depth, D, r, h);
    }
  }

  // ---- each receiver once ----------------------------------------------------------------

  /** x hangs off the i-th entry of a list. */
  ghost predicate UnderEntry(mt: Table, depth: map<Mnt, nat>, s: seq<Mnt>, x: Mnt)
    requires MasterDepth(mt, depth) && x in mt
  {
    exists i :: 0 <= i < |s| && Under(mt, depth, x, s[i])
  }

  /** A mount has at most one ancestor at a given depth. */
  lemma {:induction false} AncestorUnique(mt: Table, depth: map<Mnt, nat>, x: Mnt, a: Mnt, b: Mnt)
    requires MasterDepth(mt, depth) && x in mt && a in mt && b in mt && depth[a] == depth[b]
    requires Under(mt, depth, x, a) && Under(mt, depth, x, b)
    ensures a == b
    decreases depth[x]
  {
    UnderDepth(mt, depth, x, a);
    UnderDepth(mt, depth, x, b);
    if x != a && x != b { AncestorUnique(mt, depth, mt[x].master, a, b); }
  }

  lemma {:induction false} UnderDepth(mt: Table, depth: map<Mnt, nat>, x: Mnt, a: Mnt)
    requires MasterDepth(mt, depth) && x in mt && a in mt && Under(mt, depth, x, a)
    ensures depth[x] >= depth[a] && (depth[x] == depth[a] ==> x == a)
    decreases depth[x]
  {
    if x != a { UnderDepth(mt, depth, mt[x].master, a); }
  }

  /** Strictly below m is below one of m's slaves. */
  lemma {:induction false} UnderSlave(mt: Table, depth: map<Mnt, nat>, x: Mnt, m: Mnt)
    requires MasterDepth(mt, depth) && GraphOK(mt) && x in mt && m in mt
    ensures UnderEntry(mt, depth, mt[m].slaves, x) <==> x != m && Under(mt, depth, x, m)
    decreases depth[x]
  {
    hide PeersOK;
    SlaveDepths(mt, depth, m);
    assert SlavesOK(mt, m);
    var s := mt[m].slaves;
    if x != m && Under(mt, depth, x, m) {
      if mt[x].master == m {
        assert Under(mt, depth, x, s[IndexOf(s, x)]);
      } else {
        UnderSlave(mt, depth, mt[x].master, m);
        var i :| 0 <= i < |s| && Under(mt, depth, mt[x].master, s[i]);
        assert Under(mt, depth, x, s[i]);
      }
    } else if i :| 0 <= i < |s| && Under(mt, depth, x, s[i]) {
      UnderMaster(mt, depth, x, s[i]);
      if x == m { UnderDepth(mt, depth, x, s[i]); }
    }
  }

  lemma {:induction false} UnderMaster(mt: Table, depth: map<Mnt, nat>, x: Mnt, a: Mnt)
    requires MasterDepth(mt, depth) && x in mt && a in mt && Under(mt, depth, x, a) && mt[a].master != NO_MNT
    ensures Under(mt, depth, x, mt[a].master)
    decreases depth[x]
  {
    if x != a { UnderMaster(mt, depth, mt[x].master, a); }
  }

  /** The depth-first listing of a list of mounts of one depth contains exactly the
      mounts that hang off an entry, once each. */
  lemma {:induction false} CatCounts(mt: Table, depth: map<Mnt, nat>, D: nat, s: seq<Mnt>, d: nat, x: Mnt)
    requires Bounded(mt, depth, D) && d <= D + 1 && x in mt && Distinct(s)
    requires forall i :: 0 <= i < |s| ==> s[i] in mt && depth[s[i]] == d
    ensures multiset(Cat(mt, depth, D, s, d))[x] == Bit(UnderEntry(mt, depth, s, x))
    decreases D + 1 - d, |s|, 1
  {
    hide GraphOK, Under;
    if s != [] {
      HeadCounts(mt, depth, D, s[0], x);
      CatCounts(mt, depth, D, s[1..], d, x);
      assert Cat(mt, depth, D, s, d) == ([s[0]] + Below(mt, depth, D, s[0])) + Cat(mt, depth, D, s[1..], d);
      EntrySplit(mt, depth, s, d, x);
    }
  }

  lemma {:induction false} EntrySplit(mt: Table, depth: map<Mnt, nat>, s: seq<Mnt>, d: nat, x: Mnt)
    requires MasterDepth(mt, depth) && x in mt && Distinct(s) && s != []
    requires forall i :: 0 <= i < |s| ==> s[i] in mt && depth[s[i]] == d
    ensures Bit(UnderEntry(mt, depth, s, x)) == Bit(Under(mt, depth, x, s[0])) + Bit(UnderEntry(mt, depth, s[1..], x))
  {
    hide Under;
    if i :| 0 <= i < |s| && Under(mt, depth, x, s[i]) {
      if i > 0 { assert s[1..][i - 1] == s[i]; }
    }
    if j :| 0 <= j < |s[1..]| && Under(mt, depth, x, s[1..][j]) {
      assert s[1..][j] == s[j + 1];
      if Under(mt, depth, x, s[0]) { AncestorUnique(mt, depth, x, s[0], s[j + 1]); }
    }
  }

  lemma {:induction false} HeadCounts(mt: Table, depth: map<Mnt, nat>, D: nat, m: Mnt, x: Mnt)
    requires Bounded(mt, depth, D) && x in mt && m in mt
    ensures multiset([m] + Below(mt, depth, D, m))[x] == Bit(Under(mt, depth, x, m))
    decreases D + 1 - depth[m], 0, 0
  {
    hide PeersOK, SlavesOK, Under, UnderEntry, Cat, Distinct;
    SlaveDepths(mt, depth, m);
    CatCounts(mt, depth, D, mt[m].slaves, depth[m] + 1, x);
    UnderSlave(mt, depth, x, m);
    UnderSelf(mt, depth, m);
    ConsCount(m, Below(mt, depth, D, m), x);
  }

  lemma {:induction false} ConsCount(m: Mnt, s: seq<Mnt>, x: Mnt)
    ensures multiset([m] + s)[x] == Bit(x == m) + multiset(s)[x]
  {
  }

  lemma {:induction false} UnderSelf(mt: Table, depth: map<Mnt, nat>, m: Mnt)
    requires MasterDepth(mt, depth) && m in mt
    ensures Under(mt, depth, m, m)
  {
  }

  // ---- the receivers ------------------------------------------------------------------------

  lemma {:induction false} EntryUnder(mt: Table, depth: map<Mnt, nat>, r: seq<Mnt>, x: Mnt)
    requires MasterDepth(mt, depth) && x in mt
    ensures UnderEntry(mt, depth, r, x) <==> UnderAny(mt, depth, r, x)
    decreases depth[x]
  {
    if x in r {
      var i :| 0 <= i < |r| && r[i] == x;
      assert Under(mt, depth, x, r[i]);
    } else if mt[x].master != NO_MNT {
      EntryUnder(mt, depth, r, mt[x].master);
      if i :| 0 <= i < |r| && Under(mt, depth, mt[x].master, r[i]) { assert Under(mt, depth, x, r[i]); }
      if i :| 0 <= i < |r| && Under(mt, depth, x, r[i]) { assert Under(mt, depth, mt[x].master, r[i]); }
    }
  }

  /** Propagation stays under the origin's group ... */
  lemma {:induction false} SendsUnder(mt: Table, depth: map<Mnt, nat>, r: seq<Mnt>, m: Mnt, x: Mnt)
    requires MasterDepth(mt, depth) && GraphOK(mt) && OriginRing(mt, depth, r) && m in mt && x in mt
    requires UnderAny(mt, depth, r, m) && Sends(mt, m, x)
    ensures UnderAny(mt, depth, r, x)
  {
    hide SlavesOK;
    assert PeersOK(mt, m);
    var p := if x in PeerGroup(mt, m) then x else mt[x].master;
    assert p in PeerGroup(mt, m) && mt[p].master == mt[m].master;
    if m in r { PeersInRing(mt, depth, r, m, p); }
    assert UnderAny(mt, depth, r, p);
  }

  lemma {:induction false} PeersInRing(mt: Table, depth: map<Mnt, nat>, r: seq<Mnt>, m: Mnt, p: Mnt)
    requires MasterDepth(mt, depth) && OriginRing(mt, depth, r) && m in r && m in mt && p in PeerGroup(mt, m)
    ensures p in r
  {
    assert m in PeerGroup(mt, r[0]);
  }

  lemma {:induction false} ClosureUnder(mt: Table, depth: map<Mnt, nat>, r: seq<Mnt>, S: set<Mnt>, x: Mnt)
    requires MasterDepth(mt, depth) && GraphOK(mt) && OriginRing(mt, depth, r) && S <= mt.Keys
    requires forall m :: m in S ==> UnderAny(mt, depth, r, m)
    ensures x in RecvClosure(mt, S) ==> x in mt && UnderAny(mt, depth, r, x)
    decreases |mt.Keys - S|
  {
    hide GraphOK, Sends, UnderAny, OriginRing;
    var N := S + (set y | y in mt && exists m :: m in S && Sends(mt, m, y));
    if N != S {
      Grows(mt.Keys, S, N);
      forall z | z in N ensures UnderAny(mt, depth, r, z) {
        if z !in S {
          var m :| m in S && Sends(mt, m, z);
          SendsUnder(mt, depth, r, m, z);
        }
      }
      ClosureUnder(mt, depth, r, N, x);
    }
  }

  /** ... and reaches all of it. */
  lemma {:induction false} ClosureClosed(mt: Table, S: set<Mnt>, m: Mnt, x: Mnt)
    requires S <= mt.Keys && m in RecvClosure(mt, S) && x in mt && Sends(mt, m, x)
    ensures x in RecvClosure(mt, S)
    decreases |mt.Keys - S|
  {
    hide Sends;
    var N := S + (set y | y in mt && exists k :: k in S && Sends(mt, k, y));
    if N != S {
      Grows(mt.Keys, S, N);
      ClosureClosed(mt, N, m, x);
    }
  }

  lemma {:induction false} UnderClosure(mt: Table, depth: map<Mnt, nat>, r: seq<Mnt>, x: Mnt)
    requires MasterDepth(mt, depth) && OriginRing(mt, depth, r) && x in mt && UnderAny(mt, depth, r, x)
    ensures x in RecvClosure(mt, {r[0]})
    decreases depth[x]
  {
    hide RecvClosure;
    if x in r {
      ClosureClosed(mt, {r[0]}, r[0], x);
    } else {
      UnderClosure(mt, depth, r, mt[x].master);
      ClosureClosed(mt, {r[0]}, mt[x].master, x);
    }
  }

  /** The receivers of r[0] are what hangs off its ring. */
  lemma {:induction false} ReceiversUnder(mt: Table, depth: map<Mnt, nat>, r: seq<Mnt>, x: Mnt)
    requires MasterDepth(mt, depth) && GraphOK(mt) && OriginRing(mt, depth, r) && x in mt
    ensures x in RecvSet(mt, r[0]) <==> x != r[0] && UnderAny(mt, depth, r, x)
  {
    hide GraphOK, RecvClosure;
    assert r[0] in r && UnderAny(mt, depth, r, r[0]);
    ClosureUnder(mt, depth, r, {r[0]}, x);
    if UnderAny(mt, depth, r, x) { UnderClosure(mt, depth, r, x); }
  }

  lemma {:induction false} RingExists(mt: Table, depth: map<Mnt, nat>, m: Mnt) returns (r: seq<Mnt>)
    requires MasterDepth(mt, depth) && GraphOK(mt) && m in mt
    ensures OriginRing(mt, depth, r) && r[0] == m
  {
    hide SlavesOK;
    assert PeersOK(mt, m);
    r :| IsRing(mt, r) && r[0] == m && forall x :: x in r <==> x in PeerGroup(mt, m);
    forall i | 0 <= i < |r| ensures mt[r[i]].master == mt[m].master { assert r[i] in r; }
  }

  lemma {:induction false} BoundExists(mt: Table, depth: map<Mnt, nat>, S: set<Mnt>) returns (D: nat)
    requires MasterDepth(mt, depth) && S <= mt.Keys
    ensures forall m :: m in S ==> depth[m] <= D
    decreases |S|
  {
    if S == {} {
      D := 0;
    } else {
      var a := Pick(S);
      var E := BoundExists(mt, depth, S - {a});
      D := if E < depth[a] then depth[a] else E;
      forall x | x in S ensures depth[x] <= D { assert x == a || x in S - {a}; }
    }
  }

  /** propagation_next() started at any mount m of a well-formed graph with acyclic
      masters comes to an end; it has then visited every receiver of m exactly
      once and nothing else. */
  lemma {:induction false} IteratesReceivers(mt: Table, depth: map<Mnt, nat>, m: Mnt) returns (w: seq<Mnt>)
    requires MasterDepth(mt, depth) && GraphOK(mt) && SendersInNs(mt) && m in mt
    ensures IsWalk(mt, depth, m, PropagationNext(mt, depth, m, m), w)
    ensures forall x :: x in mt ==> multiset(w)[x] == Bit(x in RecvSet(mt, m))
  {
    hide RecvSet;
    var r := RingExists(mt, depth, m);
    var D := BoundExists(mt, depth, mt.Keys);
    OriginUnder(mt, depth, r);
    WalkFrom(mt, depth, D, r, m);
    WalkCounts(mt, depth, D, r);
    w := Below(mt, depth, D, m) + Rest(mt, depth, D, r, m);
  }

  /** What the walk from r[0] visits, counted. */
  lemma {:induction false} WalkCounts(mt: Table, depth: map<Mnt, nat>, D: nat, r: seq<Mnt>)
    requires Bounded(mt, depth, D) && OriginRing(mt, depth, r)
    ensures UnderAny(mt, depth, r, r[0])
    ensures var w := Below(mt, depth, D, r[0]) + Rest(mt, depth, D, r, r[0]);
      forall x :: x in mt ==> multiset(w)[x] == Bit(x in RecvSet(mt, r[0]))
  {
    hide RecvSet;
    OriginUnder(mt, depth, r);
    var m := r[0];
    var w := Below(mt, depth, D, m) + Rest(mt, depth, D, r, m);
    IndexUnique(r, 0);
    CatSplit(mt, depth, D, r, depth[m], 0);
    assert r[0..] == r;
    var all := Cat(mt, depth, D, r, depth[m]);
    assert all == [m] + w;
    hide Cat, Below, Rest, GraphOK, UnderAny;
    forall x | x in mt ensures multiset(w)[x] == Bit(x in RecvSet(mt, m)) {
      CatCounts(mt, depth, D, r, depth[m], x);
      EntryUnder(mt, depth, r, x);
      ReceiversUnder(mt, depth, r, x);
      assert multiset(all) == multiset{m} + multiset(w);
      OriginUnder(mt, depth, r);
    }
  }

  lemma {:induction false} OriginUnder(mt: Table, depth: map<Mnt, nat>, r: seq<Mnt>)
    requires MasterDepth(mt, depth) && OriginRing(mt, depth, r)
    ensures UnderAny(mt, depth, r, r[0])
  {
    assert r[0] in r;
  }

  /** The walk is determined by where it starts. */
  lemma {:induction false} WalkUnique(mt: Table, depth: map<Mnt, nat>, o: Mnt, q: Mnt, v: seq<Mnt>, w: seq<Mnt>)
    requires MasterDepth(mt, depth) && o in mt && IsWalk(mt, depth, o, q, v) && IsWalk(mt, depth, o, q, w)
    ensures v == w
    decreases |v|
  {
    hide PropagationNext;
    if q != NO_MNT { WalkUnique(mt, depth, o, PropagationNext(mt, depth, q, o), v[1..], w[1..]); }
  }
}
