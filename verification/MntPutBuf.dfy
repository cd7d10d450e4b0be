/** Store buffers and split counters: what flushing and buffering preserve, and why
    a sum that reads the puts first cannot come out too low. */
module MntPutBuf {
  import opened Finite
  import opened MntPut
  import opened MntPutInv

  // ---- nets ------------------------------------------------------------------------------------

  ghost function D(e: Store): (d: int) { if e.StCnt? then e.d else 0 }

  lemma {:induction false} NetCat(a: seq<Store>, b: seq<Store>)
    ensures Net(a + b) == Net(a) + Net(b)
    decreases |a|
  {
    if a == [] { assert a + b == b; }
    else {
      assert (a + b)[1..] == a[1..] + b;
      NetCat(a[1..], b);
    }
  }

  lemma {:induction false} NetOne(e: Store)
    ensures Net([e]) == D(e)
  {
    assert [e][1..] == [];
  }

  lemma {:induction false} NetRemove(b: seq<Store>, i: nat)
    requires i < |b|
    ensures Net(Remove(b, i)) == Net(b) - D(b[i])
  {
    assert b == b[..i] + ([b[i]] + b[i + 1..]);
    NetCat(b[..i], [b[i]] + b[i + 1..]);
    NetCat([b[i]], b[i + 1..]);
    NetOne(b[i]);
    NetCat(b[..i], b[i + 1..]);
  }

  // ---- buffering ---------------------------------------------------------------------------------

  /** Buffering a put behind its barrier. */
  lemma {:induction false} PushPut(ncpu: nat, own: int, b: seq<Store>, c: nat)
    requires BufOK(ncpu, own, b) && own >= 1 && c < ncpu
    ensures var a := b + [StWmb, StCnt(c, -1)]; BufOK(ncpu, own - 1, a) && Net(a) == Net(b) - 1
  {
    var e := [StWmb, StCnt(c, -1)];
    var a := b + e;
    assert e[1..] == [StCnt(c, -1)];
    NetOne(StCnt(c, -1));
    NetCat(b, e);
    forall i | 0 <= i < |a| && IsPut(a[i]) ensures PutOK(own - 1, a, i) {
      if i < |b| {
        assert PutOK(own, b, i);
        assert a[i + 1..] == b[i + 1..] + e;
        NetCat(b[i + 1..], e);
      } else {
        assert a[i + 1..] == [];
      }
    }
  }

  /** Buffering a get on top of a reference, or with no put pending. */
  lemma {:induction false} PushGet(ncpu: nat, own: int, b: seq<Store>, c: nat)
    requires BufOK(ncpu, own, b) && (own >= 1 || b == []) && c < ncpu
    ensures var a := b + [StCnt(c, 1)]; BufOK(ncpu, own + 1, a) && Net(a) == Net(b) + 1
  {
    var e := [StCnt(c, 1)];
    var a := b + e;
    NetOne(StCnt(c, 1));
    NetCat(b, e);
    forall i | 0 <= i < |a| && IsPut(a[i]) ensures PutOK(own + 1, a, i) {
      assert PutOK(own, b, i);
      assert a[i + 1..] == b[i + 1..] + e;
      NetCat(b[i + 1..], e);
    }
  }

  /** Buffering two other stores. */
  lemma {:induction false} PushOther(ncpu: nat, own: int, b: seq<Store>, e: seq<Store>)
    requires BufOK(ncpu, own, b) && |e| == 2 && forall i :: 0 <= i < |e| ==> !e[i].StCnt? && !e[i].StLock?
    ensures BufOK(ncpu, own, b + e) && Net(b + e) == Net(b)
  {
    var a := b + e;
    assert e == [e[0]] + [e[1]];
    NetOne(e[0]);
    NetOne(e[1]);
    NetCat([e[0]], [e[1]]);
    NetCat(b, e);
    forall i | 0 <= i < |a| && IsPut(a[i]) ensures PutOK(own, a, i) {
      assert i < |b|;
      assert PutOK(own, b, i);
      assert a[i + 1..] == b[i + 1..] + e;
      NetCat(b[i + 1..], e);
    }
  }

  // ---- flushing -----------------------------------------------------------------------------------

  /** A put leaves only from the front, and leaves a reference visible. */
  lemma {:induction false} FlushPut(ncpu: nat, own: int, b: seq<Store>, i: nat)
    requires BufOK(ncpu, own, b) && Flushable(b, i) && IsPut(b[i])
    ensures i == 0 && own - Net(Remove(b, i)) >= Bit(own >= 1)
  {
    assert PutOK(own, b, i);
    assert Remove(b, 0) == b[1..];
  }

  lemma {:induction false} FlushEntry(ncpu: nat, own: int, b: seq<Store>, i: nat, j: nat)
    requires BufOK(ncpu, own, b) && Flushable(b, i) && j < |b| - 1 && IsPut(Remove(b, i)[j])
    ensures PutOK(own, Remove(b, i), j)
  {
    var r := Remove(b, i);
    if j < i {
      assert PutOK(own, b, j);
      assert r[j + 1..] == Remove(b[j + 1..], i - j - 1);
      NetRemove(b[j + 1..], i - j - 1);
      if IsPut(b[i]) { FlushPut(ncpu, own, b, i); }
    } else {
      assert r[j] == b[j + 1];
      assert PutOK(own, b, j + 1);
      assert r[j + 1..] == b[j + 2..];
      if j > 0 && j > i { assert r[j - 1] == b[j]; }
    }
  }

  lemma {:induction false} FlushBuf(ncpu: nat, own: int, b: seq<Store>, i: nat)
    requires BufOK(ncpu, own, b) && Flushable(b, i)
    ensures BufOK(ncpu, own, Remove(b, i))
  {
    var r := Remove(b, i);
    forall j | 0 <= j < |r| ensures r[j] == b[if j < i then j else j + 1] {}
    forall j | 0 <= j < |r| && IsPut(r[j]) ensures PutOK(own, r, j) { FlushEntry(ncpu, own, b, i, j); }
  }

  // ---- the counters -----------------------------------------------------------------------------------

  lemma {:induction false} SumSeqUpdate(s: seq<int>, c: nat, x: int)
    requires c < |s|
    ensures SumSeq(s[c := x]) == SumSeq(s) - s[c] + x
    decreases |s|
  {
    if c == 0 { assert s[c := x][1..] == s[1..]; }
    else {
      assert s[c := x][1..] == s[1..][c - 1 := x];
      SumSeqUpdate(s[1..], c - 1, x);
    }
  }

  ghost predicate PutTo(e: Store, c: nat) { e.StCnt? && e.c == c && e.d < 0 }

  ghost predicate GetTo(e: Store, c: nat) { e.StCnt? && e.c == c && e.d > 0 }

  lemma {:induction false} BufferedRemove(b: seq<Store>, i: nat, c: nat)
    requires i < |b|
    ensures BufferedPuts(Remove(b, i), c) == BufferedPuts(b, c) - Bit(PutTo(b[i], c))
    ensures BufferedGets(Remove(b, i), c) == BufferedGets(b, c) - Bit(GetTo(b[i], c))
    decreases |b|
  {
    if i == 0 { assert Remove(b, 0) == b[1..]; }
    else {
      assert Remove(b, i)[1..] == Remove(b[1..], i - 1);
      assert Remove(b, i)[0] == b[0];
      BufferedRemove(b[1..], i - 1, c);
    }
  }

  /** A counter store as the protocol makes them. */
  ghost predicate Unit(ncpu: nat, e: Store) { e.StCnt? ==> e.c < ncpu && (e.d == 1 || e.d == -1) }

  /** A CPU's own flush changes nothing it sees; others see both words grow. */
  lemma {:induction false} FlushSeen(v: Vis, b: seq<Store>, i: nat, c: nat)
    requires i < |b| && c < |v.cntv| == |v.putv| && Unit(|v.cntv|, b[i])
    ensures var w := Apply(v, b[i]);
      && |w.cntv| == |w.putv| == |v.cntv|
      && SeenPuts(w, Remove(b, i), c) == SeenPuts(v, b, c) && SeenGets(w, Remove(b, i), c) == SeenGets(v, b, c)
  {
    BufferedRemove(b, i, c);
  }

  lemma {:induction false} OtherSeen(v: Vis, e: Store, b: seq<Store>, c: nat)
    requires c < |v.cntv| == |v.putv| && Unit(|v.cntv|, e)
    ensures var w := Apply(v, e);
      && |w.cntv| == |w.putv| == |v.cntv|
      && SeenPuts(w, b, c) >= SeenPuts(v, b, c) && SeenGets(w, b, c) >= SeenGets(v, b, c)
  {
  }

  /** Whatever is seen grows: so do the sums. */
  lemma {:induction false} PutsGrow(v: Vis, b: seq<Store>, w: Vis, a: seq<Store>, n: nat)
    requires n <= |v.putv| == |w.putv|
    requires forall c {:trigger SeenPuts(v, b, c)} :: 0 <= c < |v.putv| ==> SeenPuts(v, b, c) <= SeenPuts(w, a, c)
    ensures PutsRead(v, b, n) <= PutsRead(w, a, n)
    decreases n
  {
    hide SeenPuts;
    if n > 0 { PutsGrow(v, b, w, a, n - 1); }
  }

  lemma {:induction false} GetsGrow(v: Vis, b: seq<Store>, w: Vis, a: seq<Store>, n: nat)
    requires n <= |v.putv| == |w.putv| == |v.cntv| == |w.cntv|
    requires forall c {:trigger SeenGets(v, b, c)} :: 0 <= c < |v.putv| ==> SeenGets(v, b, c) <= SeenGets(w, a, c)
    ensures GetsLeft(v, b, n) <= GetsLeft(w, a, n)
    decreases |v.cntv| - n
  {
    hide SeenGets;
    if n < |v.cntv| { GetsGrow(v, b, w, a, n + 1); }
  }

  /** The buffered nets of the CPUs from k on. */
  ghost function BufFrom(b: seq<Store>, k: nat, n: nat): (s: int)
    requires k <= n
    decreases n - k
  {
    if k == n then 0 else BufferedGets(b, k) - BufferedPuts(b, k) + BufFrom(b, k + 1, n)
  }

  lemma {:induction false} BufFromNone(k: nat, n: nat)
    requires k <= n
    ensures BufFrom([], k, n) == 0
    decreases n - k
  {
    if k < n { BufFromNone(k + 1, n); }
  }

  lemma {:induction false} BufFromCons(b: seq<Store>, k: nat, n: nat)
    requires k <= n && b != [] && Unit(n, b[0])
    ensures BufFrom(b, k, n) == BufFrom(b[1..], k, n) + if b[0].StCnt? && k <= b[0].c then b[0].d else 0
    decreases n - k
  {
    if k < n { BufFromCons(b, k + 1, n); }
  }

  lemma {:induction false} BufFromNet(b: seq<Store>, n: nat)
    requires forall i {:trigger b[i]} :: 0 <= i < |b| ==> Unit(n, b[i])
    ensures BufFrom(b, 0, n) == Net(b)
    decreases |b|
  {
    if b == [] { BufFromNone(0, n); }
    else {
      BufFromCons(b, 0, n);
      BufFromNet(b[1..], n);
    }
  }

  lemma {:induction false} SplitFrom(v: Vis, b: seq<Store>, k: nat)
    requires k <= |v.cntv| == |v.putv|
    ensures GetsLeft(v, b, k) - (PutsRead(v, b, |v.putv|) - PutsRead(v, b, k))
        == SumSeq(v.cntv[k..]) + BufFrom(b, k, |v.cntv|)
    decreases |v.cntv| - k
  {
    if k < |v.cntv| {
      SplitFrom(v, b, k + 1);
      assert v.cntv[k..][1..] == v.cntv[k + 1..];
      assert PutsRead(v, b, k + 1) == PutsRead(v, b, k) + SeenPuts(v, b, k);
    } else {
      assert v.cntv[k..] == [];
    }
  }

  /** Both passes at one instant: the visible count and the summer's own stores. */
  lemma {:induction false} SplitSum(v: Vis, b: seq<Store>)
    requires |v.cntv| == |v.putv| && forall i {:trigger b[i]} :: 0 <= i < |b| ==> Unit(|v.cntv|, b[i])
    ensures GetsLeft(v, b, 0) - PutsRead(v, b, |v.putv|) == SumSeq(v.cntv) + Net(b)
  {
    SplitFrom(v, b, 0);
    BufFromNet(b, |v.cntv|);
    assert v.cntv[0..] == v.cntv;
  }
}
