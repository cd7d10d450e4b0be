/** A walk that ends in RCU mode with the sequence count unchanged returns exactly
    what the locked walk returns on the tree as it is then. */
module MountWalkProof {
  import opened Finite
  import opened MountWalk

  // ---- the locked walk has one result -------------------------------------------------------------

  lemma {:induction false} CrossUnique(mt: Table, m: Mnt, d: Dentry, a: Pos, b: Pos, i: nat, j: nat)
    requires CrossIn(mt, m, d, a, i) && CrossIn(mt, m, d, b, j)
    ensures a == b
    decreases i
  {
    hide LookupMnt;
    var o := LookupMnt(mt, m, d);
    if o != NO_MNT { CrossUnique(mt, o, mt[o].root, a, b, i - 1, j - 1); }
  }

  lemma {:induction false} ClimbUnique(mt: Table, m: Mnt, root: Pos, a: Climbed, b: Climbed, i: nat, j: nat)
    requires ClimbIn(mt, m, root, a, i) && ClimbIn(mt, m, root, b, j)
    ensures a == b
    decreases i
  {
    var p, mp := mt[m].parent, mt[m].mp;
    if p != m && !(p == root.mnt && mp == root.d) && mp == mt[p].root { ClimbUnique(mt, p, root, a, b, i - 1, j - 1); }
  }

  lemma {:induction false} DotDotUnique(sys: Sys, mt: Table, pos: Pos, root: Pos, a: Pos, b: Pos)
    requires DotDot(sys, mt, pos, root, a) && DotDot(sys, mt, pos, root, b)
    ensures a == b
  {
    if pos != root && AtRoot(mt, pos) {
      var c :| Climb(mt, pos.mnt, root, c) && a == if c.found then Pos(c.mnt, sys.up(c.d)) else pos;
      var e :| Climb(mt, pos.mnt, root, e) && b == if e.found then Pos(e.mnt, sys.up(e.d)) else pos;
      var i: nat :| ClimbIn(mt, pos.mnt, root, c, i);
      var j: nat :| ClimbIn(mt, pos.mnt, root, e, j);
      ClimbUnique(mt, pos.mnt, root, c, e, i, j);
    }
  }

  lemma {:induction false} ResolveUnique(sys: Sys, mt: Table, prog: seq<Comp>, pos: Pos, root: Pos, r: Res, s: Res)
    requires Resolve(sys, mt, prog, pos, root, r) && Resolve(sys, mt, prog, pos, root, s)
    ensures r == s
    decreases |prog|
  {
    hide DotDot, Cross;
    if prog != [] {
      match prog[0]
      case Up =>
        var q :| DotDot(sys, mt, pos, root, q) && Resolve(sys, mt, prog[1..], q, root, r);
        var p :| DotDot(sys, mt, pos, root, p) && Resolve(sys, mt, prog[1..], p, root, s);
        DotDotUnique(sys, mt, pos, root, q, p);
        ResolveUnique(sys, mt, prog[1..], q, root, r, s);
      case Name(n) =>
        match sys.child(pos.d, n) {
          case NoD =>
          case D(c) =>
            if c !in sys.negative {
              var q :| Cross(mt, pos.mnt, c, q) && Resolve(sys, mt, prog[1..], q, root, r);
              var p :| Cross(mt, pos.mnt, c, p) && Resolve(sys, mt, prog[1..], p, root, s);
              CrossOnce(mt, pos.mnt, c, q, p);
              ResolveUnique(sys, mt, prog[1..], q, root, r, s);
            }
        }
    }
  }

  lemma {:induction false} CrossOnce(mt: Table, m: Mnt, d: Dentry, a: Pos, b: Pos)
    requires Cross(mt, m, d, a) && Cross(mt, m, d, b)
    ensures a == b
  {
    hide LookupMnt;
    var i: nat :| CrossIn(mt, m, d, a, i);
    var j: nat :| CrossIn(mt, m, d, b, j);
    CrossUnique(mt, m, d, a, b, i, j);
  }

  // ---- the invariant ---------------------------------------------------------------------------------

  ghost predicate MIn(l: MPc) { l == MAttach || l == MUnlock }

  ghost predicate CIn(l: CPc) {
    l == CUnhash || l == CMvUnhash || l == CMvSet || l == CMvHash || l == CUnlock || l == CUmUnlock
  }

  /** One mount_lock section at a time; the seqcount is odd inside. */
  ghost predicate Sections(st: State) { !(MIn(st.mpc) && CIn(st.cpc)) && (Writing(st) <==> MIn(st.mpc) || CIn(st.cpc)) }

  /** A mount somewhere: its mountpoint is flagged and real. */
  ghost predicate MountOK(sys: Sys, mounted: set<Dentry>, x: Mnt, k: Mount) {
    k.alive ==> k.root !in sys.negative && (k.parent != x ==> k.mp in mounted && k.mp !in sys.negative)
  }

  ghost predicate TreeOK(sys: Sys, st: State) {
    && (forall x {:trigger st.mt[x]} :: x in st.mt ==> MountOK(sys, st.mounted, x, st.mt[x]))
    && (forall d {:trigger Pinned(st, d)} :: Pinned(st, d) ==> d in st.mounted && d !in sys.negative)
    && (st.todo != {} ==> st.cpc == CUmUnlock || st.cpc == CPut)
    && (forall x {:trigger x in st.todo} :: x in st.todo ==> x in st.mt && !st.mt[x].hashed)
  }

  /** What the rest of the walk from k would return with everything locked. */
  ghost predicate Cont(sys: Sys, mt: Table, prog: seq<Comp>, root: Pos, k: Walker, r: Res) {
    match k.pc
    case WInit => Resolve(sys, mt, prog, root, root, r)
    case WComp => k.ip <= |prog| && Resolve(sys, mt, prog[k.ip..], k.path, root, r)
    case WSlow => r == ENoEnt
    case WMounts =>
      k.ip < |prog| && if k.nxt in sys.negative then r == ENoEnt
                       else exists q {:trigger Cross(mt, k.path.mnt, k.nxt, q)} ::
                         Cross(mt, k.path.mnt, k.nxt, q) && Resolve(sys, mt, prog[k.ip + 1..], q, root, r)
    case WStep =>
      && k.ip < |prog|
      && if k.nxt in sys.negative then r == ENoEnt
            else Resolve(sys, mt, prog[k.ip + 1..], Pos(k.path.mnt, k.nxt), root, r)
    case WDotDot =>
      && k.ip < |prog|
      && exists q {:trigger DotDot(sys, mt, k.path, root, q)} ::
          DotDot(sys, mt, k.path, root, q) && Resolve(sys, mt, prog[k.ip + 1..], q, root, r)
    case WComplete => r == Got(k.path)
    case Ref | Finished => false
  }

  /** While the seqcount is unchanged, the rest of the walk is the rest of the locked one. */
  ghost predicate OnTrack(sys: Sys, mt: Table, prog: seq<Comp>, root: Pos, k: Walker) {
    && (match k.pc case WMounts | WStep | WDotDot => k.ip < |prog| case WComp => k.ip <= |prog| case _ => true)
    && forall r {:trigger Cont(sys, mt, prog, root, k, r)} ::
        (Cont(sys, mt, prog, root, k, r) <==> Resolve(sys, mt, prog, root, root, r))
  }

  ghost predicate Walking(k: Walker) { k.pc != WInit && k.pc != Ref && k.pc != Finished }

  ghost predicate WalkerOK(sys: Sys, st: State, w: Wid) {
    w in st.ws && w in sys.prog && w in sys.root &&
    var k := st.ws[w];
    && (k.pc == WInit ==> k.path == sys.root[w] && k.ip == 0)
    && (Walking(k) ==>
          && k.mseq % 2 == 0 && k.mseq <= st.seqv
          && (k.mseq == st.seqv ==> OnTrack(sys, st.mt, sys.prog[w], sys.root[w], k)))
  }

  ghost predicate Inv(sys: Sys, st: State) {
    Sections(st) && TreeOK(sys, st) && forall w {:trigger WalkerOK(sys, st, w)} :: w in st.ws ==> WalkerOK(sys, st, w)
  }

  // ---- walkers -------------------------------------------------------------------------------------------

  lemma {:induction false} TailOf(prog: seq<Comp>, i: nat)
    requires i < |prog|
    ensures prog[i..] != [] && prog[i..][0] == prog[i] && prog[i..][1..] == prog[i + 1..]
  {
  }

  lemma {:induction false} CompTrack(sys: Sys, st: State, w: Wid, z: State)
    requires WalkerOK(sys, st, w) && StepComp(sys, st, w, z) && st.ws[w].mseq == st.seqv
    ensures w in z.ws && OnTrack(sys, st.mt, sys.prog[w], sys.root[w], z.ws[w])
  {
    hide Cross, DotDot;
    var k, j, prog, root := st.ws[w], z.ws[w], sys.prog[w], sys.root[w];
    if k.ip < |prog| { TailOf(prog, k.ip); } else { assert prog[k.ip..] == []; }
    forall r ensures Cont(sys, st.mt, prog, root, j, r) <==> Cont(sys, st.mt, prog, root, k, r) {
      assert Cont(sys, st.mt, prog, root, k, r) <==> Resolve(sys, st.mt, prog[k.ip..], k.path, root, r);
    }
  }

  /** DCACHE_MOUNTED clear, and no writer: nothing is mounted there. */
  lemma {:induction false} NotMounted(sys: Sys, st: State, p: Mnt, d: Dentry)
    requires TreeOK(sys, st)
    ensures d !in st.mounted ==> LookupMnt(st.mt, p, d) == NO_MNT
    ensures LookupMnt(st.mt, p, d) != NO_MNT
        ==> d !in sys.negative && st.mt[LookupMnt(st.mt, p, d)].root !in sys.negative
  {
    var o := LookupMnt(st.mt, p, d);
    if o != NO_MNT { assert MountOK(sys, st.mounted, o, st.mt[o]); }
  }

  lemma {:induction false} CrossHere(mt: Table, m: Mnt, d: Dentry)
    requires LookupMnt(mt, m, d) == NO_MNT
    ensures forall q {:trigger Cross(mt, m, d, q)} :: Cross(mt, m, d, q) <==> q == Pos(m, d)
  {
    hide LookupMnt;
    assert CrossIn(mt, m, d, Pos(m, d), 0);
  }

  lemma {:induction false} CrossHop(mt: Table, m: Mnt, d: Dentry, q: Pos)
    requires LookupMnt(mt, m, d) != NO_MNT
    ensures Cross(mt, m, d, q) <==> Cross(mt, LookupMnt(mt, m, d), mt[LookupMnt(mt, m, d)].root, q)
  {
    hide LookupMnt;
    var o := LookupMnt(mt, m, d);
    if Cross(mt, o, mt[o].root, q) {
      var n: nat :| CrossIn(mt, o, mt[o].root, q, n);
      assert CrossIn(mt, m, d, q, n + 1);
    }
    if Cross(mt, m, d, q) {
      var n: nat :| CrossIn(mt, m, d, q, n);
      assert CrossIn(mt, o, mt[o].root, q, n - 1);
    }
  }

  lemma {:induction false} MountsTrack(sys: Sys, st: State, w: Wid, z: State)
    requires WalkerOK(sys, st, w) && TreeOK(sys, st) && StepMounts(sys, st, w, z) && st.ws[w].mseq == st.seqv
    ensures w in z.ws && OnTrack(sys, st.mt, sys.prog[w], sys.root[w], z.ws[w])
  {
    hide Cross, DotDot, TreeOK, LookupMnt, Resolve;
    var k, j, prog, root := st.ws[w], z.ws[w], sys.prog[w], sys.root[w];
    var o := LookupMnt(st.mt, k.path.mnt, k.nxt);
    NotMounted(sys, st, k.path.mnt, k.nxt);
    if o == NO_MNT {
      CrossHere(st.mt, k.path.mnt, k.nxt);
      assert Cross(st.mt, k.path.mnt, k.nxt, Pos(k.path.mnt, k.nxt));
    } else {
      forall q ensures Cross(st.mt, k.path.mnt, k.nxt, q) <==> Cross(st.mt, o, st.mt[o].root, q) {
        CrossHop(st.mt, k.path.mnt, k.nxt, q);
      }
    }
    forall r ensures Cont(sys, st.mt, prog, root, j, r) <==> Cont(sys, st.mt, prog, root, k, r) {}
  }

  lemma {:induction false} StepTrack(sys: Sys, st: State, w: Wid, z: State)
    requires WalkerOK(sys, st, w) && (StepStep(sys, st, w, z) || StepDotDot(sys, st, w, z)) && st.ws[w].mseq == st.seqv
    requires Walking(z.ws[w])
    ensures OnTrack(sys, st.mt, sys.prog[w], sys.root[w], z.ws[w])
  {
    hide Cross, DotDot, Resolve;
    var k, j, prog, root := st.ws[w], z.ws[w], sys.prog[w], sys.root[w];
    if k.pc == WDotDot {
      var q :| DotDot(sys, st.mt, k.path, root, q) && GoUp(sys, st, w, q, z);
      forall p | DotDot(sys, st.mt, k.path, root, p) ensures p == q { DotDotUnique(sys, st.mt, k.path, root, p, q); }
    }
    forall r ensures Cont(sys, st.mt, prog, root, j, r) <==> Cont(sys, st.mt, prog, root, k, r) {}
  }

  lemma {:induction false} InitTrack(sys: Sys, st: State, w: Wid, z: State)
    requires WalkerOK(sys, st, w) && StepInit(st, w, z)
    ensures OnTrack(sys, st.mt, sys.prog[w], sys.root[w], z.ws[w])
  {
    hide Cross, DotDot, Resolve;
    assert sys.prog[w][0..] == sys.prog[w];
  }

  ghost predicate OneStep(st: State, w: Wid, z: State)
    requires w in st.ws
  {
    && w in z.ws && z == Set(st, w, z.ws[w]) && z.ws[w].pc != WInit
    && (z.ws[w].mseq == st.ws[w].mseq || StepInit(st, w, z))
    && (st.ws[w].pc == WInit || Walking(st.ws[w]))
  }

  lemma {:induction false} PlainForm(sys: Sys, st: State, w: Wid, z: State)
    requires w in st.ws && w in sys.prog
    requires StepInit(st, w, z) || StepComp(sys, st, w, z) || StepSlow(sys, st, w, z) || StepComplete(sys, st, w, z)
    ensures OneStep(st, w, z)
  {
  }

  lemma {:induction false} ReadForm(sys: Sys, st: State, w: Wid, z: State)
    requires w in st.ws && w in sys.root
    requires StepMounts(sys, st, w, z) || StepStep(sys, st, w, z) || StepDotDot(sys, st, w, z)
    ensures OneStep(st, w, z)
  {
    hide DotDot, LookupMnt, AtRoot;
  }

  lemma {:induction false} WalkForm(sys: Sys, st: State, w: Wid, z: State)
    requires WalkStep(sys, st, w, z)
    ensures OneStep(st, w, z)
  {
    hide OneStep, StepInit, StepComp, StepSlow, StepMounts, StepStep, StepDotDot, StepComplete;
    if StepMounts(sys, st, w, z) || StepStep(sys, st, w, z) || StepDotDot(sys, st, w, z) { ReadForm(sys, st, w, z); }
    else { PlainForm(sys, st, w, z); }
  }

  lemma {:induction false} WalkTrack(sys: Sys, st: State, w: Wid, z: State)
    requires WalkerOK(sys, st, w) && TreeOK(sys, st) && Sections(st) && WalkStep(sys, st, w, z)
    ensures WalkerOK(sys, z, w)
  {
    WalkForm(sys, st, w, z);
    hide TreeOK, OnTrack, StepComp, StepSlow, StepMounts, StepStep, StepDotDot, StepComplete;
    if Walking(z.ws[w]) && z.ws[w].mseq == st.seqv {
      if StepInit(st, w, z) { InitTrack(sys, st, w, z); }
      else if StepComp(sys, st, w, z) { CompTrack(sys, st, w, z); }
      else if StepMounts(sys, st, w, z) { MountsTrack(sys, st, w, z); }
      else if StepStep(sys, st, w, z) || StepDotDot(sys, st, w, z) { StepTrack(sys, st, w, z); }
      else { EndsWalk(sys, st, w, z); }
    }
  }

  /** The other steps leave RCU mode. */
  lemma {:induction false} EndsWalk(sys: Sys, st: State, w: Wid, z: State)
    requires w in st.ws && (StepSlow(sys, st, w, z) || StepComplete(sys, st, w, z))
    ensures w in z.ws && !Walking(z.ws[w])
  {
  }

  lemma {:induction false} WalkKeeps(sys: Sys, st: State, w: Wid, z: State)
    requires Inv(sys, st) && WalkStep(sys, st, w, z)
    ensures Inv(sys, z)
  {
    WalkForm(sys, st, w, z);
    hide WalkStep, TreeOK, OnTrack;
    assert WalkerOK(sys, st, w);
    WalkTrack(sys, st, w, z);
    forall v | v in z.ws ensures WalkerOK(sys, z, v) { if v != w { assert WalkerOK(sys, st, v); } }
    SameTree(sys, st, z);
  }

  lemma {:induction false} SameTree(sys: Sys, st: State, z: State)
    requires TreeOK(sys, st) && z == st.(ws := z.ws)
    ensures TreeOK(sys, z)
  {
    forall d | Pinned(z, d) ensures d in z.mounted && d !in sys.negative { assert Pinned(st, d); }
  }

  // ---- freeing mounts that left the hash changes no walk ---------------------------------------------

  /** As far as a walk can see the two tables are one. */
  ghost predicate Alike(mt: Table, nt: Table) {
    && nt.Keys == mt.Keys
    && forall x {:trigger nt[x]} ::
        x in mt ==> nt[x] == mt[x].(alive := nt[x].alive) && (mt[x].hashed ==> nt[x].alive == mt[x].alive)
  }

  lemma {:induction false} LookupAlike(mt: Table, nt: Table, p: Mnt, d: Dentry)
    requires Alike(mt, nt)
    ensures LookupMnt(nt, p, d) == LookupMnt(mt, p, d)
  {
    assert Mounted(mt, p, d) == Mounted(nt, p, d);
  }

  lemma {:induction false} CrossAlike(mt: Table, nt: Table, m: Mnt, d: Dentry, q: Pos, n: nat)
    requires Alike(mt, nt)
    ensures CrossIn(nt, m, d, q, n) <==> CrossIn(mt, m, d, q, n)
    decreases n
  {
    hide LookupMnt;
    LookupAlike(mt, nt, m, d);
    var o := LookupMnt(mt, m, d);
    if o != NO_MNT && n > 0 { CrossAlike(mt, nt, o, mt[o].root, q, n - 1); }
  }

  lemma {:induction false} ClimbAlike(mt: Table, nt: Table, m: Mnt, root: Pos, c: Climbed, n: nat)
    requires Alike(mt, nt)
    ensures ClimbIn(nt, m, root, c, n) <==> ClimbIn(mt, m, root, c, n)
    decreases n
  {
    if m in mt && mt[m].parent in mt && n > 0 { ClimbAlike(mt, nt, mt[m].parent, root, c, n - 1); }
  }

  lemma {:induction false} DotDotAlike(sys: Sys, mt: Table, nt: Table, pos: Pos, root: Pos, q: Pos)
    requires Alike(mt, nt)
    ensures DotDot(sys, nt, pos, root, q) <==> DotDot(sys, mt, pos, root, q)
  {
    forall c, n: nat
      ensures ClimbIn(nt, pos.mnt, root, c, n) <==> ClimbIn(mt, pos.mnt, root, c, n)
    { ClimbAlike(mt, nt, pos.mnt, root, c, n); }
    assert forall c :: Climb(nt, pos.mnt, root, c) <==> Climb(mt, pos.mnt, root, c);
    hide Climb;
  }

  lemma {:induction false} CrossesAlike(mt: Table, nt: Table, m: Mnt, d: Dentry, q: Pos)
    requires Alike(mt, nt)
    ensures Cross(nt, m, d, q) <==> Cross(mt, m, d, q)
  {
    hide CrossIn;
    forall n: nat ensures CrossIn(nt, m, d, q, n) <==> CrossIn(mt, m, d, q, n) { CrossAlike(mt, nt, m, d, q, n); }
  }

  lemma {:induction false} ResolveAlike(sys: Sys, mt: Table, nt: Table, prog: seq<Comp>, pos: Pos, root: Pos, r: Res)
    requires Alike(mt, nt)
    ensures Resolve(sys, nt, prog, pos, root, r) <==> Resolve(sys, mt, prog, pos, root, r)
    decreases |prog|
  {
    hide DotDot, Cross, Alike;
    if prog != [] {
      forall q
        ensures DotDot(sys, nt, pos, root, q) <==> DotDot(sys, mt, pos, root, q)
      { DotDotAlike(sys, mt, nt, pos, root, q); }
      forall c, q
        ensures Cross(nt, pos.mnt, c, q) <==> Cross(mt, pos.mnt, c, q)
      { CrossesAlike(mt, nt, pos.mnt, c, q); }
      forall q
        ensures Resolve(sys, nt, prog[1..], q, root, r) <==> Resolve(sys, mt, prog[1..], q, root, r)
      { ResolveAlike(sys, mt, nt, prog[1..], q, root, r); }
    }
  }

  lemma {:induction false} ContAlike(sys: Sys, mt: Table, nt: Table, prog: seq<Comp>, root: Pos, k: Walker, r: Res)
    requires Alike(mt, nt)
    ensures Cont(sys, nt, prog, root, k, r) <==> Cont(sys, mt, prog, root, k, r)
  {
    hide DotDot, Cross, Alike, Resolve;
    forall q
      ensures DotDot(sys, nt, k.path, root, q) <==> DotDot(sys, mt, k.path, root, q)
    { DotDotAlike(sys, mt, nt, k.path, root, q); }
    forall q
      ensures Cross(nt, k.path.mnt, k.nxt, q) <==> Cross(mt, k.path.mnt, k.nxt, q)
    { CrossesAlike(mt, nt, k.path.mnt, k.nxt, q); }
    forall f: seq<Comp>, q: Pos
      ensures Resolve(sys, nt, f, q, root, r) <==> Resolve(sys, mt, f, q, root, r)
    { ResolveAlike(sys, mt, nt, f, q, root, r); }
  }

  lemma {:induction false} TrackAlike(sys: Sys, mt: Table, nt: Table, prog: seq<Comp>, root: Pos, k: Walker)
    requires Alike(mt, nt) && OnTrack(sys, mt, prog, root, k)
    ensures OnTrack(sys, nt, prog, root, k)
  {
    hide Alike, Resolve, Cont;
    forall r ensures Cont(sys, nt, prog, root, k, r) <==> Resolve(sys, nt, prog, root, root, r) {
      ContAlike(sys, mt, nt, prog, root, k, r);
      ResolveAlike(sys, mt, nt, prog, root, root, r);
    }
  }

  // ---- writers ---------------------------------------------------------------------------------------

  /** The tables differ inside a section only, or not as far as a walk can see. */
  ghost predicate WriterStep(st: State, z: State) {
    && z.ws == st.ws && st.seqv <= z.seqv && (Writing(st) || z.seqv != st.seqv || Alike(st.mt, z.mt))
    && (z.seqv == st.seqv || z.seqv == st.seqv + 1)
  }

  lemma {:induction false} WriterTrack(sys: Sys, st: State, z: State, w: Wid)
    requires WalkerOK(sys, st, w) && WriterStep(st, z)
    ensures WalkerOK(sys, z, w)
  {
    hide OnTrack, Alike;
    var k := st.ws[w];
    if Walking(k) && k.mseq == z.seqv { TrackAlike(sys, st.mt, z.mt, sys.prog[w], sys.root[w], k); }
  }

  lemma {:induction false} WriterKeeps(sys: Sys, st: State, z: State)
    requires Inv(sys, st) && WriterStep(st, z) && Sections(z) && TreeOK(sys, z)
    ensures Inv(sys, z)
  {
    hide WriterStep, Sections, TreeOK, WalkerOK;
    assert z.ws == st.ws by { WriterWs(st, z); }
    forall w | w in z.ws ensures WalkerOK(sys, z, w) { assert WalkerOK(sys, st, w); WriterTrack(sys, st, z, w); }
  }

  lemma {:induction false} WriterWs(st: State, z: State)
    requires WriterStep(st, z)
    ensures z.ws == st.ws
  {
  }

  lemma {:induction false} SameAlike(mt: Table)
    ensures Alike(mt, mt)
  {
  }

  lemma {:induction false} AttachTree(sys: Sys, st: State, x: Mnt, r: Dentry, z: State)
    requires TreeOK(sys, st) && st.mpc == MAttach && Attach(sys, st, x, r, z)
    ensures TreeOK(sys, z)
  {
    assert Pinned(st, st.tgt.d);
    forall d | Pinned(z, d) ensures d in z.mounted && d !in sys.negative { assert Pinned(st, d); }
    forall y | y in z.mt
      ensures MountOK(sys, z.mounted, y, z.mt[y])
    { if y != x { assert MountOK(sys, st.mounted, y, st.mt[y]); } }
  }

  lemma {:induction false} MountKeeps(sys: Sys, st: State, z: State)
    requires Inv(sys, st) && MountStep(sys, st, z)
    ensures Inv(sys, z) && WriterStep(st, z)
  {
    SameAlike(st.mt);
    if st.mpc == MAttach {
      var x: Mnt, r: Dentry :| Attach(sys, st, x, r, z);
      AttachTree(sys, st, x, r, z);
    } else {
      PickTree(sys, st, z);
    }
    hide TreeOK, WalkerOK, Alike;
    assert WriterStep(st, z);
    WriterKeeps(sys, st, z);
  }

  lemma {:induction false} PickTree(sys: Sys, st: State, z: State)
    requires TreeOK(sys, st) && st.mpc != MAttach && MountStep(sys, st, z)
    ensures TreeOK(sys, z)
  {
    forall d | Pinned(z, d)
      ensures d in z.mounted && d !in sys.negative
    { if Pinned(st, d) {} else { assert d == z.tgt.d && z.mpc == MLock; } }
    forall y | y in z.mt ensures MountOK(sys, z.mounted, y, z.mt[y]) { assert MountOK(sys, st.mounted, y, st.mt[y]); }
  }

  lemma {:induction false} FlagsKeep(sys: Sys, st: State, mt: Table, x: Mnt)
    requires x in mt && MountOK(sys, st.mounted, x, mt[x])
    ensures MountOK(sys, Flags(st, mt), x, mt[x])
  {
  }

  lemma {:induction false} FlagsPinned(st: State, mt: Table, d: Dentry)
    requires Pinned(st, d) && d in st.mounted
    ensures d in Flags(st, mt)
  {
  }

  lemma {:induction false} UnhashTree(sys: Sys, st: State, z: State)
    requires TreeOK(sys, st) && st.cpc == CUnhash && ChangeStep(sys, st, z)
    ensures TreeOK(sys, z)
  {
    hide Flags, Subtree;
    forall d | Pinned(z, d)
      ensures d in z.mounted && d !in sys.negative
    {
      assert Pinned(st, d);
      FlagsPinned(st, z.mt, d);
    }
    forall x | x in z.mt ensures MountOK(sys, z.mounted, x, z.mt[x]) {
      assert MountOK(sys, st.mounted, x, st.mt[x]);
      FlagsKeep(sys, st, z.mt, x);
    }
    assert Subtree(st.mt, st.victim) <= st.mt.Keys by { SubtreeIn(st.mt, st.victim); }
  }

  lemma {:induction false} SubtreeIn(mt: Table, x: Mnt)
    ensures Subtree(mt, x) <= mt.Keys
  {
    hide Below;
  }

  lemma {:induction false} HashTree(sys: Sys, st: State, z: State)
    requires TreeOK(sys, st) && st.cpc == CMvHash && ChangeStep(sys, st, z)
    ensures TreeOK(sys, z)
  {
    hide Flags;
    var y := st.(cpc := CUnlock);
    forall d | Pinned(z, d)
      ensures d in z.mounted && d !in sys.negative
    {
      assert Pinned(st, d) && Pinned(y, d);
      FlagsPinned(y, z.mt, d);
    }
    forall x | x in z.mt ensures MountOK(sys, z.mounted, x, z.mt[x]) {
      assert MountOK(sys, st.mounted, x, st.mt[x]);
      FlagsKeep(sys, y, z.mt, x);
    }
  }

  lemma {:induction false} MoveTree(sys: Sys, st: State, z: State)
    requires TreeOK(sys, st) && (st.cpc == CMvUnhash || st.cpc == CMvSet) && ChangeStep(sys, st, z)
    ensures TreeOK(sys, z)
  {
    assert Pinned(st, st.ctgt.d);
    forall d | Pinned(z, d) ensures d in z.mounted && d !in sys.negative { assert Pinned(st, d); }
    forall x | x in z.mt ensures MountOK(sys, z.mounted, x, z.mt[x]) { assert MountOK(sys, st.mounted, x, st.mt[x]); }
  }

  lemma {:induction false} PutTree(sys: Sys, st: State, z: State)
    requires TreeOK(sys, st) && st.cpc == CPut && ChangeStep(sys, st, z)
    ensures TreeOK(sys, z) && Alike(st.mt, z.mt)
  {
    var dead: set<Mnt> :| dead <= st.todo && z == st.(cpc := CPick, todo := {}, mt := Died(st.mt, dead));
    forall d | Pinned(z, d) ensures d in z.mounted && d !in sys.negative { assert Pinned(st, d); }
    forall x | x in z.mt
      ensures MountOK(sys, z.mounted, x, z.mt[x]) && z.mt[x] == st.mt[x].(alive := z.mt[x].alive)
      ensures st.mt[x].hashed ==> z.mt[x].alive == st.mt[x].alive
    {
      assert MountOK(sys, st.mounted, x, st.mt[x]);
    }
  }

  lemma {:induction false} PickedForm(sys: Sys, st: State, z: State)
    requires st.cpc == CPick && ChangeStep(sys, st, z)
    ensures z == st.(cpc := z.cpc, victim := z.victim, ctgt := z.ctgt, mounted := z.mounted) && st.mounted <= z.mounted
    ensures z.cpc == CLock || (z.cpc == CMvLock && z.ctgt.d in z.mounted && z.ctgt.d !in sys.negative)
  {
    hide Subtree;
    var v: Mnt :| PickUmount(st, v, z) || Moves(sys, st, v, z);
    if !PickUmount(st, v, z) { var w: Pos :| PickMove(sys, st, v, w, z); }
  }

  lemma {:induction false} PickedTree(sys: Sys, st: State, z: State)
    requires TreeOK(sys, st) && st.cpc == CPick && ChangeStep(sys, st, z)
    ensures TreeOK(sys, z) && z.mt == st.mt
  {
    PickedForm(sys, st, z);
    hide ChangeStep;
    forall d | Pinned(z, d) ensures d in z.mounted && d !in sys.negative { assert Pinned(st, d) || d == z.ctgt.d; }
    forall y | y in z.mt ensures MountOK(sys, z.mounted, y, z.mt[y]) { assert MountOK(sys, st.mounted, y, st.mt[y]); }
  }

  lemma {:induction false} OtherTree(sys: Sys, st: State, z: State)
    requires TreeOK(sys, st) && (st.cpc == CLock || st.cpc == CMvLock || st.cpc == CUnlock || st.cpc == CUmUnlock)
    requires ChangeStep(sys, st, z)
    ensures TreeOK(sys, z) && z.mt == st.mt
  {
    forall d | Pinned(z, d) ensures d in z.mounted && d !in sys.negative { assert Pinned(st, d); }
    forall y | y in z.mt ensures MountOK(sys, z.mounted, y, z.mt[y]) { assert MountOK(sys, st.mounted, y, st.mt[y]); }
  }

  lemma {:induction false} ChangeKeeps(sys: Sys, st: State, z: State)
    requires Inv(sys, st) && ChangeStep(sys, st, z)
    ensures Inv(sys, z) && WriterStep(st, z)
  {
    SameAlike(st.mt);
    hide TreeOK, WalkerOK, Alike, Subtree, Flags, Unhashed;
    match st.cpc {
      case CUnhash => UnhashTree(sys, st, z);
      case CMvHash => HashTree(sys, st, z);
      case CMvUnhash | CMvSet => MoveTree(sys, st, z);
      case CPut => PutTree(sys, st, z);
      case CPick => PickedTree(sys, st, z); PickedForm(sys, st, z);
      case _ => OtherTree(sys, st, z);
    }
    assert WriterStep(st, z);
    WriterKeeps(sys, st, z);
  }

  // ---- every run -----------------------------------------------------------------------------------------

  lemma {:induction false} NextKeeps(sys: Sys, st: State, z: State)
    requires Inv(sys, st) && Next(sys, st, z)
    ensures Inv(sys, z)
  {
    hide Inv, MountStep, ChangeStep, WalkStep;
    if MountStep(sys, st, z) { MountKeeps(sys, st, z); }
    else if ChangeStep(sys, st, z) { ChangeKeeps(sys, st, z); }
    else {
      var w :| WalkStep(sys, st, w, z);
      WalkKeeps(sys, st, w, z);
    }
  }

  lemma {:induction false} RunInv(sys: Sys, b: seq<State>, i: nat)
    requires Run(sys, b) && i < |b|
    ensures Inv(sys, b[i])
    decreases i
  {
    hide Next;
    if i > 0 {
      RunInv(sys, b, i - 1);
      NextKeeps(sys, b[i - 1], b[i]);
    }
  }

  /** The exits that are validated against m_seq. */
  ghost predicate Validated(sys: Sys, st: State, w: Wid, z: State) {
    w in st.ws && w in z.ws && (StepComplete(sys, st, w, z) || StepSlow(sys, st, w, z)) && z.ws[w].pc == Finished
  }

  lemma {:induction false} ExitCont(sys: Sys, st: State, w: Wid, z: State)
    requires WalkStep(sys, st, w, z) && z.ws[w].pc == Finished && st.seqv == st.ws[w].mseq && WalkerOK(sys, st, w)
    ensures Walking(st.ws[w]) && Cont(sys, st.mt, sys.prog[w], sys.root[w], st.ws[w], z.ws[w].res)
  {
    hide DotDot, LookupMnt, Resolve;
  }

  lemma {:induction false} InvWalker(sys: Sys, st: State, w: Wid)
    requires Inv(sys, st) && w in st.ws
    ensures WalkerOK(sys, st, w)
  {
    hide TreeOK, Sections, WalkerOK;
  }

  /** A walk that ends in RCU mode with the sequence count it sampled returns exactly
      what the locked recursive walk returns on the current tree, and that walk
      comes to an end: for every forest, tree, program and interleaving with
      attach, lazy umount and move. */
  lemma {:induction false} ExitsAgree(sys: Sys, b: seq<State>, i: nat, w: Wid, r: Res)
    requires Run(sys, b) && i + 1 < |b| && w in b[i].ws && w in b[i + 1].ws && w in sys.prog && w in sys.root
    requires WalkStep(sys, b[i], w, b[i + 1]) && b[i + 1].ws[w].pc == Finished && b[i].seqv == b[i].ws[w].mseq
    ensures Resolve(sys, b[i].mt, sys.prog[w], sys.root[w], sys.root[w], r) <==> r == b[i + 1].ws[w].res
  {
    hide Run, Resolve, WalkStep, Inv;
    RunInv(sys, b, i);
    var st, z := b[i], b[i + 1];
    InvWalker(sys, st, w);
    hide Cont;
    ExitCont(sys, st, w, z);
    assert Resolve(sys, st.mt, sys.prog[w], sys.root[w], sys.root[w], z.ws[w].res);
    if Resolve(sys, st.mt, sys.prog[w], sys.root[w], sys.root[w], r) {
      ResolveUnique(sys, st.mt, sys.prog[w], sys.root[w], sys.root[w], r, z.ws[w].res);
    }
  }

  lemma {:induction false} ValidatedStep(sys: Sys, st: State, w: Wid, z: State)
    requires Validated(sys, st, w, z) && w in sys.prog && w in sys.root
    ensures WalkStep(sys, st, w, z) && st.seqv == st.ws[w].mseq
  {
  }

  /** Whatever happened on the way: when complete_walk() or lookup_slow() ends a walk of
      any run, it ends it with r if and only if the locked walk on the tree of that
      moment ends with r. */
  lemma {:induction false} ValidatedAgree(sys: Sys, b: seq<State>, i: nat, w: Wid, r: Res)
    requires Run(sys, b) && i + 1 < |b| && w in sys.prog && w in sys.root && Validated(sys, b[i], w, b[i + 1])
    ensures Resolve(sys, b[i].mt, sys.prog[w], sys.root[w], sys.root[w], r) <==> r == b[i + 1].ws[w].res
  {
    hide Run, Resolve, WalkStep;
    ValidatedStep(sys, b[i], w, b[i + 1]);
    ExitsAgree(sys, b, i, w, r);
  }

  lemma {:induction false} ExitForm(sys: Sys, st: State, w: Wid, z: State)
    requires WalkStep(sys, st, w, z) && w in z.ws && z.ws[w].pc == Finished
    ensures match z.ws[w].res
      case Got(_) => st.seqv == st.ws[w].mseq
      case EAgain => st.seqv != st.ws[w].mseq && st.ws[w].pc == WDotDot && w in sys.scoped
      case ENoEnt => st.seqv == st.ws[w].mseq || (st.ws[w].pc == WStep && st.ws[w].nxt in sys.negative)
  {
    WalkForm(sys, st, w, z);
    hide DotDot, LookupMnt;
  }

  /** Every exit of every run, with what it returned: a position only with the count
      unchanged, -EAGAIN only from a scoped ".." after it changed, -ENOENT either way
      but then from a negative dentry; and with the count unchanged, whichever step it
      is, r if and only if the locked walk of that moment ends with r. */
  lemma {:induction false} ExitsClassified(sys: Sys, b: seq<State>, i: nat, w: Wid, r: Res)
    requires Run(sys, b) && i + 1 < |b| && w in sys.prog && w in sys.root
    requires WalkStep(sys, b[i], w, b[i + 1]) && w in b[i].ws && w in b[i + 1].ws && b[i + 1].ws[w].pc == Finished
    ensures match b[i + 1].ws[w].res
      case Got(_) => b[i].seqv == b[i].ws[w].mseq
      case EAgain => b[i].seqv != b[i].ws[w].mseq && b[i].ws[w].pc == WDotDot && w in sys.scoped
      case ENoEnt => b[i].seqv == b[i].ws[w].mseq || (b[i].ws[w].pc == WStep && b[i].ws[w].nxt in sys.negative)
    ensures b[i].seqv == b[i].ws[w].mseq
        ==> (Resolve(sys, b[i].mt, sys.prog[w], sys.root[w], sys.root[w], r) <==> r == b[i + 1].ws[w].res)
  {
    hide Run, Resolve, WalkStep;
    ExitForm(sys, b[i], w, b[i + 1]);
    if b[i].seqv == b[i].ws[w].mseq { ExitsAgree(sys, b, i, w, r); }
  }
}
