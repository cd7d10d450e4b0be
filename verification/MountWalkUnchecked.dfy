/** The one exit of the RCU walk that is not rechecked: -ENOENT of a negative dentry.
    What it is worth on any run, when it is the locked walk's result, and a run in
    which the locked walk has that result at no moment since the walk began. */
module MountWalkUnchecked {
  import opened Finite
  import opened MountWalk
  import opened MountWalkProof

  // ---- what the walk missed ---------------------------------------------------------

  /** x sits on mount m, and its mountpoint lost its flag at some state from i to j. */
  ghost predicate Uncovers(b: seq<State>, i: nat, j: nat, m: Mnt, x: Mnt)
    requires i < |b|
  {
    && x in b[i].mt && b[i].mt[x].alive && b[i].mt[x].hashed && b[i].mt[x].parent == m
    && exists l {:trigger b[l]} :: i <= l <= j && l < |b| && b[i].mt[x].mp !in b[l].mounted
  }

  ghost function Uncovered(b: seq<State>, i: nat, j: nat, m: Mnt): (X: set<Mnt>)
    requires i < |b|
  {
    set x | x in b[i].mt && Uncovers(b, i, j, m, x)
  }

  /** The table with the mounts X taken off. */
  ghost function Bared(mt: Table, X: set<Mnt>): (r: Table) {
    map x | x in mt :: if x in X then mt[x].(hashed := false) else mt[x]
  }

  lemma {:induction false} BaredNone(mt: Table)
    ensures Bared(mt, {}) == mt
  {
  }

  // ---- the rest of a walk has one end -------------------------------------------------

  lemma {:induction false} ContUnique(sys: Sys, mt: Table, prog: seq<Comp>, root: Pos, k: Walker, r: Res, s: Res)
    requires Cont(sys, mt, prog, root, k, r) && Cont(sys, mt, prog, root, k, s)
    ensures r == s
  {
    hide Cross, DotDot, Resolve;
    match k.pc
    case WInit => ResolveUnique(sys, mt, prog, root, root, r, s);
    case WComp => ResolveUnique(sys, mt, prog[k.ip..], k.path, root, r, s);
    case WMounts =>
      if k.nxt !in sys.negative {
        var q :| Cross(mt, k.path.mnt, k.nxt, q) && Resolve(sys, mt, prog[k.ip + 1..], q, root, r);
        var p :| Cross(mt, k.path.mnt, k.nxt, p) && Resolve(sys, mt, prog[k.ip + 1..], p, root, s);
        CrossOnce(mt, k.path.mnt, k.nxt, q, p);
        ResolveUnique(sys, mt, prog[k.ip + 1..], q, root, r, s);
      }
    case WStep =>
      if k.nxt !in sys.negative { ResolveUnique(sys, mt, prog[k.ip + 1..], Pos(k.path.mnt, k.nxt), root, r, s); }
    case WDotDot =>
      var q :| DotDot(sys, mt, k.path, root, q) && Resolve(sys, mt, prog[k.ip + 1..], q, root, r);
      var p :| DotDot(sys, mt, k.path, root, p) && Resolve(sys, mt, prog[k.ip + 1..], p, root, s);
      DotDotUnique(sys, mt, k.path, root, q, p);
      ResolveUnique(sys, mt, prog[k.ip + 1..], q, root, r, s);
    case _ =>
  }

  // ---- what the writers leave alone ------------------------------------------------------

  /** No mount goes from the table and none gets another root. */
  ghost predicate Grows(mt: Table, nt: Table) {
    forall x {:trigger nt[x]} {:trigger x in nt} :: x in mt ==> x in nt && nt[x].root == mt[x].root
  }

  lemma {:induction false} MounterGrows(sys: Sys, st: State, z: State)
    requires MountStep(sys, st, z)
    ensures z.ws == st.ws && st.seqv <= z.seqv && Grows(st.mt, z.mt)
  {
  }

  lemma {:induction false} ChangerGrows(sys: Sys, st: State, z: State)
    requires ChangeStep(sys, st, z)
    ensures z.ws == st.ws && st.seqv <= z.seqv && Grows(st.mt, z.mt)
  {
    hide Subtree, Flags;
    if st.cpc == CPick { PickedForm(sys, st, z); }
  }

  lemma {:induction false} NextGrows(sys: Sys, st: State, z: State)
    requires Next(sys, st, z)
    ensures st.seqv <= z.seqv && Grows(st.mt, z.mt)
    ensures z.ws == st.ws || exists v :: WalkStep(sys, st, v, z)
  {
    hide MountStep, ChangeStep, WalkStep, OneStep;
    if MountStep(sys, st, z) { MounterGrows(sys, st, z); }
    else if ChangeStep(sys, st, z) { ChangerGrows(sys, st, z); }
    else {
      var v :| WalkStep(sys, st, v, z);
      assert v in st.ws by { WalkerThere(sys, st, v, z); }
      WalkForm(sys, st, v, z);
      OneGrows(st, v, z);
    }
  }

  lemma {:induction false} WalkerThere(sys: Sys, st: State, v: Wid, z: State)
    requires WalkStep(sys, st, v, z)
    ensures v in st.ws && v in sys.prog && v in sys.root
  {
    hide StepInit, StepComp, StepSlow, StepMounts, StepStep, StepDotDot, StepComplete;
  }

  lemma {:induction false} OneGrows(st: State, v: Wid, z: State)
    requires v in st.ws && OneStep(st, v, z)
    ensures st.seqv <= z.seqv && Grows(st.mt, z.mt)
  {
  }

  lemma {:induction false} GrowsOn(a: Table, b: Table, c: Table)
    requires Grows(a, b) && Grows(b, c)
    ensures Grows(a, c)
  {
  }

  // ---- a walker whose count has changed -----------------------------------------------------

  /** The program counter is inside the program. */
  ghost predicate Inside(prog: seq<Comp>, k: Walker) {
    match k.pc case WMounts | WStep | WDotDot => k.ip < |prog| case WComp => k.ip <= |prog| case _ => true
  }

  /** What a walker that goes on with its count changed keeps, seen from the last state
      s with the count unchanged: its mount, and a rest that ends as the locked walk
      from s would with the mounts X off. */
  ghost predicate Beneath(sys: Sys, s: State, X: set<Mnt>, w: Wid, k: Walker, r: Res)
    requires w in s.ws && w in sys.prog && w in sys.root
  {
    && k.mseq == s.ws[w].mseq && k.path.mnt == s.ws[w].path.mnt && Inside(sys.prog[w], k)
    && (Cont(sys, Bared(s.mt, X), sys.prog[w], sys.root[w], k, r)
        ==> Cont(sys, Bared(s.mt, X), sys.prog[w], sys.root[w], s.ws[w], r))
  }

  lemma {:induction false} CompGoesOn(sys: Sys, mt: Table, st: State, w: Wid, z: State, r: Res)
    requires w in st.ws && w in sys.prog && StepComp(sys, st, w, z) && w in sys.root && Inside(sys.prog[w], st.ws[w])
    ensures w in z.ws && Inside(sys.prog[w], z.ws[w]) && z.ws[w].path == st.ws[w].path
    ensures Cont(sys, mt, sys.prog[w], sys.root[w], z.ws[w], r) ==> Cont(sys, mt, sys.prog[w], sys.root[w], st.ws[w], r)
  {
    hide Cross, DotDot;
    var k, prog := st.ws[w], sys.prog[w];
    if k.ip < |prog| { TailOf(prog, k.ip); } else { assert prog[k.ip..] == []; }
  }

  /** What X must hold for the walker at st to see what s has with X off. */
  ghost predicate Covered(s: State, X: set<Mnt>, m: Mnt, st: State) {
    forall x {:trigger s.mt[x]} ::
      x in s.mt && s.mt[x].alive && s.mt[x].hashed && s.mt[x].parent == m && s.mt[x].mp !in st.mounted ==> x in X
  }

  lemma {:induction false} BaredLookup(s: State, X: set<Mnt>, m: Mnt, st: State, d: Dentry)
    requires Covered(s, X, m, st) && d !in st.mounted
    ensures LookupMnt(Bared(s.mt, X), m, d) == NO_MNT
  {
    var o := LookupMnt(Bared(s.mt, X), m, d);
    assert !On(Bared(s.mt, X), m, d, o);
  }

  lemma {:induction false} MountsGoesOn(sys: Sys, s: State, X: set<Mnt>, st: State, w: Wid, z: State, r: Res)
    requires w in st.ws && w in sys.prog && w in sys.root && StepMounts(sys, st, w, z)
    requires Inside(sys.prog[w], st.ws[w]) && st.seqv != st.ws[w].mseq && w in z.ws && Walking(z.ws[w])
    requires Covered(s, X, st.ws[w].path.mnt, st)
    ensures Inside(sys.prog[w], z.ws[w]) && z.ws[w].path == st.ws[w].path
    ensures Cont(sys, Bared(s.mt, X), sys.prog[w], sys.root[w], z.ws[w], r)
        ==> Cont(sys, Bared(s.mt, X), sys.prog[w], sys.root[w], st.ws[w], r)
  {
    hide DotDot, LookupMnt, Resolve, Covered, Cross, Bared;
    var k := st.ws[w];
    assert k.nxt !in st.mounted && z == Set(st, w, k.(pc := WStep));
    BaredLookup(s, X, k.path.mnt, st, k.nxt);
    CrossHere(Bared(s.mt, X), k.path.mnt, k.nxt);
    assert Cross(Bared(s.mt, X), k.path.mnt, k.nxt, Pos(k.path.mnt, k.nxt));
  }

  lemma {:induction false} StepGoesOn(sys: Sys, mt: Table, st: State, w: Wid, z: State, r: Res)
    requires w in st.ws && w in sys.prog && w in sys.root && StepStep(sys, st, w, z)
    requires Inside(sys.prog[w], st.ws[w]) && w in z.ws && Walking(z.ws[w])
    ensures Inside(sys.prog[w], z.ws[w]) && z.ws[w].path.mnt == st.ws[w].path.mnt
    ensures Cont(sys, mt, sys.prog[w], sys.root[w], z.ws[w], r) ==> Cont(sys, mt, sys.prog[w], sys.root[w], st.ws[w], r)
  {
    hide Cross, DotDot, Resolve;
  }

  /** Where a ".." is not rechecked it stays in its mount and depends on no table. */
  lemma {:induction false} UpInside(sys: Sys, st: State, w: Wid, z: State)
    requires w in st.ws && w in sys.root && StepDotDot(sys, st, w, z)
    requires st.seqv != st.ws[w].mseq && w in z.ws && Walking(z.ws[w])
    ensures st.ws[w].path != sys.root[w] && !AtRoot(st.mt, st.ws[w].path)
    ensures var k := st.ws[w];
            z == Set(st, w, k.(pc := WComp, path := Pos(k.path.mnt, sys.up(k.path.d)), ip := k.ip + 1))
  {
    hide Climb;
  }

  lemma {:induction false} DotDotGoesOn(sys: Sys, mt: Table, st: State, w: Wid, z: State, r: Res)
    requires w in st.ws && w in sys.prog && w in sys.root && StepDotDot(sys, st, w, z) && Grows(mt, st.mt)
    requires Inside(sys.prog[w], st.ws[w]) && st.seqv != st.ws[w].mseq && w in z.ws && Walking(z.ws[w])
    ensures Inside(sys.prog[w], z.ws[w]) && z.ws[w].path.mnt == st.ws[w].path.mnt
    ensures Cont(sys, mt, sys.prog[w], sys.root[w], z.ws[w], r) ==> Cont(sys, mt, sys.prog[w], sys.root[w], st.ws[w], r)
  {
    UpInside(sys, st, w, z);
    hide Cross, Climb, Resolve, StepDotDot;
    var k := st.ws[w];
    assert DotDot(sys, mt, k.path, sys.root[w], Pos(k.path.mnt, sys.up(k.path.d)));
  }

  lemma {:induction false} BaredGrows(mt: Table, X: set<Mnt>, nt: Table)
    requires Grows(mt, nt)
    ensures Grows(Bared(mt, X), nt)
  {
  }

  /** A walker's own step, with the count changed. */
  lemma {:induction false} WalkGoesOn(sys: Sys, s: State, X: set<Mnt>, st: State, w: Wid, z: State, r: Res)
    requires w in s.ws && WalkStep(sys, st, w, z) && w in sys.prog && w in sys.root && w in st.ws && w in z.ws
    requires Beneath(sys, s, X, w, st.ws[w], r) && Covered(s, X, s.ws[w].path.mnt, st) && Grows(s.mt, st.mt)
    requires Walking(st.ws[w]) && Walking(z.ws[w]) && st.seqv != st.ws[w].mseq
    ensures Beneath(sys, s, X, w, z.ws[w], r)
  {
    WalkForm(sys, st, w, z);
    BaredGrows(s.mt, X, st.mt);
    hide Cont, Inside, Covered, Grows, Bared, StepComp, StepSlow, StepMounts, StepStep, StepDotDot, StepComplete;
    var mt := Bared(s.mt, X);
    if StepComp(sys, st, w, z) { CompGoesOn(sys, mt, st, w, z, r); }
    else if StepMounts(sys, st, w, z) { MountsGoesOn(sys, s, X, st, w, z, r); }
    else if StepStep(sys, st, w, z) { StepGoesOn(sys, mt, st, w, z, r); }
    else if StepDotDot(sys, st, w, z) { DotDotGoesOn(sys, mt, st, w, z, r); }
    else { EndsWalk(sys, st, w, z); }
  }

  // ---- the last moment with the count unchanged ------------------------------------------------

  /** w walks in RCU mode with the sample n. */
  ghost predicate Rides(st: State, w: Wid, n: nat) { w in st.ws && Walking(st.ws[w]) && st.ws[w].mseq == n }

  lemma {:induction false} RodeBefore(sys: Sys, st: State, w: Wid, n: nat, z: State)
    requires Next(sys, st, z) && Rides(z, w, n) && z.seqv != n
    ensures Rides(st, w, n) && st.seqv <= z.seqv && Grows(st.mt, z.mt)
    ensures w in st.ws && (z.ws[w] == st.ws[w] || WalkStep(sys, st, w, z))
  {
    hide Next, Grows, WalkStep;
    NextGrows(sys, st, z);
    if z.ws != st.ws {
      var v :| WalkStep(sys, st, v, z);
      RodeOwn(sys, st, v, z);
    }
  }

  lemma {:induction false} RodeOwn(sys: Sys, st: State, v: Wid, z: State)
    requires WalkStep(sys, st, v, z)
    ensures v in st.ws && v in z.ws && z == Set(st, v, z.ws[v])
    ensures Walking(z.ws[v]) && z.ws[v].mseq != z.seqv ==> Walking(st.ws[v]) && z.ws[v].mseq == st.ws[v].mseq
  {
    WalkForm(sys, st, v, z);
    if st.ws[v].pc == WInit { assert StepInit(st, v, z); }
  }

  ghost predicate LastFresh(b: seq<State>, i: nat, w: Wid, n: nat, i0: nat) {
    && i0 < i < |b| && b[i0].seqv == n
    && (forall j {:trigger b[j]} :: i0 <= j <= i ==> Rides(b[j], w, n) && Grows(b[i0].mt, b[j].mt))
    && (forall j {:trigger b[j]} :: i0 < j <= i ==> b[j].seqv != n)
  }

  lemma {:induction false} FreshOnce(sys: Sys, b: seq<State>, i: nat, w: Wid) returns (i0: nat)
    requires Run(sys, b) && i < |b| && w in b[i].ws && Rides(b[i], w, b[i].ws[w].mseq) && b[i].seqv != b[i].ws[w].mseq
    ensures LastFresh(b, i, w, b[i].ws[w].mseq, i0)
    decreases i
  {
    hide Next, Grows;
    var n := b[i].ws[w].mseq;
    assert i > 0;
    assert Next(sys, b[i - 1], b[i]);
    RodeBefore(sys, b[i - 1], w, n, b[i]);
    GrowsSelf(b[i].mt);
    GrowsSelf(b[i - 1].mt);
    if b[i - 1].seqv == n {
      i0 := i - 1;
    } else {
      i0 := FreshOnce(sys, b, i - 1, w);
      GrowsOn(b[i0].mt, b[i - 1].mt, b[i].mt);
    }
  }

  lemma {:induction false} GrowsSelf(mt: Table)
    ensures Grows(mt, mt)
  {
  }

  /** From there on the walker keeps what Beneath says. */
  lemma {:induction false} StaysBeneath(sys: Sys, b: seq<State>, i: nat, w: Wid, n: nat, i0: nat, X: set<Mnt>,
      j: nat, r: Res)
    requires Run(sys, b) && LastFresh(b, i, w, n, i0) && i0 < j <= i && w in sys.prog && w in sys.root
    requires w in b[i0].ws && Inside(sys.prog[w], b[i0].ws[w])
    requires forall l {:trigger b[l]} :: i0 <= l <= i ==> Covered(b[i0], X, b[i0].ws[w].path.mnt, b[l])
    ensures w in b[j].ws && Beneath(sys, b[i0], X, w, b[j].ws[w], r)
    decreases j
  {
    hide Next, Grows, Covered, Inside, Cont;
    assert Next(sys, b[j - 1], b[j]);
    assert Rides(b[j], w, n) && b[j].seqv != n && Rides(b[j - 1], w, n);
    RodeBefore(sys, b[j - 1], w, n, b[j]);
    if j - 1 == i0 {
      FreshStands(sys, b[i0], w, b[j]);
    } else {
      StaysBeneath(sys, b, i, w, n, i0, X, j - 1, r);
      if b[j].ws[w] != b[j - 1].ws[w] { WalkGoesOn(sys, b[i0], X, b[j - 1], w, b[j], r); }
    }
  }

  /** A walker's own step does not change the count. */
  lemma {:induction false} FreshStands(sys: Sys, st: State, w: Wid, z: State)
    requires w in st.ws && w in z.ws && (z.ws[w] == st.ws[w] || WalkStep(sys, st, w, z)) && z.seqv != st.seqv
    ensures z.ws[w] == st.ws[w]
  {
    hide WalkStep;
    if z.ws[w] != st.ws[w] { WalkForm(sys, st, w, z); }
  }

  // ---- what the exit is worth ---------------------------------------------------------------------

  lemma {:induction false} UncoveredCovers(b: seq<State>, i: nat, j: nat, m: Mnt)
    requires i <= j < |b|
    ensures forall l {:trigger b[l]} :: i <= l <= j ==> Covered(b[i], Uncovered(b, i, j, m), m, b[l])
  {
    forall l, x | i <= l <= j && x in b[i].mt && b[i].mt[x].alive && b[i].mt[x].hashed && b[i].mt[x].parent == m
        && b[i].mt[x].mp !in b[l].mounted
      ensures x in Uncovered(b, i, j, m)
    {
      assert Uncovers(b, i, j, m, x);
    }
  }

  lemma {:induction false} NegativeEnds(sys: Sys, mt: Table, prog: seq<Comp>, root: Pos, k: Walker)
    requires k.pc == WStep && k.nxt in sys.negative && Inside(prog, k)
    ensures Cont(sys, mt, prog, root, k, ENoEnt)
  {
  }

  lemma {:induction false} NegativeExit(sys: Sys, st: State, w: Wid, z: State)
    requires WalkStep(sys, st, w, z) && w in st.ws && st.ws[w].pc == WStep && st.ws[w].nxt in sys.negative
    ensures w in z.ws && z.ws[w].pc == Finished && z.ws[w].res == ENoEnt
  {
    hide DotDot, LookupMnt;
  }

  lemma {:induction false} TrackInside(sys: Sys, b: seq<State>, i: nat, w: Wid)
    requires Run(sys, b) && i < |b| && w in b[i].ws && Rides(b[i], w, b[i].seqv)
    ensures w in sys.prog && w in sys.root && Inside(sys.prog[w], b[i].ws[w]) && !Writing(b[i])
    ensures OnTrack(sys, b[i].mt, sys.prog[w], sys.root[w], b[i].ws[w])
  {
    hide Run, Inv, Cont;
    RunInv(sys, b, i);
    InvWalker(sys, b[i], w);
  }

  /** -ENOENT of a negative dentry after the count changed, on any run.  At the last
      moment with the count unchanged no writer was inside and the rest of the walk was
      the rest of the locked walk.  The exit is that rest with the mounts off that lost
      the flag of their mountpoint since; so when none did, the locked walk of that
      moment ends with r if and only if r is the -ENOENT returned. */
  lemma {:induction false} UncheckedNegative(sys: Sys, b: seq<State>, i: nat, w: Wid, r: Res) returns (i0: nat)
    requires Run(sys, b) && i + 1 < |b| && WalkStep(sys, b[i], w, b[i + 1]) && w in sys.prog && w in sys.root
    requires w in b[i].ws && b[i].ws[w].pc == WStep && b[i].ws[w].nxt in sys.negative && b[i].seqv != b[i].ws[w].mseq
    ensures w in b[i + 1].ws && b[i + 1].ws[w].pc == Finished && b[i + 1].ws[w].res == ENoEnt
    ensures LastFresh(b, i, w, b[i].ws[w].mseq, i0) && !Writing(b[i0]) && w in b[i0].ws
    ensures Resolve(sys, b[i0].mt, sys.prog[w], sys.root[w], sys.root[w], r)
        <==> Cont(sys, b[i0].mt, sys.prog[w], sys.root[w], b[i0].ws[w], r)
    ensures var k := b[i0].ws[w];
            Cont(sys, Bared(b[i0].mt, Uncovered(b, i0, i, k.path.mnt)), sys.prog[w], sys.root[w], k, r) <==> r == ENoEnt
    ensures Uncovered(b, i0, i, b[i0].ws[w].path.mnt) == {}
        ==> (Resolve(sys, b[i0].mt, sys.prog[w], sys.root[w], sys.root[w], r) <==> r == ENoEnt)
  {
    hide Run, WalkStep, Cont, Inside, Bared, Uncovered, Resolve, Covered;
    NegativeExit(sys, b[i], w, b[i + 1]);
    i0 := FreshOnce(sys, b, i, w);
    var s, n := b[i0], b[i].ws[w].mseq;
    var k := s.ws[w];
    TrackInside(sys, b, i0, w);
    var X := Uncovered(b, i0, i, k.path.mnt);
    UncoveredCovers(b, i0, i, k.path.mnt);
    StaysBeneath(sys, b, i, w, n, i0, X, i, ENoEnt);
    NegativeEnds(sys, Bared(s.mt, X), sys.prog[w], sys.root[w], b[i].ws[w]);
    assert Cont(sys, Bared(s.mt, X), sys.prog[w], sys.root[w], k, ENoEnt);
    if Cont(sys, Bared(s.mt, X), sys.prog[w], sys.root[w], k, r) {
      ContUnique(sys, Bared(s.mt, X), sys.prog[w], sys.root[w], k, r, ENoEnt);
    }
    BaredNone(s.mt);
  }

  // ---- a result of no moment -------------------------------------------------------------------------

  /** On the root filesystem /a/a/y is there; on the mounted one /y is there, /a is there
      and /a/y is negative.  One walker walks a, a, y. */
  ghost function Forest(): (sys: Sys) {
    Sys((d: Dentry) =>
          if d == 1 then 0 else if d == 2 then 1 else if d == 3 then 2
          else if d == 11 || d == 12 then 10 else if d == 13 then 11 else d,
        (d: Dentry, n: nat) =>
          if n == 0 then (if d == 0 then D(1) else if d == 1 then D(2) else if d == 10 then D(11) else NoD)
          else if n == 1 then (if d == 2 then D(3) else if d == 10 then D(12) else if d == 11 then D(13) else NoD)
          else NoD,
        {13}, map[0 := [Name(0), Name(0), Name(1)]], map[0 := Pos(1, 0)], {0},
        (d: Dentry) => if d == 3 then 3 else if d == 2 || d == 13 then 2 else if d == 1 || d == 11 || d == 12 then 1
            else 0)
  }

  const ROOT_MOUNT := Mount(true, 1, 0, 0, false)
  const ON_A := Mount(true, 1, 1, 10, true)
  const ON_A_A := Mount(true, 2, 11, 10, true)

  ghost function Both(): (mt: Table) { map[1 := ROOT_MOUNT, 2 := ON_A, 3 := ON_A_A] }

  ghost function Neither(): (mt: Table) {
    map[1 := ROOT_MOUNT, 2 := Mount(true, 2, 10, 10, false), 3 := Mount(true, 3, 10, 10, false)]
  }

  /** The locked walk finds the file. */
  ghost predicate Finds(mt: Table) {
    exists q {:trigger Got(q)} :: Resolve(Forest(), mt, [Name(0), Name(0), Name(1)], Pos(1, 0), Pos(1, 0), Got(q))
  }

  lemma {:induction false} NoneOn(mt: Table, p: Mnt, d: Dentry)
    requires mt == Both() || mt == Neither()
    ensures LookupMnt(mt, p, d) == if mt == Both() && p == 1 && d == 1 then 2
        else if mt == Both() && p == 2 && d == 11 then 3 else NO_MNT
  {
    if mt == Both() && p == 1 && d == 1 { assert On(mt, 1, 1, 2); }
    if mt == Both() && p == 2 && d == 11 { assert On(mt, 2, 11, 3); }
  }

  /** One name of the locked walk. */
  lemma {:induction false} OneName(mt: Table, n: nat, rest: seq<Comp>, p: Pos, c: Dentry, q: Pos, r: Res)
    requires Forest().child(p.d, n) == D(c) && c != 13 && Cross(mt, p.mnt, c, q)
    requires Resolve(Forest(), mt, rest, q, Pos(1, 0), r)
    ensures Resolve(Forest(), mt, [Name(n)] + rest, p, Pos(1, 0), r)
  {
    hide Cross;
    assert ([Name(n)] + rest)[1..] == rest;
  }

  lemma {:induction false} ThreeNames(mt: Table, a: Dentry, p: Pos, b: Dentry, q: Pos, c: Dentry, e: Pos)
    requires Forest().child(0, 0) == D(a) && Forest().child(p.d, 0) == D(b) && Forest().child(q.d, 1) == D(c)
    requires a != 13 && b != 13 && c != 13 && Cross(mt, 1, a, p) && Cross(mt, p.mnt, b, q) && Cross(mt, q.mnt, c, e)
    ensures Finds(mt)
  {
    hide Cross, Forest;
    assert Resolve(Forest(), mt, [], e, Pos(1, 0), Got(e));
    hide Resolve;
    OneName(mt, 1, [], q, c, e, Got(e));
    OneName(mt, 0, [Name(1)], p, b, q, Got(e));
    OneName(mt, 0, [Name(0), Name(1)], Pos(1, 0), a, p, Got(e));
    assert [Name(1)] + [] == [Name(1)] && [Name(0)] + [Name(1)] == [Name(0), Name(1)];
    assert [Name(0)] + [Name(0), Name(1)] == [Name(0), Name(0), Name(1)];
  }

  lemma {:induction false} NeitherFinds()
    ensures Finds(Neither())
  {
    var mt := Neither();
    assert mt[2] != Both()[2];
    hide LookupMnt, Neither, Both, Finds;
    forall d ensures Cross(mt, 1, d, Pos(1, d)) { NoneOn(mt, 1, d); CrossHere(mt, 1, d); }
    hide Cross;
    ThreeNames(mt, 1, Pos(1, 1), 2, Pos(1, 2), 3, Pos(1, 3));
  }

  lemma {:induction false} BothFind()
    ensures Finds(Both())
  {
    var mt := Both();
    assert mt[2].root == 10 && mt[3].root == 10;
    hide LookupMnt, Finds, Both;
    NoneOn(mt, 1, 1);
    NoneOn(mt, 2, 10);
    NoneOn(mt, 2, 11);
    NoneOn(mt, 3, 10);
    NoneOn(mt, 3, 12);
    CrossHere(mt, 3, 12);
    CrossHere(mt, 3, 10);
    CrossHere(mt, 2, 10);
    CrossHop(mt, 2, 11, Pos(3, 10));
    CrossHop(mt, 1, 1, Pos(2, 10));
    assert Cross(mt, 3, 12, Pos(3, 12)) && Cross(mt, 2, 11, Pos(3, 10)) && Cross(mt, 1, 1, Pos(2, 10));
    hide Cross;
    ThreeNames(mt, 1, Pos(2, 10), 11, Pos(3, 10), 12, Pos(3, 12));
  }

  lemma {:induction false} Extend(sys: Sys, b: seq<State>, z: State)
    requires Run(sys, b) && Next(sys, b[|b| - 1], z)
    ensures Run(sys, b + [z])
  {
    hide Next, Init;
    var e := b + [z];
    assert e[0] == b[0];
    forall i, j | 0 <= i < |e| - 1 && j == i + 1 ensures Next(sys, e[i], e[j]) {
      if j < |b| { assert Next(sys, b[i], b[j]); }
    }
  }

  ghost function Top(b: seq<State>): (st: State)
    requires |b| > 0
  {
    b[|b| - 1]
  }

  /** The mounter mounts x with root r at w. */
  lemma {:induction false} MountRound(sys: Sys, b: seq<State>, w: Pos, x: Mnt, r: Dentry) returns (e: seq<State>)
    requires Run(sys, b) && Top(b).mpc == MPick && !Writing(Top(b)) && Place(sys, Top(b), w) && r !in sys.negative
    requires x !in Top(b).mt && x != NO_MNT && x != w.mnt
    ensures Run(sys, e)
    ensures var st := Top(b);
            Top(e) == st.(mt := st.mt[x := Mount(true, w.mnt, w.d, r, true)], mounted := st.mounted + {w.d},
                seqv := st.seqv + 2, tgt := w)
  {
    hide Run, ChangeStep, WalkStep;
    assert |b| > 0 by { RunSome(sys, b); }
    var s0 := Top(b);
    var s1 := s0.(mpc := MLock, tgt := w, mounted := s0.mounted + {w.d});
    var s2 := s1.(mpc := MAttach, seqv := s1.seqv + 1);
    var s3 := s2.(mpc := MUnlock, mt := s2.mt[x := Mount(true, w.mnt, w.d, r, true)]);
    var s4 := s3.(mpc := MPick, seqv := s3.seqv + 1);
    assert Attach(sys, s2, x, r, s3);
    assert MountStep(sys, s0, s1) && MountStep(sys, s1, s2) && MountStep(sys, s2, s3) && MountStep(sys, s3, s4);
    Extend(sys, b, s1);
    Extend(sys, b + [s1], s2);
    Extend(sys, b + [s1] + [s2], s3);
    Extend(sys, b + [s1] + [s2] + [s3], s4);
    e := b + [s1] + [s2] + [s3] + [s4];
  }

  lemma {:induction false} RunSome(sys: Sys, b: seq<State>)
    requires Run(sys, b)
    ensures |b| > 0
  {
  }

  const BEFORE := Walker(WInit, Pos(1, 0), 0, 0, 0, EAgain)

  /** One mount, no flag, nobody under way. */
  ghost function Start(): (st: State) {
    State(map[1 := ROOT_MOUNT], {}, 0, map[0 := BEFORE], MPick, Pos(0, 0), CPick, Pos(0, 0), 0, {})
  }

  ghost function Ready(): (st: State) { Start().(mt := Both(), mounted := {1, 11}, seqv := 4, tgt := Pos(2, 11)) }

  lemma {:induction false} StartInit()
    ensures Init(Forest(), Start())
  {
    var mt := Start().mt;
    assert Rooted(mt, 1, 0);
    assert UpBy(Forest(), 0, 0) == 0;
    assert RootIn(Forest(), mt, Forest().root[0]);
  }

  lemma {:induction false} BothMounted() returns (b: seq<State>)
    ensures Run(Forest(), b) && Top(b) == Ready()
  {
    b := [Start()];
    assert Run(Forest(), b) by {
      hide Next;
      StartInit();
    }
    hide Run, Forest;
    b := MountRound(Forest(), b, Pos(1, 1), 2, 10);
    b := MountRound(Forest(), b, Pos(2, 11), 3, 10);
  }

  /** A run in which the walk began at s, and the locked walk finds the file ever since. */
  ghost predicate Leads(b: seq<State>, s: nat) {
    && Run(Forest(), b) && s + 1 < |b| && 0 in b[s].ws && StepInit(b[s], 0, b[s + 1])
    && forall j {:trigger b[j]} :: s <= j < |b| ==> Finds(b[j].mt)
  }

  lemma {:induction false} Walks(b: seq<State>, s: nat, z: State)
    requires Leads(b, s) && WalkStep(Forest(), Top(b), 0, z) && z.mt == Top(b).mt
    ensures Leads(b + [z], s) && Top(b + [z]) == z
  {
    hide Run, Finds, WalkStep, StepInit;
    Extend(Forest(), b, z);
  }

  lemma {:induction false} Changes(b: seq<State>, s: nat, z: State)
    requires Leads(b, s) && ChangeStep(Forest(), Top(b), z) && Finds(z.mt)
    ensures Leads(b + [z], s) && Top(b + [z]) == z
  {
    hide Run, Finds, ChangeStep, StepInit;
    Extend(Forest(), b, z);
  }

  /** The walker as it walks with the sample 4. */
  ghost function At(pc: WPc, path: Pos, nxt: Dentry, ip: nat): (k: Walker) { Walker(pc, path, nxt, ip, 4, EAgain) }

  ghost predicate Stands(b: seq<State>, k: Walker) { |b| > 0 && Top(b).ws == map[0 := k] }

  /** A step of the walker alone. */
  lemma {:induction false} Moved(b: seq<State>, s: nat, k: Walker) returns (e: seq<State>)
    requires Leads(b, s) && |b| > 0 && 0 in Top(b).ws && WalkStep(Forest(), Top(b), 0, Set(Top(b), 0, k))
    requires Top(b).ws.Keys == {0}
    ensures Leads(e, s) && |e| == |b| + 1 && e[|b| - 1] == Top(b)
    ensures Top(e) == Set(Top(b), 0, k) == Top(b).(ws := map[0 := k])
  {
    hide Leads, WalkStep;
    var z := Set(Top(b), 0, k);
    assert Top(b).ws[0 := k] == map[0 := k];
    Walks(b, s, z);
    e := b + [z];
  }

  lemma {:induction false} UnflaggedStep(st: State, p: Pos, d: Dentry, ip: nat)
    requires st.ws == map[0 := At(WMounts, p, d, ip)] && d !in st.mounted
    ensures WalkStep(Forest(), st, 0, Set(st, 0, At(WStep, p, d, ip)))
  {
    InForest();
    hide StepDotDot, LookupMnt, Forest;
    assert StepMounts(Forest(), st, 0, Set(st, 0, At(WStep, p, d, ip)));
  }

  lemma {:induction false} Unflagged(b: seq<State>, s: nat, p: Pos, d: Dentry, ip: nat) returns (e: seq<State>)
    requires Leads(b, s) && Stands(b, At(WMounts, p, d, ip)) && d !in Top(b).mounted
    ensures Leads(e, s) && |e| > 0 && Top(e) == Top(b).(ws := map[0 := At(WStep, p, d, ip)])
  {
    hide Leads, WalkStep;
    UnflaggedStep(Top(b), p, d, ip);
    e := Moved(b, s, At(WStep, p, d, ip));
  }

  lemma {:induction false} InForest()
    ensures 0 in Forest().prog && 0 in Forest().root && Forest().prog[0] == [Name(0), Name(0), Name(1)]
    ensures Forest().root[0] == Pos(1, 0)
    ensures Forest().negative == {13} && Forest().scoped == {0}
  {
  }

  lemma {:induction false} EnteredStep(st: State, p: Pos, d: Dentry, ip: nat)
    requires st.ws == map[0 := At(WStep, p, d, ip)] && d != 13
    ensures WalkStep(Forest(), st, 0, Set(st, 0, At(WComp, Pos(p.mnt, d), d, ip + 1)))
  {
    InForest();
    hide StepDotDot, LookupMnt, Forest, Restart;
    assert StepStep(Forest(), st, 0, Set(st, 0, At(WComp, Pos(p.mnt, d), d, ip + 1)));
  }

  lemma {:induction false} Entered(b: seq<State>, s: nat, p: Pos, d: Dentry, ip: nat) returns (e: seq<State>)
    requires Leads(b, s) && Stands(b, At(WStep, p, d, ip)) && d != 13
    ensures Leads(e, s) && |e| > 0 && Top(e) == Top(b).(ws := map[0 := At(WComp, Pos(p.mnt, d), d, ip + 1)])
  {
    hide Leads, WalkStep, Forest;
    EnteredStep(Top(b), p, d, ip);
    e := Moved(b, s, At(WComp, Pos(p.mnt, d), d, ip + 1));
  }

  lemma {:induction false} LooksUpStep(st: State, p: Pos, d: Dentry, ip: nat, n: nat, c: Dentry)
    requires st.ws == map[0 := At(WComp, p, d, ip)] && ip < 3 && Forest().prog[0][ip] == Name(n)
    requires Forest().child(p.d, n) == D(c)
    ensures WalkStep(Forest(), st, 0, Set(st, 0, At(WMounts, p, c, ip)))
  {
    InForest();
    hide StepDotDot, LookupMnt, Forest, Restart;
    assert StepComp(Forest(), st, 0, Set(st, 0, At(WMounts, p, c, ip)));
  }

  lemma {:induction false} LooksUp(b: seq<State>, s: nat, p: Pos, d: Dentry, ip: nat, n: nat, c: Dentry)
      returns (e: seq<State>)
    requires Leads(b, s) && Stands(b, At(WComp, p, d, ip)) && ip < 3 && Forest().prog[0][ip] == Name(n)
    requires Forest().child(p.d, n) == D(c)
    ensures Leads(e, s) && |e| > 0 && Top(e) == Top(b).(ws := map[0 := At(WMounts, p, c, ip)])
  {
    hide Leads, WalkStep, Forest;
    LooksUpStep(Top(b), p, d, ip, n, c);
    e := Moved(b, s, At(WMounts, p, c, ip));
  }

  /** Past a dentry with no flag, to the lookup of the next name. */
  lemma {:induction false} Enters(b: seq<State>, s: nat, p: Pos, d: Dentry, ip: nat, n: nat, c: Dentry)
      returns (e: seq<State>)
    requires Leads(b, s) && Stands(b, At(WMounts, p, d, ip)) && d !in Top(b).mounted && d != 13
    requires ip < 2 && Forest().prog[0][ip + 1] == Name(n) && Forest().child(d, n) == D(c)
    ensures Leads(e, s) && |e| > 0 && Top(e) == Top(b).(ws := map[0 := At(WMounts, Pos(p.mnt, d), c, ip + 1)])
  {
    hide Leads, Forest;
    e := Unflagged(b, s, p, d, ip);
    e := Entered(e, s, p, d, ip);
    e := LooksUp(e, s, Pos(p.mnt, d), d, ip + 1, n, c);
  }

  lemma {:induction false} Begins(b0: seq<State>) returns (b: seq<State>, s: nat)
    requires Run(Forest(), b0) && Top(b0) == Ready()
    ensures Leads(b, s) && |b| > 0 && Top(b) == Ready().(ws := map[0 := At(WComp, Pos(1, 0), 0, 0)])
  {
    BothFind();
    InForest();
    hide Run, Finds, Forest, StepDotDot;
    assert |b0| > 0 by { RunSome(Forest(), b0); }
    var z := Set(Ready(), 0, At(WComp, Pos(1, 0), 0, 0));
    s := |b0| - 1;
    assert StepInit(Ready(), 0, z);
    assert WalkStep(Forest(), Ready(), 0, z);
    Extend(Forest(), b0, z);
    b := b0 + [z];
  }

  /** It crosses the mount on /a and stands before the second a. */
  lemma {:induction false} WalksIn(b0: seq<State>) returns (b: seq<State>, s: nat)
    requires Run(Forest(), b0) && Top(b0) == Ready()
    ensures Leads(b, s) && |b| > 0 && Top(b) == Ready().(ws := map[0 := At(WMounts, Pos(2, 10), 11, 1)])
  {
    hide Leads, Run;
    b, s := Begins(b0);
    b := LooksUp(b, s, Pos(1, 0), 0, 0, 0, 1);
    b := Crosses(b, s);
    b := Enters(b, s, Pos(2, 10), 10, 0, 0, 11);
  }

  lemma {:induction false} CrossesStep(st: State)
    requires st == Ready().(ws := map[0 := At(WMounts, Pos(1, 0), 1, 0)])
    ensures WalkStep(Forest(), st, 0, Set(st, 0, At(WMounts, Pos(2, 10), 10, 0)))
  {
    InForest();
    NoneOn(Both(), 1, 1);
    hide StepDotDot, LookupMnt, Forest, Restart;
    assert Hop(Forest(), st, 0, 2, Set(st, 0, At(WMounts, Pos(2, 10), 10, 0)));
    assert StepMounts(Forest(), st, 0, Set(st, 0, At(WMounts, Pos(2, 10), 10, 0)));
  }

  lemma {:induction false} Crosses(b: seq<State>, s: nat) returns (e: seq<State>)
    requires Leads(b, s) && |b| > 0 && Top(b) == Ready().(ws := map[0 := At(WMounts, Pos(1, 0), 1, 0)])
    ensures Leads(e, s) && |e| > 0 && Top(e) == Ready().(ws := map[0 := At(WMounts, Pos(2, 10), 10, 0)])
  {
    hide Leads, WalkStep, Forest;
    CrossesStep(Top(b));
    e := Moved(b, s, At(WMounts, Pos(2, 10), 10, 0));
  }

  lemma {:induction false} BothBelow()
    ensures Subtree(Both(), 2) == {2, 3}
  {
    var mt := Both();
    assert Below(mt, 2, 2, 0) && Below(mt, 2, 2, 0) && Below(mt, 2, 3, 1);
    assert forall n: nat :: !Below(mt, 2, 1, n);
  }

  lemma {:induction false} TreeGoes(st: State)
    requires st.mt == Both() && st.mounted == {1, 11} && st.mpc == MPick && st.cpc == CUnhash && st.victim == 2
    ensures ChangeStep(Forest(), st, st.(cpc := CUmUnlock, mt := Neither(), mounted := {}, todo := {2, 3}))
  {
    BothBelow();
    hide Subtree, Moves, Forest;
    assert Unhashed(Both(), {2, 3}) == Neither();
    assert Flags(st, Neither()) == {};
  }

  lemma {:induction false} Locks(st: State)
    requires st.mt == Both() && st.cpc == CPick && !Writing(st)
    ensures ChangeStep(Forest(), st, st.(cpc := CLock, victim := 2))
    ensures ChangeStep(Forest(), st.(cpc := CLock, victim := 2), st.(cpc := CUnhash, victim := 2, seqv := st.seqv + 1))
  {
    hide Moves, Forest;
    assert PickUmount(st, 2, st.(cpc := CLock, victim := 2));
  }

  lemma {:induction false} Unlocks(st: State)
    requires st.cpc == CUmUnlock
    ensures ChangeStep(Forest(), st, st.(cpc := CPut, seqv := st.seqv + 1))
  {
    hide Forest;
  }

  lemma {:induction false} Collects(b0: seq<State>, s: nat) returns (b: seq<State>)
    requires Leads(b0, s) && |b0| > 0 && Top(b0).mt == Both() && Top(b0).cpc == CPick && !Writing(Top(b0))
    ensures Leads(b, s) && |b| > 0
    ensures Top(b) == Top(b0).(cpc := CUnhash, victim := 2, seqv := Top(b0).seqv + 1)
  {
    BothFind();
    var s1 := Top(b0).(cpc := CLock, victim := 2);
    hide Leads, Finds, ChangeStep, Both, Forest;
    Locks(Top(b0));
    Changes(b0, s, s1);
    b := b0 + [s1];
    Changes(b, s, s1.(cpc := CUnhash, seqv := s1.seqv + 1));
    b := b + [s1.(cpc := CUnhash, seqv := s1.seqv + 1)];
  }

  lemma {:induction false} Releases(b0: seq<State>, s: nat) returns (b: seq<State>)
    requires Leads(b0, s) && |b0| > 0 && Top(b0).mt == Both() && Top(b0).mounted == {1, 11}
    requires Top(b0).mpc == MPick && Top(b0).cpc == CUnhash && Top(b0).victim == 2
    ensures Leads(b, s) && |b| > 0
    ensures Top(b) == Top(b0).(cpc := CPut, mt := Neither(), mounted := {}, todo := {2, 3}, seqv := Top(b0).seqv + 1)
  {
    NeitherFinds();
    var s1 := Top(b0).(cpc := CUmUnlock, mt := Neither(), mounted := {}, todo := {2, 3});
    hide Leads, Finds, ChangeStep, Both, Neither, Forest;
    TreeGoes(Top(b0));
    Changes(b0, s, s1);
    b := b0 + [s1];
    Unlocks(s1);
    Changes(b, s, s1.(cpc := CPut, seqv := s1.seqv + 1));
    b := b + [s1.(cpc := CPut, seqv := s1.seqv + 1)];
  }

  /** The mount on /a is lazily unmounted, and the one below it with it. */
  lemma {:induction false} Unmounts(b0: seq<State>, s: nat) returns (b: seq<State>)
    requires Leads(b0, s) && |b0| > 0 && Top(b0) == Ready().(ws := map[0 := At(WMounts, Pos(2, 10), 11, 1)])
    ensures Leads(b, s) && |b| > 0
    ensures Top(b) == Top(b0).(mt := Neither(), mounted := {}, seqv := 6, cpc := CPut, victim := 2, todo := {2, 3})
  {
    hide Leads, Both, Neither;
    b := Collects(b0, s);
    b := Releases(b, s);
  }

  const ENDED := Walker(Finished, Pos(2, 11), 13, 2, 4, ENoEnt)

  lemma {:induction false} NegativeStep(st: State)
    requires st.ws == map[0 := At(WStep, Pos(2, 11), 13, 2)]
    ensures WalkStep(Forest(), st, 0, Set(st, 0, ENDED))
  {
    InForest();
    hide StepDotDot, LookupMnt, Forest, Restart;
    assert StepStep(Forest(), st, 0, Set(st, 0, ENDED));
  }

  lemma {:induction false} MeetsNegative(b: seq<State>, s: nat) returns (e: seq<State>)
    requires Leads(b, s) && Stands(b, At(WStep, Pos(2, 11), 13, 2))
    ensures Leads(e, s) && |e| == |b| + 1 && e[|b| - 1] == Top(b) && WalkStep(Forest(), Top(b), 0, Top(e))
    ensures Top(e).ws == map[0 := ENDED]
  {
    hide Leads, WalkStep, Forest;
    NegativeStep(Top(b));
    e := Moved(b, s, ENDED);
  }

  lemma {:induction false} LeadsOn(b: seq<State>, s: nat)
    requires Leads(b, s)
    ensures s + 1 < |b|
  {
  }

  lemma {:induction false} MeetsLast(b0: seq<State>, s: nat) returns (b: seq<State>)
    requires Leads(b0, s) && Stands(b0, At(WMounts, Pos(2, 11), 13, 2)) && Top(b0).mounted == {}
    ensures Leads(b, s) && |b| > s + 2 && WalkStep(Forest(), b[|b| - 2], 0, Top(b))
    ensures b[|b| - 2].ws == map[0 := At(WStep, Pos(2, 11), 13, 2)] && Top(b).ws == map[0 := ENDED]
  {
    hide Leads, WalkStep, Forest;
    b := Unflagged(b0, s, Pos(2, 11), 13, 2);
    assert |b| > s + 1 by { LeadsOn(b, s); }
    b := MeetsNegative(b, s);
  }

  /** It goes on below where the second mount was and meets the negative y. */
  lemma {:induction false} Meets(b0: seq<State>, s: nat) returns (b: seq<State>)
    requires Leads(b0, s) && Stands(b0, At(WMounts, Pos(2, 10), 11, 1)) && Top(b0).mounted == {}
    ensures Leads(b, s) && |b| > s + 2 && WalkStep(Forest(), b[|b| - 2], 0, Top(b))
    ensures b[|b| - 2].ws == map[0 := At(WStep, Pos(2, 11), 13, 2)] && Top(b).ws == map[0 := ENDED]
  {
    assert Forest().prog[0][2] == Name(1) && Forest().child(11, 1) == D(13);
    hide Leads, WalkStep, Forest;
    b := Enters(b0, s, Pos(2, 10), 11, 1, 1, 13);
    b := MeetsLast(b, s);
  }

  /** From one mount and no flag: two mounts are made, a walk begins, the first is lazily
      unmounted with the second on it, and the walk returns -ENOENT, which the locked
      walk returns in no state from the first step of the walk to its last. */
  lemma {:induction false} NoMoment() returns (sys: Sys, b: seq<State>, s: nat, w: Wid)
    ensures Run(sys, b) && s + 2 < |b| && w in b[s].ws && StepInit(b[s], w, b[s + 1])
    ensures w in b[|b| - 2].ws && WalkStep(sys, b[|b| - 2], w, b[|b| - 1]) && b[|b| - 2].ws[w].pc == WStep
    ensures w in b[|b| - 1].ws && b[|b| - 1].ws[w].pc == Finished && b[|b| - 1].ws[w].res == ENoEnt
    ensures w in sys.prog && w in sys.root
    ensures forall j {:trigger b[j]} ::
      s <= j < |b| ==> !Resolve(sys, b[j].mt, sys.prog[w], sys.root[w], sys.root[w], ENoEnt)
  {
    hide Run, Resolve, WalkStep;
    sys, w := Forest(), 0;
    b := BothMounted();
    b, s := WalksIn(b);
    b := Unmounts(b, s);
    b := Meets(b, s);
    forall j | s <= j < |b| ensures !Resolve(sys, b[j].mt, sys.prog[w], sys.root[w], sys.root[w], ENoEnt) {
      assert Finds(b[j].mt);
      FindsOnly(b[j].mt);
    }
  }

  lemma {:induction false} FindsOnly(mt: Table)
    requires Finds(mt)
    ensures !Resolve(Forest(), mt, [Name(0), Name(0), Name(1)], Pos(1, 0), Pos(1, 0), ENoEnt)
  {
    hide Resolve;
    var prog := [Name(0), Name(0), Name(1)];
    var q :| Resolve(Forest(), mt, prog, Pos(1, 0), Pos(1, 0), Got(q));
    if Resolve(Forest(), mt, prog, Pos(1, 0), Pos(1, 0), ENoEnt) {
      ResolveUnique(Forest(), mt, prog, Pos(1, 0), Pos(1, 0), Got(q), ENoEnt);
    }
  }
}
