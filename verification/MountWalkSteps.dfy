/** What ".." comes to over any stack of mounts, and what a mount, a move and a lazy
    umount have done once their section is through. */
module MountWalkSteps {
  import opened MountWalk
  import opened MountWalkProof
  import opened MountWalkScope
  import opened MountWalkUnchecked
  import opened MountWalkEnds

  // ---- ".." ------------------------------------------------------------------------------------

  /** pos is the place a or the root of the last of at most n mounts stacked on it. */
  ghost predicate CoversIn(mt: Table, a: Pos, pos: Pos, n: nat)
    decreases n
  {
    || pos == a
    || (n > 0 && AtRoot(mt, pos) && mt[pos.mnt].parent != pos.mnt
        && CoversIn(mt, a, Pos(mt[pos.mnt].parent, mt[pos.mnt].mp), n - 1))
  }

  ghost predicate Covers(mt: Table, a: Pos, pos: Pos) { exists n: nat :: CoversIn(mt, a, pos, n) }

  /** pos stands on the root of a mount that is on nothing. */
  ghost predicate OnTop(mt: Table, pos: Pos) {
    exists t: Mnt {:trigger mt[t]} :: t in mt && mt[t].parent == t && Covers(mt, Pos(t, mt[t].root), pos)
  }

  lemma {:induction false} CoversSelf(mt: Table, a: Pos)
    ensures Covers(mt, a, a)
  {
    assert CoversIn(mt, a, a, 0);
  }

  /** One mount further down the stack. */
  lemma {:induction false} CoversStep(mt: Table, a: Pos, pos: Pos)
    requires pos != a
    ensures Covers(mt, a, pos)
        <==> && AtRoot(mt, pos) && mt[pos.mnt].parent != pos.mnt
             && Covers(mt, a, Pos(mt[pos.mnt].parent, mt[pos.mnt].mp))
  {
    if Covers(mt, a, pos) {
      var n: nat :| CoversIn(mt, a, pos, n);
      assert CoversIn(mt, a, Pos(mt[pos.mnt].parent, mt[pos.mnt].mp), n - 1);
    }
    if AtRoot(mt, pos) && mt[pos.mnt].parent != pos.mnt && Covers(mt, a, Pos(mt[pos.mnt].parent, mt[pos.mnt].mp)) {
      var n: nat :| CoversIn(mt, a, Pos(mt[pos.mnt].parent, mt[pos.mnt].mp), n);
      assert CoversIn(mt, a, pos, n + 1);
    }
  }

  lemma {:induction false} TopHere(mt: Table, m: Mnt)
    requires m in mt && mt[m].parent == m
    ensures OnTop(mt, Pos(m, mt[m].root))
  {
    CoversSelf(mt, Pos(m, mt[m].root));
  }

  lemma {:induction false} OnTopStep(mt: Table, pos: Pos)
    requires AtRoot(mt, pos) && mt[pos.mnt].parent != pos.mnt
    ensures OnTop(mt, pos) <==> OnTop(mt, Pos(mt[pos.mnt].parent, mt[pos.mnt].mp))
  {
    hide Covers;
    var next := Pos(mt[pos.mnt].parent, mt[pos.mnt].mp);
    if OnTop(mt, pos) {
      var t: Mnt :| t in mt && mt[t].parent == t && Covers(mt, Pos(t, mt[t].root), pos);
      CoversStep(mt, Pos(t, mt[t].root), pos);
    }
    if OnTop(mt, next) {
      var t: Mnt :| t in mt && mt[t].parent == t && Covers(mt, Pos(t, mt[t].root), next);
      CoversStep(mt, Pos(t, mt[t].root), pos);
    }
  }

  /** A place inside a mount is at the bottom of its own stack. */
  lemma {:induction false} InnerBottom(mt: Table, a: Pos, pos: Pos)
    requires pos.mnt in mt && pos.d != mt[pos.mnt].root
    ensures Covers(mt, a, pos) <==> a == pos
    ensures !OnTop(mt, pos)
  {
    CoversSelf(mt, pos);
    if a != pos { CoversStep(mt, a, pos); }
    if OnTop(mt, pos) {
      var t: Mnt :| t in mt && mt[t].parent == t && Covers(mt, Pos(t, mt[t].root), pos);
      CoversStep(mt, Pos(t, mt[t].root), pos);
    }
  }

  /** A stack has one place inside a mount at its bottom. */
  lemma {:induction false} BottomOnce(mt: Table, a: Pos, b: Pos, pos: Pos, n: nat)
    requires CoversIn(mt, a, pos, n) && Covers(mt, b, pos)
    requires a.mnt in mt && a.d != mt[a.mnt].root && b.mnt in mt && b.d != mt[b.mnt].root
    ensures a == b
    decreases n
  {
    hide Covers;
    if pos == a { InnerBottom(mt, b, pos); }
    else {
      if pos == b { InnerBottom(mt, a, pos); }
      CoversStep(mt, b, pos);
      BottomOnce(mt, a, b, Pos(mt[pos.mnt].parent, mt[pos.mnt].mp), n - 1);
    }
  }

  /** Where ".." leads: it stays where the walk's root, or the root of everything, is at
      the bottom of the stack it stands on; else it goes up from the bottom. */
  ghost predicate UpFrom(sys: Sys, mt: Table, pos: Pos, root: Pos, q: Pos) {
    if Covers(mt, root, pos) || OnTop(mt, pos) then q == pos
    else exists c {:trigger Covers(mt, Pos(q.mnt, c), pos)} ::
      Covers(mt, Pos(q.mnt, c), pos) && q.mnt in mt && c != mt[q.mnt].root && q.d == sys.up(c)
  }

  lemma {:induction false} ClimbTells(mt: Table, m: Mnt, root: Pos, c: Climbed, n: nat)
    requires ClimbIn(mt, m, root, c, n) && Pos(m, mt[m].root) != root
    ensures !c.found ==> Covers(mt, root, Pos(m, mt[m].root)) || OnTop(mt, Pos(m, mt[m].root))
    ensures c.found ==>
      && Covers(mt, Pos(c.mnt, c.d), Pos(m, mt[m].root)) && c.mnt in mt && c.d != mt[c.mnt].root
      && !Covers(mt, root, Pos(m, mt[m].root)) && !OnTop(mt, Pos(m, mt[m].root))
    decreases n
  {
    hide Covers, OnTop;
    var pos, p, mp := Pos(m, mt[m].root), mt[m].parent, mt[m].mp;
    if p == m {
      TopHere(mt, m);
    } else {
      OnTopStep(mt, pos);
      CoversStep(mt, root, pos);
      if Pos(p, mp) == root { CoversSelf(mt, root); }
      else {
        if mp != mt[p].root {
          InnerBottom(mt, root, Pos(p, mp));
          InnerBottom(mt, Pos(p, mp), Pos(p, mp));
        } else { ClimbTells(mt, p, root, c, n - 1); }
        if c.found && Pos(c.mnt, c.d) != pos { CoversStep(mt, Pos(c.mnt, c.d), pos); }
      }
    }
  }

  lemma {:induction false} DotDotTells(sys: Sys, mt: Table, pos: Pos, root: Pos, q: Pos)
    requires pos.mnt in mt && DotDot(sys, mt, pos, root, q)
    ensures UpFrom(sys, mt, pos, root, q)
  {
    hide Covers, OnTop, ClimbIn;
    if pos == root { CoversSelf(mt, pos); }
    else if AtRoot(mt, pos) {
      var c :| Climb(mt, pos.mnt, root, c) && q == if c.found then Pos(c.mnt, sys.up(c.d)) else pos;
      var n: nat :| ClimbIn(mt, pos.mnt, root, c, n);
      ClimbTells(mt, pos.mnt, root, c, n);
      if c.found { assert Covers(mt, Pos(q.mnt, c.d), pos); }
    } else {
      InnerBottom(mt, root, pos);
      CoversSelf(mt, pos);
      assert Covers(mt, Pos(q.mnt, pos.d), pos);
    }
  }

  /** UpFrom leaves one place to go to. */
  lemma {:induction false} UpFromOnce(sys: Sys, mt: Table, pos: Pos, root: Pos, a: Pos, b: Pos)
    requires UpFrom(sys, mt, pos, root, a) && UpFrom(sys, mt, pos, root, b)
    ensures a == b
  {
    hide CoversIn, OnTop;
    if !(Covers(mt, root, pos) || OnTop(mt, pos)) {
      var c :| Covers(mt, Pos(a.mnt, c), pos) && a.mnt in mt && c != mt[a.mnt].root && a.d == sys.up(c);
      var d :| Covers(mt, Pos(b.mnt, d), pos) && b.mnt in mt && d != mt[b.mnt].root && b.d == sys.up(d);
      var n: nat :| CoversIn(mt, Pos(a.mnt, c), pos, n);
      BottomOnce(mt, Pos(a.mnt, c), Pos(b.mnt, d), pos, n);
    }
  }

  /** ".." of every moment of every run, from any place in a mount. */
  lemma {:induction false} DotDotIff(sys: Sys, b: seq<State>, i: nat, pos: Pos, root: Pos, q: Pos)
    requires Run(sys, b) && i < |b| && pos.mnt in b[i].mt
    ensures DotDot(sys, b[i].mt, pos, root, q) <==> UpFrom(sys, b[i].mt, pos, root, q)
  {
    RunScope(sys, b, i);
    hide Run, Inv, DotDot, UpFrom, Attached, RootsIn;
    var mt := b[i].mt;
    var p := DotDotEnds(sys, mt, pos, root);
    DotDotTells(sys, mt, pos, root, p);
    if DotDot(sys, mt, pos, root, q) { DotDotTells(sys, mt, pos, root, q); }
    if UpFrom(sys, mt, pos, root, q) { UpFromOnce(sys, mt, pos, root, p, q); }
  }

  // ---- what a section has done ---------------------------------------------------------------------------

  /** A mount is mounted on d, or one is about to be. */
  ghost predicate InUse(st: State, d: Dentry) {
    Pinned(st, d)
        || exists y {:trigger st.mt[y]} :: y in st.mt && st.mt[y].alive && st.mt[y].parent != y && st.mt[y].mp == d
  }

  ghost predicate Done(st: State) {
    && (st.mpc == MUnlock ==>
          exists x {:trigger On(st.mt, st.tgt.mnt, st.tgt.d, x)} :: On(st.mt, st.tgt.mnt, st.tgt.d, x))
    && (st.cpc == CMvHash || st.cpc == CUnlock ==>
          st.victim in st.mt && st.mt[st.victim].parent == st.ctgt.mnt && st.mt[st.victim].mp == st.ctgt.d)
    && (st.cpc == CUnlock ==> st.mt[st.victim].hashed)
    && (forall x {:trigger x in st.todo} :: x in st.todo ==> x in st.mt && !st.mt[x].hashed && st.mt[x].parent == x)
    && (st.todo != {} ==> st.cpc == CUmUnlock || st.cpc == CPut)
    && (st.cpc == CUmUnlock ==>
          forall y {:trigger st.mt[y]} :: y in st.mt && st.mt[y].alive && st.mt[y].parent in st.todo ==> y in st.todo)
  }

  /** No flag is left over. */
  ghost predicate NoneLeft(st: State) {
    st.cpc != CMvHash ==> forall d {:trigger d in st.mounted} :: d in st.mounted ==> InUse(st, d)
  }

  // ---- the subtree ----------------------------------------------------------------------------------------

  /** Whatever is mounted on one of the subtree is of the subtree. */
  lemma {:induction false} SubtreeClosed(mt: Table, x: Mnt, y: Mnt)
    requires y in mt && mt[y].alive && mt[y].parent in Subtree(mt, x)
    ensures y in Subtree(mt, x)
  {
    if mt[y].parent != y {
      var n: nat :| Below(mt, x, mt[y].parent, n);
      assert Below(mt, x, y, n + 1);
    }
  }

  /** And it is the least set with x like that. */
  lemma {:induction false} SubtreeLeast(mt: Table, x: Mnt, S: set<Mnt>, y: Mnt)
    requires x in S && (forall k {:trigger mt[k]} :: k in mt && mt[k].alive && mt[k].parent in S ==> k in S)
    requires y in Subtree(mt, x)
    ensures y in S
  {
    var n: nat :| Below(mt, x, y, n);
    BelowIn(mt, x, S, y, n);
  }

  lemma {:induction false} BelowIn(mt: Table, x: Mnt, S: set<Mnt>, y: Mnt, n: nat)
    requires x in S && (forall k {:trigger mt[k]} :: k in mt && mt[k].alive && mt[k].parent in S ==> k in S)
    requires Below(mt, x, y, n)
    ensures y in S
    decreases n
  {
    if y != x { BelowIn(mt, x, S, mt[y].parent, n - 1); }
  }

  // ---- every run --------------------------------------------------------------------------------------------

  lemma {:induction false} AttachDone(sys: Sys, st: State, x: Mnt, r: Dentry, z: State)
    requires Sections(st) && Done(st) && st.mpc == MAttach && Attach(sys, st, x, r, z)
    ensures Done(z) && (NoneLeft(st) ==> NoneLeft(z))
  {
    assert On(z.mt, z.tgt.mnt, z.tgt.d, x);
    forall d | NoneLeft(st) && st.cpc != CMvHash && d in z.mounted ensures InUse(z, d) {
      assert InUse(st, d);
      if st.tgt.d == d { assert z.mt[x].mp == d; }
      else if !Pinned(st, d) {
        var y :| y in st.mt && st.mt[y].alive && st.mt[y].parent != y && st.mt[y].mp == d;
        assert z.mt[y] == st.mt[y];
      }
    }
  }

  lemma {:induction false} MounterDone(sys: Sys, st: State, z: State)
    requires Sections(st) && Done(st) && MountStep(sys, st, z)
    ensures Done(z) && (NoneLeft(st) ==> NoneLeft(z))
  {
    match st.mpc {
      case MPick =>
        var w: Pos :| Place(sys, st, w) && z == st.(mpc := MLock, tgt := w, mounted := st.mounted + {w.d});
        forall d | NoneLeft(st) && st.cpc != CMvHash && d in z.mounted ensures InUse(z, d) {
          assert d == w.d || (d in st.mounted && InUse(st, d));
        }
      case MAttach =>
        var x: Mnt, r: Dentry :| Attach(sys, st, x, r, z);
        AttachDone(sys, st, x, r, z);
      case _ =>
        forall d | NoneLeft(st) && st.cpc != CMvHash && d in z.mounted ensures InUse(z, d) { assert InUse(st, d); }
    }
  }

  lemma {:induction false} UnhashDone(sys: Sys, st: State, z: State)
    requires Sections(st) && Done(st) && st.cpc == CUnhash && ChangeStep(sys, st, z)
    ensures Done(z) && (NoneLeft(st) ==> NoneLeft(z))
  {
    var tree := Subtree(st.mt, st.victim);
    forall y | y in z.mt && z.mt[y].alive && z.mt[y].parent in tree ensures y in tree {
      if y !in tree { SubtreeClosed(st.mt, st.victim, y); }
    }
    hide Subtree;
    forall d | NoneLeft(st) && d in z.mounted ensures InUse(z, d) { assert !Unmounted(st, z.mt, d); }
  }

  lemma {:induction false} PickedDone(sys: Sys, st: State, z: State)
    requires Done(st) && st.cpc == CPick && ChangeStep(sys, st, z)
    ensures Done(z) && (NoneLeft(st) ==> NoneLeft(z))
  {
    hide Subtree;
    var v: Mnt :| PickUmount(st, v, z) || Moves(sys, st, v, z);
    if PickUmount(st, v, z) {
      forall d | NoneLeft(st) && d in z.mounted ensures InUse(z, d) { assert InUse(st, d); }
    } else {
      var w: Pos :| PickMove(sys, st, v, w, z);
      forall d | NoneLeft(st) && d in z.mounted ensures InUse(z, d) { assert d == w.d || InUse(st, d); }
    }
  }

  lemma {:induction false} PutDone(sys: Sys, st: State, z: State)
    requires Done(st) && st.cpc == CPut && ChangeStep(sys, st, z)
    ensures Done(z) && (NoneLeft(st) ==> NoneLeft(z))
  {
    var dead: set<Mnt> :| dead <= st.todo && z == st.(cpc := CPick, todo := {}, mt := Died(st.mt, dead));
    if st.mpc == MUnlock {
      var x :| On(st.mt, st.tgt.mnt, st.tgt.d, x);
      assert On(z.mt, z.tgt.mnt, z.tgt.d, x);
    }
    forall d | NoneLeft(st) && d in z.mounted ensures InUse(z, d) {
      assert InUse(st, d);
      if !Pinned(st, d) {
        var y :| y in st.mt && st.mt[y].alive && st.mt[y].parent != y && st.mt[y].mp == d;
        assert z.mt[y] == st.mt[y];
      }
    }
  }

  lemma {:induction false} MovedDone(sys: Sys, st: State, z: State)
    requires Sections(st) && Done(st)
    requires (st.cpc == CMvUnhash || st.cpc == CMvSet || st.cpc == CMvHash) && ChangeStep(sys, st, z)
    ensures Done(z) && (NoneLeft(st) ==> NoneLeft(z))
  {
    forall d | NoneLeft(st) && z.cpc != CMvHash && d in z.mounted ensures InUse(z, d) {
      if st.cpc == CMvHash { assert !Unmounted(st.(cpc := CUnlock), z.mt, d); }
      else {
        assert InUse(st, d);
        if !Pinned(st, d) {
          var y :| y in st.mt && st.mt[y].alive && st.mt[y].parent != y && st.mt[y].mp == d;
          assert z.mt[y].parent == st.mt[y].parent;
        }
      }
    }
  }

  lemma {:induction false} LockDone(sys: Sys, st: State, z: State)
    requires Done(st) && ChangeStep(sys, st, z)
    requires st.cpc == CLock || st.cpc == CMvLock || st.cpc == CUnlock || st.cpc == CUmUnlock
    ensures Done(z) && (NoneLeft(st) ==> NoneLeft(z))
  {
    forall d | NoneLeft(st) && d in z.mounted ensures InUse(z, d) { assert InUse(st, d); }
  }

  lemma {:induction false} NextDone(sys: Sys, st: State, z: State)
    requires Sections(st) && Done(st) && Next(sys, st, z)
    ensures Done(z) && (NoneLeft(st) ==> NoneLeft(z))
  {
    hide Done, NoneLeft, MountStep, WalkStep, Sections, ChangeStep;
    if MountStep(sys, st, z) { MounterDone(sys, st, z); }
    else if ChangeStep(sys, st, z) {
      match st.cpc {
        case CPick => PickedDone(sys, st, z);
        case CUnhash => UnhashDone(sys, st, z);
        case CMvUnhash | CMvSet | CMvHash => MovedDone(sys, st, z);
        case CPut => PutDone(sys, st, z);
        case _ => LockDone(sys, st, z);
      }
    } else {
      var w :| WalkStep(sys, st, w, z);
      WalkerThere(sys, st, w, z);
      WalkForm(sys, st, w, z);
      WalkDone(st, w, z);
    }
  }

  lemma {:induction false} WalkDone(st: State, w: Wid, z: State)
    requires Done(st) && w in st.ws && OneStep(st, w, z)
    ensures Done(z) && (NoneLeft(st) ==> NoneLeft(z))
  {
    forall d | NoneLeft(st) && st.cpc != CMvHash && d in z.mounted ensures InUse(z, d) { assert InUse(st, d); }
  }

  lemma {:induction false} RunDone(sys: Sys, b: seq<State>, i: nat)
    requires Run(sys, b) && i < |b|
    ensures Done(b[i]) && (NoneLeft(b[0]) ==> NoneLeft(b[i]))
    decreases i
  {
    hide Next, Done, NoneLeft, Inv;
    if i == 0 { StartDone(sys, b[0]); }
    else {
      RunDone(sys, b, i - 1);
      RunInv(sys, b, i - 1);
      assert Sections(b[i - 1]) by { InvSections(sys, b[i - 1]); }
      NextDone(sys, b[i - 1], b[i]);
    }
  }

  lemma {:induction false} StartDone(sys: Sys, st: State)
    requires Init(sys, st)
    ensures Done(st)
  {
    hide Attached, RootIn;
  }

  lemma {:induction false} InvSections(sys: Sys, st: State)
    requires Inv(sys, st)
    ensures Sections(st) && TreeOK(sys, st)
  {
    hide WalkerOK;
  }

  /** At every moment of every run, once a section has done its work: a new mount is at
      the place that was picked for it and a moved one at the place it was to go to; a lazy
      umount has taken the whole subtree out of the tree and left nothing on it. */
  lemma {:induction false} SectionsDo(sys: Sys, b: seq<State>, i: nat)
    requires Run(sys, b) && i < |b|
    ensures b[i].mpc == MUnlock ==> exists x {:trigger On(b[i].mt, b[i].tgt.mnt, b[i].tgt.d, x)} ::
        On(b[i].mt, b[i].tgt.mnt, b[i].tgt.d, x)
    ensures b[i].cpc == CUnlock ==> && b[i].victim in b[i].mt
                                    && b[i].mt[b[i].victim].hashed && b[i].mt[b[i].victim].parent == b[i].ctgt.mnt
                                    && b[i].mt[b[i].victim].mp == b[i].ctgt.d
    ensures b[i].cpc == CUmUnlock ==>
      && (forall x :: x in b[i].todo ==> x in b[i].mt && !b[i].mt[x].hashed && b[i].mt[x].parent == x)
      && (forall y :: y in b[i].mt && b[i].mt[y].alive && b[i].mt[y].parent in b[i].todo ==> y in b[i].todo)
  {
    hide Run, NoneLeft;
    RunDone(sys, b, i);
  }

  /** And it takes no more than that: every set with the victim in it and, with a mount,
      all that is mounted on it, holds all of them. */
  lemma {:induction false} TakesLeast(sys: Sys, b: seq<State>, i: nat, S: set<Mnt>)
    requires Run(sys, b) && i + 1 < |b| && b[i].cpc == CUnhash && b[i + 1].cpc == CUmUnlock
    requires b[i].victim in S
    requires forall k {:trigger b[i].mt[k]} :: k in b[i].mt && b[i].mt[k].alive && b[i].mt[k].parent in S ==> k in S
    ensures b[i + 1].todo <= S
    ensures forall k {:trigger b[i + 1].mt[k]} ::
        k in b[i].mt && k !in S ==> k in b[i + 1].mt && b[i + 1].mt[k] == b[i].mt[k]
  {
    var st, z := b[i], b[i + 1];
    assert Next(sys, st, z);
    UnhashTakes(sys, st, z);
    hide Subtree, Next;
    forall y | y in z.todo ensures y in S { SubtreeLeast(st.mt, st.victim, S, y); }
  }

  lemma {:induction false} UnhashTakes(sys: Sys, st: State, z: State)
    requires Next(sys, st, z) && st.cpc == CUnhash && z.cpc == CUmUnlock
    ensures z.todo == Subtree(st.mt, st.victim) && z.mt == Unhashed(st.mt, z.todo)
  {
    hide Subtree, Flags;
    if !ChangeStep(sys, st, z) && !MountStep(sys, st, z) {
      var w :| WalkStep(sys, st, w, z);
      WalkerThere(sys, st, w, z);
      WalkForm(sys, st, w, z);
    }
  }

  /** A dentry is flagged exactly while a mount is on it or about to be, but for the
      moment a mount has left it and is not hashed at its new place yet. */
  lemma {:induction false} FlagsExact(sys: Sys, b: seq<State>, i: nat, d: Dentry)
    requires Run(sys, b) && i < |b| && NoneLeft(b[0])
    ensures InUse(b[i], d) ==> d in b[i].mounted
    ensures d in b[i].mounted && b[i].cpc != CMvHash ==> InUse(b[i], d)
  {
    RunDone(sys, b, i);
    RunInv(sys, b, i);
    hide Run, Done, Inv;
    InvSections(sys, b[i]);
    if InUse(b[i], d) && !Pinned(b[i], d) {
      var y :| y in b[i].mt && b[i].mt[y].alive && b[i].mt[y].parent != y && b[i].mt[y].mp == d;
      assert MountOK(sys, b[i].mounted, y, b[i].mt[y]);
    }
  }

  // ---- a section comes to an end ------------------------------------------------------------------------

  /** How many steps the writer inside is from leaving. */
  ghost function Left(st: State): (n: nat) {
    (match st.mpc case MAttach => 2 case MUnlock => 1 case _ => 0)
    + (match st.cpc
       case CMvUnhash => 4
       case CMvSet => 3
       case CMvHash | CUnhash => 2
       case CUnlock | CUmUnlock => 1
       case _ => 0)
  }

  /** A number beyond a finite set of them. */
  lemma {:induction false} Beyond(s: set<nat>) returns (n: nat)
    ensures n !in s && forall k :: k in s ==> k < n
    decreases |s|
  {
    n := 0;
    if s != {} {
      var x :| x in s;
      var m := Beyond(s - {x});
      n := if x < m then m else x + 1;
      forall k | k in s ensures k < n { assert k == x || k in s - {x}; }
    }
  }

  lemma {:induction false} AttachGoes(sys: Sys, st: State) returns (z: State)
    requires st.mpc == MAttach
    ensures MountStep(sys, st, z) && z == st.(mpc := MUnlock, mt := z.mt)
  {
    var x := Beyond(st.mt.Keys + {NO_MNT, st.tgt.mnt});
    var r := Beyond(sys.negative);
    z := st.(mpc := MUnlock, mt := st.mt[x := Mount(true, st.tgt.mnt, st.tgt.d, r, true)]);
    assert Attach(sys, st, x, r, z);
  }

  /** The writer inside always has a step, and one step nearer to leaving. */
  lemma {:induction false} SectionGoes(sys: Sys, b: seq<State>, i: nat) returns (z: State)
    requires Run(sys, b) && i < |b| && Writing(b[i])
    ensures Next(sys, b[i], z) && z.ws == b[i].ws && Left(z) + 1 == Left(b[i])
  {
    RunInv(sys, b, i);
    RunTree(sys, b, i);
    RunDone(sys, b, i);
    var st := b[i];
    InvSections(sys, st);
    hide Run, Inv, Subtree, Flags, RootsIn, TreeOK, TreeInv, Done, NoneLeft;
    if st.mpc == MUnlock { z := st.(mpc := MPick, seqv := st.seqv + 1); }
    else if st.mpc == MAttach {
      z := AttachGoes(sys, st);
    } else if st.cpc == CUnhash {
      var mt1 := Unhashed(st.mt, Subtree(st.mt, st.victim));
      z := st.(cpc := CUmUnlock, mt := mt1, mounted := Flags(st, mt1), todo := Subtree(st.mt, st.victim));
      assert ChangeStep(sys, st, z);
    } else {
      assert CIn(st.cpc);
      if MoverIn(st.cpc) { MoverHere(st); }
      z := MoverGoes(sys, st);
    }
  }

  ghost predicate MoverIn(l: CPc) { l == CMvUnhash || l == CMvSet || l == CMvHash }

  lemma {:induction false} MoverHere(st: State)
    requires Done(st) && TreeInv(st) && MoverIn(st.cpc)
    ensures st.victim in st.mt
  {
    hide AllAttached, Avoids;
  }

  lemma {:induction false} MoverGoes(sys: Sys, st: State) returns (z: State)
    requires CIn(st.cpc) && st.cpc != CUnhash && (MoverIn(st.cpc) ==> st.victim in st.mt)
    ensures ChangeStep(sys, st, z) && z.ws == st.ws && Left(z) + 1 == Left(st)
  {
    hide Subtree, Flags;
    match st.cpc {
      case CMvUnhash => z := st.(cpc := CMvSet, mt := st.mt[st.victim := st.mt[st.victim].(hashed := false)]);
      case CMvSet =>
        z := st.(cpc := CMvHash, mt := st.mt[st.victim := st.mt[st.victim].(parent := st.ctgt.mnt, mp := st.ctgt.d)]);
      case CMvHash =>
        var mt1 := st.mt[st.victim := st.mt[st.victim].(hashed := true)];
        z := st.(cpc := CUnlock, mt := mt1, mounted := Flags(st.(cpc := CUnlock), mt1));
      case CUnlock => z := st.(cpc := CPick, seqv := st.seqv + 1);
      case CUmUnlock => z := st.(cpc := CPut, seqv := st.seqv + 1);
    }
  }

  /** And nobody, itself included, takes it further away: it leaves after four steps of
      its own at most. */
  lemma {:induction false} SectionLeaves(sys: Sys, b: seq<State>, i: nat)
    requires Run(sys, b) && i + 1 < |b|
    ensures Writing(b[i]) <==> Left(b[i]) > 0
    ensures Left(b[i]) <= 4
    ensures Writing(b[i]) ==> Left(b[i + 1]) + 1 == Left(b[i]) || Left(b[i + 1]) == Left(b[i])
  {
    RunInv(sys, b, i);
    InvSections(sys, b[i]);
    var st, z := b[i], b[i + 1];
    assert Next(sys, st, z);
    hide Run, Inv, Subtree, Flags, TreeOK, Next;
    if Writing(st) { SectionStep(sys, st, z); }
  }

  lemma {:induction false} SectionStep(sys: Sys, st: State, z: State)
    requires Sections(st) && Writing(st) && Next(sys, st, z)
    ensures Left(z) + 1 == Left(st) || Left(z) == Left(st)
  {
    hide MountStep, ChangeStep, WalkStep, Left, Sections;
    if MountStep(sys, st, z) { MountLeft(sys, st, z); }
    else if ChangeStep(sys, st, z) { ChangeLeft(sys, st, z); }
    else {
      var w :| WalkStep(sys, st, w, z);
      WalkerThere(sys, st, w, z);
      WalkForm(sys, st, w, z);
      assert Left(z) == Left(st) by { SameLeft(st, z); }
    }
  }

  lemma {:induction false} SameLeft(st: State, z: State)
    requires z.mpc == st.mpc && z.cpc == st.cpc
    ensures Left(z) == Left(st)
  {
  }

  lemma {:induction false} MountLeft(sys: Sys, st: State, z: State)
    requires Sections(st) && Writing(st) && MountStep(sys, st, z)
    ensures Left(z) + 1 == Left(st) || Left(z) == Left(st)
  {
  }

  lemma {:induction false} ChangeLeft(sys: Sys, st: State, z: State)
    requires Sections(st) && Writing(st) && ChangeStep(sys, st, z)
    ensures Left(z) + 1 == Left(st) || Left(z) == Left(st)
  {
    hide Subtree, Flags;
    if st.cpc == CPick { PickedForm(sys, st, z); }
  }
}
