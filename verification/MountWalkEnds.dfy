/** The RCU walk comes to an end: it falls back to REF mode only if there was a writer, it
    is never stuck, and left alone it returns what the locked walk returns. */
module MountWalkEnds {
  import opened MountWalk
  import opened MountWalkProof
  import opened MountWalkUnchecked
  import opened MountWalkScope

  // ---- why a walk starts over --------------------------------------------------------------

  /** w began its walk at s. */
  ghost predicate Samples(b: seq<State>, s: nat, w: Wid) {
    s + 1 < |b| && w in b[s].ws && StepInit(b[s], w, b[s + 1])
  }

  ghost predicate Begun(k: Walker) { Walking(k) || k.pc == Ref }

  lemma {:induction false} BegunStep(sys: Sys, st: State, w: Wid, z: State)
    requires WalkStep(sys, st, w, z)
    ensures w in st.ws && w in z.ws
    ensures Begun(z.ws[w]) ==> StepInit(st, w, z) || (Begun(st.ws[w]) && z.ws[w].mseq == st.ws[w].mseq)
    ensures z.ws[w].pc == Ref ==> st.ws[w].mseq != st.seqv && Walking(st.ws[w])
  {
    WalkForm(sys, st, w, z);
    hide DotDot, LookupMnt, AtRoot;
  }

  lemma {:induction false} Sampled(sys: Sys, b: seq<State>, i: nat, w: Wid) returns (s: nat)
    requires Run(sys, b) && i < |b| && w in b[i].ws && Begun(b[i].ws[w])
    ensures s < i && Samples(b, s, w) && b[s].seqv == b[i].ws[w].mseq
    decreases i
  {
    hide Next, WalkStep;
    assert forall v :: v in b[0].ws ==> !Begun(b[0].ws[v]);
    assert Next(sys, b[i - 1], b[i]);
    Back(sys, b[i - 1], w, b[i]);
    if WalkStep(sys, b[i - 1], w, b[i]) { BegunStep(sys, b[i - 1], w, b[i]); }
    if w in b[i - 1].ws && StepInit(b[i - 1], w, b[i]) { s := i - 1; } else { s := Sampled(sys, b, i - 1, w); }
  }

  lemma {:induction false} Back(sys: Sys, st: State, w: Wid, z: State)
    requires Next(sys, st, z) && w in z.ws
    ensures w in st.ws && (z.ws[w] == st.ws[w] || WalkStep(sys, st, w, z))
  {
    hide Next, WalkStep;
    NextGrows(sys, st, z);
    if z.ws != st.ws {
      var v :| WalkStep(sys, st, v, z);
      RodeOwn(sys, st, v, z);
    }
  }

  /** A walk starts over in REF mode only if mount_lock was written between its start, at
      s, and a later moment j of it. */
  lemma {:induction false} RefHasWriter(sys: Sys, b: seq<State>, i: nat, w: Wid) returns (s: nat, j: nat)
    requires Run(sys, b) && i < |b| && w in b[i].ws && b[i].ws[w].pc == Ref
    ensures s < j <= i && Samples(b, s, w) && b[s].seqv < b[j].seqv
    decreases i
  {
    hide Next, WalkStep, Inv;
    assert forall v :: v in b[0].ws ==> !Begun(b[0].ws[v]);
    assert Next(sys, b[i - 1], b[i]);
    Back(sys, b[i - 1], w, b[i]);
    if b[i - 1].ws[w].pc == Ref { s, j := RefHasWriter(sys, b, i - 1, w); }
    else {
      j := i - 1;
      BegunStep(sys, b[j], w, b[i]);
      RunInv(sys, b, j);
      InvWalker(sys, b[j], w);
      s := Sampled(sys, b, j, w);
    }
  }

  // ---- never stuck ------------------------------------------------------------------------------

  lemma {:induction false} ClimbEnds(mt: Table, m: Mnt, root: Pos, n: nat) returns (c: Climbed)
    requires Rooted(mt, m, n)
    ensures ClimbIn(mt, m, root, c, n)
    decreases n
  {
    var p, mp := mt[m].parent, mt[m].mp;
    if p == m || (p == root.mnt && mp == root.d) { c := Climbed(false, m, mt[m].root); }
    else if mp != mt[p].root { c := Climbed(true, p, mp); }
    else { c := ClimbEnds(mt, p, root, n - 1); }
  }

  lemma {:induction false} DotDotEnds(sys: Sys, mt: Table, pos: Pos, root: Pos) returns (q: Pos)
    requires AllAttached(mt)
    ensures DotDot(sys, mt, pos, root, q)
  {
    if pos != root && AtRoot(mt, pos) {
      assert Attached(mt, pos.mnt);
      var n: nat :| Rooted(mt, pos.mnt, n);
      var c := ClimbEnds(mt, pos.mnt, root, n);
      assert Climb(mt, pos.mnt, root, c);
      q := if c.found then Pos(c.mnt, sys.up(c.d)) else pos;
    } else {
      q := if pos == root then pos else Pos(pos.mnt, sys.up(pos.d));
    }
  }

  /** Every walker that has begun in RCU mode has a step to take, in every state. */
  lemma {:induction false} WalkerGoes(sys: Sys, b: seq<State>, i: nat, w: Wid) returns (z: State)
    requires Run(sys, b) && i < |b| && w in b[i].ws
    requires Walking(b[i].ws[w]) || (b[i].ws[w].pc == WInit && !Writing(b[i]))
    ensures WalkStep(sys, b[i], w, z)
  {
    hide Run, ScopeOK, Inv;
    RunScope(sys, b, i);
    InvWalker(sys, b[i], w);
    z := StepOf(sys, b[i], w);
  }

  lemma {:induction false} StepOf(sys: Sys, st: State, w: Wid) returns (z: State)
    requires ScopeOK(sys, st.mt) && w in st.ws && w in sys.prog && w in sys.root
    requires Walking(st.ws[w]) || (st.ws[w].pc == WInit && !Writing(st))
    ensures WalkStep(sys, st, w, z)
  {
    hide DotDot, RootsIn, Attached, LookupMnt;
    var k, root := st.ws[w], sys.root[w];
    var restart := Set(st, w, k.(pc := Ref, path := root, ip := 0));
    match k.pc
    case WInit => z := Set(st, w, k.(pc := WComp, mseq := st.seqv));
    case WComp =>
      if k.ip >= |sys.prog[w]| { z := Set(st, w, k.(pc := WComplete)); }
      else {
        match sys.prog[w][k.ip]
        case Up => z := Set(st, w, k.(pc := WDotDot));
        case Name(n) =>
          z := match sys.child(k.path.d, n)
               case NoD => Set(st, w, k.(pc := WSlow))
               case D(c) => Set(st, w, k.(pc := WMounts, nxt := c));
      }
    case WSlow => z := if st.seqv == k.mseq then Set(st, w, k.(pc := Finished, res := ENoEnt)) else restart;
    case WMounts =>
      var o := LookupMnt(st.mt, k.path.mnt, k.nxt);
      z := if k.nxt !in st.mounted then Set(st, w, k.(pc := WStep))
           else if st.seqv != k.mseq then restart
           else if o == NO_MNT then Set(st, w, k.(pc := WStep))
           else Set(st, w, k.(path := Pos(o, st.mt[o].root), nxt := st.mt[o].root));
      assert k.nxt in st.mounted ==> Hop(sys, st, w, o, z);
    case WStep =>
      z := if k.nxt in sys.negative then Set(st, w, k.(pc := Finished, res := ENoEnt))
           else Set(st, w, k.(pc := WComp, path := Pos(k.path.mnt, k.nxt), ip := k.ip + 1));
    case WDotDot =>
      var q := DotDotEnds(sys, st.mt, k.path, root);
      z := if st.seqv != k.mseq && (k.path == root || AtRoot(st.mt, k.path)) then restart
           else if st.seqv != k.mseq && w in sys.scoped then Set(st, w, k.(pc := Finished, res := EAgain))
           else Set(st, w, k.(pc := WComp, path := q, ip := k.ip + 1));
      assert GoUp(sys, st, w, q, z);
    case WComplete => z := if st.seqv == k.mseq then Set(st, w, k.(pc := Finished, res := Got(k.path))) else restart;
    case Ref | Finished =>
  }

  // ---- left alone -----------------------------------------------------------------------------------

  /** The run goes on with steps of w alone, and w is at k now. */
  ghost predicate GoesOn(sys: Sys, b: seq<State>, e: seq<State>, w: Wid, k: Walker) {
    Run(sys, b) && Run(sys, e) && b <= e && w in Top(b).ws && Top(e) == Set(Top(b), w, k)
  }

  lemma {:induction false} OneMore(sys: Sys, b: seq<State>, e: seq<State>, w: Wid, k: Walker, j: Walker)
      returns (f: seq<State>)
    requires GoesOn(sys, b, e, w, k) && WalkStep(sys, Top(e), w, Set(Top(e), w, j))
    ensures GoesOn(sys, b, f, w, j) && |f| == |e| + 1
  {
    hide Run, WalkStep;
    assert |e| > 0 && |b| > 0 by { RunSome(sys, e); RunSome(sys, b); }
    Extend(sys, e, Set(Top(e), w, j));
    f := e + [Set(Top(e), w, j)];
    assert Top(b).ws[w := k][w := j] == Top(b).ws[w := j];
  }

  /** Over whatever is mounted, to the next component. */
  /** Nothing is mounted there. */
  lemma {:induction false} QuietNone(sys: Sys, b: seq<State>, e: seq<State>, w: Wid, k: Walker) returns (f: seq<State>)
    requires GoesOn(sys, b, e, w, k) && k.pc == WMounts && k.mseq == Top(b).seqv && w in sys.prog && w in sys.root
    requires k.nxt !in sys.negative && LookupMnt(Top(b).mt, k.path.mnt, k.nxt) == NO_MNT
    ensures GoesOn(sys, b, f, w, k.(pc := WComp, path := Pos(k.path.mnt, k.nxt), ip := k.ip + 1))
  {
    GoesAt(sys, b, e, w, k);
    hide Run, GoesOn, LookupMnt;
    var st := Top(e);
    var j := k.(pc := WStep);
    assert k.nxt in st.mounted ==> Hop(sys, st, w, NO_MNT, Set(st, w, j));
    f := Plain(sys, b, e, w, k, j);
    f := Plain(sys, b, f, w, j, j.(pc := WComp, path := Pos(k.path.mnt, k.nxt), ip := k.ip + 1));
  }

  lemma {:induction false} QuietMounts(sys: Sys, b: seq<State>, e: seq<State>, w: Wid, k: Walker, q: Pos, n: nat)
      returns (f: seq<State>)
    requires GoesOn(sys, b, e, w, k) && k.pc == WMounts && k.mseq == Top(b).seqv && !Writing(Top(b)) && w in sys.prog
    requires w in sys.root
    requires TreeOK(sys, Top(b)) && k.nxt !in sys.negative && CrossIn(Top(b).mt, k.path.mnt, k.nxt, q, n)
    ensures GoesOn(sys, b, f, w, k.(pc := WComp, path := q, nxt := q.d, ip := k.ip + 1))
    decreases n
  {
    GoesAt(sys, b, e, w, k);
    NotMounted(sys, Top(b), k.path.mnt, k.nxt);
    hide Run, TreeOK, LookupMnt, GoesOn;
    var st := Top(e);
    var o := LookupMnt(st.mt, k.path.mnt, k.nxt);
    if o == NO_MNT { f := QuietNone(sys, b, e, w, k); }
    else {
      var j := k.(path := Pos(o, st.mt[o].root), nxt := st.mt[o].root);
      assert Hop(sys, st, w, o, Set(st, w, j));
      assert StepMounts(sys, st, w, Set(st, w, j));
      f := Plain(sys, b, e, w, k, j);
      f := QuietMounts(sys, b, f, w, j, q, n - 1);
    }
  }

  lemma {:induction false} GoesAt(sys: Sys, b: seq<State>, e: seq<State>, w: Wid, k: Walker)
    requires GoesOn(sys, b, e, w, k)
    ensures w in Top(e).ws && Top(e).ws[w] == k && Top(e).mt == Top(b).mt && Top(e).seqv == Top(b).seqv
    ensures Top(e).mounted == Top(b).mounted && Top(e).ws.Keys == Top(b).ws.Keys
  {
    hide Run;
  }

  /** One more step, to j. */
  lemma {:induction false} Plain(sys: Sys, b: seq<State>, e: seq<State>, w: Wid, k: Walker, j: Walker)
      returns (f: seq<State>)
    requires GoesOn(sys, b, e, w, k) && w in sys.prog && w in sys.root && k.mseq == Top(b).seqv
    requires var st := Top(e); var z := Set(st, w, j);
             w in st.ws && (StepComp(sys, st, w, z) || StepSlow(sys, st, w, z) || StepStep(sys, st, w, z)
             || StepMounts(sys, st, w, z) || StepDotDot(sys, st, w, z) || StepComplete(sys, st, w, z))
    ensures GoesOn(sys, b, f, w, j) && GoesOn(sys, b, f, w, j) && w in Top(f).ws && Top(f).ws[w] == j
    ensures Top(f).mt == Top(b).mt && Top(f).seqv == Top(b).seqv && Top(f).mounted == Top(b).mounted
  {
    hide Run, GoesOn, StepComp, StepSlow, StepStep, StepMounts, StepDotDot, StepComplete;
    f := OneMore(sys, b, e, w, k, j);
    GoesAt(sys, b, f, w, j);
  }

  /** The end of a walk left alone. */
  ghost predicate Ends(sys: Sys, b: seq<State>, f: seq<State>, w: Wid, r: Res) {
    exists k {:trigger GoesOn(sys, b, f, w, k)} :: GoesOn(sys, b, f, w, k) && k.pc == Finished && k.res == r
  }

  /** A name that is not there, or negative. */
  lemma {:induction false} QuietMiss(sys: Sys, b: seq<State>, e: seq<State>, w: Wid, k: Walker, n: nat)
      returns (f: seq<State>)
    requires GoesOn(sys, b, e, w, k) && k.pc == WComp && k.mseq == Top(b).seqv && !Writing(Top(b)) && w in sys.prog
    requires w in sys.root
    requires TreeOK(sys, Top(b)) && k.ip < |sys.prog[w]| && sys.prog[w][k.ip] == Name(n)
    requires sys.child(k.path.d, n) == NoD || sys.child(k.path.d, n).d in sys.negative
    ensures Ends(sys, b, f, w, ENoEnt)
  {
    GoesAt(sys, b, e, w, k);
    hide Run, GoesOn, TreeOK, LookupMnt, StepDotDot;
    if sys.child(k.path.d, n) == NoD {
      var j := k.(pc := WSlow);
      f := Plain(sys, b, e, w, k, j);
      f := Plain(sys, b, f, w, j, j.(pc := Finished, res := ENoEnt));
    } else {
      var j := k.(pc := WMounts, nxt := sys.child(k.path.d, n).d);
      f := Plain(sys, b, e, w, k, j);
      NotMounted(sys, Top(b), j.path.mnt, j.nxt);
      assert j.nxt in Top(f).mounted ==> Hop(sys, Top(f), w, NO_MNT, Set(Top(f), w, j.(pc := WStep)));
      f := Plain(sys, b, f, w, j, j.(pc := WStep));
      f := Plain(sys, b, f, w, j.(pc := WStep), j.(pc := Finished, res := ENoEnt));
    }
  }

  /** The rest of the walk from a component on. */
  lemma {:induction false} QuietUp(sys: Sys, b: seq<State>, e: seq<State>, w: Wid, k: Walker, q: Pos)
      returns (f: seq<State>)
    requires GoesOn(sys, b, e, w, k) && k.pc == WComp && k.mseq == Top(b).seqv && w in sys.prog && w in sys.root
    requires k.ip < |sys.prog[w]| && sys.prog[w][k.ip] == Up && DotDot(sys, Top(b).mt, k.path, sys.root[w], q)
    ensures GoesOn(sys, b, f, w, k.(pc := WComp, path := q, ip := k.ip + 1))
  {
    GoesAt(sys, b, e, w, k);
    hide Run, GoesOn, DotDot;
    f := Plain(sys, b, e, w, k, k.(pc := WDotDot));
    var j := k.(pc := WComp, path := q, ip := k.ip + 1);
    assert GoUp(sys, Top(f), w, q, Set(Top(f), w, j));
    f := Plain(sys, b, f, w, k.(pc := WDotDot), j);
  }

  lemma {:induction false} QuietName(sys: Sys, b: seq<State>, e: seq<State>, w: Wid, k: Walker, n: nat, q: Pos)
      returns (f: seq<State>)
    requires GoesOn(sys, b, e, w, k) && k.pc == WComp && k.mseq == Top(b).seqv && !Writing(Top(b)) && w in sys.prog
    requires w in sys.root && TreeOK(sys, Top(b)) && k.ip < |sys.prog[w]| && sys.prog[w][k.ip] == Name(n)
    requires sys.child(k.path.d, n).D? && sys.child(k.path.d, n).d !in sys.negative
    requires Cross(Top(b).mt, k.path.mnt, sys.child(k.path.d, n).d, q)
    ensures GoesOn(sys, b, f, w, k.(path := q, nxt := q.d, ip := k.ip + 1))
  {
    GoesAt(sys, b, e, w, k);
    hide Run, GoesOn, TreeOK, Cross;
    var j := k.(pc := WMounts, nxt := sys.child(k.path.d, n).d);
    f := Plain(sys, b, e, w, k, j);
    f := QuietCross(sys, b, f, w, j, q);
    assert j.(pc := WComp, path := q, nxt := q.d, ip := k.ip + 1) == k.(path := q, nxt := q.d, ip := k.ip + 1);
  }

  lemma {:induction false} QuietWalk(sys: Sys, b: seq<State>, e: seq<State>, w: Wid, k: Walker, r: Res)
      returns (f: seq<State>)
    requires GoesOn(sys, b, e, w, k) && k.pc == WComp && k.mseq == Top(b).seqv && !Writing(Top(b)) && w in sys.prog
    requires w in sys.root
    requires TreeOK(sys, Top(b)) && k.ip <= |sys.prog[w]|
    requires Resolve(sys, Top(b).mt, sys.prog[w][k.ip..], k.path, sys.root[w], r)
    ensures Ends(sys, b, f, w, r)
    decreases |sys.prog[w]| - k.ip
  {
    GoesAt(sys, b, e, w, k);
    hide Run, GoesOn, TreeOK, LookupMnt, DotDot, Cross, StepMounts, StepStep, StepDotDot;
    var prog, mt, root := sys.prog[w], Top(b).mt, sys.root[w];
    if k.ip == |prog| {
      assert prog[k.ip..] == [];
      f := Plain(sys, b, e, w, k, k.(pc := WComplete));
      f := Plain(sys, b, f, w, k.(pc := WComplete), k.(pc := Finished, res := Got(k.path)));
    } else {
      TailOf(prog, k.ip);
      match prog[k.ip] {
        case Up =>
          var q :| DotDot(sys, mt, k.path, root, q) && Resolve(sys, mt, prog[k.ip + 1..], q, root, r);
          f := QuietUp(sys, b, e, w, k, q);
          f := QuietWalk(sys, b, f, w, k.(pc := WComp, path := q, ip := k.ip + 1), r);
        case Name(n) =>
          if sys.child(k.path.d, n) == NoD || sys.child(k.path.d, n).d in sys.negative {
            f := QuietMiss(sys, b, e, w, k, n);
          } else {
            var c := sys.child(k.path.d, n).d;
            var q :| Cross(mt, k.path.mnt, c, q) && Resolve(sys, mt, prog[k.ip + 1..], q, root, r);
            f := QuietName(sys, b, e, w, k, n, q);
            f := QuietWalk(sys, b, f, w, k.(path := q, nxt := q.d, ip := k.ip + 1), r);
          }
      }
    }
  }

  lemma {:induction false} QuietCross(sys: Sys, b: seq<State>, e: seq<State>, w: Wid, k: Walker, q: Pos)
      returns (f: seq<State>)
    requires GoesOn(sys, b, e, w, k) && k.pc == WMounts && k.mseq == Top(b).seqv && !Writing(Top(b)) && w in sys.prog
    requires w in sys.root
    requires TreeOK(sys, Top(b)) && k.nxt !in sys.negative && Cross(Top(b).mt, k.path.mnt, k.nxt, q)
    ensures GoesOn(sys, b, f, w, k.(pc := WComp, path := q, nxt := q.d, ip := k.ip + 1))
  {
    assert |b| > 0 by { hide Next, Init; }
    hide GoesOn, TreeOK, CrossIn;
    var n: nat :| CrossIn(Top(b).mt, k.path.mnt, k.nxt, q, n);
    f := QuietMounts(sys, b, e, w, k, q, n);
  }

  /** A walk that begins while no writer is inside, and is left alone, ends in RCU mode, and
      with just what the locked walk ends with. */
  lemma {:induction false} LeftAlone(sys: Sys, b: seq<State>, w: Wid, r: Res) returns (f: seq<State>)
    requires Run(sys, b) && |b| > 0 && w in Top(b).ws && Top(b).ws[w].pc == WInit && !Writing(Top(b))
    requires w in sys.prog && w in sys.root && Resolve(sys, Top(b).mt, sys.prog[w], sys.root[w], sys.root[w], r)
    ensures Ends(sys, b, f, w, r)
  {
    hide Run, Inv, Resolve, GoesOn, TreeOK, WalkerOK, Next;
    RunInv(sys, b, |b| - 1);
    InvWalker(sys, Top(b), w);
    TreeOf(sys, Top(b));
    var k := Top(b).ws[w];
    var j := k.(pc := WComp, mseq := Top(b).seqv);
    BeginsAt(sys, Top(b), w);
    GoesSelf(sys, b, w);
    f := OneMore(sys, b, b, w, k, j);
    assert sys.prog[w][0..] == sys.prog[w];
    f := QuietWalk(sys, b, f, w, j, r);
  }

  lemma {:induction false} TreeOf(sys: Sys, st: State)
    requires Inv(sys, st)
    ensures TreeOK(sys, st)
  {
  }

  lemma {:induction false} BeginsAt(sys: Sys, st: State, w: Wid)
    requires WalkerOK(sys, st, w) && w in st.ws && w in sys.root && st.ws[w].pc == WInit && !Writing(st)
    ensures w in st.ws && WalkStep(sys, st, w, Set(st, w, st.ws[w].(pc := WComp, mseq := st.seqv)))
    ensures st.ws[w].path == sys.root[w] && st.ws[w].ip == 0
  {
    hide OnTrack;
    assert StepInit(st, w, Set(st, w, st.ws[w].(pc := WComp, mseq := st.seqv)));
  }

  lemma {:induction false} GoesSelf(sys: Sys, b: seq<State>, w: Wid)
    requires Run(sys, b) && |b| > 0 && w in Top(b).ws
    ensures GoesOn(sys, b, b, w, Top(b).ws[w])
  {
    hide Run;
    assert Top(b).ws[w := Top(b).ws[w]] == Top(b).ws;
  }
}
