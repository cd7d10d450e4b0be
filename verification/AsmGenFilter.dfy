/** The other direction: every run of the emitted code that reaches its end, locks
    found held and failed store-conditionals included, is a run of the thread
    program, and the filter clause over the physical registers keeps exactly the
    runs of the code in which every acquisition succeeded. */
module AsmGenFilter {
  import opened AsmGen
  import opened AsmGenProof

  /** Every swap and every load-exclusive read zero, and every store-conditional
      succeeded. */
  ghost predicate Good(ps: seq<PEvent>) { forall i {:trigger ps[i]} :: 0 <= i < |ps| ==> GoodEvent(ps[i]) }

  ghost predicate GoodEvent(p: PEvent) { (p.PSwap? || p.PLoadX? ==> p.x == 0) && (p.PStoreX? ==> p.ok) }

  lemma {:induction false} GoodCat(ps: seq<PEvent>, qs: seq<PEvent>)
    ensures Good(ps + qs) <==> Good(ps) && Good(qs)
  {
    hide GoodEvent;
    if Good(ps + qs) {
      forall i | 0 <= i < |ps| ensures GoodEvent(ps[i]) { assert (ps + qs)[i] == ps[i]; }
      forall i | 0 <= i < |qs| ensures GoodEvent(qs[i]) { assert (ps + qs)[|ps| + i] == qs[i]; }
    }
  }

  lemma {:induction false} GoodOne(p: PEvent)
    ensures Good([p]) <==> GoodEvent(p)
    ensures Good([])
  {
    hide GoodEvent;
    assert [p][0] == p;
  }

  // ---- taking a finished run apart ---------------------------------------------------------------------

  ghost predicate Ends(c: seq<Instr>, t: TState, ins: seq<In>) { RunT(c, t, ins).0.pc >= |c| }

  /** The run from t starts by doing es and goes on from u with the rest of the
      inputs. */
  ghost predicate Leads(c: seq<Instr>, t: TState, ins: seq<In>, es: seq<PEvent>, u: TState, rest: seq<In>) {
    |rest| < |ins| && RunT(c, t, ins) == (RunT(c, u, rest).0, es + RunT(c, u, rest).1) && Ends(c, u, rest)
  }

  lemma {:induction false} One(c: seq<Instr>, t: TState, ins: seq<In>)
    requires t.pc < |c| && Ends(c, t, ins)
    ensures ins != [] && var (u, es) := StepT(c, t, ins[0].x, ins[0].ok); Leads(c, t, ins, es, u, ins[1..])
  {
    hide StepT;
  }

  lemma {:induction false} Chain(c: seq<Instr>, t: TState, ins: seq<In>, es: seq<PEvent>, u: TState,
      mid: seq<In>, fs: seq<PEvent>, w: TState, rest: seq<In>)
    requires Leads(c, t, ins, es, u, mid) && Leads(c, u, mid, fs, w, rest)
    ensures Leads(c, t, ins, es + fs, w, rest)
  {
    hide RunT, Ends;
    var gs := RunT(c, w, rest).1;
    assert es + (fs + gs) == (es + fs) + gs;
  }

  /** An instruction without a visible effect. */
  lemma {:induction false} Quietly(c: seq<Instr>, t: TState, ins: seq<In>, u: TState)
    requires t.pc < |c| && Ends(c, t, ins) && forall x, ok :: StepT(c, t, x, ok) == (u, [])
    ensures ins != [] && Leads(c, t, ins, [], u, ins[1..]) && Ends(c, u, ins[1..])
  {
    hide StepT;
    One(c, t, ins);
  }

  lemma {:induction false} ChainQuiet(c: seq<Instr>, t: TState, ins: seq<In>, u: TState, mid: seq<In>,
      fs: seq<PEvent>, w: TState, rest: seq<In>)
    requires Leads(c, t, ins, [], u, mid) && Leads(c, u, mid, fs, w, rest)
    ensures Leads(c, t, ins, fs, w, rest)
  {
    hide Leads;
    Chain(c, t, ins, [], u, mid, fs, w, rest);
    assert [] + fs == fs;
  }

  // ---- the blocks -----------------------------------------------------------------------------------------

  lemma {:induction false} InvStore(a: Alloc, c: seq<Instr>, t: TState, regs: map<Reg, int>, v: Var, imm: int,
      ins: seq<In>) returns (u: TState, rest: seq<In>)
    requires ClashFree(a) && RegsAgree(a, regs, t) && v in a.vars && t.pc + 1 < |c| && Ends(c, t, ins)
    requires c[t.pc] == MovI(Temp(a), imm) && c[t.pc + 1] == Str(Temp(a), Addr(a, v))
    ensures Leads(c, t, ins, [PStore(v, imm)], u, rest) && u.pc == t.pc + 2 && RegsAgree(a, regs, u)
  {
    hide Leads, Ends;
    var t1 := StepT(c, t, 0, true).0;
    Quietly(c, t, ins, t1);
    TempFree(a, regs, t, Num(imm));
    PcFree(a, regs, t.(regs := t.regs[Temp(a) := Num(imm)]), t.pc + 1, t.eq);
    assert ValOf(t1, Addr(a, v)) == Ptr(v) && ValOf(t1, Temp(a)) == Num(imm);
    One(c, t1, ins[1..]);
    u, rest := t1.(pc := t1.pc + 1), ins[1..][1..];
    ChainQuiet(c, t, ins, t1, ins[1..], [PStore(v, imm)], u, rest);
    PcFree(a, regs, t1, t1.pc + 1, t1.eq);
  }

  lemma {:induction false} InvLoad(a: Alloc, c: seq<Instr>, t: TState, regs: map<Reg, int>, r: Reg, v: Var,
      ins: seq<In>) returns (x: int, u: TState, rest: seq<In>)
    requires ClashFree(a) && RegsAgree(a, regs, t) && v in a.vars && r in a.regs && t.pc < |c| && Ends(c, t, ins)
    requires c[t.pc] == Ldr(Phys(a, r), Addr(a, v))
    ensures Leads(c, t, ins, [PLoad(v, x)], u, rest) && u.pc == t.pc + 1 && RegsAgree(a, regs[r := x], u)
  {
    hide Leads, Ends;
    assert ValOf(t, Addr(a, v)) == Ptr(v);
    One(c, t, ins);
    x, rest := ins[0].x, ins[1..];
    u := StepT(c, t, x, ins[0].ok).0;
    PhysFree(a, regs, t, r, x);
    PcFree(a, regs[r := x], t.(regs := t.regs[Phys(a, r) := Num(x)]), t.pc + 1, t.eq);
  }

  lemma {:induction false} InvBar(a: Alloc, c: seq<Instr>, t: TState, regs: map<Reg, int>, f: Fence, ins: seq<In>)
      returns (u: TState, rest: seq<In>)
    requires RegsAgree(a, regs, t) && t.pc < |c| && c[t.pc] == Bar(f) && Ends(c, t, ins)
    ensures Leads(c, t, ins, [PBar(f)], u, rest) && u.pc == t.pc + 1 && RegsAgree(a, regs, u)
  {
    hide Leads, Ends;
    One(c, t, ins);
    u, rest := t.(pc := t.pc + 1), ins[1..];
    PcFree(a, regs, t, t.pc + 1, t.eq);
  }

  lemma {:induction false} InvMark(a: Alloc, c: seq<Instr>, t: TState, regs: map<Reg, int>, ins: seq<In>)
      returns (u: TState, rest: seq<In>)
    requires RegsAgree(a, regs, t) && t.pc < |c| && c[t.pc].Lbl? && Ends(c, t, ins)
    ensures Leads(c, t, ins, [], u, rest) && u.pc == t.pc + 1 && RegsAgree(a, regs, u)
  {
    hide Leads, Ends;
    One(c, t, ins);
    u, rest := t.(pc := t.pc + 1), ins[1..];
    PcFree(a, regs, t, t.pc + 1, t.eq);
  }

  /** The acquire swap, whatever it reads. */
  lemma {:induction false} InvSwap(a: Alloc, c: seq<Instr>, t: TState, regs: map<Reg, int>, r: Reg, v: Var,
      ins: seq<In>) returns (x: int, u: TState, rest: seq<In>)
    requires ClashFree(a) && RegsAgree(a, regs, t) && v in a.vars && r in a.regs && t.pc + 1 < |c| && Ends(c, t, ins)
    requires c[t.pc] == MovI(Temp(a), 1) && c[t.pc + 1] == Swpa(Temp(a), Phys(a, r), Addr(a, v))
    ensures Leads(c, t, ins, [PSwap(v, x, 1)], u, rest) && u.pc == t.pc + 2 && RegsAgree(a, regs[r := x], u)
  {
    hide Leads, Ends;
    var t1 := StepT(c, t, 0, true).0;
    Quietly(c, t, ins, t1);
    TempFree(a, regs, t, Num(1));
    PcFree(a, regs, t.(regs := t.regs[Temp(a) := Num(1)]), t.pc + 1, t.eq);
    assert ValOf(t1, Addr(a, v)) == Ptr(v) && ValOf(t1, Temp(a)) == Num(1);
    One(c, t1, ins[1..]);
    x, rest := ins[1..][0].x, ins[1..][1..];
    u := StepT(c, t1, x, ins[1..][0].ok).0;
    ChainQuiet(c, t, ins, t1, ins[1..], [PSwap(v, x, 1)], u, rest);
    PhysFree(a, regs, t1, r, x);
    PcFree(a, regs[r := x], t1.(regs := t1.regs[Phys(a, r) := Num(x)]), t1.pc + 1, t1.eq);
  }

  lemma {:induction false} InvRelease(a: Alloc, c: seq<Instr>, t: TState, regs: map<Reg, int>, v: Var, ins: seq<In>)
      returns (u: TState, rest: seq<In>)
    requires RegsAgree(a, regs, t) && v in a.vars && t.pc < |c| && c[t.pc] == Stlr(Addr(a, v)) && Ends(c, t, ins)
    ensures Leads(c, t, ins, [PRelease(v, 0)], u, rest) && u.pc == t.pc + 1 && RegsAgree(a, regs, u)
  {
    hide Leads, Ends;
    assert ValOf(t, Addr(a, v)) == Ptr(v);
    One(c, t, ins);
    u, rest := t.(pc := t.pc + 1), ins[1..];
    PcFree(a, regs, t, t.pc + 1, t.eq);
  }

  lemma {:induction false} InvCb(a: Alloc, c: seq<Instr>, t: TState, regs: map<Reg, int>, r: Reg, l: Label,
      zero: bool, ins: seq<In>) returns (u: TState, rest: seq<In>)
    requires RegsAgree(a, regs, t) && r in a.regs && t.pc < |c|
    requires c[t.pc] == (if zero then Cbz(Phys(a, r), l) else Cbnz(Phys(a, r), l)) && Ends(c, t, ins)
    ensures Leads(c, t, ins, [], u, rest) && RegsAgree(a, regs, u)
    ensures u.pc == if (RegOf(SState(0, regs), r) == 0) == zero then FindT(c, l) else t.pc + 1
  {
    hide Leads, Ends;
    assert ValOf(t, Phys(a, r)) == Num(RegOf(SState(0, regs), r));
    One(c, t, ins);
    u, rest := StepT(c, t, 0, true).0, ins[1..];
    PcFree(a, regs, t, u.pc, t.eq);
  }

  /** A compare, then a branch on the flag. */
  lemma {:induction false} InvBranch(a: Alloc, c: seq<Instr>, t: TState, regs: map<Reg, int>, same: bool,
      l: Label, onEq: bool, ins: seq<In>) returns (u: TState, rest: seq<In>)
    requires RegsAgree(a, regs, t) && t.pc + 1 < |c| && Ends(c, t, ins) && (c[t.pc].CmpI? || c[t.pc].CmpR?)
    requires StepT(c, t, 0, true) == (t.(pc := t.pc + 1, eq := same), [])
    requires c[t.pc + 1] == if onEq then Beq(l) else Bne(l)
    ensures Leads(c, t, ins, [], u, rest) && RegsAgree(a, regs, u)
    ensures u == t.(pc := if same == onEq then FindT(c, l) else t.pc + 2, eq := same)
  {
    hide Leads, Ends;
    var t1 := t.(pc := t.pc + 1, eq := same);
    Quietly(c, t, ins, t1);
    u := t1.(pc := if same == onEq then FindT(c, l) else t.pc + 2);
    Quietly(c, t1, ins[1..], u);
    rest := ins[1..][1..];
    ChainQuiet(c, t, ins, t1, ins[1..], [], u, rest);
    PcFree(a, regs, t, u.pc, same);
  }

  // ---- the PPC lock -----------------------------------------------------------------------------------------

  lemma {:induction false} FailEmit(a: Alloc, op: Op, n: nat)
    requires Covers(a, op) && op.Lock? && a.arch == PPC
    ensures var e := Emit(a, op, n);
            && |e| == 11 && e[8] == Lbl(LFail(n)) && (forall k :: 0 <= k < 8 ==> e[k] != Lbl(LFail(n)))
            && e[9] == MovI(Phys(a, op.r), 1)
  {
    hide Covers;
  }

  /** The failure label is two instructions before the end of its lock. */
  lemma {:induction false} FindFail(a: Alloc, prog: seq<Op>, i: nat)
    requires Placed(a, prog) && i < |prog| && prog[i].Lock? && a.arch == PPC
    ensures FindT(Code(a, prog, |prog|), LFail(Locks(prog, i))) == |Code(a, prog, i)| + 8
  {
    hide Covers, Emit;
    var m := Locks(prog, i);
    var l := LFail(m);
    FailEmit(a, prog[i], m);
    NoLockLabel(a, prog, i, l);
    CodePrefix(a, prog, i, |prog|);
    var c, d, e := Code(a, prog, |prog|), Code(a, prog, i), Emit(a, prog[i], m);
    CodeAt(a, prog, i, 8);
    forall j | 0 <= j < |d| + 8 ensures c[j] != Lbl(l) {
      if j < |d| { assert c[..|d|][j] == d[j]; } else { CodeAt(a, prog, i, j - |d|); }
    }
    FindIs(c, l, |d| + 8);
  }

  /** The scratch register set and the load-exclusive, whatever it reads. */
  lemma {:induction false} InvReserve(a: Alloc, c: seq<Instr>, t: TState, regs: map<Reg, int>, r: Reg, v: Var,
      ins: seq<In>) returns (x: int, u: TState, rest: seq<In>)
    requires ClashFree(a) && RegsAgree(a, regs, t) && v in a.vars && r in a.regs && t.pc + 1 < |c| && Ends(c, t, ins)
    requires c[t.pc] == MovI(Temp(a), 1) && c[t.pc + 1] == Lwarx(Phys(a, r), Addr(a, v))
    ensures Leads(c, t, ins, [PLoadX(v, x)], u, rest) && u.pc == t.pc + 2 && RegsAgree(a, regs[r := x], u)
    ensures ValOf(u, Temp(a)) == Num(1)
  {
    hide Leads, Ends;
    var t1 := StepT(c, t, 0, true).0;
    Quietly(c, t, ins, t1);
    TempFree(a, regs, t, Num(1));
    PcFree(a, regs, t.(regs := t.regs[Temp(a) := Num(1)]), t.pc + 1, t.eq);
    assert ValOf(t1, Addr(a, v)) == Ptr(v) && ValOf(t1, Temp(a)) == Num(1);
    One(c, t1, ins[1..]);
    x, rest := ins[1..][0].x, ins[1..][1..];
    u := StepT(c, t1, x, ins[1..][0].ok).0;
    ChainQuiet(c, t, ins, t1, ins[1..], [PLoadX(v, x)], u, rest);
    PhysFree(a, regs, t1, r, x);
    PcFree(a, regs[r := x], t1.(regs := t1.regs[Phys(a, r) := Num(x)]), t1.pc + 1, t1.eq);
  }

  /** The failure path: the register is marked and the lock is over. */
  lemma {:induction false} InvMarked(a: Alloc, c: seq<Instr>, t: TState, regs: map<Reg, int>, r: Reg, ins: seq<In>)
      returns (u: TState, rest: seq<In>)
    requires ClashFree(a) && RegsAgree(a, regs, t) && r in a.regs && t.pc + 2 < |c| && Ends(c, t, ins)
    requires c[t.pc].Lbl? && c[t.pc + 1] == MovI(Phys(a, r), 1) && c[t.pc + 2].Lbl?
    ensures Leads(c, t, ins, [], u, rest) && u.pc == t.pc + 3 && RegsAgree(a, regs[r := 1], u)
  {
    hide Leads, Ends;
    var t1 := t.(pc := t.pc + 1);
    Quietly(c, t, ins, t1);
    var t2 := t1.(pc := t.pc + 2, regs := t.regs[Phys(a, r) := Num(1)]);
    Quietly(c, t1, ins[1..], t2);
    u := t2.(pc := t.pc + 3);
    Quietly(c, t2, ins[1..][1..], u);
    rest := ins[1..][1..][1..];
    ChainQuiet(c, t1, ins[1..], t2, ins[1..][1..], [], u, rest);
    ChainQuiet(c, t, ins, t1, ins[1..], [], u, rest);
    PhysFree(a, regs, t, r, 1);
    PcFree(a, regs[r := 1], t.(regs := t.regs[Phys(a, r) := Num(1)]), u.pc, t.eq);
  }

  /** The store-conditional and the branch on its outcome. */
  lemma {:induction false} InvCond(a: Alloc, c: seq<Instr>, t: TState, regs: map<Reg, int>, v: Var, l: Label,
      ins: seq<In>) returns (ok: bool, u: TState, rest: seq<In>)
    requires ClashFree(a) && RegsAgree(a, regs, t) && v in a.vars && ValOf(t, Temp(a)) == Num(1) && t.pc + 1 < |c|
    requires Ends(c, t, ins)
    requires c[t.pc] == Stwcx(Temp(a), Addr(a, v)) && c[t.pc + 1] == Bne(l)
    ensures Leads(c, t, ins, [PStoreX(v, 1, ok)], u, rest) && RegsAgree(a, regs, u)
    ensures u.pc == if ok then t.pc + 2 else FindT(c, l)
  {
    hide Leads, Ends;
    assert ValOf(t, Addr(a, v)) == Ptr(v);
    One(c, t, ins);
    ok := ins[0].ok;
    var t1 := t.(pc := t.pc + 1, eq := ok);
    EndsOf(c, t, ins, [PStoreX(v, 1, ok)], t1, ins[1..]);
    u := t1.(pc := if ok then t.pc + 2 else FindT(c, l));
    Quietly(c, t1, ins[1..], u);
    rest := ins[1..][1..];
    Chain(c, t, ins, [PStoreX(v, 1, ok)], t1, ins[1..], [], u, rest);
    assert [PStoreX(v, 1, ok)] + [] == [PStoreX(v, 1, ok)];
    PcFree(a, regs, t, u.pc, ok);
  }

  lemma {:induction false} EndsOf(c: seq<Instr>, t: TState, ins: seq<In>, es: seq<PEvent>, u: TState, rest: seq<In>)
    requires Leads(c, t, ins, es, u, rest)
    ensures Ends(c, u, rest)
  {
    hide RunT, Ends;
  }

  /** The isync and the jump past the failure path. */
  lemma {:induction false} InvTaken(a: Alloc, c: seq<Instr>, t: TState, regs: map<Reg, int>, k: Label, ins: seq<In>)
      returns (u: TState, rest: seq<In>)
    requires RegsAgree(a, regs, t) && t.pc + 4 < |c| && c[t.pc] == Bar(ISync) && c[t.pc + 1] == B(k)
    requires FindT(c, k) == t.pc + 4 && c[t.pc + 4].Lbl? && Ends(c, t, ins)
    ensures Leads(c, t, ins, [PBar(ISync)], u, rest) && u.pc == t.pc + 5 && RegsAgree(a, regs, u)
  {
    hide Leads, Ends;
    One(c, t, ins);
    var t1 := t.(pc := t.pc + 1);
    EndsOf(c, t, ins, [PBar(ISync)], t1, ins[1..]);
    var t2 := t.(pc := t.pc + 4);
    Quietly(c, t1, ins[1..], t2);
    u := t.(pc := t.pc + 5);
    Quietly(c, t2, ins[1..][1..], u);
    rest := ins[1..][1..][1..];
    ChainQuiet(c, t1, ins[1..], t2, ins[1..][1..], [], u, rest);
    Chain(c, t, ins, [PBar(ISync)], t1, ins[1..], [], u, rest);
    assert [PBar(ISync)] + [] == [PBar(ISync)];
    PcFree(a, regs, t, u.pc, t.eq);
  }

  /** What a lock acquisition does: x as the program sees it, one if it fails. */
  ghost predicate LockRun(ps: seq<PEvent>, v: Var, x: int) {
    if x == 0 then ps == [PLoadX(v, 0), PStoreX(v, 1, true), PBar(ISync)] else !Good(ps)
  }

  lemma {:induction false} FailBlock(a: Alloc, prog: seq<Op>, i: nat, c: seq<Instr>, p: nat)
    requires Placed(a, prog) && i < |prog| && Block(a, prog, i, c, p) && prog[i].Lock? && a.arch == PPC
    ensures Covers(a, prog[i]) && prog[i].r in a.regs && p + 11 <= |c| && c[p + 8].Lbl?
    ensures c[p + 9] == MovI(Phys(a, prog[i].r), 1) && c[p + 10].Lbl?
  {
    hide Code, Locks, Addr, Phys;
    LockBlock(a, prog, i, c, p);
    var e := Emit(a, prog[i], Locks(prog, i));
    FailEmit(a, prog[i], Locks(prog, i));
    assert c[p + 8] == e[8] && c[p + 9] == e[9];
  }

  lemma {:induction false} Overwritten(regs: map<Reg, int>, r: Reg, x: int, y: int)
    ensures regs[r := x][r := y] == regs[r := y]
  {
  }

  /** All three ways through the lock's code. */
  lemma {:induction false} InvLock(a: Alloc, prog: seq<Op>, s: SState, c: seq<Instr>, t: TState, ins: seq<In>)
      returns (x: int, ps: seq<PEvent>, u: TState, rest: seq<In>)
    requires ClashFree(a) && Placed(a, prog) && s.pc < |prog| && Block(a, prog, s.pc, c, t.pc)
    requires RegsAgree(a, s.regs, t) && prog[s.pc].Lock? && a.arch == PPC && Ends(c, t, ins)
    ensures Covers(a, prog[s.pc]) && Leads(c, t, ins, ps, u, rest) && u.pc == t.pc + 11
    ensures RegsAgree(a, s.regs[prog[s.pc].r := x], u) && LockRun(ps, prog[s.pc].v, x)
  {
    hide Leads, Ends, RegsAgree, ClashFree, StepT, FindT, Block, Code, Locks, Addr, Phys, Good;
    var op := prog[s.pc];
    var n := Locks(prog, s.pc);
    LockBlock(a, prog, s.pc, c, t.pc);
    FailBlock(a, prog, s.pc, c, t.pc);
    FindLock(a, prog, s.pc);
    FindFail(a, prog, s.pc);
    var y, t2, mid := InvReserve(a, c, t, s.regs, op.r, op.v, ins);
    var regs := s.regs[op.r := y];
    EndsOf(c, t, ins, [PLoadX(op.v, y)], t2, mid);
    CompareImm(a, c, t2, regs, op.r, 0);
    var t4, mid4 := InvBranch(a, c, t2, regs, y == 0, LFail(n), false, mid);
    Chain(c, t, ins, [PLoadX(op.v, y)], t2, mid, [], t4, mid4);
    assert [PLoadX(op.v, y)] + [] == [PLoadX(op.v, y)];
    EndsOf(c, t2, mid, [], t4, mid4);
    if y != 0 {
      u, rest := InvMarked(a, c, t4, regs, op.r, mid4);
      x, ps := 1, [PLoadX(op.v, y)];
      Chain(c, t, ins, ps, t4, mid4, [], u, rest);
      assert ps + [] == ps;
      GoodOne(PLoadX(op.v, y));
    } else {
      assert ValOf(t4, Temp(a)) == ValOf(t2, Temp(a));
      var ok, t6, mid6 := InvCond(a, c, t4, regs, op.v, LFail(n), mid4);
      EndsOf(c, t4, mid4, [PStoreX(op.v, 1, ok)], t6, mid6);
      Chain(c, t, ins, [PLoadX(op.v, y)], t4, mid4, [PStoreX(op.v, 1, ok)], t6, mid6);
      ps := [PLoadX(op.v, y)] + [PStoreX(op.v, 1, ok)];
      if ok {
        x := 0;
        u, rest := InvTaken(a, c, t6, regs, LOk(n), mid6);
        Chain(c, t, ins, ps, t6, mid6, [PBar(ISync)], u, rest);
        ps := ps + [PBar(ISync)];
      } else {
        x := 1;
        u, rest := InvMarked(a, c, t6, regs, op.r, mid6);
        Chain(c, t, ins, ps, t6, mid6, [], u, rest);
        assert ps + [] == ps;
        GoodOne(PStoreX(op.v, 1, ok));
        GoodCat([PLoadX(op.v, y)], [PStoreX(op.v, 1, ok)]);
      }
    }
    Overwritten(s.regs, op.r, y, 1);
    Overwritten(s.regs, op.r, y, 0);
  }

  // ---- one op -------------------------------------------------------------------------------------------------

  /** The code's run begins with op s.pc reading x: the same state, locks taken
      exactly if the code took them, and then the same trace. */
  ghost predicate Decodes(a: Alloc, prog: seq<Op>, s: SState, x: int, c: seq<Instr>, t: TState, ins: seq<In>,
      ps: seq<PEvent>, u: TState, rest: seq<In>)
    requires Placed(a, prog) && s.pc < |prog|
  {
    var (s1, es) := StepS(prog, s, x);
    && Leads(c, t, ins, ps, u, rest) && s1.pc <= |prog| && u.pc == |Code(a, prog, s1.pc)| && RegsAgree(a, s1.regs, u)
    && (Good(ps) <==> Free(es)) && (Good(ps) ==> ps == MapTrace(a.arch, es))
  }

  /** Ops without a lock are free and their traces good. */
  lemma {:induction false} Plain(arch: Arch, e: Event)
    requires !e.ELock?
    ensures Free([e]) && Good(MapEvent(arch, e)) && MapTrace(arch, [e]) == MapEvent(arch, e)
    ensures Free([]) && Good([]) && MapTrace(arch, []) == []
  {
    MapOne(arch, e);
  }

  lemma {:induction false} InvPlain(a: Alloc, prog: seq<Op>, s: SState, c: seq<Instr>, t: TState, ins: seq<In>)
      returns (x: int, ps: seq<PEvent>, u: TState, rest: seq<In>)
    requires ClashFree(a) && Placed(a, prog) && s.pc < |prog| && Block(a, prog, s.pc, c, t.pc)
    requires RegsAgree(a, s.regs, t) && Ends(c, t, ins)
    requires var o := prog[s.pc]; o.St? || o.Ld? || o.Wmb? || o.Rmb? || o.Mb? || o.Mark?
    ensures Decodes(a, prog, s, x, c, t, ins, ps, u, rest)
  {
    hide Leads, Ends, RegsAgree, ClashFree, StepT, FindT, Find, Code, Good, Free;
    var op := prog[s.pc];
    assert Covers(a, op);
    assert c[t.pc] == Emit(a, op, Locks(prog, s.pc))[0];
    x := 0;
    Plain(a.arch, EMb);
    match op {
      case St(v, imm) =>
        assert Emit(a, op, Locks(prog, s.pc)) == [MovI(Temp(a), imm), Str(Temp(a), Addr(a, v))];
        assert c[t.pc + 1] == Emit(a, op, Locks(prog, s.pc))[1];
        u, rest := InvStore(a, c, t, s.regs, v, imm, ins);
        ps := [PStore(v, imm)];
      case Ld(r, v) =>
        x, u, rest := InvLoad(a, c, t, s.regs, r, v, ins);
        ps := [PLoad(v, x)];
      case Wmb =>
        var f := if a.arch == AArch64 then IshSt else LwSync;
        u, rest := InvBar(a, c, t, s.regs, f, ins);
        ps := [PBar(f)];
      case Rmb =>
        var f := if a.arch == AArch64 then IshLd else LwSync;
        u, rest := InvBar(a, c, t, s.regs, f, ins);
        ps := [PBar(f)];
      case Mb =>
        var f := if a.arch == AArch64 then Ish else HwSync;
        u, rest := InvBar(a, c, t, s.regs, f, ins);
        ps := [PBar(f)];
      case Mark(l) =>
        u, rest := InvMark(a, c, t, s.regs, ins);
        ps := [];
      case _ =>
    }
    var es := StepS(prog, s, x).1;
    if es != [] { Plain(a.arch, es[0]); assert es == [es[0]]; }
  }

  lemma {:induction false} InvBranchOp(a: Alloc, prog: seq<Op>, s: SState, c: seq<Instr>, t: TState, ins: seq<In>)
      returns (u: TState, rest: seq<In>)
    requires Placed(a, prog) && s.pc < |prog| && Block(a, prog, s.pc, c, t.pc) && RegsAgree(a, s.regs, t)
    requires Ends(c, t, ins)
    requires var o := prog[s.pc]; o.Brz? || o.Brnz? || o.Brne? || o.BrneReg?
    ensures Decodes(a, prog, s, 0, c, t, ins, [], u, rest)
  {
    hide Leads, Ends, RegsAgree, StepT, FindT, Find, Code, Good, Free;
    var op := prog[s.pc];
    assert Covers(a, op);
    FindUser(a, prog, op.l);
    Plain(a.arch, EMb);
    SameRegs(s);
    var e := Emit(a, op, Locks(prog, s.pc));
    assert c[t.pc] == e[0];
    match op {
      case Brz(r, l) =>
        if a.arch == AArch64 { u, rest := InvCb(a, c, t, s.regs, r, User(l), true, ins); }
        else {
          assert c[t.pc + 1] == e[1];
          CompareImm(a, c, t, s.regs, r, 0);
          u, rest := InvBranch(a, c, t, s.regs, RegOf(s, r) == 0, User(l), true, ins);
        }
      case Brnz(r, l) =>
        if a.arch == AArch64 { u, rest := InvCb(a, c, t, s.regs, r, User(l), false, ins); }
        else {
          assert c[t.pc + 1] == e[1];
          CompareImm(a, c, t, s.regs, r, 0);
          u, rest := InvBranch(a, c, t, s.regs, RegOf(s, r) == 0, User(l), false, ins);
        }
      case Brne(r, imm, l) =>
        assert c[t.pc + 1] == e[1];
        CompareImm(a, c, t, s.regs, r, imm);
        u, rest := InvBranch(a, c, t, s.regs, RegOf(s, r) == imm, User(l), false, ins);
      case BrneReg(r, q, l) =>
        assert c[t.pc + 1] == e[1];
        CompareReg(a, c, t, s.regs, r, q);
        u, rest := InvBranch(a, c, t, s.regs, RegOf(s, r) == RegOf(s, q), User(l), false, ins);
      case _ =>
    }
  }

  lemma {:induction false} InvUnlock(a: Alloc, prog: seq<Op>, s: SState, c: seq<Instr>, t: TState, ins: seq<In>)
      returns (ps: seq<PEvent>, u: TState, rest: seq<In>)
    requires ClashFree(a) && Placed(a, prog) && s.pc < |prog| && Block(a, prog, s.pc, c, t.pc)
    requires RegsAgree(a, s.regs, t) && prog[s.pc].Unlock? && Ends(c, t, ins)
    ensures Decodes(a, prog, s, 0, c, t, ins, ps, u, rest)
  {
    hide Leads, Ends, RegsAgree, ClashFree, StepT, FindT, Find, Code, Good, Free;
    var op := prog[s.pc];
    assert Covers(a, op);
    Plain(a.arch, EUnlock(op.v));
    var e := Emit(a, op, Locks(prog, s.pc));
    assert c[t.pc] == e[0];
    if a.arch == AArch64 { u, rest := InvRelease(a, c, t, s.regs, op.v, ins); ps := [PRelease(op.v, 0)]; }
    else {
      assert c[t.pc + 1] == e[1] && c[t.pc + 2] == e[2];
      var t1, mid := InvBar(a, c, t, s.regs, LwSync, ins);
      EndsOf(c, t, ins, [PBar(LwSync)], t1, mid);
      u, rest := InvStore(a, c, t1, s.regs, op.v, 0, mid);
      Chain(c, t, ins, [PBar(LwSync)], t1, mid, [PStore(op.v, 0)], u, rest);
      ps := [PBar(LwSync)] + [PStore(op.v, 0)];
    }
    assert ps == MapEvent(a.arch, EUnlock(op.v));
    assert StepS(prog, s, 0) == (s.(pc := s.pc + 1), [EUnlock(op.v)]);
  }

  /** The outcome of an acquisition against the program's lock event. */
  lemma {:induction false} LockMatch(ps: seq<PEvent>, v: Var, x: int)
    requires LockRun(ps, v, x)
    ensures (Good(ps) <==> Free([ELock(v, x)])) && (Good(ps) ==> ps == MapTrace(PPC, [ELock(v, x)]))
  {
    OneLock(v, x);
    MapOne(PPC, ELock(v, x));
  }

  lemma {:induction false} SwapMatch(v: Var, x: int)
    ensures (Good([PSwap(v, x, 1)]) <==> Free([ELock(v, x)])) && [PSwap(v, x, 1)] == MapTrace(AArch64, [ELock(v, x)])
  {
    OneLock(v, x);
    GoodOne(PSwap(v, x, 1));
    MapOne(AArch64, ELock(v, x));
  }

  lemma {:induction false} InvLockOp(a: Alloc, prog: seq<Op>, s: SState, c: seq<Instr>, t: TState, ins: seq<In>)
      returns (x: int, ps: seq<PEvent>, u: TState, rest: seq<In>)
    requires ClashFree(a) && Placed(a, prog) && s.pc < |prog| && Block(a, prog, s.pc, c, t.pc)
    requires RegsAgree(a, s.regs, t) && prog[s.pc].Lock? && Ends(c, t, ins)
    ensures Decodes(a, prog, s, x, c, t, ins, ps, u, rest)
  {
    hide Leads, Ends, RegsAgree, ClashFree, StepT, FindT, Find, Code, Good, Free, Locks, LockRun, MapTrace;
    var op := prog[s.pc];
    assert Covers(a, op);
    var e := Emit(a, op, Locks(prog, s.pc));
    assert c[t.pc] == e[0] && c[t.pc + 1] == e[1];
    if a.arch == AArch64 {
      x, u, rest := InvSwap(a, c, t, s.regs, op.r, op.v, ins);
      ps := [PSwap(op.v, x, 1)];
      SwapMatch(op.v, x);
      assert |e| == 2;
    } else {
      x, ps, u, rest := InvLock(a, prog, s, c, t, ins);
      LockMatch(ps, op.v, x);
      assert |e| == 11;
    }
    assert StepS(prog, s, x) == (SState(s.pc + 1, s.regs[op.r := x]), [ELock(op.v, x)]);
    assert u.pc == |Code(a, prog, s.pc + 1)|;
  }

  /** Any op. */
  lemma {:induction false} InvOp(a: Alloc, prog: seq<Op>, s: SState, t: TState, ins: seq<In>)
      returns (x: int, ps: seq<PEvent>, u: TState, rest: seq<In>)
    requires ClashFree(a) && Placed(a, prog) && s.pc < |prog| && t.pc == |Code(a, prog, s.pc)|
    requires RegsAgree(a, s.regs, t) && Ends(Code(a, prog, |prog|), t, ins)
    ensures Decodes(a, prog, s, x, Code(a, prog, |prog|), t, ins, ps, u, rest)
  {
    hide Decodes, Block, RegsAgree, ClashFree, Code, Ends;
    BlockAt(a, prog, s.pc);
    var c, op := Code(a, prog, |prog|), prog[s.pc];
    if op.Lock? { x, ps, u, rest := InvLockOp(a, prog, s, c, t, ins); }
    else if op.Unlock? { x := 0; ps, u, rest := InvUnlock(a, prog, s, c, t, ins); }
    else if op.Brz? || op.Brnz? || op.Brne? || op.BrneReg? {
      x, ps := 0, [];
      u, rest := InvBranchOp(a, prog, s, c, t, ins);
    }
    else { x, ps, u, rest := InvPlain(a, prog, s, c, t, ins); }
  }

  // ---- whole runs -----------------------------------------------------------------------------------------------

  lemma {:induction false} CodeGrows(a: Alloc, prog: seq<Op>, i: nat)
    requires Placed(a, prog) && i < |prog|
    ensures |Code(a, prog, i)| < |Code(a, prog, |prog|)|
  {
    hide Emit, Covers;
    CodeNext(a, prog, i);
    CodePrefix(a, prog, i + 1, |prog|);
  }

  /** The program does what the code did: same registers, the locks taken exactly if
      the code took them all, and then the mapped trace. */
  ghost predicate Source(a: Alloc, prog: seq<Op>, s: SState, xs: seq<int>, w: TState, ps: seq<PEvent>) {
    var (z, es) := RunS(prog, s, xs);
    z.pc == |prog| && RegsAgree(a, z.regs, w) && (Good(ps) <==> Free(es)) && (Good(ps) ==> ps == MapTrace(a.arch, es))
  }

  lemma {:induction false} SourceStep(a: Alloc, prog: seq<Op>, s: SState, x: int, xs: seq<int>, w: TState,
      ps: seq<PEvent>, qs: seq<PEvent>)
    requires s.pc < |prog| && Source(a, prog, StepS(prog, s, x).0, xs, w, qs)
    requires var es := StepS(prog, s, x).1; (Good(ps) <==> Free(es)) && (Good(ps) ==> ps == MapTrace(a.arch, es))
    ensures Source(a, prog, s, [x] + xs, w, ps + qs)
  {
    hide StepS, RegsAgree, Good, Free, MapTrace;
    var (s1, es) := StepS(prog, s, x);
    var fs := RunS(prog, s1, xs).1;
    assert ([x] + xs)[1..] == xs && ([x] + xs)[0] == x;
    GoodCat(ps, qs);
    FreeCat(es, fs);
    MapCat(a.arch, es, fs);
  }

  lemma {:induction false} Decode(a: Alloc, prog: seq<Op>, s: SState, t: TState, ins: seq<In>) returns (xs: seq<int>)
    requires ClashFree(a) && Placed(a, prog) && s.pc <= |prog| && t.pc == |Code(a, prog, s.pc)|
    requires RegsAgree(a, s.regs, t) && Ends(Code(a, prog, |prog|), t, ins)
    ensures var (w, ps) := RunT(Code(a, prog, |prog|), t, ins); Source(a, prog, s, xs, w, ps)
    decreases |ins|
  {
    hide RegsAgree, ClashFree, StepS, StepT, Code, Source;
    var c := Code(a, prog, |prog|);
    if s.pc == |prog| {
      xs := [];
      assert RunT(c, t, ins) == (t, []);
      SourceEnd(a, prog, s, t);
    } else {
      CodeGrows(a, prog, s.pc);
      var x, ps, u, rest := InvOp(a, prog, s, t, ins);
      var ys := Decode(a, prog, StepS(prog, s, x).0, u, rest);
      SourceStep(a, prog, s, x, ys, RunT(c, u, rest).0, ps, RunT(c, u, rest).1);
      xs := [x] + ys;
    }
  }

  lemma {:induction false} SourceEnd(a: Alloc, prog: seq<Op>, s: SState, t: TState)
    requires s.pc == |prog| && RegsAgree(a, s.regs, t)
    ensures Source(a, prog, s, [], t, [])
  {
  }

  /** Every run of the code from the initial state to its end is a run of the thread
      program from its own: the same registers in the end, all locks found free
      exactly if the code acquired them all, and then the same accesses and barriers
      in order, under the barrier map. */
  lemma {:induction false} CodeSound(a: Alloc, prog: seq<Op>, ins: seq<In>) returns (xs: seq<int>)
    requires NoDup(a.vars) && NoDup(a.regs) && (if a.arch == AArch64 then |a.vars| <= 9 else |a.regs| <= 9)
    requires Placed(a, prog)
    requires RunT(Code(a, prog, |prog|), Boot(a), ins).0.pc >= |Code(a, prog, |prog|)|
    ensures var (w, ps) := RunT(Code(a, prog, |prog|), Boot(a), ins); var (z, es) := RunS(prog, SState(0, map[]), xs);
      && z.pc == |prog| && RegsAgree(a, z.regs, w) && (Good(ps) <==> Free(es))
      && (Good(ps) ==> ps == MapTrace(a.arch, es))
  {
    hide RegsAgree, ClashFree, RunS, RunT;
    ClashFreeIff(a);
    BootAgrees(a);
    xs := Decode(a, prog, SState(0, map[]), Boot(a), ins);
  }

  /** The registers the filter clause names, one for each lock of the program. */
  ghost predicate FilterOf(a: Alloc, prog: seq<Op>, w: TState)
    requires Placed(a, prog)
  {
    forall j {:trigger prog[j]} ::
      0 <= j < |prog| && prog[j].Lock? ==>
        LockReg(a, prog, j) in a.regs && ValOf(w, Phys(a, LockReg(a, prog, j))) == Num(0)
  }

  ghost function LockReg(a: Alloc, prog: seq<Op>, j: nat): (r: Reg)
    requires Placed(a, prog) && j < |prog| && prog[j].Lock?
  {
    prog[j].r
  }

  lemma {:induction false} FilterAgrees(a: Alloc, prog: seq<Op>, z: SState, w: TState)
    requires Placed(a, prog) && RegsAgree(a, z.regs, w)
    ensures FilterOf(a, prog, w) <==> Filter(prog, 0, z)
  {
    hide Phys, Addr;
    SameRegs(z);
    forall j | 0 <= j < |prog| && prog[j].Lock?
      ensures prog[j].r in a.regs && ValOf(w, Phys(a, prog[j].r)) == Num(RegOf(z, prog[j].r))
    {
      assert Covers(a, prog[j]) && prog[j].r in DefOf(prog[j]);
    }
  }

  /** The filter clause on the emitted code: a run that reaches the end has zero in
      every register the clause names if and only if each acquisition read zero and
      each store-conditional succeeded. */
  lemma {:induction false} CodeFilter(a: Alloc, prog: seq<Op>, ins: seq<In>)
    requires NoDup(a.vars) && NoDup(a.regs) && (if a.arch == AArch64 then |a.vars| <= 9 else |a.regs| <= 9)
    requires Placed(a, prog) && Forward(prog)
    requires RunT(Code(a, prog, |prog|), Boot(a), ins).0.pc >= |Code(a, prog, |prog|)|
    ensures var (w, ps) := RunT(Code(a, prog, |prog|), Boot(a), ins); FilterOf(a, prog, w) <==> Good(ps)
  {
    hide RegsAgree, ClashFree, RunS, RunT, Good, Free, FilterOf, Forward, Code;
    var xs := CodeSound(a, prog, ins);
    var s := SState(0, map[]);
    FilterAgrees(a, prog, RunS(prog, s, xs).0, RunT(Code(a, prog, |prog|), Boot(a), ins).0);
    FilterExact(prog, s, xs);
  }
}
