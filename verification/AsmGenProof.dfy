/** Both backends of the translator preserve meaning: whatever values the loads
    return, as long as every lock is found free, the emitted code performs the
    same accesses and barriers in the same order, under the barrier map, and ends
    with the same logical registers. */
module AsmGenProof {
  import opened AsmGen

  // ---- where the code of an op is --------------------------------------------------------------------

  lemma {:induction false} CodePrefix(a: Alloc, prog: seq<Op>, i: nat, n: nat)
    requires Placed(a, prog) && i <= n <= |prog|
    ensures |Code(a, prog, i)| <= |Code(a, prog, n)| && Code(a, prog, n)[..|Code(a, prog, i)|] == Code(a, prog, i)
    decreases n
  {
    hide Emit, Covers;
    if i < n { CodePrefix(a, prog, i, n - 1); }
  }

  /** The k-th instruction of op i. */
  lemma {:induction false} CodeAt(a: Alloc, prog: seq<Op>, i: nat, k: nat)
    requires Placed(a, prog) && i < |prog| && k < |Emit(a, prog[i], Locks(prog, i))|
    ensures |Code(a, prog, i)| + k < |Code(a, prog, |prog|)|
    ensures Code(a, prog, |prog|)[|Code(a, prog, i)| + k] == Emit(a, prog[i], Locks(prog, i))[k]
  {
    hide Emit, Covers;
    CodePrefix(a, prog, i + 1, |prog|);
    var c := Code(a, prog, i + 1);
    assert c[|Code(a, prog, i)| + k] == Emit(a, prog[i], Locks(prog, i))[k];
    assert Code(a, prog, |prog|)[..|c|][|Code(a, prog, i)| + k] == c[|Code(a, prog, i)| + k];
  }

  lemma {:induction false} CodeNext(a: Alloc, prog: seq<Op>, i: nat)
    requires Placed(a, prog) && i < |prog|
    ensures |Code(a, prog, i + 1)| == |Code(a, prog, i)| + |Emit(a, prog[i], Locks(prog, i))|
  {
    hide Emit, Covers;
  }

  // ---- labels -----------------------------------------------------------------------------------------

  lemma {:induction false} FindIs(code: seq<Instr>, l: Label, p: nat)
    requires p <= |code| && (p < |code| ==> code[p] == Lbl(l)) && forall j :: 0 <= j < p ==> code[j] != Lbl(l)
    ensures FindT(code, l) == p
  {
  }

  ghost predicate Lacks(c: seq<Instr>, l: Label) { forall j {:trigger c[j]} :: 0 <= j < |c| ==> c[j] != Lbl(l) }

  lemma {:induction false} EmitLacks(a: Alloc, op: Op, n: nat, l: Label)
    requires Covers(a, op) && (l.User? ==> op != Mark(l.l)) && (!l.User? ==> l.n != n || !op.Lock?)
    ensures Lacks(Emit(a, op, n), l)
  {
    hide Covers;
  }

  lemma {:induction false} NoUser(a: Alloc, prog: seq<Op>, i: nat, l: Name)
    requires Placed(a, prog) && i <= |prog| && forall j :: 0 <= j < i ==> prog[j] != Mark(l)
    ensures Lacks(Code(a, prog, i), User(l))
    decreases i
  {
    hide Emit, Covers;
    if i > 0 {
      NoUser(a, prog, i - 1, l);
      EmitLacks(a, prog[i - 1], Locks(prog, i - 1), User(l));
    }
  }

  lemma {:induction false} NoLockLabel(a: Alloc, prog: seq<Op>, i: nat, l: Label)
    requires Placed(a, prog) && i <= |prog| && !l.User? && Locks(prog, i) <= l.n
    ensures Lacks(Code(a, prog, i), l)
    decreases i
  {
    hide Emit, Covers;
    if i > 0 {
      NoLockLabel(a, prog, i - 1, l);
      EmitLacks(a, prog[i - 1], Locks(prog, i - 1), l);
    }
  }

  /** A label of the program is found where its op's code is. */
  lemma {:induction false} FindUser(a: Alloc, prog: seq<Op>, l: Name)
    requires Placed(a, prog)
    ensures FindT(Code(a, prog, |prog|), User(l)) == |Code(a, prog, Find(prog, l))|
  {
    hide Covers;
    var i := Find(prog, l);
    NoUser(a, prog, i, l);
    CodePrefix(a, prog, i, |prog|);
    if i < |prog| { CodeAt(a, prog, i, 0); }
    var c, d := Code(a, prog, |prog|), Code(a, prog, i);
    forall j | 0 <= j < |d| ensures c[j] != Lbl(User(l)) { assert c[..|d|][j] == d[j]; }
    FindIs(c, User(l), |d|);
  }

  lemma {:induction false} LockEmit(a: Alloc, op: Op, n: nat)
    requires Covers(a, op) && op.Lock? && a.arch == PPC
    ensures var e := Emit(a, op, n);
            |e| == 11 && e[10] == Lbl(LOk(n)) && forall k :: 0 <= k < 10 ==> e[k] != Lbl(LOk(n))
  {
    hide Covers;
  }

  /** The labels of a PPC lock are found inside its own code. */
  lemma {:induction false} FindLock(a: Alloc, prog: seq<Op>, i: nat)
    requires Placed(a, prog) && i < |prog| && prog[i].Lock? && a.arch == PPC
    ensures FindT(Code(a, prog, |prog|), LOk(Locks(prog, i))) == |Code(a, prog, i)| + 10
  {
    hide Covers, Emit;
    var m := Locks(prog, i);
    var l := LOk(m);
    LockEmit(a, prog[i], m);
    NoLockLabel(a, prog, i, l);
    CodePrefix(a, prog, i, |prog|);
    var c, d, e := Code(a, prog, |prog|), Code(a, prog, i), Emit(a, prog[i], m);
    CodeAt(a, prog, i, 10);
    forall j | 0 <= j < |d| + 10 ensures c[j] != Lbl(l) {
      if j < |d| { assert c[..|d|][j] == d[j]; } else { CodeAt(a, prog, i, j - |d|); }
    }
    FindIs(c, l, |d| + 10);
  }

  // ---- runs ----------------------------------------------------------------------------------------------

  ghost predicate Reaches(code: seq<Instr>, t: TState, es: seq<PEvent>, u: TState) {
    exists ins: seq<In> :: RunT(code, t, ins) == (u, es)
  }

  lemma {:induction false} RunCat(code: seq<Instr>, t: TState, xs: seq<In>, ys: seq<In>)
    ensures var (u, es) := RunT(code, t, xs); var (w, fs) := RunT(code, u, ys);
      u.pc < |code| ==> RunT(code, t, xs + ys) == (w, es + fs)
    decreases |xs|
  {
    hide StepT;
    if xs == [] {
      assert xs + ys == ys;
      var fs := RunT(code, t, ys).1;
      assert [] + fs == fs;
    } else if t.pc < |code| {
      var (t1, e1) := StepT(code, t, xs[0].x, xs[0].ok);
      RunCat(code, t1, xs[1..], ys);
      assert (xs + ys)[1..] == xs[1..] + ys && (xs + ys)[0] == xs[0];
      var (u, es) := RunT(code, t1, xs[1..]);
      var fs := RunT(code, u, ys).1;
      assert (e1 + es) + fs == e1 + (es + fs);
    }
  }

  lemma {:induction false} Here(code: seq<Instr>, t: TState)
    ensures Reaches(code, t, [], t)
  {
    assert RunT(code, t, []) == (t, []);
  }

  /** One more instruction in front. */
  lemma {:induction false} Then(code: seq<Instr>, t: TState, x: int, ok: bool, es: seq<PEvent>, u: TState)
    requires t.pc < |code| && Reaches(code, StepT(code, t, x, ok).0, es, u)
    ensures Reaches(code, t, StepT(code, t, x, ok).1 + es, u)
  {
    hide StepT;
    var (t1, e1) := StepT(code, t, x, ok);
    var ins: seq<In> :| RunT(code, t1, ins) == (u, es);
    var all := [In(x, ok)] + ins;
    assert all[1..] == ins;
    assert RunT(code, t, all) == (u, e1 + es);
  }

  lemma {:induction false} ReachCat(code: seq<Instr>, t: TState, es: seq<PEvent>, u: TState, fs: seq<PEvent>, w: TState)
    requires Reaches(code, t, es, u) && Reaches(code, u, fs, w)
    ensures Reaches(code, t, es + fs, w)
  {
    var xs: seq<In> :| RunT(code, t, xs) == (u, es);
    var ys: seq<In> :| RunT(code, u, ys) == (w, fs);
    if u.pc < |code| { RunCat(code, t, xs, ys); assert RunT(code, t, xs + ys) == (w, es + fs); }
    else { assert RunT(code, u, ys) == (u, []); assert es + fs == es; }
  }

  // ---- simulation ------------------------------------------------------------------------------------------

  /** The target has the addresses in place and the logical registers' values. */
  ghost predicate RegsAgree(a: Alloc, regs: map<Reg, int>, t: TState) {
    && (forall v {:trigger Addr(a, v)} :: v in a.vars ==> ValOf(t, Addr(a, v)) == Ptr(v))
    && (forall r {:trigger Phys(a, r)} :: r in a.regs ==> ValOf(t, Phys(a, r)) == Num(RegOf(SState(0, regs), r)))
  }

  /** Writing the scratch register disturbs nothing ... */
  lemma {:induction false} TempFree(a: Alloc, regs: map<Reg, int>, t: TState, x: Val)
    requires ClashFree(a) && RegsAgree(a, regs, t)
    ensures RegsAgree(a, regs, t.(regs := t.regs[Temp(a) := x]))
  {
  }

  /** ... and writing a logical register nothing else. */
  lemma {:induction false} PhysFree(a: Alloc, regs: map<Reg, int>, t: TState, r: Reg, x: int)
    requires ClashFree(a) && RegsAgree(a, regs, t) && r in a.regs
    ensures RegsAgree(a, regs[r := x], t.(regs := t.regs[Phys(a, r) := Num(x)]))
  {
  }

  lemma {:induction false} PcFree(a: Alloc, regs: map<Reg, int>, t: TState, pc: nat, eq: bool)
    requires RegsAgree(a, regs, t)
    ensures RegsAgree(a, regs, t.(pc := pc, eq := eq))
  {
    hide Addr, Phys;
  }

  // ---- the blocks of instructions ---------------------------------------------------------------------

  /** An instruction with no visible effect in front, or the only one with one. */
  lemma {:induction false} Silent(c: seq<Instr>, t: TState, es: seq<PEvent>, u: TState, x: int, ok: bool)
    requires t.pc < |c| && StepT(c, t, x, ok).1 == [] && Reaches(c, StepT(c, t, x, ok).0, es, u)
    ensures Reaches(c, t, es, u)
  {
    hide StepT, Reaches;
    Then(c, t, x, ok, es, u);
    assert [] + es == es;
  }

  lemma {:induction false} Last(c: seq<Instr>, t: TState, x: int, ok: bool)
    requires t.pc < |c|
    ensures Reaches(c, t, StepT(c, t, x, ok).1, StepT(c, t, x, ok).0)
  {
    hide StepT, Reaches;
    var (u, es) := StepT(c, t, x, ok);
    Here(c, u);
    Then(c, t, x, ok, [], u);
    assert es + [] == es;
  }

  /** A constant to the scratch register, then a store of it. */
  lemma {:induction false} SimStore(a: Alloc, c: seq<Instr>, t: TState, regs: map<Reg, int>, v: Var, imm: int)
      returns (u: TState)
    requires ClashFree(a) && RegsAgree(a, regs, t) && v in a.vars && t.pc + 1 < |c| && c[t.pc] == MovI(Temp(a), imm)
    requires c[t.pc + 1] == Str(Temp(a), Addr(a, v))
    ensures Reaches(c, t, [PStore(v, imm)], u) && u.pc == t.pc + 2 && RegsAgree(a, regs, u)
  {
    hide Reaches;
    var t1 := StepT(c, t, 0, true).0;
    TempFree(a, regs, t, Num(imm));
    PcFree(a, regs, t.(regs := t.regs[Temp(a) := Num(imm)]), t.pc + 1, t.eq);
    assert ValOf(t1, Addr(a, v)) == Ptr(v) && ValOf(t1, Temp(a)) == Num(imm);
    u := StepT(c, t1, 0, true).0;
    Last(c, t1, 0, true);
    Silent(c, t, [PStore(v, imm)], u, 0, true);
    PcFree(a, regs, t1, t1.pc + 1, t1.eq);
  }

  lemma {:induction false} SimLoad(a: Alloc, c: seq<Instr>, t: TState, regs: map<Reg, int>, r: Reg, v: Var, x: int)
      returns (u: TState)
    requires ClashFree(a) && RegsAgree(a, regs, t) && v in a.vars && r in a.regs && t.pc < |c|
    requires c[t.pc] == Ldr(Phys(a, r), Addr(a, v))
    ensures Reaches(c, t, [PLoad(v, x)], u) && u.pc == t.pc + 1 && RegsAgree(a, regs[r := x], u)
  {
    hide Reaches;
    assert ValOf(t, Addr(a, v)) == Ptr(v);
    u := StepT(c, t, x, true).0;
    Last(c, t, x, true);
    PhysFree(a, regs, t, r, x);
    PcFree(a, regs[r := x], t.(regs := t.regs[Phys(a, r) := Num(x)]), t.pc + 1, t.eq);
  }

  lemma {:induction false} SimBar(a: Alloc, c: seq<Instr>, t: TState, regs: map<Reg, int>, f: Fence) returns (u: TState)
    requires RegsAgree(a, regs, t) && t.pc < |c| && c[t.pc] == Bar(f)
    ensures Reaches(c, t, [PBar(f)], u) && u.pc == t.pc + 1 && RegsAgree(a, regs, u)
  {
    hide Reaches;
    u := StepT(c, t, 0, true).0;
    Last(c, t, 0, true);
    PcFree(a, regs, t, t.pc + 1, t.eq);
  }

  lemma {:induction false} SimMark(a: Alloc, c: seq<Instr>, t: TState, regs: map<Reg, int>) returns (u: TState)
    requires RegsAgree(a, regs, t) && t.pc < |c| && c[t.pc].Lbl?
    ensures Reaches(c, t, [], u) && u.pc == t.pc + 1 && RegsAgree(a, regs, u)
  {
    hide Reaches;
    u := StepT(c, t, 0, true).0;
    Last(c, t, 0, true);
    PcFree(a, regs, t, t.pc + 1, t.eq);
  }

  /** The acquire swap. */
  lemma {:induction false} SimSwap(a: Alloc, c: seq<Instr>, t: TState, regs: map<Reg, int>, r: Reg, v: Var, x: int)
      returns (u: TState)
    requires ClashFree(a) && RegsAgree(a, regs, t) && v in a.vars && r in a.regs && t.pc + 1 < |c|
    requires c[t.pc] == MovI(Temp(a), 1) && c[t.pc + 1] == Swpa(Temp(a), Phys(a, r), Addr(a, v))
    ensures Reaches(c, t, [PSwap(v, x, 1)], u) && u.pc == t.pc + 2 && RegsAgree(a, regs[r := x], u)
  {
    hide Reaches;
    var t1 := StepT(c, t, 0, true).0;
    TempFree(a, regs, t, Num(1));
    PcFree(a, regs, t.(regs := t.regs[Temp(a) := Num(1)]), t.pc + 1, t.eq);
    assert ValOf(t1, Addr(a, v)) == Ptr(v) && ValOf(t1, Temp(a)) == Num(1);
    u := StepT(c, t1, x, true).0;
    Last(c, t1, x, true);
    Silent(c, t, [PSwap(v, x, 1)], u, 0, true);
    PhysFree(a, regs, t1, r, x);
    PcFree(a, regs[r := x], t1.(regs := t1.regs[Phys(a, r) := Num(x)]), t1.pc + 1, t1.eq);
  }

  lemma {:induction false} SimRelease(a: Alloc, c: seq<Instr>, t: TState, regs: map<Reg, int>, v: Var)
      returns (u: TState)
    requires RegsAgree(a, regs, t) && v in a.vars && t.pc < |c| && c[t.pc] == Stlr(Addr(a, v))
    ensures Reaches(c, t, [PRelease(v, 0)], u) && u.pc == t.pc + 1 && RegsAgree(a, regs, u)
  {
    hide Reaches;
    assert ValOf(t, Addr(a, v)) == Ptr(v);
    u := StepT(c, t, 0, true).0;
    Last(c, t, 0, true);
    PcFree(a, regs, t, t.pc + 1, t.eq);
  }

  /** Compare and branch in one. */
  lemma {:induction false} SimCb(a: Alloc, c: seq<Instr>, t: TState, regs: map<Reg, int>, r: Reg, l: Label, zero: bool)
      returns (u: TState)
    requires RegsAgree(a, regs, t) && r in a.regs && t.pc < |c|
    requires c[t.pc] == if zero then Cbz(Phys(a, r), l) else Cbnz(Phys(a, r), l)
    ensures Reaches(c, t, [], u) && RegsAgree(a, regs, u)
    ensures u.pc == if (RegOf(SState(0, regs), r) == 0) == zero then FindT(c, l) else t.pc + 1
  {
    hide Reaches;
    assert ValOf(t, Phys(a, r)) == Num(RegOf(SState(0, regs), r));
    u := StepT(c, t, 0, true).0;
    Last(c, t, 0, true);
    PcFree(a, regs, t, u.pc, t.eq);
  }

  /** A compare that sets the flag, then a branch on it. */
  lemma {:induction false} SimBranch(a: Alloc, c: seq<Instr>, t: TState, regs: map<Reg, int>, same: bool,
      l: Label, onEq: bool) returns (u: TState)
    requires RegsAgree(a, regs, t) && t.pc + 1 < |c| && StepT(c, t, 0, true) == (t.(pc := t.pc + 1, eq := same), [])
    requires c[t.pc + 1] == if onEq then Beq(l) else Bne(l)
    ensures Reaches(c, t, [], u) && RegsAgree(a, regs, u)
    ensures u.pc == if same == onEq then FindT(c, l) else t.pc + 2
  {
    hide Reaches;
    var t1 := t.(pc := t.pc + 1, eq := same);
    PcFree(a, regs, t, t.pc + 1, same);
    u := StepT(c, t1, 0, true).0;
    Last(c, t1, 0, true);
    Silent(c, t, [], u, 0, true);
    PcFree(a, regs, t1, u.pc, same);
  }

  lemma {:induction false} CompareImm(a: Alloc, c: seq<Instr>, t: TState, regs: map<Reg, int>, r: Reg, imm: int)
    requires RegsAgree(a, regs, t) && r in a.regs && t.pc < |c| && c[t.pc] == CmpI(Phys(a, r), imm)
    ensures StepT(c, t, 0, true) == (t.(pc := t.pc + 1, eq := RegOf(SState(0, regs), r) == imm), [])
  {
    assert ValOf(t, Phys(a, r)) == Num(RegOf(SState(0, regs), r));
  }

  lemma {:induction false} CompareReg(a: Alloc, c: seq<Instr>, t: TState, regs: map<Reg, int>, r: Reg, q: Reg)
    requires RegsAgree(a, regs, t) && r in a.regs && q in a.regs && t.pc < |c|
    requires c[t.pc] == CmpR(Phys(a, r), Phys(a, q))
    ensures StepT(c, t, 0, true)
        == (t.(pc := t.pc + 1, eq := RegOf(SState(0, regs), r) == RegOf(SState(0, regs), q)), [])
  {
    assert ValOf(t, Phys(a, r)) == Num(RegOf(SState(0, regs), r))
        && ValOf(t, Phys(a, q)) == Num(RegOf(SState(0, regs), q));
  }

  /** The scratch register set, the load-exclusive of a PPC lock that is free. */
  lemma {:induction false} SimExclusive(a: Alloc, c: seq<Instr>, t: TState, regs: map<Reg, int>, r: Reg, v: Var)
      returns (u: TState)
    requires ClashFree(a) && RegsAgree(a, regs, t) && v in a.vars && r in a.regs && t.pc + 1 < |c|
    requires c[t.pc] == MovI(Temp(a), 1) && c[t.pc + 1] == Lwarx(Phys(a, r), Addr(a, v))
    ensures Reaches(c, t, [PLoadX(v, 0)], u) && u.pc == t.pc + 2 && RegsAgree(a, regs[r := 0], u)
    ensures ValOf(u, Temp(a)) == Num(1)
  {
    hide Reaches;
    var t1 := StepT(c, t, 0, true).0;
    TempFree(a, regs, t, Num(1));
    PcFree(a, regs, t.(regs := t.regs[Temp(a) := Num(1)]), t.pc + 1, t.eq);
    assert ValOf(t1, Addr(a, v)) == Ptr(v) && ValOf(t1, Temp(a)) == Num(1);
    u := StepT(c, t1, 0, true).0;
    PhysFree(a, regs, t1, r, 0);
    PcFree(a, regs[r := 0], t1.(regs := t1.regs[Phys(a, r) := Num(0)]), t1.pc + 1, t1.eq);
    Last(c, t1, 0, true);
    Silent(c, t, [PLoadX(v, 0)], u, 0, true);
  }

  /** ... and the branch not taken. */
  lemma {:induction false} SimReserve(a: Alloc, c: seq<Instr>, t: TState, regs: map<Reg, int>, r: Reg, v: Var, l: Label)
      returns (u: TState)
    requires ClashFree(a) && RegsAgree(a, regs, t) && v in a.vars && r in a.regs && t.pc + 3 < |c|
    requires c[t.pc] == MovI(Temp(a), 1) && c[t.pc + 1] == Lwarx(Phys(a, r), Addr(a, v))
    requires c[t.pc + 2] == CmpI(Phys(a, r), 0) && c[t.pc + 3] == Bne(l)
    ensures Reaches(c, t, [PLoadX(v, 0)], u) && u.pc == t.pc + 4 && RegsAgree(a, regs[r := 0], u)
    ensures ValOf(u, Temp(a)) == Num(1)
  {
    hide Reaches, RegsAgree, ClashFree, StepT, Phys, Addr;
    var t2 := SimExclusive(a, c, t, regs, r, v);
    CompareImm(a, c, t2, regs[r := 0], r, 0);
    BranchRegs(c, t2, l);
    u := t2.(pc := t2.pc + 2, eq := true);
    ReachCat(c, t, [PLoadX(v, 0)], t2, [], u);
    assert [PLoadX(v, 0)] + [] == [PLoadX(v, 0)];
    PcFree(a, regs[r := 0], t2, u.pc, true);
  }

  lemma {:induction false} BranchRegs(c: seq<Instr>, t: TState, l: Label)
    requires t.pc + 1 < |c| && StepT(c, t, 0, true) == (t.(pc := t.pc + 1, eq := true), []) && c[t.pc + 1] == Bne(l)
    ensures Reaches(c, t, [], t.(pc := t.pc + 2, eq := true))
  {
    hide Reaches;
    var t1 := t.(pc := t.pc + 1, eq := true);
    Last(c, t1, 0, true);
    Silent(c, t, [], t.(pc := t.pc + 2, eq := true), 0, true);
  }

  /** The store-conditional that succeeds, the isync, and past the failure path. */
  lemma {:induction false} SimCommit(a: Alloc, c: seq<Instr>, t: TState, regs: map<Reg, int>, v: Var, l: Label,
      k: Label) returns (u: TState)
    requires ClashFree(a) && RegsAgree(a, regs, t) && v in a.vars && ValOf(t, Temp(a)) == Num(1) && t.pc + 6 < |c|
    requires c[t.pc] == Stwcx(Temp(a), Addr(a, v)) && c[t.pc + 1] == Bne(l) && c[t.pc + 2] == Bar(ISync)
    requires c[t.pc + 3] == B(k)
    requires FindT(c, k) == t.pc + 6 && c[t.pc + 6].Lbl?
    ensures Reaches(c, t, [PStoreX(v, 1, true), PBar(ISync)], u) && u.pc == t.pc + 7 && RegsAgree(a, regs, u)
  {
    hide Reaches;
    assert ValOf(t, Addr(a, v)) == Ptr(v);
    u := t.(pc := t.pc + 7, eq := true);
    var t6 := t.(pc := t.pc + 6, eq := true);
    Last(c, t6, 0, true);
    var t3 := t.(pc := t.pc + 3, eq := true);
    Silent(c, t3, [], u, 0, true);
    var t2 := t.(pc := t.pc + 2, eq := true);
    Then(c, t2, 0, true, [], u);
    assert [PBar(ISync)] + [] == [PBar(ISync)];
    var t1 := t.(pc := t.pc + 1, eq := true);
    Silent(c, t1, [PBar(ISync)], u, 0, true);
    Then(c, t, 0, true, [PBar(ISync)], u);
    assert [PStoreX(v, 1, true)] + [PBar(ISync)] == [PStoreX(v, 1, true), PBar(ISync)];
    PcFree(a, regs, t, u.pc, true);
  }

  // ---- one op --------------------------------------------------------------------------------------------

  /** The block of op i at t.pc in the whole code c. */
  ghost predicate Block(a: Alloc, prog: seq<Op>, i: nat, c: seq<Instr>, p: nat)
    requires Placed(a, prog) && i < |prog|
  {
    var e := Emit(a, prog[i], Locks(prog, i));
    && c == Code(a, prog, |prog|) && p == |Code(a, prog, i)| && p + |e| == |Code(a, prog, i + 1)| && p + |e| <= |c|
    && forall k {:trigger e[k]} :: 0 <= k < |e| ==> c[p + k] == e[k]
  }

  lemma {:induction false} BlockAt(a: Alloc, prog: seq<Op>, i: nat)
    requires Placed(a, prog) && i < |prog|
    ensures Block(a, prog, i, Code(a, prog, |prog|), |Code(a, prog, i)|)
  {
    hide Emit, Covers;
    CodeNext(a, prog, i);
    CodePrefix(a, prog, i + 1, |prog|);
    var e := Emit(a, prog[i], Locks(prog, i));
    forall k | 0 <= k < |e| ensures Code(a, prog, |prog|)[|Code(a, prog, i)| + k] == e[k] { CodeAt(a, prog, i, k); }
  }

  ghost predicate Simulates(a: Alloc, prog: seq<Op>, s: SState, x: int, c: seq<Instr>, t: TState, u: TState)
    requires Placed(a, prog) && s.pc < |prog|
  {
    var (s1, es) := StepS(prog, s, x);
    && Reaches(c, t, MapTrace(a.arch, es), u) && s1.pc <= |prog| && u.pc == |Code(a, prog, s1.pc)|
    && RegsAgree(a, s1.regs, u)
  }

  lemma {:induction false} MapOne(arch: Arch, e: Event)
    ensures MapTrace(arch, [e]) == MapEvent(arch, e) && MapTrace(arch, []) == []
  {
    assert [e][1..] == [];
    assert MapEvent(arch, e) + [] == MapEvent(arch, e);
  }

  /** Stores, loads, barriers, labels: alike on both. */
  lemma {:induction false} PlainOp(a: Alloc, prog: seq<Op>, s: SState, x: int, c: seq<Instr>, t: TState)
      returns (u: TState)
    requires ClashFree(a) && Placed(a, prog) && s.pc < |prog| && Block(a, prog, s.pc, c, t.pc)
    requires RegsAgree(a, s.regs, t)
    requires var o := prog[s.pc]; o.St? || o.Ld? || o.Wmb? || o.Rmb? || o.Mb? || o.Mark?
    ensures Simulates(a, prog, s, x, c, t, u)
  {
    hide Reaches, RegsAgree, ClashFree, StepT, FindT, Find, Code;
    var op := prog[s.pc];
    assert Covers(a, op);
    assert c[t.pc] == Emit(a, op, Locks(prog, s.pc))[0];
    var es := StepS(prog, s, x).1;
    if es != [] { MapOne(a.arch, es[0]); assert es == [es[0]]; } else { MapOne(a.arch, EMb); }
    match op {
      case St(v, imm) =>
        assert Emit(a, op, Locks(prog, s.pc)) == [MovI(Temp(a), imm), Str(Temp(a), Addr(a, v))];
        assert c[t.pc + 1] == Emit(a, op, Locks(prog, s.pc))[1];
        u := SimStore(a, c, t, s.regs, v, imm);
      case Ld(r, v) => u := SimLoad(a, c, t, s.regs, r, v, x);
      case Wmb => u := SimBar(a, c, t, s.regs, if a.arch == AArch64 then IshSt else LwSync);
      case Rmb => u := SimBar(a, c, t, s.regs, if a.arch == AArch64 then IshLd else LwSync);
      case Mb => u := SimBar(a, c, t, s.regs, if a.arch == AArch64 then Ish else HwSync);
      case Mark(l) => u := SimMark(a, c, t, s.regs);
      case _ =>
    }
  }

  /** The branches, by how each architecture does them. */
  lemma {:induction false} BranchOp(a: Alloc, prog: seq<Op>, s: SState, x: int, c: seq<Instr>, t: TState)
      returns (u: TState)
    requires Placed(a, prog) && s.pc < |prog| && Block(a, prog, s.pc, c, t.pc) && RegsAgree(a, s.regs, t)
    requires var o := prog[s.pc]; o.Brz? || o.Brnz? || o.Brne? || o.BrneReg?
    ensures Simulates(a, prog, s, x, c, t, u)
  {
    hide Reaches, RegsAgree, StepT, FindT, Find, Code;
    var op := prog[s.pc];
    assert Covers(a, op);
    FindUser(a, prog, op.l);
    MapOne(a.arch, EMb);
    SameRegs(s);
    var e := Emit(a, op, Locks(prog, s.pc));
    assert c[t.pc] == e[0];
    match op {
      case Brz(r, l) =>
        if a.arch == AArch64 { u := SimCb(a, c, t, s.regs, r, User(l), true); }
        else {
          assert c[t.pc + 1] == e[1];
          CompareImm(a, c, t, s.regs, r, 0);
          u := SimBranch(a, c, t, s.regs, RegOf(s, r) == 0, User(l), true);
        }
      case Brnz(r, l) =>
        if a.arch == AArch64 { u := SimCb(a, c, t, s.regs, r, User(l), false); }
        else {
          assert c[t.pc + 1] == e[1];
          CompareImm(a, c, t, s.regs, r, 0);
          u := SimBranch(a, c, t, s.regs, RegOf(s, r) == 0, User(l), false);
        }
      case Brne(r, imm, l) =>
        assert c[t.pc + 1] == e[1];
        CompareImm(a, c, t, s.regs, r, imm);
        u := SimBranch(a, c, t, s.regs, RegOf(s, r) == imm, User(l), false);
      case BrneReg(r, q, l) =>
        assert c[t.pc + 1] == e[1];
        CompareReg(a, c, t, s.regs, r, q);
        u := SimBranch(a, c, t, s.regs, RegOf(s, r) == RegOf(s, q), User(l), false);
      case _ =>
    }
  }

  lemma {:induction false} SameRegs(s: SState)
    ensures forall r :: RegOf(SState(0, s.regs), r) == RegOf(s, r)
  {
  }

  /** spin_unlock(). */
  lemma {:induction false} UnlockOp(a: Alloc, prog: seq<Op>, s: SState, x: int, c: seq<Instr>, t: TState)
      returns (u: TState)
    requires ClashFree(a) && Placed(a, prog) && s.pc < |prog| && Block(a, prog, s.pc, c, t.pc)
    requires RegsAgree(a, s.regs, t) && prog[s.pc].Unlock?
    ensures Simulates(a, prog, s, x, c, t, u)
  {
    hide Reaches, RegsAgree, ClashFree, StepT, FindT, Find, Code;
    var op := prog[s.pc];
    assert Covers(a, op);
    MapOne(a.arch, EUnlock(op.v));
    var e := Emit(a, op, Locks(prog, s.pc));
    assert c[t.pc] == e[0];
    if a.arch == AArch64 { u := SimRelease(a, c, t, s.regs, op.v); }
    else {
      assert c[t.pc + 1] == e[1] && c[t.pc + 2] == e[2];
      var t1 := SimBar(a, c, t, s.regs, LwSync);
      u := SimStore(a, c, t1, s.regs, op.v, 0);
      ReachCat(c, t, [PBar(LwSync)], t1, [PStore(op.v, 0)], u);
      assert [PBar(LwSync)] + [PStore(op.v, 0)] == [PBar(LwSync), PStore(op.v, 0)];
    }
  }

  /** spin_lock() of a free lock. */
  lemma {:induction false} LockOp(a: Alloc, prog: seq<Op>, s: SState, c: seq<Instr>, t: TState) returns (u: TState)
    requires ClashFree(a) && Placed(a, prog) && s.pc < |prog| && Block(a, prog, s.pc, c, t.pc)
    requires RegsAgree(a, s.regs, t) && prog[s.pc].Lock?
    ensures Simulates(a, prog, s, 0, c, t, u)
  {
    hide Reaches, RegsAgree, ClashFree, StepT, FindT, Find, Code, Locks;
    var op := prog[s.pc];
    assert Covers(a, op);
    MapOne(a.arch, ELock(op.v, 0));
    var e := Emit(a, op, Locks(prog, s.pc));
    assert c[t.pc] == e[0] && c[t.pc + 1] == e[1];
    if a.arch == AArch64 { u := SimSwap(a, c, t, s.regs, op.r, op.v, 0); }
    else {
      u := LockPpc(a, prog, s, c, t);
    }
  }

  lemma {:induction false} LockBlock(a: Alloc, prog: seq<Op>, i: nat, c: seq<Instr>, p: nat)
    requires Placed(a, prog) && i < |prog| && Block(a, prog, i, c, p) && prog[i].Lock? && a.arch == PPC
    ensures c == Code(a, prog, |prog|) && p == |Code(a, prog, i)| && Covers(a, prog[i]) && prog[i].r in a.regs
    ensures prog[i].v in a.vars && p + 11 <= |c|
    ensures var q, d, n, t := Phys(a, prog[i].r), Addr(a, prog[i].v), Locks(prog, i), Temp(a);
      && c[p] == MovI(t, 1) && c[p + 1] == Lwarx(q, d) && c[p + 2] == CmpI(q, 0) && c[p + 3] == Bne(LFail(n))
      && c[p + 4] == Stwcx(t, d) && c[p + 5] == Bne(LFail(n)) && c[p + 6] == Bar(ISync) && c[p + 7] == B(LOk(n))
      && c[p + 10].Lbl?
  {
    hide Code, Locks, Addr, Phys;
    var op := prog[i];
    assert Covers(a, op) && op.r in DefOf(op) && op.v in VarOf(op);
    var e := Emit(a, op, Locks(prog, i));
    assert c[p] == e[0] && c[p + 1] == e[1] && c[p + 2] == e[2] && c[p + 3] == e[3];
    assert c[p + 4] == e[4] && c[p + 5] == e[5] && c[p + 6] == e[6] && c[p + 7] == e[7] && c[p + 10] == e[10];
  }

  lemma {:induction false} LockPpc(a: Alloc, prog: seq<Op>, s: SState, c: seq<Instr>, t: TState) returns (u: TState)
    requires ClashFree(a) && Placed(a, prog) && s.pc < |prog| && Block(a, prog, s.pc, c, t.pc)
    requires RegsAgree(a, s.regs, t) && prog[s.pc].Lock? && a.arch == PPC
    ensures Covers(a, prog[s.pc]) && u.pc == t.pc + 11 && RegsAgree(a, s.regs[prog[s.pc].r := 0], u)
    ensures Reaches(c, t, [PLoadX(prog[s.pc].v, 0), PStoreX(prog[s.pc].v, 1, true), PBar(ISync)], u)
  {
    hide Reaches, RegsAgree, ClashFree, StepT, FindT, Block, Code, Locks, Addr, Phys;
    var op := prog[s.pc];
    var n := Locks(prog, s.pc);
    LockBlock(a, prog, s.pc, c, t.pc);
    FindLock(a, prog, s.pc);
    var t1 := SimReserve(a, c, t, s.regs, op.r, op.v, LFail(n));
    u := SimCommit(a, c, t1, s.regs[op.r := 0], op.v, LFail(n), LOk(n));
    ReachCat(c, t, [PLoadX(op.v, 0)], t1, [PStoreX(op.v, 1, true), PBar(ISync)], u);
    assert [PLoadX(op.v, 0)] + [PStoreX(op.v, 1, true), PBar(ISync)]
        == [PLoadX(op.v, 0), PStoreX(op.v, 1, true), PBar(ISync)];
  }

  /** Any op, with a lock found free. */
  lemma {:induction false} AnyOp(a: Alloc, prog: seq<Op>, s: SState, x: int, t: TState) returns (u: TState)
    requires ClashFree(a) && Placed(a, prog) && s.pc < |prog| && t.pc == |Code(a, prog, s.pc)|
    requires RegsAgree(a, s.regs, t) && (prog[s.pc].Lock? ==> x == 0)
    ensures Simulates(a, prog, s, x, Code(a, prog, |prog|), t, u)
  {
    hide Simulates, Block, RegsAgree, ClashFree, Code;
    BlockAt(a, prog, s.pc);
    var c, op := Code(a, prog, |prog|), prog[s.pc];
    if op.Lock? { u := LockOp(a, prog, s, c, t); }
    else if op.Unlock? { u := UnlockOp(a, prog, s, x, c, t); }
    else if op.Brz? || op.Brnz? || op.Brne? || op.BrneReg? { u := BranchOp(a, prog, s, x, c, t); }
    else { u := PlainOp(a, prog, s, x, c, t); }
  }

  // ---- whole runs -------------------------------------------------------------------------------------------

  lemma {:induction false} MapCat(arch: Arch, es: seq<Event>, fs: seq<Event>)
    ensures MapTrace(arch, es + fs) == MapTrace(arch, es) + MapTrace(arch, fs)
    decreases |es|
  {
    hide MapEvent;
    if es == [] { assert es + fs == fs; }
    else {
      assert (es + fs)[1..] == es[1..] + fs;
      MapCat(arch, es[1..], fs);
    }
  }

  lemma {:induction false} FreeParts(es: seq<Event>, fs: seq<Event>)
    requires Free(es + fs)
    ensures Free(es) && Free(fs)
  {
    forall i | 0 <= i < |es| && es[i].ELock? ensures es[i].x == 0 { assert (es + fs)[i] == es[i]; }
    forall i | 0 <= i < |fs| && fs[i].ELock? ensures fs[i].x == 0 { assert (es + fs)[|es| + i] == fs[i]; }
  }

  lemma {:induction false} FreeStep(prog: seq<Op>, s: SState, x: int)
    requires s.pc < |prog| && Free(StepS(prog, s, x).1)
    ensures prog[s.pc].Lock? ==> x == 0
  {
    hide Find;
    if prog[s.pc].Lock? { assert StepS(prog, s, x).1[0] == ELock(prog[s.pc].v, x); }
  }

  /** Every run of a thread program in which each lock is found free, whatever its
      loads return, is matched by a run of the emitted code: the same accesses and
      barriers in the same order under the barrier map, and in the end the same
      logical registers. */
  lemma {:induction false} Preserves(a: Alloc, prog: seq<Op>, s: SState, xs: seq<int>, t: TState) returns (u: TState)
    requires ClashFree(a) && Placed(a, prog) && s.pc <= |prog| && t.pc == |Code(a, prog, s.pc)|
    requires RegsAgree(a, s.regs, t) && Free(RunS(prog, s, xs).1)
    ensures var (z, es) := RunS(prog, s, xs);
      && z.pc <= |prog| && Reaches(Code(a, prog, |prog|), t, MapTrace(a.arch, es), u) && u.pc == |Code(a, prog, z.pc)|
      && RegsAgree(a, z.regs, u)
    decreases |xs|
  {
    hide Reaches, RegsAgree, ClashFree, StepS, Code;
    var c := Code(a, prog, |prog|);
    if xs == [] || s.pc >= |prog| {
      u := t;
      Here(c, t);
      MapOne(a.arch, EMb);
    } else {
      var (s1, e1) := StepS(prog, s, xs[0]);
      var (s2, e2) := RunS(prog, s1, xs[1..]);
      FreeParts(e1, e2);
      FreeStep(prog, s, xs[0]);
      var t1 := AnyOp(a, prog, s, xs[0], t);
      u := Preserves(a, prog, s1, xs[1..], t1);
      ReachCat(c, t, MapTrace(a.arch, e1), t1, MapTrace(a.arch, e2), u);
      MapCat(a.arch, e1, e2);
    }
  }

  // ---- from the start, and the filter --------------------------------------------------------------------------

  /** init(): the address registers hold the addresses, everything else is zero. */
  ghost function Boot(a: Alloc): (t: TState) {
    TState(0, map p | p in (set v | v in a.vars :: Addr(a, v)) :: Ptr(Owner(a, p)), false)
  }

  ghost function Owner(a: Alloc, p: nat): (v: Var)
    requires exists v :: v in a.vars && Addr(a, v) == p
  {
    var v :| v in a.vars && Addr(a, v) == p;
    v
  }

  lemma {:induction false} BootAgrees(a: Alloc)
    requires ClashFree(a)
    ensures RegsAgree(a, map[], Boot(a))
  {
    var t := Boot(a);
    forall v | v in a.vars ensures ValOf(t, Addr(a, v)) == Ptr(v) { assert Owner(a, Addr(a, v)) == v; }
    forall r | r in a.regs ensures ValOf(t, Phys(a, r)) == Num(0) {
      assert forall v :: v in a.vars ==> Addr(a, v) != Phys(a, r);
      assert Phys(a, r) !in t.regs;
    }
  }

  /** From the initial state, with at most nine variables (AArch64) or nine registers
      (PPC). */
  lemma {:induction false} TranslationPreserves(a: Alloc, prog: seq<Op>, xs: seq<int>) returns (u: TState)
    requires NoDup(a.vars) && NoDup(a.regs) && (if a.arch == AArch64 then |a.vars| <= 9 else |a.regs| <= 9)
    requires Placed(a, prog)
    requires Free(RunS(prog, SState(0, map[]), xs).1)
    ensures var (z, es) := RunS(prog, SState(0, map[]), xs);
      && z.pc <= |prog| && Reaches(Code(a, prog, |prog|), Boot(a), MapTrace(a.arch, es), u)
      && u.pc == |Code(a, prog, z.pc)| && RegsAgree(a, z.regs, u)
  {
    hide Reaches, RegsAgree, ClashFree, RunS;
    ClashFreeIff(a);
    BootAgrees(a);
    u := Preserves(a, prog, SState(0, map[]), xs, Boot(a));
  }

  /** Branches go forward, and a lock's register is written by that lock alone. */
  ghost predicate Forward(prog: seq<Op>) {
    && (forall i {:trigger prog[i]} ::
          0 <= i < |prog| && (prog[i].Brz? || prog[i].Brnz? || prog[i].Brne? || prog[i].BrneReg?) ==>
            i < Find(prog, prog[i].l))
    && (forall i, j {:trigger prog[i], prog[j]} ::
          0 <= i < |prog| && 0 <= j < |prog| && i != j && prog[i].Lock? ==> prog[i].r !in DefOf(prog[j]))
  }

  /** The registers the filter clause names are zero, for the locks in [i, n). */
  ghost predicate Filter(prog: seq<Op>, i: nat, s: SState) {
    forall j {:trigger prog[j]} :: i <= j < |prog| && prog[j].Lock? ==> RegOf(s, prog[j].r) == 0
  }

  lemma {:induction false} StepForward(prog: seq<Op>, s: SState, x: int)
    requires Forward(prog) && s.pc < |prog|
    ensures var (s1, es) := StepS(prog, s, x);
      && s.pc < s1.pc
      && (forall j {:trigger prog[j]} ::
            0 <= j < |prog| && prog[j].Lock? && j != s.pc ==> RegOf(s1, prog[j].r) == RegOf(s, prog[j].r))
      && (if prog[s.pc].Lock? then RegOf(s1, prog[s.pc].r) == x && es == [ELock(prog[s.pc].v, x)] && s1.pc == s.pc + 1
            else Free(es))
  {
    hide Find;
    var op := prog[s.pc];
  }

  /** What has been passed stays as it is. */
  lemma {:induction false} Kept(prog: seq<Op>, s: SState, xs: seq<int>, i: nat)
    requires Forward(prog) && i < s.pc && i < |prog| && prog[i].Lock?
    ensures RegOf(RunS(prog, s, xs).0, prog[i].r) == RegOf(s, prog[i].r)
    decreases |xs|
  {
    hide Forward, StepS;
    if xs != [] && s.pc < |prog| {
      StepForward(prog, s, xs[0]);
      Kept(prog, StepS(prog, s, xs[0]).0, xs[1..], i);
    }
  }

  /** The filter clause keeps exactly the runs in which every lock was found free. */
  lemma {:induction false} FilterExact(prog: seq<Op>, s: SState, xs: seq<int>)
    requires Forward(prog) && Filter(prog, s.pc, s)
    ensures var (z, es) := RunS(prog, s, xs); Filter(prog, s.pc, z) <==> Free(es)
    decreases |xs|
  {
    hide Forward, StepS;
    if xs != [] && s.pc < |prog| {
      var (s1, e1) := StepS(prog, s, xs[0]);
      StepForward(prog, s, xs[0]);
      FilterExact(prog, s1, xs[1..]);
      var (z, e2) := RunS(prog, s1, xs[1..]);
      FreeCat(e1, e2);
      forall j | 0 <= j < s1.pc && j < |prog| && prog[j].Lock?
        ensures RegOf(z, prog[j].r) == RegOf(s1, prog[j].r)
      { Kept(prog, s1, xs[1..], j); }
      if prog[s.pc].Lock? { OneLock(prog[s.pc].v, xs[0]); }
    }
  }

  lemma {:induction false} FreeCat(es: seq<Event>, fs: seq<Event>)
    ensures Free(es + fs) <==> Free(es) && Free(fs)
  {
    if Free(es + fs) { FreeParts(es, fs); }
  }

  lemma {:induction false} OneLock(v: Var, x: int)
    ensures Free([ELock(v, x)]) <==> x == 0
  {
    assert [ELock(v, x)][0] == ELock(v, x);
  }
}
