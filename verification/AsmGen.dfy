/** The litmus-to-assembly translator
    (kernel/work.mount.gp_on_demand.proposal/litmus/gen-asm.py): abstract thread
    programs, the AArch64 and PPC code emitted for them, and a thread-local
    semantics of both in which a load may return any value. */
module AsmGen {
  type Var = nat
  type Reg = nat
  type Name = nat

  // ---- abstract programs ---------------------------------------------------------------------------

  datatype Op =
    | St(v: Var, imm: int) | Ld(r: Reg, v: Var) | Wmb | Rmb | Mb | Lock(v: Var, r: Reg) | Unlock(v: Var)
    | Brz(r: Reg, l: Name) | Brnz(r: Reg, l: Name) | Brne(r: Reg, imm: int, l: Name) | BrneReg(r: Reg, r2: Reg, l: Name)
    | Mark(l: Name)

  /** What a thread does that others can see, with the values it read. */
  datatype Event = EStore(v: Var, x: int) | ELoad(v: Var, x: int) | EWmb | ERmb | EMb | ELock(v: Var, x: int)
      | EUnlock(v: Var)

  datatype SState = SState(pc: nat, regs: map<Reg, int>)

  function RegOf(s: SState, r: Reg): (x: int) { if r in s.regs then s.regs[r] else 0 }

  /** Where a label is; past the end if nowhere. */
  function Find(prog: seq<Op>, l: Name): (i: nat)
    ensures i <= |prog| && (i < |prog| ==> prog[i] == Mark(l)) && forall j :: 0 <= j < i ==> prog[j] != Mark(l)
  {
    if prog == [] || prog[0] == Mark(l) then 0 else
      assert forall j :: 0 <= j < |prog| - 1 ==> prog[1..][j] == prog[j + 1];
      1 + Find(prog[1..], l)
  }

  /** One op; x is what a read returns. */
  function StepS(prog: seq<Op>, s: SState, x: int): (z: (SState, seq<Event>))
    requires s.pc < |prog|
  {
    var n := s.(pc := s.pc + 1);
    match prog[s.pc]
    case St(v, imm) => (n, [EStore(v, imm)])
    case Ld(r, v) => (n.(regs := s.regs[r := x]), [ELoad(v, x)])
    case Wmb => (n, [EWmb])
    case Rmb => (n, [ERmb])
    case Mb => (n, [EMb])
    case Lock(v, r) => (n.(regs := s.regs[r := x]), [ELock(v, x)])
    case Unlock(v) => (n, [EUnlock(v)])
    case Brz(r, l) => (if RegOf(s, r) == 0 then s.(pc := Find(prog, l)) else n, [])
    case Brnz(r, l) => (if RegOf(s, r) != 0 then s.(pc := Find(prog, l)) else n, [])
    case Brne(r, imm, l) => (if RegOf(s, r) != imm then s.(pc := Find(prog, l)) else n, [])
    case BrneReg(r, r2, l) => (if RegOf(s, r) != RegOf(s, r2) then s.(pc := Find(prog, l)) else n, [])
    case Mark(_) => (n, [])
  }

  /** As many ops as there are values, or to the end. */
  function RunS(prog: seq<Op>, s: SState, xs: seq<int>): (z: (SState, seq<Event>))
    decreases |xs|
  {
    if xs == [] || s.pc >= |prog| then (s, []) else
      var (s1, e1) := StepS(prog, s, xs[0]);
      var (s2, e2) := RunS(prog, s1, xs[1..]);
      (s2, e1 + e2)
  }

  // ---- allocation ------------------------------------------------------------------------------------

  function VarOf(op: Op): (r: set<Var>) {
    match op case St(v, _) => {v} case Ld(_, v) => {v} case Lock(v, _) => {v} case Unlock(v) => {v} case _ => {}
  }

  /** The registers an op writes: those that get allocated. */
  function DefOf(op: Op): (r: set<Reg>) { match op case Ld(r, _) => {r} case Lock(_, r) => {r} case _ => {} }

  /** The registers an op reads. */
  function UseOf(op: Op): (r: set<Reg>) {
    match op
    case Brz(r, _) => {r}
    case Brnz(r, _) => {r}
    case Brne(r, _, _) => {r}
    case BrneReg(r, r2, _) => {r, r2}
    case _ => {}
  }

  ghost predicate NoDup(s: seq<nat>) { forall i, j :: 0 <= i < j < |s| ==> s[i] != s[j] }

  /** vars_of(): the variables in the order of their first use. */
  method VarsOf(ops: seq<Op>) returns (vs: seq<Var>)
    ensures NoDup(vs) && forall v :: v in vs <==> exists i :: 0 <= i < |ops| && v in VarOf(ops[i])
  {
    vs := [];
    for i := 0 to |ops|
      invariant NoDup(vs) && forall v :: v in vs <==> exists j :: 0 <= j < i && v in VarOf(ops[j])
    {
      var o := ops[i];
      if o.St? || o.Ld? || o.Lock? || o.Unlock? {
        if o.v !in vs { vs := vs + [o.v]; }
      }
    }
  }

  /** regs_of(): the registers some op writes. */
  method RegsOf(ops: seq<Op>) returns (rs: seq<Reg>)
    ensures NoDup(rs) && forall r :: r in rs <==> exists i :: 0 <= i < |ops| && r in DefOf(ops[i])
  {
    rs := [];
    for i := 0 to |ops|
      invariant NoDup(rs) && forall r :: r in rs <==> exists j :: 0 <= j < i && r in DefOf(ops[j])
    {
      var o := ops[i];
      if o.Ld? || o.Lock? {
        if o.r !in rs { rs := rs + [o.r]; }
      }
    }
  }

  datatype Arch = AArch64 | PPC
  datatype Alloc = Alloc(arch: Arch, vars: seq<Var>, regs: seq<Reg>)

  function At(s: seq<nat>, x: nat): (i: nat)
    requires x in s
    ensures i < |s| && s[i] == x
  {
    if s[0] == x then 0 else 1 + At(s[1..], x)
  }

  function Temp(a: Alloc): (p: nat) { match a.arch case AArch64 => 9 case PPC => 10 }

  function Addr(a: Alloc, v: Var): (p: nat)
    requires v in a.vars
  {
    (match a.arch case AArch64 => 0 case PPC => 20) + At(a.vars, v)
  }

  function Phys(a: Alloc, r: Reg): (p: nat)
    requires r in a.regs
  {
    (match a.arch case AArch64 => 10 case PPC => 1) + At(a.regs, r)
  }

  /** No two of the addresses, the registers and the scratch register share a physical one. */
  ghost predicate ClashFree(a: Alloc) {
    && (forall v :: v in a.vars ==> Addr(a, v) != Temp(a)) && (forall r :: r in a.regs ==> Phys(a, r) != Temp(a))
    && (forall v, r :: v in a.vars && r in a.regs ==> Addr(a, v) != Phys(a, r))
    && (forall v, w :: v in a.vars && w in a.vars && Addr(a, v) == Addr(a, w) ==> v == w)
    && (forall r, q :: r in a.regs && q in a.regs && Phys(a, r) == Phys(a, q) ==> r == q)
  }

  lemma {:induction false} AtUnique(s: seq<nat>, i: nat)
    requires NoDup(s) && i < |s|
    ensures At(s, s[i]) == i
  {
    var k := At(s, s[i]);
    assert s[k] == s[i];
  }

  /** Nine variables are what AArch64's allocation takes, nine registers PPC's. */
  lemma {:induction false} ClashFreeIff(a: Alloc)
    requires NoDup(a.vars) && NoDup(a.regs)
    ensures ClashFree(a) <==> if a.arch == AArch64 then |a.vars| <= 9 else |a.regs| <= 9
  {
    if a.arch == AArch64 && |a.vars| > 9 {
      AtUnique(a.vars, 9);
      assert a.vars[9] in a.vars;
    }
    if a.arch == PPC && |a.regs| > 9 {
      AtUnique(a.regs, 9);
      assert a.regs[9] in a.regs;
    }
  }

  /** Only registers the machine has: X0 to X30, r0 to r31. */
  ghost predicate InFile(a: Alloc) {
    var last := if a.arch == AArch64 then 30 else 31;
    (forall v :: v in a.vars ==> Addr(a, v) <= last) && (forall r :: r in a.regs ==> Phys(a, r) <= last)
  }

  /** Code that assembles and keeps its registers apart: twenty-one registers is the
      further limit on AArch64, twelve variables on PPC. */
  lemma {:induction false} UsableIff(a: Alloc)
    requires NoDup(a.vars) && NoDup(a.regs)
    ensures ClashFree(a) && InFile(a)
        <==> if a.arch == AArch64 then |a.vars| <= 9 && |a.regs| <= 21 else |a.vars| <= 12 && |a.regs| <= 9
  {
    hide ClashFree;
    ClashFreeIff(a);
    if a.arch == AArch64 && |a.regs| > 21 {
      AtUnique(a.regs, 21);
      assert a.regs[21] in a.regs;
    }
    if a.arch == PPC && |a.vars| > 12 {
      AtUnique(a.vars, 12);
      assert a.vars[12] in a.vars;
    }
  }

  // ---- the code ------------------------------------------------------------------------------------------

  /** Labels of the program, and the two each PPC lock brings. */
  datatype Label = User(l: Name) | LOk(n: nat) | LFail(n: nat)

  datatype Fence = IshSt | IshLd | Ish | LwSync | HwSync | ISync

  datatype Instr =
    | MovI(d: nat, imm: int) | Str(s: nat, p: nat) | Ldr(d: nat, p: nat) | Bar(f: Fence) | Swpa(s: nat, d: nat, p: nat)
    | Stlr(p: nat)
    | Cbz(s: nat, l: Label) | Cbnz(s: nat, l: Label) | CmpI(s: nat, imm: int) | CmpR(s: nat, s2: nat) | Bne(l: Label)
    | Beq(l: Label) | B(l: Label)
    | Lwarx(d: nat, p: nat) | Stwcx(s: nat, p: nat) | Lbl(l: Label)

  /** Every variable and register of the op has a place. */
  ghost predicate Covers(a: Alloc, op: Op) {
    (forall v :: v in VarOf(op) ==> v in a.vars) && forall r :: r in DefOf(op) + UseOf(op) ==> r in a.regs
  }

  /** lines(): the instructions for one op; n is the number of locks before it. */
  ghost function Emit(a: Alloc, op: Op, n: nat): (c: seq<Instr>)
    requires Covers(a, op)
    ensures |c| > 0
  {
    var t := Temp(a);
    assert forall v :: v in VarOf(op) ==> v in a.vars;
    match a.arch
    case AArch64 =>
      (match op
       case St(v, imm) => [MovI(t, imm), Str(t, Addr(a, v))]
       case Ld(r, v) => [Ldr(Phys(a, r), Addr(a, v))]
       case Wmb => [Bar(IshSt)]
       case Rmb => [Bar(IshLd)]
       case Mb => [Bar(Ish)]
       case Lock(v, r) => [MovI(t, 1), Swpa(t, Phys(a, r), Addr(a, v))]
       case Unlock(v) => [Stlr(Addr(a, v))]
       case Brz(r, l) => [Cbz(Phys(a, r), User(l))]
       case Brnz(r, l) => [Cbnz(Phys(a, r), User(l))]
       case Brne(r, imm, l) => [CmpI(Phys(a, r), imm), Bne(User(l))]
       case BrneReg(r, r2, l) => [CmpR(Phys(a, r), Phys(a, r2)), Bne(User(l))]
       case Mark(l) => [Lbl(User(l))])
    case PPC =>
      (match op
       case St(v, imm) => [MovI(t, imm), Str(t, Addr(a, v))]
       case Ld(r, v) => [Ldr(Phys(a, r), Addr(a, v))]
       case Wmb => [Bar(LwSync)]
       case Rmb => [Bar(LwSync)]
       case Mb => [Bar(HwSync)]
       case Lock(v, r) =>
         [MovI(t, 1), Lwarx(Phys(a, r), Addr(a, v)), CmpI(Phys(a, r), 0), Bne(LFail(n)), Stwcx(t, Addr(a, v)),
             Bne(LFail(n)),
                           Bar(ISync), B(LOk(n)), Lbl(LFail(n)), MovI(Phys(a, r), 1), Lbl(LOk(n))]
       case Unlock(v) => [Bar(LwSync), MovI(t, 0), Str(t, Addr(a, v))]
       case Brz(r, l) => [CmpI(Phys(a, r), 0), Beq(User(l))]
       case Brnz(r, l) => [CmpI(Phys(a, r), 0), Bne(User(l))]
       case Brne(r, imm, l) => [CmpI(Phys(a, r), imm), Bne(User(l))]
       case BrneReg(r, r2, l) => [CmpR(Phys(a, r), Phys(a, r2)), Bne(User(l))]
       case Mark(l) => [Lbl(User(l))])
  }

  ghost predicate Placed(a: Alloc, prog: seq<Op>) {
    forall i {:trigger prog[i]} :: 0 <= i < |prog| ==> Covers(a, prog[i])
  }

  /** The number of locks before op i. */
  ghost function Locks(prog: seq<Op>, i: nat): (n: nat)
    requires i <= |prog|
  {
    if i == 0 then 0 else Locks(prog, i - 1) + if prog[i - 1].Lock? then 1 else 0
  }

  /** The code of the first i ops. */
  ghost function Code(a: Alloc, prog: seq<Op>, i: nat): (c: seq<Instr>)
    requires Placed(a, prog) && i <= |prog|
  {
    if i == 0 then [] else Code(a, prog, i - 1) + Emit(a, prog[i - 1], Locks(prog, i - 1))
  }

  // ---- its semantics --------------------------------------------------------------------------------------

  datatype Val = Num(x: int) | Ptr(v: Var)

  /** eq is the condition flag. */
  datatype TState = TState(pc: nat, regs: map<nat, Val>, eq: bool)

  /** A load, a store, the two halves of an exclusive pair, a swap, a release store or a barrier. */
  datatype PEvent = PLoad(v: Var, x: int) | PStore(v: Var, x: int) | PLoadX(v: Var, x: int)
      | PStoreX(v: Var, x: int, ok: bool)
                  | PSwap(v: Var, x: int, y: int) | PRelease(v: Var, x: int) | PBar(f: Fence)

  function ValOf(t: TState, p: nat): (v: Val) { if p in t.regs then t.regs[p] else Num(0) }

  function NumOf(t: TState, p: nat): (x: int) { match ValOf(t, p) case Num(x) => x case Ptr(_) => 0 }

  function PtrOf(t: TState, p: nat): (v: Var) { match ValOf(t, p) case Num(_) => 0 case Ptr(v) => v }

  function FindT(code: seq<Instr>, l: Label): (i: nat)
    ensures i <= |code| && (i < |code| ==> code[i] == Lbl(l)) && forall j :: 0 <= j < i ==> code[j] != Lbl(l)
  {
    if code == [] || code[0] == Lbl(l) then 0 else
      assert forall j :: 0 <= j < |code| - 1 ==> code[1..][j] == code[j + 1];
      1 + FindT(code[1..], l)
  }

  /** One instruction; x is what a read returns, ok whether a store-conditional succeeds. */
  function StepT(code: seq<Instr>, t: TState, x: int, ok: bool): (z: (TState, seq<PEvent>))
    requires t.pc < |code|
  {
    var n := t.(pc := t.pc + 1);
    match code[t.pc]
    case MovI(d, imm) => (n.(regs := t.regs[d := Num(imm)]), [])
    case Str(s, p) => (n, [PStore(PtrOf(t, p), NumOf(t, s))])
    case Ldr(d, p) => (n.(regs := t.regs[d := Num(x)]), [PLoad(PtrOf(t, p), x)])
    case Bar(f) => (n, [PBar(f)])
    case Swpa(s, d, p) => (n.(regs := t.regs[d := Num(x)]), [PSwap(PtrOf(t, p), x, NumOf(t, s))])
    case Stlr(p) => (n, [PRelease(PtrOf(t, p), 0)])
    case Cbz(s, l) => (if NumOf(t, s) == 0 then t.(pc := FindT(code, l)) else n, [])
    case Cbnz(s, l) => (if NumOf(t, s) != 0 then t.(pc := FindT(code, l)) else n, [])
    case CmpI(s, imm) => (n.(eq := NumOf(t, s) == imm), [])
    case CmpR(s, s2) => (n.(eq := NumOf(t, s) == NumOf(t, s2)), [])
    case Bne(l) => (if !t.eq then t.(pc := FindT(code, l)) else n, [])
    case Beq(l) => (if t.eq then t.(pc := FindT(code, l)) else n, [])
    case B(l) => (t.(pc := FindT(code, l)), [])
    case Lwarx(d, p) => (n.(regs := t.regs[d := Num(x)]), [PLoadX(PtrOf(t, p), x)])
    case Stwcx(s, p) => (n.(eq := ok), [PStoreX(PtrOf(t, p), NumOf(t, s), ok)])
    case Lbl(_) => (n, [])
  }

  datatype In = In(x: int, ok: bool)

  function RunT(code: seq<Instr>, t: TState, ins: seq<In>): (z: (TState, seq<PEvent>))
    decreases |ins|
  {
    if ins == [] || t.pc >= |code| then (t, []) else
      var (t1, e1) := StepT(code, t, ins[0].x, ins[0].ok);
      var (t2, e2) := RunT(code, t1, ins[1..]);
      (t2, e1 + e2)
  }

  // ---- the barrier map ------------------------------------------------------------------------------------

  function MapEvent(arch: Arch, e: Event): (r: seq<PEvent>) {
    match arch
    case AArch64 =>
      (match e
       case EStore(v, x) => [PStore(v, x)]
       case ELoad(v, x) => [PLoad(v, x)]
       case EWmb => [PBar(IshSt)]
       case ERmb => [PBar(IshLd)]
       case EMb => [PBar(Ish)]
       case ELock(v, x) => [PSwap(v, x, 1)]
       case EUnlock(v) => [PRelease(v, 0)])
    case PPC =>
      (match e
       case EStore(v, x) => [PStore(v, x)]
       case ELoad(v, x) => [PLoad(v, x)]
       case EWmb => [PBar(LwSync)]
       case ERmb => [PBar(LwSync)]
       case EMb => [PBar(HwSync)]
       case ELock(v, x) => [PLoadX(v, x), PStoreX(v, 1, true), PBar(ISync)]
       case EUnlock(v) => [PBar(LwSync), PStore(v, 0)])
  }

  function MapTrace(arch: Arch, es: seq<Event>): (r: seq<PEvent>) {
    if es == [] then [] else MapEvent(arch, es[0]) + MapTrace(arch, es[1..])
  }

  /** Every lock taken was found free. */
  ghost predicate Free(es: seq<Event>) { forall i {:trigger es[i]} :: 0 <= i < |es| && es[i].ELock? ==> es[i].x == 0 }
}
