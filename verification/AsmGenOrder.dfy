/** What the barriers of the emitted code are worth: accesses that the thread program
    orders are ordered by the code, and no weaker fence of the machine would do. */
module AsmGenOrder {
  import opened AsmGen
  import opened AsmGenProof
  import opened AsmGenFilter

  datatype Kind = Read | Write

  // ---- the thread program ---------------------------------------------------------------------

  /** A lock is a read and a write. */
  ghost predicate Does(e: Event, k: Kind) {
    match k case Read => e.ELoad? || e.ELock? case Write => e.EStore? || e.ELock? || e.EUnlock?
  }

  /** smp_wmb() is between writes, smp_rmb() between reads, smp_mb() between any two. */
  ghost predicate Asks(e: Event, k: Kind, l: Kind) {
    e.EMb? || (e.EWmb? && k == Write && l == Write) || (e.ERmb? && k == Read && l == Read)
  }

  /** Access k of event i comes before access l of event j: a barrier is between them,
      or i acquires a lock, or j releases one. */
  ghost predicate Ordered(es: seq<Event>, i: nat, k: Kind, j: nat, l: Kind) {
    && i < j < |es| && Does(es[i], k) && Does(es[j], l)
    && ((exists m {:trigger es[m]} :: i < m < j && Asks(es[m], k, l)) || (es[i].ELock? && k == Read) || es[j].EUnlock?)
  }

  // ---- the code -----------------------------------------------------------------------------------

  ghost predicate PDoes(p: PEvent, k: Kind) {
    match k
    case Read => p.PLoad? || p.PLoadX? || p.PSwap?
    case Write => p.PStore? || (p.PStoreX? && p.ok) || p.PSwap? || p.PRelease?
  }

  /** The Arm DMB variants, and the Power barriers; isync by itself orders no accesses. */
  ghost predicate Gives(f: Fence, k: Kind, l: Kind) {
    match f
    case IshSt => k == Write && l == Write
    case IshLd => k == Read
    case Ish | HwSync => true
    case LwSync => !(k == Write && l == Read)
    case ISync => false
  }

  /** Access k of event p comes before access l of event q: by a fence between them, by
      the acquire of a swap, by a release store, or by an isync behind a load-reserve,
      whose value the code branches on before it. */
  ghost predicate POrdered(ps: seq<PEvent>, p: nat, k: Kind, q: nat, l: Kind) {
    && p < q < |ps| && PDoes(ps[p], k) && PDoes(ps[q], l)
    && (|| (exists m {:trigger ps[m]} :: p < m < q && ps[m].PBar? && Gives(ps[m].f, k, l))
        || (ps[p].PSwap? && k == Read) || ps[q].PRelease?
        || (ps[p].PLoadX? && exists m {:trigger ps[m]} :: p < m < q && ps[m] == PBar(ISync)))
  }

  // ---- one event -------------------------------------------------------------------------------------

  /** An event does what its instructions do. */
  lemma {:induction false} KindsKept(arch: Arch, e: Event, k: Kind)
    ensures Does(e, k) <==> exists n {:trigger MapEvent(arch, e)[n]} ::
        0 <= n < |MapEvent(arch, e)| && PDoes(MapEvent(arch, e)[n], k)
  {
    var r := MapEvent(arch, e);
    if Does(e, k) {
      if e.ELock? && arch == PPC {
        if k == Read { assert PDoes(r[0], k); } else { assert PDoes(r[1], k); }
      } else if e.EUnlock? && arch == PPC {
        assert PDoes(r[1], k);
      } else {
        assert PDoes(r[0], k);
      }
    }
  }

  /** A barrier's fence gives what the barrier asks. */
  lemma {:induction false} FenceGives(arch: Arch, e: Event, k: Kind, l: Kind)
    requires Asks(e, k, l)
    ensures |MapEvent(arch, e)| == 1 && MapEvent(arch, e)[0].PBar? && Gives(MapEvent(arch, e)[0].f, k, l)
  {
  }

  ghost predicate OfArch(arch: Arch, f: Fence) {
    match arch case AArch64 => f == IshSt || f == IshLd || f == Ish case PPC => f == LwSync || f == HwSync || f == ISync
  }

  /** And every fence of the machine that gives it gives at least as much. */
  lemma {:induction false} FenceWeakest(arch: Arch, e: Event, f: Fence, k: Kind, l: Kind)
    requires e.EWmb? || e.ERmb? || e.EMb?
    requires OfArch(arch, f) && forall a: Kind, b: Kind :: Asks(e, a, b) ==> Gives(f, a, b)
    ensures |MapEvent(arch, e)| == 1 && MapEvent(arch, e)[0].PBar? && OfArch(arch, MapEvent(arch, e)[0].f)
    ensures Gives(MapEvent(arch, e)[0].f, k, l) ==> Gives(f, k, l)
  {
    assert Asks(e, Write, Write) ==> Gives(f, Write, Write);
    assert Asks(e, Write, Read) ==> Gives(f, Write, Read);
    assert Asks(e, Read, Read) ==> Gives(f, Read, Read);
  }

  // ---- where an event ends up --------------------------------------------------------------------------

  ghost function Start(arch: Arch, es: seq<Event>, i: nat): (p: nat)
    requires i <= |es|
  {
    |MapTrace(arch, es[..i])|
  }

  lemma {:induction false} BlockAt(arch: Arch, es: seq<Event>, i: nat)
    requires i < |es|
    ensures Start(arch, es, i + 1) == Start(arch, es, i) + |MapEvent(arch, es[i])| <= |MapTrace(arch, es)|
    ensures forall n {:trigger MapEvent(arch, es[i])[n]} :: 0 <= n < |MapEvent(arch, es[i])| ==>
        MapTrace(arch, es)[Start(arch, es, i) + n] == MapEvent(arch, es[i])[n]
  {
    hide MapEvent;
    MapOne(arch, es[i]);
    assert es[..i + 1] == es[..i] + [es[i]];
    assert es == es[..i + 1] + es[i + 1..];
    MapCat(arch, es[..i], [es[i]]);
    MapCat(arch, es[..i + 1], es[i + 1..]);
    hide MapTrace;
  }

  lemma {:induction false} StartsLater(arch: Arch, es: seq<Event>, i: nat, j: nat)
    requires i <= j <= |es|
    ensures Start(arch, es, i) <= Start(arch, es, j)
    decreases j
  {
    hide Start, MapTrace;
    if i < j {
      StartsLater(arch, es, i, j - 1);
      BlockAt(arch, es, j - 1);
    }
  }

  /** The piece n of event i at its position in the trace of the code. */
  ghost predicate PieceAt(arch: Arch, es: seq<Event>, i: nat, n: nat, p: nat) {
    i < |es| && n < |MapEvent(arch, es[i])| && p == Start(arch, es, i) + n
  }

  lemma {:induction false} PieceIs(arch: Arch, es: seq<Event>, i: nat, n: nat, p: nat)
    requires PieceAt(arch, es, i, n, p)
    ensures p < |MapTrace(arch, es)| && MapTrace(arch, es)[p] == MapEvent(arch, es[i])[n]
    ensures Start(arch, es, i) <= p < Start(arch, es, i + 1)
  {
    hide MapTrace, MapEvent;
    BlockAt(arch, es, i);
  }

  lemma {:induction false} PiecesInOrder(arch: Arch, es: seq<Event>, i: nat, n: nat, p: nat, j: nat, m: nat, q: nat)
    requires PieceAt(arch, es, i, n, p) && PieceAt(arch, es, j, m, q) && i < j
    ensures p < q
  {
    hide Start, MapTrace, MapEvent;
    PieceIs(arch, es, i, n, p);
    PieceIs(arch, es, j, m, q);
    StartsLater(arch, es, i + 1, j);
  }

  /** It does access k of the event. */
  ghost predicate AccessAt(arch: Arch, es: seq<Event>, i: nat, k: Kind, n: nat, p: nat) {
    PieceAt(arch, es, i, n, p) && PDoes(MapEvent(arch, es[i])[n], k)
  }

  // ---- the order is kept ---------------------------------------------------------------------------------

  /** Whatever instructions of events i and j do the accesses, they are ordered if the
      events were. */
  lemma {:induction false} OrderKept(arch: Arch, es: seq<Event>, i: nat, k: Kind, j: nat, l: Kind,
                                     n: nat, p: nat, m: nat, q: nat)
    requires Ordered(es, i, k, j, l) && AccessAt(arch, es, i, k, n, p) && AccessAt(arch, es, j, l, m, q)
    ensures POrdered(MapTrace(arch, es), p, k, q, l)
  {
    hide MapTrace, MapEvent, PieceAt, Asks, PDoes, Gives;
    PieceIs(arch, es, i, n, p);
    PieceIs(arch, es, j, m, q);
    PiecesInOrder(arch, es, i, n, p, j, m, q);
    if es[i].ELock? && k == Read { AcquireKept(arch, es, i, j, l, n, p, m, q); }
    else if es[j].EUnlock? { ReleaseKept(arch, es, i, k, j, l, n, p, m, q); }
    else {
      var h :| i < h < j && Asks(es[h], k, l);
      FenceGives(arch, es[h], k, l);
      var f := Piece(arch, es, h, 0);
      PiecesInOrder(arch, es, i, n, p, h, 0, f);
      PiecesInOrder(arch, es, h, 0, f, j, m, q);
      PieceIs(arch, es, h, 0, f);
    }
  }

  lemma {:induction false} Piece(arch: Arch, es: seq<Event>, i: nat, n: nat) returns (p: nat)
    requires i < |es| && n < |MapEvent(arch, es[i])|
    ensures PieceAt(arch, es, i, n, p)
  {
    p := Start(arch, es, i) + n;
  }

  lemma {:induction false} AcquireKept(arch: Arch, es: seq<Event>, i: nat, j: nat, l: Kind, n: nat, p: nat,
      m: nat, q: nat)
    requires i < j < |es| && es[i].ELock? && PieceAt(arch, es, i, n, p) && PieceAt(arch, es, j, m, q)
    requires PDoes(MapEvent(arch, es[i])[n], Read) && PDoes(MapEvent(arch, es[j])[m], l)
    ensures POrdered(MapTrace(arch, es), p, Read, q, l)
  {
    hide MapTrace, Start;
    PieceIs(arch, es, i, n, p);
    PieceIs(arch, es, j, m, q);
    PiecesInOrder(arch, es, i, n, p, j, m, q);
    if arch == PPC {
      var f := Piece(arch, es, i, 2);
      PieceIs(arch, es, i, 2, f);
      PiecesInOrder(arch, es, i, 2, f, j, m, q);
      Within(arch, es, i, n, p, 2, f);
    }
  }

  lemma {:induction false} Within(arch: Arch, es: seq<Event>, i: nat, n: nat, p: nat, m: nat, q: nat)
    requires PieceAt(arch, es, i, n, p) && PieceAt(arch, es, i, m, q)
    ensures p < q <==> n < m
  {
    hide MapTrace, MapEvent;
  }

  lemma {:induction false} ReleaseKept(arch: Arch, es: seq<Event>, i: nat, k: Kind, j: nat, l: Kind,
                                       n: nat, p: nat, m: nat, q: nat)
    requires i < j < |es| && es[j].EUnlock? && PieceAt(arch, es, i, n, p) && PieceAt(arch, es, j, m, q)
    requires PDoes(MapEvent(arch, es[i])[n], k) && PDoes(MapEvent(arch, es[j])[m], l)
    ensures POrdered(MapTrace(arch, es), p, k, q, l)
  {
    PieceIs(arch, es, i, n, p);
    PieceIs(arch, es, j, m, q);
    PiecesInOrder(arch, es, i, n, p, j, m, q);
    hide MapTrace, Start;
    if arch == PPC {
      var f := Piece(arch, es, j, 0);
      PieceIs(arch, es, j, 0, f);
      PiecesInOrder(arch, es, i, n, p, j, 0, f);
      Within(arch, es, j, 0, f, m, q);
    }
  }

  /** Whatever accesses the events es have ordered, ps has ordered. */
  ghost predicate OrdersAs(arch: Arch, es: seq<Event>, ps: seq<PEvent>) {
    forall i: nat, k: Kind, j: nat, l: Kind, n: nat, p: nat, m: nat, q: nat
        {:trigger Ordered(es, i, k, j, l), AccessAt(arch, es, i, k, n, p), AccessAt(arch, es, j, l, m, q)} ::
      Ordered(es, i, k, j, l) && AccessAt(arch, es, i, k, n, p) && AccessAt(arch, es, j, l, m, q) ==>
        POrdered(ps, p, k, q, l)
  }

  /** Every run of the code to its end that acquires its locks is a run of the thread
      program, with every order between accesses that the program asks for. */
  lemma {:induction false} CodeOrders(a: Alloc, prog: seq<Op>, ins: seq<In>) returns (xs: seq<int>)
    requires NoDup(a.vars) && NoDup(a.regs) && (if a.arch == AArch64 then |a.vars| <= 9 else |a.regs| <= 9)
    requires Placed(a, prog)
    requires RunT(Code(a, prog, |prog|), Boot(a), ins).0.pc >= |Code(a, prog, |prog|)|
    requires Good(RunT(Code(a, prog, |prog|), Boot(a), ins).1)
    ensures var (w, ps) := RunT(Code(a, prog, |prog|), Boot(a), ins); var (z, es) := RunS(prog, SState(0, map[]), xs);
      && z.pc == |prog| && RegsAgree(a, z.regs, w) && Free(es) && |ps| == Start(a.arch, es, |es|)
      && OrdersAs(a.arch, es, ps)
  {
    hide RegsAgree, RunS, RunT, Good, Free, Code, Ordered, POrdered, PDoes, MapEvent, PieceAt;
    xs := CodeSound(a, prog, ins);
    var es := RunS(prog, SState(0, map[]), xs).1;
    assert es[..|es|] == es;
    forall i: nat, k: Kind, j: nat, l: Kind, n: nat, p: nat, m: nat, q: nat
      | Ordered(es, i, k, j, l) && AccessAt(a.arch, es, i, k, n, p) && AccessAt(a.arch, es, j, l, m, q)
      ensures POrdered(MapTrace(a.arch, es), p, k, q, l)
    {
      OrderKept(a.arch, es, i, k, j, l, n, p, m, q);
    }
  }
}
