/** mnt_get_count() and mntput_unmounted() of the grace-period-on-demand protocol
    (kernel/work.mount.gp_on_demand.proposal/cbmc/mntput_harness.c), with the other
    tasks running between any two steps: holders that take and drop references, and
    RCU walkers whose transient gets may land in the middle of a sum. */
module MntBatch {
  import opened Finite

  // ---- the split counters --------------------------------------------------------------------------

  const WRAP: nat := 0x1_0000_0000

  /** References to one mount at any time, and gets of it during one sum, are fewer. */
  const LIMIT: nat := 0x4000_0000

  function SumTo(s: seq<nat>, n: nat): (r: nat)
    requires n <= |s|
  {
    if n == 0 then 0 else SumTo(s, n - 1) + s[n - 1]
  }

  function Total(s: seq<nat>): (r: nat) { SumTo(s, |s|) }

  /** The int an unsigned difference becomes. */
  function ToInt(x: int): (r: int)
    ensures -0x8000_0000 <= r < 0x8000_0000
    ensures (r - x) % WRAP == 0
    ensures -0x8000_0000 <= x < 0x8000_0000 ==> r == x
  {
    var y := x % WRAP;
    if y < 0x8000_0000 then y else y - WRAP
  }

  ghost predicate NoLess(a: seq<nat>, b: seq<nat>) { |a| == |b| && forall c :: 0 <= c < |a| ==> a[c] <= b[c] }

  lemma {:induction false} SumGrows(a: seq<nat>, b: seq<nat>, n: nat)
    requires NoLess(a, b) && n <= |a|
    ensures SumTo(a, n) <= SumTo(b, n)
    decreases n
  {
    if n > 0 { SumGrows(a, b, n - 1); }
  }

  lemma {:induction false} SumSame(a: seq<nat>, b: seq<nat>, n: nat)
    requires n <= |a| && n <= |b| && forall c :: 0 <= c < n ==> a[c] == b[c]
    ensures SumTo(a, n) == SumTo(b, n)
    decreases n
  {
    if n > 0 { SumSame(a, b, n - 1); }
  }

  lemma {:induction false} ModAdd(a: nat, b: nat)
    ensures (a % WRAP + b % WRAP) % WRAP == (a + b) % WRAP
  {
  }

  /** Unsigned arithmetic loses nothing that fits an int. */
  lemma {:induction false} Wraps(g: int, p: int, gets: nat, puts: nat)
    requires g == gets % WRAP && p == puts % WRAP && -0x8000_0000 <= gets - puts < 0x8000_0000
    ensures ToInt(g - p) == gets - puts
  {
    assert gets == g + WRAP * (gets / WRAP) && puts == p + WRAP * (puts / WRAP);
    var k := gets / WRAP - puts / WRAP;
    assert gets - puts == g - p + WRAP * k;
    var r := ToInt(g - p);
    assert (r - (g - p)) % WRAP == 0;
    var j := (r - (g - p)) / WRAP;
    assert r == g - p + WRAP * j;
  }

  function Bump(s: seq<nat>, c: nat): (r: seq<nat>)
    requires c < |s|
  {
    s[c := s[c] + 1]
  }

  lemma {:induction false} TotalBump(s: seq<nat>, c: nat)
    requires c < |s|
    ensures Total(Bump(s, c)) == Total(s) + 1 && NoLess(s, Bump(s, c))
  {
    BumpTo(s, c, |s|);
  }

  lemma {:induction false} BumpTo(s: seq<nat>, c: nat, n: nat)
    requires c < |s| && n <= |s|
    ensures SumTo(Bump(s, c), n) == SumTo(s, n) + Bit(c < n)
    decreases n
  {
    if n > 0 { BumpTo(s, c, n - 1); }
  }

  lemma {:induction false} TotalGrows(a: seq<nat>, b: seq<nat>)
    requires NoLess(a, b)
    ensures Total(a) <= Total(b)
  {
    SumGrows(a, b, |a|);
  }

  lemma {:induction false} TotalPush(a: seq<nat>, x: nat)
    ensures Total(a + [x]) == Total(a) + x
  {
    SumSame(a, a + [x], |a|);
  }

  // ---- one mount ------------------------------------------------------------------------------------------

  /** A mount: the gets and puts of every CPU, its own reference, the references of
      holders, the transient ones of walkers, whether it is doomed, how often its
      cleanup was queued, the lists it is on.  A counter word is its counter modulo
      WRAP. */
  datatype Rec = Rec(gets: seq<nat>, puts: seq<nat>, own: bool, refs: nat, trans: nat, doomed: bool, queued: nat,
      on: bool, held: bool)

  function Refs(r: Rec): (n: nat) { Bit(r.own) + r.refs + r.trans }

  /** The counters are the ledger of the references; only walkers passing by may still
      hold one once the mount is doomed. */
  ghost predicate RecOK(r: Rec) {
    && |r.gets| == |r.puts| > 0 && Total(r.gets) - Total(r.puts) == Refs(r) < LIMIT
    && (r.doomed ==> !r.own && r.refs == 0)
  }

  /** Nobody forgot to finish it off. */
  ghost predicate Settled(r: Rec) { Refs(r) == 0 ==> r.doomed }

  /** Nobody but the umounter holds anything. */
  ghost predicate Idle(r: Rec) { r.refs == 0 && r.trans == 0 }

  /** A holder's get; a walker's; a holder's put that saw the namespace; one that did
      not; a walker that finds the sequence count changed. */
  datatype Move = MGet | MEnter | MFast | MSlow | MResolve

  /** What another task can do to a mount nobody can look up any more, on CPU c.  The
      slow put and the walker's second look need mount_lock; the fast put relies on
      the own reference and, like a walker's get, has ended with the grace period.
      A last slow put finishes the mount off, except that it may count a walker. */
  function Other(locked: bool, graced: bool, r: Rec, move: Move, c: nat, missed: bool): (b: Rec)
    requires c < |r.gets| && c < |r.puts|
  {
    match move
    case MGet => if r.refs > 0 then r.(gets := Bump(r.gets, c), refs := r.refs + 1) else r
    case MEnter => if !graced then r.(gets := Bump(r.gets, c), trans := r.trans + 1) else r
    case MFast => if !graced && r.own && r.refs > 0 then r.(puts := Bump(r.puts, c), refs := r.refs - 1) else r
    case MSlow =>
      if !locked && r.refs > 0 then
        var last := !r.own && r.refs == 1 && (r.trans == 0 || missed);
        r.(puts := Bump(r.puts, c), refs := r.refs - 1, doomed := r.doomed || last, queued := r.queued + Bit(last))
      else r
    case MResolve =>
      if !locked && r.trans > 0 then
        if r.doomed then r.(puts := Bump(r.puts, c), trans := r.trans - 1)
        else r.(trans := r.trans - 1, refs := r.refs + 1)
      else r
  }

  /** What any number of those add up to, ... */
  ghost predicate Mild(a: Rec, b: Rec) {
    && RecOK(a) && RecOK(b) && b.own == a.own && b.on == a.on && b.held == a.held
    && (a.doomed ==> b.doomed) && b.queued == a.queued + Bit(b.doomed && !a.doomed) && (Settled(a) ==> Settled(b))
  }

  /** ... with the counters, and what mount_lock and a past grace period exclude. */
  ghost predicate Rely(locked: bool, graced: bool, a: Rec, b: Rec) {
    && Mild(a, b) && NoLess(a.gets, b.gets) && NoLess(a.puts, b.puts)
    && (locked ==> b.doomed == a.doomed && (a.refs == 0 ==> b.refs == 0))
    && (graced ==> (a.trans == 0 ==> b.trans == 0) && (Idle(a) ==> b == a) && (locked ==> a.refs <= b.refs))
  }

  lemma {:induction false} RelyRefl(locked: bool, graced: bool, a: Rec)
    requires RecOK(a)
    ensures Rely(locked, graced, a, a)
  {
  }

  lemma {:induction false} MildTrans(a: Rec, b: Rec, c: Rec)
    requires Mild(a, b) && Mild(b, c)
    ensures Mild(a, c)
  {
    hide RecOK, Settled;
  }

  lemma {:induction false} NoLessTrans(a: seq<nat>, b: seq<nat>, c: seq<nat>)
    requires NoLess(a, b) && NoLess(b, c)
    ensures NoLess(a, c)
  {
  }

  lemma {:induction false} RelyTrans(locked: bool, graced: bool, a: Rec, b: Rec, c: Rec)
    requires Rely(locked, graced, a, b) && Rely(locked, graced, b, c)
    ensures Rely(locked, graced, a, c)
  {
    hide RecOK, Settled, NoLess, Mild;
    MildTrans(a, b, c);
    NoLessTrans(a.gets, b.gets, c.gets);
    NoLessTrans(a.puts, b.puts, c.puts);
  }

  /** One move, as long as there are not too many references; and nothing happens to an
      idle mount that leaves it idle. */
  lemma {:induction false} OtherRelies(locked: bool, graced: bool, r: Rec, move: Move, c: nat, missed: bool)
    requires RecOK(r) && c < |r.gets|
    ensures var b := Other(locked, graced, r, move, c, missed);
      && (Refs(b) < LIMIT ==> Rely(locked, graced, r, b)) && (Idle(r) && Idle(b) ==> b == r)
      && Total(b.gets) <= Total(r.gets) + 1
  {
    hide Total, NoLess;
    TotalBump(r.gets, c);
    TotalBump(r.puts, c);
    NoLessRefl(r.gets);
    NoLessRefl(r.puts);
  }

  lemma {:induction false} NoLessRefl(a: seq<nat>)
    ensures NoLess(a, a)
  {
  }

  /** The umounter drops the own reference on CPU c. */
  lemma {:induction false} OwnDropped(r: Rec, c: nat)
    requires RecOK(r) && r.own && c < |r.puts|
    ensures RecOK(r.(puts := Bump(r.puts, c), own := false))
    ensures r.refs == 0 ==> RecOK(r.(puts := Bump(r.puts, c), own := false, doomed := true))
  {
    hide Total;
    TotalBump(r.puts, c);
  }

  // ---- all of them, over time ----------------------------------------------------------------------------------

  /** Mount i is idle at every instant of past from one to another. */
  ghost predicate IdleIn(past: seq<seq<Rec>>, from: nat, i: nat) {
    forall k {:trigger past[k]} :: from <= k < |past| && i < |past[k]| ==> Idle(past[k][i])
  }

  /** At some instant of past, from one on, somebody held mount i or was passing by. */
  ghost predicate Seen(past: seq<seq<Rec>>, from: nat, i: nat) {
    exists k {:trigger past[k]} :: from <= k < |past| && i < |past[k]| && !Idle(past[k][i])
  }

  ghost predicate AllOK(s: seq<Rec>) { forall i {:trigger s[i]} :: 0 <= i < |s| ==> RecOK(s[i]) }

  ghost predicate AllRely(locked: bool, graced: bool, a: seq<Rec>, b: seq<Rec>) {
    |a| == |b| && forall i {:trigger b[i]} :: 0 <= i < |b| ==> Rely(locked, graced, a[i], b[i])
  }

  /** Only other tasks ran while the instants grew from p to q and the mounts went from
      a to b. */
  ghost predicate Ran(locked: bool, graced: bool, p: seq<seq<Rec>>, q: seq<seq<Rec>>, a: seq<Rec>, b: seq<Rec>) {
    && 0 < |p| <= |q| && q[..|p|] == p && AllRely(locked, graced, a, b)
    && forall i {:trigger b[i]} :: 0 <= i < |b| && IdleIn(q, |p| - 1, i) ==> b[i] == a[i]
  }

  lemma {:induction false} RanRefl(locked: bool, graced: bool, p: seq<seq<Rec>>, a: seq<Rec>)
    requires p != [] && AllOK(a)
    ensures Ran(locked, graced, p, p, a, a)
  {
    hide Rely;
    forall i | 0 <= i < |a| ensures Rely(locked, graced, a[i], a[i]) { RelyRefl(locked, graced, a[i]); }
  }

  lemma {:induction false} IdleBefore(p: seq<seq<Rec>>, q: seq<seq<Rec>>, from: nat, later: nat, i: nat)
    requires |p| <= |q| && q[..|p|] == p && IdleIn(q, from, i) && from <= later
    ensures IdleIn(p, from, i) && IdleIn(q, later, i)
  {
    forall k | from <= k < |p| && i < |p[k]| ensures Idle(p[k][i]) { assert q[..|p|][k] == q[k]; }
  }

  lemma {:induction false} RanTrans(locked: bool, graced: bool, p: seq<seq<Rec>>, q: seq<seq<Rec>>,
      r: seq<seq<Rec>>, a: seq<Rec>, b: seq<Rec>, c: seq<Rec>)
    requires Ran(locked, graced, p, q, a, b) && Ran(locked, graced, q, r, b, c)
    ensures Ran(locked, graced, p, r, a, c)
  {
    hide Rely, IdleIn;
    assert r[..|p|] == r[..|q|][..|p|];
    forall i | 0 <= i < |c| ensures Rely(locked, graced, a[i], c[i]) && (IdleIn(r, |p| - 1, i) ==> c[i] == a[i]) {
      assert Rely(locked, graced, b[i], c[i]);
      RelyTrans(locked, graced, a[i], b[i], c[i]);
      if IdleIn(r, |p| - 1, i) { IdleBefore(q, r, |p| - 1, |q| - 1, i); }
    }
  }

  lemma {:induction false} RanOne(locked: bool, graced: bool, p: seq<seq<Rec>>, a: seq<Rec>, j: nat, r: Rec)
    requires p != [] && p[|p| - 1] == a && AllOK(a) && j < |a| && Rely(locked, graced, a[j], r)
    requires Idle(a[j]) && Idle(r) ==> r == a[j]
    ensures Ran(locked, graced, p, p + [a[j := r]], a, a[j := r])
  {
    hide Rely, Idle, RecOK;
    var b := a[j := r];
    var q := p + [b];
    forall i | 0 <= i < |b| ensures Rely(locked, graced, a[i], b[i]) && (IdleIn(q, |p| - 1, i) ==> b[i] == a[i]) {
      if i != j { RelyRefl(locked, graced, a[i]); }
      assert q[|p| - 1] == a && q[|p|] == b;
    }
  }

  lemma {:induction false} RanAt(locked: bool, graced: bool, p: seq<seq<Rec>>, q: seq<seq<Rec>>, a: seq<Rec>,
      b: seq<Rec>, i: nat)
    requires Ran(locked, graced, p, q, a, b) && i < |b|
    ensures |a| == |b| && Rely(locked, graced, a[i], b[i]) && (IdleIn(q, |p| - 1, i) ==> b[i] == a[i])
  {
    hide Rely, IdleIn;
  }

  ghost predicate NoWalkers(s: seq<Rec>) { forall i {:trigger s[i]} :: 0 <= i < |s| ==> s[i].trans == 0 }

  /** At every instant every mount's counters are its ledger, and it is doomed only
      when no reference but walkers' is left. */
  ghost predicate HistoryOK(past: seq<seq<Rec>>, n: nat) {
    forall k {:trigger past[k]} :: 0 <= k < |past| ==> |past[k]| == n && AllOK(past[k])
  }

  lemma {:induction false} HistoryPush(past: seq<seq<Rec>>, n: nat, j: nat, r: Rec)
    requires past != [] && HistoryOK(past, n) && j < n && RecOK(r)
    ensures HistoryOK(past + [past[|past| - 1][j := r]], n)
  {
    hide RecOK;
    assert AllOK(past[|past| - 1]);
  }

  /** What has been read of one counter, against then and now. */
  ghost predicate Partly(a: seq<nat>, read: seq<nat>, b: seq<nat>) {
    |read| <= |a| == |b| && forall c :: 0 <= c < |read| ==> a[c] <= read[c] <= b[c]
  }

  lemma {:induction false} ReadOne(a: seq<nat>, read: seq<nat>, b: seq<nat>, d: seq<nat>, p: int)
    requires Partly(a, read, b) && NoLess(b, d) && NoLess(a, d) && |read| < |a| && p == Total(read) % WRAP
    ensures Partly(a, read + [d[|read|]], d) && (p + d[|read|] % WRAP) % WRAP == Total(read + [d[|read|]]) % WRAP
  {
    hide Total;
    TotalPush(read, d[|read|]);
    ModAdd(Total(read), d[|read|]);
  }

  /** The arithmetic of the split sum: a before, b between the passes, c after. */
  lemma {:induction false} SumBounds(a: Rec, b: Rec, c: Rec, puts: seq<nat>, gets: seq<nat>, p: int, g: int)
    requires RecOK(a) && RecOK(b) && RecOK(c) && NoLess(a.puts, puts) && NoLess(puts, b.puts) && NoLess(b.gets, gets)
    requires NoLess(gets, c.gets)
    requires NoLess(a.gets, b.gets) && NoLess(b.puts, c.puts) && Total(c.gets) <= Total(a.gets) + LIMIT
    requires p == Total(puts) % WRAP && g == Total(gets) % WRAP
    ensures ToInt(g - p) >= Refs(b) && (c == a ==> ToInt(g - p) == Refs(c))
  {
    hide Total, ToInt;
    TotalGrows(a.puts, puts);
    TotalGrows(puts, b.puts);
    TotalGrows(b.gets, gets);
    TotalGrows(gets, c.gets);
    TotalGrows(a.gets, b.gets);
    TotalGrows(b.puts, c.puts);
    Wraps(g, p, Total(gets), Total(puts));
  }

  // ---- a batch of unmounted mounts ---------------------------------------------------------------------

  lemma {:induction false} LastOK(past: seq<seq<Rec>>, n: nat)
    requires past != [] && HistoryOK(past, n)
    ensures |past[|past| - 1]| == n && AllOK(past[|past| - 1])
  {
    hide RecOK;
  }

  lemma {:induction false} SameCpus(r: Rec)
    requires RecOK(r)
    ensures |r.gets| == |r.puts| > 0
  {
  }

  lemma {:induction false} NoTotal()
    ensures Total([]) == 0
  {
  }

  lemma {:induction false} RelyGives(locked: bool, graced: bool, a: Rec, b: Rec)
    requires Rely(locked, graced, a, b)
    ensures RecOK(a) && RecOK(b) && Mild(a, b) && NoLess(a.gets, b.gets) && NoLess(a.puts, b.puts)
    ensures graced && a.trans == 0 ==> b.trans == 0
  {
    hide RecOK, NoLess;
  }

  lemma {:induction false} RanGrows(locked: bool, graced: bool, p: seq<seq<Rec>>, q: seq<seq<Rec>>, a: seq<Rec>,
      b: seq<Rec>)
    requires Ran(locked, graced, p, q, a, b)
    ensures 0 < |p| <= |q| && forall k :: 0 <= k < |p| ==> q[k] == p[k]
  {
    forall k | 0 <= k < |p| ensures q[k] == p[k] { assert q[..|p|][k] == q[k]; }
  }

  /** What the putting task does, in order. */
  datatype Act = Doom | Queue | Put
  datatype Event = Do(act: Act, i: nat) | Grace

  /** The members of S on the list from position k on, last added first: hlist_add_head()'s
      traversal. */
  ghost function Down(ord: seq<nat>, S: set<nat>, k: nat): (r: seq<nat>)
    requires k <= |ord|
    decreases |ord| - k
  {
    if k == |ord| then [] else Down(ord, S, k + 1) + if ord[k] in S then [ord[k]] else []
  }

  /** ... first added first. */
  ghost function Up(ord: seq<nat>, S: set<nat>, k: nat): (r: seq<nat>)
    requires k <= |ord|
  {
    if k == 0 then [] else Up(ord, S, k - 1) + if ord[k - 1] in S then [ord[k - 1]] else []
  }

  ghost function Each(a: Act, s: seq<nat>): (r: seq<Event>) {
    if s == [] then [] else Each(a, s[..|s| - 1]) + [Do(a, s[|s| - 1])]
  }

  lemma {:induction false} Appends(a: Act, s: seq<nat>, i: nat)
    ensures Each(a, s + [i]) == Each(a, s) + [Do(a, i)]
  {
    var t := s + [i];
    assert t[..|t| - 1] == s;
  }

  lemma {:induction false} DownSame(ord: seq<nat>, S: set<nat>, T: set<nat>, k: nat)
    requires k <= |ord| && forall j :: k <= j < |ord| ==> (ord[j] in S <==> ord[j] in T)
    ensures Down(ord, S, k) == Down(ord, T, k)
    decreases |ord| - k
  {
    if k < |ord| { DownSame(ord, S, T, k + 1); }
  }

  /** The unheld ones F, the held ones H: dooms, cleanups, then one grace period before
      the puts, if there are any. */
  ghost function Script(ord: seq<nat>, F: set<nat>, H: set<nat>): (r: seq<Event>) {
    var fast := Down(ord, F, 0);
    Each(Doom, fast) + Each(Queue, fast) + if H == {} then [] else [Grace] + Each(Put, Up(ord, H, |ord|))
  }

  ghost predicate NoDup(s: seq<nat>) { forall i, j :: 0 <= i < j < |s| ==> s[i] != s[j] }

  class Batch {
    const m: array<Rec>
    var log: seq<Event>
    var locked: bool               // mount_lock is the umounter's
    var graced: bool               // a grace period has passed
    ghost var past: seq<seq<Rec>>  // the mounts at every instant so far, the present one included

    ghost predicate Valid()
      reads this, m
    {
      past != [] && past[|past| - 1] == m[..] && HistoryOK(past, m.Length) && (graced ==> NoWalkers(m[..]))
    }

    constructor (mounts: seq<Rec>)
      requires AllOK(mounts)
      ensures Valid() && fresh(m) && m[..] == mounts && log == [] && !locked && !graced && past == [mounts]
    {
      m := new Rec[|mounts|](i requires 0 <= i < |mounts| => mounts[i]);
      log, locked, graced, past := [], false, false, [mounts];
    }

    lemma {:induction false} NowOK(i: nat)
      requires Valid() && i < m.Length
      ensures RecOK(m[i]) && AllOK(m[..])
    {
      hide RecOK;
      assert AllOK(past[|past| - 1]) && past[|past| - 1][i] == m[i];
    }

    /** From one instant to the next. */
    method Set(i: nat, r: Rec)
      requires Valid() && i < m.Length && RecOK(r) && (graced ==> r.trans == 0)
      modifies m, this`past
      ensures Valid() && m[..] == old(m[..])[i := r] && past == old(past) + [m[..]] && Extends(old(past), past)
    {
      hide RecOK, HistoryOK;
      HistoryPush(past, m.Length, i, r);
      ghost var a := m[..];
      m[i] := r;
      assert m[..] == a[i := r];
      past := past + [m[..]];
    }

    /** Some other task does something, or not; mount i sees no more gets in all than
        lim. */
    method AnyOther(i: nat, lim: nat)
      requires Valid()
      modifies m, this`past
      ensures Valid() && Ran(locked, graced, old(past), past, old(m[..]), m[..])
      ensures i < m.Length && Total(old(m[i]).gets) <= lim ==> Total(m[i].gets) <= lim
    {
      hide RecOK, Rely, Ran, Total, Refs, Other, HistoryOK, Idle;
      var j: int, c: int, move: Move, missed: bool := *, *, *, *;
      if 0 <= j < m.Length {
        NowOK(j);
        SameCpus(m[j]);
        if 0 <= c < |m[j].gets| {
          var b := Other(locked, graced, m[j], move, c, missed);
          if Refs(b) < LIMIT && (j != i || Total(b.gets) <= lim) {
            OtherRelies(locked, graced, m[j], move, c, missed);
            RanOne(locked, graced, past, m[..], j, b);
            RelyGives(locked, graced, m[j], b);
            Set(j, b);
            return;
          }
        }
        RanRefl(locked, graced, past, m[..]);
      } else {
        assert AllOK(m[..]) by { LastOK(past, m.Length); }
        RanRefl(locked, graced, past, m[..]);
      }
    }

    /** Any other tasks do any number of things. */
    method Others(i: nat, lim: nat)
      requires Valid()
      modifies m, this`past
      ensures Valid() && Ran(locked, graced, old(past), past, old(m[..]), m[..])
      ensures i < m.Length && Total(old(m[i]).gets) <= lim ==> Total(m[i].gets) <= lim
    {
      hide RecOK, Rely, Ran, Total, HistoryOK;
      LastOK(past, m.Length);
      RanRefl(locked, graced, past, m[..]);
      var n: int := *;
      for k := 0 to if n < 0 then 0 else n
        invariant Valid() && Ran(locked, graced, old(past), past, old(m[..]), m[..])
        invariant i < m.Length && Total(old(m[i]).gets) <= lim ==> Total(m[i].gets) <= lim
      {
        ghost var p, b := past, m[..];
        AnyOther(i, lim);
        RanTrans(locked, graced, old(past), p, past, old(m[..]), b, m[..]);
      }
    }

    /** The pass over the puts of every CPU; read is what it found. */
    method SumPuts(i: nat, lim: nat) returns (p: int, ghost read: seq<nat>)
      requires Valid() && i < m.Length && Total(m[i].gets) <= lim
      modifies m, this`past
      ensures Valid() && Ran(locked, graced, old(past), past, old(m[..]), m[..]) && Total(m[i].gets) <= lim
      ensures NoLess(old(m[i]).puts, read) && NoLess(read, m[i].puts) && p == Total(read) % WRAP
    {
      hide RecOK, Rely, Ran, Total, HistoryOK;
      LastOK(past, m.Length);
      RanRefl(locked, graced, past, m[..]);
      var n := |m[i].puts|;
      p, read := 0, [];
      assert Total([]) == 0 by { NoTotal(); }
      for c := 0 to n
        invariant Valid() && Ran(locked, graced, old(past), past, old(m[..]), m[..]) && Total(m[i].gets) <= lim
        invariant |read| == c && Partly(old(m[i]).puts, read, m[i].puts) && p == Total(read) % WRAP
      {
        ghost var q, b := past, m[..];
        Others(i, lim);
        RanAt(locked, graced, q, past, b, m[..], i);
        RanTrans(locked, graced, old(past), q, past, old(m[..]), b, m[..]);
        RanAt(locked, graced, old(past), past, old(m[..]), m[..], i);
        RelyGives(locked, graced, b[i], m[i]);
        RelyGives(locked, graced, old(m[i]), m[i]);
        ReadOne(old(m[i]).puts, read, b[i].puts, m[i].puts, p);
        p := (p + m[i].puts[c] % WRAP) % WRAP;
        read := read + [m[i].puts[c]];
      }
    }

    /** ... and over the gets. */
    method SumGets(i: nat, lim: nat) returns (g: int, ghost read: seq<nat>)
      requires Valid() && i < m.Length && Total(m[i].gets) <= lim
      modifies m, this`past
      ensures Valid() && Ran(locked, graced, old(past), past, old(m[..]), m[..]) && Total(m[i].gets) <= lim
      ensures NoLess(old(m[i]).gets, read) && NoLess(read, m[i].gets) && g == Total(read) % WRAP
    {
      hide RecOK, Rely, Ran, Total, HistoryOK;
      LastOK(past, m.Length);
      RanRefl(locked, graced, past, m[..]);
      var n := |m[i].gets|;
      g, read := 0, [];
      assert Total([]) == 0 by { NoTotal(); }
      for c := 0 to n
        invariant Valid() && Ran(locked, graced, old(past), past, old(m[..]), m[..]) && Total(m[i].gets) <= lim
        invariant |read| == c && Partly(old(m[i]).gets, read, m[i].gets) && g == Total(read) % WRAP
      {
        ghost var q, b := past, m[..];
        Others(i, lim);
        RanAt(locked, graced, q, past, b, m[..], i);
        RanTrans(locked, graced, old(past), q, past, old(m[..]), b, m[..]);
        RanAt(locked, graced, old(past), past, old(m[..]), m[..], i);
        RelyGives(locked, graced, b[i], m[i]);
        RelyGives(locked, graced, old(m[i]), m[i]);
        ReadOne(old(m[i]).gets, read, b[i].gets, m[i].gets, g);
        g := (g + m[i].gets[c] % WRAP) % WRAP;
        read := read + [m[i].gets[c]];
      }
    }

    /** mnt_get_count(): puts first, then gets, with anything happening between two reads
        that the others can do.  At the instant k between the passes no more than count
        references existed; and if nothing happened to the mount, count is exact. */
    method GetCount(i: nat) returns (count: int, ghost k: nat)
      requires Valid() && i < m.Length
      modifies m, this`past
      ensures Valid() && Ran(locked, graced, old(past), past, old(m[..]), m[..])
      ensures |old(past)| - 1 <= k < |past| && i < |past[k]| && Rely(locked, graced, old(m[i]), past[k][i])
      ensures Rely(locked, graced, past[k][i], m[i])
      ensures count >= Refs(past[k][i])
      ensures m[i] == old(m[i]) ==> count == Refs(m[i])
    {
      hide RecOK, Rely, Ran, Total, ToInt, HistoryOK;
      var lim := Total(m[i].gets) + LIMIT;
      var p, g;
      ghost var puts, gets;
      p, puts := SumPuts(i, lim);
      k := |past| - 1;
      ghost var q, b := past, m[..];
      g, gets := SumGets(i, lim);
      count := ToInt(g - p);
      RanAt(locked, graced, old(past), q, old(m[..]), b, i);
      RanAt(locked, graced, q, past, b, m[..], i);
      RanGrows(locked, graced, old(past), q, old(m[..]), b);
      RanGrows(locked, graced, q, past, b, m[..]);
      RanTrans(locked, graced, old(past), q, past, old(m[..]), b, m[..]);
      RelyGives(locked, graced, old(m[i]), b[i]);
      RelyGives(locked, graced, b[i], m[i]);
      SumBounds(old(m[i]), b[i], m[i], puts, gets, p, g);
      assert past[k] == q[k];
    }

    /** mntput_unheld(): under mount_lock, a count of one is the mount's own reference.
        If it was one, nobody else had a reference at instant k of the sum, and no holder
        has one now; if not, somebody did at some instant of the sum, a walker passing
        by at least. */
    method Unheld(i: nat) returns (ok: bool, ghost k: nat)
      requires Valid() && locked && i < m.Length && m[i].own
      modifies m, this`past, this`log
      ensures Valid() && Extends(old(past), past) && AllBut(old(m[..]), m[..], i)
      ensures |old(past)| - 1 <= k < |past| && i < |past[k]|
      ensures ok ==> past[k][i].own && Idle(past[k][i]) && After1(old(m[i]), m[i], true, false)
      ensures ok ==> log == old(log) + [Do(Doom, i)]
      ensures !ok ==> Seen(past, |old(past)| - 1, i) && Mild(old(m[i]), m[i]) && log == old(log)
    {
      hide RecOK, Rely, Ran, HistoryOK, Mild, IdleIn, AllBut, Refs, After1;
      ghost var p, a := past, m[..];
      var count;
      count, k := GetCount(i);
      ghost var b := m[..];
      RanAt(locked, graced, p, past, a, b, i);
      RanMeans(locked, graced, p, past, a, b, i);
      IdleLast(past, |p| - 1, i);
      UnheldMeans(graced, a[i], past[k][i], m[i], count, IdleIn(past, |p| - 1, i));
      RelyGives(locked, graced, a[i], m[i]);
      ok := count == 1;
      if ok {
        var c: int := *;
        SameCpus(m[i]);
        if !(0 <= c < |m[i].puts|) { c := 0; }
        OwnDropped(m[i], c);
        FastAfter(a[i], m[i], c);
        ghost var q := past;
        NowOK(i);
        SetBut(b, i, m[i].(puts := Bump(m[i].puts, c), own := false, doomed := true));
        Set(i, m[i].(puts := Bump(m[i].puts, c), own := false, doomed := true));
        AllButTrans(a, b, m[..], i);
        ExtendsTrans(p, q, past);
        log := log + [Do(Doom, i)];
      } else {
        NotIdle(past, |p| - 1, i);
      }
    }

    /** Other tasks run for a while. */
    method Elsewhere()
      requires Valid()
      modifies m, this`past
      ensures Valid() && Extends(old(past), past) && AllMild(old(m[..]), m[..])
    {
      hide RecOK, Rely, Ran, HistoryOK, Mild, AllMild, AllBut;
      ghost var p, a := past, m[..];
      Others(m.Length, 0);
      RanMild(locked, graced, p, past, a, m[..]);
    }

    /** One mount of the first pass. */
    method FirstOne(i: nat) returns (ghost f: bool, ghost h: bool)
      requires Valid() && locked && i < m.Length && (m[i].on ==> m[i].own && !m[i].held)
      modifies m, this`past, this`log
      ensures Valid() && Extends(old(past), past) && !(f && h) && (f || h <==> old(m[i].on))
      ensures After1(old(m[i]), m[i], f, h) && AllBut(old(m[..]), m[..], i) && (h ==> Seen(past, |old(past)| - 1, i))
      ensures log == old(log) + if f then [Do(Doom, i)] else []
    {
      hide RecOK, HistoryOK, Mild, AllBut, AllMild, Extends, Seen, After1;
      ghost var p, a := past, m[..];
      Elsewhere();
      ghost var q, b := past, m[..];
      MildAt(a, b, i);
      f, h := false, false;
      MildBut(a, b, i);
      MildIsAfter1(a[i], b[i]);
      if m[i].on {
        var ok; ghost var k;
        ok, k := Unheld(i);
        ghost var r, c := past, m[..];
        AllButTrans(a, b, c, i);
        ExtendsTrans(p, q, r);
        if ok {
          After1First(a[i], b[i], c[i], true, false);
          f := true;
        } else {
          SeenLater(p, q, r, i);
          NowOK(i);
          HeldNowOK(a[i], b[i], c[i]);
          SetBut(c, i, c[i].(on := false, held := true));
          if graced { NoneWalks(m[..], i); }
          Set(i, m[i].(on := false, held := true));
          AllButTrans(a, c, m[..], i);
          ExtendsTrans(p, r, past);
          SeenMore(r, past, |p| - 1, i);
          h := true;
        }
      }
    }

    /** ... and how it fits the pass so far. */
    method FirstStep(ord: seq<nat>, k: nat, ghost a: seq<Rec>, ghost from: nat, ghost F: set<nat>, ghost H: set<nat>)
        returns (ghost G: set<nat>, ghost K: set<nat>)
      requires Valid() && locked && Listed(ord, a) && k < |ord| && Partial(a, F, H, ord[k + 1..])
      requires All1(a, m[..], F, H) && from < |past| && HeldSeen(past, from, H)
      modifies m, this`past, this`log
      ensures Valid() && Partial(a, G, K, ord[k..]) && All1(a, m[..], G, K) && Extends(old(past), past)
      ensures HeldSeen(past, from, K)
      ensures exists e: seq<Event> ::
        log == old(log) + e && Each(Doom, Down(ord, G, k)) == Each(Doom, Down(ord, F, k + 1)) + e
    {
      hide RecOK, After1, Each, Down, NoDup, All1, Partial, Listed, HistoryOK, AllBut, Extends, Seen, HeldSeen;
      ghost var c, p := m[..], past;
      NotYet(ord, k, a, F, H, c);
      ghost var f, h;
      f, h := FirstOne(ord[k]);
      OneMore(ord, k, a, F, H, f, h);
      FirstOn(ord, k, a, c, m[..], F, H, f, h);
      G, K := if f then F + {ord[k]} else F, if h then H + {ord[k]} else H;
      SeenOn(p, past, from, H, ord[k], h);
      assert log == old(log) + if f then [Do(Doom, ord[k])] else [];
    }

    /** The first pass, under mount_lock: finish off what nobody holds, move the rest to
        the held list. */
    method FirstPass(ord: seq<nat>) returns (ghost F: set<nat>, ghost H: set<nat>)
      requires Valid() && locked && Listed(ord, m[..])
      modifies m, this`past, this`log
      ensures Valid() && Split(old(m[..]), F, H) && log == old(log) + Each(Doom, Down(ord, F, 0))
      ensures All1(old(m[..]), m[..], F, H) && Extends(old(past), past) && HeldSeen(past, |old(past)| - 1, H)
    {
      F, H := {}, {};
      ghost var a, p := m[..], past;
      assert Each(Doom, []) == [];
      LastOK(past, m.Length);
      StartOf(a);
      assert HeldSeen(past, |p| - 1, {});
      hide RecOK, After1, Each, Down, NoDup, All1, Partial, HistoryOK, Extends, HeldSeen, Listed, Split;
      assert Extends(p, past) by { ExtendsRefl(p); }
      for k := |ord| downto 0
        invariant Valid() && log == old(log) + Each(Doom, Down(ord, F, k)) && Extends(p, past) && |p| <= |past|
        invariant Partial(a, F, H, ord[k..]) && All1(a, m[..], F, H) && HeldSeen(past, |p| - 1, H)
      {
        ghost var q := past;
        F, H := FirstStep(ord, k, a, |p| - 1, F, H);
        ExtendsTrans(p, q, past);
      }
      assert ord[0..] == ord;
      SplitAll(ord, a, F, H);
    }

    /** One mount of the second pass. */
    method QueueOne(i: nat)
      requires Valid() && i < m.Length && (m[i].on ==> m[i].doomed)
      modifies m, this`past, this`log
      ensures Valid() && Extends(old(past), past) && After2(old(m[i]), m[i], old(m[i].on))
      ensures AllBut(old(m[..]), m[..], i)
      ensures log == old(log) + if old(m[i].on) then [Do(Queue, i)] else []
    {
      hide RecOK, HistoryOK, Mild, AllBut, AllMild, Extends, After2;
      ghost var p, a := past, m[..];
      Elsewhere();
      ghost var q, b := past, m[..];
      MildAt(a, b, i);
      MildBut(a, b, i);
      MildIsAfter2(a[i], b[i]);
      if m[i].on {
        NowOK(i);
        QueuedOK(a[i], b[i]);
        SetBut(b, i, b[i].(on := false, queued := b[i].queued + 1));
        if graced { NoneWalks(m[..], i); }
        Set(i, m[i].(on := false, queued := m[i].queued + 1));
        AllButTrans(a, b, m[..], i);
        ExtendsTrans(p, q, past);
        log := log + [Do(Queue, i)];
      }
    }

    /** ... and how it fits the pass so far. */
    method QueueStep(ord: seq<nat>, k: nat, ghost a: seq<Rec>, ghost F: set<nat>)
      requires Valid() && NoDup(ord) && k < |ord| && ord[k] < |a| == m.Length && Ready2(a, F, ord)
      requires All2(a, m[..], F, ord[k + 1..])
      modifies m, this`past, this`log
      ensures Valid() && Extends(old(past), past) && All2(a, m[..], F, ord[k..])
      ensures log == old(log) + if ord[k] in F then [Do(Queue, ord[k])] else []
    {
      hide RecOK, After2, Each, Down, NoDup, All2, HistoryOK, Extends, AllBut;
      ghost var c := m[..];
      OnNow(a, c, F, ord, k);
      QueueOne(ord[k]);
      QueuesOn(a, c, m[..], F, ord, k);
    }

    /** The second pass: queue the cleanup of what the first finished off. */
    method QueuePass(ord: seq<nat>, ghost F: set<nat>)
      requires Valid() && NoDup(ord) && (forall k :: 0 <= k < |ord| ==> ord[k] < m.Length) && Ready2(m[..], F, ord)
      modifies m, this`past, this`log
      ensures Valid() && Extends(old(past), past) && log == old(log) + Each(Queue, Down(ord, F, 0))
      ensures All2(old(m[..]), m[..], F, ord)
    {
      ghost var a, p := m[..], past;
      assert Each(Queue, []) == [];
      LastOK(past, m.Length);
      Start2(a, F);
      hide RecOK, After2, Each, Down, NoDup, All2, HistoryOK, Extends, AllBut;
      assert Extends(p, past) by { ExtendsRefl(p); }
      for k := |ord| downto 0
        invariant Valid() && log == old(log) + Each(Queue, Down(ord, F, k)) && All2(a, m[..], F, ord[k..])
        invariant Extends(p, past)
      {
        ghost var q := past;
        QueueStep(ord, k, a, F);
        DownOne(ord, F, k);
        ExtendsTrans(p, q, past);
      }
      assert ord[0..] == ord;
    }

    /** hlist_empty(&held), negated. */
    method AnyHeld() returns (any: bool)
      ensures any <==> exists i {:trigger m[i]} :: 0 <= i < m.Length && m[i].held
    {
      any := false;
      for i := 0 to m.Length
        invariant any <==> exists j {:trigger m[j]} :: 0 <= j < i && m[j].held
      {
        any := any || m[i].held;
      }
    }

    /** A walker passing by mount i leaves, or gets its reference after all. */
    method WalkerLeaves(i: nat)
      requires Valid() && !locked && i < m.Length && m[i].trans > 0 && !graced
      modifies m, this`past
      ensures Valid() && Extends(old(past), past) && AllMild(old(m[..]), m[..]) && m[i].trans == old(m[i]).trans - 1
      ensures forall j :: 0 <= j < m.Length && j != i ==> m[j] == old(m[j])
    {
      hide RecOK, HistoryOK, Mild, AllMild, Extends, Refs, Rely, Ran, Idle;
      ghost var p, a := past, m[..];
      NowOK(i);
      SameCpus(m[i]);
      var b := Other(false, false, m[i], MResolve, 0, false);
      OtherRelies(false, false, m[i], MResolve, 0, false);
      LeavesFits(m[i]);
      RelyGives(false, false, m[i], b);
      RanOne(false, false, p, a, i, b);
      Set(i, b);
      RanMild(false, false, p, past, a, m[..]);
    }

    /** synchronize_rcu(): other tasks run, and whoever was inside a read-side section
        leaves it. */
    method GracePeriod()
      requires Valid() && !locked && !graced
      modifies m, this`past, this`graced
      ensures Valid() && graced && Extends(old(past), past) && AllMild(old(m[..]), m[..])
    {
      hide RecOK, HistoryOK, Mild, AllMild, Extends;
      ghost var p, a := past, m[..];
      Elsewhere();
      for i := 0 to m.Length
        invariant Valid() && Extends(p, past) && AllMild(a, m[..])
        invariant forall j :: 0 <= j < i ==> m[j].trans == 0
      {
        while m[i].trans > 0
          invariant Valid() && Extends(p, past) && AllMild(a, m[..])
          invariant forall j :: 0 <= j < i ==> m[j].trans == 0
          decreases m[i].trans
        {
          ghost var q, b := past, m[..];
          WalkerLeaves(i);
          AllMildTrans(a, b, m[..]);
          ExtendsTrans(p, q, past);
        }
      }
      assert NoWalkers(m[..]);
      graced := true;
    }

    /** mntput() after the grace period: the slow path drops the own reference under
        mount_lock and finishes the mount off if the count is zero, which is if and
        only if nobody else has a reference. */
    method Drop(i: nat)
      requires Valid() && graced && !locked && i < m.Length && m[i].own
      modifies m, this`past, this`log, this`locked
      ensures Valid() && !locked && Extends(old(past), past) && AllBut(old(m[..]), m[..], i)
      ensures log == old(log) + [Do(Put, i)]
      ensures Dropped(old(m[i]), m[i])
    {
      hide RecOK, HistoryOK, Mild, AllMild, AllBut, Extends, Rely, Ran, Dropped, Refs, Idle;
      ghost var p, a := past, m[..];
      locked := true;
      var c: int := *;
      NowOK(i);
      SameCpus(m[i]);
      if !(0 <= c < |m[i].puts|) { c := 0; }
      OwnDropped(m[i], c);
      NoneWalks(m[..], i);
      SetBut(a, i, a[i].(puts := Bump(a[i].puts, c), own := false));
      Set(i, m[i].(puts := Bump(m[i].puts, c), own := false));
      log := log + [Do(Put, i)];
      ghost var q, b := past, m[..];
      var count; ghost var k;
      count, k := GetCount(i);
      RanAt(true, true, q, past, b, m[..], i);
      RanMeans(true, true, q, past, b, m[..], i);
      AllButTrans(a, b, m[..], i);
      ExtendsTrans(p, q, past);
      DropMeans(a[i], b[i], past[k][i], m[i], c, count);
      if count == 0 && !m[i].doomed {
        ghost var r, d := past, m[..];
        NoneWalks(m[..], i);
        NowOK(i);
        SetBut(d, i, d[i].(doomed := true, queued := d[i].queued + 1));
        Set(i, m[i].(doomed := true, queued := m[i].queued + 1));
        AllButTrans(a, d, m[..], i);
        ExtendsTrans(p, r, past);
      }
      locked := false;
    }

    /** One mount after the grace period. */
    method PutOne(i: nat)
      requires Valid() && graced && !locked && i < m.Length && (m[i].held ==> m[i].own)
      modifies m, this`past, this`log, this`locked
      ensures Valid() && !locked && Extends(old(past), past) && After3(old(m[i]), m[i], old(m[i].held))
      ensures AllBut(old(m[..]), m[..], i)
      ensures log == old(log) + if old(m[i].held) then [Do(Put, i)] else []
    {
      hide RecOK, HistoryOK, Mild, AllBut, AllMild, Extends, After3, Dropped;
      ghost var p, a := past, m[..];
      Elsewhere();
      ghost var q, b := past, m[..];
      MildAt(a, b, i);
      MildBut(a, b, i);
      MildIsAfter3(a[i], b[i]);
      if m[i].held {
        NowOK(i);
        Unheld3(a[i], b[i]);
        NoneWalks(m[..], i);
        SetBut(b, i, b[i].(held := false));
        Set(i, m[i].(held := false));
        ghost var r, c := past, m[..];
        AllButTrans(a, b, c, i);
        ExtendsTrans(p, q, r);
        Drop(i);
        AllButTrans(a, c, m[..], i);
        ExtendsTrans(p, r, past);
        DroppedAfter3(a[i], b[i], m[i]);
      }
    }

    /** ... and how it fits the pass so far. */
    method PutStep(ord: seq<nat>, k: nat, ghost a: seq<Rec>, ghost H: set<nat>)
      requires Valid() && graced && !locked && NoDup(ord) && k < |ord| && ord[k] < |a| == m.Length && Ready3(a, H, ord)
      requires All3(a, m[..], H, ord[..k])
      modifies m, this`past, this`log, this`locked
      ensures Valid() && !locked && Extends(old(past), past) && All3(a, m[..], H, ord[..k + 1])
      ensures log == old(log) + if ord[k] in H then [Do(Put, ord[k])] else []
    {
      hide RecOK, After3, Each, Up, NoDup, All3, HistoryOK, Extends, AllBut, Ready3;
      ghost var c := m[..];
      HeldNow(a, c, H, ord, k);
      PutOne(ord[k]);
      PutsOn(a, c, m[..], H, ord, k);
    }

    /** The third pass, in the order the held list has. */
    method PutPass(ord: seq<nat>, ghost H: set<nat>)
      requires Valid() && graced && !locked && NoDup(ord) && (forall k :: 0 <= k < |ord| ==> ord[k] < m.Length)
      requires Ready3(m[..], H, ord)
      modifies m, this`past, this`log, this`locked
      ensures Valid() && !locked && Extends(old(past), past) && log == old(log) + Each(Put, Up(ord, H, |ord|))
      ensures All3(old(m[..]), m[..], H, ord)
    {
      ghost var a, p := m[..], past;
      assert Each(Put, []) == [];
      LastOK(past, m.Length);
      Start3(a, H);
      hide RecOK, After3, Each, Up, NoDup, All3, HistoryOK, Extends, AllBut;
      assert Extends(p, past) by { ExtendsRefl(p); }
      for k := 0 to |ord|
        invariant Valid() && !locked && log == old(log) + Each(Put, Up(ord, H, k)) && All3(a, m[..], H, ord[..k])
        invariant Extends(p, past)
      {
        ghost var q := past;
        PutStep(ord, k, a, H);
        UpOne(ord, H, k);
        ExtendsTrans(p, q, past);
      }
      assert ord[..|ord|] == ord;
    }

    /** mntput_unmounted() of the mounts on the list, inserted in the order ord: each
        drops its own reference exactly once; those the sum shows to be unheld are
        finished off at once and their cleanup is queued once; the others go after one
        grace period, each only because somebody had a reference to it at some instant
        of its sum, and there is no grace period without them.  At every instant every
        mount's counters are its ledger and a doomed mount has no reference left but
        walkers' transient ones. */
    method Unmounted(ord: seq<nat>) returns (ghost F: set<nat>, ghost H: set<nat>)
      requires Valid() && !locked && !graced && Listed(ord, m[..])
      modifies m, this`past, this`log, this`locked, this`graced
      ensures Valid() && !locked && Extends(old(past), past) && HistoryOK(past, m.Length)
      ensures Split(old(m[..]), F, H) && log == old(log) + Script(ord, F, H) && graced == (H != {})
      ensures forall i {:trigger m[i]} :: 0 <= i < m.Length ==> Final(old(m[i]), m[i], i in F, i in H)
      ensures HeldSeen(past, |old(past)| - 1, H)
    {
      hide After1, After2, After3, RecOK, Mild, Each, Down, Up, HistoryOK, Extends, HeldSeen, All1, All2;
      hide All3, AllMild, Split, Listed, NoDup;
      ghost var a, p := m[..], past;
      locked := true;
      F, H := FirstPass(ord);
      locked := false;
      ghost var b, q := m[..], past;
      Between1(ord, a, b, F, H);
      QueuePass(ord, F);
      ghost var c, r := m[..], past;
      ExtendsTrans(p, q, r);
      SeenAll(q, r, |p| - 1, H);
      var any := AnyHeld();
      Between2(ord, a, b, c, F, H);
      if !any {
        assert log == old(log) + (Each(Doom, Down(ord, F, 0)) + Each(Queue, Down(ord, F, 0)) + []);
        return;
      }
      log := log + [Grace];
      GracePeriod();
      ghost var d, t := m[..], past;
      ExtendsTrans(p, r, t);
      SeenAll(r, t, |p| - 1, H);
      Between3(c, d, H, ord);
      PutPass(ord, H);
      ExtendsTrans(p, t, past);
      SeenAll(t, past, |p| - 1, H);
      AllFinal(ord, a, b, c, d, m[..], F, H);
    }
  }

  // ---- growing the past ------------------------------------------------------------------------------------

  ghost predicate Extends(p: seq<seq<Rec>>, q: seq<seq<Rec>>) { |p| <= |q| && q[..|p|] == p }

  lemma {:induction false} ExtendsRefl(p: seq<seq<Rec>>)
    ensures Extends(p, p)
  {
  }

  lemma {:induction false} ExtendsTrans(p: seq<seq<Rec>>, q: seq<seq<Rec>>, r: seq<seq<Rec>>)
    requires Extends(p, q) && Extends(q, r)
    ensures Extends(p, r) && |p| <= |r|
  {
    assert r[..|p|] == r[..|q|][..|p|];
  }

  lemma {:induction false} SeenMore(p: seq<seq<Rec>>, q: seq<seq<Rec>>, from: nat, i: nat)
    requires Seen(p, from, i) && Extends(p, q)
    ensures Seen(q, from, i)
  {
    hide Idle;
    var k :| from <= k < |p| && i < |p[k]| && !Idle(p[k][i]);
    assert q[..|p|][k] == q[k];
  }

  /** Seen since q is seen since p. */
  lemma {:induction false} SeenLater(p: seq<seq<Rec>>, q: seq<seq<Rec>>, r: seq<seq<Rec>>, i: nat)
    requires 0 < |p| && Extends(p, q) && Seen(r, |q| - 1, i)
    ensures Seen(r, |p| - 1, i)
  {
    hide Idle;
    var k :| |q| - 1 <= k < |r| && i < |r[k]| && !Idle(r[k][i]);
  }

  ghost predicate HeldSeen(past: seq<seq<Rec>>, from: nat, H: set<nat>) {
    forall i {:trigger i in H} :: i in H ==> Seen(past, from, i)
  }

  lemma {:induction false} SeenAll(p: seq<seq<Rec>>, q: seq<seq<Rec>>, from: nat, H: set<nat>)
    requires HeldSeen(p, from, H) && Extends(p, q)
    ensures HeldSeen(q, from, H)
  {
    hide Seen, Extends;
    forall i | i in H ensures Seen(q, from, i) { SeenMore(p, q, from, i); }
  }

  lemma {:induction false} SeenOn(p: seq<seq<Rec>>, q: seq<seq<Rec>>, from: nat, H: set<nat>, i: nat, h: bool)
    requires HeldSeen(p, from, H) && Extends(p, q) && from < |p| && (h ==> Seen(q, |p| - 1, i))
    ensures HeldSeen(q, from, if h then H + {i} else H)
  {
    SeenAll(p, q, from, H);
  }

  lemma {:induction false} NotIdle(past: seq<seq<Rec>>, from: nat, i: nat)
    requires !IdleIn(past, from, i)
    ensures Seen(past, from, i)
  {
  }

  lemma {:induction false} IdleLast(past: seq<seq<Rec>>, from: nat, i: nat)
    requires past != [] && from < |past| && i < |past[|past| - 1]|
    ensures IdleIn(past, from, i) ==> Idle(past[|past| - 1][i])
  {
    hide Idle;
  }

  // ---- what the sums decide --------------------------------------------------------------------------------

  /** a before the sum, x between its passes, b after. */
  lemma {:induction false} UnheldMeans(graced: bool, a: Rec, x: Rec, b: Rec, count: int, idle: bool)
    requires Rely(true, graced, a, x) && Rely(true, graced, x, b) && a.own && count >= Refs(x)
    requires (b == a ==> count == Refs(b)) && (idle ==> b == a && Idle(b))
    ensures count != 1 ==> !idle
    ensures count == 1 ==> x.own && Idle(x) && b.own && b.refs == 0 && RecOK(b)
    ensures Mild(a, b)
  {
    hide RecOK, NoLess;
    MildTrans(a, x, b);
  }

  lemma {:induction false} FastAfter(a: Rec, b: Rec, c: nat)
    requires Mild(a, b) && a.own && c < |b.puts|
    requires b.refs == 0 ==> RecOK(b.(puts := Bump(b.puts, c), own := false, doomed := true))
    ensures b.refs == 0 ==> After1(a, b.(puts := Bump(b.puts, c), own := false, doomed := true), true, false)
  {
    OwnedLives(a);
    OwnedLives(b);
    hide RecOK;
  }

  lemma {:induction false} OwnedLives(a: Rec)
    requires RecOK(a)
    ensures a.own ==> !a.doomed
  {
  }

  /** The own reference of a is dropped, giving b; x is between the passes, d after. */
  lemma {:induction false} DropMeans(a: Rec, b: Rec, x: Rec, d: Rec, c: nat, count: int)
    requires RecOK(a) && a.own && c < |a.puts| && b == a.(puts := Bump(a.puts, c), own := false) && b.trans == 0
    requires Rely(true, true, b, x) && Rely(true, true, x, d) && count >= Refs(x) && (d == b ==> count == Refs(d))
    ensures count >= 0 && (count == 0 <==> d.refs == 0) && !d.doomed && d.trans == 0 && RecOK(d)
    ensures count == 0
        ==> RecOK(d.(doomed := true, queued := d.queued + 1)) && Dropped(a, d.(doomed := true, queued := d.queued + 1))
    ensures count != 0 ==> Dropped(a, d)
  {
    OwnedLives(a);
    DoomedOK(d);
    hide RecOK, NoLess, Settled;
    if b.refs == 0 { assert Idle(b) && Idle(x); }
    SettledIf(d);
    SettledIf(d.(doomed := true, queued := d.queued + 1));
  }

  lemma {:induction false} SettledIf(d: Rec)
    ensures Settled(d) <==> (d.own || d.refs > 0 || d.trans > 0 || d.doomed)
  {
  }

  lemma {:induction false} DoomedOK(d: Rec)
    ensures RecOK(d) && !d.own && d.refs == 0 ==> RecOK(d.(doomed := true, queued := d.queued + 1))
  {
  }

  lemma {:induction false} LeavesFits(r: Rec)
    requires RecOK(r) && r.trans > 0
    ensures |r.gets| > 0 && |r.puts| > 0
    ensures var b := Other(false, false, r, MResolve, 0, false);
            Refs(b) < LIMIT && b.trans == r.trans - 1 && (Idle(r) && Idle(b) ==> b == r)
  {
    hide Total;
  }

  // ---- a mount before and after each pass --------------------------------------------------------------------

  /** The first pass finished it off, or moved it to the held list, or let it be. */
  ghost predicate After1(a: Rec, b: Rec, fast: bool, held: bool) {
    if fast then RecOK(a) && RecOK(b) && a.own && b.doomed && b.on == a.on && b.held == a.held && b.queued == a.queued
    else if held then RecOK(a) && RecOK(b) && a.own && b.own && !b.on && b.held && b.queued == a.queued
    else Mild(a, b)
  }

  ghost predicate After2(a: Rec, b: Rec, q: bool) {
    if q then RecOK(a) && RecOK(b) && a.doomed && b.doomed && !b.on && b.held == a.held && b.queued == a.queued + 1
    else Mild(a, b)
  }

  /** The third pass: the own reference is gone, and the cleanup was queued if, and as
      soon as, nobody was left. */
  ghost predicate After3(a: Rec, b: Rec, q: bool) {
    if q
    then RecOK(a) && RecOK(b) && a.own && !b.own && !b.held && b.on == a.on && Settled(b)
        && b.queued == a.queued + Bit(b.doomed)
    else Mild(a, b)
  }

  ghost predicate Dropped(a: Rec, b: Rec) {
    RecOK(b) && !b.own && b.held == a.held && b.on == a.on && Settled(b) && b.queued == a.queued + Bit(b.doomed)
  }

  /** A mount before and after the whole. */
  ghost predicate Final(a: Rec, b: Rec, fast: bool, held: bool) {
    if fast then a.own && RecOK(b) && b.doomed && !b.on && b.held == a.held && b.queued == a.queued + 1
    else if held then a.own && RecOK(b) && !b.own && !b.on && !b.held && Settled(b)
        && b.queued == a.queued + Bit(b.doomed)
    else Mild(a, b)
  }

  /** After the grace period a mount that was held is finished off exactly if nobody
      holds it any more. */
  lemma {:induction false} DoomedExactly(a: Rec, b: Rec)
    requires Final(a, b, false, true) && b.trans == 0
    ensures b.doomed <==> b.refs == 0
    ensures b.queued == a.queued + Bit(b.refs == 0)
  {
    hide Total;
  }

  lemma {:induction false} MildIsAfter1(a: Rec, b: Rec)
    requires Mild(a, b)
    ensures After1(a, b, false, false)
  {
  }

  lemma {:induction false} MildIsAfter2(a: Rec, b: Rec)
    requires Mild(a, b)
    ensures After2(a, b, false) && a.on == b.on
  {
  }

  lemma {:induction false} MildIsAfter3(a: Rec, b: Rec)
    requires Mild(a, b)
    ensures After3(a, b, false) && a.held == b.held
  {
  }

  lemma {:induction false} HeldNowOK(a: Rec, b: Rec, c: Rec)
    requires Mild(a, b) && Mild(b, c) && b.own
    ensures RecOK(c.(on := false, held := true)) && After1(a, c.(on := false, held := true), false, true)
  {
    OwnedLives(a);
    OwnedLives(b);
    OwnedLives(c);
    hide Total, Settled;
  }

  lemma {:induction false} QueuedOK(a: Rec, b: Rec)
    requires Mild(a, b) && a.doomed
    ensures RecOK(b.(on := false, queued := b.queued + 1)) && After2(a, b.(on := false, queued := b.queued + 1), true)
  {
    hide Total, Settled;
  }

  lemma {:induction false} Unheld3(a: Rec, b: Rec)
    requires Mild(a, b) && a.own
    ensures b.own && RecOK(b.(held := false)) && b.queued == a.queued
  {
    OwnedLives(b);
    hide Total, Settled;
  }

  lemma {:induction false} DroppedAfter3(a: Rec, b: Rec, d: Rec)
    requires Mild(a, b) && a.own && Dropped(b.(held := false), d)
    ensures After3(a, d, true)
  {
    OwnedLives(b);
    hide RecOK, Settled;
  }

  // ---- all mounts but one --------------------------------------------------------------------------------------

  ghost predicate AllMild(a: seq<Rec>, b: seq<Rec>) {
    |a| == |b| && forall j {:trigger b[j]} :: 0 <= j < |b| ==> Mild(a[j], b[j])
  }

  ghost predicate AllBut(a: seq<Rec>, b: seq<Rec>, i: nat) {
    |a| == |b| && forall j {:trigger b[j]} :: 0 <= j < |b| && j != i ==> Mild(a[j], b[j])
  }

  lemma {:induction false} MildAt(a: seq<Rec>, b: seq<Rec>, i: nat)
    requires AllMild(a, b) && i < |b|
    ensures |a| == |b| && Mild(a[i], b[i]) && a[i].on == b[i].on && a[i].own == b[i].own && a[i].held == b[i].held
    ensures a[i].doomed ==> b[i].doomed
  {
    hide RecOK, Settled;
  }

  lemma {:induction false} MildBut(a: seq<Rec>, b: seq<Rec>, i: nat)
    requires AllMild(a, b)
    ensures AllBut(a, b, i)
  {
    hide Mild;
  }

  lemma {:induction false} AllMildTrans(a: seq<Rec>, b: seq<Rec>, c: seq<Rec>)
    requires AllMild(a, b) && AllMild(b, c)
    ensures AllMild(a, c)
  {
    hide Mild;
    forall j | 0 <= j < |c| ensures Mild(a[j], c[j]) { assert Mild(b[j], c[j]); MildTrans(a[j], b[j], c[j]); }
  }

  lemma {:induction false} AllButTrans(a: seq<Rec>, b: seq<Rec>, c: seq<Rec>, i: nat)
    requires AllBut(a, b, i) && AllBut(b, c, i)
    ensures AllBut(a, c, i)
  {
    hide Mild;
    forall j | 0 <= j < |c| && j != i ensures Mild(a[j], c[j]) { assert Mild(b[j], c[j]); MildTrans(a[j], b[j], c[j]); }
  }

  lemma {:induction false} SetBut(a: seq<Rec>, i: nat, r: Rec)
    requires AllOK(a) && i < |a|
    ensures AllBut(a, a[i := r], i)
  {
    hide RecOK;
  }

  lemma {:induction false} NoneWalks(s: seq<Rec>, i: nat)
    requires NoWalkers(s) && i < |s|
    ensures s[i].trans == 0
  {
  }

  lemma {:induction false} RanMild(locked: bool, graced: bool, p: seq<seq<Rec>>, q: seq<seq<Rec>>, a: seq<Rec>,
      b: seq<Rec>)
    requires Ran(locked, graced, p, q, a, b)
    ensures AllMild(a, b) && Extends(p, q)
  {
    hide Mild, NoLess, RecOK;
    forall j | 0 <= j < |b| ensures Mild(a[j], b[j]) { assert Rely(locked, graced, a[j], b[j]); }
  }

  lemma {:induction false} RanMeans(locked: bool, graced: bool, p: seq<seq<Rec>>, q: seq<seq<Rec>>, a: seq<Rec>,
      b: seq<Rec>, i: nat)
    requires Ran(locked, graced, p, q, a, b)
    ensures AllBut(a, b, i) && Extends(p, q)
  {
    hide Mild, Ran, AllMild, AllBut, Extends;
    RanMild(locked, graced, p, q, a, b);
    MildBut(a, b, i);
  }

  // ---- the passes ------------------------------------------------------------------------------------------------

  /** The mounts on the list are the doomed ones of F; ... */
  ghost predicate Ready2(m: seq<Rec>, F: set<nat>, ord: seq<nat>) {
    forall i {:trigger m[i]} :: 0 <= i < |m| ==> (m[i].on <==> i in F) && (m[i].on ==> m[i].doomed && i in ord)
  }

  /** ... on the held list, those of H, with their own references. */
  ghost predicate Ready3(m: seq<Rec>, H: set<nat>, ord: seq<nat>) {
    forall i {:trigger m[i]} :: 0 <= i < |m| ==> (m[i].held <==> i in H) && (m[i].held ==> m[i].own && i in ord)
  }

  lemma {:induction false} Between1(ord: seq<nat>, a: seq<Rec>, b: seq<Rec>, F: set<nat>, H: set<nat>)
    requires Listed(ord, a) && Split(a, F, H) && All1(a, b, F, H)
    ensures |b| == |a| && NoDup(ord) && (forall k :: 0 <= k < |ord| ==> ord[k] < |b|) && Ready2(b, F, ord)
    ensures Ready3(b, H, ord)
  {
    hide RecOK, Settled;
    forall i | 0 <= i < |b|
      ensures (b[i].on <==> i in F) && (b[i].on ==> b[i].doomed && i in ord) && (b[i].held <==> i in H)
      ensures b[i].held ==> b[i].own && i in ord
    {
      assert After1(a[i], b[i], i in F, i in H);
      assert a[i].on ==> i in F || i in H;
      assert i in F || i in H ==> a[i].on;
    }
  }

  lemma {:induction false} Between2(ord: seq<nat>, a: seq<Rec>, b: seq<Rec>, c: seq<Rec>, F: set<nat>, H: set<nat>)
    requires Listed(ord, a) && Split(a, F, H) && All1(a, b, F, H) && All2(b, c, F, ord)
    ensures |a| == |c| && Ready3(c, H, ord)
    ensures (exists i {:trigger c[i]} :: 0 <= i < |c| && c[i].held) <==> H != {}
    ensures H == {} ==> forall i {:trigger c[i]} :: 0 <= i < |c| ==> Final(a[i], c[i], i in F, i in H)
  {
    hide RecOK, Settled;
    Between1(ord, a, b, F, H);
    forall i | 0 <= i < |c|
      ensures (c[i].held <==> i in H) && (c[i].held ==> c[i].own && i in ord)
      ensures i !in H ==> Final(a[i], c[i], i in F, false)
    {
      assert After1(a[i], b[i], i in F, i in H) && After2(b[i], c[i], i in F && i in ord);
      assert b[i].held <==> i in H;
      assert i in F ==> i in ord;
      if i !in H && i !in F { MildTrans(a[i], b[i], c[i]); }
    }
    if H != {} {
      var i := Pick(H);
      assert c[i].held;
    }
  }

  /** The grace period leaves the held list as it is. */
  lemma {:induction false} Between3(c: seq<Rec>, d: seq<Rec>, H: set<nat>, ord: seq<nat>)
    requires Ready3(c, H, ord) && AllMild(c, d)
    ensures |c| == |d| && Ready3(d, H, ord)
  {
    hide RecOK, Settled;
    forall i | 0 <= i < |d|
      ensures (d[i].held <==> i in H) && (d[i].held ==> d[i].own && i in ord)
    { assert Mild(c[i], d[i]); }
  }

  lemma {:induction false} AllFinal(ord: seq<nat>, a: seq<Rec>, b: seq<Rec>, c: seq<Rec>, d: seq<Rec>,
      e: seq<Rec>, F: set<nat>, H: set<nat>)
    requires Listed(ord, a) && Split(a, F, H) && All1(a, b, F, H) && All2(b, c, F, ord) && AllMild(c, d)
    requires All3(d, e, H, ord)
    ensures |a| == |e| && forall i {:trigger e[i]} :: 0 <= i < |e| ==> Final(a[i], e[i], i in F, i in H)
  {
    hide After1, After2, After3, Mild, Final;
    forall i | 0 <= i < |e| ensures Final(a[i], e[i], i in F, i in H) {
      assert After3(d[i], e[i], i in H && i in ord);
      assert Mild(c[i], d[i]);
      assert After2(b[i], c[i], i in F && i in ord);
      assert After1(a[i], b[i], i in F, i in H);
      assert i in F || i in H ==> a[i].on && i in ord;
      OneFinal(a[i], b[i], c[i], d[i], e[i], i in F, i in H);
    }
  }

  lemma {:induction false} OneFinal(a: Rec, b: Rec, c: Rec, d: Rec, e: Rec, f: bool, h: bool)
    requires !(f && h) && After1(a, b, f, h) && After2(b, c, f) && Mild(c, d) && After3(d, e, h)
    ensures Final(a, e, f, h)
  {
    if !f && !h { MildTrans(a, b, c); MildTrans(a, c, d); MildTrans(a, d, e); }
    if h { OwnedLives(b); OwnedLives(c); OwnedLives(d); }
    hide RecOK, Settled;
  }

  // ---- what the script means ---------------------------------------------------------------------------

  /** How often event e occurs. */
  ghost function Times(log: seq<Event>, e: Event): (n: nat) { multiset(log)[e] }

  ghost function Occurs(s: seq<nat>, i: nat): (n: nat) { multiset(s)[i] }

  lemma {:induction false} TimesCat(a: seq<Event>, b: seq<Event>, e: Event)
    ensures Times(a + b, e) == Times(a, e) + Times(b, e)
  {
  }

  lemma {:induction false} TimesOf(a: Act, s: seq<nat>, b: Act, i: nat)
    ensures Times(Each(a, s), Do(b, i)) == (if a == b then Occurs(s, i) else 0) && Times(Each(a, s), Grace) == 0
    decreases |s|
  {
    if s != [] {
      var t := s[..|s| - 1];
      TimesOf(a, t, b, i);
      assert s == t + [s[|s| - 1]];
      hide Each;
      TimesCat(Each(a, t), [Do(a, s[|s| - 1])], Do(b, i));
      TimesCat(Each(a, t), [Do(a, s[|s| - 1])], Grace);
    }
  }

  lemma {:induction false} OccursPush(s: seq<nat>, x: nat, i: nat)
    ensures Occurs(s + [x], i) == Occurs(s, i) + Bit(x == i)
    ensures Occurs(s + [], i) == Occurs(s, i)
  {
    assert s + [] == s;
  }

  lemma {:induction false} DownTimes(ord: seq<nat>, S: set<nat>, k: nat, i: nat)
    requires k <= |ord| && NoDup(ord)
    ensures Occurs(Down(ord, S, k), i) == Bit(i in S && i in ord[k..])
    decreases |ord| - k
  {
    hide Occurs;
    if k == |ord| { NoneOccurs(i); } else {
      DownTimes(ord, S, k + 1, i);
      OccursPush(Down(ord, S, k + 1), ord[k], i);
      assert ord[k..] == [ord[k]] + ord[k + 1..] && ord[k] !in ord[k + 1..];
    }
  }

  lemma {:induction false} NoneOccurs(i: nat)
    ensures Occurs([], i) == 0
  {
  }

  lemma {:induction false} UpTimes(ord: seq<nat>, S: set<nat>, k: nat, i: nat)
    requires k <= |ord| && NoDup(ord)
    ensures Occurs(Up(ord, S, k), i) == Bit(i in S && i in ord[..k])
    decreases k
  {
    hide Occurs;
    if k == 0 { NoneOccurs(i); } else {
      UpTimes(ord, S, k - 1, i);
      OccursPush(Up(ord, S, k - 1), ord[k - 1], i);
      assert ord[..k] == ord[..k - 1] + [ord[k - 1]] && ord[k - 1] !in ord[..k - 1];
    }
  }

  /** Every mount of the batch drops its own reference exactly once, by a doom or by a
      put; exactly the doomed ones have their cleanup queued here, once; there is
      at most one grace period, and one exactly when some mount was held. */
  lemma {:induction false} ScriptCounts(ord: seq<nat>, m: seq<Rec>, F: set<nat>, H: set<nat>, i: nat)
    requires Listed(ord, m) && Split(m, F, H)
    ensures var s := Script(ord, F, H);
      && Times(s, Do(Doom, i)) + Times(s, Do(Put, i)) == Bit(i < |m| && m[i].on)
      && Times(s, Do(Queue, i)) == Times(s, Do(Doom, i)) == Bit(i in F)
      && Times(s, Grace) == Bit(H != {})
  {
    hide Each, Down, Up, Times;
    var d, u := Down(ord, F, 0), Up(ord, H, |ord|);
    var rest := if H == {} then [] else [Grace] + Each(Put, u);
    DownTimes(ord, F, 0, i);
    UpTimes(ord, H, |ord|, i);
    assert ord[0..] == ord && ord[..|ord|] == ord;
    forall a: Act, b: Act
      ensures Times(Each(a, d), Do(b, i)) == (if a == b then Occurs(d, i) else 0) && Times(Each(a, d), Grace) == 0
    { TimesOf(a, d, b, i); }
    forall e: Event
      ensures Times(Script(ord, F, H), e) == Times(Each(Doom, d), e) + Times(Each(Queue, d), e) + Times(rest, e)
    {
      TimesCat(Each(Doom, d) + Each(Queue, d), rest, e);
      TimesCat(Each(Doom, d), Each(Queue, d), e);
    }
    RestTimes(H, u, i);
    assert i in F ==> i in ord;
    assert i in H ==> i in ord;
  }

  lemma {:induction false} RestTimes(H: set<nat>, u: seq<nat>, i: nat)
    ensures var rest := if H == {} then [] else [Grace] + Each(Put, u);
      && Times(rest, Do(Doom, i)) == Times(rest, Do(Queue, i)) == 0
      && Times(rest, Do(Put, i)) == (if H == {} then 0 else Occurs(u, i)) && Times(rest, Grace) == Bit(H != {})
  {
    forall b: Act
      ensures Times(Each(Put, u), Do(b, i)) == (if Put == b then Occurs(u, i) else 0) && Times(Each(Put, u), Grace) == 0
    { TimesOf(Put, u, b, i); }
    assert forall e: Event :: Times([], e) == 0 && Times([Grace], e) == Bit(e == Grace);
    hide Each, Times;
    TimesCat([Grace], Each(Put, u), Do(Doom, i));
    TimesCat([Grace], Each(Put, u), Do(Queue, i));
    TimesCat([Grace], Each(Put, u), Do(Put, i));
    TimesCat([Grace], Each(Put, u), Grace);
  }

  lemma {:induction false} DownStep(ord: seq<nat>, F: set<nat>, k: nat)
    requires k < |ord| && NoDup(ord)
    ensures Each(Queue, Down(ord, F, k)) == Each(Queue, Down(ord, F, k + 1)) + if ord[k] in F then [Do(Queue, ord[k])]
        else []
    ensures ord[k] !in ord[k + 1..]
    ensures forall j {:trigger j in ord[k..]} {:trigger j in ord[k + 1..]} ::
      j in ord[k..] <==> j == ord[k] || j in ord[k + 1..]
  {
    var i := ord[k];
    assert ord[k..] == [i] + ord[k + 1..];
    Appends(Queue, Down(ord, F, k + 1), i);
    assert Down(ord, F, k + 1) + [] == Down(ord, F, k + 1);
  }

  lemma {:induction false} DownOne(ord: seq<nat>, F: set<nat>, k: nat)
    requires k < |ord| && NoDup(ord)
    ensures Each(Queue, Down(ord, F, k)) == Each(Queue, Down(ord, F, k + 1)) + if ord[k] in F then [Do(Queue, ord[k])]
        else []
  {
    hide Each, Down, NoDup;
    DownStep(ord, F, k);
  }

  lemma {:induction false} UpStep(ord: seq<nat>, H: set<nat>, k: nat)
    requires k < |ord| && NoDup(ord)
    ensures Each(Put, Up(ord, H, k + 1)) == Each(Put, Up(ord, H, k)) + if ord[k] in H then [Do(Put, ord[k])] else []
    ensures ord[k] !in ord[..k]
    ensures forall j {:trigger j in ord[..k + 1]} {:trigger j in ord[..k]} ::
      j in ord[..k + 1] <==> j == ord[k] || j in ord[..k]
  {
    var i := ord[k];
    assert ord[..k + 1] == ord[..k] + [i];
    Appends(Put, Up(ord, H, k), i);
    assert Up(ord, H, k) + [] == Up(ord, H, k);
  }

  /** The second pass has done the mounts of done. */
  ghost predicate All2(a: seq<Rec>, b: seq<Rec>, F: set<nat>, done: seq<nat>) {
    |a| == |b| && forall i {:trigger b[i]} :: 0 <= i < |b| ==> After2(a[i], b[i], i in F && i in done)
  }

  ghost predicate All3(a: seq<Rec>, b: seq<Rec>, H: set<nat>, done: seq<nat>) {
    |a| == |b| && forall i {:trigger b[i]} :: 0 <= i < |b| ==> After3(a[i], b[i], i in H && i in done)
  }

  lemma {:induction false} Start2(a: seq<Rec>, F: set<nat>)
    requires AllOK(a)
    ensures All2(a, a, F, [])
  {
  }

  lemma {:induction false} Start3(a: seq<Rec>, H: set<nat>)
    requires AllOK(a)
    ensures All3(a, a, H, [])
  {
  }

  lemma {:induction false} OnNow(a: seq<Rec>, c: seq<Rec>, F: set<nat>, ord: seq<nat>, k: nat)
    requires k < |ord| && All2(a, c, F, ord[k + 1..]) && NoDup(ord) && ord[k] < |a| && (a[ord[k]].on <==> ord[k] in F)
    requires a[ord[k]].on ==> a[ord[k]].doomed
    ensures (c[ord[k]].on <==> ord[k] in F) && (c[ord[k]].on ==> c[ord[k]].doomed)
  {
    assert ord[k] !in ord[k + 1..];
    assert After2(a[ord[k]], c[ord[k]], false);
  }

  lemma {:induction false} UpOne(ord: seq<nat>, H: set<nat>, k: nat)
    requires k < |ord| && NoDup(ord)
    ensures Each(Put, Up(ord, H, k + 1)) == Each(Put, Up(ord, H, k)) + if ord[k] in H then [Do(Put, ord[k])] else []
  {
    hide Each, Up, NoDup;
    UpStep(ord, H, k);
  }

  lemma {:induction false} HeldNow(a: seq<Rec>, c: seq<Rec>, H: set<nat>, ord: seq<nat>, k: nat)
    requires k < |ord| && All3(a, c, H, ord[..k]) && NoDup(ord) && ord[k] < |a| && Ready3(a, H, ord)
    ensures (c[ord[k]].held <==> ord[k] in H) && (c[ord[k]].held ==> c[ord[k]].own)
  {
    assert ord[k] !in ord[..k];
    assert After3(a[ord[k]], c[ord[k]], false);
  }

  lemma {:induction false} QueuesOn(a: seq<Rec>, c: seq<Rec>, d: seq<Rec>, F: set<nat>, ord: seq<nat>, k: nat)
    requires k < |ord| && All2(a, c, F, ord[k + 1..]) && |d| == |c| && NoDup(ord) && ord[k] < |a|
    requires ord[k] in F ==> a[ord[k]].doomed
    requires After2(c[ord[k]], d[ord[k]], ord[k] in F) && AllBut(c, d, ord[k])
    ensures All2(a, d, F, ord[k..])
  {
    hide After2, Mild;
    DownStep(ord, F, k);
    hide NoDup;
    var i := ord[k];
    forall j | 0 <= j < |a| ensures After2(a[j], d[j], j in F && j in ord[k..]) {
      assert After2(a[j], c[j], j in F && j in ord[k + 1..]);
      if j == i {
        After2First(a[j], c[j], d[j], j in F);
      } else {
        After2Rely(a[j], c[j], d[j], j in F && j in ord[k + 1..]);
      }
    }
  }

  lemma {:induction false} PutsOn(a: seq<Rec>, c: seq<Rec>, d: seq<Rec>, H: set<nat>, ord: seq<nat>, k: nat)
    requires k < |ord| && All3(a, c, H, ord[..k]) && |d| == |c| && NoDup(ord) && ord[k] < |a|
    requires After3(c[ord[k]], d[ord[k]], ord[k] in H) && AllBut(c, d, ord[k])
    ensures All3(a, d, H, ord[..k + 1])
  {
    hide After3, Mild;
    UpStep(ord, H, k);
    hide NoDup;
    var i := ord[k];
    forall j | 0 <= j < |a| ensures After3(a[j], d[j], j in H && j in ord[..k + 1]) {
      assert After3(a[j], c[j], j in H && j in ord[..k]);
      if j == i {
        After3First(a[j], c[j], d[j], j in H);
      } else {
        After3Rely(a[j], c[j], d[j], j in H && j in ord[..k]);
      }
    }
  }

  lemma {:induction false} After2Rely(a: Rec, b: Rec, c: Rec, q: bool)
    requires After2(a, b, q) && Mild(b, c)
    ensures After2(a, c, q)
  {
  }

  lemma {:induction false} After2First(a: Rec, b: Rec, c: Rec, q: bool)
    requires After2(a, b, false) && After2(b, c, q) && (q ==> a.doomed)
    ensures After2(a, c, q)
  {
  }

  lemma {:induction false} After3Rely(a: Rec, b: Rec, c: Rec, q: bool)
    requires After3(a, b, q) && Mild(b, c)
    ensures After3(a, c, q)
  {
  }

  lemma {:induction false} After3First(a: Rec, b: Rec, c: Rec, q: bool)
    requires After3(a, b, false) && After3(b, c, q)
    ensures After3(a, c, q)
  {
  }

  /** Every mount so far. */
  ghost predicate All1(a: seq<Rec>, b: seq<Rec>, F: set<nat>, H: set<nat>) {
    |a| == |b| && forall i {:trigger b[i]} :: 0 <= i < |b| ==> After1(a[i], b[i], i in F, i in H)
  }

  lemma {:induction false} StartOf(a: seq<Rec>)
    requires AllOK(a)
    ensures All1(a, a, {}, {}) && Partial(a, {}, {}, [])
  {
  }

  lemma {:induction false} FirstOn(ord: seq<nat>, k: nat, a: seq<Rec>, c: seq<Rec>, d: seq<Rec>, F: set<nat>,
      H: set<nat>, f: bool, h: bool)
    requires k < |ord| && All1(a, c, F, H) && |d| == |c| && ord[k] < |a| && ord[k] !in F && ord[k] !in H
    requires After1(c[ord[k]], d[ord[k]], f, h) && AllBut(c, d, ord[k])
    ensures All1(a, d, if f then F + {ord[k]} else F, if h then H + {ord[k]} else H)
  {
    hide After1, Mild;
    var i := ord[k];
    var G, K := if f then F + {i} else F, if h then H + {i} else H;
    forall j | 0 <= j < |a| ensures After1(a[j], d[j], j in G, j in K) {
      assert After1(a[j], c[j], j in F, j in H);
      if j == i { After1First(a[j], c[j], d[j], f, h); } else { After1Rely(a[j], c[j], d[j], j in F, j in H); }
    }
  }

  lemma {:induction false} After1Rely(a: Rec, b: Rec, c: Rec, f: bool, h: bool)
    requires After1(a, b, f, h) && Mild(b, c)
    ensures After1(a, c, f, h)
  {
  }

  lemma {:induction false} After1First(a: Rec, b: Rec, c: Rec, f: bool, h: bool)
    requires After1(a, b, false, false) && After1(b, c, f, h)
    ensures After1(a, c, f, h)
  {
  }

  /** The next mount has not been looked at. */
  lemma {:induction false} NotYet(ord: seq<nat>, k: nat, a: seq<Rec>, F: set<nat>, H: set<nat>, c: seq<Rec>)
    requires Listed(ord, a) && k < |ord| && Partial(a, F, H, ord[k + 1..]) && All1(a, c, F, H)
    ensures ord[k] < |a| == |c| && ord[k] !in F && ord[k] !in H
    ensures var b := c[ord[k]]; (b.on ==> b.own && !b.held) && b.on == a[ord[k]].on
  {
    assert ord[k] !in ord[k + 1..];
    assert After1(a[ord[k]], c[ord[k]], false, false);
  }

  lemma {:induction false} OneMore(ord: seq<nat>, k: nat, a: seq<Rec>, F: set<nat>, H: set<nat>, f: bool, h: bool)
    requires Listed(ord, a) && k < |ord| && Partial(a, F, H, ord[k + 1..]) && !(f && h) && (f || h <==> a[ord[k]].on)
    ensures var i := ord[k]; var G, K := if f then F + {i} else F, if h then H + {i} else H;
      && Partial(a, G, K, ord[k..])
      && Each(Doom, Down(ord, G, k)) == Each(Doom, Down(ord, F, k + 1)) + if f then [Do(Doom, i)] else []
  {
    var i := ord[k];
    var G := if f then F + {i} else F;
    assert ord[k..] == [i] + ord[k + 1..];
    assert i !in ord[k + 1..];
    DownSame(ord, F, G, k + 1);
    Appends(Doom, Down(ord, F, k + 1), i);
    assert Down(ord, F, k + 1) + [] == Down(ord, F, k + 1);
  }

  lemma {:induction false} SplitAll(ord: seq<nat>, a: seq<Rec>, F: set<nat>, H: set<nat>)
    requires Listed(ord, a) && Partial(a, F, H, ord)
    ensures Split(a, F, H)
  {
  }

  /** The batch: everything on the list is in ord once, has its own reference, and is
      neither held nor doomed. */
  ghost predicate Listed(ord: seq<nat>, m: seq<Rec>) {
    && NoDup(ord) && (forall k :: 0 <= k < |ord| ==> ord[k] < |m|)
    && forall i {:trigger m[i]} :: 0 <= i < |m| ==> !m[i].held && (m[i].on ==> m[i].own && i in ord)
  }

  /** F and H split the mounts that were on the list. */
  ghost predicate Split(m: seq<Rec>, F: set<nat>, H: set<nat>) {
    F !! H && forall i: nat {:trigger i in F} {:trigger i in H} :: i in F || i in H <==> i < |m| && m[i].on
  }

  ghost predicate Partial(m: seq<Rec>, F: set<nat>, H: set<nat>, done: seq<nat>) {
    F !! H && forall i: nat {:trigger i in F} {:trigger i in H} :: i in F || i in H <==> i < |m| && m[i].on && i in done
  }
}
