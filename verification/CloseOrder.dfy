/** Closing the files of an exiting task (kernel/close-files/tla/CloseOrder.tla):
    three orders of flushing and releasing them, when one file may have to wait for
    another, and which of the orders hang, for any number of descriptors and any
    waits. */
module CloseOrder {
  datatype Discipline = Deferred | Ascending | Descending
  datatype Step = Flush(fd: nat) | Release(fd: nat)

  /** Descriptors are 1..n; each waits for descriptors other than itself. */
  datatype Waits = Waits(n: nat, rel: map<nat, set<nat>>, flush: map<nat, set<nat>>) {
    ghost predicate Fd(i: nat) { 1 <= i <= n }
    ghost predicate Valid() {
      && (forall i: nat :: Fd(i) <==> i in rel) && (forall i: nat :: Fd(i) <==> i in flush)
      && (forall i, j {:trigger j in rel[i]} :: i in rel && j in rel[i] ==> Fd(j) && j != i)
      && (forall i, j {:trigger j in flush[i]} :: i in flush && j in flush[i] ==> Fd(j) && j != i)
    }
  }

  /** The k-th of the 2n steps: flushes then releases backwards, or both inline. */
  function StepAt(d: Discipline, n: nat, k: nat): (s: Step)
    requires k < 2 * n
    ensures 1 <= s.fd <= n
  {
    match d
    case Deferred => if k < n then Flush(k + 1) else Release(2 * n - k)
    case Ascending => if k % 2 == 0 then Flush(k / 2 + 1) else Release(k / 2 + 1)
    case Descending => if k % 2 == 0 then Flush(n - k / 2) else Release(n - k / 2)
  }

  datatype State = State(pos: map<Discipline, nat>, released: map<Discipline, set<nat>>)

  ghost predicate Typed(st: State) { forall d: Discipline :: d in st.pos && d in st.released }

  ghost predicate Done(w: Waits, st: State, d: Discipline)
    requires Typed(st)
  {
    st.pos[d] >= 2 * w.n
  }

  ghost function Needs(w: Waits, s: Step): (r: set<nat>)
    requires w.Valid() && w.Fd(s.fd)
  {
    match s case Flush(i) => w.flush[i] case Release(i) => w.rel[i]
  }

  /** Not through, and the next step waits for something the discipline has not
      released. */
  ghost predicate Stuck(w: Waits, st: State, d: Discipline)
    requires Typed(st) && w.Valid()
  {
    !Done(w, st, d) && !(Needs(w, StepAt(d, w.n, st.pos[d])) <= st.released[d])
  }

  ghost predicate Settled(w: Waits, st: State, d: Discipline)
    requires Typed(st) && w.Valid()
  {
    Done(w, st, d) || Stuck(w, st, d)
  }

  ghost predicate Takes(w: Waits, st: State, d: Discipline, z: State) {
    && Typed(st) && w.Valid() && !Done(w, st, d)
    && var s := StepAt(d, w.n, st.pos[d]);
       && Needs(w, s) <= st.released[d]
       && z == State(st.pos[d := st.pos[d] + 1],
             st.released[d := if s.Release? then st.released[d] + {s.fd} else st.released[d]])
  }

  ghost predicate Init(st: State) { Typed(st) && forall d: Discipline :: st.pos[d] == 0 && st.released[d] == {} }

  ghost predicate Next(w: Waits, st: State, z: State) { exists d: Discipline :: Takes(w, st, d, z) }

  ghost predicate Run(w: Waits, b: seq<State>) {
    && |b| > 0 && Init(b[0])
    && forall i, j {:trigger Next(w, b[i], b[j])} :: 0 <= i < |b| - 1 && j == i + 1 ==> Next(w, b[i], b[j])
  }

  // ---- what has been released after k steps ----------------------------------------------------------

  ghost predicate Released(d: Discipline, n: nat, k: nat, j: nat) {
    1 <= j <= n && match d case Deferred => 2 * n < j + k case Ascending => j <= k / 2 case Descending => n < j + k / 2
  }

  lemma {:induction false} ReleasedNext(d: Discipline, n: nat, k: nat, j: nat)
    requires k < 2 * n
    ensures Released(d, n, k + 1, j) <==> Released(d, n, k, j) || StepAt(d, n, k) == Release(j)
  {
    if d != Deferred {
      if k % 2 == 0 { assert (k + 1) / 2 == k / 2; } else { assert (k + 1) / 2 == k / 2 + 1; }
    }
  }

  // ---- when a discipline completes ----------------------------------------------------------------------

  ghost predicate Ready(w: Waits, d: Discipline, k: nat)
    requires w.Valid() && k < 2 * w.n
  {
    forall j :: j in Needs(w, StepAt(d, w.n, k)) ==> Released(d, w.n, k, j)
  }

  /** Every step finds what it waits for released. */
  ghost predicate Completes(w: Waits, d: Discipline)
    requires w.Valid()
  {
    forall k: nat {:trigger Ready(w, d, k)} :: k < 2 * w.n ==> Ready(w, d, k)
  }

  ghost predicate NoFlushWaits(w: Waits) { forall i {:trigger w.flush[i]} :: i in w.flush ==> w.flush[i] == {} }

  /** Waits go to higher, or to lower, descriptors. */
  ghost predicate Upward(m: map<nat, set<nat>>) { forall i, j {:trigger j in m[i]} :: i in m && j in m[i] ==> i < j }

  ghost predicate Downward(m: map<nat, set<nat>>) { forall i, j {:trigger j in m[i]} :: i in m && j in m[i] ==> j < i }

  /** The order of a discipline respects the waits. */
  ghost predicate Respects(w: Waits, d: Discipline) {
    match d
    case Deferred => NoFlushWaits(w) && Upward(w.rel)
    case Ascending => Downward(w.flush) && Downward(w.rel)
    case Descending => Upward(w.flush) && Upward(w.rel)
  }

  /** Where fd i is flushed and released. */
  ghost function FlushAt(d: Discipline, n: nat, i: nat): (k: nat)
    requires 1 <= i <= n
    ensures k < 2 * n && StepAt(d, n, k) == Flush(i)
  {
    match d case Deferred => i - 1 case Ascending => 2 * (i - 1) case Descending => 2 * (n - i)
  }

  ghost function ReleaseAt(d: Discipline, n: nat, i: nat): (k: nat)
    requires 1 <= i <= n
    ensures k < 2 * n && StepAt(d, n, k) == Release(i)
  {
    match d case Deferred => 2 * n - i case Ascending => 2 * (i - 1) + 1 case Descending => 2 * (n - i) + 1
  }

  /** What a step can rely on: j is released before fd i's turn. */
  lemma {:induction false} Before(d: Discipline, n: nat, k: nat, j: nat)
    requires k < 2 * n && 1 <= j <= n
    ensures var s := StepAt(d, n, k); Released(d, n, k, j) <==>
      match d case Deferred => s.Release? && s.fd < j case Ascending => j < s.fd case Descending => s.fd < j
  {
    if d != Deferred { assert k == 2 * (k / 2) + k % 2; }
  }

  /** A discipline gets through exactly when its order respects all waits. */
  lemma {:induction false} CompletesIff(w: Waits, d: Discipline)
    requires w.Valid()
    ensures Completes(w, d) <==> Respects(w, d)
  {
    if Completes(w, d) { CompletesRespects(w, d); }
    if Respects(w, d) {
      forall k: nat | k < 2 * w.n ensures Ready(w, d, k) {
        var s := StepAt(d, w.n, k);
        forall j | j in Needs(w, s) ensures Released(d, w.n, k, j) { Before(d, w.n, k, j); }
      }
    }
  }

  lemma {:induction false} CompletesRespects(w: Waits, d: Discipline)
    requires w.Valid() && Completes(w, d)
    ensures Respects(w, d)
  {
    forall i, j | i in w.rel && j in w.rel[i]
      ensures Released(d, w.n, ReleaseAt(d, w.n, i), j) && (d == Ascending ==> j < i) && (d != Ascending ==> i < j)
    {
      var k := ReleaseAt(d, w.n, i);
      assert Ready(w, d, k);
      Before(d, w.n, k, j);
    }
    forall i, j | i in w.flush && j in w.flush[i]
      ensures d != Deferred && (d == Ascending ==> j < i) && (d == Descending ==> i < j)
    {
      var k := FlushAt(d, w.n, i);
      assert Ready(w, d, k);
      Before(d, w.n, k, j);
    }
  }

  // ---- runs ------------------------------------------------------------------------------------------------

  ghost predicate DiscOK(w: Waits, st: State, d: Discipline)
    requires Typed(st) && w.Valid()
  {
    && st.pos[d] <= 2 * w.n
    && (forall j {:trigger j in st.released[d]} :: j in st.released[d] <==> Released(d, w.n, st.pos[d], j))
    && forall k: nat {:trigger Ready(w, d, k)} :: k < st.pos[d] ==> Ready(w, d, k)
  }

  lemma {:induction false} TakesKeeps(w: Waits, st: State, d: Discipline, z: State, e: Discipline)
    requires Typed(st) && w.Valid() && DiscOK(w, st, e) && DiscOK(w, st, d) && Takes(w, st, d, z)
    ensures Typed(z) && DiscOK(w, z, e)
  {
    if e == d {
      var p := st.pos[d];
      forall j: nat ensures j in z.released[d] <==> Released(d, w.n, p + 1, j) { ReleasedNext(d, w.n, p, j); }
      forall k: nat | k < p + 1 ensures Ready(w, d, k) {
        if k == p {
          forall j | j in Needs(w, StepAt(d, w.n, k)) ensures Released(d, w.n, k, j) { assert j in st.released[d]; }
        }
      }
    }
  }

  lemma {:induction false} RunKeeps(w: Waits, b: seq<State>, i: nat, d: Discipline)
    requires w.Valid() && Run(w, b) && i < |b|
    ensures Typed(b[i]) && DiscOK(w, b[i], d)
    decreases i
  {
    if i == 0 {
      forall j ensures !Released(d, w.n, 0, j) {}
    } else {
      assert Next(w, b[i - 1], b[i]);
      var e: Discipline :| Takes(w, b[i - 1], e, b[i]);
      RunKeeps(w, b, i - 1, d);
      RunKeeps(w, b, i - 1, e);
      TakesKeeps(w, b[i - 1], e, b[i], d);
    }
  }

  /** A discipline that has settled has completed exactly when its order respects
      all waits, and is stuck exactly when it does not. */
  lemma {:induction false} SettledIff(w: Waits, b: seq<State>, i: nat, d: Discipline)
    requires w.Valid() && Run(w, b) && i < |b|
    ensures Typed(b[i])
    ensures Settled(w, b[i], d) ==> (Done(w, b[i], d) <==> Respects(w, d)) && (Stuck(w, b[i], d) <==> !Respects(w, d))
  {
    RunKeeps(w, b, i, d);
    CompletesIff(w, d);
    hide Respects, Run;
    var st := b[i];
    if Stuck(w, st, d) {
      var k := st.pos[d];
      var j :| j in Needs(w, StepAt(d, w.n, k)) && j !in st.released[d];
      assert !Released(d, w.n, k, j);
      assert !Ready(w, d, k);
    }
  }

  // ---- every run comes to an end ------------------------------------------------------------------------

  ghost predicate AllSettled(w: Waits, st: State)
    requires Typed(st) && w.Valid()
  {
    Settled(w, st, Deferred) && Settled(w, st, Ascending) && Settled(w, st, Descending)
  }

  ghost function Left(w: Waits, st: State): (n: int)
    requires Typed(st)
  {
    6 * w.n - st.pos[Deferred] - st.pos[Ascending] - st.pos[Descending]
  }

  ghost function Taken(w: Waits, st: State, d: Discipline): (z: State)
    requires Typed(st) && w.Valid() && !Settled(w, st, d)
  {
    var s := StepAt(d, w.n, st.pos[d]);
    State(st.pos[d := st.pos[d] + 1], st.released[d := if s.Release? then st.released[d] + {s.fd} else st.released[d]])
  }

  lemma {:induction false} TakenStep(w: Waits, st: State, d: Discipline)
    requires Typed(st) && w.Valid() && !Settled(w, st, d)
    ensures Typed(Taken(w, st, d)) && Takes(w, st, d, Taken(w, st, d)) && Left(w, Taken(w, st, d)) == Left(w, st) - 1
  {
  }

  lemma {:induction false} RunGrows(w: Waits, b: seq<State>, d: Discipline, z: State)
    requires Run(w, b) && Takes(w, b[|b| - 1], d, z)
    ensures Run(w, b + [z])
  {
    assert Next(w, b[|b| - 1], z);
    hide Takes, Init, Next;
    var c := b + [z];
    assert c[0] == b[0];
    forall i, j | 0 <= i < |c| - 1 && j == i + 1 ensures Next(w, c[i], c[j]) {
      if j < |b| { assert Next(w, b[i], b[j]); }
    }
  }

  /** Every run can be carried on until all three disciplines have settled. */
  lemma {:induction false} RunSettles(w: Waits, b: seq<State>) returns (c: seq<State>)
    requires w.Valid() && Run(w, b)
    ensures |b| <= |c| && c[..|b|] == b && Run(w, c) && Typed(c[|c| - 1]) && AllSettled(w, c[|c| - 1])
    decreases LeftIn(w, b)
  {
    hide Run, Takes, Settled;
    LastTyped(w, b, Deferred);
    LastTyped(w, b, Ascending);
    LastTyped(w, b, Descending);
    var st := b[|b| - 1];
    if AllSettled(w, st) { c := b; assert c[..|b|] == b; } else {
      var d := if !Settled(w, st, Deferred) then Deferred else if !Settled(w, st, Ascending) then Ascending
          else Descending;
      TakenStep(w, st, d);
      var z := Taken(w, st, d);
      RunGrows(w, b, d, z);
      assert (b + [z])[|b + [z]| - 1] == z;
      LastTyped(w, b + [z], Deferred);
      LastTyped(w, b + [z], Ascending);
      LastTyped(w, b + [z], Descending);
      c := RunSettles(w, b + [z]);
      assert c[..|b|] == c[..|b + [z]|][..|b|];
    }
  }

  ghost function LeftIn(w: Waits, b: seq<State>): (n: nat)
    requires w.Valid() && Run(w, b)
  {
    LastTyped(w, b, Deferred);
    LastTyped(w, b, Ascending);
    LastTyped(w, b, Descending);
    Left(w, b[|b| - 1])
  }

  lemma {:induction false} LastTyped(w: Waits, b: seq<State>, d: Discipline)
    requires w.Valid() && Run(w, b)
    ensures |b| > 0 && Typed(b[|b| - 1]) && b[|b| - 1].pos[d] <= 2 * w.n
  {
    hide Takes;
    RunKeeps(w, b, |b| - 1, d);
  }

  /** For any waits there is a run in which all three settle. */
  lemma {:induction false} Settles(w: Waits) returns (b: seq<State>)
    requires w.Valid()
    ensures Run(w, b) && Typed(b[|b| - 1]) && AllSettled(w, b[|b| - 1])
  {
    var st := State(map[Deferred := 0, Ascending := 0, Descending := 0],
        map[Deferred := {}, Ascending := {}, Descending := {}]);
    assert Init(st) by {
      forall d: Discipline
        ensures d in st.pos && d in st.released && st.pos[d] == 0 && st.released[d] == {}
      { match d case Deferred => case Ascending => case Descending => }
    }
    assert Run(w, [st]);
    b := RunSettles(w, [st]);
  }

  // ---- the comparison -----------------------------------------------------------------------------------

  /** The descending walk hangs only where the deferred one hangs; the two agree
      exactly when no flush waits or the descending walk hangs; without flush
      waits they always agree. */
  lemma {:induction false} DescendingAgainstDeferred(w: Waits, b: seq<State>, i: nat)
    requires w.Valid() && Run(w, b) && i < |b|
    ensures Typed(b[i])
    ensures Settled(w, b[i], Descending) && Settled(w, b[i], Deferred) ==>
      && (Stuck(w, b[i], Descending) ==> Stuck(w, b[i], Deferred))
      && ((Stuck(w, b[i], Descending) <==> Stuck(w, b[i], Deferred)) <==> NoFlushWaits(w) || !Respects(w, Descending))
  {
    SettledIff(w, b, i, Descending);
    SettledIff(w, b, i, Deferred);
    assert NoFlushWaits(w) ==> Upward(w.flush);
  }

  /** The ascending walk hangs where the deferred one does not exactly when no flush
      waits, every release waits upward only, and some release waits. */
  lemma {:induction false} AscendingAgainstDeferred(w: Waits, b: seq<State>, i: nat)
    requires w.Valid() && Run(w, b) && i < |b|
    ensures Typed(b[i])
    ensures Settled(w, b[i], Ascending) && Settled(w, b[i], Deferred) ==>
      (Stuck(w, b[i], Ascending) && !Stuck(w, b[i], Deferred)
      <==> NoFlushWaits(w) && Upward(w.rel) && exists i: nat :: i in w.rel && w.rel[i] != {})
  {
    SettledIff(w, b, i, Ascending);
    SettledIff(w, b, i, Deferred);
    if NoFlushWaits(w) && Upward(w.rel) {
      assert Downward(w.flush);
      if x :| x in w.rel && w.rel[x] != {} {
        var j :| j in w.rel[x];
        assert !Downward(w.rel);
      } else {
        assert Downward(w.rel);
      }
    }
  }

  /** The other way round: the deferred walk hangs where the ascending one does not
      exactly when every wait is for a lower descriptor and there is one. */
  lemma {:induction false} DeferredAgainstAscending(w: Waits, b: seq<State>, i: nat)
    requires w.Valid() && Run(w, b) && i < |b|
    ensures Typed(b[i])
    ensures Settled(w, b[i], Ascending) && Settled(w, b[i], Deferred) ==>
      (Stuck(w, b[i], Deferred) && !Stuck(w, b[i], Ascending) <==> Downward(w.flush) && Downward(w.rel) && !NoWaits(w))
  {
    SettledIff(w, b, i, Ascending);
    SettledIff(w, b, i, Deferred);
    hide Run, Settled, Stuck;
    if Downward(w.flush) && Downward(w.rel) { DeferredDown(w); }
  }

  ghost predicate NoWaits(w: Waits) { NoFlushWaits(w) && forall i {:trigger w.rel[i]} :: i in w.rel ==> w.rel[i] == {} }

  lemma {:induction false} DeferredDown(w: Waits)
    requires w.Valid() && Downward(w.rel)
    ensures Respects(w, Deferred) <==> NoWaits(w)
  {
    if NoFlushWaits(w) && Upward(w.rel) {
      forall i | i in w.rel ensures w.rel[i] == {} {
        forall j ensures j !in w.rel[i] {}
      }
    }
  }

  /** AscendingMatchesDeferred, then, holds exactly when nothing waits, or when both
      orders hang: some wait goes up, and a flush waits or a release waits downward. */
  lemma {:induction false} AscendingMatchesIff(w: Waits, b: seq<State>, i: nat)
    requires w.Valid() && Run(w, b) && i < |b|
    ensures Typed(b[i])
    ensures Settled(w, b[i], Ascending) && Settled(w, b[i], Deferred) ==>
      ((Stuck(w, b[i], Ascending) <==> Stuck(w, b[i], Deferred)) <==>
        NoWaits(w) || (!(Downward(w.flush) && Downward(w.rel)) && !(NoFlushWaits(w) && Upward(w.rel))))
  {
    SettledIff(w, b, i, Ascending);
    SettledIff(w, b, i, Deferred);
    hide Run, Settled, Stuck;
    if Downward(w.rel) { DeferredDown(w); }
    assert NoWaits(w) ==> Downward(w.flush) && Downward(w.rel) && Upward(w.rel);
  }

  /** In the end of the run each discipline is where its order puts it. */
  ghost predicate Outcome(w: Waits, st: State, d: Discipline)
    requires Typed(st) && w.Valid()
  {
    if Respects(w, d) then Done(w, st, d) else Stuck(w, st, d)
  }

  /** For any waits, a run at whose end each discipline is through or stuck as its order
      respects the waits or not. */
  lemma {:induction false} Outcomes(w: Waits) returns (b: seq<State>)
    requires w.Valid()
    ensures Run(w, b) && Typed(b[|b| - 1]) && Outcome(w, b[|b| - 1], Deferred) && Outcome(w, b[|b| - 1], Ascending)
    ensures Outcome(w, b[|b| - 1], Descending)
  {
    b := Settles(w);
    assert |b| > 0;
    hide Run, Settled, Stuck, Respects, Done;
    SettledIff(w, b, |b| - 1, Deferred);
    SettledIff(w, b, |b| - 1, Ascending);
    SettledIff(w, b, |b| - 1, Descending);
  }

  /** A pipe end that waits for the socket above it: there is a run at whose end only
      the ascending walk hangs. */
  lemma {:induction false} AscendingWorse(w: Waits) returns (b: seq<State>)
    requires w == Waits(2, map[1 := {2}, 2 := {}], map[1 := {}, 2 := {}])
    ensures w.Valid() && Run(w, b) && Typed(b[|b| - 1])
    ensures Stuck(w, b[|b| - 1], Ascending) && Done(w, b[|b| - 1], Deferred) && Done(w, b[|b| - 1], Descending)
  {
    assert 2 in w.rel[1];
    hide Run, Stuck, Typed;
    b := Outcomes(w);
  }

  /** One flush that waits upward: there is a run at whose end the
      deferred walk hangs and the descending one is through. */
  lemma {:induction false} DescendingBetter(w: Waits) returns (b: seq<State>)
    requires w == Waits(2, map[1 := {}, 2 := {}], map[1 := {2}, 2 := {}])
    ensures w.Valid() && Run(w, b) && Typed(b[|b| - 1])
    ensures Stuck(w, b[|b| - 1], Deferred) && Stuck(w, b[|b| - 1], Ascending) && Done(w, b[|b| - 1], Descending)
  {
    assert 2 in w.flush[1];
    hide Run, Stuck, Typed;
    b := Outcomes(w);
  }

  /** One flush that waits downward: only the ascending walk gets through. */
  lemma {:induction false} AscendingBetter(w: Waits) returns (b: seq<State>)
    requires w == Waits(2, map[1 := {}, 2 := {}], map[1 := {}, 2 := {1}])
    ensures w.Valid() && Run(w, b) && Typed(b[|b| - 1])
    ensures Done(w, b[|b| - 1], Ascending) && Stuck(w, b[|b| - 1], Deferred) && Stuck(w, b[|b| - 1], Descending)
  {
    assert 1 in w.flush[2];
    hide Run, Stuck, Typed;
    b := Outcomes(w);
  }
}
