/** Attribution of mount trace events to model tasks
    (kernel/work.mount.gp_on_demand.proposal/trace/trace2ndjson.py): the ledger one
    pid's events are split into, what is pruned from it, and the ranks of locked
    events. */
module TraceLedger {
  import opened Finite

  datatype Kind = Legitimize | Get | PutFast | Slowpath | UmountTree | CallerDrop | Peek | Final | Other
  datatype Event = Event(n: nat, kind: Kind, result: int, early: bool)

  /** Performed under mount_lock. */
  predicate Locked(e: Event) {
    match e.kind
    case UmountTree | CallerDrop | Peek | Final | Slowpath => true
    case Legitimize => e.result != 0 && !e.early
    case _ => false
  }

  predicate IsPut(e: Event) { e.kind == PutFast || e.kind == Slowpath }

  /** A walker that got its reference, for good or to be dropped by its caller. */
  predicate Acquires(e: Event) { e.kind == Legitimize && (e.result == 0 || e.result == -1) }

  // ---- one pid's tasks -----------------------------------------------------------------------------

  datatype Name = W(k: nat) | H(k: nat)
  datatype Maybe = No | Yes(e: Event)
  datatype Task = Task(events: seq<Event>, gets: nat, init: Maybe)
  datatype Holder = NoHolder | Held(name: Name, refs: nat)

  /** References a list of gets and puts leaves, from the initial one. */
  ghost function Balance(es: seq<Event>): (b: int) {
    if es == [] then 1 else Balance(es[..|es| - 1]) + (if IsPut(es[|es| - 1]) then -1 else 1)
  }

  ghost function GetsIn(es: seq<Event>): (b: nat) {
    if es == [] then 0 else GetsIn(es[..|es| - 1]) + Bit(!IsPut(es[|es| - 1]))
  }

  lemma {:induction false} BalancePush(es: seq<Event>, e: Event)
    ensures Balance(es + [e]) == Balance(es) + (if IsPut(e) then -1 else 1)
    ensures GetsIn(es + [e]) == GetsIn(es) + Bit(!IsPut(e))
  {
    assert (es + [e])[..|es|] == es;
  }

  /** A walker episode: the legitimize and, if it got a reference, at most one put. */
  ghost predicate WalkerOK(t: Task) {
    && t.init == No && 1 <= |t.events| <= 2 && t.events[0].kind == Legitimize
    && (|t.events| == 2 ==> Acquires(t.events[0]) && IsPut(t.events[1]))
  }

  /** A holder: gets and puts that never leave it in debt. */
  ghost predicate HolderOK(t: Task) {
    && (forall i :: 0 <= i < |t.events| ==> t.events[i].kind == Get || IsPut(t.events[i]))
    && (forall p {:trigger t.events[..p]} :: 0 <= p <= |t.events| ==> Balance(t.events[..p]) >= 0)
    && t.gets == GetsIn(t.events)
  }

  ghost predicate Open(t: Task) { |t.events| == 1 && Acquires(t.events[0]) }

  type Tasks = map<Name, Task>

  /** The open episodes are exactly those listed, and every episode is sound. */
  ghost predicate WalkersOK(ws: seq<Name>, tasks: Tasks, wk: nat) {
    && (forall i, j :: 0 <= i < j < |ws| ==> ws[i] != ws[j])
    && (forall i {:trigger ws[i]} :: 0 <= i < |ws| ==> ws[i].W? && ws[i] in tasks && Open(tasks[ws[i]]))
    && (forall x {:trigger x in tasks} ::
          x in tasks && x.W? ==> x.k <= wk && WalkerOK(tasks[x]) && (Open(tasks[x]) ==> x in ws))
  }

  /** Every holder is sound, and all but the current one have dropped everything. */
  ghost predicate HoldersOK(holder: Holder, tasks: Tasks, hk: nat) {
    && (holder.Held? ==>
          holder.name == H(hk) && holder.name in tasks && Balance(tasks[holder.name].events) == holder.refs)
    && (forall x {:trigger x in tasks} :: x in tasks && x.H? ==>
          x.k <= hk && HolderOK(tasks[x]) && (holder == NoHolder || x != holder.name ==> Balance(tasks[x].events) == 0))
  }

  lemma {:induction false} WalkersFrame(ws: seq<Name>, tasks: Tasks, nt: Tasks, wk: nat)
    requires WalkersOK(ws, tasks, wk)
    requires forall x: Name :: x.W? ==> (x in nt <==> x in tasks) && (x in tasks ==> nt[x] == tasks[x])
    ensures WalkersOK(ws, nt, wk)
  {
    hide WalkerOK, Open;
  }

  lemma {:induction false} HoldersFrame(holder: Holder, tasks: Tasks, nt: Tasks, hk: nat)
    requires HoldersOK(holder, tasks, hk)
    requires forall x: Name :: x.H? ==> (x in nt <==> x in tasks) && (x in tasks ==> nt[x] == tasks[x])
    ensures HoldersOK(holder, nt, hk)
  {
    hide HolderOK, Balance;
  }

  lemma {:induction false} AddWalker(ws: seq<Name>, tasks: Tasks, wk: nat, e: Event)
    requires WalkersOK(ws, tasks, wk) && e.kind == Legitimize
    ensures W(wk + 1) !in tasks
    ensures WalkersOK(if Acquires(e) then ws + [W(wk + 1)] else ws, tasks[W(wk + 1) := Task([e], 0, No)], wk + 1)
  {
    var n := W(wk + 1);
    assert n !in tasks;
    var nt, v := tasks[n := Task([e], 0, No)], if Acquires(e) then ws + [n] else ws;
    forall x | x in nt && x.W?
      ensures x.k <= wk + 1 && WalkerOK(nt[x]) && (Open(nt[x]) ==> x in v)
    { if x != n { assert x in tasks; } }
  }

  lemma {:induction false} PutWalker(ws: seq<Name>, tasks: Tasks, wk: nat, e: Event)
    requires WalkersOK(ws, tasks, wk) && ws != [] && IsPut(e)
    ensures ws[0] in tasks
    ensures var t := tasks[ws[0]]; WalkersOK(ws[1..], tasks[ws[0] := t.(events := t.events + [e])], wk)
  {
    var n := ws[0];
    var t := tasks[n];
    var nt := tasks[n := t.(events := t.events + [e])];
    assert ws == [n] + ws[1..];
    forall x | x in nt && x.W?
      ensures x.k <= wk && WalkerOK(nt[x]) && (Open(nt[x]) ==> x in ws[1..])
    { assert x in tasks; }
  }

  lemma {:induction false} DropWalker(ws: seq<Name>, tasks: Tasks, wk: nat)
    requires WalkersOK(ws, tasks, wk) && ws != []
    ensures WalkersOK(ws[..|ws| - 1], tasks - {ws[|ws| - 1]}, wk) && ws[|ws| - 1].W?
  {
    var n := ws[|ws| - 1];
    assert ws == ws[..|ws| - 1] + [n];
    var nt := tasks - {n};
    forall x | x in nt && x.W?
      ensures x.k <= wk && WalkerOK(nt[x]) && (Open(nt[x]) ==> x in ws[..|ws| - 1])
    { assert x in tasks; }
  }

  lemma {:induction false} NewHolder(holder: Holder, tasks: Tasks, hk: nat, init: Maybe)
    requires HoldersOK(holder, tasks, hk) && (holder == NoHolder || holder.refs == 0)
    ensures H(hk + 1) !in tasks && HoldersOK(Held(H(hk + 1), 1), tasks[H(hk + 1) := Task([], 0, init)], hk + 1)
  {
    var n := H(hk + 1);
    assert n !in tasks;
    var nt := tasks[n := Task([], 0, init)];
    assert Balance([]) == 1;
    assert HolderOK(nt[n]);
    hide HolderOK, Balance;
    forall x | x in nt && x.H?
      ensures x.k <= hk + 1 && HolderOK(nt[x]) && (x != n ==> Balance(nt[x].events) == 0)
    { if x != n { assert x in tasks; } }
  }

  lemma {:induction false} HolderMoves(holder: Holder, tasks: Tasks, hk: nat, e: Event)
    requires HoldersOK(holder, tasks, hk) && holder.Held? && holder.refs >= 1 && (e.kind == Get || IsPut(e))
    ensures holder.name in tasks
    ensures var t := tasks[holder.name];
      HoldersOK(holder.(refs := if IsPut(e) then holder.refs - 1 else holder.refs + 1),
          tasks[holder.name := t.(events := t.events + [e], gets := t.gets + Bit(!IsPut(e)))], hk)
  {
    hide HolderOK, Balance;
    var n := holder.name;
    var t := tasks[n];
    assert n in tasks && HolderOK(t);
    HolderPush(t, e);
    var nt := tasks[n := t.(events := t.events + [e], gets := t.gets + Bit(!IsPut(e)))];
    forall x | x in nt && x.H?
      ensures x.k <= hk && HolderOK(nt[x]) && (x != n ==> Balance(nt[x].events) == 0)
    { assert x in tasks; }
  }

  /** A holder from before the trace, and its first put. */
  lemma {:induction false} OlderHolder(holder: Holder, tasks: Tasks, hk: nat, e: Event)
    requires HoldersOK(holder, tasks, hk) && (holder == NoHolder || holder.refs == 0) && IsPut(e)
    ensures H(hk + 1) !in tasks && HoldersOK(Held(H(hk + 1), 0), tasks[H(hk + 1) := Task([e], 0, No)], hk + 1)
  {
    hide HoldersOK;
    NewHolder(holder, tasks, hk, No);
    var n := H(hk + 1);
    var t := Task([], 0, No);
    HolderMoves(Held(n, 1), tasks[n := t], hk + 1, e);
    assert [] + [e] == [e];
    assert tasks[n := t][n := Task([e], 0, No)] == tasks[n := Task([e], 0, No)];
  }

  lemma {:induction false} DropHolder(holder: Holder, tasks: Tasks, hk: nat)
    requires HoldersOK(holder, tasks, hk) && holder.Held? && tasks[holder.name].events == []
    ensures HoldersOK(NoHolder, tasks - {holder.name}, hk) && holder.refs == 1
  {
    assert Balance([]) == 1;
    hide HolderOK, Balance;
    var nt := tasks - {holder.name};
    forall x | x in nt && x.H? ensures x.k <= hk && HolderOK(nt[x]) && Balance(nt[x].events) == 0 { assert x in tasks; }
  }

  // ---- where each event went ---------------------------------------------------------------------------

  /** The task an event is given to, the holder it starts, or the umounter. */
  datatype Role = To(x: Name) | InitOf(x: Name) | User

  type Roles = map<nat, Role>

  /** What belongs to some walker or holder. */
  predicate Attributed(e: Event) { e.kind == Legitimize || e.kind == Get || IsPut(e) }

  /** The events of one role, in order; they are known by their line. */
  ghost function Picked(es: seq<Event>, who: Roles, r: Role): (p: seq<Event>) {
    if es == [] then [] else
      var e := es[|es| - 1];
      Picked(es[..|es| - 1], who, r) + if e.n in who && who[e.n] == r then [e] else []
  }

  ghost predicate Fresh(es: seq<Event>, e: Event) { forall d {:trigger d in es} :: d in es ==> d.n < e.n }

  ghost predicate Rising(es: seq<Event>) {
    forall i, j {:trigger es[i], es[j]} :: 0 <= i < j < |es| ==> es[i].n < es[j].n
  }

  lemma {:induction false} PickedIn(es: seq<Event>, who: Roles, r: Role, e: Event)
    ensures e in Picked(es, who, r) <==> e in es && e.n in who && who[e.n] == r
    decreases |es|
  {
    if es != [] {
      PickedIn(es[..|es| - 1], who, r, e);
      assert es == es[..|es| - 1] + [es[|es| - 1]];
    }
  }

  lemma {:induction false} PickedFrame(es: seq<Event>, who: Roles, nw: Roles, r: Role)
    requires forall d {:trigger d in es} :: d in es ==> (d.n in who && who[d.n] == r <==> d.n in nw && nw[d.n] == r)
    ensures Picked(es, who, r) == Picked(es, nw, r)
    decreases |es|
  {
    if es != [] {
      var front := es[..|es| - 1];
      forall d | d in front ensures d in es {}
      assert es[|es| - 1] in es;
      PickedFrame(front, who, nw, r);
    }
  }

  lemma {:induction false} PickedNone(es: seq<Event>, who: Roles, r: Role)
    requires forall k {:trigger who[k]} :: k in who ==> who[k] != r
    ensures Picked(es, who, r) == []
    decreases |es|
  {
    if es != [] { PickedNone(es[..|es| - 1], who, r); }
  }

  lemma {:induction false} PickedPush(es: seq<Event>, who: Roles, e: Event, role: Role, r: Role)
    requires Fresh(es, e)
    ensures Picked(es + [e], who[e.n := role], r) == Picked(es, who, r) + if r == role then [e] else []
  {
    assert (es + [e])[..|es|] == es;
    PickedFrame(es, who, who[e.n := role], r);
  }

  /** One role taken over whole by another that was empty. */
  lemma {:induction false} PickedMoved(es: seq<Event>, who: Roles, nw: Roles, r: Role, q: Role)
    requires forall d {:trigger d in es} :: d in es ==> (d.n in who && who[d.n] == r <==> d.n in nw && nw[d.n] == q)
    ensures Picked(es, nw, q) == Picked(es, who, r)
    decreases |es|
  {
    if es != [] {
      var front := es[..|es| - 1];
      forall d | d in front ensures d in es {}
      assert es[|es| - 1] in es;
      PickedMoved(front, who, nw, r, q);
    }
  }

  ghost function Inits(t: Task): (es: seq<Event>) { if t.init.Yes? then [t.init.e] else [] }

  /** Every attributed event went to exactly one place and is there, in order: a
      task's events, the acquisition it starts from, or the umounter's own. */
  ghost predicate Told(es: seq<Event>, who: Roles, tasks: Tasks, own: nat) {
    && (forall e {:trigger e in es} :: e in es ==> (Attributed(e) <==> e.n in who))
    && (forall k {:trigger who[k]} :: k in who ==> LineOf(es, k) && (who[k] == User || who[k].x in tasks))
    && (forall x {:trigger tasks[x]} ::
          x in tasks ==> tasks[x].events == Picked(es, who, To(x)) && Inits(tasks[x]) == Picked(es, who, InitOf(x)))
    && |Picked(es, who, User)| == own
  }

  ghost predicate LineOf(es: seq<Event>, k: nat) { exists e :: e in es && e.n == k }

  lemma {:induction false} LineMore(es: seq<Event>, e: Event, k: nat)
    requires LineOf(es, k) || k == e.n
    ensures LineOf(es + [e], k)
  {
    if k == e.n { assert (es + [e])[|es|] == e; } else {
      var d :| d in es && d.n == k;
      assert d in es + [e];
    }
  }

  ghost function EventsIn(tasks: Tasks, x: Name): (es: seq<Event>) { if x in tasks then tasks[x].events else [] }

  ghost function InitsIn(tasks: Tasks, x: Name): (es: seq<Event>) { if x in tasks then Inits(tasks[x]) else [] }

  lemma {:induction false} PickedFor(es: seq<Event>, who: Roles, tasks: Tasks, own: nat, x: Name)
    requires Told(es, who, tasks, own)
    ensures EventsIn(tasks, x) == Picked(es, who, To(x)) && InitsIn(tasks, x) == Picked(es, who, InitOf(x))
  {
    hide Picked, Inits;
    if x !in tasks { PickedNone(es, who, To(x)); PickedNone(es, who, InitOf(x)); }
  }

  /** The next event, given to a task or starting one. */
  lemma {:induction false} ToldPush(es: seq<Event>, who: Roles, tasks: Tasks, own: nat, e: Event, role: Role, nt: Tasks)
    requires Told(es, who, tasks, own) && Fresh(es, e) && Attributed(e) && role != User && role.x in nt
    requires forall y {:trigger y in nt} :: y in tasks ==> y in nt
    requires forall y {:trigger nt[y]} :: y in nt ==>
      && nt[y].events == EventsIn(tasks, y) + (if role == To(y) then [e] else [])
      && Inits(nt[y]) == InitsIn(tasks, y) + (if role == InitOf(y) then [e] else [])
    ensures Told(es + [e], who[e.n := role], nt, own)
    ensures Picked(es + [e], who[e.n := role], User) == Picked(es, who, User)
  {
    hide Picked, Inits, LineOf, EventsIn, InitsIn, Attributed;
    var nw, ne := who[e.n := role], es + [e];
    forall d | d in ne
      ensures Attributed(d) <==> d.n in nw
    { if d in es { assert d.n != e.n; } else { assert d == e; } }
    forall k | k in nw ensures LineOf(ne, k) && (nw[k] == User || nw[k].x in nt) {
      if k != e.n { assert who[k] == nw[k]; }
      LineMore(es, e, k);
    }
    forall y | y in nt ensures nt[y].events == Picked(ne, nw, To(y)) && Inits(nt[y]) == Picked(ne, nw, InitOf(y)) {
      PickedFor(es, who, tasks, own, y);
      PickedPush(es, who, e, role, To(y));
      PickedPush(es, who, e, role, InitOf(y));
    }
    PickedPush(es, who, e, role, User);
    assert Picked(es, who, User) + [] == Picked(es, who, User);
  }

  lemma {:induction false} ToldSkip(es: seq<Event>, who: Roles, tasks: Tasks, own: nat, e: Event)
    requires Told(es, who, tasks, own) && Fresh(es, e) && !Attributed(e)
    ensures Told(es + [e], who, tasks, own) && Picked(es + [e], who, User) == Picked(es, who, User)
  {
    hide Attributed, Inits;
    var ne := es + [e];
    assert ne[..|es|] == es;
    forall k | k in who ensures k != e.n && LineOf(ne, k) {
      assert who[k] == who[k] && LineOf(es, k);
      LineMore(es, e, k);
    }
    forall r: Role ensures Picked(ne, who, r) == Picked(es, who, r) {}
    forall d | d in ne ensures Attributed(d) <==> d.n in who { assert d in es || d == e; }
  }

  /** The only event of task x becomes the umounter's own. */
  lemma {:induction false} ToldTake(es: seq<Event>, who: Roles, tasks: Tasks, x: Name, e: Event)
    requires Told(es, who, tasks, 0) && x in tasks && tasks[x].events + Inits(tasks[x]) == [e]
    ensures e.n in who && Told(es, who[e.n := User], tasks - {x}, 1) && Picked(es, who[e.n := User], User) == [e]
  {
    hide Picked, LineOf, Inits;
    var nw, nt := who[e.n := User], tasks - {x};
    var a, b := Picked(es, who, To(x)), Picked(es, who, InitOf(x));
    var r := if b == [] then To(x) else InitOf(x);
    assert a + b == [e];
    assert |a| + |b| == 1;
    assert Picked(es, who, r) == [e] && (r == To(x) || a == []);
    assert [e][0] == e;
    PickedIn(es, who, r, e);
    forall d | d in es ensures d.n in who && who[d.n] == r ==> d == e { PickedIn(es, who, r, d); }
    forall d | d in es ensures !(d.n in who && who[d.n] == User) { PickedIn(es, who, User, d); }
    PickedMoved(es, who, nw, r, User);
    forall k | k in nw ensures LineOf(es, k) && (nw[k] == User || nw[k].x in nt) {
      assert who[k] == who[k];
      if k != e.n && who[k] != User && who[k].x == x { OnlyOne(es, who, x, e, k); }
    }
    forall y | y in nt ensures nt[y].events == Picked(es, nw, To(y)) && Inits(nt[y]) == Picked(es, nw, InitOf(y)) {
      assert tasks[y] == nt[y];
      PickedFrame(es, who, nw, To(y));
      PickedFrame(es, who, nw, InitOf(y));
    }
  }

  lemma {:induction false} OnlyOne(es: seq<Event>, who: Roles, x: Name, e: Event, k: nat)
    requires Picked(es, who, To(x)) + Picked(es, who, InitOf(x)) == [e] && LineOf(es, k) && k in who && who[k] != User
    requires who[k].x == x
    ensures k == e.n
  {
    hide Picked;
    var d :| d in es && d.n == k;
    PickedIn(es, who, To(x), d);
    PickedIn(es, who, InitOf(x), d);
    assert d in Picked(es, who, To(x)) + Picked(es, who, InitOf(x));
  }

  // ---- how much predates the trace -------------------------------------------------------------------------

  /** The holders whose first reference is older than the trace. */
  ghost function Bare(tasks: Tasks): (s: set<Name>) { set x | x in tasks && x.H? && tasks[x].init == No }

  /** How far the first j events, the umounter's own taken at the cut, have dropped
      more than they acquired. */
  ghost function Depth(es: seq<Event>, j: nat, own: nat, cut: nat): (d: int)
    requires j <= |es|
  {
    Count(es[..j], Puts()) + (if j >= cut then own else 0) - Count(es[..j], Gets())
  }

  /** The most any prefix of the first i has. */
  ghost function Deepest(es: seq<Event>, i: nat, own: nat, cut: nat): (d: nat)
    requires i <= |es|
  {
    var m := if i == 0 then 0 else Deepest(es, i - 1, own, cut);
    if Depth(es, i, own, cut) > m then Depth(es, i, own, cut) else m
  }

  lemma {:induction false} DeepestFrame(es: seq<Event>, e: Event, i: nat, own: nat, cut: nat)
    requires i <= |es|
    ensures Deepest(es + [e], i, own, cut) == Deepest(es, i, own, cut)
    decreases i
  {
    hide Count;
    assert (es + [e])[..i] == es[..i];
    if i > 0 { DeepestFrame(es, e, i - 1, own, cut); }
  }

  /** Before the cut, and if nothing is taken, the cut does not matter. */
  lemma {:induction false} DeepestBefore(es: seq<Event>, i: nat, own: nat, cut: nat, c: nat)
    requires i <= |es| && (own == 0 || i < cut)
    ensures Deepest(es, i, own, cut) == Deepest(es, i, 0, c)
    decreases i
  {
    hide Count;
    if i > 0 { DeepestBefore(es, i - 1, own, cut, c); }
  }

  /** The umounter's own reference is looked for before the first event after
      umount_tree, or at the end. */
  ghost function Cut(es: seq<Event>, un: nat): (c: nat)
    ensures c <= |es| && (c < |es| ==> es[c].n > un) && forall j :: 0 <= j < c ==> es[j].n <= un
  {
    if es == [] || es[0].n > un then 0 else 1 + Cut(es[1..], un)
  }

  lemma {:induction false} CutIs(es: seq<Event>, un: nat, c: nat)
    requires c <= |es| && (c < |es| ==> es[c].n > un) && forall j :: 0 <= j < c ==> es[j].n <= un
    ensures Cut(es, un) == c
  {
  }

  /** The counts and what predates the trace, in numbers. */
  ghost predicate Balanced(es: seq<Event>, own: nat, cut: nat, bare: nat, open: nat, refs: nat) {
    Depth(es, |es|, own, cut) == bare - open - refs && Deepest(es, |es|, own, cut) == bare
  }

  lemma {:induction false} BalancedPush(es: seq<Event>, own: nat, cut: nat, bare: nat, open: nat, refs: nat,
      e: Event, nb: nat, no: nat, nr: nat)
    requires Balanced(es, own, cut, bare, open, refs) && (own == 0 || cut <= |es|)
    requires nb - no - nr == bare - open - refs + Bit(IsPut(e)) - Bit(e.kind == Get || Acquires(e))
    requires nb == bare || (nb == bare + 1 && no == nr == 0)
    ensures Balanced(es + [e], own, cut, nb, no, nr)
  {
    hide Count;
    var ne := es + [e];
    DeepestFrame(es, e, |es|, own, cut);
    assert ne[..|es|] == es && ne[..|ne|] == ne && es[..|es|] == es;
    CountPush(ne, |es|, Gets());
    CountPush(ne, |es|, Puts());
  }

  lemma {:induction false} BalancedTake(es: seq<Event>, cut: nat, bare: nat, open: nat, refs: nat, no: nat, nr: nat)
    requires Balanced(es, 0, cut, bare, open, refs) && no + nr + 1 == open + refs
    ensures Balanced(es, 1, |es|, bare, no, nr)
  {
    hide Count;
    if |es| > 0 { DeepestBefore(es, |es| - 1, 1, |es|, cut); }
  }

  lemma {:induction false} BalancedSame(es: seq<Event>, cut: nat, bare: nat, open: nat, refs: nat, c: nat)
    requires Balanced(es, 0, cut, bare, open, refs)
    ensures Balanced(es, 0, c, bare, open, refs)
  {
    hide Count;
    DeepestBefore(es, |es|, 0, cut, c);
  }

  ghost predicate SameBare(tasks: Tasks, nt: Tasks) {
    forall x {:trigger x in nt} :: x in tasks && x.H? && tasks[x].init == No <==> x in nt && x.H? && nt[x].init == No
  }

  lemma {:induction false} BareSame(tasks: Tasks, nt: Tasks)
    requires SameBare(tasks, nt)
    ensures |Bare(nt)| == |Bare(tasks)|
  {
    assert Bare(nt) == Bare(tasks);
  }

  lemma {:induction false} BareMore(tasks: Tasks, x: Name, t: Task)
    requires x !in tasks && x.H? && t.init == No
    ensures |Bare(tasks[x := t])| == |Bare(tasks)| + 1
  {
    assert Bare(tasks[x := t]) == Bare(tasks) + {x};
  }

  // ---- puts in the order of the episodes --------------------------------------------------------------------

  ghost predicate Sorted(ws: seq<Name>) {
    forall i, j {:trigger ws[i], ws[j]} :: 0 <= i < j < |ws| ==> ws[i].k < ws[j].k
  }

  ghost predicate Earlier(tasks: Tasks, x: Name, y: Name)
    requires x in tasks && y in tasks
  {
    |tasks[x].events| == 2 && (|tasks[y].events| == 2 ==> tasks[x].events[1].n < tasks[y].events[1].n)
  }

  /** No episode gets its put before an older one that holds a reference. */
  ghost predicate InOrder(tasks: Tasks) {
    forall x, y {:trigger tasks[x], tasks[y]} ::
      x in tasks && y in tasks && x.W? && y.W? && x.k < y.k && tasks[x].events != [] && Acquires(tasks[x].events[0])
        && |tasks[y].events| == 2 ==>
      Earlier(tasks, x, y)
  }

  lemma {:induction false} OrderAdd(ws: seq<Name>, tasks: Tasks, wk: nat, e: Event)
    requires WalkersOK(ws, tasks, wk) && Sorted(ws) && InOrder(tasks)
    ensures Sorted(ws + [W(wk + 1)]) && InOrder(tasks[W(wk + 1) := Task([e], 0, No)])
  {
    hide WalkerOK, Open;
    forall i | 0 <= i < |ws| ensures ws[i].k < wk + 1 { assert ws[i] in tasks; }
    var n := W(wk + 1);
    var nt := tasks[n := Task([e], 0, No)];
    forall x, y | x in nt && y in nt && x.W? && y.W? && x.k < y.k && nt[x].events != [] && Acquires(nt[x].events[0])
        && |nt[y].events| == 2
      ensures Earlier(nt, x, y)
    {
      assert y != n && y in tasks && y.k <= wk;
      assert x != n && tasks[x] == nt[x] && tasks[y] == nt[y];
    }
  }

  lemma {:induction false} OrderUse(tasks: Tasks, x: Name, y: Name)
    requires InOrder(tasks) && x in tasks && y in tasks && x.W? && y.W? && x.k < y.k && tasks[x].events != []
    requires Acquires(tasks[x].events[0])
    ensures |tasks[y].events| == 2 ==> Earlier(tasks, x, y)
  {
  }

  /** An episode older than the oldest open one has its put. */
  lemma {:induction false} OlderClosed(ws: seq<Name>, tasks: Tasks, wk: nat, x: Name)
    requires WalkersOK(ws, tasks, wk) && ws != [] && Sorted(ws) && x in tasks && x.W? && x.k < ws[0].k
    requires Acquires(tasks[x].events[0])
    ensures |tasks[x].events| == 2
  {
    assert WalkerOK(tasks[x]);
    forall i | 0 <= i < |ws| ensures ws[i] != x { assert i == 0 || ws[0].k < ws[i].k; }
    assert x !in ws;
  }

  lemma {:induction false} OrderPut(ws: seq<Name>, tasks: Tasks, wk: nat, e: Event)
    requires WalkersOK(ws, tasks, wk) && ws != [] && Sorted(ws) && InOrder(tasks)
    requires forall x, d {:trigger d in tasks[x].events} :: x in tasks && d in tasks[x].events ==> d.n < e.n
    ensures Sorted(ws[1..]) && ws[0] in tasks
    ensures InOrder(tasks[ws[0] := tasks[ws[0]].(events := tasks[ws[0]].events + [e])])
  {
    hide WalkersOK, InOrder;
    var n := ws[0];
    WalkerName(ws, tasks, wk);
    var nt := tasks[n := tasks[n].(events := tasks[n].events + [e])];
    forall x, y | x in nt && y in nt && x.W? && y.W? && x.k < y.k && nt[x].events != [] && Acquires(nt[x].events[0])
        && |nt[y].events| == 2
      ensures Earlier(nt, x, y)
    {
      assert tasks[x].events[0] == nt[x].events[0];
      OrderUse(tasks, x, y);
      if y == n {
        OlderClosed(ws, tasks, wk, x);
        assert tasks[x].events[1] in tasks[x].events;
      }
    }
    OrderAll(nt);
  }

  lemma {:induction false} OrderAll(tasks: Tasks)
    requires forall x, y {:trigger tasks[x], tasks[y]} ::
      x in tasks && y in tasks && x.W? && y.W? && x.k < y.k && tasks[x].events != [] && Acquires(tasks[x].events[0])
        && |tasks[y].events| == 2 ==>
      Earlier(tasks, x, y)
    ensures InOrder(tasks)
  {
  }

  lemma {:induction false} OrderDrop(tasks: Tasks, x: Name, ws: seq<Name>)
    requires InOrder(tasks)
    ensures InOrder(tasks - {x})
    ensures ws != [] && Sorted(ws) ==> Sorted(ws[..|ws| - 1])
  {
    var nt := tasks - {x};
    forall u, y | u in nt && y in nt && u.W? && y.W? && u.k < y.k && nt[u].events != [] && Acquires(nt[u].events[0])
        && |nt[y].events| == 2
      ensures Earlier(nt, u, y)
    {
      assert tasks[u] == nt[u] && tasks[y] == nt[y];
      assert Earlier(tasks, u, y);
    }
  }

  lemma {:induction false} OrderFrame(tasks: Tasks, nt: Tasks)
    requires InOrder(tasks)
    requires forall x: Name :: x.W? ==> (x in nt <==> x in tasks) && (x in tasks ==> nt[x] == tasks[x])
    ensures InOrder(nt)
  {
    forall u, y | u in nt && y in nt && u.W? && y.W? && u.k < y.k && nt[u].events != [] && Acquires(nt[u].events[0])
        && |nt[y].events| == 2
      ensures Earlier(nt, u, y)
    {
      assert tasks[u] == nt[u] && tasks[y] == nt[y];
      assert Earlier(tasks, u, y);
    }
  }

  lemma {:induction false} ToldOld(es: seq<Event>, who: Roles, tasks: Tasks, own: nat, e: Event)
    requires Told(es, who, tasks, own) && Fresh(es, e)
    ensures forall x, d {:trigger d in tasks[x].events} :: x in tasks && d in tasks[x].events ==> d.n < e.n
  {
    hide Picked, Inits, Attributed, LineOf;
    forall x, d | x in tasks && d in tasks[x].events ensures d.n < e.n { PickedIn(es, who, To(x), d); }
  }

  // ---- what the umounter takes ------------------------------------------------------------------------------

  /** Younger episodes began later. */
  ghost predicate Began(tasks: Tasks) {
    forall x, y {:trigger tasks[x], tasks[y]} ::
      x in tasks && y in tasks && x.W? && y.W? && x.k < y.k && tasks[x].events != [] && tasks[y].events != [] ==>
      tasks[x].events[0].n < tasks[y].events[0].n
  }

  /** Episode t was over by line un. */
  ghost predicate Over(t: Task, un: nat) { |t.events| == 2 && t.events[1].n <= un }

  /** Nothing the umounter would rather have had was open at line un: after the episode
      it took, or if it took a first get, or nothing, none at all; and no first get
      without anything after it if it took nothing. */
  ghost predicate Passed(x: Name, t: Task, un: nat, mine: Maybe) {
    && (&& x.W? && t.events != [] && Acquires(t.events[0]) && t.events[0].n <= un
        && (mine.Yes? && mine.e.kind == Legitimize ==> mine.e.n < t.events[0].n)
        ==> Over(t, un))
    && (x.H? && t.init.Yes? && t.init.e.n <= un && mine == No ==> t.events != [] && t.events[0].n <= un)
  }

  ghost predicate Searched(tasks: Tasks, un: nat, mine: Maybe) {
    (mine.Yes? ==> mine.e.n <= un) && forall x {:trigger tasks[x]} :: x in tasks ==> Passed(x, tasks[x], un, mine)
  }

  ghost function OwnOf(mine: Maybe): (es: seq<Event>) { if mine.Yes? then [mine.e] else [] }

  ghost predicate AllBy(es: seq<Event>, un: nat) { forall d {:trigger d in es} :: d in es ==> d.n <= un }

  lemma {:induction false} BeganAdd(ws: seq<Name>, tasks: Tasks, wk: nat, e: Event)
    requires WalkersOK(ws, tasks, wk) && Began(tasks)
    requires forall x, d {:trigger d in tasks[x].events} :: x in tasks && d in tasks[x].events ==> d.n < e.n
    ensures Began(tasks[W(wk + 1) := Task([e], 0, No)])
  {
    hide WalkerOK, Open;
    var n := W(wk + 1);
    var nt := tasks[n := Task([e], 0, No)];
    forall x, y | x in nt && y in nt && x.W? && y.W? && x.k < y.k && nt[x].events != [] && nt[y].events != []
      ensures nt[x].events[0].n < nt[y].events[0].n
    {
      if y == n { assert x in tasks && tasks[x].events[0] in tasks[x].events; }
      else { assert y in tasks && y.k <= wk; assert tasks[x] == nt[x] && tasks[y] == nt[y]; }
    }
  }

  /** One more event at the end of a task, or a task less. */
  lemma {:induction false} BeganKept(tasks: Tasks, nt: Tasks)
    requires Began(tasks)
    requires forall x {:trigger nt[x]} ::
      x in nt && x.W? ==>
        x in tasks && tasks[x].events != [] && nt[x].events != [] && nt[x].events[0] == tasks[x].events[0]
    ensures Began(nt)
  {
    forall x, y | x in nt && y in nt && x.W? && y.W? && x.k < y.k ensures nt[x].events[0].n < nt[y].events[0].n {
      assert tasks[x].events[0] == nt[x].events[0] && tasks[y].events[0] == nt[y].events[0];
    }
  }

  lemma {:induction false} WalkersBegan(ws: seq<Name>, tasks: Tasks, wk: nat)
    requires WalkersOK(ws, tasks, wk)
    ensures forall x {:trigger tasks[x]} :: x in tasks && x.W? ==> tasks[x].events != []
  {
    hide Open;
    forall x | x in tasks && x.W? ensures tasks[x].events != [] { assert WalkerOK(tasks[x]); }
  }

  /** Later events change nothing about what was open then. */
  lemma {:induction false} PassedPush(x: Name, t: Task, un: nat, mine: Maybe, e: Event, u: Task)
    requires Passed(x, t, un, mine) && e.n > un && u.init == t.init && u.events == t.events + [e]
    requires x.W? ==> |t.events| == 1
    ensures Passed(x, u, un, mine)
  {
  }

  lemma {:induction false} SearchedPush(tasks: Tasks, un: nat, mine: Maybe, x: Name, e: Event, u: Task)
    requires Searched(tasks, un, mine) && e.n > un && x in tasks && u.init == tasks[x].init
    requires u.events == tasks[x].events + [e] && (x.W? ==> |tasks[x].events| == 1)
    ensures Searched(tasks[x := u], un, mine)
  {
    hide Passed;
    PassedPush(x, tasks[x], un, mine, e, u);
  }

  lemma {:induction false} SearchedNew(tasks: Tasks, un: nat, mine: Maybe, x: Name, e: Event, u: Task)
    requires Searched(tasks, un, mine) && e.n > un
    requires (u.events == [e] && u.init == No) || (x.H? && u.events == [] && u.init == Yes(e))
    ensures Searched(tasks[x := u], un, mine)
  {
    assert Passed(x, u, un, mine);
    hide Passed;
  }

  /** When it looks, everything seen is from before line un, and the episodes that are
      not over are the open ones. */
  lemma {:induction false} WalkerPassed(ws: seq<Name>, tasks: Tasks, wk: nat, un: nat, mine: Maybe, x: Name)
    requires WalkersOK(ws, tasks, wk) && x in tasks && x.W?
    requires forall d {:trigger d in tasks[x].events} :: d in tasks[x].events ==> d.n <= un
    requires x in ws ==> mine.Yes? && mine.e.kind == Legitimize && tasks[x].events[0].n <= mine.e.n
    ensures Passed(x, tasks[x], un, mine)
  {
    var t := tasks[x];
    assert WalkerOK(t);
    if |t.events| == 2 { assert t.events[1] in t.events; }
  }

  lemma {:induction false} HolderPassed(holder: Holder, tasks: Tasks, hk: nat, un: nat, mine: Maybe, x: Name)
    requires HoldersOK(holder, tasks, hk) && x in tasks && x.H?
    requires forall d {:trigger d in tasks[x].events} :: d in tasks[x].events ==> d.n <= un
    requires mine == No ==> !BareGet(holder, tasks)
    ensures Passed(x, tasks[x], un, mine)
  {
    hide HolderOK;
    var t := tasks[x];
    assert Balance([]) == 1;
    if t.events != [] { assert t.events[0] in t.events; }
  }

  lemma {:induction false} TaskBy(es: seq<Event>, who: Roles, tasks: Tasks, own: nat, un: nat)
    requires Told(es, who, tasks, own) && AllBy(es, un)
    ensures forall x, d {:trigger d in tasks[x].events} :: x in tasks && d in tasks[x].events ==> d.n <= un
    ensures forall x {:trigger tasks[x]} :: x in tasks && tasks[x].init.Yes? ==> tasks[x].init.e.n <= un
  {
    hide Picked, Attributed, LineOf;
    forall x, d | x in tasks && d in tasks[x].events ensures d.n <= un { PickedIn(es, who, To(x), d); }
    forall x | x in tasks && tasks[x].init.Yes? ensures tasks[x].init.e.n <= un {
      assert tasks[x].init.e in Inits(tasks[x]);
      PickedIn(es, who, InitOf(x), tasks[x].init.e);
    }
  }

  /** Nothing to take, or only a first get: no episode is open. */
  lemma {:induction false} SearchedNone(tasks: Tasks, wk: nat, holder: Holder, hk: nat, un: nat, mine: Maybe)
    requires WalkersOK([], tasks, wk) && HoldersOK(holder, tasks, hk) && (mine == No ==> !BareGet(holder, tasks))
    requires mine.Yes? ==> mine.e.n <= un
    requires forall x, d {:trigger d in tasks[x].events} :: x in tasks && d in tasks[x].events ==> d.n <= un
    ensures Searched(tasks, un, mine)
  {
    hide WalkersOK, HoldersOK, Passed, BareGet;
    forall x | x in tasks ensures Passed(x, tasks[x], un, mine) {
      if x.W? { WalkerPassed([], tasks, wk, un, mine, x); } else { HolderPassed(holder, tasks, hk, un, mine, x); }
    }
  }

  lemma {:induction false} SearchedLess(tasks: Tasks, un: nat, mine: Maybe, x: Name)
    requires Searched(tasks, un, mine)
    ensures Searched(tasks - {x}, un, mine)
  {
    hide Passed;
  }

  /** The youngest open episode: every open one began no later. */
  lemma {:induction false} SearchedLast(ws: seq<Name>, tasks: Tasks, wk: nat, holder: Holder, hk: nat, un: nat)
    requires WalkersOK(ws, tasks, wk) && ws != [] && Sorted(ws) && Began(tasks) && HoldersOK(holder, tasks, hk)
    requires forall x, d {:trigger d in tasks[x].events} :: x in tasks && d in tasks[x].events ==> d.n <= un
    ensures var w := ws[|ws| - 1]; w in tasks && tasks[w].events != [] && Searched(tasks, un, Yes(tasks[w].events[0]))
  {
    var w := ws[|ws| - 1];
    LastOpen(ws, tasks, wk);
    var mine := Yes(tasks[w].events[0]);
    assert mine.e in tasks[w].events;
    assert mine.e.kind == Legitimize by { assert WalkerOK(tasks[w]); }
    forall x | x in tasks && x.W? && x in ws ensures tasks[x].events != [] && tasks[x].events[0].n <= mine.e.n {
      assert WalkerOK(tasks[x]);
      var i :| 0 <= i < |ws| && ws[i] == x;
      if i < |ws| - 1 { assert ws[i].k < w.k; }
    }
    hide WalkersOK, HoldersOK, Passed, Sorted, Began;
    forall x | x in tasks ensures Passed(x, tasks[x], un, mine) {
      if x.W? { WalkerPassed(ws, tasks, wk, un, mine, x); } else { HolderPassed(holder, tasks, hk, un, mine, x); }
    }
  }

  // ---- the ledger -------------------------------------------------------------------------------------------

  ghost function RefsOf(h: Holder): (n: nat) { if h.Held? then h.refs else 0 }

  /** What is kept of one pid, with the events seen, how many there were when the own
      reference was looked for, and what was taken. */
  datatype View = View(un: nat, user: bool, wk: nat, hk: nat, ws: seq<Name>, holder: Holder, tasks: Tasks, done: bool,
      own: nat, who: Roles,
                       seen: seq<Event>, cut: nat, mine: Maybe)

  /** Every reference acquired, or older than the trace, is held, dropped or the
      umounter's own; only what the trace cannot explain is taken to be older. */
  ghost predicate Conserved(v: View) {
    Balanced(v.seen, v.own, v.cut, |Bare(v.tasks)|, |v.ws|, RefsOf(v.holder)) && v.cut <= |v.seen|
  }

  ghost predicate ViewOK(v: View) {
    && WalkersOK(v.ws, v.tasks, v.wk) && HoldersOK(v.holder, v.tasks, v.hk) && Conserved(v)
    && Told(v.seen, v.who, v.tasks, v.own)
    && Sorted(v.ws) && InOrder(v.tasks) && Began(v.tasks) && v.own <= 1 && (!v.done ==> v.own == 0 && v.user)
    && Picked(v.seen, v.who, User) == OwnOf(v.mine) && (v.user && v.done ==> Searched(v.tasks, v.un, v.mine))
  }

  /** e comes after everything seen, and after umount_tree once the own reference has
      been looked for. */
  ghost predicate IsNext(v: View, e: Event) { Fresh(v.seen, e) && (v.user && v.done ==> e.n > v.un) }

  /** v and a task more, or an event more at the end of one. */
  ghost function With(v: View, e: Event, role: Role, x: Name, t: Task): (z: View) {
    v.(tasks := v.tasks[x := t], who := v.who[e.n := role], seen := v.seen + [e])
  }

  // ---- each event --------------------------------------------------------------------------------------------

  /** What adding or growing a task x keeps, whatever it was for. */
  lemma {:induction false} WithTold(v: View, e: Event, role: Role, x: Name, t: Task)
    requires Told(v.seen, v.who, v.tasks, v.own) && Picked(v.seen, v.who, User) == OwnOf(v.mine) && Fresh(v.seen, e)
    requires Attributed(e)
    requires (role == To(x) && t.events == EventsIn(v.tasks, x) + [e] && Inits(t) == InitsIn(v.tasks, x))
      || (role == InitOf(x) && t.events == EventsIn(v.tasks, x) && Inits(t) == InitsIn(v.tasks, x) + [e])
    ensures var z := With(v, e, role, x, t);
            Told(z.seen, z.who, z.tasks, z.own) && Picked(z.seen, z.who, User) == OwnOf(z.mine)
  {
    hide Told, Picked, Inits, Attributed, InitsIn, OwnOf;
    var nt := v.tasks[x := t];
    forall y | y in nt
      ensures nt[y].events == EventsIn(v.tasks, y) + (if role == To(y) then [e] else [])
      ensures Inits(nt[y]) == InitsIn(v.tasks, y) + (if role == InitOf(y) then [e] else [])
    {
      if y != x { InsOf(v.tasks, y); }
    }
    ToldPush(v.seen, v.who, v.tasks, v.own, e, role, nt);
  }

  lemma {:induction false} InsOf(tasks: Tasks, x: Name)
    requires x in tasks
    ensures EventsIn(tasks, x) == tasks[x].events && InitsIn(tasks, x) == Inits(tasks[x])
  {
  }

  lemma {:induction false} InsNone(tasks: Tasks, x: Name)
    requires x !in tasks
    ensures EventsIn(tasks, x) == [] && InitsIn(tasks, x) == []
  {
  }

  lemma {:induction false} InitIs(t: Task)
    ensures Inits(t) == if t.init.Yes? then [t.init.e] else []
  {
  }

  lemma {:induction false} LegitOK(v: View, e: Event)
    requires ViewOK(v) && e.kind == Legitimize && IsNext(v, e)
    ensures W(v.wk + 1) !in v.tasks
    ensures ViewOK(With(v, e, To(W(v.wk + 1)), W(v.wk + 1), Task([e], 0, No)).(wk := v.wk + 1, ws := if Acquires(e)
        then v.ws + [W(v.wk + 1)] else v.ws))
  {
    hide WalkersOK, HoldersOK, Told, Balanced, Sorted, InOrder, Bare, Began, Searched, Picked, Inits;
    hide InitsIn, EventsIn, OwnOf;
    var x, t := W(v.wk + 1), Task([e], 0, No);
    AddWalker(v.ws, v.tasks, v.wk, e);
    InsNone(v.tasks, x);
    InitIs(t);
    WithTold(v, e, To(x), x, t);
    HoldersFrame(v.holder, v.tasks, v.tasks[x := t], v.hk);
    OrderAdd(v.ws, v.tasks, v.wk, e);
    ToldOld(v.seen, v.who, v.tasks, v.own, e);
    BeganAdd(v.ws, v.tasks, v.wk, e);
    if v.user && v.done { SearchedNew(v.tasks, v.un, v.mine, x, e, t); }
    BareSame(v.tasks, v.tasks[x := t]);
    BalancedPush(v.seen, v.own, v.cut, |Bare(v.tasks)|, |v.ws|, RefsOf(v.holder), e, |Bare(v.tasks)|,
        |v.ws| + Bit(Acquires(e)), RefsOf(v.holder));
  }

  /** Of a holder's task nothing about the episodes changes. */
  lemma {:induction false} HolderOnly(v: View, x: Name, t: Task)
    requires WalkersOK(v.ws, v.tasks, v.wk) && InOrder(v.tasks) && Began(v.tasks) && x.H?
    ensures WalkersOK(v.ws, v.tasks[x := t], v.wk) && InOrder(v.tasks[x := t]) && Began(v.tasks[x := t])
  {
    var nt := v.tasks[x := t];
    hide WalkersOK, InOrder, Began;
    WalkersFrame(v.ws, v.tasks, nt, v.wk);
    OrderFrame(v.tasks, nt);
    WalkersBegan(v.ws, v.tasks, v.wk);
    BeganKept(v.tasks, nt);
  }

  lemma {:induction false} GotFirstOK(v: View, e: Event)
    requires ViewOK(v) && e.kind == Get && IsNext(v, e) && RefsOf(v.holder) == 0
    ensures H(v.hk + 1) !in v.tasks
    ensures ViewOK(With(v, e, InitOf(H(v.hk + 1)), H(v.hk + 1), Task([], 0, Yes(e))).(hk := v.hk + 1,
        holder := Held(H(v.hk + 1), 1)))
  {
    hide WalkersOK, HoldersOK, Told, Balanced, Sorted, InOrder, Bare, Began, Searched, Picked, Inits;
    hide InitsIn, EventsIn, OwnOf;
    var x, t := H(v.hk + 1), Task([], 0, Yes(e));
    NewHolder(v.holder, v.tasks, v.hk, Yes(e));
    InsNone(v.tasks, x);
    InitIs(t);
    WithTold(v, e, InitOf(x), x, t);
    HolderOnly(v, x, t);
    if v.user && v.done { SearchedNew(v.tasks, v.un, v.mine, x, e, t); }
    BareSame(v.tasks, v.tasks[x := t]);
    BalancedPush(v.seen, v.own, v.cut, |Bare(v.tasks)|, |v.ws|, 0, e, |Bare(v.tasks)|, |v.ws|, 1);
  }

  /** One more event of the current holder. */
  lemma {:induction false} HolderEventOK(v: View, e: Event)
    requires ViewOK(v) && (e.kind == Get || (IsPut(e) && v.ws == [])) && IsNext(v, e) && RefsOf(v.holder) > 0
    ensures v.holder.name in v.tasks
    ensures var t := v.tasks[v.holder.name];
      ViewOK(With(v, e, To(v.holder.name), v.holder.name,
          t.(events := t.events + [e], gets := t.gets + Bit(!IsPut(e)))).(
        holder := v.holder.(refs := if IsPut(e) then v.holder.refs - 1 else v.holder.refs + 1)))
  {
    hide WalkersOK, HoldersOK, Told, Balanced, Sorted, InOrder, Bare, Began, Searched, Picked, Inits;
    hide InitsIn, EventsIn, OwnOf;
    HolderMoves(v.holder, v.tasks, v.hk, e);
    HolderName(v.holder, v.tasks, v.hk);
    var x := v.holder.name;
    var t := v.tasks[x].(events := v.tasks[x].events + [e], gets := v.tasks[x].gets + Bit(!IsPut(e)));
    InsOf(v.tasks, x);
    InitIs(t);
    InitIs(v.tasks[x]);
    WithTold(v, e, To(x), x, t);
    HolderOnly(v, x, t);
    if v.user && v.done { SearchedPush(v.tasks, v.un, v.mine, x, e, t); }
    BareSame(v.tasks, v.tasks[x := t]);
    var refs := if IsPut(e) then v.holder.refs - 1 else v.holder.refs + 1;
    BalancedPush(v.seen, v.own, v.cut, |Bare(v.tasks)|, |v.ws|, v.holder.refs, e, |Bare(v.tasks)|, |v.ws|, refs);
  }

  lemma {:induction false} WalkerPutOK(v: View, e: Event)
    requires ViewOK(v) && IsPut(e) && IsNext(v, e) && v.ws != []
    ensures v.ws[0] in v.tasks
    ensures var t := v.tasks[v.ws[0]];
            ViewOK(With(v, e, To(v.ws[0]), v.ws[0], t.(events := t.events + [e])).(ws := v.ws[1..]))
  {
    hide WalkersOK, HoldersOK, Told, Balanced, Sorted, InOrder, Bare, Began, Searched, Picked, Inits;
    hide InitsIn, EventsIn, OwnOf;
    PutWalker(v.ws, v.tasks, v.wk, e);
    WalkerName(v.ws, v.tasks, v.wk);
    ToldOld(v.seen, v.who, v.tasks, v.own, e);
    OrderPut(v.ws, v.tasks, v.wk, e);
    var x := v.ws[0];
    var t := v.tasks[x].(events := v.tasks[x].events + [e]);
    var nt := v.tasks[x := t];
    InsOf(v.tasks, x);
    InitIs(t);
    InitIs(v.tasks[x]);
    WithTold(v, e, To(x), x, t);
    HoldersFrame(v.holder, v.tasks, nt, v.hk);
    if v.user && v.done { SearchedPush(v.tasks, v.un, v.mine, x, e, t); }
    WalkersBegan(v.ws, v.tasks, v.wk);
    BeganKept(v.tasks, nt);
    BareSame(v.tasks, nt);
    BalancedPush(v.seen, v.own, v.cut, |Bare(v.tasks)|, |v.ws|, RefsOf(v.holder), e, |Bare(v.tasks)|, |v.ws| - 1,
        RefsOf(v.holder));
  }

  lemma {:induction false} FirstEvent(tasks: Tasks, x: Name, e: Event)
    ensures var t := Task([], 0, No); tasks[x := t][x := t.(events := t.events + [e])] == tasks[x := Task([e], 0, No)]
  {
    assert [] + [e] == [e];
  }

  lemma {:induction false} OlderPutOK(v: View, e: Event)
    requires ViewOK(v) && IsPut(e) && IsNext(v, e) && v.ws == [] && RefsOf(v.holder) == 0
    ensures H(v.hk + 1) !in v.tasks
    ensures ViewOK(With(v, e, To(H(v.hk + 1)), H(v.hk + 1), Task([e], 0, No)).(hk := v.hk + 1,
        holder := Held(H(v.hk + 1), 0)))
  {
    hide WalkersOK, HoldersOK, Told, Balanced, Sorted, InOrder, Bare, Began, Searched, Picked, Inits;
    hide InitsIn, EventsIn, OwnOf;
    var x, t := H(v.hk + 1), Task([e], 0, No);
    OlderHolder(v.holder, v.tasks, v.hk, e);
    InsNone(v.tasks, x);
    InitIs(t);
    WithTold(v, e, To(x), x, t);
    HolderOnly(v, x, t);
    if v.user && v.done { SearchedNew(v.tasks, v.un, v.mine, x, e, t); }
    BareMore(v.tasks, x, t);
    BalancedPush(v.seen, v.own, v.cut, |Bare(v.tasks)|, 0, 0, e, |Bare(v.tasks)| + 1, 0, 0);
  }

  lemma {:induction false} SkipOK(v: View, e: Event)
    requires ViewOK(v) && !Attributed(e) && IsNext(v, e)
    ensures ViewOK(v.(seen := v.seen + [e]))
  {
    hide WalkersOK, HoldersOK, Told, Balanced, Sorted, InOrder, Bare, Began, Searched, Picked, OwnOf;
    ToldSkip(v.seen, v.who, v.tasks, v.own, e);
    BalancedPush(v.seen, v.own, v.cut, |Bare(v.tasks)|, |v.ws|, RefsOf(v.holder), e, |Bare(v.tasks)|, |v.ws|,
        RefsOf(v.holder));
  }

  // ---- the umounter's own reference ------------------------------------------------------------------------------

  lemma {:induction false} TakeWalkerOK(v: View)
    requires ViewOK(v) && !v.done && AllBy(v.seen, v.un) && v.ws != []
    ensures var x := v.ws[|v.ws| - 1]; x in v.tasks && |v.tasks[x].events| == 1 && var e := v.tasks[x].events[0];
      ViewOK(v.(done := true, ws := v.ws[..|v.ws| - 1], tasks := v.tasks - {x}, own := 1, who := v.who[e.n := User],
          cut := |v.seen|, mine := Yes(e)))
  {
    hide WalkersOK, HoldersOK, Told, Balanced, Sorted, InOrder, Bare, Began, Searched, Picked;
    TaskBy(v.seen, v.who, v.tasks, v.own, v.un);
    SearchedLast(v.ws, v.tasks, v.wk, v.holder, v.hk, v.un);
    DropWalker(v.ws, v.tasks, v.wk);
    LastOpen(v.ws, v.tasks, v.wk);
    var x := v.ws[|v.ws| - 1];
    var e, nt := v.tasks[x].events[0], v.tasks - {x};
    OrderDrop(v.tasks, x, v.ws);
    ToldTake(v.seen, v.who, v.tasks, x, e);
    BalancedTake(v.seen, v.cut, |Bare(v.tasks)|, |v.ws|, RefsOf(v.holder), |v.ws| - 1, RefsOf(v.holder));
    SearchedLess(v.tasks, v.un, Yes(e), x);
    WalkersBegan(v.ws, v.tasks, v.wk);
    BeganKept(v.tasks, nt);
    HoldersFrame(v.holder, v.tasks, nt, v.hk);
    BareSame(v.tasks, nt);
  }

  lemma {:induction false} TakeGetOK(v: View)
    requires ViewOK(v) && !v.done && AllBy(v.seen, v.un) && v.ws == [] && BareGet(v.holder, v.tasks)
    ensures var x := v.holder.name; var e := v.tasks[x].init.e;
      ViewOK(v.(done := true, tasks := v.tasks - {x}, holder := NoHolder, own := 1, who := v.who[e.n := User],
          cut := |v.seen|, mine := Yes(e)))
  {
    hide WalkersOK, HoldersOK, Told, Balanced, Sorted, InOrder, Bare, Began, Searched, Picked;
    TaskBy(v.seen, v.who, v.tasks, v.own, v.un);
    var x := v.holder.name;
    var e, nt := v.tasks[x].init.e, v.tasks - {x};
    HolderName(v.holder, v.tasks, v.hk);
    DropHolder(v.holder, v.tasks, v.hk);
    SearchedNone(v.tasks, v.wk, v.holder, v.hk, v.un, Yes(e));
    SearchedLess(v.tasks, v.un, Yes(e), x);
    WalkersBegan(v.ws, v.tasks, v.wk);
    BeganKept(v.tasks, nt);
    OrderFrame(v.tasks, nt);
    ToldTake(v.seen, v.who, v.tasks, x, e);
    BalancedTake(v.seen, v.cut, |Bare(v.tasks)|, 0, 1, 0, 0);
    WalkersFrame(v.ws, v.tasks, nt, v.wk);
    BareSame(v.tasks, nt);
  }

  lemma {:induction false} TakeNoneOK(v: View)
    requires ViewOK(v) && !v.done && AllBy(v.seen, v.un) && v.ws == [] && !BareGet(v.holder, v.tasks)
    ensures ViewOK(v.(done := true, cut := |v.seen|))
  {
    hide WalkersOK, HoldersOK, Told, Balanced, Sorted, InOrder, Bare, Began, Searched, Picked;
    TaskBy(v.seen, v.who, v.tasks, v.own, v.un);
    NotMine(v.seen, v.who, v.tasks, v.own, v.mine);
    SearchedNone(v.tasks, v.wk, v.holder, v.hk, v.un, No);
    BalancedSame(v.seen, v.cut, |Bare(v.tasks)|, 0, RefsOf(v.holder), |v.seen|);
  }

  lemma {:induction false} ViewKnows(v: View)
    requires ViewOK(v)
    ensures v.ws != []
        ==> v.ws[0] in v.tasks && v.ws[0].W? && v.ws[|v.ws| - 1] in v.tasks && |v.tasks[v.ws[|v.ws| - 1]].events| == 1
    ensures v.holder.Held? ==> v.holder.name in v.tasks && v.holder.name.H?
    ensures v.own <= 1 && (!v.done ==> v.own == 0 && v.user)
  {
    hide WalkersOK, HoldersOK, Told, Balanced, Sorted, InOrder, Bare, Began, Searched, Picked;
    if v.ws != [] {
      WalkerName(v.ws, v.tasks, v.wk);
      LastOpen(v.ws, v.tasks, v.wk);
    }
    if v.holder.Held? { HolderName(v.holder, v.tasks, v.hk); }
  }

  /** What the attribution of one pid's events works on. */
  class Ledger {
    const un: nat           // the line of umount_tree
    const user: bool        // the umounter's pid
    var wk: nat
    var hk: nat
    var walkers: seq<Name>  // episodes holding a reference, oldest first
    var holder: Holder
    var tasks: Tasks
    var ownDone: bool       // always, except for the umounter's pid before umount_tree
    var own: nat            // references taken to be the umounter's own
    var who: Roles          // by line, where the event went
    ghost var seen: seq<Event>
    ghost var cut: nat      // how many were seen when the own reference was looked for
    ghost var mine: Maybe   // what was taken

    ghost function Now(): (v: View)
      reads this
    {
      View(un, user, wk, hk, walkers, holder, tasks, ownDone, own, who, seen, cut, mine)
    }

    ghost predicate Valid()
      reads this
    {
      ViewOK(Now())
    }

    constructor (isUser: bool, line: nat)
      ensures Valid() && tasks == map[] && walkers == [] && holder == NoHolder && seen == [] && own == wk == hk == 0
      ensures un == line && user == isUser && ownDone == !user
    {
      un, user := line, isUser;
      wk, hk, walkers, holder, tasks, ownDone, own, who := 0, 0, [], NoHolder, map[], !isUser, 0, map[];
      seen, cut, mine := [], 0, No;
      new;
      assert Bare(map[]) == {};
      assert Count([], Puts()) == 0 && Count([], Gets()) == 0;
      assert seen[..0] == [];
    }

    /** A new walker episode. */
    method Legit(e: Event)
      requires Valid() && e.kind == Legitimize && IsNext(Now(), e)
      modifies this
      ensures Valid() && seen == old(seen) + [e] && own == old(own) && ownDone == old(ownDone) && cut == old(cut)
      ensures mine == old(mine)
      ensures wk == old(wk) + 1 && W(wk) !in old(tasks) && tasks == old(tasks)[W(wk) := Task([e], 0, No)]
      ensures who == old(who)[e.n := To(W(wk))]
      ensures walkers == (if Acquires(e) then old(walkers) + [W(wk)] else old(walkers)) && holder == old(holder)
      ensures hk == old(hk)
    {
      hide ViewOK, IsNext;
      LegitOK(Now(), e);
      wk := wk + 1;
      var name := W(wk);
      tasks := tasks[name := Task([e], 0, No)];
      who := who[e.n := To(name)];
      if e.result == 0 || e.result == -1 { walkers := walkers + [name]; }
      seen := seen + [e];
    }

    /** mntget(): the initial reference of a new holder, or one more of the current. */
    method GotOne(e: Event)
      requires Valid() && e.kind == Get && IsNext(Now(), e)
      modifies this
      ensures Valid() && seen == old(seen) + [e] && own == old(own) && ownDone == old(ownDone) && cut == old(cut)
      ensures mine == old(mine) && walkers == old(walkers) && wk == old(wk)
      ensures RefsOf(old(holder)) == 0 ==>
        && hk == old(hk) + 1 && H(hk) !in old(tasks) && holder == Held(H(hk), 1)
        && tasks == old(tasks)[H(hk) := Task([], 0, Yes(e))] && who == old(who)[e.n := InitOf(H(hk))]
      ensures RefsOf(old(holder)) > 0
          ==> hk == old(hk) && old(holder).name in old(tasks) && holder == old(holder).(refs := old(holder).refs + 1)
      ensures RefsOf(old(holder)) > 0 ==> var t := old(tasks)[old(holder).name];
        && tasks == old(tasks)[old(holder).name := t.(events := t.events + [e], gets := t.gets + 1)]
        && who == old(who)[e.n := To(old(holder).name)]
    {
      hide ViewOK, IsNext;
      if holder == NoHolder || holder.refs == 0 {
        GotFirstOK(Now(), e);
        hk := hk + 1;
        holder := Held(H(hk), 1);
        tasks := tasks[H(hk) := Task([], 0, Yes(e))];
        who := who[e.n := InitOf(H(hk))];
      } else {
        HolderEventOK(Now(), e);
        var t := tasks[holder.name];
        tasks := tasks[holder.name := t.(events := t.events + [e], gets := t.gets + 1)];
        who := who[e.n := To(holder.name)];
        holder := holder.(refs := holder.refs + 1);
      }
      seen := seen + [e];
    }

    /** mntput(): of the oldest open walker, else of the holder, else of a new holder
        whose reference predates the trace. */
    method PutOne(e: Event)
      requires Valid() && IsPut(e) && IsNext(Now(), e)
      modifies this
      ensures Valid() && seen == old(seen) + [e] && own == old(own) && ownDone == old(ownDone) && cut == old(cut)
      ensures mine == old(mine) && wk == old(wk)
      ensures old(walkers) != []
          ==> old(walkers)[0] in old(tasks) && walkers == old(walkers)[1..] && holder == old(holder) && hk == old(hk)
      ensures old(walkers) != [] ==> var x := old(walkers)[0]; var t := old(tasks)[x];
        tasks == old(tasks)[x := t.(events := t.events + [e])] && who == old(who)[e.n := To(x)]
      ensures old(walkers) == [] && RefsOf(old(holder)) > 0
          ==> && old(holder).name in old(tasks) && walkers == [] && holder == old(holder).(refs := old(holder).refs - 1)
              && hk == old(hk)
      ensures old(walkers) == [] && RefsOf(old(holder)) > 0 ==> var x := old(holder).name; var t := old(tasks)[x];
        tasks == old(tasks)[x := t.(events := t.events + [e])] && who == old(who)[e.n := To(x)]
      ensures old(walkers) == [] && RefsOf(old(holder)) == 0
          ==> hk == old(hk) + 1 && H(hk) !in old(tasks) && walkers == [] && holder == Held(H(hk), 0)
      ensures old(walkers) == [] && RefsOf(old(holder)) == 0
          ==> tasks == old(tasks)[H(hk) := Task([e], 0, No)] && who == old(who)[e.n := To(H(hk))]
    {
      hide ViewOK, IsNext;
      if walkers != [] {
        WalkerPutOK(Now(), e);
        var name := walkers[0];
        walkers := walkers[1..];
        var t := tasks[name];
        tasks := tasks[name := t.(events := t.events + [e])];
        who := who[e.n := To(name)];
        seen := seen + [e];
      } else if holder == NoHolder || holder.refs == 0 { PutOnOlder(e); } else { PutOnHolder(e); }
    }

    /** ... with no walker open: of the holder, ... */
    method PutOnHolder(e: Event)
      requires Valid() && IsPut(e) && IsNext(Now(), e) && walkers == [] && RefsOf(holder) > 0
      modifies this
      ensures Valid() && seen == old(seen) + [e] && own == old(own) && ownDone == old(ownDone) && cut == old(cut)
      ensures mine == old(mine) && wk == old(wk) && walkers == []
      ensures old(holder).name in old(tasks) && holder == old(holder).(refs := old(holder).refs - 1) && hk == old(hk)
      ensures var x := old(holder).name; var t := old(tasks)[x];
              tasks == old(tasks)[x := t.(events := t.events + [e])] && who == old(who)[e.n := To(x)]
    {
      hide ViewOK, IsNext;
      HolderEventOK(Now(), e);
      var name := holder.name;
      var t := tasks[name];
      holder := holder.(refs := holder.refs - 1);
      tasks := tasks[name := t.(events := t.events + [e])];
      who := who[e.n := To(name)];
      seen := seen + [e];
    }

    /** ... or of a new one that predates the trace. */
    method PutOnOlder(e: Event)
      requires Valid() && IsPut(e) && IsNext(Now(), e) && walkers == [] && RefsOf(holder) == 0
      modifies this
      ensures Valid() && seen == old(seen) + [e] && own == old(own) && ownDone == old(ownDone) && cut == old(cut)
      ensures mine == old(mine) && wk == old(wk) && walkers == []
      ensures hk == old(hk) + 1 && H(hk) !in old(tasks) && holder == Held(H(hk), 0)
      ensures tasks == old(tasks)[H(hk) := Task([e], 0, No)] && who == old(who)[e.n := To(H(hk))]
    {
      hide ViewOK, IsNext;
      OlderPutOK(Now(), e);
      FirstEvent(tasks, H(hk + 1), e);
      hk := hk + 1;
      holder := Held(H(hk), 1);
      var t := Task([], 0, No);
      var with := tasks[H(hk) := t];
      holder := holder.(refs := holder.refs - 1);
      tasks := with[H(hk) := t.(events := t.events + [e])];
      who := who[e.n := To(H(hk))];
      seen := seen + [e];
    }

    /** The umounter's own reference: the youngest open episode, else a holder that has
        done nothing but its first get. */
    method TakeOwn()
      requires Valid() && !ownDone && AllBy(seen, un)
      modifies this
      ensures Valid() && ownDone && seen == old(seen) && cut == |seen| && wk == old(wk) && hk == old(hk)
      ensures old(walkers) != [] ==> var x := old(walkers)[|old(walkers)| - 1];
        && x in old(tasks) && |old(tasks)[x].events| == 1 && walkers == old(walkers)[..|old(walkers)| - 1]
        && holder == old(holder) && tasks == old(tasks) - {x}
        && own == 1 && who == old(who)[old(tasks)[x].events[0].n := User]
      ensures old(walkers) == [] && BareGet(old(holder), old(tasks)) ==> var x := old(holder).name;
        && walkers == [] && holder == NoHolder && tasks == old(tasks) - {x} && own == 1
        && who == old(who)[old(tasks)[x].init.e.n := User]
      ensures old(walkers) == [] && !BareGet(old(holder), old(tasks)) ==>
        walkers == [] && holder == old(holder) && tasks == old(tasks) && own == 0 && who == old(who)
    {
      hide ViewOK, AllBy;
      ghost var v := Now();
      ViewKnows(v);
      ownDone := true;
      if walkers != [] {
        TakeWalkerOK(v);
        var name := walkers[|walkers| - 1];
        var e0 := tasks[name].events[0];
        walkers := walkers[..|walkers| - 1];
        tasks := tasks - {name};
        who := who[e0.n := User];
        mine := Yes(e0);
        own := own + 1;
      } else if holder.Held? && holder.refs > 0 && tasks[holder.name].init.Yes? && tasks[holder.name].events == [] {
        TakeGetOK(v);
        var e0 := tasks[holder.name].init.e;
        tasks := tasks - {holder.name};
        who := who[e0.n := User];
        mine := Yes(e0);
        holder := NoHolder;
        own := own + 1;
      } else { TakeNoneOK(v); }
      cut := |seen|;
    }

    /** All of one pid's events, in program order.  Each attributed one is in exactly
        one place; no episode has more than its put, episodes get their puts in order;
        no holder is ever in debt and all but the last have dropped everything; of the
        puts exactly those the trace has no reference for are given to references older
        than it; and the umounter takes the youngest episode open at umount_tree, else
        a first get with nothing after it, if there is one. */
    method Attribute(pes: seq<Event>)
      requires Valid() && seen == [] && Rising(pes) && ownDone == !user
      modifies this
      ensures Valid() && ownDone && own <= 1 && (!user ==> own == 0)
      ensures forall i :: 0 <= i < |pes| ==> (Attributed(pes[i]) <==> pes[i].n in who)
      ensures forall x ::
        x in tasks ==> tasks[x].events == Picked(pes, who, To(x)) && Inits(tasks[x]) == Picked(pes, who, InitOf(x))
      ensures forall i :: 0 <= i < |pes| && Attributed(pes[i]) && who[pes[i].n] != User ==> who[pes[i].n].x in tasks
      ensures own == |Picked(pes, who, User)| && Picked(pes, who, User) == OwnOf(mine)
      ensures user ==> Searched(tasks, un, mine)
      ensures forall x :: x in tasks && x.W? ==> WalkerOK(tasks[x]) && (Open(tasks[x]) <==> x in walkers)
      ensures InOrder(tasks)
      ensures forall x, p :: x in tasks && x.H? && 0 <= p <= |tasks[x].events| ==> Balance(tasks[x].events[..p]) >= 0
      ensures forall x ::
        x in tasks && x.H? ==> Balance(tasks[x].events) == if holder.Held? && x == holder.name then holder.refs else 0
      ensures Count(pes, Gets()) + |Bare(tasks)| == Count(pes, Puts()) + own + |walkers| + RefsOf(holder)
      ensures |Bare(tasks)| == Deepest(pes, |pes|, own, Cut(pes, un))
    {
      hide ViewOK, WalkersOK, HoldersOK, Told, Balanced, Sorted, InOrder, Bare, Count, Balance, Began;
      hide Searched, Picked, WalkerOK, Open;
      NothingOwn(Now());
      for i := 0 to |pes|
        invariant Valid() && seen == pes[..i] && (!user ==> ownDone && own == 0)
        invariant !ownDone ==> forall j :: 0 <= j < i ==> pes[j].n <= un
        invariant user && ownDone && i < |pes| ==> pes[i].n > un
        invariant ownDone && own > 0 ==> cut == Cut(pes, un)
      {
        One(pes, i);
      }
      assert pes[..|pes|] == pes;
      if !ownDone { CutIs(pes, un, |pes|); AllByIs(pes, |pes|, un); TakeOwn(); }
      ViewMeans(Now(), pes);
    }

    /** The i-th event. */
    method One(pes: seq<Event>, i: nat)
      requires Valid() && i < |pes| && seen == pes[..i] && Rising(pes) && (!user ==> ownDone && own == 0)
      requires (!ownDone ==> forall j :: 0 <= j < i ==> pes[j].n <= un) && (user && ownDone ==> pes[i].n > un)
      requires ownDone && own > 0 ==> cut == Cut(pes, un)
      modifies this
      ensures Valid() && seen == pes[..i + 1] && (!user ==> ownDone && own == 0)
      ensures !ownDone ==> forall j :: 0 <= j < i + 1 ==> pes[j].n <= un
      ensures (user && ownDone && i + 1 < |pes| ==> pes[i + 1].n > un) && (ownDone && own > 0 ==> cut == Cut(pes, un))
    {
      hide ViewOK, WalkersOK, HoldersOK, Told, Balanced, Sorted, InOrder, Bare, Count, Balance, Began, Searched, Picked;
      var e := pes[i];
      FreshNext(pes, i);
      assert pes[..i + 1] == pes[..i] + [e];
      if !ownDone && e.n > un {
        CutIs(pes, un, i);
        AllByIs(pes, i, un);
        ViewKnows(Now());
        TakeOwn();
      }
      if e.kind == Legitimize { Legit(e); }
      else if e.kind == Get { GotOne(e); }
      else if IsPut(e) { PutOne(e); }
      else { SkipOK(Now(), e); seen := seen + [e]; }
    }
  }

  /** The current holder has done nothing but the get it started with. */
  predicate BareGet(h: Holder, tasks: Tasks) {
    h.Held? && h.refs > 0 && h.name in tasks && tasks[h.name].init.Yes? && tasks[h.name].events == []
  }

  lemma {:induction false} AllByIs(es: seq<Event>, i: nat, un: nat)
    requires i <= |es| && forall j :: 0 <= j < i ==> es[j].n <= un
    ensures AllBy(es[..i], un)
  {
  }

  lemma {:induction false} NotMine(es: seq<Event>, who: Roles, tasks: Tasks, own: nat, mine: Maybe)
    requires Told(es, who, tasks, own) && own == 0 && Picked(es, who, User) == OwnOf(mine)
    ensures mine == No
  {
    hide Picked;
  }

  lemma {:induction false} NothingOwn(v: View)
    requires ViewOK(v) && v.seen == []
    ensures v.own == 0
  {
    hide WalkersOK, HoldersOK, Balanced, Sorted, InOrder, Bare, Began, Searched;
  }

  /** The invariant after the last event, in plain terms. */
  lemma {:induction false} ViewMeans(v: View, pes: seq<Event>)
    requires ViewOK(v) && v.seen == pes && v.done && (v.own > 0 ==> v.cut == Cut(pes, v.un))
    ensures v.own <= 1 && (v.user ==> Searched(v.tasks, v.un, v.mine))
    ensures forall i :: 0 <= i < |pes| ==> (Attributed(pes[i]) <==> pes[i].n in v.who)
    ensures forall x :: x in v.tasks ==> v.tasks[x].events == Picked(pes, v.who, To(x))
    ensures forall x :: x in v.tasks ==> Inits(v.tasks[x]) == Picked(pes, v.who, InitOf(x))
    ensures forall i :: 0 <= i < |pes| && Attributed(pes[i]) && v.who[pes[i].n] != User ==> v.who[pes[i].n].x in v.tasks
    ensures v.own == |Picked(pes, v.who, User)| && Picked(pes, v.who, User) == OwnOf(v.mine)
    ensures forall x :: x in v.tasks && x.W? ==> WalkerOK(v.tasks[x]) && (Open(v.tasks[x]) <==> x in v.ws)
    ensures InOrder(v.tasks)
    ensures forall x, p ::
      x in v.tasks && x.H? && 0 <= p <= |v.tasks[x].events| ==> Balance(v.tasks[x].events[..p]) >= 0
    ensures forall x ::
      x in v.tasks && x.H? ==>
        Balance(v.tasks[x].events) == if v.holder.Held? && x == v.holder.name then v.holder.refs else 0
    ensures Count(pes, Gets()) + |Bare(v.tasks)| == Count(pes, Puts()) + v.own + |v.ws| + RefsOf(v.holder)
    ensures |Bare(v.tasks)| == Deepest(pes, |pes|, v.own, Cut(pes, v.un))
  {
    hide WalkersOK, HoldersOK, Told, Balanced, Sorted, InOrder, Bare, Count, Balance, Began, Searched;
    hide Picked, WalkerOK, Open, Inits, Attributed, Deepest;
    var c := Cut(pes, v.un);
    if v.own == 0 { BalancedSame(pes, v.cut, |Bare(v.tasks)|, |v.ws|, RefsOf(v.holder), c); }
    BalancedMeans(pes, v.own, c, |Bare(v.tasks)|, |v.ws|, RefsOf(v.holder));
    ToldMeans(pes, v.who, v.tasks, v.own);
    WalkersMean(v.ws, v.tasks, v.wk);
    HoldersMean(v.holder, v.tasks, v.hk);
  }

  lemma {:induction false} FreshNext(es: seq<Event>, i: nat)
    requires Rising(es) && i < |es|
    ensures Fresh(es[..i], es[i])
  {
    forall d | d in es[..i] ensures d.n < es[i].n { var j :| 0 <= j < i && es[..i][j] == d; assert es[j] == d; }
  }

  lemma {:induction false} LastOpen(ws: seq<Name>, tasks: Tasks, wk: nat)
    requires WalkersOK(ws, tasks, wk) && ws != []
    ensures var x := ws[|ws| - 1]; x in tasks && x.W? && |tasks[x].events| == 1 && tasks[x].init == No
  {
  }

  lemma {:induction false} BalancedMeans(es: seq<Event>, own: nat, cut: nat, bare: nat, open: nat, refs: nat)
    requires Balanced(es, own, cut, bare, open, refs) && cut <= |es|
    ensures Count(es, Gets()) + bare == Count(es, Puts()) + own + open + refs && bare == Deepest(es, |es|, own, cut)
  {
    hide Count;
    assert es[..|es|] == es;
  }

  lemma {:induction false} ToldMeans(es: seq<Event>, who: Roles, tasks: Tasks, own: nat)
    requires Told(es, who, tasks, own)
    ensures forall i :: 0 <= i < |es| ==> (Attributed(es[i]) <==> es[i].n in who)
    ensures forall x ::
      x in tasks ==> tasks[x].events == Picked(es, who, To(x)) && Inits(tasks[x]) == Picked(es, who, InitOf(x))
    ensures forall i :: 0 <= i < |es| && Attributed(es[i]) && who[es[i].n] != User ==> who[es[i].n].x in tasks
    ensures own == |Picked(es, who, User)|
  {
    hide Picked, Inits, Attributed, LineOf;
    forall i | 0 <= i < |es| ensures Attributed(es[i]) <==> es[i].n in who { assert es[i] in es; }
  }

  lemma {:induction false} WalkersMean(ws: seq<Name>, tasks: Tasks, wk: nat)
    requires WalkersOK(ws, tasks, wk)
    ensures forall x :: x in tasks && x.W? ==> WalkerOK(tasks[x]) && (Open(tasks[x]) <==> x in ws)
  {
    hide WalkerOK, Open;
  }

  lemma {:induction false} HoldersMean(holder: Holder, tasks: Tasks, hk: nat)
    requires HoldersOK(holder, tasks, hk)
    ensures forall x, p :: x in tasks && x.H? && 0 <= p <= |tasks[x].events| ==> Balance(tasks[x].events[..p]) >= 0
    ensures forall x ::
      x in tasks && x.H? ==> Balance(tasks[x].events) == if holder.Held? && x == holder.name then holder.refs else 0
  {
    hide Balance;
    forall x, p | x in tasks && x.H? && 0 <= p <= |tasks[x].events|
      ensures Balance(tasks[x].events[..p]) >= 0
    { assert HolderOK(tasks[x]); }
  }

  ghost function Gets(): (f: Event -> bool) { (e: Event) => e.kind == Get || Acquires(e) }

  ghost function Puts(): (f: Event -> bool) { (e: Event) => IsPut(e) }

  ghost function Count(es: seq<Event>, f: Event -> bool): (n: nat) {
    if es == [] then 0 else Count(es[..|es| - 1], f) + Bit(f(es[|es| - 1]))
  }

  lemma {:induction false} CountPush(es: seq<Event>, i: nat, f: Event -> bool)
    requires i < |es|
    ensures Count(es[..i + 1], f) == Count(es[..i], f) + Bit(f(es[i]))
  {
    assert es[..i + 1][..i] == es[..i];
  }

  lemma {:induction false} HolderName(holder: Holder, tasks: Tasks, hk: nat)
    requires HoldersOK(holder, tasks, hk) && holder.Held?
    ensures holder.name.H? && holder.name in tasks
  {
  }

  lemma {:induction false} WalkerName(ws: seq<Name>, tasks: Tasks, wk: nat)
    requires WalkersOK(ws, tasks, wk) && ws != []
    ensures ws[0].W? && ws[0] in tasks && Open(tasks[ws[0]])
  {
  }

  /** One more get or put of a holder that is not in debt. */
  lemma {:induction false} HolderPush(t: Task, e: Event)
    requires HolderOK(t) && (e.kind == Get || (IsPut(e) && Balance(t.events) >= 1))
    ensures HolderOK(t.(events := t.events + [e], gets := t.gets + Bit(!IsPut(e))))
    ensures Balance(t.events + [e]) == Balance(t.events) + (if IsPut(e) then -1 else 1)
  {
    BalancePush(t.events, e);
    var es := t.events + [e];
    assert t.events[..|t.events|] == t.events;
    forall p | 0 <= p <= |es| ensures Balance(es[..p]) >= 0 {
      if p <= |t.events| { assert es[..p] == t.events[..p]; } else { assert es[..p] == es; }
    }
  }

  // ---- pruning ------------------------------------------------------------------------------------------

  /** What a task still owes: a walker its put, a holder its balance. */
  ghost function Owes(x: Name, t: Task): (n: int) { if x.W? then Bit(Open(t)) else Balance(t.events) }

  ghost predicate TaskOK(x: Name, t: Task) { if x.W? then WalkerOK(t) else HolderOK(t) }

  /** The net of a task's events, added up. */
  method NetOf(x: Name, t: Task) returns (net: int)
    requires TaskOK(x, t)
    ensures net == Owes(x, t)
  {
    net := if x.W? then 0 else 1;
    for i := 0 to |t.events|
      invariant net == if x.W? then Bit(i > 0 && Acquires(t.events[0])) - Bit(i > 1) else Balance(t.events[..i])
    {
      var e := t.events[i];
      assert t.events[..i + 1][..i] == t.events[..i];
      if x.W? {
        if e.kind == Legitimize && (e.result == 0 || e.result == -1) { net := net + 1; }
      } else {
        if e.kind == Get { net := net + 1; }
      }
      if IsPut(e) { net := net - 1; }
    }
    assert t.events[..|t.events|] == t.events;
  }

  /** All of a task's events precede umount_tree and it owes nothing. */
  ghost predicate Settled(x: Name, t: Task, un: nat) {
    t.events != [] && t.events[|t.events| - 1].n < un && Owes(x, t) == 0
  }

  /** Exactly the settled tasks go; no locked sum can have seen them. */
  method Prune(tasks: Tasks, names: seq<Name>, un: nat) returns (kept: Tasks, pruned: seq<Name>)
    requires forall x {:trigger x in tasks} :: x in tasks ==> TaskOK(x, tasks[x])
    requires forall x :: x in names <==> x in tasks
    ensures forall x :: x in pruned <==> x in tasks && Settled(x, tasks[x], un)
    ensures kept == map x | x in tasks && !Settled(x, tasks[x], un) :: tasks[x]
  {
    hide TaskOK, Owes;
    kept, pruned := tasks, [];
    for i := 0 to |names|
      invariant forall x :: x in pruned <==> x in names[..i] && x in tasks && Settled(x, tasks[x], un)
      invariant kept == map x | x in tasks && !(x in names[..i] && Settled(x, tasks[x], un)) :: tasks[x]
    {
      var x := names[i];
      assert names[..i + 1] == names[..i] + [x];
      var es := tasks[x].events;
      var net := NetOf(x, tasks[x]);
      if es != [] && es[|es| - 1].n < un && net == 0 {
        pruned := pruned + [x];
        kept := kept - {x};
      }
    }
    assert names[..|names|] == names;
  }

  // ---- ranks ------------------------------------------------------------------------------------------------

  ghost function LockedBefore(out: seq<Event>, i: nat): (n: nat)
    requires i <= |out|
  {
    if i == 0 then 0 else LockedBefore(out, i - 1) + Bit(Locked(out[i - 1]))
  }

  /** The emitted locked events carry the ranks 1, 2, ... in order, the others 0; and
      which those are: gets and fast puts never, the slow path and what the
      umounter does under the lock always, a walker's legitimize if it had to look
      again under the lock. */
  method Ranks(out: seq<Event>) returns (lk: seq<nat>)
    ensures |lk| == |out|
    ensures forall i :: 0 <= i < |out| ==> lk[i] == if Locked(out[i]) then LockedBefore(out, i) + 1 else 0
    ensures forall i :: 0 <= i < |out| && (out[i].kind == Get || out[i].kind == PutFast || out[i].kind == Other)
                    ==> lk[i] == 0
    ensures forall i :: 0 <= i < |out| && out[i].kind in {Slowpath, UmountTree, CallerDrop, Peek, Final} ==> lk[i] > 0
    ensures forall i :: 0 <= i < |out| && out[i].kind == Legitimize
                    ==> (lk[i] > 0 <==> out[i].result != 0 && !out[i].early)
  {
    lk := [];
    var rank := 0;
    for i := 0 to |out|
      invariant |lk| == i && rank == LockedBefore(out, i)
      invariant forall j :: 0 <= j < i ==> lk[j] == if Locked(out[j]) then LockedBefore(out, j) + 1 else 0
    {
      if Locked(out[i]) {
        rank := rank + 1;
        lk := lk + [rank];
      } else {
        lk := lk + [0];
      }
    }
  }

  /** No gap: every rank up to the number of locked events is some event's. */
  lemma {:induction false} NoGap(out: seq<Event>, i: nat, r: nat) returns (j: nat)
    requires i <= |out| && 1 <= r <= LockedBefore(out, i)
    ensures j < i && Locked(out[j]) && LockedBefore(out, j) + 1 == r
    decreases i
  {
    if r <= LockedBefore(out, i - 1) { j := NoGap(out, i - 1, r); } else { j := i - 1; }
  }
}
