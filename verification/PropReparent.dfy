/** reparent(): the surviving overmounts of the victims slide down to where the
    bottom of their doomed stack was attached, and no two of them collide. */
module PropReparent {
  import opened Finite
  import opened MountTree
  import opened PropUmount
  import opened PropTrim
  import opened PropVictims

  // ---- doomed stacks ---------------------------------------------------------------------------

  datatype Place = Place(parent: Mnt, mp: Dentry)

  ghost function PlaceOf(mt: Table, x: Mnt): (p: Place)
    requires x in mt
  {
    Place(mt[x].parent, mt[x].mp)
  }

  /** T is a set of victims: hashed mounts, nothing stays strictly inside one. */
  ghost predicate Victims(W: World, T: set<Mnt>) {
    W.Tree() && T <= W.mt.Keys && NonShifting(W, T) && forall x {:trigger x in T} :: x in T ==> W.mt[x].hashed
  }

  /** A survivor on a victim. */
  ghost predicate Slides(W: World, T: set<Mnt>, o: Mnt) {
    o in W.mt && o !in T && W.mt[o].hashed && W.mt[o].parent in T
  }

  /** Going up from (p, d) through victims, the first place that is not on one. */
  ghost function SurvivorTarget(W: World, T: set<Mnt>, p: Mnt, d: Dentry): (t: Place)
    requires W.Deep()
    decreases if p in W.mt then W.td[p] + 1 else 0
  {
    if p in T && p in W.mt then SurvivorTarget(W, T, W.mt[p].parent, W.mt[p].mp) else Place(p, d)
  }

  /** The bottom of the doomed stack v is in. */
  ghost function Bottom(W: World, T: set<Mnt>, v: Mnt): (b: Mnt)
    requires W.Deep() && v in T && T <= W.mt.Keys
    ensures b in T && W.mt[b].parent !in T && W.td[b] <= W.td[v]
    decreases W.td[v]
  {
    if W.mt[v].parent in T then Bottom(W, T, W.mt[v].parent) else v
  }

  /** A doomed stack: overmounts all the way down. */
  ghost predicate Stacked(W: World, T: set<Mnt>, v: Mnt)
    requires W.Deep() && v in T && T <= W.mt.Keys
    decreases W.td[v]
  {
    var p := W.mt[v].parent;
    p in T ==> v == W.mt[p].over && Stacked(W, T, p)
  }

  /** A child that leaks sits on its victim's root. */
  lemma {:induction false} LeakyIsOver(W: World, T: set<Mnt>, c: Mnt)
    requires Victims(W, T) && c in W.mt && W.mt[c].hashed && W.mt[c].parent in T && Leaky(W, T, c)
    ensures c == W.mt[W.mt[c].parent].over
  {
    hide World.Tree, Leaky;
    assert !Forbidden(W, T, W.mt[c].parent);
    StrictIs(W, W.mt[c].parent, c);
  }

  lemma {:induction false} LeakyStacked(W: World, T: set<Mnt>, v: Mnt)
    requires Victims(W, T) && v in T && Leaky(W, T, v)
    ensures Stacked(W, T, v)
    decreases W.td[v]
  {
    hide TreeOK, NonShifting, Leaky;
    if W.mt[v].parent in T {
      LeakyIsOver(W, T, v);
      LeakUp(W, T, v);
      LeakyStacked(W, T, W.mt[v].parent);
    }
  }

  /** Under a survivor nothing but a doomed stack is unmounted. */
  lemma {:induction false} SlidesStacked(W: World, T: set<Mnt>, o: Mnt)
    requires Victims(W, T) && Slides(W, T, o)
    ensures o == W.mt[W.mt[o].parent].over && Stacked(W, T, W.mt[o].parent)
  {
    hide TreeOK, NonShifting, Leaky, Stacked;
    LeakSelf(W, T, o);
    LeakyIsOver(W, T, o);
    LeakUp(W, T, o);
    LeakyStacked(W, T, W.mt[o].parent);
  }

  lemma {:induction false} TargetIsBottom(W: World, T: set<Mnt>, v: Mnt, d: Dentry)
    requires W.Tree() && v in T && T <= W.mt.Keys
    ensures SurvivorTarget(W, T, v, d) == PlaceOf(W.mt, Bottom(W, T, v))
    decreases W.td[v]
  {
    hide TreeOK;
    if W.mt[v].parent in T { TargetIsBottom(W, T, W.mt[v].parent, W.mt[v].mp); }
  }

  lemma {:induction false} SameLevel(W: World, T: set<Mnt>, v: Mnt, w: Mnt)
    requires W.Tree() && v in T && w in T && T <= W.mt.Keys && Stacked(W, T, v) && Stacked(W, T, w)
    requires Bottom(W, T, v) == Bottom(W, T, w) && W.td[v] == W.td[w]
    ensures v == w
    decreases W.td[v]
  {
    hide TreeOK;
    if W.mt[v].parent in T && W.mt[w].parent in T { SameLevel(W, T, W.mt[v].parent, W.mt[w].parent); }
    else if W.mt[v].parent in T { LowerThan(W, T, v); }
    else if W.mt[w].parent in T { LowerThan(W, T, w); }
  }

  lemma {:induction false} LowerThan(W: World, T: set<Mnt>, v: Mnt)
    requires W.Tree() && v in T && T <= W.mt.Keys && W.mt[v].parent in T
    ensures W.td[Bottom(W, T, v)] < W.td[v]
  {
    hide TreeOK;
  }

  /** In one stack the lower mount's overmount is doomed. */
  lemma {:induction false} LowerCovered(W: World, T: set<Mnt>, v: Mnt, w: Mnt)
    requires W.Tree() && v in T && w in T && T <= W.mt.Keys && Stacked(W, T, v) && Stacked(W, T, w)
    requires Bottom(W, T, v) == Bottom(W, T, w) && W.td[v] < W.td[w]
    ensures W.mt[v].over in T
    decreases W.td[w]
  {
    hide TreeOK;
    assert W.mt[w].parent in T;
    if W.td[w] == W.td[v] + 1 { SameLevel(W, T, v, W.mt[w].parent); }
    else { LowerCovered(W, T, v, W.mt[w].parent); }
  }

  /** Distinct survivors slide to distinct places. */
  lemma {:induction false} TargetsDistinct(W: World, T: set<Mnt>, a: Mnt, b: Mnt)
    requires Victims(W, T) && Slides(W, T, a) && Slides(W, T, b)
    requires SurvivorTarget(W, T, W.mt[a].parent, W.mt[a].mp) == SurvivorTarget(W, T, W.mt[b].parent, W.mt[b].mp)
    ensures a == b
  {
    hide NonShifting, SurvivorTarget, Bottom, Stacked, ChildrenOK;
    var v, w := W.mt[a].parent, W.mt[b].parent;
    SlidesStacked(W, T, a);
    SlidesStacked(W, T, b);
    TargetIsBottom(W, T, v, W.mt[a].mp);
    TargetIsBottom(W, T, w, W.mt[b].mp);
    assert W.mt[Bottom(W, T, v)].hashed && W.mt[Bottom(W, T, w)].hashed;
    assert Bottom(W, T, v) == Bottom(W, T, w);
    hide TreeOK;
    if W.td[v] < W.td[w] { LowerCovered(W, T, v, w); }
    else if W.td[w] < W.td[v] { LowerCovered(W, T, w, v); }
    else { SameLevel(W, T, v, w); }
  }

  // ---- mnt_change_mountpoint(), reparent() ------------------------------------------------------

  /** Move o to (p, d): off its parent's list, onto p's; the overmount field of the
      old parent is left as it is. */
  ghost function ChangeMountpoint(mt: Table, p: Mnt, d: Dentry, o: Mnt): (z: Table)
    requires o in mt && p in mt && mt[o].parent in mt
    ensures z.Keys == mt.Keys
  {
    var q := mt[o].parent;
    var mt1 := mt[q := mt[q].(children := SeqDel(mt[q].children, o))];
    var mt2 := mt1[o := mt1[o].(parent := p, mp := d, hashed := true)];
    var mt3 := if d == mt2[p].root then mt2[p := mt2[p].(over := o)] else mt2;
    mt3[p := mt3[p].(children := mt3[p].children + [o])]
  }

  /** Only o has a new place. */
  lemma {:induction false} Moved(mt: Table, p: Mnt, d: Dentry, o: Mnt)
    requires o in mt && p in mt && mt[o].parent in mt && mt[o].hashed && p != o
    ensures var z := ChangeMountpoint(mt, p, d, o);
      forall x {:trigger z[x]} :: x in mt ==>
        && PlaceOf(z, x) == (if x == o then Place(p, d) else PlaceOf(mt, x))
        && z[x].hashed == mt[x].hashed && z[x].root == mt[x].root && (x != p ==> z[x].over == mt[x].over)
  {
  }

  /** The victims are where they were when the unmounting began. */
  ghost predicate Agrees(W: World, T: set<Mnt>, mt: Table) {
    mt.Keys == W.mt.Keys && forall x {:trigger mt[x]} :: x in T && x in W.mt ==>
      mt[x].parent == W.mt[x].parent && mt[x].mp == W.mt[x].mp && mt[x].over == W.mt[x].over
  }

  /** reparent()'s climb, on the table as it is now. */
  ghost function ReparentTarget(W: World, T: set<Mnt>, mt: Table, p: Mnt, d: Dentry): (t: Place)
    requires W.Deep() && Agrees(W, T, mt)
    decreases if p in W.mt then W.td[p] + 1 else 0
  {
    if p in T && p in mt then ReparentTarget(W, T, mt, mt[p].parent, mt[p].mp) else Place(p, d)
  }

  lemma {:induction false} TargetAgrees(W: World, T: set<Mnt>, mt: Table, p: Mnt, d: Dentry)
    requires W.Tree() && Agrees(W, T, mt)
    ensures ReparentTarget(W, T, mt, p, d) == SurvivorTarget(W, T, p, d)
    decreases if p in W.mt then W.td[p] + 1 else 0
  {
    hide TreeOK;
    if p in T && p in mt { TargetAgrees(W, T, mt, mt[p].parent, mt[p].mp); }
  }

  /** The target is a surviving ancestor. */
  lemma {:induction false} TargetSurvives(W: World, T: set<Mnt>, o: Mnt)
    requires W.Tree() && T <= W.mt.Keys && o in W.mt && W.mt[o].parent in T
    requires forall x {:trigger x in T} :: x in T ==> W.mt[x].hashed
    ensures var t := SurvivorTarget(W, T, W.mt[o].parent, W.mt[o].mp);
      && t.parent in W.mt && t.parent !in T && W.td[t.parent] < W.td[o]
      && Bottom(W, T, W.mt[o].parent) in T && t == PlaceOf(W.mt, Bottom(W, T, W.mt[o].parent))
  {
    hide TreeOK, SurvivorTarget;
    TargetIsBottom(W, T, W.mt[o].parent, W.mt[o].mp);
    var b := Bottom(W, T, W.mt[o].parent);
    assert W.mt[b].hashed;
    assert W.mt[b].parent in W.mt;
  }

  /** One mount: where it must be once the victims in P have been gone through. */
  ghost function Due(W: World, T: set<Mnt>, P: set<Mnt>, x: Mnt): (p: Place)
    requires W.Tree() && x in W.mt
  {
    if Slides(W, T, x) && W.mt[x].parent in P then SurvivorTarget(W, T, W.mt[x].parent, W.mt[x].mp)
    else PlaceOf(W.mt, x)
  }

  ghost predicate Placed(W: World, T: set<Mnt>, P: set<Mnt>, mt: Table)
    requires W.Tree()
  {
    && Agrees(W, T, mt)
    && (forall x {:trigger Due(W, T, P, x)} {:trigger mt[x]} :: x in W.mt ==>
          PlaceOf(mt, x) == Due(W, T, P, x) && mt[x].hashed == W.mt[x].hashed && mt[x].root == W.mt[x].root)
  }

  /** The children list of p: the hashed survivors attached to it, once each. */
  ghost predicate ListOK(T: set<Mnt>, mt: Table, p: Mnt)
    requires p in mt
  {
    Distinct(mt[p].children) && forall c {:trigger c in mt[p].children} {:trigger IsChild(mt, p, c)} ::
      c in mt[p].children <==> IsChild(mt, p, c) && c !in T
  }

  ghost predicate ListsOK(T: set<Mnt>, mt: Table) {
    forall p {:trigger ListOK(T, mt, p)} :: p in mt ==> ListOK(T, mt, p)
  }

  /** The overmount of a victim slides, unless it goes too. */
  lemma {:induction false} OverSlides(W: World, T: set<Mnt>, m: Mnt)
    requires Victims(W, T) && m in T
    ensures var o := W.mt[m].over; o != NO_MNT && o !in T ==> Slides(W, T, o) && W.mt[o].parent == m
    ensures forall x :: Slides(W, T, x) && W.mt[x].parent == m ==> x == W.mt[m].over
  {
    hide NonShifting, TreeDepth;
    assert ChildrenOK(W.mt, m);
    hide World.Tree, Lookup;
    forall x | Slides(W, T, x) && W.mt[x].parent == m ensures x == W.mt[m].over { SlidesStacked(W, T, x); }
  }

  /** What reparent() needs of the overmount it moves. */
  lemma {:induction false} MoveReady(W: World, T: set<Mnt>, P: set<Mnt>, mt: Table, m: Mnt)
    requires Victims(W, T) && Placed(W, T, P, mt) && m in T && m !in P
    ensures Agrees(W, T, mt)
    ensures var o := mt[m].over; o != NO_MNT && o !in T ==>
      && o in mt && mt[o].parent == m && mt[o].hashed && o == W.mt[m].over
      && var t := ReparentTarget(W, T, mt, mt[o].parent, mt[o].mp);
         t.parent in mt && t.parent !in T && t.parent != o && t == SurvivorTarget(W, T, W.mt[o].parent, W.mt[o].mp)
  {
    hide TreeOK, NonShifting, SurvivorTarget, ReparentTarget;
    OverSlides(W, T, m);
    var o := W.mt[m].over;
    if o != NO_MNT && o !in T {
      assert PlaceOf(mt, o) == Due(W, T, P, o);
      TargetAgrees(W, T, mt, mt[o].parent, mt[o].mp);
      TargetSurvives(W, T, o);
    }
  }

  /** One victim: slide its surviving overmount. */
  ghost function ReparentOne(W: World, T: set<Mnt>, P: set<Mnt>, mt: Table, m: Mnt): (z: Table)
    requires Victims(W, T) && Placed(W, T, P, mt) && m in T && m !in P
  {
    MoveReady(W, T, P, mt, m);
    var o := mt[m].over;
    if o == NO_MNT || o in T then mt
    else
      var t := ReparentTarget(W, T, mt, mt[o].parent, mt[o].mp);
      ChangeMountpoint(mt, t.parent, t.mp, o)
  }

  lemma {:induction false} OneDue(W: World, T: set<Mnt>, P: set<Mnt>, m: Mnt, x: Mnt)
    requires Victims(W, T) && m in T && x in W.mt
    ensures x != W.mt[m].over ==> Due(W, T, P + {m}, x) == Due(W, T, P, x)
    ensures x == W.mt[m].over && Slides(W, T, x)
        ==> Due(W, T, P + {m}, x) == SurvivorTarget(W, T, W.mt[x].parent, W.mt[x].mp)
    ensures x in T ==> Due(W, T, P + {m}, x) == Due(W, T, P, x)
  {
    hide TreeOK, NonShifting, SurvivorTarget;
    OverSlides(W, T, m);
  }

  lemma {:induction false} OnePlaced(W: World, T: set<Mnt>, P: set<Mnt>, mt: Table, m: Mnt)
    requires Victims(W, T) && Placed(W, T, P, mt) && m in T && m !in P
    ensures Placed(W, T, P + {m}, ReparentOne(W, T, P, mt, m))
  {
    hide TreeDepth, TreeOK, NonShifting, SurvivorTarget, ReparentTarget, Due, ChangeMountpoint, Slides;
    MoveReady(W, T, P, mt, m);
    OverSlides(W, T, m);
    var z := ReparentOne(W, T, P, mt, m);
    var o := mt[m].over;
    if o != NO_MNT && o !in T {
      var t := ReparentTarget(W, T, mt, mt[o].parent, mt[o].mp);
      Moved(mt, t.parent, t.mp, o);
    }
    forall x | x in W.mt
      ensures PlaceOf(z, x) == Due(W, T, P + {m}, x) && z[x].hashed == W.mt[x].hashed && z[x].root == W.mt[x].root
    {
      assert PlaceOf(mt, x) == Due(W, T, P, x);
      OneDue(W, T, P, m, x);
    }
  }

  lemma {:induction false} MoveLists(T: set<Mnt>, mt: Table, p: Mnt, d: Dentry, o: Mnt)
    requires o in mt && p in mt && mt[o].parent in mt && mt[o].hashed && o !in T && ListsOK(T, mt) && mt[o].parent != p
    requires p != o
    ensures ListsOK(T, ChangeMountpoint(mt, p, d, o))
  {
    var z := ChangeMountpoint(mt, p, d, o);
    Moved(mt, p, d, o);
    forall x | x in z ensures ListOK(T, z, x) {
      assert ListOK(T, mt, x);
      MoveList(T, mt, p, d, o, x);
    }
  }

  lemma {:induction false} MoveList(T: set<Mnt>, mt: Table, p: Mnt, d: Dentry, o: Mnt, x: Mnt)
    requires o in mt && p in mt && mt[o].parent in mt && mt[o].hashed && o !in T && mt[o].parent != p && p != o
    requires x in mt && ListOK(T, mt, x)
    ensures ListOK(T, ChangeMountpoint(mt, p, d, o), x)
  {
    var z := ChangeMountpoint(mt, p, d, o);
    Moved(mt, p, d, o);
    DelDistinct(mt[x].children, o);
    assert z[x].children == if x == p then mt[x].children + [o] else if x == mt[o].parent then SeqDel(mt[x].children, o)
        else mt[x].children;
    hide ChangeMountpoint, SeqDel;
    forall c: Mnt ensures c in z[x].children <==> IsChild(z, x, c) && c !in T {
      assert c in mt[x].children <==> IsChild(mt, x, c) && c !in T;
    }
  }

  lemma {:induction false} DelDistinct(s: seq<Mnt>, x: Mnt)
    requires Distinct(s)
    ensures Distinct(SeqDel(s, x))
    decreases |s|
  {
    if s != [] {
      DelDistinct(s[1..], x);
      assert forall y :: y in s[1..] ==> y != s[0];
      var r := SeqDel(s[1..], x);
      assert forall i :: 0 <= i < |r| ==> r[i] in r;
    }
  }

  lemma {:induction false} OneLists(W: World, T: set<Mnt>, P: set<Mnt>, mt: Table, m: Mnt)
    requires Victims(W, T) && Placed(W, T, P, mt) && m in T && m !in P && ListsOK(T, mt)
    ensures ListsOK(T, ReparentOne(W, T, P, mt, m))
  {
    hide World.Deep, TreeOK, NonShifting, SurvivorTarget, ReparentTarget, Due, ListsOK, ChangeMountpoint;
    MoveReady(W, T, P, mt, m);
    var o := mt[m].over;
    if o != NO_MNT && o !in T {
      var t := ReparentTarget(W, T, mt, mt[o].parent, mt[o].mp);
      MoveLists(T, mt, t.parent, t.mp, o);
    }
  }

  lemma {:induction false} LoopReady(W: World, T: set<Mnt>, P: set<Mnt>, mt: Table, s: seq<Mnt>)
    requires Victims(W, T) && Placed(W, T, P, mt) && Distinct(s) && s != []
    requires forall i {:trigger s[i]} :: 0 <= i < |s| ==> s[i] in T && s[i] !in P
    ensures Placed(W, T, P + {s[0]}, ReparentOne(W, T, P, mt, s[0]))
    ensures Distinct(s[1..])
    ensures forall i {:trigger s[1..][i]} :: 0 <= i < |s[1..]| ==> s[1..][i] in T && s[1..][i] !in P + {s[0]}
  {
    hide World.Deep, TreeOK, NonShifting, Placed, ReparentOne;
    OnePlaced(W, T, P, mt, s[0]);
  }

  /** The loop over the victims; P have been gone through. */
  ghost function ReparentLoop(W: World, T: set<Mnt>, P: set<Mnt>, mt: Table, s: seq<Mnt>): (z: Table)
    requires Victims(W, T) && Placed(W, T, P, mt) && Distinct(s)
    requires forall i {:trigger s[i]} :: 0 <= i < |s| ==> s[i] in T && s[i] !in P
    decreases |s|
  {
    if s == [] then mt else
      LoopReady(W, T, P, mt, s);
      ReparentLoop(W, T, P + {s[0]}, ReparentOne(W, T, P, mt, s[0]), s[1..])
  }

  lemma {:induction false} LoopPlaced(W: World, T: set<Mnt>, P: set<Mnt>, mt: Table, s: seq<Mnt>)
    requires Victims(W, T) && Placed(W, T, P, mt) && ListsOK(T, mt)
    requires Distinct(s) && forall i {:trigger s[i]} :: 0 <= i < |s| ==> s[i] in T && s[i] !in P
    ensures var z := ReparentLoop(W, T, P, mt, s); Placed(W, T, P + (set x | x in s), z) && ListsOK(T, z)
    decreases |s|
  {
    hide World.Deep, TreeOK, NonShifting, Placed, ListsOK, ReparentOne;
    if s == [] {
      assert P + (set x | x in s) == P;
    } else {
      OnePlaced(W, T, P, mt, s[0]);
      OneLists(W, T, P, mt, s[0]);
      LoopPlaced(W, T, P + {s[0]}, ReparentOne(W, T, P, mt, s[0]), s[1..]);
      assert P + (set x | x in s) == P + {s[0]} + (set x | x in s[1..]) by { assert s == [s[0]] + s[1..]; }
    }
  }

  // ---- no collision -----------------------------------------------------------------------------------

  /** After reparent() has gone through all of them. */
  ghost predicate Reparented(W: World, T: set<Mnt>, mt: Table)
    requires W.Tree()
  {
    && mt.Keys == W.mt.Keys
    && (forall x {:trigger Due(W, T, T, x)} {:trigger mt[x]} :: x in W.mt ==>
          PlaceOf(mt, x) == Due(W, T, T, x) && mt[x].hashed == W.mt[x].hashed && mt[x].root == W.mt[x].root)
  }

  /** Two survivors never share a place; each is below a survivor closer to the root
      than itself; those that slid took the place of a victim. */
  lemma {:induction false} NoCollision(W: World, T: set<Mnt>, mt: Table, a: Mnt, b: Mnt)
    requires Victims(W, T) && Reparented(W, T, mt) && a in mt && b in mt && a !in T && b !in T && mt[a].hashed
    requires mt[b].hashed
    ensures PlaceOf(mt, a) == PlaceOf(mt, b) ==> a == b
  {
    hide NonShifting, SurvivorTarget, Bottom, ChildrenOK, TreeDepth;
    assert PlaceOf(mt, a) == Due(W, T, T, a) && PlaceOf(mt, b) == Due(W, T, T, b);
    if PlaceOf(mt, a) == PlaceOf(mt, b) {
      if Slides(W, T, a) && Slides(W, T, b) { TargetsDistinct(W, T, a, b); }
      else if Slides(W, T, a) { TargetSurvives(W, T, a); }
      else if Slides(W, T, b) { TargetSurvives(W, T, b); }
    }
  }

  lemma {:induction false} SurvivorPlaced(W: World, T: set<Mnt>, mt: Table, a: Mnt)
    requires Victims(W, T) && Reparented(W, T, mt) && a in mt && a !in T && mt[a].hashed
    ensures mt[a].parent in mt && mt[a].parent !in T && W.td[mt[a].parent] < W.td[a]
    ensures !Slides(W, T, a) ==> PlaceOf(mt, a) == PlaceOf(W.mt, a)
    ensures Slides(W, T, a) ==>
      var b := Bottom(W, T, W.mt[a].parent);
      b in T && PlaceOf(mt, a) == PlaceOf(W.mt, b) && Stacked(W, T, W.mt[a].parent) && a == W.mt[W.mt[a].parent].over
  {
    hide NonShifting, SurvivorTarget, Bottom, TreeOK, Stacked;
    assert PlaceOf(mt, a) == Due(W, T, T, a);
    if Slides(W, T, a) {
      TargetSurvives(W, T, a);
      SlidesStacked(W, T, a);
    }
  }

  /** The victims taken off their parents' lists. */
  ghost function Hidden(mt: Table, T: set<Mnt>): (z: Table) {
    map x | x in mt :: mt[x].(children := Without(mt[x].children, T))
  }

  ghost function Without(s: seq<Mnt>, T: set<Mnt>): (r: seq<Mnt>)
    ensures forall y :: y in r <==> y in s && y !in T
    ensures Distinct(s) ==> Distinct(r)
  {
    if s == [] then [] else
      var r := Without(s[1..], T);
      assert forall i :: 0 <= i < |r| ==> r[i] in r;
      if s[0] in T then r else [s[0]] + r
  }

  lemma {:induction false} HiddenLists(W: World, T: set<Mnt>)
    requires W.Tree()
    ensures ListsOK(T, Hidden(W.mt, T))
  {
    hide TreeDepth, OnePerPlace, Lookup;
    var z := Hidden(W.mt, T);
    forall p | p in z ensures ListOK(T, z, p) {
      assert ChildrenOK(W.mt, p);
      forall c: Mnt ensures c in z[p].children <==> IsChild(z, p, c) && c !in T {
        assert c in W.mt[p].children <==> IsChild(W.mt, p, c);
      }
    }
  }

  lemma {:induction false} CommittedVictims(W: World, U: set<Mnt>, s: seq<Mnt>) returns (z: Run)
    requires W.Valid() && Doomed(W, U, s)
    ensures z == PropagateUmount(W, U, s) && Victims(W, z.umount) && z.umount == U + (set x | x in z.tou)
    ensures Distinct(z.tou)
  {
    hide World.Deep, TreeOK, NonShifting, MaxNonRevealing, MaxNonShifting, Cognates, PropagateUmount;
    z := PropagateUmount(W, U, s);
    CommitsVictims(W, U, s);
    CognatesSetup(W, U, s);
    VictimsGreatest(W, U + Cognates(W.mt, U), {});
    forall x | x in z.umount ensures x in W.mt && W.mt[x].hashed { assert x in U ==> x in s; }
  }

  lemma {:induction false} StartPlaced(W: World, T: set<Mnt>)
    requires W.Tree()
    ensures Placed(W, T, {}, Hidden(W.mt, T))
  {
    hide World.Deep, TreeOK, Without;
  }

  lemma {:induction false} AllPlaced(W: World, U: set<Mnt>, T: set<Mnt>, P: set<Mnt>, mt: Table)
    requires W.Tree() && Placed(W, T, P, mt) && T == U + P
    requires forall x {:trigger W.mt[x].parent} :: x in W.mt && W.mt[x].hashed && W.mt[x].parent in U ==> x in U
    ensures Reparented(W, T, mt)
  {
    hide World.Deep, TreeOK, SurvivorTarget;
    forall x | x in W.mt ensures Due(W, T, T, x) == Due(W, T, P, x) {}
  }
}
