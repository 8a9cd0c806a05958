/** The conditions under which no write is lost are exact: each step that they rule out can be
    followed, by orderly steps alone, by a gate that falls over the wrong contents. */
module HandoffLeaks {
  import opened StrictJson
  import opened HandoffProtocol
  import opened HandoffSafety
  import opened HandoffLaws
  import opened HandoffContents
  import opened HandoffRuns
  import opened HandoffStretches

  // ---------------------------------------------------------------- a directory opened twice

  /** In a vacant directory every activation that rests on its reservation can go on. */
  lemma AbleOf(w: World, a: nat, t: Dir)
    requires Inv(w) && Grounded(w.disk, w.activators) && ReservedFirst(w) && a in w.activators
    requires PastReserve(w.activators[a].phase) && w.activators[a].request.dest == t
    requires forall s :: s in w.disk.content ==> s.dir != t
    ensures Able(w, a, t) && forall s :: s in Holds(w.activators[a]) ==> s.dir != t
  {
    var x := w.activators[a];
    assert LeasesRight(w.disk, a, x) by { assert LocalOk(w.disk, a, x); }
    assert x.request.members != map[] && WellNamed(x.request) by { hide Inv, Grounded, WellNamed, Owns; }
    hide Inv, ReservedFirst, WellNamed;
    forall s | s in x.request.members ensures LeaseOk(w.disk, a, x, s) && s.dir != t {
      assert s in Grip(x);
      assert Anchored(w.disk, s);
    }
  }

  /** Another phase, or a world with fewer processes, keeps it able. */
  lemma AbleStill(w: World, v: World, a: nat, t: Dir)
    requires a in w.activators && a in v.activators && Able(w, a, t)
    requires v.disk == w.disk.(dirs := v.disk.dirs, gates := v.disk.gates) && v.disk.gates <= w.disk.gates + {t}
    requires var x, y := w.activators[a], v.activators[a];
             y.request == x.request && y.leases == x.leases && PastReserve(y.phase) && y.done <= y.request.members.Keys
    ensures Able(v, a, t)
  {
    hide WellNamed;
    LeasesSame(w.disk, v.disk, a, w.activators[a], v.activators[a]);
  }

  /** A world reached by an orderly run. */
  ghost predicate Regular(w: World) { Inv(w) && Calm(w) && ReservedFirst(w) }

  lemma VacantAble(w: World, a: nat, t: Dir)
    requires Regular(w) && a in w.activators && PastReserve(w.activators[a].phase) && w.activators[a].request.dest == t
    requires forall s :: s in w.disk.content ==> s.dir != t
    ensures Able(w, a, t) && (forall s :: s in Holds(w.activators[a]) ==> s.dir != t)
    ensures forall s :: s in w.disk.retired ==> s.dir != t
  {
    CalmParts(w);
    hide Inv, Calm, ReservedFirst, Able, Papers, Apart;
    AbleOf(w, a, t);
  }

  lemma PapersOf(w: World)
    requires Regular(w)
    ensures Papers(w.disk, w.writers)
  {
    hide Inv, Calm, ReservedFirst, Papers;
    CalmParts(w);
  }

  lemma OpenedFresh(w: World, a: nat, x: Activator, v: World)
    requires a in w.activators && w.activators[a] == x && Papers(w.disk, w.writers)
    requires Fresh(w.disk, x.request.dest) && ActivationStep(w, a, Open) == Some(v)
    ensures x.phase.Retiring? && v.activators == w.activators[a := x.(phase := Gating, done := {})] && v.writers == w.writers
    ensures v.disk == w.disk.(dirs := w.disk.dirs + {x.request.dest}) && Vacant(v.disk, x.request.dest)
    ensures forall s :: s in w.disk.content ==> s.dir != x.request.dest
  {
    hide LeasesOk, ComponentsExist, Exposed;
    assert w.disk.pending.Keys <= w.disk.dirs;
    if x.request.dest in w.disk.dirs {
      assert w.disk.dirs + {x.request.dest} == w.disk.dirs;
    }
  }

  /** Two activations alone in a vacant directory, the first of which has just opened it. */
  ghost predicate Competing(u: World, a: nat, x: Activator, b: nat, y: Activator, t: Dir)
  {
    && a != b && u.activators == map[a := x, b := y] && u.writers == map[] && Vacant(u.disk, t)
    && x.phase.Gating? && x.done == {}
    && Arena(u, t) && Able(u, a, t) && Able(u, b, t)
  }

  /** The two who compete for the directory are left alone with it. */
  lemma TwoLeft(w: World, a: nat, x: Activator, b: nat, y: Activator, v: World) returns (run: seq<Event>, u: World)
    requires a in w.activators && w.activators[a] == x && b in w.activators && w.activators[b] == y && a != b
    requires y.request.dest == x.request.dest && PastReserve(y.phase) && Fresh(w.disk, x.request.dest)
    requires ActivationStep(w, a, Open) == Some(v) && Regular(w)
    ensures Leads(v, run, u) && Competing(u, a, x.(phase := Gating, done := {}), b, y, x.request.dest)
  {
    var t := x.request.dest;
    hide Regular, Papers, Able, Leads, Vacant, ActivationStep, Fresh;
    PapersOf(w);
    OpenedFresh(w, a, x, v);
    VacantAble(w, a, t);
    VacantAble(w, b, t);
    hide *;
    run, u := LeftWith(v, map[a := x.(phase := Gating, done := {}), b := y], map[]);
    NowCompeting(w, u, a, x, b, y, t);
  }

  lemma NowCompeting(w: World, u: World, a: nat, x: Activator, b: nat, y: Activator, t: Dir)
    requires a in w.activators && w.activators[a] == x && b in w.activators && w.activators[b] == y && a != b
    requires Able(w, a, t) && Able(w, b, t) && u.disk == w.disk.(dirs := w.disk.dirs + {t}) && u.writers == map[]
    requires u.activators == map[a := x.(phase := Gating, done := {}), b := y] && Vacant(u.disk, t)
    requires forall s :: s in w.disk.retired ==> s.dir != t
    requires forall s :: s in Holds(x) + Holds(y) ==> s.dir != t
    ensures Competing(u, a, x.(phase := Gating, done := {}), b, y, t)
  {
    LeasesFine(w, a, t);
    LeasesFine(w, b, t);
    StillResting(w, b, t);
    hide Able, Vacant, LeasesOk, WellNamed;
    AbleStill(w, u, a, t);
    AbleStill(w, u, b, t);
    TwoArena(u, a, b, t);
  }

  lemma StillResting(w: World, a: nat, t: Dir)
    requires a in w.activators && Able(w, a, t)
    ensures PastReserve(w.activators[a].phase)
  {
    hide LeasesOk, WellNamed;
  }

  lemma TwoArena(u: World, a: nat, b: nat, t: Dir)
    requires u.activators.Keys == {a, b} && Able(u, a, t) && Able(u, b, t) && t in u.disk.dirs
    requires forall s :: s in u.disk.retired ==> s.dir != t
    requires forall s :: s in Holds(u.activators[a]) + Holds(u.activators[b]) ==> s.dir != t
    ensures Arena(u, t)
  {
    hide Able;
  }

  /** Only the given processes are left. */
  lemma LeftWith(v: World, activators: map<nat, Activator>, writers: map<nat, Writer>) returns (run: seq<Event>, u: World)
    requires forall a :: a in activators ==> a in v.activators && v.activators[a] == activators[a]
    requires forall c :: c in writers ==> c in v.writers && v.writers[c] == writers[c]
    ensures u == v.(activators := activators, writers := writers) && Leads(v, run, u) && Lossless(run)
  {
    hide Leads;
    var p := Dismiss(v, activators.Keys);
    var u1 := Staying(v, activators.Keys);
    var q := Disconnect(u1, writers.Keys);
    LeadsOn(v, p, u1, q, Watching(u1, writers.Keys));
    run, u := p + q, Watching(u1, writers.Keys);
    assert u.activators == activators && u.writers == writers;
  }

  /** If the other one has written its receipt, its gate falls over an empty directory. */
  lemma LateLeaks(u: World, b: nat, t: Dir)
    requires Arena(u, t) && b in u.activators && Able(u, b, t) && Vacant(u.disk, t)
    requires u.activators[b].phase.Committing? || u.activators[b].phase.Clearing? || u.activators[b].phase.Ungating?
    ensures Unsafe(u)
  {
    hide Leads;
    var run, v := Wrapped(u, b, t);
    InDirs(v, t);
    assert u.activators[b].request.members != map[] && u.activators[b].request.dest == t by { hide LeasesOk, WellNamed; }
    hide Arena, Able;
    var s :| s in u.activators[b].request.members;
    CanDrop(v, b);
    assert Leaks(v, b, s);
  }

  /** While `b` finishes, `a` puts its own gate and pending record there. */
  lemma BothWork(u: World, a: nat, b: nat, t: Dir) returns (run: seq<Event>, v: World)
    requires Arena(u, t) && a in u.activators && b in u.activators && a != b && Able(u, a, t) && Able(u, b, t)
    requires u.writers == map[] && u.activators[a].phase.Gating?
    requires u.activators[b].phase.Copying? && Missing(u.disk, u.activators[b])
    ensures Leads(u, run, v) && Arena(v, t) && v.writers == map[] && a in v.activators && Able(v, a, t)
    ensures t !in v.disk.gates && v.activators[a] == u.activators[a].(phase := Copying)
  {
    hide Leads, Arena, Able, LeasesOk, WellNamed;
    var p1, u1 := CopyAll(u, b, t);
    var p2, u2 := CloseOut(u1, b, t);
    LeadsOn(u, p1, u1, p2, u2);
    assert Able(u2, a, t) by { StillAble(u2, a, t); }
    var p3, u3 := Moving(u2, a, t);
    LeadsOn(u, p1 + p2, u2, p3, u3);
    assert Able(u3, b, t) by { StillAble(u3, b, t); }
    v := Dropped(u3, b, t);
    LeadsOn(u, p1 + p2 + p3, u3, [Act(b, DropGate)], v);
    StillAble(v, a, t);
    run := p1 + p2 + p3 + [Act(b, DropGate)];
  }

  lemma StillAble(w: World, a: nat, t: Dir)
    requires Arena(w, t) && a in w.activators && !w.activators[a].phase.Leaving?
    ensures Able(w, a, t)
  {
    hide Able;
  }

  /** With the gate removed by another, an activation finishes over what writers left. */
  lemma BareFinish(w: World, a: nat, t: Dir)
    requires Arena(w, t) && t !in w.disk.gates && w.writers == map[]
    requires a in w.activators && Able(w, a, t) && w.activators[a].phase.Copying?
    ensures Unsafe(w)
  {
    hide Leads, Arena, Able, LeasesOk, WellNamed;
    var p, u := ForceCopies(w, a, t);
    var q, v := CloseOut(u, a, t);
    LeadsOn(w, p, u, q, v);
    FallenLeaks(v, a, t);
    UnsafeBefore(w, p + q, v);
  }

  lemma EarlyLeaks(u: World, a: nat, b: nat, t: Dir)
    requires Arena(u, t) && a in u.activators && b in u.activators && a != b && Able(u, a, t) && Able(u, b, t) && Vacant(u.disk, t)
    requires u.writers == map[] && u.activators[a].phase.Gating?
    requires u.activators[b].phase.Gating? || u.activators[b].phase.Announcing? || u.activators[b].phase.Copying?
    ensures Unsafe(u)
  {
    hide Leads, Arena, Able, LeasesOk, WellNamed, Unsafe, Leaks;
    var p, u1 := Starting(u, a, b, t);
    StillAble(u1, a, t);
    StillAble(u1, b, t);
    hide Vacant;
    var q, u2 := BothWork(u1, a, b, t);
    LeadsOn(u, p, u1, q, u2);
    BareFinish(u2, a, t);
    UnsafeBefore(u, p + q, u2);
  }

  lemma Starting(u: World, a: nat, b: nat, t: Dir) returns (run: seq<Event>, v: World)
    requires Arena(u, t) && a in u.activators && b in u.activators && a != b && Able(u, b, t) && Vacant(u.disk, t)
    requires u.writers == map[]
    requires u.activators[b].phase.Gating? || u.activators[b].phase.Announcing? || u.activators[b].phase.Copying?
    ensures Leads(u, run, v) && Arena(v, t) && v.writers == map[] && v.disk.content == u.disk.content
    ensures v.activators == u.activators[b := u.activators[b].(phase := Copying)] && Missing(v.disk, v.activators[b])
  {
    LeasesFine(u, b, t);
    hide Leads, Arena, Able, LeasesOk, WellNamed;
    var x := u.activators[b];
    assert Missing(u.disk, x);
    hide Missing;
    if x.phase.Gating? {
      run, v := Moving(u, b, t);
    } else if x.phase.Announcing? {
      run, v := Announced(u, b, t);
    } else {
      LeadsNowhere(u);
      run, v := [], u;
      assert u.activators == u.activators[b := x];
    }
    SameMissing(u.disk, v.disk, x, x.(phase := Copying));
  }

  lemma SameMissing(d: Disk, e: Disk, x: Activator, y: Activator)
    requires Missing(d, x) && e.content == d.content && y.request == x.request && y.done == x.done
    ensures Missing(e, y)
  {
  }

  /** If the other one can complete its comparison with what is copied now, its gate falls too. */
  lemma ComparedLeaks(u: World, a: nat, b: nat, t: Dir)
    requires Arena(u, t) && a in u.activators && b in u.activators && a != b && Able(u, a, t) && Able(u, b, t) && Vacant(u.disk, t)
    requires u.writers == map[] && u.activators[a].phase.Gating? && u.activators[a].done == {}
    requires u.activators[b].phase.Rehashing? && Completable(u.activators[b], u.activators[a].request)
    ensures Unsafe(u)
  {
    LeasesFine(u, a, t);
    hide Leads, Arena, Able, LeasesOk, WellNamed, Unsafe, Leaks;
    var p, u1 := Delivering(u, a, t);
    StillAble(u1, b, t);
    assert Supplied(u1.disk, u1.activators[b]) by { hide Vacant; SuppliedBy(u1.disk, u1.activators[b], u.activators[a].request); }
    hide Vacant, Completable;
    var q, u2 := ForceRehash(u1, b, t);
    LeadsOn(u, p, u1, q, u2);
    var u3 := Adopted(u2, b, t);
    LeadsOn(u, p + q, u2, [Act(b, Adopt)], u3);
    var z, u4 := Wrapped(u3, b, t);
    LeadsOn(u, p + q + [Act(b, Adopt)], u3, z, u4);
    FallenLeaks(u4, b, t);
    UnsafeBefore(u, p + q + [Act(b, Adopt)] + z, u4);
  }

  lemma SuppliedBy(d: Disk, x: Activator, q: Request)
    requires Completable(x, q) && Supplies(d, q)
    ensures Supplied(d, x)
  {
    forall s | s in x.request.members && s !in x.done ensures Component(x.request, s) in d.content {
      var m :| m in q.members && Component(q, m) == Component(x.request, s);
    }
  }

  lemma VacantMissing(d: Disk, x: Activator, t: Dir)
    requires Vacant(d, t) && x.request.dest == t
    ensures t !in d.pending && Missing(d, x.(phase := Copying))
  {
  }

  lemma AllSupplied(d: Disk, x: Activator)
    requires Supplied(d, x) && x.done == {}
    ensures Supplies(d, x.request)
  {
  }

  /** From the raised gate to the last step before it falls. */
  lemma UpToTheGate(u: World, a: nat, t: Dir) returns (run: seq<Event>, v: World)
    requires a in u.activators && u.activators[a].phase.Announcing? && u.activators[a].done == {}
    requires Able(u, a, t) && Arena(u, t) && Vacant(u.disk, t)
    ensures Filled(u, a, u.activators[a], t, run, v)
  {
    hide *;
    var p, z := Stocking(u, a, t);
    run, v := ClosedOut(u, a, u.activators[a], t, p, z);
  }

  lemma ClosedOut(u: World, a: nat, x: Activator, t: Dir, p: seq<Event>, z: World) returns (run: seq<Event>, v: World)
    requires x.request.dest == t && x.phase.Announcing? && Stocked(u, a, x, t, p, z)
    ensures Filled(u, a, x, t, run, v)
  {
    hide Leads, Arena, Able;
    var q;
    q, v := CloseOut(z, a, t);
    LeadsOn(u, p, z, q, v);
    assert v.activators == u.activators[a := Finished(x)];
    run := p + q;
  }

  /** The pending record goes up and every component is copied. */
  lemma Stocking(u: World, a: nat, t: Dir) returns (run: seq<Event>, v: World)
    requires a in u.activators && u.activators[a].phase.Announcing? && u.activators[a].done == {}
    requires Able(u, a, t) && Arena(u, t) && Vacant(u.disk, t)
    ensures Stocked(u, a, u.activators[a], t, run, v) && u.activators[a].request.dest == t
  {
    hide *;
    LeasesFine(u, a, t);
    VacantMissing(u.disk, u.activators[a], t);
    var p, z := Announced(u, a, t);
    run, v := CopiedAll(u, a, u.activators[a], t, p, z);
  }

  lemma CopiedAll(u: World, a: nat, x: Activator, t: Dir, p: seq<Event>, z: World) returns (run: seq<Event>, v: World)
    requires x.done == {} && x.request.dest == t && Missing(u.disk, x.(phase := Copying))
    requires a in z.activators && z.activators == u.activators[a := x.(phase := Copying)] && z.writers == u.writers
    requires z.disk == u.disk.(pending := u.disk.pending[t := x.request]) && Leads(u, p, z) && Arena(z, t) && Able(z, a, t)
    ensures Stocked(u, a, x, t, run, v)
  {
    hide Leads, Arena, Able, Missing, Supplied, Supplies;
    SameMissing(u.disk, z.disk, x.(phase := Copying), z.activators[a]);
    var q;
    q, v := CopyAll(z, a, t);
    AllSupplied(v.disk, z.activators[a]);
    LeadsOn(u, p, z, q, v);
    assert v.activators == u.activators[a := x.(phase := Copying, done := x.request.members.Keys)];
    run := p + q;
  }

  ghost predicate Stocked(u: World, a: nat, x: Activator, t: Dir, run: seq<Event>, v: World)
  {
    && Leads(u, run, v) && Arena(v, t) && v.writers == u.writers
    && v.activators == u.activators[a := x.(phase := Copying, done := x.request.members.Keys)] && Able(v, a, t)
    && Supplies(v.disk, x.request) && v.disk.gates == u.disk.gates && v.disk.retired == u.disk.retired
  }

  /** The run fills the directory up to the last step before the gate falls. */
  ghost predicate Filled(u: World, a: nat, x: Activator, t: Dir, run: seq<Event>, v: World)
  {
    && Leads(u, run, v) && Arena(v, t) && v.writers == u.writers
    && v.activators == u.activators[a := Finished(x)] && Able(v, a, t)
    && Supplies(v.disk, x.request) && t in v.disk.receipts && v.disk.receipts[t] == x.request
    && v.disk.gates == u.disk.gates && v.disk.retired == u.disk.retired
  }

  function Finished(x: Activator): Activator { x.(phase := Ungating, done := x.request.members.Keys) }

  predicate Supplies(d: Disk, q: Request) { forall m :: m in q.members ==> Component(q, m) in d.content }

  /** From the opened directory to the fallen gate. */
  lemma Delivering(u: World, a: nat, t: Dir) returns (run: seq<Event>, v: World)
    requires Arena(u, t) && a in u.activators && Able(u, a, t) && Vacant(u.disk, t)
    requires u.writers == map[] && u.activators[a].phase.Gating? && u.activators[a].done == {}
    ensures Leads(u, run, v) && Arena(v, t) && v.writers == map[]
    ensures v.activators == u.activators[a := Finished(u.activators[a]).(phase := Leaving)]
    ensures t !in v.disk.gates && t in v.disk.receipts && Supplies(v.disk, u.activators[a].request)
  {
    hide Leads, Arena, Able;
    var u1 := Raised(u, a, t);
    assert Vacant(u1.disk, t);
    hide Vacant, Supplies;
    var p, u2 := UpToTheGate(u1, a, t);
    LeadsOn(u, [Act(a, RaiseGate)], u1, p, u2);
    v := Dropped(u2, a, t);
    LeadsOn(u, [Act(a, RaiseGate)] + p, u2, [Act(a, DropGate)], v);
    SameSupplies(u2.disk, v.disk, u.activators[a].request);
    assert v.activators == u.activators[a := Finished(u.activators[a]).(phase := Leaving)];
    run := [Act(a, RaiseGate)] + p + [Act(a, DropGate)];
  }

  lemma SameSupplies(d: Disk, e: Disk, q: Request)
    requires Supplies(d, q) && e.content == d.content
    ensures Supplies(e, q)
  {
  }

  /** Whatever the other one is doing in the directory, a gate can fall over the wrong contents. */
  lemma CompetingLeaks(u: World, a: nat, x: Activator, b: nat, y: Activator, t: Dir)
    requires Competing(u, a, x, b, y, t)
    requires Within(y.phase) || (y.phase.Rehashing? && Completable(y, x.request))
    ensures Unsafe(u)
  {
    hide Completable, Unsafe, Arena, Able, Vacant;
    if y.phase.Rehashing? {
      ComparedLeaks(u, a, b, t);
    } else if y.phase.Gating? || y.phase.Announcing? || y.phase.Copying? {
      EarlyLeaks(u, a, b, t);
    } else {
      LateLeaks(u, b, t);
    }
  }

  /** Opening a destination afresh while another is at work in it can always be followed, by
      orderly steps, by a gate that falls over the wrong contents. */
  lemma ContestedOpeningLeaks(w: World, a: nat, v: World)
    requires a in w.activators && Contested(w.activators, a)
    requires Fresh(w.disk, w.activators[a].request.dest) && ActivationStep(w, a, Open) == Some(v) && Regular(w)
    ensures Unsafe(v)
  {
    hide Completable, Unsafe, Competing, Regular, Fresh, ActivationStep;
    var x := w.activators[a];
    var b :| b in w.activators && b != a && w.activators[b].request.dest == x.request.dest
      && (Within(w.activators[b].phase) || (w.activators[b].phase.Rehashing? && Completable(w.activators[b], x.request)));
    var y := w.activators[b];
    assert x.(phase := Gating, done := {}).request == x.request;
    var run, u := TwoLeft(w, a, x, b, y, v);
    CompetingLeaks(u, a, x.(phase := Gating, done := {}), b, y, x.request.dest);
    UnsafeBefore(v, run, u);
  }

  // ---------------------------------------------------------------- a writer who has knocked

  /** One activation and one writer alone with a vacant directory under its gate. */
  ghost predicate Watched(u: World, a: nat, x: Activator, c: nat, k: Writer, t: Dir)
  {
    && u.activators == map[a := x] && u.writers == map[c := k] && Vacant(u.disk, t)
    && x.phase.Announcing? && x.done == {} && Arena(u, t) && Able(u, a, t)
  }

  lemma RaisedGate(w: World, a: nat, x: Activator, v: World)
    requires a in w.activators && w.activators[a] == x && Regular(w) && ActivationStep(w, a, RaiseGate) == Some(v)
    ensures x.phase.Gating? && x.done == {} && v.activators == w.activators[a := x.(phase := Announcing)]
    ensures v.writers == w.writers && v.disk == w.disk.(gates := w.disk.gates + {x.request.dest})
    ensures x.request.dest in w.disk.dirs && Vacant(w.disk, x.request.dest)
    ensures forall s :: s in w.disk.content ==> s.dir != x.request.dest
  {
    PlacedOf(w, a);
    hide Inv, ReservedFirst, Calm, Checked, Exposed, ComponentsRight;
  }

  lemma RaisedAlone(w: World, a: nat, x: Activator, c: nat, k: Writer, v: World) returns (run: seq<Event>, u: World)
    requires a in w.activators && w.activators[a] == x && c in w.writers && w.writers[c] == k
    requires ActivationStep(w, a, RaiseGate) == Some(v) && Regular(w)
    ensures Leads(v, run, u) && Watched(u, a, x.(phase := Announcing), c, k, x.request.dest) && u.disk == v.disk
  {
    var t := x.request.dest;
    hide Regular, Able, Leads, Vacant, ActivationStep;
    RaisedGate(w, a, x, v);
    VacantAble(w, a, t);
    hide *;
    run, u := LeftWith(v, map[a := x.(phase := Announcing)], map[c := k]);
    NowWatched(w, u, a, x, c, k, t);
  }

  lemma NowWatched(w: World, u: World, a: nat, x: Activator, c: nat, k: Writer, t: Dir)
    requires a in w.activators && w.activators[a] == x && x.done == {} && t in w.disk.dirs && Vacant(w.disk, t)
    requires Able(w, a, t) && u.disk == w.disk.(gates := w.disk.gates + {t})
    requires u.activators == map[a := x.(phase := Announcing)] && u.writers == map[c := k]
    requires forall s :: s in w.disk.retired ==> s.dir != t
    requires forall s :: s in Holds(x) ==> s.dir != t
    ensures Watched(u, a, x.(phase := Announcing), c, k, t)
  {
    assert Vacant(u.disk, t);
    LeasesFine(w, a, t);
    hide Able, Vacant, LeasesOk, WellNamed;
    AbleStill(w, u, a, t);
    TwoArena(u, a, a, t);
  }

  /** The writer comes in and writes. */
  lemma Intrusion(w: World, c: nat, value: string) returns (run: seq<Event>, v: World)
    requires c in w.writers && w.writers[c].db in w.disk.content && w.writers[c].db.dir in w.disk.dirs
    requires w.writers[c].db !in w.disk.retired && !HeldBySome(w, w.writers[c].db)
    ensures Leads(w, run, v) && v.activators == w.activators && v.writers.Keys == w.writers.Keys
    ensures v.disk == w.disk.(content := w.disk.content[w.writers[c].db := value])
  {
    var db := w.writers[c].db;
    LeadsNowhere(w);
    var u := w;
    run := [];
    if u.writers[c].phase.Knocked? {
      var z := u.(writers := u.writers[c := Writer(db, Entered)]);
      assert Next(u, Client(c, Enter)) == Some(z);
      LeadsMild(u, Client(c, Enter), z);
      run, u := [Client(c, Enter)], z;
    }
    if u.writers[c].phase.Entered? {
      var z := u.(writers := u.writers[c := Writer(db, Connected)]);
      assert Next(u, Client(c, Connect)) == Some(z);
      LeadsMild(u, Client(c, Connect), z);
      LeadsOn(w, run, u, [Client(c, Connect)], z);
      run, u := run + [Client(c, Connect)], z;
    }
    hide HeldBySome;
    v := u.(disk := u.disk.(content := u.disk.content[db := value]));
    assert Next(u, Client(c, Write(value))) == Some(v);
    LeadsMild(u, Client(c, Write(value)), v);
    LeadsOn(w, run, u, [Client(c, Write(value))], v);
    run := run + [Client(c, Write(value))];
  }

  /** Raising a gate past which somebody has already knocked can always be followed, by orderly
      steps, by its fall over contents that no source ever held. */
  lemma ExposedGateLeaks(w: World, a: nat, v: World)
    requires a in w.activators && Exposed(w.writers, w.activators[a].request)
    requires ActivationStep(w, a, RaiseGate) == Some(v) && Regular(w)
    ensures Unsafe(v)
  {
    hide Unsafe, Leads, Watched, Regular, ActivationStep;
    var x := w.activators[a];
    var c :| c in w.writers && Names(x.request, w.writers[c].db);
    var s :| s in x.request.members && Component(x.request, s) == w.writers[c].db;
    var p, u := RaisedAlone(w, a, x, c, w.writers[c], v);
    assert x.(phase := Announcing).request == x.request;
    WatchedLeaks(u, a, x.(phase := Announcing), c, w.writers[c], s, x.request.dest);
    UnsafeBefore(v, p, u);
  }

  lemma WatchedLeaks(u: World, a: nat, x: Activator, c: nat, k: Writer, s: Db, t: Dir)
    requires Watched(u, a, x, c, k, t) && s in x.request.members && Component(x.request, s) == k.db
    ensures Unsafe(u)
  {
    hide Unsafe, Leads, Leaks, Watched, Spoiled;
    var run, v := WatchedSpoils(u, a, x, c, k, s, t);
    UnsafeNow(u, run, v, a, s);
  }

  /** The component under the gate differs from what was recorded, and the receipt is there. */
  predicate Spoiled(d: Disk, r: Request, s: Db)
  {
    && s in r.members && Component(r, s) in d.content && d.content[Component(r, s)] != r.members[s].content
    && r.dest in d.dirs && r.dest in d.receipts && d.receipts[r.dest] == r
  }

  lemma WatchedSpoils(u: World, a: nat, x: Activator, c: nat, k: Writer, s: Db, t: Dir) returns (run: seq<Event>, v: World)
    requires Watched(u, a, x, c, k, t) && s in x.request.members && Component(x.request, s) == k.db
    ensures Leads(u, run, v) && Leaks(v, a, s) && Spoiled(v.disk, x.request, s)
    ensures v.disk.gates == u.disk.gates && v.disk.retired == u.disk.retired
  {
    hide Leads, Leaks, Arena, Able, Vacant;
    LeasesFine(u, a, t);
    hide LeasesOk, WellNamed;
    var q, u1 := UpToTheGate(u, a, t);
    InDirs(u1, t);
    var z;
    z, v := StrayWrite(u1, a, c, s, t);
    LeadsOn(u, q, u1, z, v);
    run := q + z;
  }

  /** The writer who is still there spoils the component. */
  lemma StrayWrite(w: World, a: nat, c: nat, s: Db, t: Dir) returns (run: seq<Event>, v: World)
    requires Arena(w, t) && a in w.activators && Able(w, a, t) && w.activators[a].phase.Ungating?
    requires c in w.writers && s in w.activators[a].request.members && Component(w.activators[a].request, s) == w.writers[c].db
    requires w.writers[c].db in w.disk.content
    ensures Leads(w, run, v) && Leaks(v, a, s)
    ensures v.disk == w.disk.(content := v.disk.content)
    ensures w.writers[c].db in v.disk.content && v.disk.content[w.writers[c].db] != w.activators[a].request.members[s].content
  {
    InDirs(w, t);
    MemberElsewhere(w, a, t, s);
    LeasesFine(w, a, t);
    assert w.writers[c].db !in w.disk.retired && !HeldBySome(w, w.writers[c].db) by { hide Able; }
    hide Arena, Able, LeasesOk, WellNamed, Leads;
    var value := w.activators[a].request.members[s].content + (if s in w.disk.content then w.disk.content[s] else []) + ['!'];
    run, v := Intrusion(w, c, value);
    CanDrop(v, a);
  }

  /** The same at the last moment, from every state that keeps the invariant: whoever has knocked at
      a component that nobody holds can enter, connect and write just before the gate falls. */
  lemma KnockedLeaks(w: World, a: nat, c: nat, s: Db) returns (run: seq<Event>, v: World)
    requires Inv(w) && a in w.activators && w.activators[a].phase.Ungating? && w.activators[a].request.dest in w.disk.dirs
    requires s in w.activators[a].request.members
    requires var db := Component(w.activators[a].request, s);
             && c in w.writers && w.writers[c].db == db && db in w.disk.content && db !in w.disk.retired && !HeldBySome(w, db)
    ensures Leads(w, run, v) && Leaks(v, a, s)
  {
    hide Leads;
    SeenRetired(w, a);
    assert s in w.disk.retired && s in w.disk.content by { hide LocalOk, Exclusive; }
    hide Inv, LocalOk, Retired;
    run, v := Intrusion(w, c, w.disk.content[s] + ['!']);
    CanDrop(v, a);
  }

  lemma MemberElsewhere(w: World, a: nat, t: Dir, s: Db)
    requires a in w.activators && Able(w, a, t) && s in w.activators[a].request.members
    ensures s.dir != t
  {
    hide LeasesOk, WellNamed;
  }

  lemma UnsafeNow(w: World, run: seq<Event>, v: World, a: nat, s: Db)
    requires Leads(w, run, v) && Leaks(v, a, s)
    ensures Unsafe(w)
  {
  }

  // ---------------------------------------------------------------- the conditions are exact

  /** For a world reached by an orderly run and any step that is possible there: the step is
      orderly exactly if no orderly continuation lets a gate fall over the wrong contents. */
  lemma OrderlyIsExact(start: World, run: seq<Event>, e: Event)
    requires Initial(start) && After(start, run).Some? && OrderlyRun(start, run) && Next(After(start, run).value, e).Some?
    ensures var w := After(start, run).value; Orderly(w, e) <==> !Unsafe(Next(w, e).value)
  {
    InvAlways(start, run);
    CalmAlways(start, run);
    ReservedAlways(start, run);
    var w := After(start, run).value;
    var v := Next(w, e).value;
    if !Orderly(w, e) {
      assert Regular(w);
      hide After, Initial, Regular, Inv, Calm, ReservedFirst, OrderlyRun, Exposed, Contested, Unsafe, ClientStep, MayLose;
      if e.action.RaiseGate? && Exposed(w.writers, w.activators[e.a].request) {
        ExposedGateLeaks(w, e.a, v);
      } else {
        ContestedOpeningLeaks(w, e.a, v);
      }
    } else {
      hide Initial, Inv, Calm, ReservedFirst, Orderly, Next;
      NeverLeaks(start, run, e);
    }
  }

  lemma NeverLeaks(start: World, run: seq<Event>, e: Event)
    requires Initial(start) && After(start, run).Some? && OrderlyRun(start, run)
    requires var w := After(start, run).value; Next(w, e).Some? && Orderly(w, e)
    ensures !Unsafe(Next(After(start, run).value, e).value)
  {
    var w := After(start, run).value;
    var v := Next(w, e).value;
    if Unsafe(v) {
      var more, u, a, s :| Leads(v, more, u) && Leaks(u, a, s);
      hide Initial, Orderly, Next, Leaks, Unsafe;
      assert Leads(start, run, w);
      LeadsOne(w, e, v);
      LeadsOn(start, run, w, [e], v);
      LeadsOn(start, run + [e], v, more, u);
      assert After(start, run + [e] + more) == Some(u) && OrderlyRun(start, run + [e] + more);
      hide After, OrderlyRun;
      NoLeak(start, run + [e] + more, u, a, s);
    }
  }

  lemma NoLeak(start: World, run: seq<Event>, w: World, a: nat, s: Db)
    requires Initial(start) && After(start, run) == Some(w) && OrderlyRun(start, run)
    ensures !Leaks(w, a, s)
  {
    hide Initial, After, OrderlyRun;
    if ActivationStep(w, a, DropGate).Some? {
      hide ActivationStep;
      Stepped(w, a, DropGate);
      if s in w.activators[a].request.members {
        NoLostWrite(start, run, a, s);
      }
    }
  }
}
