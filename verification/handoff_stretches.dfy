/** The stretches of an activation that is left alone in its destination, as orderly runs. */
module HandoffStretches {
  import opened StrictJson
  import opened HandoffProtocol
  import opened HandoffSafety
  import opened HandoffContents
  import opened HandoffRuns

  // ---------------------------------------------------------------- a directory to work in

  /** Some orderly continuation lets a gate fall over a component that differs from its source. */
  ghost predicate Unsafe(w: World)
  {
    exists run, v, a, s :: Leads(w, run, v) && Leaks(v, a, s)
  }

  lemma UnsafeBefore(w: World, run: seq<Event>, v: World)
    requires Leads(w, run, v) && Unsafe(v)
    ensures Unsafe(w)
  {
    hide Leads, Leaks;
    var more, u, a, s :| Leads(v, more, u) && Leaks(u, a, s);
    LeadsOn(w, run, v, more, u);
  }

  /** An activation that nothing keeps from going on. */
  ghost predicate Able(w: World, a: nat, t: Dir)
    requires a in w.activators
  {
    var x := w.activators[a];
    && x.request.dest == t && x.request.members != map[] && WellNamed(x.request)
    && PastReserve(x.phase) && x.done <= x.request.members.Keys
    && LeasesOk(w.disk, a, x) && (forall s :: s in x.request.members ==> s.dir != t)
  }

  /** The directory exists, everyone left is at work there, and nothing in it is locked or retired. */
  ghost predicate Arena(w: World, t: Dir)
  {
    && t in w.disk.dirs && (forall s :: s in w.disk.retired ==> s.dir != t)
    && (forall b :: b in w.activators ==> Able(w, b, t) || w.activators[b].phase.Leaving?)
    && (forall b, s :: b in w.activators && s in Holds(w.activators[b]) ==> s.dir != t)
  }

  /** The steps inside a destination. */
  predicate Inner(action: Action)
  {
    action.RaiseGate? || action.Announce? || action.Copy? || action.WriteReceipt? || action.Commit?
    || action.ClearPending? || action.DropGate? || action.Rehash? || action.Adopt?
  }

  /** What such a step leaves alone. */
  lemma InnerFrame(w: World, a: nat, action: Action)
    requires a in w.activators && Inner(action) && LocalStep(w, a, action).Some?
    ensures var d, x, next := w.disk, w.activators[a], LocalStep(w, a, action).value;
            && next.disk.records == d.records && next.disk.retired == d.retired && next.disk.dirs == d.dirs
            && (forall q :: q != x.request.dest ==> (q in d.gates <==> q in next.disk.gates))
            && next.x.request == x.request && next.x.leases == x.leases
            && (x.done <= x.request.members.Keys ==> next.x.done <= x.request.members.Keys)
            && (PastReserve(next.x.phase) || next.x.phase.Leaving?)
  {
    if Bookkeeping(action) {
      hide LocalStep;
      BookkeepingFrame(w, a, action);
    } else {
      hide LocalStep;
      PlacingFrame(w, a, action);
    }
  }

  lemma PlacingFrame(w: World, a: nat, action: Action)
    requires a in w.activators && Inner(action) && !Bookkeeping(action) && LocalStep(w, a, action).Some?
    ensures var d, x, next := w.disk, w.activators[a], LocalStep(w, a, action).value;
            && next.disk == d.(content := next.disk.content, gates := next.disk.gates, pending := next.disk.pending,
                               receipts := next.disk.receipts)
            && (forall q :: q != x.request.dest ==> (q in d.gates <==> q in next.disk.gates))
            && next.x == x.(phase := next.x.phase, done := next.x.done)
            && (x.done <= x.request.members.Keys ==> next.x.done <= x.request.members.Keys)
            && (PastReserve(next.x.phase) || next.x.phase.Leaving?)
  {
    hide LeasesOk, LeaseOk;
  }

  lemma BookkeepingFrame(w: World, a: nat, action: Action)
    requires a in w.activators && (action.Commit? || action.Adopt?) && LocalStep(w, a, action).Some?
    ensures var d, x, next := w.disk, w.activators[a], LocalStep(w, a, action).value;
            && next.disk == d.(reservations := next.disk.reservations) && next.x == x.(phase := Clearing)
  {
    hide LeasesOk;
  }

  lemma ArenaKept(w: World, a: nat, action: Action, v: World, t: Dir)
    requires Arena(w, t) && a in w.activators && Inner(action) && w.activators[a].request.dest == t
    requires Able(w, a, t) && ActivationStep(w, a, action) == Some(v)
    ensures Arena(v, t) && v.writers == w.writers && v.activators == w.activators[a := v.activators[a]]
  {
    hide LocalStep, Noted, WellNamed, LeasesOk;
    InnerFrame(w, a, action);
    var next := LocalStep(w, a, action).value;
    assert Holds(next.x) <= Holds(w.activators[a]);
    forall b | b in v.activators && (b == a || !w.activators[b].phase.Leaving?) ensures LeasesOk(v.disk, b, v.activators[b]) {
      LeasesSame(w.disk, v.disk, b, w.activators[b], v.activators[b]);
    }
  }

  lemma LeasesSame(d: Disk, e: Disk, a: nat, x: Activator, y: Activator)
    requires LeasesOk(d, a, x) && y.request == x.request && y.leases == x.leases && e.records == d.records
    requires forall s :: s in x.request.members && s.dir in e.gates ==> s.dir in d.gates
    ensures LeasesOk(e, a, y)
  {
    forall s | s in y.request.members ensures LeaseOk(e, a, y, s) {
      assert LeaseOk(d, a, x, s);
    }
  }

  /** The activation has taken a step in the directory and nobody else has. */
  ghost predicate Advanced(w: World, a: nat, v: World, t: Dir)
  {
    && a in v.activators && Arena(v, t) && v.writers == w.writers
    && v.activators == w.activators[a := v.activators[a]] && (!v.activators[a].phase.Leaving? ==> Able(v, a, t))
  }

  lemma InsideStays(w: World, a: nat, action: Action, v: World, t: Dir)
    requires a in w.activators && Inner(action) && w.activators[a].request.dest == t
    requires Able(w, a, t) && Arena(w, t) && ActivationStep(w, a, action) == Some(v)
    ensures Advanced(w, a, v, t)
  {
    ArenaKept(w, a, action, v, t);
    hide Able, ActivationStep;
  }

  /** One step inside, as a piece of a run. */
  lemma Inside(w: World, a: nat, action: Action, v: World, t: Dir)
    requires a in w.activators && Inner(action) && w.activators[a].request.dest == t
    requires action.RaiseGate? ==> !Exposed(w.writers, w.activators[a].request)
    requires Able(w, a, t) && Arena(w, t) && ActivationStep(w, a, action) == Some(v)
    ensures Leads(w, [Act(a, action)], v) && Advanced(w, a, v, t)
  {
    assert Next(w, Act(a, action)) == Some(v) by { hide ActivationStep, Arena, Able; }
    assert Orderly(w, Act(a, action)) by { hide Exposed, ActivationStep, Arena, Able; }
    hide *;
    InsideStays(w, a, action, v, t);
    LeadsOne(w, Act(a, action), v);
  }

  // ---------------------------------------------------------------- everyone else leaves

  function Staying(w: World, activators: set<nat>): World
  {
    w.(activators := map a | a in w.activators && a in activators :: w.activators[a])
  }

  function Watching(w: World, writers: set<nat>): World
  {
    w.(writers := map c | c in w.writers && c in writers :: w.writers[c])
  }

  lemma {:induction false} Dismiss(w: World, activators: set<nat>) returns (run: seq<Event>)
    ensures Leads(w, run, Staying(w, activators)) && Lossless(run)
    decreases |w.activators.Keys - activators|
  {
    hide Leads, Mild, Lossless;
    if a :| a in w.activators.Keys - activators {
      var u := w.(activators := w.activators - {a});
      assert Staying(u, activators) == Staying(w, activators);
      StopOne(w, a, u);
      assert u.activators.Keys - activators == (w.activators.Keys - activators) - {a};
      run := Dismiss(u, activators);
      LeadsOn(w, [Stop(a)], u, run, Staying(u, activators));
      LosslessJoined([Stop(a)], run);
      run := [Stop(a)] + run;
    } else {
      Nobody(w.activators.Keys, activators);
      assert forall a :: a in w.activators <==> a in w.activators.Keys * activators;
      assert w == Staying(w, activators);
      LeadsNowhere(w);
      NothingLost();
      run := [];
    }
  }

  lemma {:induction false} Disconnect(w: World, writers: set<nat>) returns (run: seq<Event>)
    ensures Leads(w, run, Watching(w, writers)) && Lossless(run)
    decreases |w.writers.Keys - writers|
  {
    hide Leads, Mild, Lossless;
    if c :| c in w.writers.Keys - writers {
      var u := w.(writers := w.writers - {c});
      assert Watching(u, writers) == Watching(w, writers);
      CloseOne(w, c, u);
      assert u.writers.Keys - writers == (w.writers.Keys - writers) - {c};
      run := Disconnect(u, writers);
      LeadsOn(w, [Client(c, Close)], u, run, Watching(u, writers));
      LosslessJoined([Client(c, Close)], run);
      run := [Client(c, Close)] + run;
    } else {
      Nobody(w.writers.Keys, writers);
      assert forall c :: c in w.writers <==> c in w.writers.Keys * writers;
      assert w == Watching(w, writers);
      LeadsNowhere(w);
      NothingLost();
      run := [];
    }
  }

  lemma StopOne(w: World, a: nat, v: World)
    requires a in w.activators && v == w.(activators := w.activators - {a})
    ensures Leads(w, [Stop(a)], v) && Lossless([Stop(a)])
  {
    assert Next(w, Stop(a)) == Some(v);
    hide Next;
    LeadsMild(w, Stop(a), v);
  }

  lemma CloseOne(w: World, c: nat, v: World)
    requires c in w.writers && v == w.(writers := w.writers - {c})
    ensures Leads(w, [Client(c, Close)], v) && Lossless([Client(c, Close)])
  {
    assert Next(w, Client(c, Close)) == Some(v);
    hide Next;
    LeadsMild(w, Client(c, Close), v);
  }

  lemma Nobody(all: set<nat>, kept: set<nat>)
    requires all - kept == {}
    ensures all * kept == all
  {
    forall a | a in all ensures a in kept { assert a !in all - kept; }
  }

  // ---------------------------------------------------------------- the stretches of an activation

  lemma InDirs(w: World, t: Dir)
    requires Arena(w, t)
    ensures t in w.disk.dirs
  {
  }

  lemma LeasesFine(w: World, a: nat, t: Dir)
    requires a in w.activators && Able(w, a, t)
    ensures LeasesOk(w.disk, a, w.activators[a]) && w.activators[a].request.dest == t
    ensures w.activators[a].done <= w.activators[a].request.members.Keys && WellNamed(w.activators[a].request)
  {
    hide LeasesOk, WellNamed;
  }

  lemma Raised(w: World, a: nat, t: Dir) returns (v: World)
    requires Arena(w, t) && a in w.activators && Able(w, a, t) && w.writers == map[] && w.activators[a].phase.Gating?
    ensures Leads(w, [Act(a, RaiseGate)], v) && Arena(v, t) && v.writers == map[]
    ensures v.activators == w.activators[a := w.activators[a].(phase := Announcing)] && Able(v, a, t)
    ensures v.disk == w.disk.(gates := w.disk.gates + {t})
  {
    hide Leads, Able, Arena, OrderlyRun, After;
    InDirs(w, t);
    LeasesFine(w, a, t);
    v := ActivationStep(w, a, RaiseGate).value;
    assert v.disk == w.disk.(gates := w.disk.gates + {t}) && v.activators[a] == w.activators[a].(phase := Announcing);
    hide ActivationStep;
    Inside(w, a, RaiseGate, v, t);
  }

  lemma Announced(w: World, a: nat, t: Dir) returns (run: seq<Event>, v: World)
    requires Arena(w, t) && a in w.activators && Able(w, a, t) && t !in w.disk.pending && w.activators[a].phase.Announcing?
    ensures Leads(w, run, v) && Arena(v, t) && v.writers == w.writers
    ensures v.activators == w.activators[a := w.activators[a].(phase := Copying)] && Able(v, a, t)
    ensures v.disk == w.disk.(pending := w.disk.pending[t := w.activators[a].request])
  {
    hide Leads, Able, Arena, OrderlyRun, After;
    InDirs(w, t);
    LeasesFine(w, a, t);
    v := ActivationStep(w, a, Announce).value;
    assert v.activators[a] == w.activators[a].(phase := Copying);
    assert v.disk == w.disk.(pending := w.disk.pending[t := w.activators[a].request]);
    hide ActivationStep;
    Inside(w, a, Announce, v, t);
    run := [Act(a, Announce)];
  }

  /** Gate and pending record go up. */
  lemma Moving(w: World, a: nat, t: Dir) returns (run: seq<Event>, v: World)
    requires Arena(w, t) && a in w.activators && Able(w, a, t) && t !in w.disk.pending && w.writers == map[]
    requires w.activators[a].phase.Gating?
    ensures Leads(w, run, v) && Arena(v, t) && v.writers == map[]
    ensures v.activators == w.activators[a := w.activators[a].(phase := Copying)] && Able(v, a, t)
    ensures v.disk == w.disk.(gates := w.disk.gates + {t}, pending := w.disk.pending[t := w.activators[a].request])
  {
    hide Leads, Arena, Able;
    var u := Raised(w, a, t);
    var q;
    q, v := Announced(u, a, t);
    LeadsOn(w, [Act(a, RaiseGate)], u, q, v);
    run := [Act(a, RaiseGate)] + q;
  }

  /** One component is put in place, or found right. */
  lemma CopyOne(w: World, a: nat, t: Dir, s: Db) returns (v: World)
    requires Arena(w, t) && a in w.activators && Able(w, a, t) && w.activators[a].phase.Copying? && s in w.activators[a].request.members
    requires Component(w.activators[a].request, s) in w.disk.content ==> ComponentRight(w.disk, w.activators[a].request, s)
    ensures Leads(w, [Act(a, Copy(s))], v) && Arena(v, t) && v.writers == w.writers
    ensures v.activators == w.activators[a := w.activators[a].(done := w.activators[a].done + {s})] && Able(v, a, t)
    ensures v.disk == w.disk.(content := v.disk.content)
    ensures v.disk.content == w.disk.content[Component(w.activators[a].request, s) := w.activators[a].request.members[s].content]
  {
    hide Leads, Able, Arena, OrderlyRun, After, LeasesOk, WellNamed;
    InDirs(w, t);
    LeasesFine(w, a, t);
    v := ActivationStep(w, a, Copy(s)).value;
    assert v.activators[a] == w.activators[a].(done := w.activators[a].done + {s});
    assert v.disk == w.disk.(content := v.disk.content);
    assert v.disk.content == w.disk.content[Component(w.activators[a].request, s) := w.activators[a].request.members[s].content];
    hide ActivationStep;
    Inside(w, a, Copy(s), v, t);
  }

  /** The components still to be copied are not there. */
  ghost predicate Missing(d: Disk, x: Activator)
  {
    forall s :: s in x.request.members && s !in x.done ==> Component(x.request, s) !in d.content
  }

  lemma {:induction false} CopyAll(w: World, a: nat, t: Dir) returns (run: seq<Event>, v: World)
    requires Arena(w, t) && a in w.activators && Able(w, a, t) && w.activators[a].phase.Copying?
    requires Missing(w.disk, w.activators[a])
    ensures Further(w, a, t, run, v, w.activators[a].request.members.Keys) && Supplied(v.disk, w.activators[a])
    decreases |w.activators[a].request.members.Keys - w.activators[a].done|
  {
    var x := w.activators[a];
    hide *;
    if s :| s in x.request.members.Keys - x.done {
      LeasesFine(w, a, t);
      MissingOne(w.disk, x, s);
      var u := CopiedFirst(w, a, t, s);
      assert x.request.members.Keys - u.activators[a].done == (x.request.members.Keys - x.done) - {s};
      StillMissing(w.disk, u.disk, x, s);
      var q;
      q, v := CopyAll(u, a, t);
      FurtherOn(w, a, t, [Act(a, Copy(s))], u, x.done + {s}, q, v, x.request.members.Keys);
      FurtherKeys(u, a, t, q, v, x.request.members.Keys);
      SuppliedFirst(u.disk, v.disk, x, s);
      run := [Act(a, Copy(s))] + q;
    } else {
      FurtherNowhere(w, a, t);
      NothingMissing(w.disk, x);
      run, v := [], w;
    }
  }

  lemma FurtherKeys(w: World, a: nat, t: Dir, run: seq<Event>, v: World, done: set<Db>)
    requires a in w.activators && Further(w, a, t, run, v, done)
    ensures w.disk.content.Keys <= v.disk.content.Keys
  {
    hide Leads, Arena, Able;
  }

  lemma CopiedFirst(w: World, a: nat, t: Dir, s: Db) returns (v: World)
    requires a in w.activators && w.activators[a].phase.Copying? && s in w.activators[a].request.members
    requires Component(w.activators[a].request, s) !in w.disk.content && Arena(w, t) && Able(w, a, t)
    ensures Further(w, a, t, [Act(a, Copy(s))], v, w.activators[a].done + {s})
    ensures v.activators == w.activators[a := w.activators[a].(done := w.activators[a].done + {s})] && Able(v, a, t) && Arena(v, t)
    ensures v.disk.content == w.disk.content[Component(w.activators[a].request, s) := w.activators[a].request.members[s].content]
  {
    hide Leads, Arena, Able;
    v := CopyOne(w, a, t, s);
  }

  /** The first component and then the rest. */
  lemma SuppliedFirst(d: Disk, e: Disk, x: Activator, s: Db)
    requires s in x.request.members && Component(x.request, s) in d.content && d.content.Keys <= e.content.Keys
    requires Supplied(e, x.(done := x.done + {s}))
    ensures Supplied(e, x)
  {
  }

  lemma NothingMissing(d: Disk, x: Activator)
    requires x.request.members.Keys - x.done == {}
    ensures Supplied(d, x)
  {
    forall s | s in x.request.members ensures s in x.done { assert s !in x.request.members.Keys - x.done; }
  }

  lemma MissingOne(d: Disk, x: Activator, s: Db)
    requires Missing(d, x) && s in x.request.members && s !in x.done
    ensures Component(x.request, s) !in d.content
  {
  }

  lemma StillMissing(d: Disk, e: Disk, x: Activator, s: Db)
    requires Missing(d, x) && WellNamed(x.request) && s in x.request.members
    requires e.content == d.content[Component(x.request, s) := x.request.members[s].content]
    ensures Missing(e, x.(done := x.done + {s}))
  {
    forall m | m in x.request.members && m !in x.done + {s} ensures Component(x.request, m) !in e.content {
      assert x.request.members[m].file != x.request.members[s].file;
    }
  }

  lemma AllDone(x: Activator)
    requires x.request.members.Keys - x.done == {} && x.done <= x.request.members.Keys
    ensures x == x.(done := x.request.members.Keys)
  {
    forall s | s in x.request.members ensures s in x.done { assert s !in x.request.members.Keys - x.done; }
  }

  lemma Receipted(w: World, a: nat, t: Dir) returns (v: World)
    requires Arena(w, t) && a in w.activators && Able(w, a, t) && w.activators[a].phase.Copying?
    requires w.activators[a].done == w.activators[a].request.members.Keys
    ensures Leads(w, [Act(a, WriteReceipt)], v) && Arena(v, t) && v.writers == w.writers
    ensures v.activators == w.activators[a := w.activators[a].(phase := Committing)] && Able(v, a, t)
    ensures v.disk == w.disk.(receipts := w.disk.receipts[t := w.activators[a].request])
  {
    hide Leads, Able, Arena, OrderlyRun, After, LeasesOk, WellNamed;
    InDirs(w, t);
    LeasesFine(w, a, t);
    v := ActivationStep(w, a, WriteReceipt).value;
    assert v.activators[a] == w.activators[a].(phase := Committing);
    assert v.disk == w.disk.(receipts := w.disk.receipts[t := w.activators[a].request]);
    hide ActivationStep;
    Inside(w, a, WriteReceipt, v, t);
  }

  lemma Reserved(w: World, a: nat, t: Dir) returns (v: World)
    requires Arena(w, t) && a in w.activators && Able(w, a, t) && w.activators[a].phase.Committing?
    ensures Leads(w, [Act(a, Commit)], v) && Arena(v, t) && v.writers == w.writers
    ensures v.activators == w.activators[a := w.activators[a].(phase := Clearing)] && Able(v, a, t)
    ensures v.disk == w.disk.(reservations := v.disk.reservations)
  {
    hide Leads, Able, Arena, OrderlyRun, After, LeasesOk, WellNamed;
    LeasesFine(w, a, t);
    v := ActivationStep(w, a, Commit).value;
    assert v.activators[a] == w.activators[a].(phase := Clearing);
    hide ActivationStep;
    Inside(w, a, Commit, v, t);
  }

  lemma Cleared(w: World, a: nat, t: Dir) returns (v: World)
    requires Arena(w, t) && a in w.activators && Able(w, a, t) && w.activators[a].phase.Clearing?
    ensures Leads(w, [Act(a, ClearPending)], v) && Arena(v, t) && v.writers == w.writers
    ensures v.activators == w.activators[a := w.activators[a].(phase := Ungating)] && Able(v, a, t)
    ensures v.disk == w.disk.(pending := w.disk.pending - {t})
  {
    hide Leads, Able, Arena, OrderlyRun, After, LeasesOk, WellNamed;
    LeasesFine(w, a, t);
    v := ActivationStep(w, a, ClearPending).value;
    assert v.activators[a] == w.activators[a].(phase := Ungating);
    assert v.disk == w.disk.(pending := w.disk.pending - {t});
    hide ActivationStep;
    Inside(w, a, ClearPending, v, t);
  }

  /** From the receipt to the last step before the gate falls. */
  lemma Wrapped(w: World, a: nat, t: Dir) returns (run: seq<Event>, v: World)
    requires Arena(w, t) && a in w.activators && Able(w, a, t)
    requires w.activators[a].phase.Committing? || w.activators[a].phase.Clearing? || w.activators[a].phase.Ungating?
    ensures Leads(w, run, v) && Arena(v, t) && v.writers == w.writers
    ensures v.activators == w.activators[a := w.activators[a].(phase := Ungating)] && Able(v, a, t)
    ensures v.disk == w.disk.(pending := v.disk.pending, reservations := v.disk.reservations)
    ensures !w.activators[a].phase.Ungating? ==> t !in v.disk.pending
  {
    hide Leads, Arena, Able;
    LeadsNowhere(w);
    run, v := [], w;
    assert w.activators == w.activators[a := w.activators[a]];
    if v.activators[a].phase.Committing? {
      v := Reserved(w, a, t);
      run := [Act(a, Commit)];
    }
    if v.activators[a].phase.Clearing? {
      var u := Cleared(v, a, t);
      LeadsOn(w, run, v, [Act(a, ClearPending)], u);
      run, v := run + [Act(a, ClearPending)], u;
    }
  }

  /** Receipt, reservation, pending record. */
  lemma CloseOut(w: World, a: nat, t: Dir) returns (run: seq<Event>, v: World)
    requires Arena(w, t) && a in w.activators && Able(w, a, t) && w.activators[a].phase.Copying?
    requires w.activators[a].done == w.activators[a].request.members.Keys
    ensures Leads(w, run, v) && Arena(v, t) && v.writers == w.writers
    ensures v.activators == w.activators[a := w.activators[a].(phase := Ungating)] && Able(v, a, t)
    ensures v.disk.content == w.disk.content && v.disk.gates == w.disk.gates && v.disk.dirs == w.disk.dirs
    ensures v.disk.receipts == w.disk.receipts[t := w.activators[a].request] && t !in v.disk.pending
    ensures v.disk.retired == w.disk.retired
  {
    hide Leads, Arena, Able;
    var u := Receipted(w, a, t);
    var q;
    q, v := Wrapped(u, a, t);
    LeadsOn(w, [Act(a, WriteReceipt)], u, q, v);
    run := [Act(a, WriteReceipt)] + q;
  }

  lemma Dropped(w: World, a: nat, t: Dir) returns (v: World)
    requires Arena(w, t) && a in w.activators && Able(w, a, t) && w.activators[a].phase.Ungating?
    ensures Leads(w, [Act(a, DropGate)], v) && Arena(v, t) && v.writers == w.writers
    ensures v.activators == w.activators[a := w.activators[a].(phase := Leaving)]
    ensures v.disk == w.disk.(gates := w.disk.gates - {t})
  {
    hide Leads, Able, Arena, OrderlyRun, After, LeasesOk, WellNamed;
    InDirs(w, t);
    LeasesFine(w, a, t);
    v := ActivationStep(w, a, DropGate).value;
    assert v.activators[a] == w.activators[a].(phase := Leaving);
    assert v.disk == w.disk.(gates := w.disk.gates - {t});
    hide ActivationStep;
    Inside(w, a, DropGate, v, t);
  }

  // ---------------------------------------------------------------- writers behind a fallen gate

  /** While the gate is down, a writer can give a component any contents. */
  lemma HeldAlike(w: World, v: World, db: Db)
    requires v.activators == w.activators
    ensures HeldBySome(v, db) == HeldBySome(w, db)
  {
  }

  lemma Scribbled(w: World, db: Db, value: string, t: Dir) returns (run: seq<Event>, v: World)
    requires Arena(w, t) && t !in w.disk.gates && w.writers == map[] && db.dir == t && db in w.disk.content
    ensures Leads(w, run, v) && v == w.(disk := w.disk.(content := w.disk.content[db := value]))
  {
    hide Leads, Able;
    assert t in w.disk.dirs && db !in w.disk.retired && !HeldBySome(w, db);
    hide Arena, HeldBySome;
    var w1 := w.(writers := map[0 := Writer(db, Knocked)]);
    var w2 := w.(writers := map[0 := Writer(db, Entered)]);
    var w3 := w.(writers := map[0 := Writer(db, Connected)]);
    var w4 := w3.(disk := w.disk.(content := w.disk.content[db := value]));
    v := w4.(writers := map[]);
    assert Next(w, Client(0, Knock(db))) == Some(w1);
    assert w1.writers[0 := Writer(db, Entered)] == w2.writers && w2.writers[0 := Writer(db, Connected)] == w3.writers;
    assert Next(w1, Client(0, Enter)) == Some(w2) by { HeldAlike(w, w1, db); }
    assert Next(w2, Client(0, Connect)) == Some(w3);
    assert Next(w3, Client(0, Write(value))) == Some(w4);
    assert Next(w4, Client(0, Close)) == Some(v);
    hide Next, Leads, HeldBySome;
    Leads3(w, Client(0, Knock(db)), w1, Client(0, Enter), w2, Client(0, Connect), w3);
    Leads2(w3, Client(0, Write(value)), w4, Client(0, Close), v);
    run := [Client(0, Knock(db)), Client(0, Enter), Client(0, Connect)];
    LeadsOn(w, run, w3, [Client(0, Write(value)), Client(0, Close)], v);
    run := run + [Client(0, Write(value)), Client(0, Close)];
  }

  lemma ScribbledArena(w: World, v: World, t: Dir)
    requires Arena(w, t) && v == w.(disk := w.disk.(content := v.disk.content))
    ensures Arena(v, t)
    ensures forall a :: a in w.activators && Able(w, a, t) ==> Able(v, a, t)
  {
    forall a | a in w.activators && Able(w, a, t) ensures Able(v, a, t) {
      LeasesSame(w.disk, v.disk, a, w.activators[a], v.activators[a]);
    }
    hide Able;
  }

  /** With the help of a writer every component can be found right. */
  lemma Suited(w: World, a: nat, t: Dir, s: Db) returns (run: seq<Event>, v: World)
    requires Arena(w, t) && t !in w.disk.gates && w.writers == map[]
    requires a in w.activators && Able(w, a, t) && s in w.activators[a].request.members
    ensures Leads(w, run, v) && v == w.(disk := w.disk.(content := v.disk.content)) && Arena(v, t) && Able(v, a, t)
    ensures v.disk.content.Keys == w.disk.content.Keys
    ensures var r := w.activators[a].request; Component(r, s) in v.disk.content ==> ComponentRight(v.disk, r, s)
  {
    hide Leads, Arena, Able;
    LeasesFine(w, a, t);
    hide LeasesOk, WellNamed;
    var db := Component(w.activators[a].request, s);
    if db in w.disk.content {
      run, v := Scribbled(w, db, w.activators[a].request.members[s].content, t);
      ScribbledArena(w, v, t);
    } else {
      LeadsNowhere(w);
      run, v := [], w;
    }
  }

  /** The activation has handled one source more, or all of them, and only contents have changed. */
  ghost predicate Further(w: World, a: nat, t: Dir, run: seq<Event>, v: World, done: set<Db>)
    requires a in w.activators
  {
    && Leads(w, run, v) && Arena(v, t) && v.writers == w.writers
    && v.activators == w.activators[a := w.activators[a].(done := done)] && Able(v, a, t)
    && v.disk == w.disk.(content := v.disk.content) && w.disk.content.Keys <= v.disk.content.Keys
  }

  lemma FurtherOn(w: World, a: nat, t: Dir, p: seq<Event>, u: World, done: set<Db>, q: seq<Event>, v: World, all: set<Db>)
    requires a in w.activators && Further(w, a, t, p, u, done) && a in u.activators && Further(u, a, t, q, v, all)
    ensures Further(w, a, t, p + q, v, all)
  {
    hide Leads, Arena, Able;
    LeadsOn(w, p, u, q, v);
    assert v.activators == w.activators[a := w.activators[a].(done := all)];
  }

  lemma FurtherNowhere(w: World, a: nat, t: Dir)
    requires Arena(w, t) && a in w.activators && Able(w, a, t)
    requires w.activators[a].request.members.Keys - w.activators[a].done == {}
    ensures Further(w, a, t, [], w, w.activators[a].request.members.Keys)
  {
    LeasesFine(w, a, t);
    hide Leads, Arena, Able, LeasesOk, WellNamed;
    AllDone(w.activators[a]);
    LeadsNowhere(w);
    assert w.activators == w.activators[a := w.activators[a]];
  }

  lemma SuitedCopy(w: World, a: nat, t: Dir, s: Db) returns (run: seq<Event>, v: World)
    requires Arena(w, t) && t !in w.disk.gates && w.writers == map[]
    requires a in w.activators && s in w.activators[a].request.members && Able(w, a, t) && w.activators[a].phase.Copying?
    ensures Further(w, a, t, run, v, w.activators[a].done + {s})
  {
    hide Leads, Arena, Able;
    var p, u := Suited(w, a, t, s);
    v := CopyOne(u, a, t, s);
    LeadsOn(w, p, u, [Act(a, Copy(s))], v);
    run := p + [Act(a, Copy(s))];
  }

  lemma {:induction false} ForceCopies(w: World, a: nat, t: Dir) returns (run: seq<Event>, v: World)
    requires Arena(w, t) && t !in w.disk.gates && w.writers == map[]
    requires a in w.activators && Able(w, a, t) && w.activators[a].phase.Copying?
    ensures Further(w, a, t, run, v, w.activators[a].request.members.Keys)
    decreases |w.activators[a].request.members.Keys - w.activators[a].done|
  {
    var x := w.activators[a];
    hide Leads, Arena, Able;
    if s :| s in x.request.members.Keys - x.done {
      var p, u := SuitedCopy(w, a, t, s);
      assert x.request.members.Keys - u.activators[a].done == (x.request.members.Keys - x.done) - {s};
      var q;
      q, v := ForceCopies(u, a, t);
      hide *;
      FurtherOn(w, a, t, p, u, x.done + {s}, q, v, x.request.members.Keys);
      run := p + q;
    } else {
      FurtherNowhere(w, a, t);
      run, v := [], w;
    }
  }

  lemma Rehashed(w: World, a: nat, t: Dir, s: Db) returns (v: World)
    requires Arena(w, t) && a in w.activators && Able(w, a, t) && w.activators[a].phase.Rehashing?
    requires s in w.activators[a].request.members && ComponentRight(w.disk, w.activators[a].request, s)
    ensures Leads(w, [Act(a, Rehash(s))], v) && Arena(v, t) && v.writers == w.writers && v.disk == w.disk
    ensures v.activators == w.activators[a := w.activators[a].(done := w.activators[a].done + {s})] && Able(v, a, t)
  {
    hide Leads, Able, Arena, OrderlyRun, After, LeasesOk, WellNamed;
    LeasesFine(w, a, t);
    v := ActivationStep(w, a, Rehash(s)).value;
    assert v.activators[a] == w.activators[a].(done := w.activators[a].done + {s});
    hide ActivationStep;
    Inside(w, a, Rehash(s), v, t);
  }

  /** Every component that is still to be compared is there. */
  ghost predicate Supplied(d: Disk, x: Activator)
  {
    forall s :: s in x.request.members && s !in x.done ==> Component(x.request, s) in d.content
  }

  lemma SuppliedOn(d: Disk, e: Disk, x: Activator, s: Db)
    requires Supplied(d, x) && d.content.Keys <= e.content.Keys
    ensures Supplied(e, x.(done := x.done + {s}))
    ensures s in x.request.members && s !in x.done ==> Component(x.request, s) in e.content
  {
  }

  lemma SuitedRehash(w: World, a: nat, t: Dir, s: Db) returns (run: seq<Event>, v: World)
    requires Arena(w, t) && t !in w.disk.gates && w.writers == map[]
    requires a in w.activators && s in w.activators[a].request.members && Able(w, a, t) && w.activators[a].phase.Rehashing? && Supplied(w.disk, w.activators[a])
    requires s !in w.activators[a].done
    ensures Further(w, a, t, run, v, w.activators[a].done + {s}) && Supplied(v.disk, v.activators[a])
  {
    hide Leads, Arena, Able, Supplied;
    var p, u := Suited(w, a, t, s);
    SuppliedOn(w.disk, u.disk, w.activators[a], s);
    v := Rehashed(u, a, t, s);
    LeadsOn(w, p, u, [Act(a, Rehash(s))], v);
    run := p + [Act(a, Rehash(s))];
  }

  lemma {:induction false} ForceRehash(w: World, a: nat, t: Dir) returns (run: seq<Event>, v: World)
    requires Arena(w, t) && t !in w.disk.gates && w.writers == map[]
    requires a in w.activators && Able(w, a, t) && w.activators[a].phase.Rehashing? && Supplied(w.disk, w.activators[a])
    ensures Further(w, a, t, run, v, w.activators[a].request.members.Keys)
    decreases |w.activators[a].request.members.Keys - w.activators[a].done|
  {
    var x := w.activators[a];
    hide Leads, Arena, Able, Supplied;
    if s :| s in x.request.members.Keys - x.done {
      var p, u := SuitedRehash(w, a, t, s);
      assert x.request.members.Keys - u.activators[a].done == (x.request.members.Keys - x.done) - {s};
      var q;
      q, v := ForceRehash(u, a, t);
      hide *;
      FurtherOn(w, a, t, p, u, x.done + {s}, q, v, x.request.members.Keys);
      run := p + q;
    } else {
      FurtherNowhere(w, a, t);
      run, v := [], w;
    }
  }

  lemma Adopted(w: World, a: nat, t: Dir) returns (v: World)
    requires Arena(w, t) && a in w.activators && Able(w, a, t) && w.activators[a].phase.Rehashing?
    requires w.activators[a].done == w.activators[a].request.members.Keys && t in w.disk.receipts
    ensures Leads(w, [Act(a, Adopt)], v) && Arena(v, t) && v.writers == w.writers
    ensures v.activators == w.activators[a := w.activators[a].(phase := Clearing)] && Able(v, a, t)
    ensures v.disk == w.disk.(reservations := v.disk.reservations)
  {
    hide Leads, Able, Arena, OrderlyRun, After, LeasesOk, WellNamed;
    LeasesFine(w, a, t);
    v := ActivationStep(w, a, Adopt).value;
    assert v.activators[a] == w.activators[a].(phase := Clearing);
    hide ActivationStep;
    Inside(w, a, Adopt, v, t);
  }

  /** Whoever is about to remove a gate that has fallen already does so over what writers left. */
  lemma FallenLeaks(w: World, a: nat, t: Dir)
    requires Arena(w, t) && t !in w.disk.gates && w.writers == map[]
    requires a in w.activators && Able(w, a, t) && w.activators[a].phase.Ungating?
    ensures Unsafe(w)
  {
    LeasesFine(w, a, t);
    var x := w.activators[a];
    assert x.request.members != map[] && forall s :: s in x.request.members ==> s.dir != t by { hide LeasesOk, WellNamed; }
    InDirs(w, t);
    hide Arena, Able, LeasesOk, WellNamed, Leads;
    var s :| s in x.request.members;
    var db := Component(x.request, s);
    LeadsNowhere(w);
    CanDrop(w, a);
    if !Leaks(w, a, s) {
      var run, v := Scribbled(w, db, w.disk.content[s] + ['!'], t);
      CanDrop(v, a);
      assert Leaks(v, a, s);
    }
  }

  lemma CanDrop(w: World, a: nat)
    requires a in w.activators && w.activators[a].phase.Ungating? && w.activators[a].request.dest in w.disk.dirs
    ensures ActivationStep(w, a, DropGate).Some?
  {
  }
}
