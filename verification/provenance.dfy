/** The provenance registry and its sources as provenance.py works on them: a document that is
    loaded, changed and stored, and a disposal that steps through its commits. */
module Provenance {
  import opened StrictJson
  import opened DisposalProtocol
  import opened DisposalLaws
  import opened DisposalResults

  /** Where a disposal may be stopped between two commits. */
  datatype Failpoint = NoStop | BeforeSourceCommit | AfterSourceCommit

  /** The origins registered for one Run, by a loop over the document. */
  method FindOrigins(g: Registry, store: string, run: string) returns (origins: set<Origin>)
    ensures origins == OriginsOf(g, store, run)
  {
    origins := {};
    var rest := g.runs.Keys;
    while rest != {}
      invariant rest <= g.runs.Keys
      invariant origins == set o | o in g.runs && o !in rest && SameRun(o, store, run)
      decreases |rest|
    {
      var o :| o in rest;
      if SameRun(o, store, run) {
        origins := origins + {o};
      }
      rest := rest - {o};
    }
  }

  function IncomingOf(g: Registry, o: Origin): set<Reference> { set r | r in g.references && r.target == o }

  method CountIncoming(g: Registry, o: Origin) returns (count: nat)
    ensures count > 0 <==> Incoming(g, o)
    ensures count == |IncomingOf(g, o)|
  {
    count := 0;
    var rest := g.references;
    ghost var seen: set<Reference> := {};
    while rest != {}
      invariant rest <= g.references
      invariant seen == set r | r in g.references && r !in rest && r.target == o
      invariant count == |seen|
      decreases |rest|
    {
      var r :| r in rest;
      if r.target == o {
        seen := seen + {r};
        count := count + 1;
      }
      rest := rest - {r};
    }
    assert seen == IncomingOf(g, o);
    if count > 0 {
      assert exists r :: r in seen;
    } else {
      assert seen == {};
      assert forall r :: r in g.references && r.target == o ==> r in seen;
    }
  }

  lemma OneOrigin(g: Registry, store: string, run: string, origins: set<Origin>)
    requires origins == OriginsOf(g, store, run)
    ensures forall o :: origins == {o} ==> UniqueOrigin(g, store, run) == Some(o)
    ensures |origins| != 1 ==> UniqueOrigin(g, store, run) == None
  {
    forall o | origins == {o} ensures UniqueOrigin(g, store, run) == Some(o) {
      var u := UniqueOrigin(g, store, run);
      assert OriginsOf(g, store, run) == {u.value};
      assert o in {u.value};
    }
  }

  /** What speaks against the registration of a Run. */
  method CheckOrigin(g: Registry, store: string, run: string, path: string)
    returns (origin: Option<Origin>, blockers: set<Blocker>)
    ensures origin == UniqueOrigin(g, store, run) && (origin.Some? ==> origin.value in g.runs)
    ensures blockers == OriginBlockers(g, origin, path)
  {
    var origins := FindOrigins(g, store, run);
    OneOrigin(g, store, run, origins);
    hide UniqueOrigin, Incoming;
    if |origins| != 1 {
      return None, {NotUniquelyRegistered};
    }
    var o :| o in origins;
    Singleton(origins, o);
    assert o in OriginsOf(g, store, run);
    hide OriginsOf, OriginBlockers;
    blockers := BlockersOf(g, o, path);
    return Some(o), blockers;
  }

  method BlockersOf(g: Registry, o: Origin, path: string) returns (blockers: set<Blocker>)
    requires o in g.runs
    ensures blockers == OriginBlockers(g, Some(o), path)
  {
    hide Incoming, IncomingOf, RecordBlockers;
    var incoming := CountIncoming(g, o);
    blockers := RecordBlockers(g.runs[o], path) + (if incoming > 0 then {IncomingReferences} else {});
  }

  method ComputePlan(s: Store, path: string, run: string, g: Registry) returns (plan: Plan)
    ensures plan == BuildPlan(s, path, run, g)
  {
    var origin, blockers := CheckOrigin(g, s.id, run, path);
    hide UniqueOrigin, OriginBlockers, RowBlockers;
    var rows := RowBlockers(s, run);
    blockers := rows + blockers;
    if !g.scopeClosed { blockers := blockers + {ScopeOpen}; }
    if run in s.records && s.records[run] > 0 { blockers := blockers + {RelatedRecords}; }
    plan := Plan(path, run, if run in s.runs then Some(s.runs[run]) else None, origin, Token(s.id, s.mutation), g.revision,
                 g.scopeClosed, blockers);
  }

  lemma Singleton<T>(s: set<T>, x: T)
    requires |s| == 1 && x in s
    ensures s == {x}
  {
    assert |s - {x}| == 0;
    forall y | y in s ensures y == x {
      assert y !in s - {x};
    }
  }

  class Registrar {
    var registry: Registry
    var stores: map<string, Store>

    constructor (registry: Registry, stores: map<string, Store>)
      requires Initial(World(registry, stores, map[]))
      ensures this.registry == registry && this.stores == stores && Valid()
    {
      this.registry, this.stores := registry, stores;
      InitialInv(World(registry, stores, map[]));
    }

    /** Nothing runs between two calls. */
    ghost function Now(): World
      reads this
    {
      World(registry, stores, map[])
    }

    ghost predicate Valid()
      reads this
    {
      Inv(Now())
    }

    method PlanDisposal(path: string, run: string) returns (plan: Option<Plan>)
      ensures plan == if path in stores then Some(BuildPlan(stores[path], path, run, registry)) else None
    {
      if path !in stores {
        return None;
      }
      var built := ComputePlan(stores[path], path, run, registry);
      return Some(built);
    }

    predicate Registrable(path: string, run: string, header: string)
      reads this
    {
      && path in stores && run in stores[path].runs && run !in stores[path].tombstones
      && var o := Origin(stores[path].id, run, header);
         && (forall q :: q in registry.runs && SameRun(q, o.store, o.run) ==> q == o)
         && (o in registry.runs ==> registry.runs[o] == Record(Active, path, None, None, None))
    }

    /** A Run can be registered again only with the same header and path, and never once its
        disposal has begun. */
    method RegisterRun(path: string, run: string, header: string) returns (origin: Option<Origin>)
      requires Valid()
      modifies this
      ensures Valid() && stores == old(stores)
      ensures origin.Some? <==> old(Registrable(path, run, header))
      ensures origin.Some? ==>
        && origin.value == Origin(stores[path].id, run, header)
        && origin.value in registry.runs && registry.runs[origin.value] == Record(Active, path, None, None, None)
        && (if origin.value in old(registry).runs then registry == old(registry)
            else registry == Saved(old(registry).(runs := registry.runs))
                 && registry.runs == old(registry).runs[origin.value := registry.runs[origin.value]])
      ensures origin.None? ==> registry == old(registry)
    {
      hide Inv;
      if path !in stores || run in stores[path].tombstones || run !in stores[path].runs {
        return None;
      }
      var o, record := Origin(stores[path].id, run, header), Record(Active, path, None, None, None);
      if (exists q :: q in registry.runs && SameRun(q, o.store, o.run) && q != o) {
        return None;
      }
      if o in registry.runs {
        return if registry.runs[o] == record then Some(o) else None;
      }
      ghost var looked := LookAtRun(Now(), 0, path, run, header).value;
      LookKeeps(Now(), 0, path, run, header);
      registry := Saved(registry.(runs := registry.runs[o := record]));
      assert Now() == DisposalProtocol.RegisterRun(looked, 0).value;
      RegisterKeeps(looked, 0);
      return Some(o);
    }

    method AddReference(source: Origin, target: Origin) returns (ok: bool)
      requires Valid()
      modifies this
      ensures Valid() && stores == old(stores)
      ensures ok <==> Open(old(registry), source) && Open(old(registry), target)
      ensures registry.references == old(registry).references + if ok then {Reference(source, target)} else {}
      ensures registry.runs == old(registry).runs
    {
      hide Inv;
      if !Open(registry, source) || !Open(registry, target) {
        return false;
      }
      LinkKeeps(Now(), source, target);
      if Reference(source, target) !in registry.references {
        registry := Saved(registry.(references := registry.references + {Reference(source, target)}));
      }
      return true;
    }

    /** The world while one disposal runs and nothing else does. */
    ghost function During(plan: Plan, operation: string, phase: Phase): World
      reads this
    {
      World(registry, stores, map[0 := Disposer(plan, operation, phase)])
    }

    method Admit(plan: Plan, operation: string) returns (phase: Option<Phase>)
      requires ValidPlan(plan) && plan.origin.value in registry.runs && plan.path in stores
      ensures phase == Admitted(Now(), plan, operation)
    {
      hide BuildPlan;
      var o, s := plan.origin.value, stores[plan.path];
      var record := registry.runs[o];
      if record.state == Deleting {
        if record.deletion != Some(Deletion(operation, plan)) { return None; }
      } else if record.state == Disposed || registry.revision != plan.registryRevision {
        return None;
      }
      if plan.run in s.tombstones {
        return if s.tombstones[plan.run] == Tombstone(operation, o, plan) then Some(Deleted) else None;
      }
      var now := ComputePlan(s, plan.path, plan.run, registry);
      if record.state == Deleting {
        return if now.blockers - {NotActive} == {} && now.row == plan.row && now.origin == plan.origin
                  && now.token == plan.token && now.scopeClosed then Some(Relocked) else None;
      }
      return if now == plan then Some(Ready) else None;
    }

    /** First commit, and the registry lock taken again. */
    method CommitMark(plan: Plan, operation: string)
      requires Inv(During(plan, operation, Ready)) && plan.origin.Some?
      modifies this
      ensures Inv(During(plan, operation, Relocked)) && stores == old(stores)
      ensures After(old(During(plan, operation, Ready)), [Mark(0), Relock(0)]) == Some(During(plan, operation, Relocked))
    {
      hide Inv;
      ghost var w := During(plan, operation, Ready);
      Enabled(w, 0);
      InvStep(w, Mark(0));
      var o := plan.origin.value;
      var record := registry.runs[o].(state := Deleting, deletion := Some(Deletion(operation, plan)));
      registry := Saved(registry.(runs := registry.runs[o := record]));
      ghost var w1 := During(plan, operation, Marked);
      assert w1.processes == w.processes[0 := Disposer(plan, operation, Marked)];
      assert MarkDeleting(w, 0) == Some(w1);
      ghost var w2 := During(plan, operation, Relocked);
      assert w2.processes == w1.processes[0 := Disposer(plan, operation, Relocked)];
      assert TakeRegistryAgain(w1, 0) == Some(w2);
      InvStep(w1, Relock(0));
      hide Next;
      OneStep(w, Mark(0));
      OneStep(w1, Relock(0));
      JoinedRuns(w, [Mark(0)], [Relock(0)]);
      assert [Mark(0)] + [Relock(0)] == [Mark(0), Relock(0)];
    }

    /** Second commit: the rows go, the tombstone comes. */
    method CommitDelete(plan: Plan, operation: string)
      requires Inv(During(plan, operation, Relocked)) && plan.origin.Some? && plan.path in stores
      modifies this
      ensures Inv(During(plan, operation, Deleted)) && registry == old(registry) && plan.path in stores
      ensures After(old(During(plan, operation, Relocked)), [Delete(0)]) == Some(During(plan, operation, Deleted))
    {
      hide Inv;
      ghost var w := During(plan, operation, Relocked);
      Enabled(w, 0);
      InvStep(w, Delete(0));
      var s := stores[plan.path];
      stores := stores[plan.path :=
        s.(mutation := s.mutation + 1, runs := s.runs - {plan.run}, records := s.records - {plan.run},
           tombstones := s.tombstones[plan.run := Tombstone(operation, plan.origin.value, plan)])];
      ghost var w1 := During(plan, operation, Deleted);
      assert w1.processes == w.processes[0 := Disposer(plan, operation, Deleted)];
      assert DeleteRun(w, 0) == Some(w1);
      OneStep(w, Delete(0));
    }

    /** Third commit: the registry keeps the tombstone and forgets the references. */
    method CommitFinish(plan: Plan, operation: string)
      requires Inv(During(plan, operation, Deleted)) && plan.origin.Some?
      modifies this
      ensures Valid() && stores == old(stores) && plan.origin.value in registry.runs
      ensures registry.runs[plan.origin.value].state == Disposed
      ensures OwnerOf(Now(), plan.origin.value) == Some(Deletion(operation, plan))
      ensures After(old(During(plan, operation, Deleted)), [Finish(0)]) == Some(Now())
    {
      hide Inv;
      ghost var w := During(plan, operation, Deleted);
      Enabled(w, 0);
      Finished(w, 0, plan.origin.value);
      InvStep(w, Finish(0));
      FinishShape(w, 0);
      var o, t := plan.origin.value, stores[plan.path].tombstones[plan.run];
      registry := Saved(registry.(runs := registry.runs[o := Record(Disposed, plan.path, None, None, Some(t))],
                                  references := set r | r in registry.references && r.source != o));
      assert w.processes - {0} == map[];
      assert FinishDisposal(w, 0) == Some(Now());
      OneStep(w, Finish(0));
    }

    /** Mark, delete, finish, each followed by a commit; a stop leaves what was committed, and the
        state in between is one that the protocol reaches. The call succeeds for its own operation
        and plan, again and again, and for no other. */
    method DisposeRun(plan: Plan, operation: string, stop: Failpoint) returns (done: bool)
      requires Valid()
      modifies this
      ensures Valid()
      ensures done ==>
        && plan.origin.Some? && plan.origin.value in registry.runs
        && registry.runs[plan.origin.value].state == Disposed
        && OwnerOf(Now(), plan.origin.value) == Some(Deletion(operation, plan))
      ensures stop.NoStop? ==> (done <==> StartDisposal(old(Now()), 0, plan, operation).Some?)
      ensures !done && StartDisposal(old(Now()), 0, plan, operation).None? ==> Now() == old(Now())
    {
      hide Inv, Admitted, RetryMatches;
      ghost var w := Now();
      if plan.blockers != {} || plan.origin.None? || plan.path !in stores || plan.origin.value !in registry.runs {
        return false;
      }
      var o := plan.origin.value;
      var record := registry.runs[o];
      if record.state == Disposed {
        assert Admitted(w, plan, operation).None? by { GoneAdmitsNone(w, plan, operation); }
        return record.tombstone.Some? && record.tombstone.value.operation == operation && record.tombstone.value.plan == plan;
      }
      var phase := Admit(plan, operation);
      if phase.None? {
        return false;
      }
      StartKeeps(w, 0, plan, operation);
      assert w.processes[0 := Disposer(plan, operation, phase.value)] == map[0 := Disposer(plan, operation, phase.value)];
      assert phase.value != Marked by { NeverMarked(w, plan, operation); }
      hide StartDisposal;
      if phase.value == Ready {
        CommitMark(plan, operation);
      }
      if phase.value != Deleted {
        if stop.BeforeSourceCommit? {
          Rest(During(plan, operation, Relocked));
          return false;
        }
        CommitDelete(plan, operation);
        if stop.AfterSourceCommit? {
          Rest(During(plan, operation, Deleted));
          return false;
        }
      }
      CommitFinish(plan, operation);
      done := true;
    }
  }

  lemma GoneAdmitsNone(w: World, plan: Plan, operation: string)
    requires plan.origin.Some? && plan.origin.value in w.registry.runs && plan.path in w.stores
    requires w.registry.runs[plan.origin.value].state == Disposed
    ensures Admitted(w, plan, operation).None?
  {
  }

  lemma NeverMarked(w: World, plan: Plan, operation: string)
    requires plan.origin.Some? && plan.origin.value in w.registry.runs && plan.path in w.stores
    ensures Admitted(w, plan, operation) != Some(Marked)
  {
    hide BuildPlan, RetryMatches;
  }

  /** A process that stops leaves the databases as its last commit left them. */
  lemma Rest(w: World)
    requires Inv(w) && 0 in w.processes && w.processes.Keys == {0}
    ensures Inv(World(w.registry, w.stores, map[]))
  {
    hide Inv;
    StopKeeps(w, 0);
    assert w.processes - {0} == map[];
  }
}
