/** The promises of disposal over whole runs. */
module DisposalResults {
  import opened StrictJson
  import opened DisposalProtocol
  import opened DisposalLaws

  // ---------------------------------------------------------------- four joint states, one way

  /** The commit of a disposal of this Run. */
  predicate CommitsFor(w: World, e: Event, o: Origin)
  {
    && (e.Mark? || e.Delete? || e.Finish?) && e.p in w.processes && w.processes[e.p].Disposer?
    && w.processes[e.p].plan.origin == Some(o)
  }

  /** Records other than the one a disposal works on keep their state. */
  lemma RecordsStay(w: World, e: Event, o: Origin)
    requires Inv(w) && Next(w, e).Some? && o in w.registry.runs && !CommitsFor(w, e, o)
    ensures var v := Next(w, e).value;
            && o in v.registry.runs && v.registry.runs[o] == w.registry.runs[o].(cold := v.registry.runs[o].cold)
  {
    hide Inv, Replays, Admitted, RegistryFree, StoreFree, Incoming;
  }

  /** Tombstones of other Runs stay as they are. */
  lemma TombstonesStay(w: World, e: Event, o: Origin)
    requires Inv(w) && Next(w, e).Some? && o in w.registry.runs && !CommitsFor(w, e, o)
    ensures var path, v := w.registry.runs[o].hotPath, Next(w, e).value;
            && path in w.stores && path in v.stores
            && (o.run in v.stores[path].tombstones <==> o.run in w.stores[path].tombstones)
  {
    hide Inv, Replays, Admitted, RegistryFree, StoreFree, Incoming;
    InvUnfold(w);
    assert Agree(w, o);
    if e.Delete? {
      DeletePhase(w, e.p);
      var d := w.processes[e.p];
      assert ProcessOk(w, d) && Agree(w, d.plan.origin.value);
      hide ProcessOk, LocksExclusive, ReferencesAlive, TombstonesOwned;
      DeleteShape(w, e.p, w.registry.runs[o].hotPath);
    } else {
      hide ProcessOk, LocksExclusive, ReferencesAlive, TombstonesOwned, IdentitiesUnique;
    }
  }

  /** Every step leaves the joint state of a Run or moves it one place on; it moves only when a
      disposal of this very Run commits, and then its operation and plan own the Run. */
  lemma PairMoves(w: World, e: Event, o: Origin)
    requires Inv(w) && Next(w, e).Some? && o in w.registry.runs && w.registry.runs[o].hotPath in w.stores
    ensures var v := Next(w, e).value;
            && o in v.registry.runs && v.registry.runs[o].hotPath == w.registry.runs[o].hotPath
            && v.registry.runs[o].hotPath in v.stores
            && (StageOf(v, o) == StageOf(w, o)
                || (Rank(StageOf(v, o)) == Rank(StageOf(w, o)) + 1 && CommitsFor(w, e, o)
                    && OwnerOf(v, o) == Some(Deletion(w.processes[e.p].operation, w.processes[e.p].plan))))
            && (OwnerOf(w, o).Some? ==> OwnerOf(v, o) == OwnerOf(w, o))
  {
    if CommitsFor(w, e, o) {
      CommitMoves(w, e, o);
    } else {
      RecordsStay(w, e, o);
      TombstonesStay(w, e, o);
      hide Inv, Next, CommitsFor;
    }
  }

  predicate Moved(w: World, v: World, o: Origin, p: nat)
    requires o in w.registry.runs && w.registry.runs[o].hotPath in w.stores && p in w.processes && w.processes[p].Disposer?
  {
    && o in v.registry.runs && v.registry.runs[o].hotPath == w.registry.runs[o].hotPath
    && v.registry.runs[o].hotPath in v.stores
    && Rank(StageOf(v, o)) == Rank(StageOf(w, o)) + 1
    && OwnerOf(v, o) == Some(Deletion(w.processes[p].operation, w.processes[p].plan))
    && (OwnerOf(w, o).Some? ==> OwnerOf(v, o) == OwnerOf(w, o))
  }

  lemma CommitMoves(w: World, e: Event, o: Origin)
    requires Inv(w) && Next(w, e).Some? && o in w.registry.runs && CommitsFor(w, e, o)
    requires w.registry.runs[o].hotPath in w.stores
    ensures Moved(w, Next(w, e).value, o, e.p)
  {
    hide Inv, ReferencesAlive, LocksExclusive, IdentitiesUnique, TombstonesOwned, Moved;
    InvUnfold(w);
    assert ProcessOk(w, w.processes[e.p]) && Agree(w, o);
    match e
    case Mark(p) => MarkMoves(w, p, o);
    case Delete(p) => DeleteMoves(w, p, o);
    case Finish(p) => FinishMoves(w, p, o);
  }

  lemma MarkMoves(w: World, p: nat, o: Origin)
    requires MarkDeleting(w, p).Some? && w.processes[p].plan.origin == Some(o)
    requires o in w.registry.runs && ProcessOk(w, w.processes[p]) && Agree(w, o)
    ensures Moved(w, MarkDeleting(w, p).value, o, p)
  {
  }

  lemma DeleteMoves(w: World, p: nat, o: Origin)
    requires DeleteRun(w, p).Some? && p in w.processes && w.processes[p].Disposer? && w.processes[p].plan.origin == Some(o)
    requires o in w.registry.runs && ProcessOk(w, w.processes[p]) && Agree(w, o)
    ensures Moved(w, DeleteRun(w, p).value, o, p)
  {
    DeletePhase(w, p);
    DeleteShape(w, p, w.processes[p].plan.path);
    hide DeleteRun;
  }

  lemma FinishMoves(w: World, p: nat, o: Origin)
    requires FinishDisposal(w, p).Some? && p in w.processes && w.processes[p].Disposer? && w.processes[p].plan.origin == Some(o)
    requires o in w.registry.runs && ProcessOk(w, w.processes[p]) && Agree(w, o)
    ensures Moved(w, FinishDisposal(w, p).value, o, p)
  {
    FinishShape(w, p);
    hide FinishDisposal;
  }

  /** Once a disposal of a Run is recorded, its operation and plan own it for ever, and the joint
      state never goes back. */
  lemma {:induction false} OwnerForEver(start: World, run: seq<Event>, more: seq<Event>, o: Origin)
    requires Initial(start) && After(start, run).Some? && After(start, run + more).Some?
    requires o in After(start, run).value.registry.runs
    ensures var w, v := After(start, run).value, After(start, run + more).value;
            && w.registry.runs[o].hotPath in w.stores && o in v.registry.runs && v.registry.runs[o].hotPath in v.stores
            && Rank(StageOf(w, o)) <= Rank(StageOf(v, o))
            && (OwnerOf(w, o).Some? ==> OwnerOf(v, o) == OwnerOf(w, o))
    decreases |more|
  {
    hide Next, Inv, Initial;
    if more == [] {
      assert run + more == run;
      InvAlways(start, run);
      AgreePath(After(start, run).value, o);
    } else {
      var k := |more| - 1;
      assert (run + more)[..|run + more| - 1] == run + more[..k];
      Stepped(start, run + more);
      OwnerForEver(start, run, more[..k], o);
      InvAlways(start, run + more[..k]);
      PairMoves(After(start, run + more[..k]).value, more[k], o);
    }
  }

  lemma AgreePath(w: World, o: Origin)
    requires Inv(w) && o in w.registry.runs
    ensures w.registry.runs[o].hotPath in w.stores && Agree(w, o)
  {
    hide ProcessOk, ReferencesAlive, IdentitiesUnique, LocksExclusive, TombstonesOwned;
  }

  lemma Stepped(start: World, run: seq<Event>)
    requires run != [] && After(start, run).Some?
    ensures After(start, run[..|run| - 1]).Some?
    ensures After(start, run) == Next(After(start, run[..|run| - 1]).value, run[|run| - 1])
  {
    hide Next;
  }

  // ---------------------------------------------------------------- nothing points at a gone Run

  /** No reference leads to a Run that is being deleted or has been disposed of, and a hot
      locator is given only for a Run whose rows are in that store. */
  lemma NothingDangles(start: World, run: seq<Event>, o: Origin, preferCold: bool)
    requires Initial(start) && After(start, run).Some?
    ensures var g := After(start, run).value.registry;
            forall r :: r in g.references ==> r.target in g.runs && g.runs[r.target].state in {Active, Archived}
    ensures var w := After(start, run).value;
            match Resolve(w.registry, o, preferCold)
            case Some(Hot(path)) =>
              path in w.stores && w.stores[path].id == o.store && RowsThere(w.stores[path], o.run)
            case Some(Gone(path, t)) =>
              && path in w.stores && w.stores[path].id == o.store && RowsGone(w.stores[path], o.run)
              && w.stores[path].tombstones[o.run] == t && t.origin == o
            case _ => true
  {
    hide After, Initial;
    InvAlways(start, run);
    var w := After(start, run).value;
    hide Inv;
    InvUnfold(w);
    if o in w.registry.runs {
      assert Agree(w, o);
      var path := w.registry.runs[o].hotPath;
      if o.run in w.stores[path].tombstones {
        assert TombstonesOwned(w, path, o.run);
      }
    }
    hide ProcessOk, LocksExclusive;
  }

  // ---------------------------------------------------------------- who can continue, and when

  /** A registered identity is the unique one of its Run. */
  lemma Unique(g: Registry, o: Origin)
    requires IdentitiesUnique(g) && o in g.runs
    ensures UniqueOrigin(g, o.store, o.run) == Some(o)
  {
    assert OriginsOf(g, o.store, o.run) == {o};
    var u := UniqueOrigin(g, o.store, o.run);
    assert OriginsOf(g, o.store, o.run) == {u.value};
    assert o in {u.value};
  }

  /** What a retry needs after a stop between the first and the second commit: not one commit on
      the source since the plan was made, the row as planned and terminal, the scope still
      closed, and no related records. The registry may have moved on. */
  predicate SourceAsPlanned(s: Store, g: Registry, run: string, plan: Plan)
  {
    && plan.token == Token(s.id, s.mutation)
    && run in s.runs && plan.row == Some(s.runs[run]) && Terminal(s.runs[run].state)
    && g.scopeClosed && (run in s.records ==> s.records[run] == 0)
  }

  lemma RetryExactly(w: World, o: Origin, plan: Plan)
    requires Inv(w) && o in w.registry.runs && w.registry.runs[o].state == Deleting
    requires w.registry.runs[o].hotPath in w.stores && PlanFor(plan, o, w.registry.runs[o].hotPath)
    requires o.run !in w.stores[plan.path].tombstones
    ensures RetryMatches(w.stores[plan.path], w.registry, plan) <==>
      SourceAsPlanned(w.stores[plan.path], w.registry, o.run, plan)
  {
    hide Inv, LocksExclusive, TombstonesOwned, ProcessOk;
    InvUnfold(w);
    assert Agree(w, o);
    var g, s := w.registry, w.stores[plan.path];
    assert !Incoming(g, o);
    Unique(g, o);
    hide UniqueOrigin, IdentitiesUnique, ReferencesAlive, Incoming;
    var now := BuildPlan(s, plan.path, plan.run, g);
    assert now.blockers == (if Terminal(s.runs[o.run].state) then {} else {NotTerminal}) + {NotActive}
      + (if g.scopeClosed then {} else {ScopeOpen}) + (if o.run in s.records && s.records[o.run] > 0 then {RelatedRecords} else {});
    if Terminal(s.runs[o.run].state) && g.scopeClosed && (o.run in s.records ==> s.records[o.run] == 0) {
      assert now.blockers == {NotActive};
    } else {
      assert NotTerminal in now.blockers - {NotActive} || ScopeOpen in now.blockers - {NotActive}
        || RelatedRecords in now.blockers - {NotActive};
    }
  }

  /** The plan was made of the very state that is there, and nothing speaks against disposing of
      the Run: it is terminal and registered as active at this path, nothing refers or relates to
      it, and the scope is closed. */
  ghost predicate AsPlanned(w: World, o: Origin, plan: Plan)
    requires o in w.registry.runs && plan.path in w.stores
  {
    var g, s := w.registry, w.stores[plan.path];
    && plan.run == o.run && s.id == o.store && g.runs[o].state == Active && g.runs[o].hotPath == plan.path
    && o.run in s.runs && plan.row == Some(s.runs[o.run]) && s.runs[o.run].state in {"succeeded", "failed", "cancelled"}
    && (forall r :: r in g.references ==> r.target != o) && (o.run in s.records ==> s.records[o.run] == 0)
    && g.scopeClosed && plan.scopeClosed && plan.token == Token(s.id, s.mutation) && plan.registryRevision == g.revision
  }

  /** A new disposal begins exactly under these conditions, whatever the plan that it is given. */
  lemma StartExactly(w: World, p: nat, o: Origin, plan: Plan, operation: string)
    requires Inv(w) && o in w.registry.runs && w.registry.runs[o].state !in {Deleting, Disposed}
    requires plan.origin == Some(o) && plan.blockers == {} && plan.path in w.stores
    requires p !in w.processes && RegistryFree(w) && StoreFree(w, plan.path)
    ensures StartDisposal(w, p, plan, operation).Some? <==> AsPlanned(w, o, plan)
  {
    hide Inv, RegistryFree, StoreFree, BuildPlan;
    StartBuilds(w, p, o, plan, operation);
    PlanAgrees(w, o, plan);
  }

  lemma StartBuilds(w: World, p: nat, o: Origin, plan: Plan, operation: string)
    requires Inv(w) && o in w.registry.runs && w.registry.runs[o].state !in {Deleting, Disposed}
    requires plan.origin == Some(o) && plan.blockers == {} && plan.path in w.stores
    requires p !in w.processes && RegistryFree(w) && StoreFree(w, plan.path)
    ensures StartDisposal(w, p, plan, operation).Some? <==>
      plan.run !in w.stores[plan.path].tombstones && BuildPlan(w.stores[plan.path], plan.path, plan.run, w.registry) == plan
  {
    hide Inv, RegistryFree, StoreFree, BuildPlan, ProcessOk, Agree, LocksExclusive, ReferencesAlive, IdentitiesUnique;
    InvUnfold(w);
    if plan.run in w.stores[plan.path].tombstones { assert TombstonesOwned(w, plan.path, plan.run); }
    assert BuildPlan(w.stores[plan.path], plan.path, plan.run, w.registry).registryRevision == w.registry.revision by {
      PlanRevision(w.stores[plan.path], plan.path, plan.run, w.registry);
    }
  }

  lemma PlanRevision(s: Store, path: string, run: string, g: Registry)
    ensures BuildPlan(s, path, run, g).registryRevision == g.revision
  {
    hide UniqueOrigin, RowBlockers, OriginBlockers;
  }

  lemma PlanAgrees(w: World, o: Origin, plan: Plan)
    requires Inv(w) && o in w.registry.runs && w.registry.runs[o].state !in {Deleting, Disposed}
    requires plan.origin == Some(o) && plan.blockers == {} && plan.path in w.stores
    ensures AsPlanned(w, o, plan) <==>
      plan.run !in w.stores[plan.path].tombstones && BuildPlan(w.stores[plan.path], plan.path, plan.run, w.registry) == plan
  {
    var g, s := w.registry, w.stores[plan.path];
    hide Inv, ProcessOk, LocksExclusive, ReferencesAlive, TombstonesOwned;
    InvUnfold(w);
    assert Agree(w, o);
    Unique(g, o);
    UniqueIsRegistered(g, s.id, plan.run);
    hide UniqueOrigin, IdentitiesUnique;
    BlockersEmpty(s, plan.path, plan.run, g, o);
    hide RowBlockers, OriginBlockers, Incoming;
  }

  /** Nothing speaks against the disposal exactly if each of its conditions holds. */
  lemma BlockersEmpty(s: Store, path: string, run: string, g: Registry, o: Origin)
    requires o in g.runs && UniqueOrigin(g, o.store, o.run) == Some(o)
    ensures var now := BuildPlan(s, path, run, g);
            now.origin == Some(o) ==>
              (now.blockers == {} <==>
                && run in s.runs && s.runs[run].state in {"succeeded", "failed", "cancelled"}
                && g.runs[o].state == Active && g.runs[o].hotPath == path && (forall r :: r in g.references ==> r.target != o)
                && g.scopeClosed && (run in s.records ==> s.records[run] == 0))
  {
    hide UniqueOrigin;
    var now := BuildPlan(s, path, run, g);
    if now.origin == Some(o) && now.blockers == {} {
      assert RowBlockers(s, run) <= now.blockers && OriginBlockers(g, now.origin, path) <= now.blockers;
      assert ScopeOpen !in now.blockers && RelatedRecords !in now.blockers && NotTerminal !in now.blockers
        && UnknownRun !in now.blockers && AlreadyDisposed !in now.blockers && IncomingReferences !in now.blockers
        && HotPathMismatch !in now.blockers && ArchiveUnverified !in now.blockers && NotActive !in now.blockers;
    }
  }

  /** A Run that is being deleted is taken up exactly by the operation and plan that own it, and
      only if its rows are gone already or nothing on its source has changed. */
  lemma ResumeExactly(w: World, p: nat, o: Origin, plan: Plan, operation: string)
    requires Inv(w) && o in w.registry.runs && w.registry.runs[o].state == Deleting
    requires w.registry.runs[o].hotPath in w.stores
    requires plan.origin == Some(o) && plan.blockers == {} && plan.path in w.stores
    requires p !in w.processes && RegistryFree(w) && StoreFree(w, plan.path)
    ensures StartDisposal(w, p, plan, operation).Some? <==>
      && OwnerOf(w, o) == Some(Deletion(operation, plan))
      && (StageOf(w, o) == Buried || SourceAsPlanned(w.stores[plan.path], w.registry, o.run, plan))
  {
    assert Agree(w, o) by { AgreePath(w, o); }
    if OwnerOf(w, o) == Some(Deletion(operation, plan)) && StageOf(w, o) == Doomed {
      RetryExactly(w, o, plan);
    }
    hide Inv, RetryMatches, BuildPlan, SourceAsPlanned, RegistryFree, StoreFree;
  }

  /** The rest of a disposal after its admission: the phases it still needs, one after another. */
  lemma AdmittedCompletes(w: World, p: nat, o: Origin) returns (run: seq<Event>)
    requires Inv(w) && p in w.processes && w.processes[p].Disposer? && w.processes[p].plan.origin == Some(o)
    requires w.processes[p].phase.Marked? ==> RegistryFree(w)
    ensures After(w, run).Some?
    ensures var v := After(w, run).value;
            && o in v.registry.runs && v.registry.runs[o].hotPath in v.stores
            && StageOf(v, o) == Closed
            && OwnerOf(v, o) == Some(Deletion(w.processes[p].operation, w.processes[p].plan))
            && v.processes == w.processes - {p}
    decreases match w.processes[p].phase case Ready => 3 case Marked => 2 case Relocked => 1 case Deleted => 0
  {
    hide Inv, After, Next, ProcessOk, StageOf, OwnerOf, RegistryFree;
    var d := w.processes[p];
    var e := NextCommit(p, d.phase);
    Enabled(w, p);
    var v := Next(w, e).value;
    InvStep(w, e);
    OneStep(w, e);
    if d.phase.Deleted? {
      Finished(w, p, o);
      run := [e];
    } else {
      Moves(w, p);
      var rest := AdmittedCompletes(v, p, o);
      JoinedRuns(w, [e], rest);
      run := [e] + rest;
    }
  }

  function NextCommit(p: nat, phase: Phase): Event
  {
    match phase
    case Ready => Mark(p)
    case Marked => Relock(p)
    case Relocked => Delete(p)
    case Deleted => Finish(p)
  }

  lemma Finished(w: World, p: nat, o: Origin)
    requires Inv(w) && InPhase(w, p, Deleted) && w.processes[p].plan.origin == Some(o) && FinishDisposal(w, p).Some?
    ensures var v := FinishDisposal(w, p).value;
            && o in v.registry.runs && v.registry.runs[o].hotPath in v.stores && StageOf(v, o) == Closed
            && OwnerOf(v, o) == Some(Deletion(w.processes[p].operation, w.processes[p].plan))
            && v.processes == w.processes - {p}
  {
    hide Inv;
    InvUnfold(w);
    FinishShape(w, p);
    assert ProcessOk(w, w.processes[p]) && Agree(w, o);
    hide FinishDisposal, LocksExclusive, ReferencesAlive, TombstonesOwned, IdentitiesUnique;
  }

  lemma Enabled(w: World, p: nat)
    requires Inv(w) && p in w.processes && w.processes[p].Disposer?
    requires w.processes[p].phase.Marked? ==> RegistryFree(w)
    ensures Next(w, NextCommit(p, w.processes[p].phase)).Some? && InPhase(w, p, w.processes[p].phase)
    ensures w.processes[p].phase.Deleted? ==> Next(w, NextCommit(p, w.processes[p].phase)) == FinishDisposal(w, p)
  {
    hide Inv, LocksExclusive, ReferencesAlive, TombstonesOwned, IdentitiesUnique, Agree, RegistryFree;
    InvUnfold(w);
    assert ProcessOk(w, w.processes[p]);
  }

  lemma Moves(w: World, p: nat)
    requires Inv(w) && p in w.processes && w.processes[p].Disposer? && !w.processes[p].phase.Deleted?
    requires Next(w, NextCommit(p, w.processes[p].phase)).Some?
    ensures var v, d := Next(w, NextCommit(p, w.processes[p].phase)).value, w.processes[p];
            && p in v.processes && v.processes == w.processes[p := v.processes[p]]
            && v.processes[p] == d.(phase := match d.phase case Ready => Marked case Marked => Relocked case _ => Deleted)
            && (v.processes[p].phase.Marked? ==> RegistryFree(v))
  {
    hide Inv, ReferencesAlive, TombstonesOwned, IdentitiesUnique, Agree, ProcessOk;
    InvUnfold(w);
    match w.processes[p].phase
    case Ready => MarkShape(w, p); hide MarkDeleting;
    case Marked => hide LocksExclusive;
    case Relocked => hide LocksExclusive;
  }

  lemma {:induction false} JoinedRuns(w: World, p: seq<Event>, q: seq<Event>)
    requires After(w, p).Some?
    ensures After(w, p + q) == After(After(w, p).value, q)
    decreases |q|
  {
    hide Next;
    if q == [] {
      assert p + q == p;
    } else {
      var k := |q| - 1;
      assert (p + q)[..|p + q| - 1] == p + q[..k];
      JoinedRuns(w, p, q[..k]);
    }
  }

  lemma OneStep(w: World, e: Event)
    ensures After(w, [e]) == Next(w, e)
  {
    hide Next;
    assert [e][..0] == [];
    assert After(w, [e][..0]) == Some(w);
  }
}
